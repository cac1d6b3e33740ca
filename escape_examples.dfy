/**
  The MarkdownV2 escaping on the texts of the paired-emphasis examples:
  `send_message` escapes every reserved character, paired or not, so a lone
  emphasis marker and a doubled one both gain a backslash each.
 */
module EscapeExamples {
  import opened TgClient

  const Hello: string := "Hello "
  const World: string := "world"

  /** "Hello *world*!" becomes "Hello \*world\*\!". */
  lemma EscapeLoneStars()
    ensures Escape(Hello + "*" + World + "*" + "!") == Hello + "\\*" + World + "\\*" + "\\!"
  {
    CleanWords();
    Marks();
    EscapeFive(Hello, "*", World, "*", "!");
  }

  /** "Hello **world**!" becomes "Hello \*\*world\*\*\!": the pair is not kept. */
  lemma EscapeDoubledStars()
    ensures Escape(Hello + "**" + World + "**" + "!") == Hello + "\\*\\*" + World + "\\*\\*" + "\\!"
  {
    CleanWords();
    Marks();
    EscapeFive(Hello, "**", World, "**", "!");
  }

  /** Escaping five pieces in a row is escaping each piece. */
  lemma EscapeFive(a: string, b: string, c: string, d: string, e: string)
    ensures Escape(a + b + c + d + e) == Escape(a) + Escape(b) + Escape(c) + Escape(d) + Escape(e)
  {
    EscapeConcat(a + b + c + d, e);
    EscapeConcat(a + b + c, d);
    EscapeConcat(a + b, c);
    EscapeConcat(a, b);
  }

  lemma Marks()
    ensures Escape("*") == "\\*" && Escape("**") == "\\*\\*" && Escape("!") == "\\!"
  {
    EscapeConcat("*", "*");
  }

  lemma CleanWords()
    ensures Escape(Hello) == Hello && Escape(World) == World
  {
    CleanHello();
    CleanWorld();
  }

  lemma CleanHello()
    ensures Escape(Hello) == Hello
  {
    assert Hello == ['H', 'e', 'l', 'l', 'o', ' '];
    EscapeClean(Hello);
  }

  lemma CleanWorld()
    ensures Escape(World) == World
  {
    assert World == ['w', 'o', 'r', 'l', 'd'];
    EscapeClean(World);
  }
}
