/**
  Where the draw command's prompt is cut, byte by byte. `str::find` on the
  lower-cased text gives a byte offset into the LOWER-CASED text, and the
  handler slices the ORIGINAL text at that offset plus the command's length
  in bytes. Where no capital dotted I comes before the command, the cut is
  right exactly when the text before the command keeps its UTF-8 byte length
  under lowering (`AsWrittenRightExactlyWhenBytesKept`). Every character
  lowering to one character of the same UTF-8 length is enough for that, but
  not needed: 'ẞ' loses a byte and 'Ⱥ' gains one, so the pair cancels
  (`AsWrittenPairCancels`). A single 'İ' (U+0130, two bytes, lowered to
  "i̇", three bytes) or a Kelvin sign (three bytes, lowered to 'k', one byte)
  moves the cut.

  `DrawPromptAsWritten` is the cut as the handler makes it; `DrawPrompt`
  (in MessageProcessor, used by both routes) is the cut as intended, at the
  same code point of the text itself.
 */
module DrawIndex {
  import opened Wrappers
  import opened Text
  import opened MessageProcessor

  /** The number of bytes UTF-8 spends on a code point. */
  function Utf8Len(c: char): (n: nat)
    ensures 1 <= n <= 4
  {
    if c < 0x80 as char then 1
    else if c < 0x800 as char then 2
    else if c < 0x10000 as char then 3
    else 4
  }

  /** The number of bytes of a text in UTF-8 (`str::len`). */
  function ByteLen(s: string): nat
  {
    if s == [] then 0 else Utf8Len(s[0]) + ByteLen(s[1..])
  }

  const CapitalDottedI: char := 'İ'

  /** `DRAW_COMMAND.len()`: the draw command's length in bytes (see `CommandBytes`). */
  const DrawCommandLen: nat := 14

  /**
    `char::to_lowercase` where it differs from `LowerChar`: the capital dotted
    I becomes a small i followed by a combining dot above (U+0307).
   */
  function LowerFull(c: char): string
  {
    if c == CapitalDottedI then ['i', '\U{0307}'] else [LowerChar(c)]
  }

  /** `c` lowers to a single character that takes as many UTF-8 bytes as `c`. */
  predicate LowersInPlace(c: char)
  {
    |LowerFull(c)| == 1 && Utf8Len(LowerFull(c)[0]) == Utf8Len(c)
  }

  /**
    Of the lowering modelled here, exactly the capital dotted I and six
    capitals do not lower in place: the Kelvin sign (3 bytes to 1), the
    Angstrom sign, the Ohm sign and the capital sharp s (3 to 2), and the
    capitals A and T with stroke (2 to 3).
   */
  lemma NotInPlace(c: char)
    ensures !LowersInPlace(c) <==>
      || c == CapitalDottedI
      || c == '\U{212A}' || c == '\U{212B}' || c == '\U{2126}' || c == '\U{1E9E}'
      || c == '\U{023A}' || c == '\U{023E}'
  {
  }

  /** `str::to_lowercase`, with every character lowered by `LowerFull`. */
  function LowerStr(s: string): string
  {
    if s == [] then [] else LowerFull(s[0]) + LowerStr(s[1..])
  }

  /**
    `&text[b..]`: the text from byte `b` on, or None where Rust panics
    because `b` is past the end or inside a character.
   */
  function SliceFromByte(text: string, b: nat): Option<string>
    decreases |text|
  {
    if b == 0 then Some(text)
    else if text == [] || b < Utf8Len(text[0]) then None
    else SliceFromByte(text[1..], b - Utf8Len(text[0]))
  }

  /**
    The prompt as `process_message_internal` and `process_image_request` cut
    it: the byte offset of the command in the lower-cased text, plus the
    command's length in bytes, used on the original text. None: the slice
    panics.
   */
  function DrawPromptAsWritten(text: string): Option<string>
    requires Contains(LowerStr(text), DrawCommand)
  {
    var lowered := LowerStr(text);
    var i := Find(lowered, DrawCommand).value;
    SliceFromByte(text, ByteLen(lowered[..i]) + DrawCommandLen)
  }

  // ---------------------------------------------------------------------------
  // Byte offsets.

  lemma {:induction false} ByteLenConcat(a: string, b: string)
    ensures ByteLen(a + b) == ByteLen(a) + ByteLen(b)
    decreases |a|
  {
    if a != [] {
      assert (a + b)[1..] == a[1..] + b;
      ByteLenConcat(a[1..], b);
    } else {
      assert a + b == b;
    }
  }

  /** Cutting at the byte offset of the first `k` characters skips exactly those characters. */
  lemma {:induction false} SliceAfterPrefix(s: string, k: nat, m: nat)
    requires k <= |s|
    ensures SliceFromByte(s, ByteLen(s[..k]) + m) == SliceFromByte(s[k..], m)
    decreases k
  {
    if k > 0 {
      assert s[..k] == [s[0]] + s[1..][..k - 1];
      ByteLenConcat([s[0]], s[1..][..k - 1]);
      SliceAfterPrefix(s[1..], k - 1, m);
      assert s[1..][k - 1..] == s[k..];
    }
  }

  /** Lowering by `LowerChar` keeps the byte length of a text whose characters each keep theirs. */
  lemma {:induction false} LowerKeepsByteLen(s: string)
    requires forall i :: 0 <= i < |s| ==> Utf8Len(LowerChar(s[i])) == Utf8Len(s[i])
    ensures ByteLen(Lower(s)) == ByteLen(s)
    decreases |s|
  {
    if s != [] {
      assert Lower(s)[1..] == Lower(s[1..]);
      LowerKeepsByteLen(s[1..]);
    }
  }

  /** Without a capital dotted I, `str::to_lowercase` is the code-point-wise lowering. */
  lemma {:induction false} LowerStrWithoutDottedI(s: string)
    requires forall i :: 0 <= i < |s| ==> s[i] != CapitalDottedI
    ensures LowerStr(s) == Lower(s)
    decreases |s|
  {
    if s != [] {
      LowerStrWithoutDottedI(s[1..]);
      assert Lower(s) == [LowerChar(s[0])] + Lower(s[1..]);
    }
  }

  /**
    While every character lowers in place, the cut as written and the cut as
    intended agree: the same texts take the draw path, and they get the same
    prompt.
   */
  lemma AsWrittenAgreesWhereLengthsKept(text: string)
    requires forall i :: 0 <= i < |text| ==> LowersInPlace(text[i])
    ensures Contains(LowerStr(text), DrawCommand) <==> DrawPrompt(text).Some?
    ensures Contains(LowerStr(text), DrawCommand) ==> DrawPromptAsWritten(text) == DrawPrompt(text)
  {
    LowerStrWithoutDottedI(text);
    if Contains(LowerStr(text), DrawCommand) {
      AsWrittenAgreesBeforeCommand(text, Find(Lower(text), DrawCommand).value);
    }
  }

  /**
    Where the command is first found at `i` and every character before it
    lowers in place, the text takes the draw path as written too, and the
    prompt is the same; what follows the command does not matter.
   */
  lemma AsWrittenAgreesBeforeCommand(text: string, i: nat)
    requires Find(Lower(text), DrawCommand) == Some(i)
    requires forall k :: 0 <= k < i ==> LowersInPlace(text[k])
    ensures Contains(LowerStr(text), DrawCommand)
    ensures DrawPromptAsWritten(text) == DrawPrompt(text)
  {
    forall k | 0 <= k < i ensures text[k] != CapitalDottedI {
      assert LowersInPlace(text[k]);
    }
    FoundAtSameIndex(text, i);
    CommandOffset(text, i);
    CutsAgreeAt(text, i);
  }

  /**
    Without a capital dotted I before the command, the text takes the draw
    path as written too, and the cut as written is the intended one exactly
    when the text before the command keeps its UTF-8 byte length under
    lowering.
   */
  lemma AsWrittenRightExactlyWhenBytesKept(text: string, i: nat)
    requires Find(Lower(text), DrawCommand) == Some(i)
    requires forall k :: 0 <= k < i ==> text[k] != CapitalDottedI
    ensures Contains(LowerStr(text), DrawCommand)
    ensures DrawPromptAsWritten(text) == DrawPrompt(text) <==> ByteLen(Lower(text[..i])) == ByteLen(text[..i])
  {
    FoundAtSameIndex(text, i);
    LoweredPrefixBytes(text, i);
    WrittenCutAt(text, i);
    IntendedCutAt(text, i);
    BytesThroughCommand(text, i);
    var b := ByteLen(LowerStr(text)[..i]) + DrawCommandLen;
    SliceIsRestExactly(text, b, i + |DrawCommand|);
    SameCutExactly(DrawPromptAsWritten(text), SliceFromByte(text, b), DrawPrompt(text), text[i + |DrawCommand|..],
      ByteLen(LowerStr(text)[..i]), ByteLen(Lower(text[..i])), ByteLen(text[..i]), ByteLen(text[..i + |DrawCommand|]));
  }

  /** The step that closes `AsWrittenRightExactlyWhenBytesKept`, over the values it relates. */
  lemma SameCutExactly(written: Option<string>, cut: Option<string>, intended: Option<string>, rest: string,
                       lowBytes: nat, lowerBytes: nat, headBytes: nat, throughBytes: nat)
    requires written == cut && intended == Some(rest)
    requires lowBytes == lowerBytes && throughBytes == headBytes + DrawCommandLen
    requires cut == Some(rest) <==> lowBytes + DrawCommandLen == throughBytes
    ensures written == intended <==> lowerBytes == headBytes
  {
  }

  /** Where both lowerings agree before `i`, so do the byte lengths of what comes before it. */
  lemma LoweredPrefixBytes(text: string, i: nat)
    requires i <= |text| && i <= |LowerStr(text)| && LowerStr(text)[..i] == Lower(text)[..i]
    ensures ByteLen(LowerStr(text)[..i]) == ByteLen(Lower(text[..i]))
  {
    assert Lower(text)[..i] == Lower(text[..i]);
  }

  /** The text through the command: the bytes before it and the command's 14. */
  lemma BytesThroughCommand(text: string, i: nat)
    requires OccursAt(Lower(text), DrawCommand, i)
    ensures ByteLen(text[..i + |DrawCommand|]) == ByteLen(text[..i]) + DrawCommandLen
  {
    var m := i + |DrawCommand|;
    CommandKeepsBytes(text, i);
    assert text[..m] == text[..i] + text[i..m];
    ByteLenConcat(text[..i], text[i..m]);
  }

  /** A byte slice gives the text after its first `m` characters exactly when it is cut at their byte length. */
  lemma SliceIsRestExactly(text: string, b: nat, m: nat)
    requires m <= |text|
    ensures SliceFromByte(text, b) == Some(text[m..]) <==> b == ByteLen(text[..m])
  {
    SliceAtPrefixBytes(text, m);
    if SliceFromByte(text, b) == Some(text[m..]) {
      SliceBytes(text, b);
      assert text == text[..m] + text[m..];
      ByteLenConcat(text[..m], text[m..]);
    }
  }

  /** What a byte slice leaves is as many bytes shorter as the slice skips. */
  lemma {:induction false} SliceBytes(text: string, b: nat)
    requires SliceFromByte(text, b).Some?
    ensures ByteLen(SliceFromByte(text, b).value) + b == ByteLen(text)
    decreases |text|
  {
    if b != 0 {
      SliceBytes(text[1..], b - Utf8Len(text[0]));
    }
  }

  /**
    Both cuts give the same prompt where both lowerings put the command at
    `i` and the byte offset after it is the same in the text.
   */
  lemma CutsAgreeAt(text: string, i: nat)
    requires Find(Lower(text), DrawCommand) == Some(i)
    requires Find(LowerStr(text), DrawCommand) == Some(i)
    requires ByteLen(LowerStr(text)[..i]) + DrawCommandLen == ByteLen(text[..i + |DrawCommand|])
    ensures DrawPromptAsWritten(text) == DrawPrompt(text)
  {
    WrittenCutAt(text, i);
    SliceAtPrefixBytes(text, i + |DrawCommand|);
    IntendedCutAt(text, i);
  }

  /** Slicing at the byte length of the first `m` characters gives the rest of the text. */
  lemma {:induction false} SliceAtPrefixBytes(text: string, m: nat)
    requires m <= |text|
    ensures SliceFromByte(text, ByteLen(text[..m])) == Some(text[m..])
    decreases m
  {
    if m > 0 {
      assert text[..m] == [text[0]] + text[1..][..m - 1];
      ByteLenConcat([text[0]], text[1..][..m - 1]);
      SliceAtPrefixBytes(text[1..], m - 1);
      assert text[1..][m - 1..] == text[m..];
    } else {
      assert text[..m] == [];
    }
  }

  /** The cut as written, where `str::to_lowercase` puts the command at `i`. */
  lemma WrittenCutAt(text: string, i: nat)
    requires Find(LowerStr(text), DrawCommand) == Some(i)
    ensures DrawPromptAsWritten(text) == SliceFromByte(text, ByteLen(LowerStr(text)[..i]) + DrawCommandLen)
  {
  }

  /** The cut as intended, where `Lower` puts the command at `i`. */
  lemma IntendedCutAt(text: string, i: nat)
    requires Find(Lower(text), DrawCommand) == Some(i)
    ensures DrawPrompt(text) == Some(text[i + |DrawCommand|..])
  {
  }

  /**
    Without a capital dotted I before the command, `str::to_lowercase` finds
    it at the same code point, and agrees with `Lower` before it.
   */
  lemma FoundAtSameIndex(text: string, i: nat)
    requires Find(Lower(text), DrawCommand) == Some(i)
    requires forall k :: 0 <= k < i ==> text[k] != CapitalDottedI
    ensures Find(LowerStr(text), DrawCommand) == Some(i)
    ensures LowerStr(text)[..i] == Lower(text)[..i]
  {
    LoweredHeadsAgree(text, i);
    FindSharedPrefix(Lower(text), LowerStr(text), DrawCommand, i);
  }

  /** The two lowerings agree up to the end of the command. */
  lemma LoweredHeadsAgree(text: string, i: nat)
    requires OccursAt(Lower(text), DrawCommand, i)
    requires forall k :: 0 <= k < i ==> text[k] != CapitalDottedI
    ensures i + |DrawCommand| <= |LowerStr(text)|
    ensures LowerStr(text)[..i + |DrawCommand|] == Lower(text)[..i + |DrawCommand|]
    ensures LowerStr(text)[..i] == Lower(text)[..i]
  {
    var m := i + |DrawCommand|;
    HeadLowersCharwise(text, i);
    SplitLowered(text, m);
    assert LowerStr(text)[..m][..i] == LowerStr(text)[..i];
  }

  /** Both lowerings of a text, split at `m`. */
  lemma SplitLowered(text: string, m: nat)
    requires m <= |text|
    ensures LowerStr(text) == LowerStr(text[..m]) + LowerStr(text[m..])
    ensures Lower(text[..m]) == Lower(text)[..m]
  {
    assert text == text[..m] + text[m..];
    LowerStrConcat(text[..m], text[m..]);
  }

  /** Up to the end of the command no character is a capital dotted I. */
  lemma HeadLowersCharwise(text: string, i: nat)
    requires OccursAt(Lower(text), DrawCommand, i)
    requires forall k :: 0 <= k < i ==> text[k] != CapitalDottedI
    ensures LowerStr(text[..i + |DrawCommand|]) == Lower(text[..i + |DrawCommand|])
  {
    var n := |DrawCommand|;
    var head := text[..i + n];
    forall k | 0 <= k < |head| ensures head[k] != CapitalDottedI {
      if k >= i {
        CommandIsLowerCyrillic();
        assert Lower(text)[i..i + n][k - i] == Lower(text)[k];
      }
    }
    LowerStrWithoutDottedI(head);
  }

  /**
    Where the lowered text holds the command at `i` and every character
    before it lowers in place, the byte offset after the command is the same
    in the lowered text and in the text.
   */
  lemma CommandOffset(text: string, i: nat)
    requires OccursAt(Lower(text), DrawCommand, i)
    requires forall k :: 0 <= k < i ==> LowersInPlace(text[k])
    ensures ByteLen(Lower(text)[..i]) + DrawCommandLen == ByteLen(text[..i + |DrawCommand|])
  {
    var n := |DrawCommand|;
    var before, command := text[..i], text[i..i + n];
    BytesBeforeCommand(text, i);
    CommandKeepsBytes(text, i);
    assert text[..i + n] == before + command;
    ByteLenConcat(before, command);
  }

  /** Characters that lower in place keep the byte length of the text before `i`. */
  lemma BytesBeforeCommand(text: string, i: nat)
    requires i <= |text|
    requires forall k :: 0 <= k < i ==> LowersInPlace(text[k])
    ensures ByteLen(Lower(text)[..i]) == ByteLen(text[..i])
  {
    var before := text[..i];
    assert Lower(text)[..i] == Lower(before);
    forall k | 0 <= k < |before| ensures Utf8Len(LowerChar(before[k])) == Utf8Len(before[k]) {
      assert LowersInPlace(text[k]);
    }
    LowerKeepsByteLen(before);
  }

  /** The characters that lower to the command take its 14 bytes. */
  lemma CommandKeepsBytes(text: string, i: nat)
    requires OccursAt(Lower(text), DrawCommand, i)
    ensures ByteLen(text[i..i + |DrawCommand|]) == DrawCommandLen
  {
    var n := |DrawCommand|;
    var command := text[i..i + n];
    assert Lower(text)[i..i + n] == Lower(command) == DrawCommand;
    forall k | 0 <= k < n ensures Utf8Len(LowerChar(command[k])) == Utf8Len(command[k]) {
      CommandIsLowerCyrillic();
      assert Lower(command)[k] == DrawCommand[k];
      LowersToCyrillic(command[k]);
    }
    LowerKeepsByteLen(command);
    CommandBytes();
  }

  /** Every letter of the draw command is a small Cyrillic letter U+0430..U+044F. */
  lemma CommandIsLowerCyrillic()
    ensures forall k :: 0 <= k < |DrawCommand| ==> 'а' <= DrawCommand[k] <= 'я'
  {
    assert DrawCommand == ['н', 'а', 'р', 'и', 'с', 'у', 'й'];
  }

  /** Only a Cyrillic letter lowers to a small Cyrillic letter, and it takes two bytes as both. */
  lemma LowersToCyrillic(c: char)
    requires 'а' <= LowerChar(c) <= 'я'
    ensures Utf8Len(LowerChar(c)) == Utf8Len(c) == 2
  {
  }

  // ---------------------------------------------------------------------------
  // Where they differ.

  const Cat: string := " cat"
  const Cot: string := " кот"

  /** The command and what follows it lower to themselves and hold no capital dotted I. */
  lemma CommandTails()
    ensures LowerStr(DrawCommand + Cat) == DrawCommand + Cat
    ensures LowerStr(DrawCommand + Cot) == DrawCommand + Cot
  {
    CommandTail(Cat);
    CommandTail(Cot);
  }

  lemma CommandTail(rest: string)
    requires rest == Cat || rest == Cot
    ensures LowerStr(DrawCommand + rest) == DrawCommand + rest
  {
    var t := DrawCommand + rest;
    LowerTextOfTail(rest);
    assert forall k :: 0 <= k < |t| ==> t[k] != CapitalDottedI by {
      if rest == Cat {
        assert t == ['н', 'а', 'р', 'и', 'с', 'у', 'й', ' ', 'c', 'a', 't'];
      } else {
        assert t == ['н', 'а', 'р', 'и', 'с', 'у', 'й', ' ', 'к', 'о', 'т'];
      }
    }
    LowerStrWithoutDottedI(t);
  }

  /** The lowered capital dotted I takes three bytes; the capital itself two. */
  lemma DottedIBytes()
    ensures ByteLen(['i', '\U{0307}']) == 3 && ByteLen([CapitalDottedI]) == 2
  {
    assert ['i', '\U{0307}'][1..] == ['\U{0307}'];
  }

  lemma CommandBytes()
    ensures ByteLen(DrawCommand) == DrawCommandLen
  {
  }

  /**
    "İнарисуй cat": the command is found at byte 3 of "i̇нарисуй cat", but
    starts at byte 2 of the text, so the prompt loses its first character:
    "cat" as written, " cat" as intended.
   */
  lemma AsWrittenShiftsPrompt()
    ensures var text := [CapitalDottedI] + DrawCommand + Cat;
      && Contains(LowerStr(text), DrawCommand)
      && DrawPromptAsWritten(text) == Some(Cat[1..])
      && DrawPrompt(text) == Some(Cat)
  {
    CommandOffsetPastDottedI([CapitalDottedI], Cat);
    ShiftedSlice();
    IntendedPastDottedI([CapitalDottedI], Cat);
  }

  /**
    "İİнарисуй кот": the offset is 6 + 14 = 20 bytes, which falls inside the
    two-byte 'к' of the text, and the slice panics.
   */
  lemma AsWrittenPanics()
    ensures var text := [CapitalDottedI, CapitalDottedI] + DrawCommand + Cot;
      && Contains(LowerStr(text), DrawCommand)
      && DrawPromptAsWritten(text) == None
      && DrawPrompt(text) == Some(Cot)
  {
    CommandOffsetPastDottedI([CapitalDottedI, CapitalDottedI], Cot);
    PanickingSlice();
    IntendedPastDottedI([CapitalDottedI, CapitalDottedI], Cot);
  }

  const KelvinSign: char := '\U{212A}'

  /**
    "Kнарисуй cat" with the Kelvin sign (three bytes) for K: it lowers to 'k'
    (one byte), the command is found at byte 1 of the lowered text, and the
    cut at byte 1 + 14 falls two bytes short of the command's end, so the
    prompt keeps the command's last letter: "й cat" as written, " cat" as
    intended.
   */
  lemma AsWrittenCutsIntoCommand()
    ensures var text := [KelvinSign] + DrawCommand + Cat;
      && Contains(LowerStr(text), DrawCommand)
      && DrawPromptAsWritten(text) == Some(DrawCommand[6..] + Cat)
      && DrawPrompt(text) == Some(Cat)
  {
    KelvinFound();
    KelvinSlice();
    KelvinIntended();
  }

  /** "Kнарисуй cat" lowers to "kнарисуй cat", with the command at byte 1. */
  lemma KelvinFound()
    ensures var lowered := LowerStr([KelvinSign] + DrawCommand + Cat);
      && Find(lowered, DrawCommand) == Some(1)
      && ByteLen(lowered[..1]) == 1
  {
    var tail := DrawCommand + Cat;
    assert [KelvinSign] + DrawCommand + Cat == [KelvinSign] + tail;
    CommandTails();
    LowerStrConcat([KelvinSign], tail);
    assert LowerStr([KelvinSign]) == ['k'];
    assert tail[..|DrawCommand|] == DrawCommand;
    FindPastPrefix(['k'], tail, DrawCommand);
    assert (['k'] + tail)[..1] == ['k'];
  }

  /** From byte 1 + 14 of "Kнарисуй cat" on: "й cat". */
  lemma KelvinSlice()
    ensures SliceFromByte([KelvinSign] + DrawCommand + Cat, 1 + DrawCommandLen) == Some(DrawCommand[6..] + Cat)
  {
    var text := [KelvinSign] + DrawCommand + Cat;
    var front := DrawCommand[..6];
    assert front == ['н', 'а', 'р', 'и', 'с', 'у'];
    assert text[..7] == [KelvinSign] + front;
    ByteLenConcat([KelvinSign], front);
    assert ByteLen([KelvinSign]) == 3;
    assert ByteLen(['н', 'а', 'р', 'и', 'с', 'у']) == 12;
    SliceAfterPrefix(text, 7, 0);
    assert text[7..] == DrawCommand[6..] + Cat;
  }

  /** The intended cut of "Kнарисуй cat": " cat". */
  lemma KelvinIntended()
    ensures DrawPrompt([KelvinSign] + DrawCommand + Cat) == Some(Cat)
  {
    var tail := DrawCommand + Cat;
    var text := [KelvinSign] + tail;
    assert text == [KelvinSign] + DrawCommand + Cat;
    LowerTextOfTail(Cat);
    assert Lower([KelvinSign]) == ['k'];
    LowerConcat([KelvinSign], tail);
    assert tail[..|DrawCommand|] == DrawCommand;
    FindPastPrefix(['k'], tail, DrawCommand);
    assert text[1 + |DrawCommand|..] == Cat;
  }

  const CapitalSharpS: char := '\U{1E9E}'
  const CapitalAWithStroke: char := '\U{023A}'

  /**
    "ẞȺнарисуй cat": neither capital lowers in place, 'ẞ' (three bytes) to
    'ß' (two) and 'Ⱥ' (two) to 'ⱥ' (three), but the two changes cancel, the
    text before the command keeps its five bytes, and the cut as written is
    the intended " cat".
   */
  lemma AsWrittenPairCancels()
    ensures var text := [CapitalSharpS, CapitalAWithStroke] + DrawCommand + Cat;
      && !LowersInPlace(text[0]) && !LowersInPlace(text[1])
      && Contains(LowerStr(text), DrawCommand)
      && DrawPromptAsWritten(text) == Some(Cat)
      && DrawPrompt(text) == Some(Cat)
  {
    var pair := [CapitalSharpS, CapitalAWithStroke];
    var text := pair + DrawCommand + Cat;
    PairFound();
    assert text[..2] == pair;
    assert ByteLen(Lower(pair)) == ByteLen(pair) by {
      assert Lower(pair) == ['\U{00DF}', '\U{2C65}'];
      assert pair == ['\U{1E9E}', '\U{023A}'];
      assert ByteLen(['\U{00DF}', '\U{2C65}']) == 5 == ByteLen(['\U{1E9E}', '\U{023A}']);
    }
    AsWrittenRightExactlyWhenBytesKept(text, 2);
    IntendedCutAt(text, 2);
    assert text[2 + |DrawCommand|..] == Cat;
  }

  /** "ẞȺнарисуй cat" lowers to "ßⱥнарисуй cat", with the command at code point 2. */
  lemma PairFound()
    ensures Find(Lower([CapitalSharpS, CapitalAWithStroke] + DrawCommand + Cat), DrawCommand) == Some(2)
  {
    var pair := [CapitalSharpS, CapitalAWithStroke];
    var tail := DrawCommand + Cat;
    assert pair + DrawCommand + Cat == pair + tail;
    LowerTextOfTail(Cat);
    assert Lower(pair) == ['\U{00DF}', '\U{2C65}'];
    LowerConcat(pair, tail);
    assert tail[..|DrawCommand|] == DrawCommand;
    FindPastPrefix(['\U{00DF}', '\U{2C65}'], tail, DrawCommand);
  }

  /** Behind one or two capital dotted Is the command is found at byte 3 or 6 of the lowered text. */
  lemma CommandOffsetPastDottedI(dotted: string, rest: string)
    requires dotted == [CapitalDottedI] || dotted == [CapitalDottedI, CapitalDottedI]
    requires rest == Cat || rest == Cot
    ensures var lowered := LowerStr(dotted + DrawCommand + rest);
      && Contains(lowered, DrawCommand)
      && ByteLen(lowered[..Find(lowered, DrawCommand).value]) == 3 * |dotted|
  {
    var tail := DrawCommand + rest;
    assert dotted + DrawCommand + rest == dotted + tail;
    var lowered := LoweredPastDottedI(dotted, tail, rest);
    DottedIBytes();
    if |dotted| == 2 {
      assert lowered[..4] == ['i', '\U{0307}'] + ['i', '\U{0307}'];
      ByteLenConcat(['i', '\U{0307}'], ['i', '\U{0307}']);
    } else {
      assert lowered[..2] == ['i', '\U{0307}'];
    }
  }

  /** From byte 3 + 14 of "İнарисуй cat" on: "cat". */
  lemma ShiftedSlice()
    ensures SliceFromByte([CapitalDottedI] + DrawCommand + Cat, 3 + DrawCommandLen) == Some(Cat[1..])
  {
    var dotted := [CapitalDottedI];
    var text := dotted + DrawCommand + Cat;
    assert text[..9] == dotted + DrawCommand + [' '];
    CutBytes(dotted, ' ');
    SliceAfterPrefix(text, 9, 0);
    assert text[9..] == Cat[1..];
  }

  /** Byte 6 + 14 of "İİнарисуй кот" is the second byte of 'к'. */
  lemma PanickingSlice()
    ensures SliceFromByte([CapitalDottedI, CapitalDottedI] + DrawCommand + Cot, 6 + DrawCommandLen) == None
  {
    var dotted := [CapitalDottedI, CapitalDottedI];
    var text := dotted + DrawCommand + Cot;
    assert text[..10] == dotted + DrawCommand + [' '];
    CutBytes(dotted, ' ');
    SliceAfterPrefix(text, 10, 1);
    assert text[10..][0] == 'к';
  }

  /**
    One or two capital dotted Is before the command: the lowered text starts
    with one "i̇" per I, and the command is found right after them.
   */
  lemma LoweredPastDottedI(dotted: string, tail: string, rest: string) returns (lowered: string)
    requires dotted == [CapitalDottedI] || dotted == [CapitalDottedI, CapitalDottedI]
    requires rest == Cat || rest == Cot
    requires tail == DrawCommand + rest
    ensures lowered == LowerStr(dotted + tail)
    ensures |lowered| == 2 * |dotted| + |tail|
    ensures lowered[..2 * |dotted|] == LowerStr(dotted)
    ensures LowerStr(dotted) == if |dotted| == 1 then ['i', '\U{0307}'] else ['i', '\U{0307}', 'i', '\U{0307}']
    ensures Find(lowered, DrawCommand) == Some(2 * |dotted|)
  {
    CommandTails();
    LowerStrConcat(dotted, tail);
    var prefix := LowerStr(dotted);
    if |dotted| == 2 {
      assert dotted[1..] == [CapitalDottedI];
      assert LowerStr(dotted[1..]) == ['i', '\U{0307}'];
    }
    lowered := prefix + tail;
    assert tail[..|DrawCommand|] == DrawCommand;
    FindPastPrefix(prefix, tail, DrawCommand);
  }

  /** The cut as intended: the text lowers code point by code point to itself, and the command follows the Is. */
  lemma IntendedPastDottedI(dotted: string, rest: string)
    requires dotted == [CapitalDottedI] || dotted == [CapitalDottedI, CapitalDottedI]
    requires rest == Cat || rest == Cot
    ensures DrawPrompt(dotted + DrawCommand + rest) == Some(rest)
  {
    var tail := DrawCommand + rest;
    var text := dotted + tail;
    assert text == dotted + DrawCommand + rest;
    LowerOfDottedText(dotted, rest);
    assert tail[..|DrawCommand|] == DrawCommand;
    FindPastPrefix(dotted, tail, DrawCommand);
    assert text[|dotted| + |DrawCommand|..] == rest;
  }

  lemma LowerOfDottedText(dotted: string, rest: string)
    requires dotted == [CapitalDottedI] || dotted == [CapitalDottedI, CapitalDottedI]
    requires rest == Cat || rest == Cot
    ensures Lower(dotted + (DrawCommand + rest)) == dotted + (DrawCommand + rest)
  {
    var tail := DrawCommand + rest;
    LowerTextOfTail(rest);
    assert LowerChar(CapitalDottedI) == CapitalDottedI;
    assert Lower(dotted) == dotted;
    LowerConcat(dotted, tail);
  }

  lemma LowerTextOfTail(rest: string)
    requires rest == Cat || rest == Cot
    ensures Lower(DrawCommand + rest) == DrawCommand + rest
  {
    var t := DrawCommand + rest;
    if rest == Cat {
      assert t == ['н', 'а', 'р', 'и', 'с', 'у', 'й', ' ', 'c', 'a', 't'];
    } else {
      assert t == ['н', 'а', 'р', 'и', 'с', 'у', 'й', ' ', 'к', 'о', 'т'];
    }
    LowerWithoutCapitals(t);
  }

  /** The bytes up to and including the character after the command. */
  lemma CutBytes(dotted: string, c: char)
    requires dotted == [CapitalDottedI] || dotted == [CapitalDottedI, CapitalDottedI]
    requires c == ' '
    ensures ByteLen(dotted + DrawCommand + [c]) == 2 * |dotted| + DrawCommandLen + 1
  {
    DottedIBytes();
    if |dotted| == 2 {
      assert dotted == [CapitalDottedI] + [CapitalDottedI];
      ByteLenConcat([CapitalDottedI], [CapitalDottedI]);
    }
    CommandBytes();
    ByteLenConcat(dotted + DrawCommand, [c]);
    ByteLenConcat(dotted, DrawCommand);
  }

  lemma {:induction false} LowerStrConcat(a: string, b: string)
    ensures LowerStr(a + b) == LowerStr(a) + LowerStr(b)
    decreases |a|
  {
    if a != [] {
      assert (a + b)[1..] == a[1..] + b;
      LowerStrConcat(a[1..], b);
    } else {
      assert a + b == b;
    }
  }

  lemma LowerConcat(a: string, b: string)
    ensures Lower(a + b) == Lower(a) + Lower(b)
  {
  }
}
