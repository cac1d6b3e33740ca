/**
  The Telegram side of the bot: the update and message records the bot reads,
  and the MarkdownV2 escaping that `TgClient::send_message` applies to every
  outgoing text before it builds the request.
 */
module TgClient {
  import opened Wrappers

  const PrivateChat: string := "private"

  datatype User = User(id: int, isBot: bool, firstName: string)

  datatype Chat = Chat(id: int, chatType: string) {
    /** `Chat::is_private`: the chat type is "private". */
    predicate IsPrivate() {
      chatType == PrivateChat
    }
  }

  datatype PhotoSize = PhotoSize(fileId: string, fileSize: int)

  /**
    An inbound message. `date` is the send time in whole seconds since the
    epoch; `photo` lists the sizes Telegram offers for an attached picture.
   */
  datatype Message = Message(
    messageId: int,
    from: User,
    chat: Chat,
    date: int,
    text: Option<string>,
    caption: Option<string>,
    photo: Option<seq<PhotoSize>>,
    replyToMessage: Option<Message>)

  datatype Update = Update(updateId: int, message: Option<Message>)

  /**
    The characters escaped for MarkdownV2: the Bot API's reserved set without
    the backtick, plus the backslash itself.
   */
  const EscapeSymbols: set<char> :=
    {'_', '*', '[', ']', '(', ')', '~', '>', '#', '+', '-', '=', '|', '\\',
     '{', '}', '.', '!'}

  /** One of `EscapeSymbols`, written out character by character. */
  predicate IsReserved(c: char) {
    c == '_' || c == '*' || c == '[' || c == ']' || c == '(' || c == ')' || c == '~' || c == '>' || c == '#'
    || c == '+' || c == '-' || c == '=' || c == '|' || c == '\\' || c == '{' || c == '}' || c == '.' || c == '!'
  }

  /**
    `EscapeSymbols` and `IsReserved` name the same eighteen characters. The
    set is what the sender tests each character against; the disjunction is
    the form the proofs about `Escape` reason with, one case per character.
   */
  lemma ReservedIsEscapeSymbol()
    ensures forall c :: c in EscapeSymbols <==> IsReserved(c)
  {
  }

  /** What one input character becomes in the escaped text. */
  function EscapeChar(c: char): string {
    if IsReserved(c) then ['\\', c] else [c]
  }

  /** The number of reserved characters in `s`. */
  function ReservedCount(s: string): nat {
    if s == [] then 0 else (if IsReserved(s[0]) then 1 else 0) + ReservedCount(s[1..])
  }

  /**
    The escaped text: a backslash in front of every reserved character.
    Its length grows by exactly one per reserved character.
   */
  function Escape(s: string): (r: string)
    ensures |r| == |s| + ReservedCount(s)
  {
    if s == [] then [] else EscapeChar(s[0]) + Escape(s[1..])
  }

  /** Reads escaped text back: a backslash followed by a reserved character stands for that character. */
  function Unescape(t: string): string
  {
    if t == [] then []
    else if |t| >= 2 && t[0] == '\\' && IsReserved(t[1]) then [t[1]] + Unescape(t[2..])
    else [t[0]] + Unescape(t[1..])
  }

  /** Escaping distributes over concatenation. */
  lemma {:induction false} EscapeConcat(a: string, b: string)
    ensures Escape(a + b) == Escape(a) + Escape(b)
    decreases |a|
  {
    if a != [] {
      assert (a + b)[1..] == a[1..] + b;
      EscapeConcat(a[1..], b);
    } else {
      assert a + b == b;
    }
  }

  lemma {:induction false} ReservedCountConcat(a: string, b: string)
    ensures ReservedCount(a + b) == ReservedCount(a) + ReservedCount(b)
    decreases |a|
  {
    if a != [] {
      assert (a + b)[1..] == a[1..] + b;
      ReservedCountConcat(a[1..], b);
    } else {
      assert a + b == b;
    }
  }

  /**
    Every input character keeps its place and order: character `i` of the input
    is written at offset `i + ReservedCount(s[..i])` of the output, as the
    character alone or, when it is reserved, as a backslash followed by it.
   */
  lemma EscapeAt(s: string, i: nat)
    requires i < |s|
    ensures var k := i + ReservedCount(s[..i]);
      k + |EscapeChar(s[i])| <= |Escape(s)| &&
      Escape(s)[k..k + |EscapeChar(s[i])|] == EscapeChar(s[i])
  {
    assert s == s[..i] + [s[i]] + s[i + 1..];
    EscapeConcat(s[..i] + [s[i]], s[i + 1..]);
    EscapeConcat(s[..i], [s[i]]);
    assert Escape([s[i]]) == EscapeChar(s[i]);
  }

  /** Unescaping undoes escaping. */
  lemma {:induction false} UnescapeEscape(s: string)
    ensures Unescape(Escape(s)) == s
    decreases |s|
  {
    if s != [] {
      var t, rest := Escape(s), Escape(s[1..]);
      UnescapeEscape(s[1..]);
      if IsReserved(s[0]) {
        assert t == ['\\', s[0]] + rest;
        assert t[2..] == rest;
        assert Unescape(t) == [s[0]] + Unescape(rest);
      } else {
        assert t == [s[0]] + rest;
        assert t[1..] == rest;
        assert Unescape(t) == [s[0]] + Unescape(rest);
      }
      assert s == [s[0]] + s[1..];
    }
  }

  /** Different texts never escape to the same text. */
  lemma EscapeInjective(a: string, b: string)
    requires Escape(a) == Escape(b)
    ensures a == b
  {
    UnescapeEscape(a);
    UnescapeEscape(b);
  }

  /** Text without reserved characters passes through unchanged. */
  lemma {:induction false} EscapeClean(s: string)
    requires forall i :: 0 <= i < |s| ==> !IsReserved(s[i])
    ensures Escape(s) == s
    decreases |s|
  {
    if s != [] {
      EscapeClean(s[1..]);
      assert s == [s[0]] + s[1..];
    }
  }

  lemma {:induction false} ReservedCountZero(s: string)
    ensures ReservedCount(s) == 0 <==> forall i :: 0 <= i < |s| ==> !IsReserved(s[i])
    decreases |s|
  {
    if s != [] {
      ReservedCountZero(s[1..]);
      assert forall i :: 1 <= i < |s| ==> s[i] == s[1..][i - 1];
    }
  }

  /** Escaping leaves a text unchanged exactly when it holds no reserved character. */
  lemma EscapeFixedPoint(s: string)
    ensures Escape(s) == s <==> forall i :: 0 <= i < |s| ==> !IsReserved(s[i])
  {
    ReservedCountZero(s);
    if forall i :: 0 <= i < |s| ==> !IsReserved(s[i]) {
      EscapeClean(s);
    }
  }

  /**
    Escaping is not idempotent: escaping an escaped text again changes it
    whenever the text held a reserved character, since the inserted
    backslash is itself reserved.
   */
  lemma EscapeTwice(s: string)
    ensures Escape(Escape(s)) == Escape(s) <==> forall i :: 0 <= i < |s| ==> !IsReserved(s[i])
  {
    if forall i :: 0 <= i < |s| ==> !IsReserved(s[i]) {
      EscapeClean(s);
    } else {
      ReservedCountZero(s);
      EscapeDoublesReserved(s);
    }
  }

  /** An escaped text holds twice as many reserved characters: each one and its backslash. */
  lemma {:induction false} EscapeDoublesReserved(s: string)
    ensures ReservedCount(Escape(s)) == 2 * ReservedCount(s)
    decreases |s|
  {
    if s != [] {
      ReservedCountConcat(EscapeChar(s[0]), Escape(s[1..]));
      EscapeDoublesReserved(s[1..]);
      if IsReserved(s[0]) {
        assert EscapeChar(s[0])[1..] == [s[0]];
      }
    }
  }

  /** The backtick, ASCII letters and digits and the space are never escaped. */
  lemma NeverEscaped(c: char)
    requires c == '`' || c == ' ' || 'a' <= c <= 'z' || 'A' <= c <= 'Z' || '0' <= c <= '9'
    ensures EscapeChar(c) == [c]
  {
  }

  /** The request `send_message` posts to the Bot API. */
  datatype MessageRequest = MessageRequest(chatId: int, text: string, parseMode: Option<string>)

  /**
    The first half of `TgClient::send_message`: the text is escaped character
    by character into a growing buffer, whatever the parse mode, and put into
    the request with the chat id and the parse mode as given.
   */
  method BuildMessageRequest(chatId: int, text: string, parseMode: Option<string>)
    returns (request: MessageRequest)
    ensures request == MessageRequest(chatId, Escape(text), parseMode)
  {
    var resultText: string := [];
    for i := 0 to |text|
      invariant resultText == Escape(text[..i])
    {
      if text[i] in EscapeSymbols {
        resultText := resultText + ['\\'];
      }
      resultText := resultText + [text[i]];
      assert text[..i + 1] == text[..i] + [text[i]];
      EscapeConcat(text[..i], [text[i]]);
    }
    assert text[..|text|] == text;
    request := MessageRequest(chatId, resultText, parseMode);
  }
}
