/**
  The unit tests of message_processor.rs, replayed on the model: the same
  configurations and messages, the same expected calls.
 */
module RoutingExamples {
  import opened Wrappers
  import opened Text
  import opened TgClient
  import opened Interactors
  import opened MessageProcessor

  const DummyAnswers: seq<string> := ["Dummy answer", "Another dummy answer", "Yet another dummy answer"]

  /** `build_test_config`. */
  function TestConfig(): Config
  {
    Config([("Sam", "Bob")], "Call me {}. ", DummyAnswers, [0], ["simple bot"])
  }

  /** The configuration of `create_bot`. */
  function BotConfig(): Config
  {
    Config([], "preamble", DummyAnswers, [123], ["bot_name"])
  }

  /** `build_message`: "Hello" from Sam in private chat 0. */
  function TestMessage(): Message
  {
    Message(0, User(0, false, "Sam"), Chat(0, PrivateChat), 0, Some("Hello"), None, None, None)
  }

  /** `create_message`: a message from Yury in private chat 123. */
  function CreateMessage(text: Option<string>, photo: Option<seq<PhotoSize>>): Message
  {
    Message(1, User(1, false, "Yury"), Chat(123, "private"), 0, text, None, photo, None)
  }

  /** A script in which every collaborator succeeds with the given answers. */
  function Succeeding(completion: string, url: string, percent: int, pick: nat): Script
  {
    Script(Ok(url), Ok(completion), Ok(url), Ok(completion), Ok(()), percent, pick)
  }

  /** `test_should_answer` and `test_should_answer_negative`. */
  lemma ShouldAnswerExamples()
    ensures ShouldAnswer(Some(TestMessage()), Chat(123, "private"), Some("Hello"), [123])
    ensures !ShouldAnswer(Some(TestMessage()), Chat(123, "private"), Some("Hello"), [124])
  {
  }

  // ---------------------------------------------------------------------------
  // The route of a text message, once its pieces are known.

  /** A text routed past the link check and the gate, without a draw command, asks for a completion. */
  lemma CompletionRoute(msg: Message, cfg: Config, text: string, stripped: string, preambled: string)
    requires msg.photo.None? && msg.text == Some(text)
    requires !Contains(text, LinkMarker)
    requires ShouldAnswer(msg.replyToMessage, msg.chat, UsedName(cfg.botNames, text), cfg.allowChats)
    requires StripName(text, UsedName(cfg.botNames, text)) == stripped
    requires DrawPrompt(stripped).None?
    requires Format(cfg.preamble, ApplyNameMap(msg.from.firstName, cfg.nameMap)) == preambled
    ensures Route(msg, cfg) == CompleteText(msg.chat.id, ClientFor(msg.chat), preambled + stripped)
  {
  }

  /** A text routed past the link check and the gate, with a draw command, asks for a picture. */
  lemma DrawRoute(msg: Message, cfg: Config, text: string, prompt: string)
    requires msg.photo.None? && msg.text == Some(text)
    requires !Contains(text, LinkMarker)
    requires ShouldAnswer(msg.replyToMessage, msg.chat, UsedName(cfg.botNames, text), cfg.allowChats)
    requires DrawPrompt(StripName(text, UsedName(cfg.botNames, text))) == Some(prompt)
    ensures Route(msg, cfg) == DrawImage(msg.chat.id, ClientFor(msg.chat), prompt)
  {
  }

  // ---------------------------------------------------------------------------
  // The tests.

  /** `test_process_message`: Sam is called Bob in the prompt, and the private client answers. */
  lemma ProcessMessageExample()
    ensures var s := Succeeding("How are you?", "url", 99, 0);
      Execute(Route(TestMessage(), TestConfig()), TestConfig(), s)
        == Run([AskedCompletion(Private, "Call me Bob. Hello"),
                SentMessage(0, "How are you?", Some(MarkdownV2))], Ok(()))
  {
    TestMessageRoute();
  }

  lemma TestMessageRoute()
    ensures Route(TestMessage(), TestConfig()) == CompleteText(0, Private, "Call me Bob. Hello")
  {
    HelloHasNoLink();
    HelloHasNoName();
    HelloDrawsNothing();
    SamBecomesBob();
    CallMeBob();
    CompletionRoute(TestMessage(), TestConfig(), "Hello", "Hello", "Call me Bob. ");
  }

  /** `test_process_message_with_photo`: the default question about the only photo. */
  lemma PhotoExample()
    ensures var msg := CreateMessage(None, Some([PhotoSize("file_id", 1)]));
      var s := Succeeding("Red image", "url", 99, 0);
      Execute(Route(msg, BotConfig()), BotConfig(), s)
        == Run([AskedFileUrl("file_id"),
                AskedImageCompletion(Private, "Что на картинке?", "url"),
                SentMessage(123, "Red image", Some(MarkdownV2))], Ok(()))
  {
    assert UsedName(["bot_name"], DefaultCaption) == None by {
      assert !StartsWith(DefaultCaption, "bot_name") by {
        assert DefaultCaption[0] != 'b';
      }
    }
  }

  /** `test_process_message_with_url`: a link gets the second dummy answer and nothing else. */
  lemma UrlExample(percent: int)
    requires percent < DummyChance
    ensures var msg := CreateMessage(Some("https://example.com"), None);
      var s := Succeeding("unused", "unused", percent, 1);
      Execute(Route(msg, BotConfig()), BotConfig(), s)
        == Run([SentMessage(123, "Another dummy answer", Some(MarkdownV2))], Ok(()))
  {
    assert OccursAt("https://example.com", LinkMarker, 0) by {
      assert "https://example.com"[0..8] == LinkMarker;
    }
  }

  /** `test_process_message_with_bot_name`: the name is stripped and the preamble put in front. */
  lemma BotNameExample()
    ensures var msg := CreateMessage(Some("bot_name Hello"), None);
      var s := Succeeding("Hello Sir", "url", 99, 0);
      Execute(Route(msg, BotConfig()), BotConfig(), s)
        == Run([AskedCompletion(Private, "preamble Hello"),
                SentMessage(123, "Hello Sir", Some(MarkdownV2))], Ok(()))
  {
    BotNameRoute();
  }

  lemma BotNameRoute()
    ensures Route(CreateMessage(Some("bot_name Hello"), None), BotConfig()) == CompleteText(123, Private, "preamble Hello")
  {
    var text := "bot_name Hello";
    NotContainedWithoutFirstChar(text, LinkMarker);
    BotNameStripped();
    SpaceHelloDrawsNothing();
    PreambleHasNoPlaceholder("Yury");
    PreambleConcat();
    CompletionRoute(CreateMessage(Some(text), None), BotConfig(), text, " Hello", "preamble");
  }

  /** `test_process_message_with_draw_command`: the prompt is what follows the command. */
  lemma DrawExample()
    ensures var msg := CreateMessage(Some("нарисуй cat"), None);
      var s := Succeeding("unused", "url", 99, 0);
      Execute(Route(msg, BotConfig()), BotConfig(), s)
        == Run([AskedImage(Private, " cat"), SentImage(123, "url")], Ok(()))
  {
    var text := "нарисуй cat";
    NotContainedWithoutFirstChar(text, LinkMarker);
    assert UsedName(["bot_name"], text) == None by {
      assert text[..8][0] != 'b';
    }
    DrawCatPrompt();
    DrawRoute(CreateMessage(Some(text), None), BotConfig(), text, " cat");
  }

  /** `test_process_message_without_bot_name_or_draw_command`: the preamble and the text, unchanged. */
  lemma PlainTextExample()
    ensures var msg := CreateMessage(Some("Hello"), None);
      var s := Succeeding("Hello Sir", "url", 99, 0);
      Execute(Route(msg, BotConfig()), BotConfig(), s)
        == Run([AskedCompletion(Private, "preambleHello"),
                SentMessage(123, "Hello Sir", Some(MarkdownV2))], Ok(()))
  {
    HelloHasNoLink();
    HelloHasNoName();
    HelloDrawsNothing();
    PreambleHasNoPlaceholder("Yury");
    PreambleConcat();
    CompletionRoute(CreateMessage(Some("Hello"), None), BotConfig(), "Hello", "Hello", "preamble");
  }

  // ---------------------------------------------------------------------------
  // The string facts the tests rest on.

  lemma HelloHasNoLink()
    ensures !Contains("Hello", LinkMarker)
  {
    NotContainedWithoutFirstChar("Hello", LinkMarker);
  }

  lemma HelloHasNoName()
    ensures UsedName(["simple bot"], "Hello") == None
    ensures UsedName(["bot_name"], "Hello") == None
  {
    assert "Hello"[0] == 'H';
  }

  lemma HelloDrawsNothing()
    ensures DrawPrompt("Hello").None?
  {
    var lowered := Lower("Hello");
    assert lowered == "hello";
    NotContainedWithoutFirstChar(lowered, DrawCommand);
  }

  lemma SpaceHelloDrawsNothing()
    ensures DrawPrompt(" Hello").None?
  {
    var lowered := Lower(" Hello");
    assert lowered == " hello";
    NotContainedWithoutFirstChar(lowered, DrawCommand);
  }

  lemma BotNameStripped()
    ensures UsedName(["bot_name"], "bot_name Hello") == Some("bot_name")
    ensures StripName("bot_name Hello", Some("bot_name")) == " Hello"
  {
    var text := "bot_name Hello";
    assert text[..8] == "bot_name";
    assert text[8..] == " Hello";
    assert Replace(text, "bot_name", "") == "" + Replace(" Hello", "bot_name", "");
  }

  lemma DrawCatPrompt()
    ensures DrawPrompt("нарисуй cat") == Some(" cat")
  {
    var text := "нарисуй cat";
    assert text == ['н', 'а', 'р', 'и', 'с', 'у', 'й', ' ', 'c', 'a', 't'];
    LowerWithoutCapitals(text);
    assert OccursAt(text, DrawCommand, 0) by {
      assert text[0..7] == DrawCommand;
    }
    assert Find(text, DrawCommand) == Some(0);
    assert text[7..] == " cat";
  }

  lemma SamBecomesBob()
    ensures ApplyNameMap("Sam", [("Sam", "Bob")]) == "Bob"
  {
    var nameMap := [("Sam", "Bob")];
    assert nameMap[..0] == [];
    assert "Sam"[..3] == "Sam";
    assert Replace("Sam", "Sam", "Bob") == "Bob" + Replace([], "Sam", "Bob");
  }

  lemma CallMeBob()
    ensures Format("Call me {}. ", "Bob") == "Call me Bob. "
    ensures "Call me Bob. " + "Hello" == "Call me Bob. Hello"
  {
    CallMeBobPieces();
  }

  lemma CallMeBobPieces()
    ensures Format("Call me {}. ", "Bob") == "Call me " + "Bob" + ". "
  {
    assert "Call me {}. " == "Call me " + Placeholder + ". ";
    NotContainedWithoutFirstChar("Call me ", Placeholder);
    FormatFillsFirstPlaceholder("Call me ", ". ", "Bob");
  }

  lemma PreambleConcat()
    ensures "preamble" + " Hello" == "preamble Hello"
    ensures "preamble" + "Hello" == "preambleHello"
  {
  }

  lemma PreambleHasNoPlaceholder(arg: string)
    ensures Format("preamble", arg) == "preamble"
  {
    NotContainedWithoutFirstChar("preamble", Placeholder);
  }
}
