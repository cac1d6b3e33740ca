/**
  The older bot of main.rs: one shared completion client, no photo path, no
  name map, and a dummy reaction drawn from five fixed phrases. The paths it
  shares with the current bot (the link check, the gate, the draw command and
  the completion) are stated with the same `Decision` and the same runs.
 */
module LegacyBot {
  import opened Wrappers
  import opened Text
  import opened TgClient
  import opened Interactors
  import opened MessageProcessor

  /** The older `TgBot`: the bot's names, the allow-listed chats and the preamble. */
  datatype TgBot = TgBot(names: seq<string>, allowChats: seq<int>, preamble: string)

  /** The phrases of the older `dummy_reaction`, in the order of its `match`. */
  const Phrases: seq<string> := ["боян", "прикол", "ну такое", "было уже", "хуйня какая-то"]

  /** The second draw of `dummy_reaction` lies in `0..PhraseDraws`. */
  const PhraseDraws: nat := 6

  /** The phrase for the second draw `n`: one per draw below 4, the last one for every other draw. */
  function DummyPhrase(n: nat): (r: string)
    ensures r in Phrases
  {
    if n < |Phrases| - 1 then Phrases[n] else Phrases[|Phrases| - 1]
  }

  /** The older `dummy_reaction`: with a percent draw below 30 one phrase is sent as MarkdownV2. */
  function LegacyDummyRun(chatId: int, s: Script): Run
  {
    if s.percent < DummyChance then AfterSend([SentMessage(chatId, DummyPhrase(s.pick), Some(MarkdownV2))], s, Ok(()))
    else Run([], Ok(()))
  }

  /**
    The decision of the older `process_message`: only texts are looked at; the
    sender's first name is used as it is, and the shared client is asked.
   */
  function LegacyRoute(msg: Message, bot: TgBot): Decision
  {
    match msg.text
    case None => Ignore
    case Some(text) =>
      if Contains(text, LinkMarker) then DummyReaction(msg.chat.id)
      else
        var usedName := UsedName(bot.names, text);
        if !ShouldAnswer(msg.replyToMessage, msg.chat, usedName, bot.allowChats) then Ignore
        else
          var stripped := StripName(text, usedName);
          match DrawPrompt(stripped)
          case Some(prompt) => DrawImage(msg.chat.id, Shared, prompt)
          case None => CompleteText(msg.chat.id, Shared, Format(bot.preamble, msg.from.firstName) + stripped)
  }

  /** The calls made and the result returned for a decision; the older bot never describes a photo. */
  function LegacyExecute(d: Decision, s: Script): Run
  {
    match d
    case Ignore => Run([], Ok(()))
    case DescribePhoto(_, _, _, _) => Run([], Ok(()))
    case DummyReaction(chatId) => LegacyDummyRun(chatId, s)
    case DrawImage(chatId, client, prompt) => ImageRun(chatId, client, prompt, s)
    case CompleteText(chatId, client, prompt) => TextRun(chatId, client, prompt, s)
  }

  /** The older `process_event`: the same errors and the same ten-minute cut-off as the current bot. */
  function LegacyHandleEvent(bot: TgBot, s: Script, event: Event, now: int): Run
  {
    match event.payload
    case Err(e) => Run([], Err(Failed(e)))
    case Ok(update) =>
      var message := if update.Some? then update.value.message else None;
      match message
      case None => Run([], Err(BadBody(event.body)))
      case Some(msg) =>
        if msg.date < now - StaleAfter then Run([], Ok(()))
        else LegacyExecute(LegacyRoute(msg, bot), s)
  }

  /** The HTTP response of `function_handler`. */
  datatype Response = Response(status: int, body: string)

  const StatusOk: int := 200

  // ---------------------------------------------------------------------------
  // The handlers, call by call.

  method LegacyDummyReaction(io: Io, chatId: int) returns (r: Result<(), Error>)
    modifies io
    ensures io.trace == old(io.trace) + LegacyDummyRun(chatId, io.script).calls
    ensures r == LegacyDummyRun(chatId, io.script).result
  {
    if io.script.percent < DummyChance {
      var answer := DummyPhrase(io.script.pick);
      var sent := io.SendMessage(chatId, answer, Some(MarkdownV2));
      if sent.Err? {
        return Err(Failed(sent.error));
      }
    }
    return Ok(());
  }

  method ProcessMessage(bot: TgBot, io: Io, msg: Message) returns (r: Result<(), Error>)
    modifies io
    ensures io.trace == old(io.trace) + LegacyExecute(LegacyRoute(msg, bot), io.script).calls
    ensures r == LegacyExecute(LegacyRoute(msg, bot), io.script).result
  {
    if msg.text.Some? {
      var text := msg.text.value;
      if Contains(text, LinkMarker) {
        r := LegacyDummyReaction(io, msg.chat.id);
        return;
      }
      var usedName := UsedName(bot.names, text);
      if ShouldAnswer(msg.replyToMessage, msg.chat, usedName, bot.allowChats) {
        text := StripName(text, usedName);
        var firstName := msg.from.firstName;
        var index := Find(Lower(text), DrawCommand);
        if index.Some? {
          var prompt := text[index.value + |DrawCommand|..];
          var url := io.GetImage(Shared, prompt);
          var sent;
          if url.Ok? {
            sent := io.SendImage(msg.chat.id, url.value);
          } else {
            sent := io.SendMessage(msg.chat.id, DrawApology, None);
          }
          if sent.Err? {
            return Err(Failed(sent.error));
          }
          return Ok(());
        }
        var prepend := Format(bot.preamble, firstName);
        prepend := prepend + text;
        text := prepend;
        var result := io.GetCompletion(Shared, text);
        if result.Err? {
          return Err(Failed(result.error));
        }
        var sent := io.SendMessage(msg.chat.id, result.value, Some(MarkdownV2));
        if sent.Err? {
          return Err(Failed(sent.error));
        }
      }
    }
    r := Ok(());
  }

  method ProcessEvent(bot: TgBot, io: Io, event: Event, now: int) returns (r: Result<(), Error>)
    modifies io
    ensures io.trace == old(io.trace) + LegacyHandleEvent(bot, io.script, event, now).calls
    ensures r == LegacyHandleEvent(bot, io.script, event, now).result
  {
    if event.payload.Err? {
      return Err(Failed(event.payload.error));
    }
    var update := event.payload.value;
    var message := if update.Some? then update.value.message else None;
    if message.None? {
      return Err(BadBody(event.body));
    }
    var msg := message.value;
    if msg.date < now - StaleAfter {
      return Ok(());
    }
    r := ProcessMessage(bot, io, msg);
  }

  /**
    `function_handler`: whatever `process_event` returns (its error is only
    logged), the answer is an empty 200 response, so Telegram never retries.
   */
  method FunctionHandler(bot: TgBot, io: Io, event: Event, now: int) returns (response: Response)
    modifies io
    ensures response == Response(StatusOk, [])
    ensures io.trace == old(io.trace) + LegacyHandleEvent(bot, io.script, event, now).calls
  {
    var _ := ProcessEvent(bot, io, event, now);
    response := Response(StatusOk, []);
  }
}
