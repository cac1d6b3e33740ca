/**
  How the current bot (`TgBot` in message_processor.rs) answers one inbound
  message. `Route` decides which path runs, `Execute` says which calls that
  path makes and what it returns, and the methods below make those calls in
  the order the bot does, proved to agree with `Execute(Route(..))`.
 */
module MessageProcessor {
  import opened Wrappers
  import opened Text
  import opened TgClient
  import opened Interactors

  const DrawCommand: string := "нарисуй"
  const LinkMarker: string := "https://"
  const DefaultCaption: string := "Что на картинке?"
  const DrawApology: string := "Сейчас я такое не могу нарисовать"
  const PhotoApology: string := "Прости, я задумался. Можешь повторить?"
  const MarkdownV2: string := "MarkdownV2"
  /** Messages sent more than this many seconds (10 minutes) before now are dropped. */
  const StaleAfter: int := 600
  /** `get_random_answer` answers when the percent draw is below this. */
  const DummyChance: int := 30

  /**
    The bot's configuration. `nameMap` holds the display-name replacements in
    the order they are applied.
   */
  datatype Config = Config(
    nameMap: seq<(string, string)>,
    preamble: string,
    dummyAnswers: seq<string>,
    allowChats: seq<int>,
    botNames: seq<string>)

  /**
    The gate: the chat is allow-listed and the bot is addressed, because the
    chat is private, the text starts with one of the bot's names, or the
    message replies to a message of a bot.
   */
  predicate ShouldAnswer(reply: Option<Message>, chat: Chat, usedName: Option<string>, allowChats: seq<int>)
  {
    chat.id in allowChats
    && (chat.IsPrivate() || usedName.Some? || (reply.Some? && reply.value.from.isBot))
  }

  /** The first name, in list order, that `text` starts with. */
  function UsedName(names: seq<string>, text: string): (r: Option<string>)
    ensures r.None? <==> forall k :: 0 <= k < |names| ==> !StartsWith(text, names[k])
    ensures r.Some? ==> exists k :: 0 <= k < |names| && names[k] == r.value && StartsWith(text, r.value)
                                    && forall j :: 0 <= j < k ==> !StartsWith(text, names[j])
  {
    if names == [] then None
    else if StartsWith(text, names[0]) then Some(names[0])
    else
      var r := UsedName(names[1..], text);
      assert forall k :: 1 <= k < |names| ==> names[k] == names[1..][k - 1];
      if r.Some? then
        var k :| 0 <= k < |names[1..]| && names[1..][k] == r.value && StartsWith(text, r.value)
                 && forall j :: 0 <= j < k ==> !StartsWith(text, names[1..][j]);
        assert names[k + 1] == r.value;
        r
      else r
  }

  /** The text with every occurrence of the name it was addressed with removed. */
  function StripName(text: string, usedName: Option<string>): string
  {
    match usedName
    case None => text
    case Some(name) => Replace(text, name, "")
  }

  /** The sender's first name after each replacement of the name map, applied in order. */
  function ApplyNameMap(firstName: string, nameMap: seq<(string, string)>): string
    decreases |nameMap|
  {
    if nameMap == [] then firstName
    else
      var last := nameMap[|nameMap| - 1];
      Replace(ApplyNameMap(firstName, nameMap[..|nameMap| - 1]), last.0, last.1)
  }

  /**
    The index `max_by_key(file_size)` settles on when it has looked at
    `photos[..i]` and holds `best`: a largest photo, and the last among equals.
   */
  function LargestPhotoFrom(photos: seq<PhotoSize>, best: nat, i: nat): (k: nat)
    requires best < i <= |photos|
    requires forall j :: 0 <= j < i ==> photos[j].fileSize <= photos[best].fileSize
    requires forall j :: best < j < i ==> photos[j].fileSize < photos[best].fileSize
    ensures k < |photos|
    ensures forall j :: 0 <= j < |photos| ==> photos[j].fileSize <= photos[k].fileSize
    ensures forall j :: k < j < |photos| ==> photos[j].fileSize < photos[k].fileSize
    decreases |photos| - i
  {
    if i == |photos| then best
    else if photos[i].fileSize >= photos[best].fileSize then LargestPhotoFrom(photos, i, i + 1)
    else LargestPhotoFrom(photos, best, i + 1)
  }

  /** The photo `max_by_key(file_size)` picks: a largest one, the last of equals. */
  function LargestPhoto(photos: seq<PhotoSize>): (k: nat)
    requires |photos| > 0
    ensures k < |photos|
    ensures forall j :: 0 <= j < |photos| ==> photos[j].fileSize <= photos[k].fileSize
    ensures forall j :: k < j < |photos| ==> photos[j].fileSize < photos[k].fileSize
  {
    LargestPhotoFrom(photos, 0, 1)
  }

  /** The random draws lie in the ranges the generator gives: `pick` indexes the answer pool. */
  predicate PickFits(s: Script, pool: seq<string>)
  {
    |pool| == 0 || s.pick < |pool|
  }

  /**
    `get_random_answer`: with a percent draw below 30, the answer `choose`
    picks from the pool (none from an empty pool); otherwise no answer.
   */
  function GetRandomAnswer(percent: int, pick: nat, pool: seq<string>): (r: Option<string>)
    requires |pool| == 0 || pick < |pool|
    ensures r.Some? <==> percent < DummyChance && |pool| > 0
    ensures r.Some? ==> r.value in pool
  {
    if percent < DummyChance then
      if |pool| == 0 then None else Some(pool[pick])
    else None
  }

  /** `gtp_client`: the private client answers private chats, the shared one all others. */
  function ClientFor(chat: Chat): ClientKind
  {
    if chat.IsPrivate() then Private else Shared
  }

  /**
    The image prompt of a text: what follows the first draw command, the
    command being found in the lower-cased text and the prompt cut from the
    text itself at the same code point.
   */
  function DrawPrompt(text: string): (r: Option<string>)
    ensures r.None? <==> !Contains(Lower(text), DrawCommand)
  {
    match Find(Lower(text), DrawCommand)
    case None => None
    case Some(i) => Some(text[i + |DrawCommand|..])
  }

  /**
    A prompt is the rest of the text after the leftmost place where the
    lower-cased text holds the draw command.
   */
  lemma DrawPromptFollowsCommand(text: string)
    requires DrawPrompt(text).Some?
    ensures var prompt := DrawPrompt(text).value;
      var i := |text| - |prompt| - |DrawCommand|;
      && 0 <= i
      && OccursAt(Lower(text), DrawCommand, i)
      && (forall j :: 0 <= j < i ==> !OccursAt(Lower(text), DrawCommand, j))
      && text[i + |DrawCommand|..] == prompt
  {
  }

  /** The path one inbound message takes. */
  datatype Decision =
    | Ignore
    | DummyReaction(chatId: int)
    | DescribePhoto(chatId: int, client: ClientKind, caption: string, fileId: string)
    | DrawImage(chatId: int, client: ClientKind, prompt: string)
    | CompleteText(chatId: int, client: ClientKind, prompt: string)

  /** The decision of `process_photo`. */
  function RoutePhoto(msg: Message, cfg: Config): Decision
  {
    var caption := msg.caption.GetOr(DefaultCaption);
    var usedName := UsedName(cfg.botNames, caption);
    if !ShouldAnswer(msg.replyToMessage, msg.chat, usedName, cfg.allowChats) then Ignore
    else match msg.photo
      case None => Ignore
      case Some(photos) =>
        if |photos| == 0 then Ignore
        else DescribePhoto(msg.chat.id, ClientFor(msg.chat), caption, photos[LargestPhoto(photos)].fileId)
  }

  /** The decision of `process_message_internal` for a text message without a photo. */
  function RouteText(msg: Message, text: string, cfg: Config): Decision
  {
    if Contains(text, LinkMarker) then DummyReaction(msg.chat.id)
    else
      var usedName := UsedName(cfg.botNames, text);
      if !ShouldAnswer(msg.replyToMessage, msg.chat, usedName, cfg.allowChats) then Ignore
      else
        var stripped := StripName(text, usedName);
        match DrawPrompt(stripped)
        case Some(prompt) => DrawImage(msg.chat.id, ClientFor(msg.chat), prompt)
        case None =>
          var firstName := ApplyNameMap(msg.from.firstName, cfg.nameMap);
          CompleteText(msg.chat.id, ClientFor(msg.chat), Format(cfg.preamble, firstName) + stripped)
  }

  /** The decision for one inbound message: a photo first, then a text, else nothing. */
  function Route(msg: Message, cfg: Config): Decision
  {
    if msg.photo.Some? then RoutePhoto(msg, cfg)
    else match msg.text
      case None => Ignore
      case Some(text) => RouteText(msg, text, cfg)
  }

  /** The run that ends with a send: a failed send is returned (`?`), otherwise `after`. */
  function AfterSend(calls: seq<Call>, s: Script, after: Result<(), Error>): Run
  {
    match s.send
    case Err(e) => Run(calls, Err(Failed(e)))
    case Ok(_) => Run(calls, after)
  }

  /** `dummy_reaction`. */
  function DummyRun(chatId: int, pool: seq<string>, s: Script): Run
    requires PickFits(s, pool)
  {
    match GetRandomAnswer(s.percent, s.pick, pool)
    case None => Run([], Ok(()))
    case Some(answer) => AfterSend([SentMessage(chatId, answer, Some(MarkdownV2))], s, Ok(()))
  }

  /** The calls of `process_photo` once the gate passed and a photo was chosen. */
  function PhotoRun(chatId: int, client: ClientKind, caption: string, fileId: string, s: Script): Run
  {
    match s.fileUrl
    case Err(e) => Run([AskedFileUrl(fileId)], Err(Failed(e)))
    case Ok(url) =>
      var asked := [AskedFileUrl(fileId), AskedImageCompletion(client, caption, url)];
      match s.imageCompletion
      case Ok(answer) => AfterSend(asked + [SentMessage(chatId, answer, Some(MarkdownV2))], s, Ok(()))
      case Err(e) => AfterSend(asked + [SentMessage(chatId, PhotoApology, Some(MarkdownV2))], s, Err(Failed(e)))
  }

  /** `process_image_request` for the prompt after the draw command. */
  function ImageRun(chatId: int, client: ClientKind, prompt: string, s: Script): Run
  {
    match s.image
    case Ok(url) => AfterSend([AskedImage(client, prompt), SentImage(chatId, url)], s, Ok(()))
    case Err(_) => AfterSend([AskedImage(client, prompt), SentMessage(chatId, DrawApology, None)], s, Ok(()))
  }

  /** `process_text_message` for the full prompt. */
  function TextRun(chatId: int, client: ClientKind, prompt: string, s: Script): Run
  {
    match s.completion
    case Err(e) => Run([AskedCompletion(client, prompt)], Err(Failed(e)))
    case Ok(answer) => AfterSend([AskedCompletion(client, prompt), SentMessage(chatId, answer, Some(MarkdownV2))], s, Ok(()))
  }

  /** The calls made and the result returned for a decision. */
  function Execute(d: Decision, cfg: Config, s: Script): Run
    requires d.DummyReaction? ==> PickFits(s, cfg.dummyAnswers)
  {
    match d
    case Ignore => Run([], Ok(()))
    case DummyReaction(chatId) => DummyRun(chatId, cfg.dummyAnswers, s)
    case DescribePhoto(chatId, client, caption, fileId) => PhotoRun(chatId, client, caption, fileId, s)
    case DrawImage(chatId, client, prompt) => ImageRun(chatId, client, prompt, s)
    case CompleteText(chatId, client, prompt) => TextRun(chatId, client, prompt, s)
  }

  /** `process_event` after decoding: bad payloads and missing messages are errors, stale messages are dropped. */
  function HandleEvent(cfg: Config, s: Script, event: Event, now: int): Run
    requires PickFits(s, cfg.dummyAnswers)
  {
    match event.payload
    case Err(e) => Run([], Err(Failed(e)))
    case Ok(update) =>
      var message := if update.Some? then update.value.message else None;
      match message
      case None => Run([], Err(BadBody(event.body)))
      case Some(msg) =>
        if msg.date < now - StaleAfter then Run([], Ok(()))
        else Execute(Route(msg, cfg), cfg, s)
  }

  // ---------------------------------------------------------------------------
  // The handlers, call by call.

  /** The name-map loop: each replacement applied in turn to the first name. */
  method RemapFirstName(firstName: string, nameMap: seq<(string, string)>) returns (r: string)
    ensures r == ApplyNameMap(firstName, nameMap)
  {
    r := firstName;
    for i := 0 to |nameMap|
      invariant r == ApplyNameMap(firstName, nameMap[..i])
    {
      assert nameMap[..i + 1][..i] == nameMap[..i];
      r := Replace(r, nameMap[i].0, nameMap[i].1);
    }
    assert nameMap[..|nameMap|] == nameMap;
  }

  method DummyReactionTo(cfg: Config, io: Io, chatId: int) returns (r: Result<(), Error>)
    requires PickFits(io.script, cfg.dummyAnswers)
    modifies io
    ensures io.trace == old(io.trace) + DummyRun(chatId, cfg.dummyAnswers, io.script).calls
    ensures r == DummyRun(chatId, cfg.dummyAnswers, io.script).result
  {
    var answer := GetRandomAnswer(io.script.percent, io.script.pick, cfg.dummyAnswers);
    if answer.None? {
      return Ok(());
    }
    var sent := io.SendMessage(chatId, answer.value, Some(MarkdownV2));
    if sent.Err? {
      return Err(Failed(sent.error));
    }
    return Ok(());
  }

  method ProcessPhoto(cfg: Config, io: Io, msg: Message) returns (r: Result<(), Error>)
    modifies io
    ensures io.trace == old(io.trace) + Execute(RoutePhoto(msg, cfg), cfg, io.script).calls
    ensures r == Execute(RoutePhoto(msg, cfg), cfg, io.script).result
  {
    var text := msg.caption.GetOr(DefaultCaption);
    var usedName := UsedName(cfg.botNames, text);
    if ShouldAnswer(msg.replyToMessage, msg.chat, usedName, cfg.allowChats) {
      if msg.photo.None? {
        return Ok(());
      }
      var photos := msg.photo.value;
      if |photos| == 0 {
        return Ok(());
      }
      var photo := photos[LargestPhoto(photos)];
      var photoUrl := io.GetFileUrl(photo.fileId);
      if photoUrl.Err? {
        return Err(Failed(photoUrl.error));
      }
      var result := io.GetImageCompletion(ClientFor(msg.chat), text, photoUrl.value);
      if result.Ok? {
        var sent := io.SendMessage(msg.chat.id, result.value, Some(MarkdownV2));
        if sent.Err? {
          return Err(Failed(sent.error));
        }
      } else {
        var sent := io.SendMessage(msg.chat.id, PhotoApology, Some(MarkdownV2));
        if sent.Err? {
          return Err(Failed(sent.error));
        }
        return Err(Failed(result.error));
      }
    }
    return Ok(());
  }

  method ProcessImageRequest(io: Io, text: string, index: nat, chat: Chat) returns (r: Result<(), Error>)
    requires index + |DrawCommand| <= |text|
    modifies io
    ensures io.trace == old(io.trace) + ImageRun(chat.id, ClientFor(chat), text[index + |DrawCommand|..], io.script).calls
    ensures r == ImageRun(chat.id, ClientFor(chat), text[index + |DrawCommand|..], io.script).result
  {
    var prompt := text[index + |DrawCommand|..];
    var url := io.GetImage(ClientFor(chat), prompt);
    var sent;
    if url.Ok? {
      sent := io.SendImage(chat.id, url.value);
    } else {
      sent := io.SendMessage(chat.id, DrawApology, None);
    }
    if sent.Err? {
      return Err(Failed(sent.error));
    }
    return Ok(());
  }

  method ProcessTextMessage(cfg: Config, io: Io, text: string, firstName: string, chat: Chat)
    returns (r: Result<(), Error>)
    modifies io
    ensures io.trace == old(io.trace) + TextRun(chat.id, ClientFor(chat), Format(cfg.preamble, firstName) + text, io.script).calls
    ensures r == TextRun(chat.id, ClientFor(chat), Format(cfg.preamble, firstName) + text, io.script).result
  {
    var prompt := Format(cfg.preamble, firstName);
    prompt := prompt + text;
    var result := io.GetCompletion(ClientFor(chat), prompt);
    if result.Err? {
      return Err(Failed(result.error));
    }
    var sent := io.SendMessage(chat.id, result.value, Some(MarkdownV2));
    if sent.Err? {
      return Err(Failed(sent.error));
    }
    return Ok(());
  }

  method ProcessMessageInternal(cfg: Config, io: Io, msg: Message) returns (r: Result<(), Error>)
    requires PickFits(io.script, cfg.dummyAnswers)
    modifies io
    ensures io.trace == old(io.trace) + Execute(Route(msg, cfg), cfg, io.script).calls
    ensures r == Execute(Route(msg, cfg), cfg, io.script).result
  {
    if msg.photo.Some? {
      r := ProcessPhoto(cfg, io, msg);
      return;
    }
    if msg.text.Some? {
      var text := msg.text.value;
      if Contains(text, LinkMarker) {
        r := DummyReactionTo(cfg, io, msg.chat.id);
        return;
      }
      var usedName := UsedName(cfg.botNames, text);
      if ShouldAnswer(msg.replyToMessage, msg.chat, usedName, cfg.allowChats) {
        text := StripName(text, usedName);
        var firstName := RemapFirstName(msg.from.firstName, cfg.nameMap);
        var index := Find(Lower(text), DrawCommand);
        if index.Some? {
          r := ProcessImageRequest(io, text, index.value, msg.chat);
          return;
        }
        r := ProcessTextMessage(cfg, io, text, firstName, msg.chat);
        return;
      }
    }
    r := Ok(());
  }

  /** `process_event`, without the heartbeat that `process_message` starts beside the handler. */
  method ProcessEvent(cfg: Config, io: Io, event: Event, now: int) returns (r: Result<(), Error>)
    requires PickFits(io.script, cfg.dummyAnswers)
    modifies io
    ensures io.trace == old(io.trace) + HandleEvent(cfg, io.script, event, now).calls
    ensures r == HandleEvent(cfg, io.script, event, now).result
  {
    if event.payload.Err? {
      return Err(Failed(event.payload.error));
    }
    var update := event.payload.value;
    var message := if update.Some? then update.value.message else None;
    if message.None? {
      return Err(BadBody(event.body));
    }
    var msg := message.value;
    if msg.date < now - StaleAfter {
      return Ok(());
    }
    r := ProcessMessageInternal(cfg, io, msg);
  }
}
