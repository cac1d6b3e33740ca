/**
  What the current bot promises about the way it answers: the gate, the
  precedence of the paths, the prompts it builds, and that one inbound
  message gets at most one reply and at most one completion.
 */
module RoutingProperties {
  import opened Wrappers
  import opened Text
  import opened TgClient
  import opened Interactors
  import opened MessageProcessor

  /** Nothing but a dummy reaction to a link ever reaches a chat outside the allow list. */
  lemma UnlistedChatIsNeverAnswered(msg: Message, cfg: Config, s: Script)
    requires msg.chat.id !in cfg.allowChats
    requires PickFits(s, cfg.dummyAnswers)
    ensures Route(msg, cfg) == Ignore
         || (Route(msg, cfg) == DummyReaction(msg.chat.id)
             && msg.photo.None? && msg.text.Some? && Contains(msg.text.value, LinkMarker))
    ensures forall c :: c in Execute(Route(msg, cfg), cfg, s).calls ==>
              c.SentMessage? && c.text in cfg.dummyAnswers
  {
  }

  /** In an allow-listed private chat every text without a link is answered, by the private client. */
  lemma PrivateChatPassesGate(msg: Message, cfg: Config)
    requires msg.chat.id in cfg.allowChats && msg.chat.IsPrivate()
    requires msg.photo.None? && msg.text.Some? && !Contains(msg.text.value, LinkMarker)
    ensures Route(msg, cfg).DrawImage? || Route(msg, cfg).CompleteText?
    ensures Route(msg, cfg).client == Private
  {
  }

  /**
    A message with a photo always takes the photo path. Without photo sizes
    nothing happens; otherwise the caption (or the default question) is passed
    as it is, together with a largest photo, the last of equals.
   */
  lemma PhotoTakesPhotoPath(msg: Message, cfg: Config)
    requires msg.photo.Some?
    ensures Route(msg, cfg).Ignore? || Route(msg, cfg).DescribePhoto?
    ensures |msg.photo.value| == 0 ==> Route(msg, cfg) == Ignore
    ensures Route(msg, cfg).DescribePhoto? ==>
      var d := Route(msg, cfg);
      var photos := msg.photo.value;
      && d.chatId == msg.chat.id
      && d.caption == msg.caption.GetOr(DefaultCaption)
      && (d.client == Private <==> msg.chat.IsPrivate())
      && exists k :: 0 <= k < |photos| && photos[k].fileId == d.fileId
           && (forall j :: 0 <= j < |photos| ==> photos[j].fileSize <= photos[k].fileSize)
           && (forall j :: k < j < |photos| ==> photos[j].fileSize < photos[k].fileSize)
  {
    if Route(msg, cfg).DescribePhoto? {
      var photos := msg.photo.value;
      var k := LargestPhoto(photos);
      assert photos[k].fileId == Route(msg, cfg).fileId;
    }
  }

  /**
    When describing the photo fails, the apology is sent and the failure is
    still returned (unless the apology itself could not be sent).
   */
  lemma PhotoFailureApologises(msg: Message, cfg: Config, s: Script)
    requires Route(msg, cfg).DescribePhoto?
    requires s.fileUrl.Ok? && s.imageCompletion.Err?
    ensures var run := Execute(Route(msg, cfg), cfg, s);
      && |run.calls| == 3
      && run.calls[2] == SentMessage(msg.chat.id, PhotoApology, Some(MarkdownV2))
      && (s.send.Ok? ==> run.result == Err(Failed(s.imageCompletion.error)))
      && run.result.Err?
  {
  }

  /** A text with a link only gets the dummy reaction: no gate, no completion, at most one message. */
  lemma LinkGetsOnlyDummyReaction(msg: Message, cfg: Config, s: Script)
    requires msg.photo.None? && msg.text.Some? && Contains(msg.text.value, LinkMarker)
    requires PickFits(s, cfg.dummyAnswers)
    ensures Route(msg, cfg) == DummyReaction(msg.chat.id)
    ensures Execute(Route(msg, cfg), cfg, s).calls ==
      if s.percent < DummyChance && |cfg.dummyAnswers| > 0
      then [SentMessage(msg.chat.id, cfg.dummyAnswers[s.pick], Some(MarkdownV2))]
      else []
  {
  }

  /** A message with neither photo nor text makes no call. */
  lemma NoTextNoCalls(msg: Message, cfg: Config, s: Script)
    requires msg.photo.None? && msg.text.None?
    ensures Execute(Route(msg, cfg), cfg, s) == Run([], Ok(()))
  {
  }

  /**
    A text addressed with one of the bot's names and containing that name
    nowhere else loses exactly the name.
   */
  lemma StripLeadingName(text: string, name: string)
    requires name != [] && StartsWith(text, name) && !Contains(text[|name|..], name)
    ensures StripName(text, Some(name)) == text[|name|..]
  {
    ReplaceAbsent(text[|name|..], name, "");
  }

  /**
    Name replacements whose keys do not occur in the first name leave it as
    it is, however many there are.
   */
  lemma {:induction false} NameMapWithoutMatches(firstName: string, nameMap: seq<(string, string)>)
    requires forall k :: 0 <= k < |nameMap| ==> nameMap[k].0 != [] && !Contains(firstName, nameMap[k].0)
    ensures ApplyNameMap(firstName, nameMap) == firstName
    decreases |nameMap|
  {
    if nameMap != [] {
      var init := nameMap[..|nameMap| - 1];
      NameMapWithoutMatches(firstName, init);
      var last := nameMap[|nameMap| - 1];
      ReplaceAbsent(firstName, last.0, last.1);
    }
  }

  /**
    The draw command: the image prompt is what follows the first occurrence of
    "нарисуй" in the lower-cased (name-stripped) text (see `DrawPrompt`), and
    only the image client is asked. A failed picture is answered with the fixed apology and
    the handler still succeeds.
   */
  lemma DrawCommandAsksOnlyForImage(msg: Message, cfg: Config, s: Script)
    requires msg.photo.None? && msg.text.Some?
    requires Route(msg, cfg).DrawImage?
    ensures var text := msg.text.value;
      var stripped := StripName(text, UsedName(cfg.botNames, text));
      DrawPrompt(stripped) == Some(Route(msg, cfg).prompt)
    ensures var run := Execute(Route(msg, cfg), cfg, s);
      && Completions(run.calls) == 0
      && |run.calls| == 2
      && run.calls[0] == AskedImage(ClientFor(msg.chat), Route(msg, cfg).prompt)
      && (s.image.Ok? ==> run.calls[1] == SentImage(msg.chat.id, s.image.value))
      && (s.image.Err? ==> run.calls[1] == SentMessage(msg.chat.id, DrawApology, None))
      && (s.send.Ok? ==> run.result == Ok(()))
  {
    CountsOfPair(Execute(Route(msg, cfg), cfg, s).calls);
  }

  /**
    Otherwise exactly one completion is asked for: the prompt is the
    preamble, formatted with the remapped first name, followed by the
    name-stripped text; the private client is asked iff the chat is private;
    its answer is sent once, as MarkdownV2.
   */
  lemma CompletionPromptAndClient(msg: Message, cfg: Config, s: Script)
    requires msg.photo.None? && msg.text.Some?
    requires Route(msg, cfg).CompleteText?
    ensures var text := msg.text.value;
      var stripped := StripName(text, UsedName(cfg.botNames, text));
      var d := Route(msg, cfg);
      && d.prompt == Format(cfg.preamble, ApplyNameMap(msg.from.firstName, cfg.nameMap)) + stripped
      && DrawPrompt(stripped).None?
      && (d.client == Private <==> msg.chat.IsPrivate())
    ensures var d := Route(msg, cfg);
      var run := Execute(d, cfg, s);
      && Completions(run.calls) == 1
      && run.calls[0] == AskedCompletion(d.client, d.prompt)
      && (s.completion.Ok? ==>
            run.calls == [AskedCompletion(d.client, d.prompt), SentMessage(msg.chat.id, s.completion.value, Some(MarkdownV2))])
      && (s.completion.Err? ==>
            run.calls == [AskedCompletion(d.client, d.prompt)] && run.result == Err(Failed(s.completion.error)))
  {
    CountsOfPair(Execute(Route(msg, cfg), cfg, s).calls);
  }

  /**
    Every inbound message gets at most one reply and at most one completion,
    and a completion is asked for exactly when the message was routed to one.
   */
  lemma AtMostOneReply(msg: Message, cfg: Config, s: Script)
    requires PickFits(s, cfg.dummyAnswers)
    ensures var run := Execute(Route(msg, cfg), cfg, s);
      && Replies(run.calls) <= 1
      && Completions(run.calls) <= 1
      && (Completions(run.calls) == 1 <==> Route(msg, cfg).CompleteText?)
  {
    DecisionCounts(Route(msg, cfg), cfg, s);
  }

  /** The counts of `AtMostOneReply`, for any decision. */
  lemma DecisionCounts(d: Decision, cfg: Config, s: Script)
    requires d.DummyReaction? ==> PickFits(s, cfg.dummyAnswers)
    ensures var run := Execute(d, cfg, s);
      && Replies(run.calls) <= 1
      && Completions(run.calls) <= 1
      && (Completions(run.calls) == 1 <==> d.CompleteText?)
  {
    var run := Execute(d, cfg, s);
    match d
    case Ignore =>
    case DummyReaction(_) =>
    case DescribePhoto(_, _, _, _) =>
      if s.fileUrl.Ok? {
        CountsOfTriple(run.calls);
      }
    case DrawImage(_, _, _) =>
      CountsOfPair(run.calls);
    case CompleteText(_, _, _) =>
      CountsOfPair(run.calls);
  }

  /** An update without a message is a bad-body error, and nothing is sent. */
  lemma MissingMessageIsBadBody(cfg: Config, s: Script, event: Event, now: int)
    requires PickFits(s, cfg.dummyAnswers)
    requires event.payload.Ok?
    requires event.payload.value.None? || event.payload.value.value.message.None?
    ensures HandleEvent(cfg, s, event, now) == Run([], Err(BadBody(event.body)))
  {
  }

  /** A message sent more than ten minutes before now is dropped: success, and nothing is sent. */
  lemma StaleMessageIsDropped(cfg: Config, s: Script, event: Event, now: int)
    requires PickFits(s, cfg.dummyAnswers)
    requires event.payload.Ok? && event.payload.value.Some? && event.payload.value.value.message.Some?
    requires event.payload.value.value.message.value.date < now - StaleAfter
    ensures HandleEvent(cfg, s, event, now) == Run([], Ok(()))
  {
  }

  /** A message at most ten minutes old is handled as `process_message_internal` handles it. */
  lemma FreshMessageIsHandled(cfg: Config, s: Script, event: Event, now: int, msg: Message)
    requires PickFits(s, cfg.dummyAnswers)
    requires event.payload.Ok? && event.payload.value.Some? && event.payload.value.value.message == Some(msg)
    requires msg.date >= now - StaleAfter
    ensures HandleEvent(cfg, s, event, now) == Execute(Route(msg, cfg), cfg, s)
  {
  }
}
