/**
  What the older bot of main.rs promises, and how it relates to the current
  bot: on a message without a photo it takes the same path, with the shared
  client and without the name map.
 */
module LegacyProperties {
  import opened Wrappers
  import opened Text
  import opened TgClient
  import opened Interactors
  import opened MessageProcessor
  import opened LegacyBot

  /**
    The six values of the second draw cover the five phrases: the first four
    phrases have one draw each, the last phrase the remaining two.
   */
  lemma PhraseForEachDraw()
    ensures forall p :: p in Phrases ==> exists n: nat :: n < PhraseDraws && DummyPhrase(n) == p
    ensures forall n: nat, m: nat :: n < PhraseDraws && m < PhraseDraws ==>
              (DummyPhrase(n) == DummyPhrase(m) <==> n == m || (n >= 4 && m >= 4))
  {
    forall p | p in Phrases ensures exists n: nat :: n < PhraseDraws && DummyPhrase(n) == p {
      var k :| 0 <= k < |Phrases| && Phrases[k] == p;
      assert DummyPhrase(k) == p;
    }
    forall n: nat, m: nat | n < PhraseDraws && m < PhraseDraws && DummyPhrase(n) == DummyPhrase(m)
      ensures n == m || (n >= 4 && m >= 4)
    {
      PhrasesDistinct(if n < 4 then n else 4, if m < 4 then m else 4);
    }
  }

  lemma PhrasesDistinct(i: nat, j: nat)
    requires i < |Phrases| && j < |Phrases| && Phrases[i] == Phrases[j]
    ensures i == j
  {
    assert Phrases[0][0] == 'б' && Phrases[1][0] == 'п' && Phrases[2][0] == 'н';
    assert Phrases[3][0] == 'б' && Phrases[4][0] == 'х';
    assert |Phrases[0]| == 4 && |Phrases[3]| == 8;
  }

  /** A chat outside the allow list gets at most a phrase, in reaction to a link. */
  lemma LegacyUnlistedChatGetsOnlyPhrases(msg: Message, bot: TgBot, s: Script)
    requires msg.chat.id !in bot.allowChats
    ensures var run := LegacyExecute(LegacyRoute(msg, bot), s);
      forall c :: c in run.calls ==> c.SentMessage? && c.text in Phrases
  {
  }

  /** The older bot does not look at photos: a message without text makes no call. */
  lemma LegacyIgnoresTextlessMessages(msg: Message, bot: TgBot, s: Script)
    requires msg.text.None?
    ensures LegacyExecute(LegacyRoute(msg, bot), s) == Run([], Ok(()))
  {
  }

  /** Every completion and every picture is asked of the one shared client. */
  lemma LegacyAsksOnlySharedClient(msg: Message, bot: TgBot, s: Script)
    ensures var run := LegacyExecute(LegacyRoute(msg, bot), s);
      forall c :: c in run.calls && (c.AskedCompletion? || c.AskedImage? || c.AskedImageCompletion?) ==> c.client == Shared
  {
    LegacyRouteNamesShared(msg, bot);
    DecisionAsksShared(LegacyRoute(msg, bot), s);
  }

  /** Carrying out a decision that names only the shared client asks only the shared client. */
  lemma DecisionAsksShared(d: Decision, s: Script)
    requires !d.DescribePhoto?
    requires d.DrawImage? ==> d.client == Shared
    requires d.CompleteText? ==> d.client == Shared
    ensures var run := LegacyExecute(d, s);
      forall c :: c in run.calls && (c.AskedCompletion? || c.AskedImage? || c.AskedImageCompletion?) ==> c.client == Shared
  {
    if d.DrawImage? {
      assert LegacyExecute(d, s) == ImageRun(d.chatId, Shared, d.prompt, s);
    } else if d.CompleteText? {
      assert LegacyExecute(d, s) == TextRun(d.chatId, Shared, d.prompt, s);
    } else if d.DummyReaction? {
      assert LegacyExecute(d, s) == LegacyDummyRun(d.chatId, s);
    }
  }

  /** The older route never describes a photo, and names the shared client wherever it names one. */
  lemma LegacyRouteNamesShared(msg: Message, bot: TgBot)
    ensures var d := LegacyRoute(msg, bot);
      && !d.DescribePhoto?
      && (d.DrawImage? ==> d.client == Shared)
      && (d.CompleteText? ==> d.client == Shared)
  {
  }

  /** One inbound message, at most one reply and at most one completion. */
  lemma LegacyAtMostOneReply(msg: Message, bot: TgBot, s: Script)
    ensures var run := LegacyExecute(LegacyRoute(msg, bot), s);
      && Replies(run.calls) <= 1
      && Completions(run.calls) <= 1
      && (Completions(run.calls) == 1 <==> LegacyRoute(msg, bot).CompleteText?)
  {
    LegacyRouteNamesShared(msg, bot);
    LegacyDecisionCounts(LegacyRoute(msg, bot), s);
  }

  /** The counts for any decision of the older route. */
  lemma LegacyDecisionCounts(d: Decision, s: Script)
    requires !d.DescribePhoto?
    ensures var run := LegacyExecute(d, s);
      && Replies(run.calls) <= 1
      && Completions(run.calls) <= 1
      && (Completions(run.calls) == 1 <==> d.CompleteText?)
  {
    var run := LegacyExecute(d, s);
    if d.DrawImage? || d.CompleteText? {
      CountsOfPair(run.calls);
    }
  }

  /** The current bot's decision, with the shared client asked instead. */
  function OnSharedClient(d: Decision): Decision
  {
    match d
    case DescribePhoto(chatId, _, caption, fileId) => DescribePhoto(chatId, Shared, caption, fileId)
    case DrawImage(chatId, _, prompt) => DrawImage(chatId, Shared, prompt)
    case CompleteText(chatId, _, prompt) => CompleteText(chatId, Shared, prompt)
    case _ => d
  }

  /** The current bot's configuration with the older bot's settings and no name map. */
  function CurrentConfig(bot: TgBot, pool: seq<string>): Config
  {
    Config([], bot.preamble, pool, bot.allowChats, bot.names)
  }

  /**
    On a message without a photo the older bot decides as the current bot
    does with an empty name map, except that it always asks the shared client;
    and apart from the dummy reaction it then makes the same calls.
   */
  lemma LegacyRouteIsCurrentRoute(msg: Message, bot: TgBot, pool: seq<string>, s: Script)
    requires msg.photo.None?
    ensures LegacyRoute(msg, bot) == OnSharedClient(Route(msg, CurrentConfig(bot, pool)))
    ensures !LegacyRoute(msg, bot).DummyReaction? ==>
      LegacyExecute(LegacyRoute(msg, bot), s) == Execute(LegacyRoute(msg, bot), CurrentConfig(bot, pool), s)
  {
  }

  /**
    The older dummy reaction is the current one over the five phrases, with
    every second draw from 4 on standing for the last phrase.
   */
  lemma LegacyDummyIsCurrentDummy(chatId: int, s: Script)
    ensures var clamped := s.(pick := if s.pick < 4 then s.pick else 4);
      LegacyDummyRun(chatId, s) == DummyRun(chatId, Phrases, clamped)
  {
  }

  /** An update without a message is a bad-body error, and nothing is sent. */
  lemma LegacyMissingMessageIsBadBody(bot: TgBot, s: Script, event: Event, now: int)
    requires event.payload.Ok?
    requires event.payload.value.None? || event.payload.value.value.message.None?
    ensures LegacyHandleEvent(bot, s, event, now) == Run([], Err(BadBody(event.body)))
  {
  }

  /** A message sent more than ten minutes before now is dropped: success, and nothing is sent. */
  lemma LegacyStaleMessageIsDropped(bot: TgBot, s: Script, event: Event, now: int)
    requires event.payload.Ok? && event.payload.value.Some? && event.payload.value.value.message.Some?
    requires event.payload.value.value.message.value.date < now - StaleAfter
    ensures LegacyHandleEvent(bot, s, event, now) == Run([], Ok(()))
  {
  }
}
