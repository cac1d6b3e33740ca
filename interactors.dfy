/**
  The bot's collaborators, seen from the bot: the Telegram client
  (`TelegramInteractor`), the completion clients (`GtpInteractor`) and the
  random number generator. Their answers for one inbound message are given
  up front as a `Script`; the calls the bot makes are recorded, in order, in
  the ghost `trace` of an `Io` object.
 */
module Interactors {
  import opened Wrappers
  import opened TgClient

  /** Which completion client is asked: the shared one or the private-chat one. */
  datatype ClientKind = Shared | Private

  /** One call from the bot to a collaborator. */
  datatype Call =
    | SentMessage(chatId: int, text: string, parseMode: Option<string>)
    | SentImage(chatId: int, url: string)
    | AskedFileUrl(fileId: string)
    | AskedCompletion(client: ClientKind, prompt: string)
    | AskedImage(client: ClientKind, prompt: string)
    | AskedImageCompletion(client: ClientKind, text: string, imageUrl: string)
  {
    /** A call that puts something into the chat. */
    predicate IsReply() {
      SentMessage? || SentImage?
    }
  }

  /**
    What the collaborators answer while one message is handled. Every
    collaborator is called at most once per message, so one answer each is
    enough. `percent` is the `gen_range(0..100)` draw; `pick` is the second
    draw (the index `choose` takes, or the `gen_range(0..6)` of the older bot).
   */
  datatype Script = Script(
    fileUrl: Result<string, string>,
    completion: Result<string, string>,
    image: Result<string, string>,
    imageCompletion: Result<string, string>,
    send: Result<(), string>,
    percent: int,
    pick: nat)

  /** The errors a message handler returns (`anyhow::Error`). */
  datatype Error =
    | BadBody(body: string)   // `RequestError::BadBody`: the update holds no message
    | Failed(reason: string)  // a collaborator's error, passed on by `?`

  /** The calls one handler made, in order, and what it returned. */
  datatype Run = Run(calls: seq<Call>, result: Result<(), Error>)

  /** The inbound HTTP event: its decoded payload (or the decoding error) and its raw body text. */
  datatype Event = Event(payload: Result<Option<Update>, string>, body: string)

  /** The number of calls in `calls` that put something into the chat. */
  function Replies(calls: seq<Call>): nat
  {
    if calls == [] then 0 else (if calls[0].IsReply() then 1 else 0) + Replies(calls[1..])
  }

  /** The number of text completions requested in `calls`. */
  function Completions(calls: seq<Call>): nat
  {
    if calls == [] then 0 else (if calls[0].AskedCompletion? then 1 else 0) + Completions(calls[1..])
  }

  /** The counts of two calls are the sums of the counts of each. */
  lemma CountsOfPair(calls: seq<Call>)
    ensures |calls| == 2 ==>
      && Replies(calls) == Replies([calls[0]]) + Replies([calls[1]])
      && Completions(calls) == Completions([calls[0]]) + Completions([calls[1]])
  {
    if |calls| == 2 {
      assert calls[1..] == [calls[1]];
      assert calls[1..][1..] == [];
    }
  }

  /** The counts of three calls are the sums of the counts of each. */
  lemma CountsOfTriple(calls: seq<Call>)
    ensures |calls| == 3 ==>
      && Replies(calls) == Replies([calls[0]]) + Replies([calls[1]]) + Replies([calls[2]])
      && Completions(calls) == Completions([calls[0]]) + Completions([calls[1]]) + Completions([calls[2]])
  {
    if |calls| == 3 {
      assert calls[1..] == [calls[1], calls[2]];
      CountsOfPair(calls[1..]);
    }
  }

  /** The collaborators as the bot uses them; each call is appended to `trace`. */
  class Io {
    const script: Script
    ghost var trace: seq<Call>

    constructor (script: Script)
      ensures this.script == script && trace == []
    {
      this.script := script;
      trace := [];
    }

    /** `TelegramInteractor::send_message`. */
    method SendMessage(chatId: int, text: string, parseMode: Option<string>) returns (r: Result<(), string>)
      modifies this
      ensures trace == old(trace) + [SentMessage(chatId, text, parseMode)]
      ensures r == script.send
    {
      trace := trace + [SentMessage(chatId, text, parseMode)];
      r := script.send;
    }

    /** `TelegramInteractor::send_image`. */
    method SendImage(chatId: int, url: string) returns (r: Result<(), string>)
      modifies this
      ensures trace == old(trace) + [SentImage(chatId, url)]
      ensures r == script.send
    {
      trace := trace + [SentImage(chatId, url)];
      r := script.send;
    }

    /** `TelegramInteractor::get_file_url`. */
    method GetFileUrl(fileId: string) returns (r: Result<string, string>)
      modifies this
      ensures trace == old(trace) + [AskedFileUrl(fileId)]
      ensures r == script.fileUrl
    {
      trace := trace + [AskedFileUrl(fileId)];
      r := script.fileUrl;
    }

    /** `GtpInteractor::get_completion` on the given client. */
    method GetCompletion(client: ClientKind, prompt: string) returns (r: Result<string, string>)
      modifies this
      ensures trace == old(trace) + [AskedCompletion(client, prompt)]
      ensures r == script.completion
    {
      trace := trace + [AskedCompletion(client, prompt)];
      r := script.completion;
    }

    /** `GtpInteractor::get_image` on the given client: the URL of a generated picture. */
    method GetImage(client: ClientKind, prompt: string) returns (r: Result<string, string>)
      modifies this
      ensures trace == old(trace) + [AskedImage(client, prompt)]
      ensures r == script.image
    {
      trace := trace + [AskedImage(client, prompt)];
      r := script.image;
    }

    /** `GtpInteractor::get_image_completion` on the given client: a text about a picture. */
    method GetImageCompletion(client: ClientKind, text: string, imageUrl: string) returns (r: Result<string, string>)
      modifies this
      ensures trace == old(trace) + [AskedImageCompletion(client, text, imageUrl)]
      ensures r == script.imageCompletion
    {
      trace := trace + [AskedImageCompletion(client, text, imageUrl)];
      r := script.imageCompletion;
    }
  }
}
