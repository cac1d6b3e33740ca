# A verified model of the gpt-tg-bot message handling

gpt-tg-bot is a Telegram bot that runs as an AWS Lambda function: Telegram
posts each update to it, and the bot answers with a text completion, a
generated picture, a description of a photo or, when someone posts a link, a
random canned reaction. This project models, in Dafny, how the bot decides
what to do with one inbound message and which calls it then makes. It proves
what the code promises about those decisions, and about the MarkdownV2
escaping applied to every outgoing text.

The model has three parts, following the source files:

- **The current bot** (`TgBot` in `src/message_processor.rs`), in the modules
  `MessageProcessor`, `RoutingProperties` and `RoutingExamples`.
  - `Route` is a pure function that decides which path a message takes:
    ignore it, react to a link, describe a photo, draw a picture, or ask for a
    completion.
  - `Execute` states which calls that path makes and what the handler returns.
  - The handlers (`ProcessMessageInternal`, `ProcessPhoto`, ...) are
    imperative methods that make those calls one by one on an `Io` object.
    Each is proved to make exactly the calls of `Execute(Route(..))`.
  - `RoutingProperties` proves the gate, the precedence of the paths, the
    prompts, the client choice, the error paths and the ten-minute cut-off.
  - `RoutingExamples` replays the unit tests of the file.
- **The older bot** (`src/main.rs`), in `LegacyBot` and `LegacyProperties`.
  It has one shared completion client, no photo path and no name map, and
  its dummy reaction comes from five fixed phrases. `function_handler`
  always answers HTTP 200. `LegacyRouteIsCurrentRoute` proves that on a
  message without a photo it decides as the current bot would with an empty
  name map, except that it always asks the shared client.
- **MarkdownV2 escaping** (`TgClient::send_message` in `src/tg_client.rs`),
  in `TgClient` and `EscapeExamples`.
  - `Escape` puts a backslash before each of the 18 characters of
    `ESCAPE_SYMBOLS`.
  - `BuildMessageRequest` is the source's loop, proved equal to `Escape`.
  - `Unescape` is its inverse. The lemmas prove the round trip,
    injectivity, the length growth, where each character ends up, and that
    escaping is not idempotent.

The collaborators (the Telegram client, the two completion clients and the
random number generator) are not modelled. Their answers for one message are
given up front as a `Script`, and the calls the bot makes are recorded in
order in the ghost `trace` of an `Io` object (module `Interactors`). The
clock is a parameter `now`, in whole seconds.

The module `DrawIndex` models the draw command's prompt cut byte by byte, as
the source makes it. It shows where that cut goes wrong (see "## Findings").

A reader might expect more of some parts of the bot than the code does. The
model follows the code:

- One might expect escaping to keep adjacent pairs of emphasis markers, so
  that `**bold**` stays bold. `send_message` escapes every reserved
  character, paired or not. `EscapeLoneStars` and `EscapeDoubledStars` state
  what the code does.
- One might expect a long answer to be split into chunks, with a smaller
  chunk resent when Telegram rejects one. The code sends the escaped text
  once, in one request.
- One might expect a failed completion to be echoed back to the chat. In the
  code each path fails its own way:
  - A failed text completion sends nothing and is returned as an error.
  - A failed photo description sends "Прости, я задумался. Можешь
    повторить?" and is then returned as an error.
  - A failed picture sends "Сейчас я такое не могу нарисовать", and the
    message still succeeds.

## Model

| member | source | states |
|---|---|---|
| Text.Find | src/message_processor.rs:161 | `str::find`: if it returns an index, the pattern occurs there and at no earlier index; it returns none exactly when the pattern occurs nowhere |
| Text.ContainsIff | src/message_processor.rs:124 | `contains` holds exactly when the pattern occurs at some index |
| Text.ReplaceAbsent | src/message_processor.rs:143-145 | `replace` with a non-empty pattern that does not occur returns the text unchanged |
| Text.ReplaceBySelf | src/message_processor.rs:149-151 | replacing a pattern by itself changes nothing, including for the empty pattern |
| Text.Replace | src/message_processor.rs:143-151 | `str::replace`: scanning left to right, each non-overlapping occurrence of a non-empty pattern is replaced and the text between is kept; an empty pattern puts the replacement before every character and at the end (its properties: `ReplaceAbsent`, `ReplaceBySelf`, `DeleteShrinks`) |
| Text.DeleteShrinks | src/message_processor.rs:143-145 | removing a name (`replace(name, "")`) never makes the text longer |
| Text.LowerCharChangesCapitals | src/message_processor.rs:161 | one character lowers to a different character exactly when it is one of the modelled capitals |
| Text.Lower | src/message_processor.rs:161 | lowering keeps the number of code points, so a code-point index into the lowered text points at the same character of the text; it need not keep each character's UTF-8 length (see `DrawIndex`) |
| Text.LowerWithoutCapitals | src/message_processor.rs:161 | a text without the modelled capitals lowers to itself |
| Text.FindSharedPrefix | src/message_processor.rs:161 | two texts that agree up to the end of the leftmost occurrence of a pattern in one of them find it at the same index |
| Text.Format | src/message_processor.rs:186 | a preamble without `{}` is used as it is |
| Text.FormatFillsFirstPlaceholder | src/message_processor.rs:186 | a preamble `pre{}post`, with no `{}` in `pre`, formats to `pre`, then the first name, then `post` |
| Text.FindPastPrefix | src/message_processor.rs:161 | a pattern at the start of `rest`, behind a prefix without its first character, is found right after the prefix |
| Text.NotContainedWithoutFirstChar | src/message_processor.rs:124 | a pattern whose first character is absent from the text is not contained in it |
| TgClient.ReservedIsEscapeSymbol | src/tg_client.rs:10-13 | the set `ESCAPE_SYMBOLS` and the per-character test the proofs use name the same eighteen characters |
| TgClient.Escape | src/tg_client.rs:109-117 | the escaped text is longer by exactly the number of reserved characters |
| TgClient.EscapeConcat | src/tg_client.rs:111-117 | escaping works character by character: it distributes over concatenation |
| TgClient.EscapeAt | src/tg_client.rs:111-117 | input character `i` appears at offset `i` plus the number of reserved characters before it, preceded by a backslash exactly when it is reserved |
| TgClient.UnescapeEscape | src/tg_client.rs:109-117 | unescaping an escaped text gives back the original |
| TgClient.EscapeInjective | src/tg_client.rs:109-117 | different texts never escape to the same text |
| TgClient.EscapeClean | src/tg_client.rs:112 | text without reserved characters is sent unchanged |
| TgClient.ReservedCountZero | src/tg_client.rs:112 | a text has no reserved characters exactly when its count of them is zero |
| TgClient.EscapeFixedPoint | src/tg_client.rs:109-117 | escaping leaves a text unchanged if and only if the text has no reserved character |
| TgClient.EscapeDoublesReserved | src/tg_client.rs:112-116 | an escaped text has twice as many reserved characters, since each inserted backslash is itself reserved |
| TgClient.EscapeTwice | src/tg_client.rs:109-117 | escaping an already escaped text changes it again if and only if the text had a reserved character |
| TgClient.NeverEscaped | src/tg_client.rs:10-13 | the backtick, ASCII letters, digits and the space are never escaped |
| TgClient.BuildMessageRequest | src/tg_client.rs:109-120 | the request holds the chat id, the escaped text and the parse mode as given; the loop invariant is that the buffer equals the escaped prefix |
| EscapeExamples.EscapeLoneStars | src/tg_client.rs:109-117 | "Hello \*world\*!" is sent as `Hello \*world\*\!` |
| EscapeExamples.EscapeDoubledStars | src/tg_client.rs:109-117 | "Hello \*\*world\*\*!" is sent with every star escaped: the pairs are not kept |
| Interactors.Io.SendMessage | src/message_processor.rs:200-203 | one `send_message` call is appended to the trace, and the scripted send outcome is returned |
| Interactors.Io.SendImage | src/message_processor.rs:221 | one `send_image` call is appended, with the scripted send outcome |
| Interactors.Io.GetFileUrl | src/message_processor.rs:268 | one `get_file_url` call is appended, with the scripted URL or error |
| Interactors.Io.GetCompletion | src/message_processor.rs:192-196 | one completion request to the given client is appended, with the scripted answer or error |
| Interactors.Io.GetImage | src/message_processor.rs:217 | one picture request to the given client is appended, with the scripted URL or error |
| Interactors.Io.GetImageCompletion | src/message_processor.rs:270-274 | one photo-description request to the given client is appended, with the scripted answer or error |
| MessageProcessor.UsedName | src/message_processor.rs:130-135 | the result is the first name, in list order, that the text starts with; it is none exactly when the text starts with no name |
| MessageProcessor.ShouldAnswer | src/message_processor.rs:358-368 | the gate: the chat is on the allow list, and the chat is private, or the text starts with one of the bot's names, or the message replies to a message sent by a bot (consequences: `UnlistedChatIsNeverAnswered`, `PrivateChatPassesGate`, `ShouldAnswerExamples`) |
| MessageProcessor.StripName | src/message_processor.rs:143-145 | a text addressed by name loses every occurrence of that name, not only the leading one; an unaddressed text is kept (consequence: `StripLeadingName`) |
| MessageProcessor.ApplyNameMap | src/message_processor.rs:147-151 | each pair of the name map replaces its key by its value in the first name, in map order, each on the result of the previous (consequences: `RemapFirstName`, `NameMapWithoutMatches`) |
| MessageProcessor.ClientFor | src/message_processor.rs:237-243 | private chats are answered by the private client, every other chat by the shared one (consequences: `PrivateChatPassesGate`, `CompletionPromptAndClient`) |
| MessageProcessor.LargestPhotoFrom | src/message_processor.rs:264 | the fold of `max_by_key`: given a largest photo of the prefix, last of equals, it returns a largest photo of all, last of equals |
| MessageProcessor.LargestPhoto | src/message_processor.rs:264 | the photo `max_by_key(file_size)` picks: no photo is larger, and every later photo is strictly smaller |
| MessageProcessor.GetRandomAnswer | src/message_processor.rs:309-317 | there is an answer exactly when the percent draw is below 30 and the pool is non-empty, and the answer is taken from the pool |
| MessageProcessor.DrawPrompt | src/message_processor.rs:161-166 | there is an image prompt exactly when the lowered text contains "нарисуй" |
| MessageProcessor.DrawPromptFollowsCommand | src/message_processor.rs:213 | the prompt is the rest of the text after the leftmost place where the lowered text holds the command |
| MessageProcessor.RoutePhoto | src/message_processor.rs:245-266 | a photo is looked at only past the gate, with the caption or "Что на картинке?" as its text; an empty list of sizes is ignored, otherwise a largest size is described by the chat's client (consequence: `PhotoTakesPhotoPath`) |
| MessageProcessor.RouteText | src/message_processor.rs:123-175 | a text with "https://" gets the dummy reaction before the gate is asked; past the gate the stripped text goes to the draw path when it holds the command, and otherwise to a completion of the formatted preamble and the stripped text (consequences: `LinkGetsOnlyDummyReaction`, `DrawCommandAsksOnlyForImage`, `CompletionPromptAndClient`) |
| MessageProcessor.Route | src/message_processor.rs:115-178 | a photo wins over a text; a message with neither is ignored (consequences: `NoTextNoCalls`, `AtMostOneReply`) |
| MessageProcessor.AfterSend | src/message_processor.rs:200-203 | a path that ends with a send returns the send's error when it fails, and the path's own result otherwise |
| MessageProcessor.DummyRun | src/message_processor.rs:309-329 | sends the random answer as MarkdownV2 when there is one, and nothing otherwise; only a failed send is an error (implemented by `DummyReactionTo`) |
| MessageProcessor.PhotoRun | src/message_processor.rs:261-307 | the photo path's calls: the file URL, then the description, then the answer or the apology; a failed URL stops it with an error, a failed description is an error after the apology (implemented by `ProcessPhoto`; consequence: `PhotoFailureApologises`) |
| MessageProcessor.ImageRun | src/message_processor.rs:207-235 | the draw path's calls: the picture request, then the picture or the apology without parse mode; a failed picture is not an error (implemented by `ProcessImageRequest`) |
| MessageProcessor.TextRun | src/message_processor.rs:180-205 | the completion path's calls: the completion, then its answer as MarkdownV2; a failed completion stops it with an error and sends nothing (implemented by `ProcessTextMessage`) |
| MessageProcessor.Execute | src/message_processor.rs:115-178 | the calls and result of each path of a decision; ignoring makes no call and succeeds (implemented by `ProcessMessageInternal`; consequences: `AtMostOneReply`, `DecisionCounts`) |
| MessageProcessor.HandleEvent | src/message_processor.rs:335-355 | a payload error is returned, a missing message is a bad-body error with the body, a message more than ten minutes old is dropped, any other is routed and carried out (implemented by `ProcessEvent`; consequences: `MissingMessageIsBadBody`, `StaleMessageIsDropped`, `FreshMessageIsHandled`) |
| MessageProcessor.RemapFirstName | src/message_processor.rs:147-151 | the loop over the name map gives the first name with each replacement applied in order |
| MessageProcessor.DummyReactionTo | src/message_processor.rs:319-329 | sends the random answer if there is one, and nothing otherwise; a failed send is returned |
| MessageProcessor.ProcessPhoto | src/message_processor.rs:245-307 | makes exactly the calls of the photo path, in order, and returns its result |
| MessageProcessor.ProcessImageRequest | src/message_processor.rs:207-235 | asks for a picture of the text after the command, then sends it or the fixed apology; only a failed send is an error |
| MessageProcessor.ProcessTextMessage | src/message_processor.rs:180-205 | asks the chat's client for a completion of the formatted preamble followed by the text, then sends the answer as MarkdownV2 |
| MessageProcessor.ProcessMessageInternal | src/message_processor.rs:115-178 | makes exactly the calls of `Execute(Route(msg))`, in order, and returns its result |
| MessageProcessor.ProcessEvent | src/message_processor.rs:335-355 | a payload error or a missing message is an error, a stale message is dropped, any other message is handled |
| RoutingProperties.UnlistedChatIsNeverAnswered | src/message_processor.rs:358-368 | a chat outside the allow list gets nothing, except a dummy reaction to a text with a link; every call made is such a reaction |
| RoutingProperties.PrivateChatPassesGate | src/message_processor.rs:358-368 | in an allow-listed private chat every text without a link gets a picture or a completion, from the private client |
| RoutingProperties.PhotoTakesPhotoPath | src/message_processor.rs:119-121 | a message with a photo takes the photo path; with no photo sizes nothing happens; otherwise the caption, or the default question, is asked about a largest photo, last of equals, of this chat's client |
| RoutingProperties.PhotoFailureApologises | src/message_processor.rs:289-300 | when describing the photo fails, the apology is the third call and the handler returns an error |
| RoutingProperties.LinkGetsOnlyDummyReaction | src/message_processor.rs:123-128 | a text with a link gets the dummy reaction and no other call, whatever the gate would say |
| RoutingProperties.NoTextNoCalls | src/message_processor.rs:177 | a message with neither photo nor text makes no call and succeeds |
| RoutingProperties.StripLeadingName | src/message_processor.rs:143-145 | a text addressed with a name that occurs nowhere else loses exactly that leading name |
| RoutingProperties.NameMapWithoutMatches | src/message_processor.rs:147-151 | replacements whose keys do not occur in the first name leave it unchanged |
| RoutingProperties.DrawCommandAsksOnlyForImage | src/message_processor.rs:207-235 | on the draw path the prompt is `DrawPrompt` of the stripped text; the only calls are the picture request and one send (the picture, or the apology); no completion is asked for |
| RoutingProperties.CompletionPromptAndClient | src/message_processor.rs:180-205 | on the completion path the prompt is the formatted preamble followed by the stripped text, the text has no draw command, the private client is asked exactly for private chats, and the answer is sent once |
| RoutingProperties.AtMostOneReply | src/message_processor.rs:115-178 | one message gets at most one reply and at most one completion, and exactly one completion when it is routed to one |
| RoutingProperties.DecisionCounts | src/message_processor.rs:115-178 | the same counts for every decision |
| RoutingProperties.MissingMessageIsBadBody | src/message_processor.rs:338-342 | an update without a message is a bad-body error carrying the body, and nothing is sent |
| RoutingProperties.StaleMessageIsDropped | src/message_processor.rs:344-348 | a message sent more than ten minutes before now succeeds without any call |
| RoutingProperties.FreshMessageIsHandled | src/message_processor.rs:343-350 | a message at most ten minutes old is handled by the message path |
| RoutingExamples.ShouldAnswerExamples | src/message_processor.rs:411-450 | chat 123 passes the gate with allow list [123] and fails it with [124] |
| RoutingExamples.CompletionRoute | src/message_processor.rs:137-169 | a text past the link check and the gate, without a draw command, is routed to a completion of the formatted preamble and the stripped text |
| RoutingExamples.DrawRoute | src/message_processor.rs:137-166 | a text past the link check and the gate, with a draw command, is routed to a picture of its prompt |
| RoutingExamples.ProcessMessageExample | src/message_processor.rs:453-481 | "Hello" from Sam: the private client is asked "Call me Bob. Hello" and its answer is sent |
| RoutingExamples.PhotoExample | src/message_processor.rs:541-574 | a photo without caption: the file URL, then "Что на картинке?" to the private client, then the answer |
| RoutingExamples.UrlExample | src/message_processor.rs:576-593 | a link, with a percent draw below 30 and the second answer chosen: only "Another dummy answer" is sent |
| RoutingExamples.BotNameExample | src/message_processor.rs:596-617 | "bot_name Hello": the completion prompt is "preamble Hello" |
| RoutingExamples.DrawExample | src/message_processor.rs:620-641 | "нарисуй cat": a picture of " cat" is asked for and sent |
| RoutingExamples.PlainTextExample | src/message_processor.rs:644-665 | "Hello": the completion prompt is "preambleHello" |
| LegacyBot.DummyPhrase | src/main.rs:188-195 | every second draw gives one of the five phrases |
| LegacyBot.LegacyDummyRun | src/main.rs:185-201 | with a percent draw below 30 the phrase of the second draw is sent as MarkdownV2, and nothing otherwise; only a failed send is an error (implemented by `LegacyDummyReaction`; consequence: `LegacyDummyIsCurrentDummy`) |
| LegacyBot.LegacyRoute | src/main.rs:92-183 | only texts are looked at, photo or not: the link check, then the gate, then the draw command, then a completion of the preamble formatted with the unmapped first name; every client named is the shared one (consequences: `LegacyRouteNamesShared`, `LegacyRouteIsCurrentRoute`, `LegacyIgnoresTextlessMessages`) |
| LegacyBot.LegacyExecute | src/main.rs:92-183 | the same draw and completion runs as the current bot, with the older dummy reaction (implemented by `ProcessMessage`; consequences: `LegacyAtMostOneReply`, `LegacyAsksOnlySharedClient`) |
| LegacyBot.LegacyHandleEvent | src/main.rs:69-89 | the same payload error, bad-body error and ten-minute cut-off as the current bot, then the older route (implemented by `ProcessEvent`; consequences: `LegacyMissingMessageIsBadBody`, `LegacyStaleMessageIsDropped`) |
| LegacyBot.LegacyDummyReaction | src/main.rs:185-201 | with a percent draw below 30 one phrase is sent as MarkdownV2; otherwise nothing |
| LegacyBot.ProcessMessage | src/main.rs:92-183 | makes exactly the calls of the older route, in order, and returns its result |
| LegacyBot.ProcessEvent | src/main.rs:69-89 | the same errors and the same ten-minute cut-off as the current bot |
| LegacyBot.FunctionHandler | src/main.rs:37-67 | the response is an empty 200 whatever the handler returned, after the same calls |
| LegacyProperties.PhraseForEachDraw | src/main.rs:188-195 | the six second draws cover all five phrases; two draws give the same phrase exactly when they are equal or both at least 4 |
| LegacyProperties.LegacyUnlistedChatGetsOnlyPhrases | src/main.rs:203-213 | a chat outside the allow list is sent nothing but one of the five phrases |
| LegacyProperties.LegacyIgnoresTextlessMessages | src/main.rs:93 | the older bot makes no call for a message without text, photo or not |
| LegacyProperties.LegacyAsksOnlySharedClient | src/main.rs:123-163 | every completion and picture is asked of the one shared client |
| LegacyProperties.LegacyRouteNamesShared | src/main.rs:123-163 | the older route never describes a photo, and names the shared client wherever it names a client |
| LegacyProperties.DecisionAsksShared | src/main.rs:123-163 | carrying out a decision that names only the shared client, and no photo, asks only the shared client |
| LegacyProperties.LegacyAtMostOneReply | src/main.rs:92-183 | at most one reply and one completion, and one completion exactly on the completion path |
| LegacyProperties.LegacyDecisionCounts | src/main.rs:92-183 | any decision other than a photo description sends at most one reply and asks at most one completion, one exactly when it is the completion path |
| LegacyProperties.LegacyRouteIsCurrentRoute | src/main.rs:92-183 | without a photo, the older route is the current route with an empty name map and the shared client, and apart from the dummy reaction it makes the same calls |
| LegacyProperties.LegacyDummyIsCurrentDummy | src/main.rs:185-201 | the older dummy reaction is the current one over the five phrases, with every second draw from 4 on meaning the last phrase |
| LegacyProperties.LegacyMissingMessageIsBadBody | src/main.rs:72-76 | an update without a message is a bad-body error, and nothing is sent |
| LegacyProperties.LegacyStaleMessageIsDropped | src/main.rs:78-82 | a message more than ten minutes old succeeds without any call |
| DrawIndex.Utf8Len | src/message_processor.rs:213 | every code point takes one to four bytes |
| DrawIndex.ByteLenConcat | src/message_processor.rs:213 | byte lengths add up over concatenation |
| DrawIndex.SliceAfterPrefix | src/message_processor.rs:213 | slicing at the byte length of the first `k` characters skips exactly those characters |
| DrawIndex.SliceAtPrefixBytes | src/message_processor.rs:213 | slicing at the byte length of the first `m` characters gives exactly the rest of the text, never a panic |
| DrawIndex.SliceBytes | src/message_processor.rs:213 | a slice that does not panic leaves as many bytes fewer as it skips |
| DrawIndex.SliceIsRestExactly | src/message_processor.rs:213 | a byte slice gives the text after its first `m` characters if and only if it is cut at their byte length |
| DrawIndex.DrawPromptAsWritten | src/message_processor.rs:161-213 | the prompt as the handler cuts it: the byte offset of the command in `to_lowercase()` of the text, plus 14, used on the text itself; none where that slice panics (properties: the lemmas below and "## Findings") |
| DrawIndex.NotInPlace | src/message_processor.rs:161 | of the modelled lowering, exactly the capital dotted I, the Kelvin, Angstrom and Ohm signs, the capital sharp s and the capitals A and T with stroke do not lower to one character of the same UTF-8 length |
| DrawIndex.LowerKeepsByteLen | src/message_processor.rs:161 | the code-point-wise lowering keeps the byte length of a text whose characters each keep their UTF-8 length |
| DrawIndex.LowerStrWithoutDottedI | src/message_processor.rs:161 | without a capital dotted I, full lowering is the code-point-wise lowering |
| DrawIndex.CommandBytes | src/message_processor.rs:213 | "нарисуй" is 14 bytes long, the `DRAW_COMMAND.len()` of the cut |
| DrawIndex.CommandOffset | src/message_processor.rs:213 | where every character before the command lowers in place, the byte offset after the command is the same in the lowered text and in the text |
| DrawIndex.BytesBeforeCommand | src/message_processor.rs:161-213 | characters that lower in place keep the byte length of the text before the command |
| DrawIndex.CommandKeepsBytes | src/message_processor.rs:161-213 | the characters that lower to the command take its 14 bytes, whatever their case |
| DrawIndex.LowersToCyrillic | src/message_processor.rs:161-213 | a character that lowers to a letter of the command takes two bytes, before and after lowering |
| DrawIndex.AsWrittenAgreesWhereLengthsKept | src/message_processor.rs:161-213 | where every character lowers to one character of the same UTF-8 length, the byte cut as written and the intended cut take the same texts to the draw path and give the same prompt |
| DrawIndex.AsWrittenAgreesBeforeCommand | src/message_processor.rs:161-213 | where every character before the command lowers in place, the text takes the draw path as written too and gets the intended prompt, whatever follows the command |
| DrawIndex.AsWrittenRightExactlyWhenBytesKept | src/message_processor.rs:161-213 | without a capital dotted I before the command, the text takes the draw path as written too, and the cut as written gives the intended prompt if and only if the text before the command keeps its UTF-8 byte length under lowering |
| DrawIndex.LoweredPrefixBytes | src/message_processor.rs:161 | where both lowerings agree before the command, the text before it has the same byte length in either |
| DrawIndex.BytesThroughCommand | src/message_processor.rs:161-213 | the text through the command is the command's 14 bytes longer than the text before it |
| DrawIndex.AsWrittenPairCancels | src/message_processor.rs:161-213 | "ẞȺнарисуй cat": neither capital lowers in place, but one loses a byte and the other gains one, so the cut as written is right and gives " cat" |
| DrawIndex.PairFound | src/message_processor.rs:161 | in "ẞȺнарисуй cat" the lowered text holds the command at code point 2 |
| DrawIndex.FoundAtSameIndex | src/message_processor.rs:161 | without a capital dotted I before the command, `to_lowercase` finds the command at the same code point as the code-point-wise lowering, and agrees with it before the command |
| DrawIndex.LoweredHeadsAgree | src/message_processor.rs:161 | `to_lowercase` and the code-point-wise lowering agree up to the end of the command where no capital dotted I comes before it |
| DrawIndex.CutsAgreeAt | src/message_processor.rs:161-213 | where both lowerings put the command at the same code point and the byte offset after it is right, the two cuts give the same prompt |
| DrawIndex.AsWrittenShiftsPrompt | src/message_processor.rs:213 | "İнарисуй cat": the cut as written gives "cat", the intended cut " cat" |
| DrawIndex.AsWrittenPanics | src/message_processor.rs:213 | "İİнарисуй кот": the cut as written falls inside 'к' and panics, the intended cut gives " кот" |
| DrawIndex.AsWrittenCutsIntoCommand | src/message_processor.rs:213 | "Kнарисуй cat" with the Kelvin sign for K: the cut as written gives "й cat", the intended cut " cat" |

## Findings

| source | as written | input that shows it | evidently intended | confidence | as-written member | corrected member |
|---|---|---|---|---|---|---|
| src/message_processor.rs:213 | The draw command is found in `text.to_lowercase()`, which gives a byte offset into the lowered text. `process_image_request` slices the original text at that offset plus 14. Without a capital dotted I before the command, the offset is right exactly when the text before the command keeps its UTF-8 byte length under lowering. Every character lowering to one character of the same length is enough for that, but not needed. 'İ' (U+0130) is 2 bytes but lowers to "i̇" (3 bytes). The Kelvin sign (3 bytes) lowers to 'k' (1 byte). The Angstrom sign, the Ohm sign and the capital sharp s lose a byte, and the capitals A and T with stroke gain one. A text before the command whose gains and losses do not cancel moves the cut; in "ẞȺнарисуй cat" they cancel and the cut is right. The same cut is at src/main.rs:123-124. | "İнарисуй cat" yields the prompt "cat" instead of " cat". "Kнарисуй cat" with the Kelvin sign yields "й cat", the command's last letter included. In "İİнарисуй кот" the offset 20 falls inside 'к', and the slice panics. | Cut the text right after the same characters that hold the command in the lowered text. | not executed | DrawIndex.DrawPromptAsWritten (shown by DrawIndex.AsWrittenShiftsPrompt, DrawIndex.AsWrittenCutsIntoCommand and DrawIndex.AsWrittenPanics) | MessageProcessor.DrawPrompt (when the cut as written agrees with it: DrawIndex.AsWrittenRightExactlyWhenBytesKept, DrawIndex.AsWrittenAgreesBeforeCommand, DrawIndex.AsWrittenPairCancels) |

## Left out

- The heartbeat `wait_loop`, started beside each message by `process_message`, sends "Погоди, надо еще подумать" and the timeout text. It depends on concurrency and timers. The test `test_process_message_with_delay` rests on it.
- HTTP transport is not modelled: the bodies of `send_message` after the request is built, `send_image` and `get_file_url`. The collaborators answer from a `Script`.
- gpt_client.rs and event_handler.rs are not part of this model. The completion clients are only the calls recorded in the trace.
- Request decoding by serde and lambda_http is not modelled. The `Event` carries the decoded payload, or the decoding error, and the body text.
- Random draws are inputs (`percent`, `pick`). The mapping from the tests' `StepRng` to `pick` is not derived: `UrlExample` takes the percent draw below 30 and the second answer as given.
- LegacyBot.DummyPhrase: the `gen_range(0..6)` bound on the second draw is not imposed. Every draw from 4 on gives the last phrase, which covers the two draws the range allows.
- Text.Lower: `to_lowercase` is modelled as a code-point-wise map of the ASCII and Cyrillic capitals and of six capitals whose lower-case form changes UTF-8 length (U+212A, U+212B, U+2126, U+1E9E, U+023A, U+023E). `DrawIndex.LowerStr` adds the one multi-character case it needs, the capital dotted I. The rest of Unicode case mapping is not modelled.
- DrawIndex.AsWrittenAgreesBeforeCommand: Rust lowers further characters to a form of another UTF-8 length, for example U+2C62 and U+A7AD, which the model leaves unchanged. The lemma's hypothesis is stated per character ("lowers in place"), so it names the condition the source needs. Only the list in `DrawIndex.NotInPlace` is limited to the modelled lowering.
- Text.Format: `dyn_fmt` is modelled for one argument. The first `{}` is replaced and later `{}`s are kept. `{{` and `}}` are treated as plain characters, so an inner `{}` is still filled: "{{}}" formats to "{x}" with the argument "x".
- The name map is a `HashMap`, whose iteration order Rust leaves unspecified. The model applies the replacements in the order of a sequence.
- Message dates and the clock are whole seconds. Sub-second precision and time zones are not modelled.
- Integer widths (`i64` ids, `i32` message ids, `usize` sizes) are unbounded integers. No value in these paths comes near an overflow.
- The `Message` struct in src/tg_client.rs has no `caption` or `photo` field, although src/message_processor.rs reads both. The model gives `Message` these fields, as message_processor.rs uses them.
- Logging, tracing spans and the error classification in `function_handler` are not modelled. They do not change the response.
