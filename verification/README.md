# A verified model of the model proxy

The proxy sits between coding harnesses and model vendors. It turns one
vendor's event stream into Chat Completions chunks, turns chat requests into
Anthropic ones, relays event streams while reading usage out of them, retries
upstream posts, refreshes shared OAuth credentials, decides which model goes
where, and checks callers' keys. This project models those parts and proves
what they promise, for all inputs and all runs.

| file | what it models |
|---|---|
| `Chat.dfy` | chunks, messages, and a client that reassembles chunks by tool-call index |
| `AnthropicReply.dfy`, `AnthropicStream.dfy` | the whole-reply translation and the streaming generator |
| `AnthropicStreamLaws.dfy`, `AnthropicFinish.dfy` | failure, usage high-water mark, earned terminator; which finish reason, counts and error names a turn gets |
| `AnthropicReassembly.dfy`, `AnthropicRefinement.dfy`, `AnthropicWire.dfy`, `AnthropicMerge.dfy` | what a client reads, agreement of the two translations, and that any splitting and interleaving of a reply's blocks delivers it |
| `ResponsesReply.dfy`, `ResponsesStream.dfy`, `ResponsesLaws.dfy`, `ResponsesFinish.dfy`, `ResponsesRefinement.dfy` | the same for the Responses API |
| `ResponsesWire.dfy`, `ResponsesMerge.dfy`, `ResponsesPhantoms.dfy` | that any splitting and interleaving of a reply's items delivers it, and when argument text goes to a call nobody announced |
| `AnthropicRequest.dfy`, `AnthropicContent.dfy`, `AnthropicRequestLaws.dfy`, `AnthropicStreamReplay.dfy` | the request translation, what each part of a message becomes, and the replay of a whole and of a streamed reply |
| `SseFraming.dfy`, `SseUsage.dfy` | the byte relay that cuts events at blank lines, and the usage it reads |
| `OAuthRefresh.dfy`, `OAuthTokens.dfy` | concurrent refreshing of one credential, as a transition system, and which token is served |
| `UpstreamRetry.dfy`, `WebSocketRelay.dfy`, `WebSocketShown.dfy` | the two retry loops, and what each upstream answer leads to |
| `Routing.dfy`, `RoutingNames.dfy` | URI resolution and the model listing, told in the words of the rows |
| `ProviderBackfill.dfy` | the migration that groups models into providers |
| `KeyCache.dfy` | the admin actions and the index of live keys |
| `Json.dfy`, `Text.dfy`, `Merges.dfy`, `Wrappers.dfy` | JSON values, string operations, interleavings of lists, options and results |

Generators and loops are methods; each is proved equal to a fold over its
input, and the promises are proved of that fold. Environment inputs are
parameters: parsing and printing of JSON is a `Codec`, asked only to keep the
tool inputs that are printed (parsing their text gives them back); the overflow
detector, the key hash and the minting of call ids are arbitrary functions,
upstream answers and database faults are arbitrary sequences, the clock is
explicit. What the refinement asks of a codec and a stream can be met for every
reply without the overflow stop (`AnthropicWire.SomeStreamDelivers`).

## Where the code and its descriptions part

The code is modelled as it is. In these places it does less than its comments,
documentation or an expected law say; each has a lemma giving the exact
condition.

- The Responses translator ends with `[DONE]` unless a failure event arrived,
  whether or not the turn was ever completed
  (`ResponsesLaws.TerminatorIsUnconditional`,
  `ResponsesLaws.CutArgumentsLookComplete`). The Anthropic one earns it.
- The streamed and whole translations of one Anthropic reply name different
  finish reasons exactly when a tool call is present and the stated stop reason
  maps to `stop` (`AnthropicRefinement.StreamRefinesWholeReply`). An empty tool
  input is `{}` in the whole reply and may be no text in the stream; the two
  agree as JSON exactly where any text was sent.
- The stream carries thinking text but not the signed thinking blocks, so a
  streamed reply can be handed back as it was exactly when it held none
  (`AnthropicStreamReplay.StreamedReplay`).
- For Responses, an item without arguments is `{}` in the whole reply and
  empty in the stream, and an `incomplete` event that states no status finishes
  as `length` where the whole reply finishes as completed
  (`ResponsesRefinement.StreamRefinesWholeReply`).
- A Responses argument delta can open a call without id or name: exactly when
  no item was added under its key before it, as for an item that has a call id
  but no id (`ResponsesPhantoms.PhantomIffUnmatchedDelta`,
  `ResponsesPhantoms.ItemWithoutIdOpensPhantom`).
- The byte relay promises to pass bytes through unchanged. A `data:` line that
  is valid JSON but not an object (or has a non-object where it looks for
  usage) makes the reader raise, which ends the relay. Every chunking passes
  the whole stream exactly when no event with such a line is complete before
  the last byte
  (`SseFraming.FramingIndependence`, `SseFraming.BareNumberCutsShort`).
- A refresh presents the newest refresh token exactly when the last answer that
  replaced it was written to the file. A failed write breaks the chain, and so
  does every such answer in the Anthropic flow, which does not read the new
  refresh token that section 6 of RFC 6749 lets the server return
  (`OAuthRefresh.RefreshTokenChain`, `OAuthRefresh.FailedWriteBreaksChain`).
- A tool call replayed to Anthropic keeps its input exactly when that input is
  an object (`AnthropicRequestLaws.ReplayRoundTrip`,
  `AnthropicRequestLaws.TextInputIsLost`).
- The WebSocket relay logs that it forwards the error after the last retry; it
  forwards what was held back before the error, and not the error payload
  (`WebSocketRelay.OneAttemptIsShown`, `WebSocketRelay.LastErrorIsNotForwarded`).
- The migration keeps the URL a model's requests are posted to exactly when its
  URI has a scheme, one leading slash on its path and the path its provider
  stores, and what follows the path is kept: a model without an API version of
  its own is lent that of its group's first (`ProviderBackfill.RouteIsKept`,
  `ProviderBackfill.DoubledSlashExample`, `ProviderBackfill.LentVersionMoves`).
- An admin action whose commit succeeds and whose refresh fails can leave the
  key index wrong until the next refresh: it is right exactly when the live keys
  are still those the last refresh read (`KeyCache.CoherentIffSameLive`,
  `KeyCache.FailedRefreshKeepsKeyAlive`).

## Model

| member | source | states |
|---|---|---|
| `Chat.OverflowIsInItsMessage` | app/proxy/overflow.py:94-110 | an overflow error carries its code in its message too, for clients that keep only the message |
| `Chat.OverflowIsTyped` | app/proxy/overflow.py:94-110 | an overflow error has its type and its code, and its message ends in the upstream's own |
| `JsonValues.DigitsCount` | app/proxy/chat_to_anthropic.py:466-481 | a count sent as digits is the number they spell |
| `JsonValues.FractionsAreCut` | app/proxy/chat_to_anthropic.py:466-481 | a fractional count is cut towards zero |
| `JsonValues.OnlyNumbersCount` | app/proxy/chat_to_anthropic.py:466-481 | no boolean, null, object, list or other text is a count |
| `ProviderBackfill.CandidatesDiffer` | migrations/versions/0004_providers.py:64-66 | the names tried for one base are all different, which is why the search ends |
| `AnthropicReply.UsageIsRecoverable` | app/proxy/chat_to_anthropic.py:484-532 | usage is absent iff no prompt field is known or they sum to zero; otherwise fresh input, output and both cached parts can be subtracted back out of the totals |
| `AnthropicReply.TransformReply` | app/proxy/chat_to_anthropic.py:535-592 | the block loop computes the completion the refinement and the replay laws are about |
| `AnthropicFinish.WholeFinishMeans` | app/proxy/chat_to_anthropic.py:576-579 | the finish reason of a whole reply is `length` iff it stopped by `max_tokens`, `content_filter` iff by `refusal`, `tool_calls` iff by `tool_use` or it states no stop and holds a tool call, and otherwise `stop` |
| `AnthropicFinish.WholeUsageMeans` | app/proxy/chat_to_anthropic.py:459-532 | the usage is made of the four counts under their Anthropic names |
| `AnthropicFinish.ThinkingIsRead` | app/proxy/chat_to_anthropic.py:550-552 | a thinking block adds the thinking it states and a redacted one none |
| `AnthropicStream.RecordUsage` | app/proxy/chat_to_anthropic.py:615-647 | one report raises each captured field to at least its valid count and publishes the captured fields over whatever the metering row held |
| `AnthropicStream.AbsorbAt` | app/proxy/chat_to_anthropic.py:633-645 | field by field, the captured count becomes the greater of the old one and the reported one |
| `AnthropicStream.Advance` | app/proxy/chat_to_anthropic.py:690-778 | one pass of the loop takes the state to the next one and publishes the captured counts over the metering row |
| `AnthropicStream.StreamCompletions` | app/proxy/chat_to_anthropic.py:595-860 | the generator yields the chunks, leaves the metering row and names the outcome that the fold over its events determines, for an exhausted or aborted run |
| `AnthropicFinish.StreamFinishMeans` | app/proxy/chat_to_anthropic.py:746-859 | the finish reason of a stream is `length` iff the last stop reason is `max_tokens`, `content_filter` iff it is `refusal`, `tool_calls` iff it is `tool_use` or a tool was opened and it is neither, and otherwise `stop` |
| `AnthropicFinish.LastStopIsLast` | app/proxy/chat_to_anthropic.py:746-757 | that stop reason is the non-empty one of the last event that states one |
| `AnthropicFinish.StreamUsageMeans` | app/proxy/chat_to_anthropic.py:484-532 | the prompt on the finish chunk is the sum of the greatest `input_tokens`, `cache_read_input_tokens` and `cache_creation_input_tokens` reported, the completion the greatest `output_tokens`, and there is none iff the prompt is zero |
| `AnthropicFinish.TruncationIsNamed` | app/proxy/chat_to_anthropic.py:840-847 | a stream that stops before its turn ends says so in the error and the metering row |
| `AnthropicFinish.UpstreamErrorIsNamed` | app/proxy/chat_to_anthropic.py:829-833 | an upstream error is metered by its code, else its type, else a name of its own |
| `AnthropicFinish.WordlessErrorIsNamed` | app/proxy/chat_to_anthropic.py:767-778 | an error event without an error is given words and a name |
| `AnthropicFinish.AbortIsNamedOnce` | app/proxy/chat_to_anthropic.py:779-791 | a run cut off gets the name of an abort unless it had one |
| `AnthropicFinish.ContextWindowIsAnOverflow` | app/proxy/chat_to_anthropic.py:749-754 | a turn that runs into the context window is an overflow naming the model and the stop reason |
| `AnthropicStream.FailedStays` | app/proxy/chat_to_anthropic.py:749-778 | nothing after a failure changes the state |
| `AnthropicStreamLaws.FailureIsSeen` | app/proxy/chat_to_anthropic.py:746-778 | a run fails iff it holds an error event or the overflow stop, and depends on nothing after the first |
| `AnthropicStreamLaws.FirstFailureIsReported` | app/proxy/chat_to_anthropic.py:749-838 | the last chunk is the first failure's error: an overflow by code, in the message and in the metering row, any other in the upstream's own words |
| `AnthropicStreamLaws.CapturedIsMaximum` | app/proxy/chat_to_anthropic.py:615-647 | after any healthy events each captured field is the greatest valid count reported for it |
| `AnthropicStreamLaws.HighWaterMark` | app/proxy/chat_to_anthropic.py:615-647 | over every run, aborted ones included, both the captured field and the metering row hold the greatest count heard; a field never reported keeps the row's earlier value |
| `AnthropicStreamLaws.CountsNeverDecrease` | app/proxy/chat_to_anthropic.py:637-645 | from any prefix to any longer run a known count is kept and does not shrink |
| `AnthropicStreamLaws.OrderDoesNotMatter` | app/proxy/chat_to_anthropic.py:615-647 | two runs with the same events in any order capture the same counts |
| `AnthropicStreamLaws.EndedIsEarned` | app/proxy/chat_to_anthropic.py:665-673 | the turn counts as ended iff some stop reason or `message_stop` was seen |
| `AnthropicStreamLaws.EarnedTerminator` | app/proxy/chat_to_anthropic.py:664-860 | a run to the end of its events ends with a finish chunk and `[DONE]` iff the turn was ended and nothing failed; otherwise with at most one usage chunk and then one error; the outcome names an error iff the run did not succeed |
| `AnthropicStreamLaws.FinishOnlyWithDone` | app/proxy/chat_to_anthropic.py:849-860 | a finish reason or `[DONE]` appears in no run that did not end well |
| `AnthropicStreamLaws.AbortIsNamed` | app/proxy/chat_to_anthropic.py:779-791 | an aborted run names an error and yields neither a finish reason nor `[DONE]` |
| `AnthropicReassembly.Reassembles` | app/proxy/chat_to_anthropic.py:661-744 | for every stream without a failure, a client reassembling by index reads exactly the streamed text, reasoning and tool calls |
| `AnthropicReassembly.IndexesAreOwners` | app/proxy/chat_to_anthropic.py:697-701 | the index map sends each block key to the call it opened last |
| `AnthropicReassembly.ToolsAreNumbered` | app/proxy/chat_to_anthropic.py:661-744 | in every run tool indices first appear as 0, 1, 2, ... and no argument chunk precedes its announcement |
| `AnthropicReassembly.DeltaGoesToItsOwner` | app/proxy/chat_to_anthropic.py:729-744 | an argument delta goes to the call its block opened last, or nowhere iff the block opened none |
| `AnthropicRefinement.InputIsItsOwn` | app/proxy/chat_to_anthropic.py:729-744 | each call collects the text of its own block and no other |
| `AnthropicRefinement.UsageAgrees` | app/proxy/chat_to_anthropic.py:501-858 | the finish chunk's usage equals the usage of the whole reply |
| `AnthropicRefinement.StreamRefinesWholeReply` | app/proxy/chat_to_anthropic.py:535-860 | for every stream that delivers a reply, in any splitting and interleaving, under a codec that keeps its inputs, the client reads the text, reasoning, calls and usage of the whole-reply translation; arguments agree as JSON iff any text was sent for them, finish reasons iff not `FinishesDiffer` |
| `AnthropicWire.StreamDelivers` | app/proxy/chat_to_anthropic.py:692-765 | the stream of any reply, its blocks opened in order and cut into any pieces, satisfies what the refinement asks of a stream |
| `AnthropicMerge.InterleavingDelivers` | app/proxy/chat_to_anthropic.py:692-765 | so does every interleaving of the blocks' events that keeps texts, thoughts and openings in the order of the blocks |
| `AnthropicStreamReplay.StreamedReplay` | app/proxy/chat_to_anthropic.py:367-744 | a streamed reply handed back by its reader comes back in normal form iff it held no thinking block, since the chunks carry no signed blocks |
| `ResponsesReply.TransformReply` | app/proxy/chat_completions.py:295-348 | the item loop computes the completion the refinement is about |
| `ResponsesFinish.WholeFinishMeans` | app/proxy/chat_completions.py:258-330 | the finish reason of a whole reply is `length` iff its status is `incomplete`, and otherwise `tool_calls` iff it holds a call and `stop` iff not |
| `ResponsesFinish.WholeUsageMeans` | app/proxy/chat_completions.py:262-292 | the usage is made of the counts under their names in the Responses API |
| `ResponsesFinish.WholeTextMeans` | app/proxy/chat_completions.py:317-321 | the text is the stated output text, or else that of the messages |
| `ResponsesFinish.WholeCallsMean` | app/proxy/chat_completions.py:305-315 | each call is named by its call id, else by its item id, and has `{}` for no arguments |
| `ResponsesStream.StreamCompletions` | app/proxy/chat_completions.py:351-528 | the generator yields the chunks and leaves the metering row that the fold over its events determines |
| `ResponsesFinish.StreamFinishMeans` | app/proxy/chat_completions.py:478-505 | the finish reason of an end event is `length` iff the stated status is `incomplete`, or none is stated and the event is incomplete; otherwise `tool_calls` iff a call was numbered and `stop` iff none was |
| `ResponsesFinish.StreamUsageMeans` | app/proxy/chat_completions.py:499-505 | the finish chunk carries the usage of its own event |
| `ResponsesFinish.MeteringShowsTheLast` | app/proxy/chat_completions.py:482-483 | the metering row shows under each key the last value an end event reported, and keeps its own where none did |
| `ResponsesFinish.AddedCallMeans` | app/proxy/chat_completions.py:396-431 | an added item opens the call of the next number, named by call id or item id |
| `ResponsesFinish.DeltaFindsItsItem` | app/proxy/chat_completions.py:402-440 | a delta that shares the item's id, or its position where neither has one, goes to that call |
| `ResponsesFinish.ErrorIsRelayed` | app/proxy/chat_completions.py:507-526 | an error that is no overflow keeps its code, type and words, and is given a type and words where it has none |
| `ResponsesLaws.TerminatorIsUnconditional` | app/proxy/chat_completions.py:507-528 | `[DONE]` is the last chunk iff no failure event came before the end marker, completed turn or not; otherwise the error is last |
| `ResponsesLaws.CutTurnStillTerminates` | app/proxy/chat_completions.py:377-528 | a turn cut off before it is over ends in `[DONE]`, with no finish reason and no error |
| `ResponsesLaws.CutArgumentsLookComplete` | app/proxy/chat_completions.py:396-528 | a call whose arguments break off is followed by `[DONE]` |
| `ResponsesLaws.FirstFailureIsReported` | app/proxy/chat_completions.py:507-526 | the first failure's error is the last chunk, an overflow by its code and any other in its own words, and nothing after it is read |
| `ResponsesLaws.ToolsAreNumbered` | app/proxy/chat_completions.py:372-463 | tool indices first appear as 0, 1, 2, ...; a delta goes to the index last given to its key, or to the next new one |
| `ResponsesRefinement.Reassembles` | app/proxy/chat_completions.py:372-476 | for every orderly stream a client reads exactly the streamed text and calls |
| `ResponsesRefinement.StreamRefinesWholeReply` | app/proxy/chat_completions.py:295-528 | for every stream that delivers a reply the client reads its text, calls and usage; arguments agree iff not empty, finish reasons iff not `StatusUnstated` |
| `ResponsesWire.StreamDelivers` | app/proxy/chat_completions.py:396-476 | the stream of any reply whose calls have different ids, its items in order and cut into any pieces, satisfies what the refinement asks of a stream |
| `ResponsesMerge.InterleavingDelivers` | app/proxy/chat_completions.py:396-476 | so does every interleaving of the items' events that keeps texts and openings in the order of the items |
| `ResponsesPhantoms.PhantomIffUnmatchedDelta` | app/proxy/chat_completions.py:396-463 | argument text goes to a call nobody announced iff some delta comes under a key that no item was added under before it |
| `ResponsesPhantoms.ItemWithoutIdOpensPhantom` | app/proxy/chat_completions.py:402-440 | an item with a call id but no id, and deltas without an item id, open such a call |
| `AnthropicRequest.TranslateMessages` | app/proxy/chat_to_anthropic.py:340-385 | the message loop computes the draft the laws below are about, or the refusal |
| `AnthropicContent.UserTextsStayInOrder` | app/proxy/chat_to_anthropic.py:160-196 | a user message of text parts becomes one user turn with one text block a part, in their order |
| `AnthropicContent.UserTextsAreContributed` | app/proxy/chat_to_anthropic.py:383-385 | and adds exactly those blocks wherever in the list it stands |
| `AnthropicContent.AssistantTextsStayInOrder` | app/proxy/chat_to_anthropic.py:367-381 | so does an assistant message on an assistant turn |
| `AnthropicContent.SystemTextsStayInOrder` | app/proxy/chat_to_anthropic.py:348-352 | the texts of a system or developer message are joined in their order |
| `AnthropicContent.ResultTextsStayInOrder` | app/proxy/chat_to_anthropic.py:249-254 | so are those of a tool result, which answers the call its message names |
| `AnthropicContent.ResultFallsBackToItsId` | app/proxy/chat_to_anthropic.py:249-254 | a result that names no call answers the one it is itself named after |
| `AnthropicContent.PartsAppend` | app/proxy/chat_to_anthropic.py:175-196 | a list of parts in two is refused iff either half is, with the first refusal, and otherwise gives the blocks of one and then of the other |
| `AnthropicContent.PartsTextAppend` | app/proxy/chat_to_anthropic.py:107-114 | the text of a list of parts in two is that of one and then of the other |
| `AnthropicContent.PlainTextIsOneBlock` | app/proxy/chat_to_anthropic.py:171-172 | a plain text becomes one block, on an assistant turn for the assistant only |
| `AnthropicContent.OtherContentIsDumped` | app/proxy/chat_to_anthropic.py:115-124 | content of any other kind is sent as its JSON text |
| `AnthropicContent.UnknownPartKeepsItsText` | app/proxy/chat_to_anthropic.py:187-195 | a part of an unknown type keeps its text, and without any is refused by its type |
| `AnthropicContent.EmptyPartsAreSkipped` | app/proxy/chat_to_anthropic.py:176-182 | empty texts and parts that are neither text nor object are passed over |
| `AnthropicContent.InlineImageKeepsItsData` | app/proxy/chat_to_anthropic.py:149-156 | an inline image goes with its data and media type |
| `AnthropicContent.RemoteImageKeepsItsUrl` | app/proxy/chat_to_anthropic.py:144-157 | an image at a URL goes as that URL |
| `AnthropicContent.SourcedImageIsPassedOn` | app/proxy/chat_to_anthropic.py:141-143 | an image with a typed source goes as that source |
| `AnthropicContent.UnreadableImageIsRefused` | app/proxy/chat_to_anthropic.py:147-153 | an image without a URL, or inline without data, is refused |
| `AnthropicContent.ArgumentsBecomeAnObject` | app/proxy/chat_to_anthropic.py:217-225 | a call's argument text becomes the object it spells; anything else it spells, or text that does not parse, is kept in one |
| `AnthropicContent.StructuredArguments` | app/proxy/chat_to_anthropic.py:214-225 | arguments that come as an object are the input, and a list is kept in one |
| `AnthropicContent.FunctionNamesTheCall` | app/proxy/chat_to_anthropic.py:211-234 | a call is named by its function and only for want of that by itself |
| `AnthropicContent.FlatCallIsRead` | app/proxy/chat_to_anthropic.py:211-234 | a call without a function is read off itself, with a minted id where it has none |
| `AnthropicContent.OnlyThinkingIsKept` | app/proxy/chat_to_anthropic.py:237-246 | of the reasoning handed back the thinking blocks are kept, redacted ones too, and nothing else |
| `AnthropicRequest.FitThinking` | app/proxy/chat_to_anthropic.py:387-420 | a budget that is sent is the largest that is at least 1024, at most the effort's entry and 4096 below `max_tokens`; a caller's ceiling is never changed; thinking is dropped iff no such budget exists |
| `AnthropicContent.FittingNumbers` | app/proxy/chat_to_anthropic.py:387-420 | the numbers: 8192 tokens by default, 1024 to think with and 4096 beneath the ceiling to reply with |
| `AnthropicContent.EffortMeansItsEntry` | app/proxy/chat_to_anthropic.py:54-61 | an effort has its table entry, whatever its case and the space around it, and another word none |
| `AnthropicContent.FlatEffortFirst` | app/proxy/chat_to_anthropic.py:400-404 | the flat effort decides where it names a budget, and otherwise the nested one |
| `AnthropicContent.CeilingMeans` | app/proxy/chat_to_anthropic.py:387-389 | the ceiling is `max_tokens`, or else `max_completion_tokens`, and zero is none |
| `AnthropicRequest.TransformRequest` | app/proxy/chat_to_anthropic.py:336-451 | the body holds the translated turns, the joined system text, the fitted ceiling and budget; sampling parameters are dropped iff thinking is sent |
| `AnthropicRequestLaws.MergePreservesContent` | app/proxy/chat_to_anthropic.py:340-385 | flattened to role and block, the turns are the concatenation of what each message contributes, in order; the request is refused iff some message is, with the first one's refusal |
| `AnthropicRequestLaws.SystemTextIsJoined` | app/proxy/chat_to_anthropic.py:348-352 | the system text is the newline join of the non-empty system texts |
| `AnthropicRequestLaws.TurnsAreSound` | app/proxy/chat_to_anthropic.py:354-385 | no turn is empty, a user turn is all tool results or has none, and no two tool-result turns are adjacent |
| `AnthropicRequestLaws.ReplayRoundTrip` | app/proxy/chat_to_anthropic.py:199-575 | a reply translated to a chat message and back is its thinking blocks verbatim, the joined text and the tool calls, iff every tool input is an object |
| `AnthropicRequestLaws.NormalFormIsFixed` | app/proxy/chat_to_anthropic.py:199-575 | that normal form is a fixed point of the round trip |
| `AnthropicRequestLaws.TextInputIsLost` | app/proxy/chat_to_anthropic.py:199-234 | a reply whose tool input is a string does not come back |
| `SseFraming.FramesLoseNothing` | app/proxy/anthropic.py:400-409 | framing drops only the blank lines, cuts at each of them and leaves none inside an event or the rest |
| `SseFraming.FramesResume` | app/proxy/anthropic.py:407-409 | framing can pause at any byte, carrying over only the unfinished bytes |
| `SseFraming.SniffResumes` | app/proxy/anthropic.py:400-433 | reading usage from a stream cut anywhere is reading it from the whole |
| `SseFraming.PassthroughStream` | app/proxy/anthropic.py:390-433 | for every chunking the usage holder is the fold over the complete events of the whole stream, and the chunks passed on are those that came before reading raised |
| `SseUsage.HolderShowsLastReported` | app/proxy/anthropic.py:415-433 | after a stream that does not raise each of the four fields shows the last value a complete event reported for it, any of them at the start of the message and only the output later; every other key, and a field nobody reported, is as it was |
| `SseUsage.LinesRejoin` | app/proxy/anthropic.py:409-409 | an event's lines are what stands between its newlines |
| `SseUsage.StripSplits` | app/proxy/anthropic.py:412-412 | stripping takes the space off both ends and nothing else |
| `SseUsage.BlankLineEndsAnEvent` | app/proxy/anthropic.py:407-408 | two newlines end an event and one does not |
| `SseFraming.Drain` | app/proxy/anthropic.py:407-433 | the inner loop ends, reads every complete event once and leaves the unfinished bytes |
| `SseFraming.FramingIndependence` | app/proxy/anthropic.py:390-433 | every chunking passes on the whole stream iff no event complete before its last byte has a `data:` line, neither empty nor `[DONE]`, that the reader raises on |
| `SseFraming.EventsRaise` | app/proxy/anthropic.py:409-433 | reading a list of events raises iff one of them has such a line |
| `SseFraming.BareNumberCutsShort` | app/proxy/anthropic.py:415-420 | a `data:` line holding a bare number makes some chunking lose the byte after its event |
| `OAuthRefresh.AtMostOneRefreshes` | app/credentials.py:276-338 | in every interleaving of any number of requests at most one is inside the refresh section |
| `OAuthRefresh.CallOnlyWhenStale` | app/credentials.py:276-331 | a refresh call is made only when the re-read row and the token on file are both stale |
| `OAuthRefresh.NoCallWhileCommittedTokenIsFresh` | app/credentials.py:276-338 | after a commit no refresh call is made while the committed token is fresh |
| `OAuthTokens.RowIsOfLastCommit` | app/credentials.py:291-338 | in every run the row holds one token the last committing request had just obtained, from one answer or file reading, with that token's own expiry, or is the row the run began with |
| `OAuthTokens.ServedIsRight` | app/credentials.py:270-338 | every token served is the good one of the row the request found, the file's API key, the good one of the row it read again, which is that of the last commit, or the one it has just obtained and committed |
| `OAuthTokens.ArrivalIsServedTheRow` | app/credentials.py:270-313 | a request that arrives with the row as it once was, still good, is served the token of the last commit before that |
| `OAuthTokens.ArrivalGoesOn` | app/credentials.py:270-319 | what a request does on arrival, by the row it found and the file |
| `OAuthTokens.RecheckGoesOn` | app/credentials.py:277-331 | what a request does under the lock, by the row it reads again and the file |
| `OAuthTokens.AnswerIsWritten` | app/credentials.py:157-175 | an answer is written to a Codex file whole, and to no other |
| `OAuthRefresh.NoCallWhileReceivedTokenIsFresh` | app/credentials.py:157-333 | after a refresh whose token reached the file none is made while that token is fresh, commit or not: the next waiter adopts it |
| `OAuthRefresh.RefreshTokenChain` | app/credentials.py:157-338 | with no outside writer every call presents the newest refresh token received iff the last answer that replaced the token was written to the file, and one already replaced otherwise |
| `OAuthRefresh.LostIffLastUnwritten` | app/credentials.py:157-338 | the newest token is missing from the file iff the last answer that replaced it was unwritten: a failed write, or any answer in the Anthropic flow |
| `OAuthRefresh.NothingLostWithoutCause` | app/credentials.py:157-333 | in the Codex flow nothing is lost while every write to the file succeeds |
| `OAuthRefresh.FailedWriteBreaksChain` | app/credentials.py:157-333 | a run in which a failed write makes the next request present the replaced token |
| `UpstreamRetry.PostWithRetries` | app/azure.py:59-119 | at most five posts, all but the last transient; what is returned or raised is not retryable or is the fifth; the waiting and the stored reading are functions of the outcomes |
| `UpstreamRetry.AnswerEndsTheCall` | app/azure.py:55-119 | only a failure to connect and the six statuses are tried again; any other answer or failure ends the call |
| `UpstreamRetry.WaitingIsByOutcome` | app/azure.py:47-111 | the pauses are 1, 2, 4 and 8 seconds, and after a 429 or 529 three times that |
| `UpstreamRetry.BackoffIsBounded` | app/azure.py:47-52 | the backoff of a whole call is at most 45 seconds |
| `UpstreamRetry.LastReportIsStored` | app/azure.py:98-102 | the host's stored reading is that of the last response that reported any window, retried ones included |
| `UpstreamRetry.SilenceIsNotNews` | app/provider_limits.py:138-152 | a call without a report leaves the host's reading as it was, and no call touches another host's |
| `UpstreamRetry.LimitStore.Record` | app/provider_limits.py:138-152 | every other host keeps its reading; this host's reading becomes the response's when it reports a window and otherwise stays |
| `WebSocketRelay.RelayStream` | app/proxy/websocket.py:178-261 | one stream sends all it read or nothing, released by the first telling payload or by an overflow |
| `WebSocketRelay.RunAttempt` | app/proxy/websocket.py:116-286 | one attempt's sends and what follows it, for every kind of upstream answer |
| `WebSocketRelay.RelayResponses` | app/proxy/websocket.py:113-297 | the attempt loop's whole log is the session the laws below are about |
| `WebSocketShown.UnreachableEnds` | app/proxy/websocket.py:126-130 | an upstream that cannot be reached ends the session |
| `WebSocketShown.RefusedOverflowEnds` | app/proxy/websocket.py:140-150 | a refusal that reports an overflow is passed on as one and ends the session |
| `WebSocketShown.UndecodableIsStripped` | app/proxy/websocket.py:151-164 | reasoning that cannot be decrypted is taken out once, and the next attempt follows at once |
| `WebSocketShown.RefusalIsRetried` | app/proxy/websocket.py:165-176 | any other refusal is tried again after its pause, and the fifth is reported by its status |
| `WebSocketShown.GoodStreamIsPassedOn` | app/proxy/websocket.py:232-261 | a stream without an error is passed on whole if some payload opens output or completes the response, and otherwise not at all |
| `WebSocketShown.OverflowIsPassedOn` | app/proxy/websocket.py:197-216 | a stream that overflows is passed on as far as it went, and then the overflow |
| `WebSocketShown.ErrorEndsOrIsRetried` | app/proxy/websocket.py:218-286 | an error after something was said ends the session with what came before it; one before is tried again after its pause, but for the fifth |
| `WebSocketRelay.NoPostAfterSend` | app/proxy/websocket.py:113-286 | in every run nothing is posted after anything was sent |
| `WebSocketRelay.OneAttemptIsShown` | app/proxy/websocket.py:113-286 | the attempts are consecutive, all before the last met a reply that is retried, and what is sent is exactly the last one's: everything read before it stopped, in order, iff something was released or it was the fifth and failed, else nothing; then at most an overflow event or a status |
| `WebSocketRelay.LastErrorIsNotForwarded` | app/proxy/websocket.py:263-280 | when all five attempts fail unseen the client gets exactly what the fifth held back; the error payload is sent only if an earlier payload had the same text |
| `WebSocketRelay.SessionSleepsBriefly` | app/proxy/websocket.py:165-273 | a whole run waits at most 45 seconds |
| `Routing.DisabledProviderTakesItsModels` | app/deployments.py:299-314 | a model of a disabled provider resolves on no wire and is listed for no harness, whatever URI it stores |
| `Routing.OneSlashJoins` | app/deployments.py:336-336 | any number of slashes around the join of base and path give the same URI |
| `Routing.ResolveDeployment` | app/deployments.py:339-408 | the request path computes the resolution, with its refusals in order |
| `RoutingNames.VisibleMeans` | app/orm.py:288-298 | a row is visible to the harnesses its comma-separated list names, in any case and with any space, and to all where it names none |
| `RoutingNames.JudgedByWire` | app/deployments.py:171-228 | a request that declares nothing is judged as Claude's on Messages and as Codex's on Responses and chat |
| `RoutingNames.JudgedByName` | app/deployments.py:208-228 | one that declares itself is judged by its name on the wire it speaks |
| `RoutingNames.FoundIffNamed` | app/deployments.py:377-387 | a request without a declaration finds a row iff it may by admin and by the harnesses the row names |
| `RoutingNames.RefusalMeans` | app/deployments.py:362-408 | a request is refused for no name, no URI on its wire or no credential, in that order |
| `RoutingNames.AbsentIsNotRegistered` | app/deployments.py:377-381 | a name without an enabled row, or with one for admins only, is reported as not registered |
| `RoutingNames.OwnPathIsUsed` | app/deployments.py:316-336 | each wire goes to its own path after the provider's base |
| `RoutingNames.NoPathNoUri` | app/deployments.py:316-327 | without a path of its own a wire has no URI, but for chat with a stand-in |
| `Routing.WiresFor` | app/deployments.py:253-269 | the wires are exactly those the row serves |
| `Routing.ListingFor` | app/deployments.py:411-491 | the listing holds exactly the wires of exactly the rows to be offered, and none for an unknown harness |
| `RoutingNames.ListedOnSpokenWires` | app/deployments.py:185-197 | a listing offers each harness only the wires it speaks |
| `RoutingNames.KnownHarnesses` | app/deployments.py:185-197 | four harnesses are known, each with exactly its wires |
| `RoutingNames.StandardPathServes` | app/deployments.py:70-92 | a URI on another host that ends in a standard path serves that path's wire and chat |
| `RoutingNames.VendorPathServes` | app/deployments.py:70-92 | on a vendor's host the wire's word anywhere after it is enough |
| `RoutingNames.ChatPathServes` | app/deployments.py:84-100 | a chat path serves chat unless the URI is a Responses one |
| `RoutingNames.VendorNeedsItsWord` | app/deployments.py:70-92 | a vendor's URI without the wire's word does not serve it |
| `Routing.JudgedAlike` | app/deployments.py:217-457 | the listing judges a harness on a wire as its requests will be judged |
| `Routing.ListingAgreesWithResolution` | app/deployments.py:217-548 | a row with a context window is listed for a harness on a wire iff a request resolves up to its secret, the guard accepts the URI of a row without a provider, and it is not the withheld stand-in |
| `ProviderBackfill.ProviderName` | migrations/versions/0004_providers.py:55-68 | the search ends for every set of taken names, at the first candidate that is free |
| `ProviderBackfill.FirstNameTried` | migrations/versions/0004_providers.py:55-63 | the first name tried is the vendor's, Ollama's by its port, or the host with dots and colons as dashes |
| `ProviderBackfill.LaterNamesTried` | migrations/versions/0004_providers.py:64-66 | the names after it carry a number from two up |
| `ProviderBackfill.GroupRows` | migrations/versions/0004_providers.py:115-134 | the dictionary holds each key once, with the group its rows form |
| `ProviderBackfill.GroupHolds` | migrations/versions/0004_providers.py:115-134 | a group has the first path of each shape, all models of its key, and its first row's settings; it has a path iff one of its models' routes is known |
| `ProviderBackfill.ShapeIffEnding` | migrations/versions/0004_providers.py:44-52 | a path is of a shape iff it ends in that shape's words, slashes after them aside |
| `ProviderBackfill.UnusedShapesAreFilled` | migrations/versions/0004_providers.py:148-153 | a local provider stores the standard path of every shape its models did not use, and a vendor none |
| `ProviderBackfill.HostAndRouteAreEnough` | migrations/versions/0004_providers.py:117-134 | a URI without a host is left alone, and one with a host and a known route is attached |
| `ProviderBackfill.Backfill` | migrations/versions/0004_providers.py:106-183 | one provider for each key with a known route, each with the paths, settings and fresh name of its group, and exactly that key's models attached |
| `ProviderBackfill.NamesAreDistinct` | migrations/versions/0004_providers.py:64-68 | no two providers have the same name |
| `ProviderBackfill.AttachedIffClassified` | migrations/versions/0004_providers.py:117-147 | a model is attached iff its URI has a host and some model of its upstream has a known route |
| `ProviderBackfill.SharedIffSameUpstream` | migrations/versions/0004_providers.py:120-183 | two attached models share a provider iff they share scheme, host and credential |
| `ProviderBackfill.UriIsKept` | app/deployments.py:316-336 | a model with a known route resolves on that wire to the same URI iff it has a scheme, no query, one leading slash and the stored path |
| `ProviderBackfill.RouteIsKept` | app/deployments.py:316-405 | its requests are posted to the same URL iff it has a scheme, one leading slash and the stored path, and what follows the path is kept: no query and a version of its own or none lent, or a query that was the version now lent |
| `ProviderBackfill.LentVersionMoves` | app/deployments.py:402-405 | of two models at one URI the one without an API version keeps its URI and is posted elsewhere |
| `ProviderBackfill.DoubledSlashMoves` | migrations/versions/0004_providers.py:131-133 | a lone model whose own path is stored is still sent elsewhere if that path starts with two slashes |
| `ProviderBackfill.DoubledSlashExample` | migrations/versions/0004_providers.py:131-133 | such a model at `//v1/messages` |
| `ProviderBackfill.LocalServesEveryWire` | migrations/versions/0004_providers.py:148-153 | an attached model on a local server is served on all three wires afterwards |
| `KeyCache.Console.RefreshKeyCache` | app/auth.py:50-68 | the rebuilt index is the one the tables determine, its hash set the keys of its lookup |
| `KeyCache.CreateKeepsCache` | app/admin/clients.py:97-126 | the index the tables determine is the same before and after a client is created, so leaving it alone is right |
| `KeyCache.Console.UpdateClient` | app/admin/clients.py:129-160 | a client's name, kind, description and privilege change and its disabled flag does not; then the index is the one the new tables determine; an unknown id or a taken name changes nothing |
| `KeyCache.Console.DisableClient` | app/admin/clients.py:163-176 | only that client's disabled flag is set, and the index is the one the new tables determine; an unknown id changes nothing |
| `KeyCache.Console.EnableClient` | app/admin/clients.py:179-192 | only that client's disabled flag is cleared, and the index is the one the new tables determine; an unknown id changes nothing |
| `KeyCache.Console.DeleteClient` | app/admin/clients.py:195-208 | the client goes with exactly its own keys, and the index is the one the new tables determine |
| `KeyCache.Console.MintKey` | app/admin/clients.py:211-238 | one unrevoked key is added for that client under the id the database gives it, and the index is the one the new tables determine; an unknown client or a known hash changes nothing |
| `KeyCache.Console.RevokeKey` | app/admin/clients.py:241-260 | only that key is revoked, if it belongs to that client, and the index is the one the new tables determine; otherwise nothing changes |
| `KeyCache.CoherentIffSameLive` | app/auth.py:50-68 | after any run of actions the index is the one the tables determine iff the same keys are live, with the same hashes, owners and privilege, as when the last refresh read them |
| `KeyCache.CoherentUnlessStale` | app/auth.py:50-68 | in particular it is while no refresh has failed since the last that succeeded |
| `KeyCache.HashesAreLookupKeys` | app/auth.py:65-67 | hash set and lookup always have the same keys, failed refreshes or not |
| `KeyCache.KeyCacheCoherence` | app/auth.py:50-140 | after any run that leaves the live keys as the last refresh read them, a presented key is accepted iff it hashes to an unrevoked key of an enabled client, resolves to that key and client, and has role admin iff the client is privileged |
| `KeyCache.MintAdmitsItsKeyOnly` | app/admin/clients.py:211-238 | minting changes the verdict on the minted key only, which is admitted iff its client is enabled |
| `KeyCache.RevokeRefusesItsKeyOnly` | app/admin/clients.py:241-260 | revoking refuses that key and changes no other verdict |
| `KeyCache.RevokedStaysRevoked` | app/admin/clients.py:195-260 | a digest whose key was revoked or deleted is accepted by no later coherent index, whatever actions follow and whatever row ids they reuse, unless one of them mints that digest |
| `KeyCache.RevokingMakesGone` | app/admin/clients.py:195-260 | revoking a key, or deleting its client, leaves no unrevoked row with its digest |
| `KeyCache.RevokedIsNotMinted` | app/admin/clients.py:211-238 | while a revoked row is there its digest cannot be minted again |
| `KeyCache.FailedRefreshKeepsKeyAlive` | app/admin/clients.py:163-176 | a disabling whose refresh fails leaves the client's key accepted |
| `KeyCache.SplitOnceAt` | app/auth.py:86-91 | the header's scheme ends at its first space and the token is all that follows |
| `KeyCache.BearerIsRead` | app/auth.py:84-91 | a bearer token is read with its scheme in any case, and no other header presents anything |
| `KeyCache.OwnHeaderComesFirst` | app/auth.py:82-85 | a key in a header of its own is what is presented, and an empty one is not there |

## Left out

- JSON text: numbers that are not finite, duplicate keys and printing details; values are an abstract type and texts are reached through the `Codec`.
- Counts given as strings of non-ASCII digits, and infinite or undefined floats, which the original passes to `int`.
- The sentences an overflow is recognised by (`app/proxy/overflow.py:66-86`): an arbitrary function of the error.
- Upstream events of a malformed shape (an `error` that is not an object, a `delta` that is not one), on which the original raises outside what is modelled.
- A stream of the Responses API that is interrupted by the transport: the original has no handler there.
- Hang-ups at yields outside the event loop of the Anthropic generator.
- Tool declarations, tool choice and stop sequences of the request: independent of the rest, field by field.
- The random ids of completions and minted tool calls; minting is a function of the position.
- The translation of chat requests to the Responses API.
- The usage that the WebSocket route meters, a client that disconnects in mid-send, and the failure of a send.
- A WebSocket stream that ends with neither a release nor an error: what was held back is not sent, and nothing is claimed beyond that.
- The JSON bodies that decide which payloads are overflows, errors or releases in the WebSocket relay: each payload carries the answers.
- The parsing of limit headers into windows, and staleness of stored readings.
- Two credential rows that share one token file, and edits of the credential row by an admin while a refresh is under way.
- The static and literal-token kinds of credential, which never refresh.
- Alias resolution of Anthropic model names, and upstream headers.
- The order of the listing and its descriptive fields.
- Routing.ListingAgreesWithResolution: says nothing of the route guard for rows with a provider, whose arbitrary paths the original's listing does not check either.
- Splitting a URI's text into parts, the lower-casing of its scheme, and ports; `ProviderBackfill` starts from the parts.
- Database types, lengths and constraints other than uniqueness, foreign keys to usage rows (a commit that fails for any reason is one outcome), and overlapping refreshes of the key index.
- Validation of the admin console's form fields, its pages and its login.
- SHA-256: keys are known by an arbitrary hash of their text.
- AnthropicMerge.InterleavingDelivers: leaves open streams whose texts, thoughts or openings come in another order than the blocks', which the original reads in the order they come.
- ResponsesMerge.InterleavingDelivers: leaves open streams whose texts or openings come in another order than the items', and replies whose calls have no ids of their own.
