# Verified model of the Grok gateway's core

The gateway under `backend/internal` takes requests in the OpenAI chat, OpenAI Responses
and Anthropic Messages dialects, lends one of many upstream accounts to each, talks the
Responses protocol upstream and re-encodes the answer, live or as a whole, into the
client's dialect. This project models the parts of it that carry state and proves what
they keep.

The pattern is the same everywhere. What an operation does is a function on values (a
`*Spec` module, `Pools`, `Tools`, `Input`, `Recovery`). The code that changes things step by
step is imperative: a class or a loop, and each of its methods is proved to do exactly what
that function says. The properties are lemmas about the functions, over all inputs, all
runs and all interleavings, stated against definitions that do not mention the functions'
bodies (an automaton over the written output, a client that folds what it receives, counts
of leases, sets of ids). Where a property fails in a corner, the model keeps the code as it
is, a lemma exhibits the corner, and the theorem says exactly when the property holds. The
table names the entry points and the loops among the methods; their straight-line helpers
carry the same kind of contract and have no row.

| files | what they model |
|---|---|
| `AnthropicWire`, `AnthropicSpec`, `AnthropicTranslator` | the Responses-to-Anthropic stream translator and the pipe around it |
| `AnthropicGrammar`, `AnthropicRuns` | the grammar of its output as an automaton, and exactly which runs keep to it |
| `AnthropicBatch`, `AnthropicAgreement`, `AnthropicTheorem` | the whole-body converter and when both give the client the same message |
| `AnthropicFrames`, `AnthropicReplies` | what every event writes, frame by frame, and how every message ends: stop reason and token counts |
| `ChatWire`, `ChatSpec`, `ChatStream`, `ChatDiscipline`, `ChatAgreement` | the same for OpenAI chat chunks, with its byte-level reader |
| `ChatReplies` | how every chat stream ends, and what a whole body comes to |
| `Accounts`, `Pools`, `Scheduler` | accounts, the pool with its redundant indexes, and the scheduler and lease objects |
| `PoolRuns`, `Selection`, `Wakeup` | whole runs (indexes, lease accounting, revisions), optimal and balanced selection, and the waiting caller |
| `PoolLaws` | what each scheduler operation does to the records, field by field |
| `PickLaws` | exactly which account is lent next |
| `GatewaySpec`, `Gateway`, `GatewaySafety` | the request with its rotation loop, quota circuit and streaming lease |
| `GatewayLaws` | what a request makes of upstream's replies |
| `Recovery`, `RecoveryTick` | the quota pass and whole recovery ticks |
| `RecoveryLaws` | what recovery makes of the records |
| `Sse` | reading and printing server-sent event frames |
| `ToolAliases`, `ToolNames`, `ToolRewrite` | tool names sent upstream and the way back |
| `Tools`, `ToolsLoop`, `ToolsIdempotent`, `ToolsExact` | normalising tool lists |
| `ToolsContent` | which lists are refused, what each declared tool contributes, and when search is switched off |
| `CallIds`, `Input`, `InputIdempotent`, `ChatHistory` | pairing call ids and sanitising histories |
| `InputContent`, `ChatContent` | which texts, names, arguments and outputs a history keeps |

Findings, each shown by a concrete lemma and each with a theorem that says, for all inputs,
exactly when it happens:

- a stream opened by a finished text message violates the Anthropic grammar
  (`AnthropicRuns.MisopenExample`), and events after a terminal one are still written
  (`AnthropicRuns.LateTextExample`); exact: `AnthropicRuns.PipeGrammar`;
- a hot slot freed late in a selection scan is missed (`Selection.LateSlotExample`); exact:
  `Selection.PickComplete`, `Selection.SaturatedLeaves` and `Selection.OverlooksExact`;
- parking a hot account can leave a waiting caller asleep beside a free account
  (`Wakeup.StrandedExample`); exact: `Wakeup.StepNotStranded` and `Wakeup.NoMissedWakeup`;
- a store that missed a parking puts the account back before its time
  (`RecoveryTick.StaleStoreExample`); exact: `RecoveryTick.OnlyRipeReturn`;
- a custom tool called apply_patch does not survive a second normalisation
  (`ToolsIdempotent.CustomPatchExample`), and neither does a search text that truncation
  leaves with trailing white space (`ToolsIdempotent.SearchTextExample`); exact:
  `ToolsIdempotent.IdempotentIffSettled` on the result, `ToolsExact.IdempotentExact` on the
  client's own list;
- a restored tool call can be renamed twice (`ToolRewrite.RenamedTwiceExample`); exact:
  `ToolRewrite.BodyRestored`;
- identity keys collide when a namespace contains NUL (`ToolAliases.KeyClashExample`);
  exact: `ToolAliases.KeyClash`;
- a live reasoning summary of several parts, a text of several pieces, a call its pieces
  name differently, or calls announced out of order or after their arguments read
  differently from the whole-body message; exact: `AnthropicTheorem.PipeAgreesWithBatch`
  and `ChatAgreement.StreamingAgreesWithBatch`.

Conventions: instants and durations are integers (seconds), a zero time is `None`; texts are
sequences of characters, and trimming knows the white space of the Latin-1 range; random
ids, hashes, JSON encoding and decoding, clocks and upstream answers are parameters, so that
every theorem holds for all of them.

## Model

| member | source | states |
|---|---|---|
| AnthropicRuns.PipeGrammar | backend/internal/compat/anthropic_stream_responses.go:47-126 | for every event sequence and every way the body ends, the written events are grammatical (message_start first and once, indices 0,1,2,… without gaps, deltas of a block's own kind between its start and its one stop, nothing else while thinking is open, all closed, one message_stop or error at the end) if and only if no event opens the stream with a finished text message and no late event still has something to write; a clean end then gives a whole message |
| AnthropicRuns.MisopenBreaks | backend/internal/compat/anthropic_stream_responses.go:311-325 | the completion of a text message as the very first event always breaks the grammar, because that branch does not open the message |
| AnthropicRuns.MisopenExample | backend/internal/compat/anthropic_stream_responses.go:311-325 | a concrete stream on which that happens |
| AnthropicRuns.LateEvent | backend/internal/compat/anthropic_stream_responses.go:171-379 | after a terminal event exactly the silent events write nothing; every other one breaks the grammar |
| AnthropicRuns.LateTextExample | backend/internal/compat/anthropic_stream_responses.go:82-125 | the pipe keeps reading after an error: late text is still written |
| AnthropicGrammar.StepGrammar | backend/internal/compat/anthropic_stream_responses.go:171-379 | any event in a live stream keeps the written events grammatical and the translator's tables in step with the automaton, unless it mis-opens the stream |
| AnthropicGrammar.CompletedWhole | backend/internal/compat/anthropic_stream_responses.go:328-355 | response.completed closes every block and ends the message exactly once, from every live state |
| AnthropicGrammar.FailWhole | backend/internal/compat/anthropic_stream_responses.go:805-822 | failing closes every block and ends the message with one error |
| AnthropicGrammar.StopAllRead | backend/internal/compat/anthropic_stream_responses.go:532-550 | stopping all blocks emits one stop per open block and leaves none open |
| AnthropicGrammar.BrokenStays | backend/internal/compat/anthropic_stream_responses.go:765-822 | nothing grammatical can follow a terminal event: the grammar itself forbids it |
| AnthropicTheorem.PipeAgreesWithBatch | backend/internal/compat/anthropic_stream_responses.go:47-126 | for every finished response, every cutting of its text and arguments, every live summary of its reasoning in any number of parts and every optional event, announced calls or not, the message a client reads from the piped stream equals the whole-body converter's message (content list, tool inputs decoded, id, model, stop reason, usage) if and only if the listed checks on the response and its events hold |
| AnthropicTheorem.StreamingAgreesWithBatch | backend/internal/compat/anthropic_resp.go:13-148 | the same equivalence for the translator without the pipe around it |
| AnthropicTheorem.ContentsAgree | backend/internal/compat/anthropic_stream_responses.go:667-754 | streamed and converted content lists are equal exactly when every single item agrees, although blocks of different items could in principle make up for each other |
| AnthropicTheorem.StreamReads | backend/internal/compat/anthropic_stream_responses.go:171-379 | what a client reads from any such stream: the content of each item in order, regardless of how the deltas were cut |
| AnthropicAgreement.FeedTook | backend/internal/compat/anthropic_stream_responses.go:171-379 | one item's events, in any cutting, with or without an announcement and under whatever call id and name its pieces give, add exactly that item's blocks and leave no block or pending signature behind |
| AnthropicAgreement.MessageFeed | backend/internal/compat/anthropic_stream_responses.go:478-495 | a text message streamed in pieces is one text block with the concatenation |
| AnthropicAgreement.CallFeed | backend/internal/compat/anthropic_stream_responses.go:497-514 | a function call streamed in pieces is one tool block with the concatenated arguments, opened under the id and name of the first event that shows it |
| AnthropicAgreement.ReasoningFeed | backend/internal/compat/anthropic_stream_responses.go:552-665 | a reasoning item becomes one thinking block for each live part that follows an ended one, the last with its signature, or at most one block if nothing was shown live |
| AnthropicBatch.ResponsesToAnthropic | backend/internal/compat/anthropic_resp.go:13-148 | the loop over the output computes the message that Batch describes item by item |
| AnthropicTranslator.Translator.ProcessData | backend/internal/compat/anthropic_stream_responses.go:171-379 | each event changes the translator and the written events exactly as the step function the theorems are about |
| AnthropicTranslator.Translator.StopAllBlocks | backend/internal/compat/anthropic_stream_responses.go:532-550 | stops exactly the blocks still open |
| AnthropicTranslator.Translator.FinalOutput | backend/internal/compat/anthropic_stream_responses.go:699-754 | the loop over the final output does so for every item |
| AnthropicTranslator.Translator.Close | backend/internal/compat/anthropic_stream_responses.go:82-125 | the end of the body: the buffered event, then an error unless a terminal event was seen |
| AnthropicTranslator.Pipe | backend/internal/compat/anthropic_stream_responses.go:47-126 | the reading loop leaves the translator in the state of the specification; what it has written is grammatical exactly for clean runs, whole when the body ends cleanly, and for a response sent item by item reads as the whole-body message exactly when the checks hold |
| AnthropicFrames.CreatedWrites | backend/internal/compat/anthropic_stream_responses.go:188-204 | the first event starts the message once, under the client's form of its id, the model asked for or named, and the input tokens announced |
| AnthropicFrames.TextWrites | backend/internal/compat/anthropic_stream_responses.go:206-210 | a piece of text ends open thinking and goes to the text block of its place, begun if there is none; an ended block takes nothing |
| AnthropicFrames.PieceWrites | backend/internal/compat/anthropic_stream_responses.go:255-261 | a piece of arguments goes to the tool block of its item, call or place, begun under the call's id and name if there is none |
| AnthropicFrames.ArgumentsWrite | backend/internal/compat/anthropic_stream_responses.go:263-280 | the whole arguments are written only if nothing of them was, and end the block |
| AnthropicFrames.CallAddedWrites | backend/internal/compat/anthropic_stream_responses.go:243-250 | an announced call begins its block, with the arguments it has already |
| AnthropicFrames.CallDoneWrites | backend/internal/compat/anthropic_stream_responses.go:293-310 | a finished call completes its block |
| AnthropicFrames.MessageWrites | backend/internal/compat/anthropic_stream_responses.go:311-325 | a finished message writes its texts unless something of it was written, and ends its block |
| AnthropicFrames.PartWrites | backend/internal/compat/anthropic_stream_responses.go:212-231 | a new part of a reasoning signs and ends the part before it if that is over and stands open under its own name; a piece is written unless the client is not to see it |
| AnthropicFrames.ThoughtAddedWrites | backend/internal/compat/anthropic_stream_responses.go:239-242 | an announced reasoning is noted with its signature and writes nothing |
| AnthropicFrames.ThoughtDoneWrites | backend/internal/compat/anthropic_stream_responses.go:285-292 | a finished reasoning signs and ends the thinking that is open, or is shown as a block of its own unless it was |
| AnthropicFrames.FinalWrites | backend/internal/compat/anthropic_stream_responses.go:667-754 | each item of the final output: a message is written unless it, or any text at a place of its own, was; a call is completed with its arguments or an empty object; a reasoning is shown unless it was |
| AnthropicFrames.CompletedWrites | backend/internal/compat/anthropic_stream_responses.go:328-355 | a completion goes through the final output item by item and then ends thinking, every open block in order of its index and the message, unless it has ended before |
| AnthropicFrames.FailWrites | backend/internal/compat/anthropic_stream_responses.go:357-374 | a failure ends thinking and every open block and says why, once |
| AnthropicFrames.DrainWrites | backend/internal/compat/anthropic_stream_responses.go:82-99 | the events are handled one after the other until one cannot be decoded, which ends the pipe with an error |
| AnthropicFrames.CloseWrites | backend/internal/compat/anthropic_stream_responses.go:100-126 | the end of the body, by the way it ends, what is left in the buffer and whether the message had started |
| AnthropicReplies.PipeTells | backend/internal/compat/anthropic_stream_responses.go:328-355 | for every event sequence and every way the body ends: a message_delta is written exactly if a completion is the first event that ends the message, and then once; it says "tool_use" exactly if a tool block began before it, otherwise "max_tokens" exactly if the response is incomplete, otherwise "end_turn"; its counts are those of the response (input_tokens before prompt_tokens, output_tokens before completion_tokens, zero without either) or, without usage, the input tokens announced at the start |
| AnthropicReplies.StepOnward | backend/internal/compat/anthropic_stream_responses.go:171-327 | no event but a terminal one writes a message_delta or finishes, and the tool flag is raised exactly when a tool block begins |
| AnthropicReplies.FinishedTrails | backend/internal/compat/anthropic_stream_responses.go:171-379 | once a message has ended no event, late or not, writes a second message_delta |
| AnthropicReplies.ReadsDelta | backend/internal/compat/anthropic_stream_responses.go:765-803 | stop reason and counts as a client reads them are those of the one message_delta |
| AnthropicReplies.ReadsNone | backend/internal/compat/anthropic_stream_responses.go:805-822 | without one a client reads no stop reason and no counts |
| AnthropicBatch.BatchSays | backend/internal/compat/anthropic_resp.go:24-148 | the whole-body message says "tool_use" exactly if some output item is a call, otherwise "max_tokens" exactly if the response is incomplete, otherwise "end_turn"; its id is the response's with resp_ turned into msg_, or a made-up one; its model the one asked for, or that answered, or "grok"; the plain output text steps in only for an empty content |
| AnthropicBatch.ContentTells | backend/internal/compat/anthropic_resp.go:47-107 | every output item stands in the message at its place: a message as its non-empty texts in order, a call with its first non-blank id, its name and its arguments if they are valid JSON, reasoning with the summary and signature the client may see |
| ChatDiscipline.StreamDiscipline | backend/internal/compat/responses_stream.go:226-312 | for every upstream stream: role chunk first and once, tool indices start in order with one start frame each, arguments follow their start, and a clean end gives exactly one terminal |
| ChatDiscipline.StepSound | backend/internal/compat/responses_stream.go:226-299 | every event keeps the discipline together with both index maps staying below the next index; exactly completed, incomplete and failed end the stream |
| ChatDiscipline.TerminalIsLast | backend/internal/compat/responses_stream.go:301-343 | any chunk after the terminal would break the discipline |
| ChatDiscipline.StartsInOrder | backend/internal/compat/responses_stream.go:375-408 | the start frames of a disciplined stream carry 0,1,2,… and as many as there are calls |
| ChatAgreement.StreamingAgreesWithBatch | backend/internal/compat/responses_stream.go:226-503 | for every output, every cutting of text and arguments, every interleaving of different calls' deltas, before or after an announcement, and every order of announcements, folding the chunks by tool index gives text, tool calls with id, name and arguments, and finish reason of the whole-body converter if and only if output_text is blank or equal to the text, every call has a name and has not only `parameters`, the calls are first mentioned in output order, and every piece of arguments follows a mention of its call |
| ChatAgreement.RunTracks | backend/internal/compat/responses_stream.go:375-503 | after any such prefix whose pieces follow a mention of their call the stream's tables hold exactly the calls mentioned, at their places in the order of first mention |
| ChatAgreement.EarlyNameless | backend/internal/compat/responses_stream.go:410-444 | a piece of arguments that comes before any mention of its call opens a slot without a name, and the client holds one to the end |
| ChatAgreement.StreamedCalls | backend/internal/compat/responses_stream.go:446-503 | at the end every call is held with its full arguments, in the order of first mention, wherever its deltas were interleaved |
| ChatAgreement.ResponsesToChat | backend/internal/compat/responses_to_chat.go:10-94 | the converter's loop computes the completion that Batch describes |
| ChatAgreement.AppendTexts | backend/internal/compat/responses_to_chat.go:96-132 | the inner loop appends exactly the textual parts |
| ChatStream.ReadAll | backend/internal/compat/responses_stream.go:200-299 | with read buffers of any sizes a reader gets exactly the encoded chunks of the specification, then end of file, or the error of the body: the encoding of one disciplined stream, a whole one after a clean end |
| ChatStream.Stream.Read | backend/internal/compat/responses_stream.go:200-216 | hands out at most the buffer's size, never loses or repeats a byte, and makes progress |
| ChatStream.Stream.Pull | backend/internal/compat/responses_stream.go:226-299 | one upstream event or the end of the body; the final goal stays the same |
| ChatReplies.StreamTells | backend/internal/compat/responses_stream.go:226-345 | for every stream read to its end the first terminal event decides: the last chunks are one finish chunk and the end mark, with "tool_calls" exactly if a call was started, otherwise "length" exactly if the response was incomplete, otherwise "stop"; a failure ends it with one error with upstream's message, and a body without a terminal event with one that says whether anything had come |
| ChatReplies.BodyTells | backend/internal/compat/responses_to_chat.go:10-158 | a whole body becomes the text it states or else the texts of its messages in order, exactly its named calls in order with the first id, name and arguments they state, and the finish reason "tool_calls" exactly if there is one, otherwise "length" exactly if incomplete, otherwise "stop" |
| ChatReplies.PiecesFollow | backend/internal/compat/responses_stream.go:375-503 | after any events without a terminal one, a piece of arguments that names a call already started goes to that call; the whole arguments of a finished call do so unless a piece went there before; announcing a call again writes nothing and notes its place |
| ChatReplies.PlaceFollows | backend/internal/compat/responses_stream.go:410-503 | what comes at the output index of a call and names no other goes to that call |
| ChatReplies.AnnouncedBegins | backend/internal/compat/responses_stream.go:375-408 | an announced call whose id is new is started under the next index with its name, under the id it states or a drawn one |
| ChatReplies.PieceBegins | backend/internal/compat/responses_stream.go:410-445 | a piece of arguments that names no call begun and comes at a new place starts one without a name |
| ChatReplies.DoneBegins | backend/internal/compat/responses_stream.go:446-484 | a finished call that was never heard of is started with its name and its whole arguments |
| PoolRuns.RunValid | backend/internal/scheduler/scheduler.go:130-718 | every run of scheduler operations keeps the indexes exact: `ready` is duplicate-free and is the accounts that stand ready, `hot` is within `ready` and within its cap (empty when 0) |
| PoolRuns.StepValid | backend/internal/scheduler/scheduler.go:130-718 | every single operation does |
| Pools.LoadValid | backend/internal/scheduler/scheduler.go:130-157 | loading distinct accounts establishes the invariant and loads all of them |
| Pools.UpsertValid | backend/internal/scheduler/scheduler.go:660-680 | replacing an account keeps it |
| Pools.DeleteValid | backend/internal/scheduler/scheduler.go:682-694 | deleting keeps it |
| Pools.PromoteValid | backend/internal/scheduler/scheduler.go:640-658 | promoting due accounts keeps it, in whatever order the map is walked |
| Pools.MoveValid | backend/internal/scheduler/scheduler.go:736-758 | parking keeps it |
| Pools.GrantValid | backend/internal/scheduler/scheduler.go:248-280 | granting keeps it and puts the account in the hot set |
| Pools.ActiveSizeValid | backend/internal/scheduler/scheduler.go:211-236 | resizing the hot set keeps it, whichever ids survive |
| Pools.MaxActiveValid | backend/internal/scheduler/scheduler.go:188-207 | capping concurrency keeps it |
| Pools.Remove | backend/internal/scheduler/scheduler.go:709-718 | filtering removes every occurrence and nothing else |
| PoolRuns.AcquireEffect | backend/internal/scheduler/scheduler.go:243-297 | a grant lends one ready, unspent account strictly below its limit, puts it in the hot set and touches nobody else's load; no grant changes no load; a refusal means an empty ready list; a saturated turn has parked every spent account |
| PoolRuns.RunAccounted | backend/internal/scheduler/scheduler.go:188-280 | over runs that delete no leased account, requests in flight equal unreleased leases for every account; over all runs they never exceed them |
| PoolRuns.LeasesAccounted | backend/internal/scheduler/scheduler.go:130-157 | the same from freshly loaded accounts |
| PoolRuns.StepAccounted | backend/internal/scheduler/scheduler.go:660-780 | each operation, Upsert and MoveUnavailable included, keeps the accounts |
| PoolRuns.ReleaseTwice | backend/internal/scheduler/scheduler.go:771-780 | a second release changes nothing at all |
| PoolRuns.RevisionSound | backend/internal/scheduler/scheduler.go:640-694 | between two equal revisions the ready set is the same, whatever ran in between |
| PoolRuns.StepRevision | backend/internal/scheduler/scheduler.go:304-327 | every step leaves the set of ready ids alone or increases the revision |
| PoolRuns.ScanParks | backend/internal/scheduler/scheduler.go:304-327 | a scan parks exactly the spent accounts among those it visits and bumps the revision if there are any |
| Selection.PickOptimal | backend/internal/scheduler/scheduler.go:304-390 | the pick can serve and no account that could serve had a higher priority, or the same and fewer requests in flight; no pick means nobody could serve |
| Selection.PickComplete | backend/internal/scheduler/scheduler.go:304-390 | somebody is picked exactly when a ready account with room and quota has a hot place when the scan comes to it (its own, a free one, or one of a spent account listed before it); with no spent account in the hot set, exactly when somebody can serve |
| Selection.SaturatedLeaves | backend/internal/scheduler/scheduler.go:243-297 | after a saturated turn nobody can serve exactly unless a spent account held a hot place that an unspent account with room, not in the hot set, waited for |
| Selection.OverlooksExact | backend/internal/scheduler/scheduler.go:304-331 | a turn is saturated and leaves room behind exactly if nobody is reached although such a place is freed |
| Selection.LateSlotExample | backend/internal/scheduler/scheduler.go:304-331 | it does happen: a hot slot freed late in a scan is missed by that scan, and the caller waits although an account could serve |
| Selection.AffinityHolds | backend/internal/scheduler/scheduler.go:243-280 | a session that comes back within its time to live gets the account it had, as long as that one is free |
| Selection.GrantBinds | backend/internal/scheduler/scheduler.go:505-518 | a grant binds its session, and pruning never takes the new binding |
| Selection.ParkedUnbound | backend/internal/scheduler/scheduler.go:748-754 | parking an account drops exactly the bindings to it |
| Selection.AcquiresStayLevel | backend/internal/scheduler/scheduler.go:345-390 | acquire-only runs over one tier of equal limits keep the loads within one of each other |
| Selection.AcquireLevel | backend/internal/scheduler/scheduler.go:345-390 | each acquire does |
| Selection.RoundRobinFair | backend/internal/scheduler/scheduler.go:383-390 | n acquire-release turns over n candidates serve each exactly once |
| Selection.TurnServes | backend/internal/scheduler/scheduler.go:383-390 | a turn at rest serves the candidate at the cursor and restores everybody's load |
| Scheduler.Scheduler.constructor | backend/internal/scheduler/scheduler.go:130-157 | builds the pool that Load describes |
| Scheduler.Scheduler.TryAcquire | backend/internal/scheduler/scheduler.go:243-297 | one turn of the acquire loop does to the pool what Acquire says and gives its outcome |
| Scheduler.Scheduler.ScanReady | backend/internal/scheduler/scheduler.go:304-345 | the scan's loop finds the specified candidates and parks the specified accounts |
| Scheduler.Scheduler.LightestOf | backend/internal/scheduler/scheduler.go:345-366 | the loop keeps the candidates with the fewest requests in flight |
| Scheduler.Scheduler.SmallestOf | backend/internal/scheduler/scheduler.go:373-382 | the loop finds the smallest id |
| Scheduler.Scheduler.EnsureHot | backend/internal/scheduler/scheduler.go:475-499 | an eligible account gets a place by plain insertion; for another one exactly as many idle accounts are evicted, in whatever order the map is walked, as one free place takes, or all idle ones if those are too few, and only then does it get no place |
| Scheduler.Scheduler.Evict | backend/internal/scheduler/scheduler.go:482-493 | the eviction loop takes only idle accounts, exactly as many as one free place takes, or all |
| Scheduler.Scheduler.BumpSticky | backend/internal/scheduler/scheduler.go:505-518 | binds a session and prunes expired bindings past the limit |
| Scheduler.Scheduler.RemoveReady | backend/internal/scheduler/scheduler.go:709-718 | the in-place filter removes every occurrence |
| Scheduler.Scheduler.PromoteDue | backend/internal/scheduler/scheduler.go:640-658 | walking the map in any order readies exactly the due cooldown accounts, once each |
| Scheduler.Scheduler.ClearSticky | backend/internal/scheduler/scheduler.go:394-405 | drops exactly the bindings of an account |
| Scheduler.Scheduler.ApplyMaxActive | backend/internal/scheduler/scheduler.go:188-207 | caps every account |
| Scheduler.Scheduler.ShrinkHot | backend/internal/scheduler/scheduler.go:225-234 | the loop leaves exactly the wanted number |
| Scheduler.Scheduler.EarliestRetry | backend/internal/scheduler/scheduler.go:625-638 | walking the map in any order finds the least deadline of a waiting account |
| Pools.EarliestUnique | backend/internal/scheduler/scheduler.go:625-638 | that deadline does not depend on the order of the walk |
| Scheduler.Lease.Release | backend/internal/scheduler/scheduler.go:771-780 | only the first release gives the request back |
| Wakeup.NoMissedWakeup | backend/internal/scheduler/scheduler.go:282-295 | over every interleaving of one waiting caller with other users of the scheduler: at every point, if an account the caller may use has room then a token is in the channel or a signal is still to be sent, if and only if no step on the way is one of those `StepNotStranded` names |
| Wakeup.StepNotStranded | backend/internal/scheduler/scheduler.go:653-707 | each step keeps that exactly if it is not a check that overlooks room, nor an operation of somebody else that frees a hot place without a signal while the caller sleeps with nothing on its way, as read off the state before it |
| Wakeup.SleepsWhenFull | backend/internal/scheduler/scheduler.go:282-295 | the caller goes to sleep on a pool without room exactly unless its own scan overlooked a place it freed |
| Wakeup.QuietExact | backend/internal/scheduler/scheduler.go:660-769 | an operation that does not signal leaves a full pool full exactly unless it frees a hot place that an account with room waits for: parking a hot account, resizing the hot set, or another caller's scan that parks one and does not itself use the place |
| Wakeup.MoveExact | backend/internal/scheduler/scheduler.go:736-758 | parking a leased account does so exactly if it held a hot place and such an account exists |
| Wakeup.ActiveSizeExact | backend/internal/scheduler/scheduler.go:211-236 | resizing makes room exactly if it adds a place, or removes the cap, for such an account |
| Wakeup.AcquireExact | backend/internal/scheduler/scheduler.go:243-297 | another caller's acquire makes room exactly if a spent account held a hot place that an account with room waited for and the caller did not take all that was freed |
| Wakeup.CalmRun | backend/internal/scheduler/scheduler.go:243-331 | a guard that runs no scan: as long as no spent account is hot when a scan runs, no hot account is parked and the hot set is not resized, the caller is never stranded |
| Wakeup.NoHotSetSteady | backend/internal/scheduler/scheduler.go:211-236 | without a hot set no step strands the caller, and only resizing brings a hot set about |
| Wakeup.WokenAndServed | backend/internal/scheduler/scheduler.go:288-295 | a caller not stranded is served after at most a signal, a wake-up and a check |
| Wakeup.CheckServes | backend/internal/scheduler/scheduler.go:243-280 | a check finds capacity that is there |
| Wakeup.StrandedExample | backend/internal/scheduler/scheduler.go:736-758 | it does happen: parking a hot account frees its place without a signal and the caller sleeps on |
| PoolLaws.AcquireRecords | backend/internal/scheduler/scheduler.go:243-390 | what an acquire leaves of every record: the account lent was ready, below its limit and not spent, and has one request more in flight and in all; of the others only spent ready ones may change, by going out of service for quota with their own code and a deadline still ahead kept; after a saturated turn all of them have |
| PoolLaws.SaturatedMeans | backend/internal/scheduler/scheduler.go:243-390 | without a hot set a saturated turn means that every ready account is at its limit |
| PoolLaws.ScanLeaves | backend/internal/scheduler/scheduler.go:304-346 | a scan parks exactly the spent ready accounts it visits, for the quota window or a day, and leaves every other record alone |
| PoolLaws.AvailableMeans | backend/internal/domain/account/account.go:41-68 | an account is available exactly if it is ready, not spent and below its limit, one without a stated limit counting as limited to one |
| PickLaws.PickTells | backend/internal/scheduler/scheduler.go:304-391 | the pick exactly: of the ready accounts that can serve when the scan reaches them, those of the highest priority with the fewest requests in flight; round robin takes the one at the cursor among them and moves the cursor on, wrapping at 2^64, fill first the one whose id comes first; nobody if there is none |
| PickLaws.ScanTops | backend/internal/scheduler/scheduler.go:304-344 | after each visit the candidates are exactly the best of the accounts that came into question so far, in order |
| PickLaws.LightestTells | backend/internal/scheduler/scheduler.go:346-366 | of the candidates exactly those with the fewest requests in flight are kept, in order |
| PickLaws.LessPrecedes | backend/internal/scheduler/scheduler.go:374-382 | ids are compared byte by byte |
| PoolLaws.MoveRecords | backend/internal/scheduler/scheduler.go:736-760 | parking sets standing, reason, deadline and code of one record, takes it off the ready list and the hot set and drops exactly its bindings; the revision moves only if the record changed |
| PoolLaws.PromoteRecords | backend/internal/scheduler/scheduler.go:640-658 | promotion makes exactly the cooldowns whose time has come ready, with reason, deadline and code cleared and counters kept |
| PoolLaws.UpsertRecords | backend/internal/scheduler/scheduler.go:660-680 | a replaced record keeps its requests in flight and gets a limit of at least one and at most the cap; the ready list changes for that id only |
| PoolLaws.CounterRecords | backend/internal/scheduler/scheduler.go:761-782 | recording usage, releasing and capping each touch their own field only: used and allowed quota in this order, one request in flight fewer, the limit cut to the cap |
| PoolLaws.DeleteRecords | backend/internal/scheduler/scheduler.go:682-694 | a deletion takes one record out of the pool, the ready list and the hot set |
| PoolLaws.LoadRecords | backend/internal/scheduler/scheduler.go:130-158 | a loaded pool holds the records given, with a limit of at least one, and starts from the default settings |
| PoolLaws.AcquireBindings | backend/internal/scheduler/scheduler.go:243-302 | what a turn of an acquire does to the session bindings: one granted is bound to its account for the time to live, one refused forgets exactly its own binding if that is stale (expired, or to an account gone or out of service) |
| PoolLaws.BindingLives | backend/internal/scheduler/scheduler.go:505-518 | a granted session is bound for its time to live, and exactly the expired bindings of a table with more than 10000 entries are dropped |
| GatewaySafety.RequestSafe | backend/internal/service/gateway.go:229-482 | for any valid pool, upstream behaviour and clock: every return path restores all requests in flight except the one lease of a streaming success; attempts use different accounts, all ready at the start, at most min(maxAttempts, ready); only attempted or spent accounts leave the ready list; a newly opened circuit means there were attempts and all were quota failures |
| GatewaySafety.AttemptsSafe | backend/internal/service/gateway.go:259-482 | the loop does, from any attempt on |
| GatewaySafety.AttemptSafe | backend/internal/service/gateway.go:259-472 | one attempt lends one account and gives it back unless it streams; a rotated account is out of the ready list |
| GatewaySafety.NoLeaseLeaks | backend/internal/service/gateway.go:229-482 | unless it streams a request leaves every account's load as it was |
| GatewaySafety.StreamSettles | backend/internal/service/gateway.go:686-724 | releasing the one lease of a stream restores every load |
| GatewaySafety.CircuitSound | backend/internal/service/gateway.go:573-672 | while the circuit reports open, the ready set is exactly the one it opened on |
| GatewaySpec.CooldownGrows | backend/internal/scheduler/scheduler.go:444-463 | cooldowns start at the base, never shrink with the streak and grow to at most two hours |
| Gateway.CooldownForStreak | backend/internal/scheduler/scheduler.go:444-463 | the doubling loop with its early exit computes the specified cooldown |
| Gateway.Gateway.Request | backend/internal/service/gateway.go:229-482 | the request leaves scheduler, streaks and circuit exactly as the specification of the request says and holds an unreleased lease only when it streams |
| Gateway.Gateway.Rotation | backend/internal/service/gateway.go:259-482 | the rotation loop computes the specified attempts |
| Gateway.Gateway.Serve | backend/internal/service/gateway.go:281-472 | one attempt performs exactly the specified operations on its lease |
| Gateway.LeaseReader.ServeAll | backend/internal/service/gateway.go:686-724 | any script of reads and closes closes the body and releases the lease exactly once if some demand ends the stream, never otherwise, and keeps the last 96 KiB read |
| Gateway.TailOfTail | backend/internal/service/gateway.go:686-694 | keeping the tail of a tail and more bytes is keeping the tail of everything, its last 96 KiB |
| GatewayLaws.RequestTells | backend/internal/service/gateway.go:229-482 | one request, told reply by reply: a barred circuit (open, same revision, time ahead) exactly refuses without trying anything; otherwise at most the configured number of attempts (three by default) and at most as many as accounts are ready are made, each but the last met an account failure that was stored, the last reply fixes the ending and the circuit, and records and streaks end as AttemptsTell says |
| GatewayLaws.AttemptsTell | backend/internal/service/gateway.go:261-482 | the loop from any attempt: every account tried ends with the record its reply calls for (one request more, and parked, counted, lent or left), with its streak grown, cleared or kept; every other record is untouched or out for want of quota; a loop that runs out of attempts on quota failures alone opens the circuit until the soonest deadline ahead or for the quota window |
| GatewayLaws.AttemptRotates | backend/internal/service/gateway.go:407-455 | an attempt rotates exactly on a refusal read to its end whose kind is quota, credentials or rate limit or whose reason is validating; the account then stands unavailable under the reply's reason (cooldown if none) and code, not before the time upstream asked for, with one more failure in a row |
| GatewayLaws.RefusalPasses | backend/internal/service/gateway.go:457-476 | an answer has the last reply's status, and it is a refusal exactly if that reply was read to its end and does not blame the account |
| GatewayLaws.RetryRests | backend/internal/service/gateway.go:635-661 | how long a rotated account rests: the quota window (a day by default) for quota, else the cooldown of its kind (45 seconds by default) for its streak, or what upstream asks for if that is longer |
| GatewayLaws.CooldownClosed | backend/internal/scheduler/scheduler.go:444-463 | the cooldown in closed form: the base, doubled once for each further failure in a row, at most five times and not beyond an hour |
| GatewayLaws.ServeEnds | backend/internal/service/gateway.go:295-476 | ending, rotation, circuit and streaks of one attempt by its reply alone: the circuit closes on an answer, on a transport error and on a refusal that does not blame the account, and on nothing else |
| GatewayLaws.ServeLeft | backend/internal/service/gateway.go:538-571 | the record of the account tried: quota as reported by a success, parked with "subscription:free-usage-exhausted" for the quota window if that was the last of it, parked by a rotation, and untouched but for the request count otherwise |
| GatewayLaws.ExhaustTells | backend/internal/service/gateway.go:477-482 | the end of the loop without an answer: the circuit opens exactly if every attempt was a quota failure, and refuses at once unless its time is already past |
| Sse.RoundTrip | backend/internal/compat/tool_response.go:126-173 | parsing the concatenation of any list of printed clean frames returns exactly that list, as section 9.2.6 of the WHATWG HTML Living Standard has it |
| Sse.SurvivesIffClean | backend/internal/compat/sse.go:56-87 | a printed frame reads back as itself if and only if its name and data are newline-free and trimmed and not both empty |
| Sse.OneRoundTrip | backend/internal/compat/sse.go:56-87 | a clean frame reads back whatever follows it |
| Sse.ParseBounds | backend/internal/compat/sse.go:56-87 | a name read is always plain, and data lines cost more characters than they add |
| Sse.ParseAdvances | backend/internal/compat/sse.go:56-87 | every frame consumes input |
| Sse.Reader.ReadString | backend/internal/compat/sse.go:59-67 | the next line with its newline, or the rest |
| Sse.Reader.ReadEvent | backend/internal/compat/sse.go:56-87 | the line loop reads the frame that Parse describes and leaves what follows |
| Sse.ReadAll | backend/internal/compat/sse.go:40-54 | walking a document yields its frames |
| ToolAliases.RegisterAllInverse | backend/internal/compat/tool_compat.go:266-298 | over every sequence of registrations the two maps stay mutually inverse and names at most 128 long if and only if no new name was ever taken by another identity |
| ToolAliases.RegisterInverse | backend/internal/compat/tool_compat.go:266-298 | one registration keeps them inverse exactly when its name was free |
| ToolAliases.RegisterKeeps | backend/internal/compat/tool_compat.go:266-298 | from a name one always gets back to the name; a lost identity stays lost |
| ToolAliases.ClashIsHash | backend/internal/compat/tool_compat.go:282-291 | a name can only be taken if the hashed name is |
| ToolAliases.NamesStable | backend/internal/compat/tool_compat.go:273-276 | an identity's name never changes |
| ToolAliases.AllNamed | backend/internal/compat/tool_compat.go:266-298 | every registered identity has a name |
| ToolAliases.NamesDiffer | backend/internal/compat/tool_compat.go:266-298 | different identities have different names |
| ToolAliases.AliasLength | backend/internal/compat/tool_compat.go:300-317 | no name is longer than 128 |
| ToolAliases.KeyInjective | backend/internal/compat/tool_compat.go:61-63 | keys tell identities apart as long as namespaces contain no NUL |
| ToolAliases.KeyClash | backend/internal/compat/tool_compat.go:61-63 | another identity shares the key of one exactly if its namespace or its name contains a NUL |
| ToolAliases.KeyClashExample | backend/internal/compat/tool_compat.go:61-63 | with a NUL two different tools share a key |
| ToolAliases.ToolCompatibility.Alias | backend/internal/compat/tool_compat.go:266-298 | registers as specified and keeps the table invertible when the name was free |
| ToolAliases.ToolCompatibility.RegisterFunction | backend/internal/compat/tool_compat.go:232-237 | the same for a namespaced function |
| ToolRewrite.BodyRestored | backend/internal/compat/tool_response.go:325-355 | anywhere in a nested body, calls made under their aliases come back with the client's kind, namespace, name and arguments, shell calls as local_shell calls where the client declared that, and every object unrelated to the client's tools, foreign calls included, unchanged, if and only if no restored call's own name is another tool's alias |
| ToolRewrite.CallRestored | backend/internal/compat/tool_response.go:357-432 | the same for one call |
| ToolRewrite.RenamedTwiceExample | backend/internal/compat/tool_response.go:346-351 | the condition is needed: the last step renames a restored call a second time |
| ToolNames.RegisteredGood | backend/internal/compat/tool_compat.go:266-322 | every name given out is trimmed and not blank, and none reads apply_patch unless a custom tool is called so |
| ToolNames.RegisteredOwned | backend/internal/compat/tool_compat.go:266-322 | a custom tool called apply_patch always gets just that name, and nobody else ever gets one that reads so |
| ToolAliases.FreshForm | backend/internal/compat/tool_compat.go:266-323 | an identity gets the name it asks for (namespace and name joined by two underscores, or the gateway's own for its two tools) unless that is longer than 128 characters or leads to another identity; then as much of it as fits with nine digits of its hash |
| ToolsIdempotent.IdempotentIffSettled | backend/internal/compat/tools.go:205-523 | normalising the normalised tools succeeds with the same list if and only if no emitted function is called apply_patch or has an untrimmed description |
| ToolsExact.IdempotentExact | backend/internal/compat/tools.go:205-523 | read off the client's list, where neither the cap nor a doubled name drops a tool: normalising is idempotent if and only if no custom tool is called apply_patch and the search function's text is trimmed |
| ToolsExact.PatchResult | backend/internal/compat/tools.go:357-379 | a custom apply_patch ends up in the result under that name, through stripping and collapsing |
| ToolsExact.TextResult | backend/internal/compat/tool_search.go:54-67 | an untrimmed search text ends up in the result too |
| ToolsIdempotent.Idempotent | backend/internal/compat/tools.go:205-523 | so it is idempotent when no custom tool is called apply_patch and the search function's text is trimmed |
| ToolsIdempotent.NormalizeTidy | backend/internal/compat/tools.go:205-523 | a result has at most maxTools tools, all in the accepted forms, no two with one type and name, already collapsed |
| ToolsIdempotent.SearchOnce | backend/internal/compat/tools.go:605-669 | each search name belongs to at most one tool of the result, and that one is bare |
| ToolsIdempotent.NeverGrows | backend/internal/compat/tools.go:605-669 | every bare search tool put in front replaces at least one tool taken out |
| ToolsIdempotent.CollapseShrinks | backend/internal/compat/tools.go:605-669 | collapsing never makes the list longer |
| ToolsIdempotent.CollapseTwice | backend/internal/compat/tools.go:605-669 | collapsing twice is collapsing once |
| ToolsIdempotent.CustomPatchExample | backend/internal/compat/tools.go:357-379 | the condition is needed: a custom tool called apply_patch is renamed by the second pass |
| ToolsIdempotent.SearchTextExample | backend/internal/compat/tool_search.go:54-67 | the other condition is needed: a deferred description cut at a space leaves the search text untrimmed, and the second pass trims it |
| ToolsIdempotent.OneKept | backend/internal/compat/tools.go:274-482 | each tool of the list keeps the emitted list tidy |
| ToolsIdempotent.OneAgain | backend/internal/compat/tools.go:274-482 | an emitted tool is emitted again as it is |
| ToolsLoop.NormalizeTools | backend/internal/compat/tools.go:205-523 | the loops compute the specified result |
| ToolsLoop.CollapseTools | backend/internal/compat/tools.go:605-669 | the two passes compute the specified collapse |
| ToolsLoop.RestOf | backend/internal/compat/tools.go:645-667 | the second pass keeps every other tool once |
| ToolsLoop.StripTools | backend/internal/compat/tool_compat.go:489-514 | removes exactly the search tools |
| ToolsLoop.FindClientSearch | backend/internal/compat/tools.go:211-223 | accepts at most one client tool search |
| Tools.StripSearch | backend/internal/compat/tool_compat.go:489-514 | what is left is exactly the tools that are not search tools |
| ToolsContent.AcceptedExact | backend/internal/compat/tools.go:205-453 | a tool list is accepted exactly if its tool search, at most one, runs on the client and carries no constraint, and every tool in it can be honoured given the shells before it: the condition is read off the declared types and fields |
| ToolsContent.SearchSwitch | backend/internal/compat/tools.go:316-321 | search is switched off exactly if some declared web search forbids external access; then the backend is told false and no search tool is left in the result, not even a function called like one; otherwise the backend is told the last answer a web search gives, if any |
| ToolsContent.NormalizeTells | backend/internal/compat/tools.go:205-523 | the result read off the client's list: each tool is offered in order with its own name, text, schema and passed fields (or its alias, for namespaced, custom, patch and search tools), the first of each type and name is kept as far as the cap allows, and stripping or collapsing leaves exactly the tools that neither search nor repeat a function's name, after the bare search tools asked for |
| ToolsContent.OneEmits | backend/internal/compat/tools.go:250-472 | what a single declared tool contributes, in its own fields |
| ToolsContent.EmitTakes | backend/internal/compat/tools.go:228-249 | of everything offered exactly the first tool of each type and name is kept, in order, until the cap |
| ToolsContent.WalkLines | backend/internal/compat/tool_search.go:37-67 | the search function lists every deferred tool once, in order, by label and the beginning of its description |
| ToolsContent.CollapseLeaves | backend/internal/compat/tools.go:605-669 | stripping leaves exactly the tools that do not search; collapsing puts one bare tool per search asked for in front of exactly the others, each function name once |
| InputIdempotent.SanitizedTwice | backend/internal/compat/input.go:33-55 | a second sanitising, whatever tools and shell either pass is told of and whatever tools the history loads, makes up no id, drops nothing, is never empty, and gives the same history back if and only if its tools rename none of the history's functions and it knows of a native shell if the first did and kept a shell item |
| InputIdempotent.SanitizedTwiceFresh | backend/internal/compat/input.go:27-55 | without declared tools sanitising is idempotent, except exactly where shell items kept by a pass with a native shell meet one without |
| InputIdempotent.ItemForm | backend/internal/compat/input.go:57-181 | every kind of item comes out in one of the accepted forms |
| InputIdempotent.CleanedTwice | backend/internal/compat/input.go:186-455 | an item in its form is changed by a second pass in its name, or from a shell item to a function, and in nothing else |
| InputIdempotent.MessageStable | backend/internal/compat/input.go:293-341 | messages are cleaned once and for all |
| InputIdempotent.HistoryPairs | backend/internal/compat/input.go:57-181 | at any point of a history the open call ids are exactly the calls sent and not answered, in order |
| InputIdempotent.HistoryFills | backend/internal/compat/input.go:343-455 | the ids of the sanitised items are those of the history's calls and outputs, filled in |
| Input.SanitizeInput | backend/internal/compat/input.go:33-55 | the loop computes the specified history and final state |
| CallIds.OpenIsUnanswered | backend/internal/compat/tool_compat.go:193-229 | over any history the open list is the emitted call ids minus one occurrence per output |
| CallIds.FilledAt | backend/internal/compat/tool_compat.go:200-220 | a stated id is kept; an output without one takes the oldest unanswered call |
| CallIds.KthAnswersKth | backend/internal/compat/tool_compat.go:200-229 | in a history without ids the k-th output gets the k-th call's id for all k if and only if no output comes before its call |
| CallIds.UnbalancedOrphans | backend/internal/compat/tool_compat.go:216-220 | an output that comes too early gets an id no call will ever have |
| CallIds.OpenCalls.TakeCallId | backend/internal/compat/tool_compat.go:202-220 | removes the first occurrence, or takes the oldest, or makes up an id |
| CallIds.OpenCalls.EnsureCallId | backend/internal/compat/tool_compat.go:222-229 | keeps or makes up an id and opens it |
| ChatHistory.ChatPairs | backend/internal/compat/input.go:542-617 | in a chat without ids the k-th tool result answers the k-th call if and only if none comes too early |
| ChatHistory.ConvertFills | backend/internal/compat/input.go:542-640 | the converted items carry exactly the history's calls and results with every id filled in |
| ChatHistory.ChatMessagesToResponsesInput | backend/internal/compat/input.go:542-617 | the loop computes the specified items and instructions |
| ChatHistory.ConvertCalls | backend/internal/compat/input.go:568-573 | the inner loop converts the named calls |
| ChatHistory.ConvertOne | backend/internal/compat/input.go:555-611 | one message by role |
| CallIds.DropTells | backend/internal/compat/tool_compat.go:202-221 | answering a call takes its oldest id off the list and leaves every other one in its place |
| InputContent.HistoryTells | backend/internal/compat/input.go:33-56 | the history sent on is what its items are sent on as, in order: roles, texts, parts, arguments, outputs, statuses and ids arrive as stated or with the documented stand-in, and an empty history is one silent user turn |
| InputContent.ItemTells | backend/internal/compat/input.go:57-180 | a single item: what it is sent on as, in its own fields |
| InputContent.AllLoad | backend/internal/compat/tool_search.go:185-211 | loading tools from the history registers what the tools before the first bad one bring, and the good beginning of that one |
| InputContent.TablesTell | backend/internal/compat/input.go:343-430 | only tool search outputs and developer notes make tools known; any other item at most its own name |
| ChatContent.ConvertTells | backend/internal/compat/input.go:542-617 | the converted chat is what its messages stand for, in order: turns with role, text and name, named calls with name and arguments under the id they state, tool results with their output, an assistant's text before its calls; the instructions are the system texts that are not blank, trimmed |
| ChatContent.ResultsArrive | backend/internal/compat/input.go:593-599 | the outputs sent are exactly the contents of the tool messages, in order |
| Recovery.ChosenOldest | backend/internal/runtime/recovery.go:713-739 | a pass takes exactly the min(256, due) oldest-due accounts, ordered, and none left out comes first |
| Recovery.PassExact | backend/internal/runtime/recovery.go:713-752 | recovered, failed and skipped together are all accounts; exactly the chosen and saved accounts change; the due queue shrinks by the number recovered |
| Recovery.DrainsOnTime | backend/internal/runtime/recovery.go:691-752 | while saves succeed and nothing comes due, a backlog of n is gone after k passes exactly when k is at least n/256 rounded up |
| Recovery.PassesLeave | backend/internal/runtime/recovery.go:691-752 | each pass takes a full batch off the queue |
| Recovery.ReadyAllExact | backend/internal/runtime/recovery.go:799-813 | in the pool exactly the saved accounts join the ready ones, and the indexes stay exact |
| Recovery.SortedOrdered | backend/internal/runtime/recovery.go:725-738 | sorting orders the candidates |
| Recovery.Sorted | backend/internal/runtime/recovery.go:725-738 | and neither loses nor doubles one |
| Recovery.NotBeforeTransitive | backend/internal/runtime/recovery.go:726-738 | the comparison is a weak order |
| Recovery.RecoverQuota | backend/internal/runtime/recovery.go:691-752 | the pass leaves store, pool and tally as specified |
| Recovery.ReadyChosen | backend/internal/runtime/recovery.go:743-751 | the loop saves and readies the chosen accounts, skipping refused saves |
| Recovery.ListDue | backend/internal/runtime/recovery.go:713-724 | the filter loop finds the due accounts and counts the others |
| Recovery.SortDue | backend/internal/runtime/recovery.go:725-738 | sorts as specified |
| Recovery.Store.SaveAccount | backend/internal/runtime/recovery.go:799-808 | a refused save changes nothing |
| RecoveryTick.OnlyRipeReturn | backend/internal/runtime/recovery.go:842-947 | no tick, in whatever order its passes visit accounts, whatever upstream answers and whichever saves fail, puts a pooled account back into service that was neither ready nor due, if and only if the store has no record of it that a pass could lift while the pool's is not due |
| RecoveryTick.OnlyRipeMirrored | backend/internal/runtime/recovery.go:842-947 | when store and pool show the same standing: any account ready at the end of a tick, in store or pool, was ready or due at the start with reason cooldown, quota, validating or auth |
| RecoveryTick.DisabledStays | backend/internal/runtime/recovery.go:842-947 | a disabled account leaves the tick exactly as it entered it |
| RecoveryTick.VisitEvolves | backend/internal/runtime/recovery.go:87-601 | each pass's transition respects that |
| RecoveryTick.DisabledSkipped | backend/internal/runtime/recovery.go:127-601 | no pass ever touches a disabled account |
| RecoveryTick.StaleStoreExample | backend/internal/runtime/recovery.go:330-432 | it does happen: a parked account that the store still has ready is put back before its time by a token refresh |
| RecoveryLaws.ChosenTells | backend/internal/runtime/recovery.go:711-743 | a pass takes only accounts parked for quota whose deadline, if any, has come, at most 256 of them, and leaves one waiting only if all it takes have waited for longer (no deadline, then the earlier one, then the smaller id) |
| RecoveryLaws.PassRestores | backend/internal/runtime/recovery.go:691-752 | after a pass every chosen account whose save is accepted stands ready in the store with nothing of its window used, no reason, no deadline and no code, and otherwise as it was; so it does in the pool with its own requests in flight there, and it is available exactly as soon as they are below its limit; no other record is touched in either |
| RecoveryLaws.ReadyAllRestores | backend/internal/runtime/recovery.go:799-813 | readying accounts one after the other restores each of them in the pool and leaves the others alone |
| RecoveryLaws.VisitTells | backend/internal/runtime/recovery.go:87-604 | each visit of a tick: which records it takes up, that limits, priorities and request counters stay, that a record answered well is ready with nothing left of its failure, and under which reason, code and deadline every other one is parked, with its failures to authenticate counted |
| RecoveryLaws.VisitFiles | backend/internal/runtime/recovery.go:799-813 | a visit files its outcome in store and pool for that account only, and in neither if the save is refused |
| RecoveryLaws.PromotionFiles | backend/internal/runtime/recovery.go:824-840 | promotion files what became ready, in the pool always and in the store where the save was accepted |
| Basics.TrimTells | backend/internal/compat/tools.go:121-128 | trimming cuts a piece out of the text, and all that it leaves out at either end is white space |
| Basics.JoinTells | backend/internal/compat/input.go:613-615 | joined lists stand in order with the separator between any two |
| AnthropicFrames.DecimalTells | backend/internal/compat/anthropic_stream_responses.go:707-734 | the place numbers in the names given to the items of a final output are decimals that say the place |
| ToolRewrite.RewriteTells | backend/internal/compat/tool_response.go:325-432 | whatever the body, nothing is lost or moved, and every object at any depth is shown as the tool it stands for (found by its alias, else by a remembered call or item id), as a local_shell call, or as it is, never under an alias |
| PoolLaws.StepTells | backend/internal/scheduler/scheduler.go:160-783 | what each step of a run leaves behind in the records, the bindings, the settings and the leases |
| ChatStream.EncodeTells | backend/internal/compat/responses_stream.go:200-299 | every chunk is encoded once, in order, with nothing between |

## Left out

- AnthropicTheorem.PipeAgreesWithBatch: covers streams that send the items one after another, each under its own non-blank id; what is sent early of a text, of arguments or of a signature is a cutting of what the finished item carries, or absent.
- AnthropicTheorem.StreamingAgreesWithBatch: the random id is one fixed text per message, so that a response without an id agrees up to the id drawn; a tool input is compared after decoding, an invalid one counting as the empty object.
- AnthropicAgreement.FeedTook: the same restrictions for one item; an item with a blank id is placed under its output index or one default key, which the final output does not find again, and is left out.
- AnthropicRuns.PipeGrammar: a failing write to the client, which stops the translator at once, is not modelled.
- AnthropicTranslator.Pipe: a block is named by its key; that the map and the caller share one record of it is not captured.
- AnthropicBatch.ResponsesToAnthropic: works on decoded responses; nested spellings of a field are folded into one.
- ChatAgreement.StreamingAgreesWithBatch: every call with a name has an id of its own (without one each form draws a random id), and no piece of its arguments comes after its completion or under another call's id.
- ChatStream.ReadAll: the encoding of one chunk as a data frame is a parameter; closing the source early is left out.
- PoolRuns.RunValid: the scheduler's lock makes each operation one step; `revision` is unbounded, so a wrap after 2^64 changes is not modelled.
- Scheduler.Scheduler.TryAcquire: one turn of the acquire loop; the waiting between turns is the subject of `Wakeup`.
- Wakeup.NoMissedWakeup: one waiting caller; with several the channel of capacity one can drop a signal.
- Gateway.Gateway.Request: one clock reading per attempt, acquiring gives up instead of waiting when the pool is saturated, and audit records, error texts and token counts are left out; requests do not overlap, overlapping ones are runs in `PoolRuns`.
- Gateway.Gateway.Serve: saving usage to the store is best effort in the code and has no effect on the pool, so it is not modelled.
- GatewaySafety.RequestSafe: the copy of an account that is saved with new quota counters after a rotation is not modelled; the pool's own record does not get them.
- Sse.RoundTrip: the event type taken from a JSON payload is left out; frames carry the name they are printed with.
- ToolRewrite.BodyRestored: bodies are trees of values, rewritten into new trees rather than in place; restoring the visible tool list is left out, and so is holding back apply_patch frames while streaming.
- ToolAliases.RegisterAllInverse: the hash is any function; the theorem says exactly which collisions matter.
- ToolsIdempotent.IdempotentIffSettled: a tool is its decoded fields, with a schema reduced to whether it declares an operation; warning codes are left out, the nested `function` form of a tool is folded into the flat one, and the fixed descriptions of built-in functions are short stand-ins, of which only that they are trimmed matters.
- InputIdempotent.SanitizedTwice: an item is its decoded fields; of the tools a history loads only their aliases are modelled, and warning codes are left out.
- ChatHistory.ConvertFills: message content is the text or placeholder the content converter made of it; images are left out.
- Recovery.RecoverQuota: deferred counts, which the pass never sets, are left out.
- RecoveryTick.OnlyRipeReturn: passes are sequences of visits in any order, so their batch sizes, orders and worker counts play no role; which tokens are about to expire and which can be refreshed is given for the tick; refreshing tokens changes no modelled field, and probing quota upstream is not part of this model.
- RecoveryTick.OnlyRipeMirrored: one-way, for books that mirror each other; the exact condition for one account is `RecoveryTick.OnlyRipeReturn`.
- End-to-end restoring of tool names across two normalisations of one request, since the first discards its alias table.
- HTTP handlers, middleware, upstream and OIDC clients, configuration, tracing and the SQLite store: input and output around the core.
- Client key concurrency, the body cache, the cipher envelope, effort clamping, device authorisation and session rotation: they would add easier members only.
- The reasons and retry hints inside a selection error, and how they map to client errors: no state depends on them.
