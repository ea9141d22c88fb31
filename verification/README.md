# Verified model of the agent runtime, write approvals, SQL directory and build canonicalizers

This project models the parts of the repository that change state step by step and proves what they promise over
every run. It has five parts.

**Agent runtime** (`Types`, `Pairing`, `Input`, `Turn`, `TurnLaws`, `Budget`, `Context`, `Compaction`, `ContextLaws`,
`RunLog`, `Accounts`, `Requests`, `Round`, `Dispatch`, `RunState`, `Runner`, `RunLaws`). What a run is asked, its limits, the
provider, the tool executor, the context estimator, the compactor, cancellation and the deadline make up its
environment, and the last six are arbitrary functions. Cancellation and deadline are read at ticks,
and a guarded wait may still return its value after either was raised (`Env.pick`); only the explicit activity test is
definite. `Runner.Run` is proved for every such environment. A log holds the observer's events, the requests to the
provider, the provider's events and the calls handed to the executor; `RunLog.Replay` is a grammar over logs, defined
without the runner, and the lemmas about it and about the tallies of each round (`Accounts`) say what an observer may
conclude.

**Write approvals** (`WriteApprovals`, `ApprovalHistory`, `ApprovalDecisions`). The registry is a class; `ApprovalProtocol` is a step system of any number of
clients and a host in which every clock reading and every separately locked step may interleave with any other, with a
ledger of which authorization each pending approval came from. The clock only grows; a reading taken before the lock
is a step of its call, so it may be older than the clock when the lock is held, but never older than the call.

**SQL directory** (`SqlTree`). A tree maps paths to nodes, `rename` moves a subtree, and every step of a delete, a
write or a rename may fail on its own.

**Build canonicalizers** (`Manifest`, `ManifestLaws`, `ManifestTwice`, `ManifestPlain`, `TextDescriptor`). Byte-level loops against
specifications on lines.

**Event-stream decoding** (`Sse`). The resumable decoder against the flat list it must deliver, and the byte limiter.

## Findings

- Stripping a manifest is not idempotent for every input. If the last kept main-section line ends in a bare CR, the
  Class-Path after it is removed and the blank line behind it is a lone LF, then CR and LF become one terminator, the
  blank line disappears and the next section joins the main section. `ManifestTwice.BareCrDefeatsOnePass` gives such a
  manifest, `ManifestTwice.SecondPassFinds` the exact condition. It cannot happen when every CR is followed by LF
  ("Name-Value pairs and Sections" of the JAR File Specification allows a bare CR). The sanitizer parses what it wrote
  once more (scripts/CommunityClasspathSanitizer.java:592-598) and refuses such an output.
- The comment on `prepare` speaks of 80% of the budget; the code uses the configured percentage, and so does the model.
- A delete whose directory sync fails right after staging returns without moving the subtree back: it stays staged.
  `SqlTree.SqlDirectory.DeleteChild` states this case, and the exact condition for staying staged (`FinalPlace`).
- The second inspection of `atomic_write_in_root` stops only a replacement; for a new file a failing inspection counts
  as "not there" and the write goes on (apps/chat2db-desktop/src/legacy_files.rs:797).

## Reading the model

- The modules named `…Laws`, `…Plain` and `…Decisions` say what the operations mean with numbers, bytes, texts, roles
  and positions written out, without the functions that the operations are defined by.
- A Rust string is a `string` with one character per UTF-8 byte, so lengths are byte lengths. `usize` and `u64` are
  64-bit (`word`); saturation and checked addition are written out.
- Tool arguments are the serialized text, whose length is what the size limit tests.
- Error codes are a datatype; messages are kept only where the source fixes them.
- A run without an event receiver is the case of an emission that is never interrupted.
- `AtomicWrite` asks that the temporary name differ from the target's: the source's temporary names end in `.tmp`,
  while all its callers name supported text files.

## Model

| member | source | states |
|---|---|---|
| Runner.Run | crates/chat2db-agent/src/runner.rs:189-541 | For every environment and input: an invalid input is reported and nothing else is observable; otherwise the whole log fits the trace grammar (each request is the input edited by the reported compactions and extended by the delivered transcripts, each event received is the next of the provider, only calls of whole and validated streams are dispatched, each settlement is the answer of the executor), ends with one terminal event that agrees with the result, input plus delivered transcripts are again paired, every request was paired, within the role and size rules and the budget, kept all System messages in order and ended with the open turn and all that had been delivered, limits bound the dispatches, their ticks increase and lie within the run, no call id was dispatched twice, a success returns the counts, context and usage of the log and generated messages that are a suffix of the final context, and a failure has its cause: the answer of the executor, an interruption raised before the end, or exactly what the provider, the stream or the budget refused |
| Runner.ExecuteRun | crates/chat2db-agent/src/runner.rs:213-541 | The round loop ends in one of the two exits with all their promises, the failing one with the cause of its error, under the grammar that ties the log to the provider, the executor and the tools of the input; the error after the loop is unreachable |
| Runner.RunRound | crates/chat2db-agent/src/runner.rs:235-538 | One round from a sound state either finishes the run with the promises of an exit, including why it failed, or re-establishes the state every round starts from: pairing, fresh ids, and counters, context and usage equal to those of the log |
| Runner.OpenRound | crates/chat2db-agent/src/runner.rs:236-270 | After any compaction the context sent to the provider is paired, within budget and still ends with the open turn and everything generated; the stream returned is the answer of the provider to exactly that request, and a failure has its cause |
| Runner.ToolRound | crates/chat2db-agent/src/runner.rs:403-537 | A tool round either continues with all calls answered by the executor or stops with one closed transcript and the error that the failure on record or an interruption gives, and the state stays sound |
| Runner.Answer | crates/chat2db-agent/src/runner.rs:364-398 | A round without calls delivers its message once and returns counts, text and messages that agree with the log |
| Runner.RoundDelivered | crates/chat2db-agent/src/runner.rs:364-537 | Delivering the messages of a round keeps pairing of input plus transcript, freshness of dispatched ids and the dispatch limits |
| Runner.NoDispatchAfterInterruption | crates/chat2db-agent/src/runner.rs:597-606 | Ticks of dispatches increase along the log; with interruptions that are never withdrawn, a dispatch means that none had been raised at or before its tick |
| Runner.UnknownOutcomeIsReported | crates/chat2db-agent/src/runner.rs:463-481 | In every run an unknown outcome answered by the executor is the tool error that the run returns, and the log ends with its code, whatever else was interrupted |
| Runner.EverySettlementIsTheAnswer | crates/chat2db-agent/src/runner.rs:436-505 | Every dispatched call is settled by the next entry, which reports exactly what the executor answered |
| Runner.FailureIsReported | crates/chat2db-agent/src/runner.rs:463-512 | A failure answered by the executor is the last dispatch and decides the error: the tool error if its outcome is unknown or the run was active when it settled, the interruption otherwise |
| Runner.ErrorsAreTrue | crates/chat2db-agent/src/runner.rs:579-606 | A run that reports cancellation or the deadline had it raised before its end, a reported tool error was answered by the executor, and a context over budget exceeds it with every compactable turn gone |
| RunLaws.TerminalAgrees | crates/chat2db-agent/src/runner.rs:197-210 | The last entry of every run agrees with its result: the counts of a success, or RunFailed with the code of the very kind of the error returned, all sixteen written out |
| RunLaws.ErrorCodes | crates/chat2db-agent/src/runner.rs:835-857 | Every error kind has its own code |
| RunLaws.TranscriptsTellAll | crates/chat2db-agent/src/runner.rs:403-535 | In every delivered transcript the message of a dispatched call carries the output the executor answered, or for a failure the literal text of its outcome; every other call has the literal NotStarted text; a stopped turn ends with the literal marker |
| RunLaws.SettlementsInPlainTerms | crates/chat2db-agent/src/runner.rs:441-495 | The entry after a dispatch is ToolCompleted with the output the executor answered, or ToolFailed with its failure |
| RunLaws.FailuresInPlainTerms | crates/chat2db-agent/src/runner.rs:463-505 | The error a failure gives: itself if unknown, else the deadline if it had passed when the call settled, else cancellation if raised, else itself |
| RunLaws.CompletionsInPlainTerms | crates/chat2db-agent/src/runner.rs:344-352 | A round completes with the reason its provider gave, and the reason names tool calls exactly if a call was received |
| RunLaws.EventsAreShown | crates/chat2db-agent/src/runner.rs:307-343 | A received text or usage event is followed by its trace event unless the run ends there |
| RunLaws.CallErrorsAreTrue | crates/chat2db-agent/src/runner.rs:316-327 | A run that ends with an error about a call received that call last, and it breaks exactly the rule the error names |
| RunLaws.ChecksInOrder | crates/chat2db-agent/src/runner.rs:316-327 | A call is checked for its tool, its size, its id, the round limit and the total limit, in this order |
| RunLaws.StreamErrorsAreTrue | crates/chat2db-agent/src/runner.rs:278-286 | A run that a stream ended had received just what the error says: no completion, two, a late event, a reason without calls, or the error the provider yielded |
| RunLaws.TextLimitIsTrue | crates/chat2db-agent/src/runner.rs:289-296 | A run that ends for too much text received more than the limit with its last event and not before |
| RunLaws.RoundLimitIsTrue | crates/chat2db-agent/src/runner.rs:399-401 | A run that ends at the round limit made exactly that many requests |
| RunLaws.NoCallTwice | crates/chat2db-agent/src/runner.rs:229-230 | No call id is dispatched twice or taken from a call of the input, and dispatch ticks increase up to the end of the run |
| RunLaws.DispatchesInPlainTerms | crates/chat2db-agent/src/runner.rs:423-440 | No call is dispatched at a tick at which the run is cancelled or past its deadline, nor after one was raised |
| RunLaws.EventsInPlainTerms | crates/chat2db-agent/src/runner.rs:277-280 | Every received event is the item the provider yields next, and a completed round received every item and no error |
| RunLaws.PairingInPlainTerms | crates/chat2db-agent/src/runner.rs:719-787 | Every request, and input plus everything delivered, has no id called or answered twice, each result after its call and each call answered; every request ends with the input from its last user message on and all delivered before it |
| RunLaws.RequestsFit | crates/chat2db-agent/src/context.rs:90-174 | Every request is within the byte and token limits, in numbers |
| RunLaws.ResultsInPlainTerms | crates/chat2db-agent/src/runner.rs:390-397 | A success returns, at the end of its messages, the input from its last user message on and then everything delivered |
| RunLaws.UsageInPlainTerms | crates/chat2db-agent/src/types.rs:608-629 | The reported total covers input and output tokens or is the largest word |
| RunLaws.UsageFromNothing | crates/chat2db-agent/src/types.rs:600-629 | Usage starts at zero, and a single report counts as it is |
| Runner.CountsAreReal | crates/chat2db-agent/src/runner.rs:315-440 | Reported rounds and tool calls equal the numbers of provider requests and executor calls in the log, and the usage is the reports of each round merged and the rounds accumulated; executor calls are at most the total limit and at most (rounds - 1) times the per-round limit, and no call id is executed twice or reused from the input |
| Runner.EveryRequestIsExact | crates/chat2db-agent/src/runner.rs:236-270 | Every request is exactly the input edited by the compactions reported before it and extended by the transcripts delivered before it, and it ends with the open turn and all of those transcripts |
| Runner.EveryDispatchIsValidated | crates/chat2db-agent/src/runner.rs:315-440 | Every executed call names a tool of the input, has arguments within the limit and is the next call of a stream of which all that the provider yielded had been received and validated; no round executes more calls than its limit |
| Runner.EveryEventIsTheProviders | crates/chat2db-agent/src/runner.rs:264-350 | Every event received is the next one the provider yields for the request of its round, and a round that completes received all of them |
| Runner.SummariesAreKept | crates/chat2db-agent/src/context.rs:222-238 | The System messages of each request, summaries included, are a subsequence of those of every later one |
| RunState.InitialContext | crates/chat2db-agent/src/runner.rs:221-235 | A valid input starts the run with a live, paired context |
| RunState.PrepareKeepsContext | crates/chat2db-agent/src/context.rs:83-186 | Whatever compaction does between rounds, the context stays paired, role-correct, keeps every System message in order and ends with the open turn and all generated messages |
| RunState.PrepareIsReported | crates/chat2db-agent/src/context.rs:135-185 | The context that compaction leaves is the old one with exactly the reported range replaced by exactly the reported summary, or unchanged where nothing is reported |
| RunState.ContextGrows | crates/chat2db-agent/src/runner.rs:536-537 | Appending a round of fresh, answered calls keeps the context live |
| RunState.DurableGrows | crates/chat2db-agent/src/runner.rs:513-537 | Appending a round keeps input plus transcript paired even where earlier calls were compacted out of the context |
| RunState.TurnCloses | crates/chat2db-agent/src/context.rs:240-265 | A record that ends with an assistant message makes the open turn a complete turn, so a later run may compact it |
| RunState.DurableReplays | crates/chat2db-agent/src/runner.rs:719-787 | Input plus delivered transcript passes the role and pairing clauses of input validation again |
| RunLog.SettlementIsPreceded | crates/chat2db-agent/src/runner.rs:406-505 | Every settlement directly follows the dispatch of its call, which directly follows its ToolStarted, made while the run was active |
| RunLog.DispatchIsSettled | crates/chat2db-agent/src/runner.rs:436-505 | In a finished log every dispatched call is settled by the very next entry, which reports exactly the answer of the executor |
| RunLog.TerminalIsLast | crates/chat2db-agent/src/runner.rs:189-210 | Exactly one terminal event, and it is the last entry |
| RunLog.NothingAfterFailure | crates/chat2db-agent/src/runner.rs:463-512 | Once the executor has answered a call with a failure nothing more is dispatched |
| RunLog.OneTranscriptPerRound | crates/chat2db-agent/src/runner.rs:364-538 | Transcripts are delivered for strictly increasing rounds |
| RunLog.TranscriptFollows | crates/chat2db-agent/src/runner.rs:364-535 | Every round that asked for tools and is not the last allowed one delivers its transcript before the run ends, also if it stops before its first dispatch |
| RunLog.StreamEndsBeforeDispatch | crates/chat2db-agent/src/runner.rs:277-440 | Once a call of a round is dispatched no provider event of that round is read any more; that the stream was validated is Accounts.DispatchIsValidated |
| RunLog.FailureIsOnRecord | crates/chat2db-agent/src/runner.rs:463-523 | A failure answered by the executor is on record when the log ends, the log ends in failure, and with the tool-error code if the outcome is unknown |
| RunLog.FailedIsLogged | crates/chat2db-agent/src/runner.rs:463-505 | A failure on record is the answer of the executor to a dispatched call of the log |
| RunLog.CompletionCounts | crates/chat2db-agent/src/runner.rs:380-397 | The completion event reports exactly the requests and dispatches of the log |
| RunLog.ViewSummarizes | crates/chat2db-agent/src/runner.rs:364-538 | What the grammar reader accumulates is exactly what the log dispatched, delivered and requested, and its context is the input as the log edits and extends it |
| RunLog.RequestsAreContexts | crates/chat2db-agent/src/runner.rs:236-262 | Every request of an accepted log equals the context at that point, and every reported compaction range starts at its first user message, ends before another, holds no System message and closes its own calls |
| Requests.SystemsAreKept | crates/chat2db-agent/src/context.rs:222-238 | The System messages of a request are in every later request, in order |
| Accounts.TranscriptAccounts | crates/chat2db-agent/src/runner.rs:403-535 | Every delivered transcript is the assistant message of the events received in its round, the results in dispatch order exactly as the settlement events reported them, and one NotStarted result, with id and tool name, for each call of that stream that was not dispatched, with the closing marker whenever there are such calls |
| Runner.EveryTranscriptAccounts | crates/chat2db-agent/src/runner.rs:403-535 | The same for every run of the runner, for every transcript in its log |
| Accounts.LogAccounts | crates/chat2db-agent/src/runner.rs:403-512 | The ledger behind it, for every prefix of every accepted log: what each round received, dispatched, settled and reported agrees with the phase, and the accumulated usage with the reports |
| Accounts.DispatchIsValidated | crates/chat2db-agent/src/runner.rs:277-440 | At every dispatch the events received in its round are all that the provider yielded for the request, form a completed, validated stream, and the call is the next of that stream |
| Accounts.ReceivedFromProvider | crates/chat2db-agent/src/runner.rs:277-280 | Every received event is the next item of the answer of the provider to the request of its round |
| Accounts.RoundIsWhole | crates/chat2db-agent/src/runner.rs:346-362 | A round completes only when the whole answer has been received, completed and validated |
| Accounts.RoundIsBounded | crates/chat2db-agent/src/runner.rs:317-327 | No round dispatches more calls than one round may ask for |
| Accounts.UsageIsReported | crates/chat2db-agent/src/runner.rs:334-349 | The usage of a completed run is the accumulation over its rounds of the merged usage events of each |
| Dispatch.DispatchTools | crates/chat2db-agent/src/runner.rs:403-515 | The executed calls are a prefix of the requested ones in order, their results are the answers of the executor and all others are NotStarted, and a stop leaves exactly the closed transcript to deliver and its error is the one the failure on record or a raised interruption gives |
| Dispatch.RunCall | crates/chat2db-agent/src/runner.rs:406-512 | One iteration: the answer of the executor, and all NotStarted results appended when it stops |
| Dispatch.SettleCall | crates/chat2db-agent/src/runner.rs:436-505 | Handing over one call and settling it: the result and the phase are those of the answer of the executor, a failure goes on record, and the error follows from it or from an interruption |
| Dispatch.AfterSettlement | crates/chat2db-agent/src/runner.rs:621-643 | A settlement event is delivered exactly once even if its emission is interrupted |
| Round.ReadStream | crates/chat2db-agent/src/runner.rs:271-352 | A stream is accepted only if it is all the provider yielded, complete and admissible, and then the reply is its text, calls, merged blocks and merged usage; every error says which event, missing event or interruption caused it |
| Round.Absorb | crates/chat2db-agent/src/runner.rs:287-345 | One event keeps the variables equal to their meaning on the events read, or is refused exactly for a broken limit, a bad call or an interruption |
| Round.AdmitCall | crates/chat2db-agent/src/runner.rs:315-330 | A call that passes the checks keeps the stream admissible |
| Round.CallRefused | crates/chat2db-agent/src/runner.rs:315-330 | A call that fails one of them makes the stream inadmissible |
| Turn.AssistantIsMergedStream | crates/chat2db-agent/src/runner.rs:288-333 | The assistant message is the event stream with adjacent text merged: same content in the same order, no two text blocks in a row |
| Turn.AssistantText | crates/chat2db-agent/src/runner.rs:390-397 | Its text blocks concatenate to the reported text |
| Turn.AssistantCalls | crates/chat2db-agent/src/runner.rs:315-333 | Its call blocks are the requested calls in order, and it holds no result |
| TurnLaws.BlocksAroundPart | crates/chat2db-agent/src/runner.rs:315-333 | A call or continuation is one block between the blocks of what came before and after |
| TurnLaws.BlocksOfText | crates/chat2db-agent/src/runner.rs:297-306 | A stretch of text is one block with all of it |
| TurnLaws.BlocksSkip | crates/chat2db-agent/src/runner.rs:334-345 | Usage and completion leave no trace in the message |
| TurnLaws.TextLaws | crates/chat2db-agent/src/runner.rs:288-297 | The text of a stream is that of its deltas, one after the other |
| TurnLaws.CallsLaws | crates/chat2db-agent/src/runner.rs:315-330 | The calls of a stream are those requested, one after the other |
| TurnLaws.MessagesInPlainTerms | crates/chat2db-agent/src/runner.rs:670-691 | The result message holds id, name and output of the call; the three texts and the marker are the literal ones |
| Turn.TurnBalances | crates/chat2db-agent/src/runner.rs:403-515 | A turn of fresh answered calls opens and closes exactly its own calls |
| Turn.TurnRoles | crates/chat2db-agent/src/runner.rs:670-691 | Its messages obey the role and size rules and none is a user or system message |
| Input.ValidateInput | crates/chat2db-agent/src/runner.rs:693-789 | Lets an input through exactly when it is valid |
| Input.ValidInPlainTerms | crates/chat2db-agent/src/runner.rs:693-789 | What validity means, role by role and block by block, with the pairing written out over positions |
| Input.CheckMessages | crates/chat2db-agent/src/runner.rs:719-787 | Accepts exactly the role-correct, paired message lists; a refusal names a message at fault or an unanswered call |
| Input.CheckMessage | crates/chat2db-agent/src/runner.rs:721-781 | One message by its role: accepts exactly on role, size and ledger, and returns the new ledger |
| Input.CheckAssistant | crates/chat2db-agent/src/runner.rs:734-767 | The block loop of one assistant message: accepts exactly on role, size and ledger, and returns the new ledger |
| Pairing.PairedMeaning | crates/chat2db-agent/src/runner.rs:719-787 | The scanned ledger balances exactly when call ids are unique, results are unique and follow their calls, and every call is answered |
| Pairing.CutKeepsLedger | crates/chat2db-agent/src/context.rs:247-265 | Cutting out a stretch that closes all it opens keeps the rest balanced |
| Pairing.PendingIsOpenCalls | crates/chat2db-agent/src/context.rs:247-265 | The pending set of the completeness test is the set of calls the stretch itself left open |
| Context.Prepare | crates/chat2db-agent/src/context.rs:83-186 | The splice-or-drain procedure, with ranges recomputed after each drain, equals the one-cut specification |
| ContextLaws.PrepareDecides | crates/chat2db-agent/src/context.rs:90-95 | prepare leaves the context alone exactly if no dimension has reached its share, over the integers |
| ContextLaws.CauseInIntegers | crates/chat2db-agent/src/context.rs:208-220 | The reported cause names exactly the dimensions that reached their share |
| ContextLaws.PrepareFits | crates/chat2db-agent/src/context.rs:99-112 | A success fits both limits in numbers; the budget error means one is exceeded |
| ContextLaws.SummaryIsUsed | crates/chat2db-agent/src/context.rs:116-145 | A summary is used exactly if the compactor, asked about exactly the compactable turns, gave a text that is not blank, at most 64 KiB, and brings the context below the threshold |
| ContextLaws.SummaryIsExact | crates/chat2db-agent/src/context.rs:127-145 | A used summary replaces exactly the span by one System message with the literal heading and the text, and is reported with its span and turns |
| ContextLaws.FlagIsExact | crates/chat2db-agent/src/context.rs:146-185 | The failure flag of a trim is set exactly if a compactor was asked |
| Context.Trim | crates/chat2db-agent/src/context.rs:153-185 | The drain loop ends and equals a single cut of the first turns of the original list |
| Context.CollectCompactableTurns | crates/chat2db-agent/src/context.rs:222-238 | The scan over user indices finds exactly the leading removable turns |
| ContextLaws.TurnsInPlainTerms | crates/chat2db-agent/src/context.rs:222-238 | The ranges are consecutive turns from the first user message on, each between two neighbouring user messages, without System message, ending with an assistant message and with its tool pairs closed, and no further one follows |
| ContextLaws.PairsInPlainTerms | crates/chat2db-agent/src/context.rs:247-265 | Tool pairs are complete exactly if each call finds its id closed, each result finds it open, and none is left open |
| Context.CollectUsers | crates/chat2db-agent/src/context.rs:222-228 | All and only the indices of user messages, in order |
| Context.CheckToolPairs | crates/chat2db-agent/src/context.rs:247-265 | The pending-set loop decides whether a stretch closes all it opens |
| Context.TurnsAfterTrim | crates/chat2db-agent/src/context.rs:156-174 | Ranges recomputed after a cut are the remaining original ranges moved down |
| Context.DrainOneMore | crates/chat2db-agent/src/context.rs:156-174 | One more drain of the first recomputed range cuts one more original turn |
| Compaction.TrimIsExactAndShortest | crates/chat2db-agent/src/context.rs:153-185 | The list loses exactly the reported range, which is the first removed turns of the original, and no shorter prefix of them would have gone below the threshold |
| Compaction.PrepareWithinBudget | crates/chat2db-agent/src/context.rs:90-185 | Every successful return leaves the context within the hard budget |
| Compaction.BudgetErrorMeansNothingLeft | crates/chat2db-agent/src/context.rs:97-173 | The budget error means that every compactable turn is gone and the rest still exceeds the budget |
| Compaction.UselessSummaryIsNoSummary | crates/chat2db-agent/src/context.rs:114-185 | A failing, blank, oversized or insufficient summary gives the messages and result of having no compactor, except for the flag |
| Compaction.PrepareReplaces | crates/chat2db-agent/src/context.rs:83-186 | Any outcome replaces one stretch of complete turns by nothing or one summary |
| Compaction.ReplacementKeepsPairing | crates/chat2db-agent/src/context.rs:128-169 | Such a replacement keeps pairing and adds no call id |
| Compaction.ReplacementKeepsCurrentTurn | crates/chat2db-agent/src/context.rs:222-238 | Nothing from the last user message on is touched |
| Compaction.ReplacementKeepsSystems | crates/chat2db-agent/src/context.rs:128-169 | System messages keep their order and none is lost, so a summary is never compacted again |
| Budget.ExceededReachesThreshold | crates/chat2db-agent/src/types.rs:701-716 | Exceeding a valid budget implies reaching its threshold, although the multiplications saturate |
| Budget.ThresholdInIntegers | crates/chat2db-agent/src/types.rs:701-708 | The threshold over the integers: a dimension is reached iff used times 100 is at least its limit times the percentage, or at least the largest word |
| Budget.NewBudget | crates/chat2db-agent/src/types.rs:667-685 | Accepts exactly nonzero limits and a share from 1 to 100 |
| Budget.MergeOrderIrrelevant | crates/chat2db-agent/src/types.rs:608-616 | The merged usage of a round depends only on which reports arrived |
| Budget.MergeAllCovers | crates/chat2db-agent/src/types.rs:608-616 | The merged total stays at least the saturating sum of input and output |
| Budget.AccumulateCovers | crates/chat2db-agent/src/types.rs:618-629 | So does the accumulated total, although the three sums saturate separately |
| Budget.UsageMeter.Merge | crates/chat2db-agent/src/types.rs:609-616 | The new value is the least usage that is not below the old value or the newer report and whose total covers its parts |
| Budget.UsageMeter.Accumulate | crates/chat2db-agent/src/types.rs:618-628 | Each field is the exact sum or, where that is no word, the largest word; covering of both operands carries over |
| Budget.LeastCoverIsUnique | crates/chat2db-agent/src/types.rs:609-616 | There is only one such least covering usage, so it determines the merge |
| WriteApprovals.Registry.Issue | apps/chat2db-mcp/src/lib.rs:134-183 | Refuses a blank request untouched and a full registry after purging; otherwise adds exactly one binding, under the first drawn token whose digest is free |
| WriteApprovals.Registry.Consume | apps/chat2db-mcp/src/lib.rs:185-199 | True exactly for a well-shaped token with an unexpired exact match; the approval found is gone whatever the answer, and nothing else is |
| WriteApprovals.Registry.ConsumeMatching | apps/chat2db-mcp/src/lib.rs:201-215 | Succeeds exactly when a live exact match is pending, and takes one such approval |
| WriteApprovals.ApprovalsInPlainTerms | apps/chat2db-mcp/src/lib.rs:151-152 | An approval is live strictly before it expires, and matches on equal datasource and digest |
| WriteApprovals.TokensInPlainTerms | apps/chat2db-mcp/src/lib.rs:186-188 | A token is 64 hexadecimal digits of either case |
| WriteApprovals.ObtainApproval | apps/chat2db-mcp/src/lib.rs:254-290 | Undisturbed, a request is allowed exactly if a live match was pending or the user confirmed and the approval minted for it is redeemed within its lifetime, and it leaves no approval behind |
| WriteApprovals.IssuedApprovalIsRedeemable | apps/chat2db-mcp/src/lib.rs:281-289 | An issued approval is redeemed by its own token exactly within its lifetime, leaving what was live before it |
| ApprovalProtocol.StepKeepsInv | apps/chat2db-mcp/src/lib.rs:254-290 | Every step of every client and of the host, with each clock reading and each locked section a step of its own, keeps the ledger invariant |
| ApprovalProtocol.ApprovalsAreConserved | apps/chat2db-mcp/src/lib.rs:254-290 | At every point of every interleaving, for each datasource and SQL digest, writes allowed plus approvals pending are at most host preapprovals plus confirmed elicitations, and at most 256 are pending |
| ApprovalHistory.EveryWriteWasApproved | apps/chat2db-mcp/src/lib.rs:185-216 | For every write of every interleaving there are steps at which its request began, at which that request read the clock (the redeeming step itself for a token) and at which it was let through; at that reading the binding it used, pending until then and gone after, matched it exactly and was younger than one lifetime counted from the clock that the call issuing it had read; its authorization was given before and served no other write |
| ApprovalHistory.PendingIssued | apps/chat2db-mcp/src/lib.rs:134-183 | Every pending approval was put there by a preapproving or minting step, and expires one lifetime after the clock reading of that same call |
| ApprovalProtocol.WritesAreDistinct | apps/chat2db-mcp/src/lib.rs:185-216 | No two writes used the same authorization, and each matched its own exactly |
| ApprovalHistory.AuthorizationGiven | apps/chat2db-mcp/src/lib.rs:254-280 | Every authorization was given by a host for what its call asked, or by a user who confirmed what its request asked after no approval matched and the client offered a form |
| ApprovalDecisions.MatchDecides | apps/chat2db-mcp/src/lib.rs:201-215 | A request is let through at once exactly if an unexpired exact match is pending, else its user is asked if the client supports forms |
| ApprovalDecisions.MintDecides | apps/chat2db-mcp/src/lib.rs:134-183 | A confirmation becomes an approval exactly if the request is not blank and fewer than 256 approvals are live |
| ApprovalDecisions.RedeemDecides | apps/chat2db-mcp/src/lib.rs:185-199 | A token lets its request through exactly if its approval is pending, unexpired and matches |
| ApprovalDecisions.PreapproveDecides | apps/chat2db-mcp/src/lib.rs:97-103 | A host authorizes exactly under the same conditions |
| ApprovalDecisions.NoRequestGetsStuck | apps/chat2db-mcp/src/lib.rs:254-290 | In every state each unfinished request can take its next step |
| SqlTree.SqlDirectory.DeleteChild | apps/chat2db-desktop/src/legacy_files.rs:309-375 | For every pattern of step failures: exactly which of the three places the subtree ends in, said place by place, exactly when the staging directory is left behind, exactly when the call succeeds, and that everything else is unchanged |
| SqlTree.SqlDirectory.TrashStaged | apps/chat2db-desktop/src/legacy_files.rs:358-370 | The half after staging: in the Trash, moved back, or still staged when the move back fails |
| SqlTree.ExactlyOnePlace | apps/chat2db-desktop/src/legacy_files.rs:339-375 | The three places exclude each other, each holds the whole subtree, and everything else is what it was |
| SqlTree.StagingSteps | apps/chat2db-desktop/src/legacy_files.rs:339-368 | What each rename and directory removal of the delete does, including that a full staging directory cannot be removed |
| SqlTree.SqlDirectory.AtomicWrite | apps/chat2db-desktop/src/legacy_files.rs:770-812 | The resulting tree for every pattern of step failures: the target alone rewritten exactly when the rename is reached and succeeds, one leftover temporary file exactly when the write failed after creating it and its removal failed too, the old tree otherwise; a success had at most 16 MiB, a directory as parent, and a missing target or, when replacing, a file |
| SqlTree.WriteSteps | apps/chat2db-desktop/src/legacy_files.rs:785-806 | Renaming the temporary file over the target writes the target and nothing else; removing it restores the tree |
| SqlTree.SqlDirectory.RenameChild | apps/chat2db-desktop/src/legacy_files.rs:249-297 | For every pattern of step failures: the whole subtree at the free sibling name, or the old tree |
| SqlTree.RenameIsReversible | apps/chat2db-desktop/src/legacy_files.rs:249-297 | Renaming back restores the tree, and the subtree moves as a whole |
| SqlTree.MoveBackRestores | apps/chat2db-desktop/src/legacy_files.rs:358-364 | Moving a subtree to a free place and back restores any tree |
| Manifest.Strip | scripts/CommunityClasspathSanitizer.java:519-567 | Writes the kept lines, and refuses exactly when there is nothing to remove |
| Manifest.ReadLine | scripts/CommunityClasspathSanitizer.java:526-542 | One step of the scanner: the content up to the first terminator and the line with CR LF, CR or LF |
| Manifest.CheckClassPathHeader | scripts/CommunityClasspathSanitizer.java:569-589 | Recognizes the header in any case with its colon |
| ManifestPlain.HeaderInPlainTerms | scripts/CommunityClasspathSanitizer.java:571-589 | A header is a line that starts with the bytes of Class-Path in either case and a colon, byte by byte |
| ManifestPlain.LinesInPlainTerms | scripts/CommunityClasspathSanitizer.java:526-549 | Blank, continuation and terminated lines by their bytes: 13, 10 and 32 |
| ManifestLaws.LinesPartition | scripts/CommunityClasspathSanitizer.java:525-542 | The lines concatenate back to the manifest, only the last may lack a terminator, and no two of them fuse |
| ManifestLaws.ResplitIffJoinable | scripts/CommunityClasspathSanitizer.java:525-542 | Lines are recovered from their concatenation exactly when no line ending in a bare CR is followed by one starting with LF |
| ManifestLaws.StrippedMeaning | scripts/CommunityClasspathSanitizer.java:519-567 | The output is the lines that are not a main-section Class-Path header or its continuation; there is something to remove exactly when the main section has such a header |
| ManifestLaws.ModeMeaning | scripts/CommunityClasspathSanitizer.java:521-561 | What the two flags of the loop mean before each line |
| ManifestTwice.SectionsUntouched | scripts/CommunityClasspathSanitizer.java:543-548 | From the first blank line on the output is the input |
| ManifestTwice.OutputResplits | scripts/CommunityClasspathSanitizer.java:519-567 | The output splits into the kept lines exactly when the blank line is not swallowed |
| ManifestTwice.SecondPassFinds | scripts/CommunityClasspathSanitizer.java:519-567 | A second pass removes something exactly when the blank line after the main section is swallowed and the section behind it has a Class-Path header |
| ManifestTwice.StrippingIsComplete | scripts/CommunityClasspathSanitizer.java:519-567 | When every CR is followed by LF, the output splits into the kept lines, its main section has no Class-Path, and a second pass is refused |
| ManifestTwice.BareCrDefeatsOnePass | scripts/CommunityClasspathSanitizer.java:519-567 | A concrete manifest, with a version line ended by a bare CR, on which a second pass does remove something |
| TextDescriptor.CanonicalText | scripts/CommunityClasspathSanitizer.java:403-432 | Refuses exactly the texts with a bare CR or a mix of endings, and otherwise collapses CR LF to LF |
| TextDescriptor.AcceptedForms | scripts/CommunityClasspathSanitizer.java:403-432 | Accepted are exactly the LF and CR LF forms of texts without CR, and both map to that text |
| TextDescriptor.CanonicalIsStable | scripts/CommunityClasspathSanitizer.java:403-432 | The result has no CR and is accepted unchanged; expanding LF recovers a CR LF input |
| Sse.Decoder.Next | crates/chat2db-agent/src/sse.rs:48-97 | Each poll yields the next item of the flat list and nothing else, then nothing; the object invariant says that finish runs at most once and only after the source ended |
| Sse.Decoder.constructor | crates/chat2db-agent/src/sse.rs:29-47 | A new decoder still has the whole flat list to deliver |
| Sse.Collect | crates/chat2db-agent/src/sse.rs:48-97 | Polling to the end gives all push outputs up to the first stop and then the ending of that stop |
| Sse.DecodedInPlainTerms | crates/chat2db-agent/src/sse.rs:58-92 | What stops a stream gives its last item: cancellation for a cut wait, the error of the assembler for a refused event or finish, the transport error, or bad framing |
| Sse.CancelledMeansCut | crates/chat2db-agent/src/sse.rs:58-62 | A stream says it was cancelled only if a wait was cut or the assembler or the transport said so |
| Sse.OnlyTheLastIsAnError | crates/chat2db-agent/src/sse.rs:58-92 | At most one error, and nothing after it |
| Sse.NoErrorMeansComplete | crates/chat2db-agent/src/sse.rs:63-92 | A stream without an error pushed every event and is all push outputs and then all finish outputs |
| Sse.LimitResponse | crates/chat2db-agent/src/sse.rs:100-131 | Forwards exactly the longest prefix of chunks within the limit and before a source error, then one error if anything was cut |

## Left out

- HTTP clients, provider wire formats and event-stream framing: foreign code, replaced by arbitrary streams.
- Asynchronous scheduling, real time and channel capacity: replaced by oracles; the length of the settlement grace period is not modelled, an emission under grace is delivered.
- An observer that disconnects or does not take an event in time: the log is that of an observer that accepts every event handed to it.
- JSON serialization and SHA-256, including the argument digest inside ToolStarted and the error for arguments that cannot be serialized: uninterpreted or absent.
- Provider identity and tool definitions beyond their names.
- Debug output, error texts and data-transfer types.
- Overflow of the number of removed messages: a vector's length always fits.
- Runner.Run: does not state that the placement rule for provider continuations holds again for the output, because it depends on what the provider sends.
- WriteApprovals.Registry.Issue: does not prove that drawing tokens ends; the drawn tokens are a list, and a list without a fresh token yields StillDrawing, which the step system excludes.
- A poisoned registry lock, which makes the source refuse.
- Symbolic links, path canonicalization and the lexical checks on relative paths and names: the tree has no links, and names arrive already checked.
- `atomic_write_absolute`, directory creation and listing: they would add only simpler members.
- Trash delivery that is not all-or-nothing.
- ZIP reading and writing, checksums, entry ordering and file moves of the sanitizer.
- A source of provider events that never ends: the decoder's source is a finite list.
- The contents of response chunks: the limiter sees only their sizes.
- Attachment parsing, web routes, desktop windows and the command line.
