/** What a run reports, in plain terms: literal codes, messages, texts and numbers for every run. */
module RunLaws {
  import opened Wrappers
  import opened AgentTypes
  import opened Pairing
  import opened Budget
  import opened Input
  import opened Context
  import opened Compaction
  import opened Turn
  import opened RunLog
  import opened RunState
  import opened Round
  import opened Dispatch
  import opened Runner
  import Accounts
  import TurnLaws

  // ---------------------------------------------------------------- the terminal event

  /** The code that belongs to each kind of error. */
  predicate HasCode(e: AgentError, code: FailureCode) {
    && (e.Cancelled? <==> code == CodeCancelled)
    && (e.DeadlineExceeded? <==> code == CodeDeadlineExceeded)
    && (e.Provider? <==> code == CodeProvider)
    && (e.UnknownTool? <==> code == CodeUnknownTool)
    && (e.DuplicateToolCall? <==> code == CodeDuplicateToolCall)
    && (e.ToolArgumentsTooLarge? <==> code == CodeToolArgumentsTooLarge)
    && (e.ModelTextTooLarge? <==> code == CodeModelTextTooLarge)
    && (e.RoundToolLimit? <==> code == CodeRoundToolLimit)
    && (e.TotalToolLimit? <==> code == CodeTotalToolLimit)
    && (e.ModelRoundLimit? <==> code == CodeModelRoundLimit)
    && (e.IncompleteProviderStream? <==> code == CodeIncompleteProviderStream)
    && (e.DuplicateProviderCompletion? <==> code == CodeDuplicateProviderCompletion)
    && (e.InconsistentProviderCompletion? <==> code == CodeInconsistentProviderCompletion)
    && (e.ToolError? <==> code == CodeToolError)
    && (e.ContextBudgetExceeded? <==> code == CodeContextBudgetExceeded)
    && (e.InvalidInput? <==> code == CodeInvalidInput)
  }

  /** Every error is reported under the code of its own kind. */
  lemma {:induction false} ErrorCodes(e: AgentError)
    ensures HasCode(e, ErrorCode(e))
  {
  }

  /** The last entry of every run agrees with its result: the counts of a success, and for a failure the code of the
      kind of the error returned. */
  lemma {:induction false} TerminalAgrees(env: Env, r: Result<RunResult, AgentError>, log: seq<Entry>, end: nat)
    ensures IsRunOf(env, r, log, end) ==>
              && log != [] && log[|log| - 1].Observed?
              && var last := log[|log| - 1].event;
                 && (r.Ok? ==> last == RunCompleted(r.value.modelRounds, r.value.toolCalls))
                 && (r.Err? ==> last.RunFailed? && HasCode(r.error, last.code))
  {
    hide Replay, Ends, Delivers, TurnClosed, TicksIncrease, TicksBelow, Caused, HasCode, ErrorCode;
    if r.Err? { ErrorCodes(r.error); }
  }

  // ---------------------------------------------------------------- transcripts

  /** The message is the result of the call and carries what the executor answered: its output as it is, or for a
      failure the text of its outcome. */
  ghost predicate Carries(m: Message, call: ToolCall, answer: Result<ToolOutput, ToolFailure>) {
    && m.role == Tool && |m.blocks| == 1 && m.blocks[0].ResultBlock?
    && m.blocks[0].result.callId == call.id && m.blocks[0].result.name == Some(call.name)
    && var output := m.blocks[0].result.output;
       match answer
       case Ok(out) => output == out
       case Err(failure) =>
         && output.handle == None
         && output.content == Some(
              match failure.outcome
              case NotStarted => "Tool execution did not start because the run stopped."
              case Failed => "Tool execution failed with a known outcome."
              case Unknown => "Tool execution outcome is unknown and the operation was not retried.")
  }

  /** The message says that the call did not start. */
  ghost predicate SaysNotStarted(m: Message, call: ToolCall) {
    m == Message(Tool, [ResultBlock(ToolResult(call.id, Some(call.name), ToolOutput(
                          Some("Tool execution did not start because the run stopped."), None)))])
  }

  /** The delivered messages of a round: the assistant message; for each dispatched call, in the order of the calls,
      a message that carries the executor's answer to it; for each other call one that says it did not start; and the
      closing marker, unless all calls were dispatched and the run went on. */
  ghost predicate TellsAll(env: Env, log: seq<Entry>, round: nat, ms: seq<Message>) {
    var t := Accounts.TallyOf(log, round);
    var calls, n := Calls(t.received), |t.dispatched|;
    && n <= |calls| && |ms| > |calls| && ms[0] == AssistantMessage(t.received)
    && (forall i :: 0 <= i < n ==> WasAnswered(env, log, round, calls[i], ms[1 + i]))
    && (forall i :: n <= i < |calls| ==> SaysNotStarted(ms[1 + i], calls[i]))
    && (|| (|ms| == |calls| + 1 && n == |calls|)
        || (|ms| == |calls| + 2
            && ms[|calls| + 1] ==
               Message(Assistant, [TextBlock("The tool turn ended without another model response.")])))
  }

  ghost predicate WasAnswered(env: Env, log: seq<Entry>, round: nat, call: ToolCall, m: Message) {
    exists j :: 0 <= j < |log| && log[j].Dispatched? && log[j].round == round && log[j].call == call
                && Carries(m, call, AnswerTo(env, log[j]))
  }

  lemma {:induction false} ResultCarries(round: nat, call: ToolCall, answer: Result<ToolOutput, ToolFailure>)
    ensures Carries(Accounts.ResultOf(SettlementOf(round, call, answer)), call, answer)
  {
  }

  lemma {:induction false} NotStartedSays(call: ToolCall)
    ensures SaysNotStarted(TerminalMessage(call, NotStarted), call)
  {
  }

  lemma {:induction false} SettledCarries(env: Env, log: seq<Entry>, round: nat, i: nat)
    requires Accepted(env.Grammar(), log) && i < |Accounts.TallyOf(log, round).settled|
    ensures var t := Accounts.TallyOf(log, round);
            i < |t.dispatched| && WasAnswered(env, log, round, t.dispatched[i], t.settled[i])
  {
    hide Replay, Carries, Accounts.ResultOf, SettlementOf, Accounts.TallyOf;
    var j := Accounts.SettledIsAnswer(env.Grammar(), log, round, i);
    ResultCarries(round, log[j].call, AnswerTo(env, log[j]));
  }

  lemma {:induction false} AccountTells(env: Env, log: seq<Entry>, round: nat, ms: seq<Message>)
    requires Accepted(env.Grammar(), log) && Accounts.AccountsFor(ms, Accounts.TallyOf(log, round))
    ensures TellsAll(env, log, round, ms)
  {
    hide Replay, Accepted, Carries, WasAnswered, Accounts.TallyOf;
    hide SaysNotStarted, TerminalMessage, AssistantMessage, Calls;
    var t := Accounts.TallyOf(log, round);
    var calls, n := Calls(t.received), |t.dispatched|;
    forall i | 0 <= i < n
      ensures WasAnswered(env, log, round, calls[i], ms[1 + i])
    {
      SettledCarries(env, log, round, i);
      assert ms[1 + i] == t.settled[i] && t.dispatched[i] == calls[i];
    }
    forall i | n <= i < |calls|
      ensures SaysNotStarted(ms[1 + i], calls[i])
    {
      NotStartedSays(calls[i]);
      assert calls[n..][i - n] == calls[i];
      assert ms[1 + i] == NotStartedMessages(calls[n..])[i - n];
    }
  }

  /** Every transcript of every run tells all of its round. */
  lemma {:induction false} TranscriptsTellAll(env: Env, r: Result<RunResult, AgentError>, log: seq<Entry>, end: nat)
    ensures IsRunOf(env, r, log, end) ==>
              forall k :: 0 <= k < |log| && IsTranscript(log[k]) ==>
                TellsAll(env, log[..k], log[k].event.round, log[k].event.messages)
  {
    hide Replay, Ends, Delivers, TurnClosed, TicksIncrease, TicksBelow, Caused, Accounts.AccountsFor, Accounts.TallyOf;
    hide TellsAll;
    if IsRunOf(env, r, log, end) {
      forall k | 0 <= k < |log| && IsTranscript(log[k])
        ensures TellsAll(env, log[..k], log[k].event.round, log[k].event.messages)
      {
        Accounts.TranscriptAccounts(env.Grammar(), log, k);
        PrefixAccepted(env.Grammar(), log, k);
        AccountTells(env, log[..k], log[k].event.round, log[k].event.messages);
      }
    }
  }

  /** Every dispatched call is settled at once, by the event that carries the executor's answer. */
  lemma {:induction false} SettlementsInPlainTerms(env: Env, r: Result<RunResult, AgentError>, log: seq<Entry>,
                                                   end: nat)
    ensures IsRunOf(env, r, log, end) ==>
              forall i :: 0 <= i < |log| && log[i].Dispatched? ==>
                && i + 1 < |log|
                && log[i + 1] == Observed(
                     match AnswerTo(env, log[i])
                     case Ok(output) => ToolCompleted(log[i].round, log[i].call.id, log[i].call.name, output)
                     case Err(failure) => ToolFailed(log[i].round, log[i].call.id, log[i].call.name, failure))
  {
    hide Guarantees;
    EverySettlementIsTheAnswer(env, r, log, end);
  }

  /** Which error a known failure gives: the deadline if it had passed when the call was settled, cancellation if that
      had been raised, and otherwise the failure itself; an unknown one always gives itself. */
  lemma {:induction false} FailuresInPlainTerms(env: Env, r: Result<RunResult, AgentError>, log: seq<Entry>, end: nat)
    ensures IsRunOf(env, r, log, end) ==>
              forall i :: 0 <= i < |log| && FailedAt(env, log[i]) ==>
                var failure, t := AnswerTo(env, log[i]).error, log[i].tick + 3;
                r == Err(if failure.outcome.Unknown? then ToolError(log[i].call.name, failure)
                         else if env.expired(t) then DeadlineExceeded
                         else if env.cancelled(t) then Cancelled
                         else ToolError(log[i].call.name, failure))
  {
    hide Guarantees;
    FailureIsReported(env, r, log, end);
  }

  // ---------------------------------------------------------------- streams

  lemma {:induction false} LoggedIsReceived(log: seq<Entry>, j: nat, round: nat, item: ProviderEvent)
    requires j < |log| && log[j] == Received(round, item)
    ensures item in Accounts.TallyOf(log, round).received
    decreases |log|
  {
    hide Accounts.ResultOf;
    var n := |log| - 1;
    if j < n { LoggedIsReceived(log[..n], j, round, item); }
  }

  lemma {:induction false} CallsAreRequested(got: seq<ProviderEvent>)
    ensures Calls(got) != [] <==> exists item :: item in got && item.Requested?
  {
    if got != [] {
      CallsAreRequested(got[..|got| - 1]);
      assert forall item :: item in got <==> item in got[..|got| - 1] || item == got[|got| - 1];
    }
  }

  /** A round completes with the reason that its last provider event gave, and the reason names tool calls exactly
      when the stream requested some. */
  lemma {:induction false} CompletionsInPlainTerms(env: Env, r: Result<RunResult, AgentError>, log: seq<Entry>,
                                                   end: nat)
    ensures IsRunOf(env, r, log, end) ==>
              forall i :: 0 <= i < |log| && log[i].Observed? && log[i].event.ModelRoundCompleted? ==>
                CompletesConsistently(log, i, log[i].event.round, log[i].event.reason)
  {
    hide Replay, Ends, Delivers, TurnClosed, TicksIncrease, TicksBelow, Caused, CompletesConsistently;
    if IsRunOf(env, r, log, end) {
      forall i | 0 <= i < |log| && log[i].Observed? && log[i].event.ModelRoundCompleted?
        ensures CompletesConsistently(log, i, log[i].event.round, log[i].event.reason)
      {
        CompletionIsConsistent(env.Grammar(), log, i);
      }
    }
  }

  ghost predicate CompletesConsistently(log: seq<Entry>, i: nat, round: nat, reason: StopReason)
    requires i <= |log|
  {
    && (exists j :: 0 <= j < i && log[j] == Received(round, Completed(reason)))
    && (forall j, other :: 0 <= j < i && log[j] == Received(round, Completed(other)) ==> other == reason)
    && (reason.ToolCalls? <==> exists j, call :: 0 <= j < i && log[j] == Received(round, Requested(call)))
  }

  lemma {:induction false} CompletionIsConsistent(rules: Rules, log: seq<Entry>, i: nat)
    requires Accepted(rules, log) && i < |log| && log[i].Observed? && log[i].event.ModelRoundCompleted?
    ensures CompletesConsistently(log, i, log[i].event.round, log[i].event.reason)
  {
    hide Replay, Validated, YieldsAll, Accounts.TallyOf, Calls;
    Accounts.RoundIsWhole(rules, log, i);
    var round, reason := log[i].event.round, log[i].event.reason;
    var front := log[..i];
    var got := Accounts.TallyOf(front, round).received;
    var k := Accounts.ReceivedIsLogged(front, round, Completed(reason));
    assert log[k] == Received(round, Completed(reason));
    forall j, other | 0 <= j < i && log[j] == Received(round, Completed(other))
      ensures other == reason
    {
      LoggedIsReceived(front, j, round, Completed(other));
    }
    CallsAreRequested(got);
    if Calls(got) != [] {
      var item :| item in got && item.Requested?;
      var j := Accounts.ReceivedIsLogged(front, round, item);
      assert log[j] == Received(round, Requested(item.call));
    }
    if j, call :| 0 <= j < i && log[j] == Received(round, Requested(call)) {
      LoggedIsReceived(front, j, round, Requested(call));
    }
  }

  /** The observer is shown text and usage as they arrive: the next entry after a received text or usage event is its
      trace event, unless the run ends there. */
  lemma {:induction false} EventsAreShown(rules: Rules, log: seq<Entry>, i: nat)
    requires Accepted(rules, log) && i + 1 < |log| && log[i].Received?
    ensures log[i].item.Delta? ==>
              log[i + 1] == Observed(TextStreamed(log[i].round, log[i].item.delta)) || IsTerminal(log[i + 1])
    ensures log[i].item.Metered? ==>
              log[i + 1] == Observed(UsageReported(log[i].round, log[i].item.usage)) || IsTerminal(log[i + 1])
  {
    hide Replay, Step;
    StepAt(rules, log, i);
    StepAt(rules, log, i + 1);
    ShownNext(rules, At(rules, log, i), log[i], At(rules, log, i + 1), log[i + 1], At(rules, log, i + 2));
  }

  lemma {:induction false} ShownNext(rules: Rules, v: View, e: Entry, v1: View, e1: Entry, v2: View)
    requires v1 == Step(rules, v, e) && v2 == Step(rules, v1, e1) && !v1.phase.Broken? && !v2.phase.Broken?
    requires e.Received?
    ensures e.item.Delta? ==> e1 == Observed(TextStreamed(e.round, e.item.delta)) || IsTerminal(e1)
    ensures e.item.Metered? ==> e1 == Observed(UsageReported(e.round, e.item.usage)) || IsTerminal(e1)
  {
    hide NextContext, NextUsage, NextFailed, Yields, YieldsAll, Complete, Validated, Applies, Stopped, MayFail;
  }

  // ---------------------------------------------------------------- requests, usage, results

  /** Every request fits the budget, in numbers. */
  lemma {:induction false} RequestsFit(env: Env, r: Result<RunResult, AgentError>, log: seq<Entry>, end: nat)
    ensures IsRunOf(env, r, log, end) ==>
              forall i :: 0 <= i < |log| && log[i].Asked? ==>
                && env.estimate(log[i].messages).Ok?
                && var u := env.estimate(log[i].messages).value;
                   && u.serializedBytes <= env.budget.maxSerializedBytes
                   && (env.budget.maxTokens.Some? ==> u.estimatedTokens <= env.budget.maxTokens.value)
  {
    hide Guarantees, Paired, WellFormed, Subsequence, EndsWith, OpenTurn, ContextAfter, DeliveredMessages;
    EveryRequestIsExact(env, r, log, end);
  }

  /** The reported total is at least the reported input and output tokens together, or the largest number there is. */
  lemma {:induction false} UsageInPlainTerms(env: Env, r: Result<RunResult, AgentError>, log: seq<Entry>, end: nat)
    ensures IsRunOf(env, r, log, end) && r.Ok? ==>
              var u := r.value.usage;
              || u.totalTokens >= u.inputTokens + u.outputTokens
              || u.totalTokens == 0xFFFF_FFFF_FFFF_FFFF
  {
    hide Replay, Ends, TurnClosed, TicksIncrease, TicksBelow, Caused, Paired, EndsWith, OpenTurn, Subsequence;
    hide ToolPairsComplete, TurnIsComplete;
  }

  /** A success returns the last user message of the input and all that follows it, and then everything delivered, at
      the end of its messages. */
  lemma {:induction false} ResultsInPlainTerms(env: Env, r: Result<RunResult, AgentError>, log: seq<Entry>, end: nat)
    ensures IsRunOf(env, r, log, end) && r.Ok? ==>
              && r.value.generated == DeliveredMessages(log) && r.value.generated != []
              && exists u: nat, p: nat ::
                   && u < |env.input.messages| && env.input.messages[u].role.User?
                   && (forall i :: u < i < |env.input.messages| ==> !env.input.messages[i].role.User?)
                   && p <= |r.value.messages|
                   && r.value.messages[p..] == env.input.messages[u..] + r.value.generated
  {
    hide Replay, Ends, TurnClosed, TicksIncrease, TicksBelow, Caused, Paired, Subsequence, LastUser, HasUser;
    hide ToolPairsComplete, TurnIsComplete, DeliveredMessages, ProviderRequests, DispatchedCalls, ContextAfter;
    if IsRunOf(env, r, log, end) && r.Ok? {
      ViewSummarizes(env.Grammar(), log);
      var u := LastUser(env.input.messages);
      var p := |r.value.messages| - |OpenTurn(env.input.messages) + r.value.generated|;
      assert r.value.messages[p..] == env.input.messages[u..] + r.value.generated;
    }
  }

  // ---------------------------------------------------------------- refused calls

  /** The order in which a call is checked: its tool, its size, its id, and the two limits. */
  lemma {:induction false} ChecksInOrder(env: Env, used: set<string>, round: nat, count: nat, total: nat,
                                         call: ToolCall)
    ensures var e := CheckCall(env, used, round, count, total, call);
            var known := call.name in env.input.tools;
            var small := |call.arguments| <= env.limits.maxToolArgumentBytes;
            && (e == Some(UnknownTool(call.name)) <==> !known)
            && (e == Some(ToolArgumentsTooLarge(call.id, env.limits.maxToolArgumentBytes)) <==> known && !small)
            && (e == Some(DuplicateToolCall(call.id)) <==> known && small && call.id in used)
            && (e == Some(RoundToolLimit(round, env.limits.maxToolCallsPerRound)) <==>
                  known && small && call.id !in used && count == env.limits.maxToolCallsPerRound)
            && (e == Some(TotalToolLimit(env.limits.maxTotalToolCalls)) <==>
                  && known && small && call.id !in used && count != env.limits.maxToolCallsPerRound
                  && total + count == env.limits.maxTotalToolCalls)
            && (e == None <==>
                  && known && small && call.id !in used && count != env.limits.maxToolCallsPerRound
                  && total + count != env.limits.maxTotalToolCalls)
  {
  }

  /** What the log says about a run that a requested call ended: the call is the last event received, and it breaks
      the rule that the error names. */
  ghost predicate BreaksWith(env: Env, log: seq<Entry>, round: nat, before: seq<ProviderEvent>, call: ToolCall,
                             e: AgentError)
  {
    && Accounts.TallyOf(log, round).received == before + [Requested(call)]
    && match e
       case UnknownTool(name) => name == call.name && name !in env.input.tools
       case ToolArgumentsTooLarge(id, limit) =>
         id == call.id && limit == env.limits.maxToolArgumentBytes && |call.arguments| > limit
       case DuplicateToolCall(id) =>
         && id == call.id
         && (|| id in Ids(Blocks(env.input.messages + DeliveredMessages(log)))
             || exists c :: c in Calls(before) && c.id == id)
       case RoundToolLimit(rd, limit) =>
         rd == round && limit == env.limits.maxToolCallsPerRound && |Calls(before)| == limit
       case TotalToolLimit(limit) =>
         limit == env.limits.maxTotalToolCalls && |DispatchedCalls(log)| + |Calls(before)| == limit
       case _ => false
  }

  predicate IsCallError(e: AgentError) {
    e.UnknownTool? || e.ToolArgumentsTooLarge? || e.DuplicateToolCall? || e.RoundToolLimit? || e.TotalToolLimit?
  }

  lemma {:induction false} StreamingTally(rules: Rules, log: seq<Entry>)
    requires Accepted(rules, log) && Replay(rules, log).phase.Streaming?
    ensures var v := Replay(rules, log);
            var t := Accounts.TallyOf(log, v.phase.round);
            t.received == v.phase.got && t.request == Some(v.context)
  {
    hide Replay, Accounts.TallyOf, Reports, Yields, Accounts.ReportedUsage, RequestsMade;
    Accounts.LogAccounts(rules, log);
    var v := Replay(rules, log);
    assert Accounts.Within(v.phase, v.phase.round);
    assert Accounts.Agrees(rules, v.phase, v.context, Accounts.TallyOf(log, v.phase.round));
  }

  /** The last entry of a failed run adds nothing to what came before. */
  lemma {:induction false} LastAddsNothing(rules: Rules, log: seq<Entry>, round: nat)
    requires log != [] && log[|log| - 1].Observed? && log[|log| - 1].event.RunFailed?
    ensures var front := log[..|log| - 1];
            && Accounts.TallyOf(log, round) == Accounts.TallyOf(front, round)
            && DeliveredMessages(log) == DeliveredMessages(front) && DispatchedCalls(log) == DispatchedCalls(front)
            && ProviderRequests(log) == ProviderRequests(front)
  {
    hide Accounts.ResultOf;
    var front := log[..|log| - 1];
    assert DispatchedCalls(front) + [] == DispatchedCalls(front);
  }

  lemma {:induction false} RefusalBreaks(env: Env, log: seq<Entry>, v: View, e: AgentError)
    requires IsCallError(e) && v.phase.Streaming?
    requires v.transcript == DeliveredMessages(log) && v.dispatched == DispatchedCalls(log)
    requires Accounts.TallyOf(log, v.phase.round).received == v.phase.got
    requires StreamFails(env, env.input.messages, v, v.phase.round, v.phase.got, e)
    ensures exists before, call :: BreaksWith(env, log, v.phase.round, before, call, e)
  {
    hide Ids, Blocks, Accounts.TallyOf, DeliveredMessages, DispatchedCalls, Calls, Text;
    var got := v.phase.got;
    var n := |got| - 1;
    assert got == got[..n] + [Requested(got[n].call)];
    assert BreaksWith(env, log, v.phase.round, got[..n], got[n].call, e);
  }

  /** Every run that ends with an error about a call had received that call last, and it breaks that very rule. */
  lemma {:induction false} CallErrorsAreTrue(env: Env, r: Result<RunResult, AgentError>, log: seq<Entry>, end: nat)
    ensures IsRunOf(env, r, log, end) && r.Err? && IsCallError(r.error) ==>
              exists round, before, call :: BreaksWith(env, log, round, before, call, r.error)
  {
    hide Replay, Ends, Delivers, TurnClosed, TicksIncrease, TicksBelow;
    hide BreaksWith, StreamFails, PrepareFails, ErrorCode;
    hide Accounts.TallyOf, DeliveredMessages, DispatchedCalls, ProviderRequests, ContextAfter;
    if IsRunOf(env, r, log, end) && r.Err? && IsCallError(r.error) {
      var rules, n := env.Grammar(), |log| - 1;
      var front := log[..n];
      var v := Replay(rules, front);
      PrefixAccepted(rules, log, n);
      ViewSummarizes(rules, front);
      CallErrorStreams(env, v, end, r.error);
      StreamingTally(rules, front);
      LastAddsNothing(rules, log, v.phase.round);
      RefusalBreaks(env, front, v, r.error);
      var before, call :| BreaksWith(env, front, v.phase.round, before, call, r.error);
      BreaksLater(env, log, v.phase.round, before, call, r.error);
    }
  }

  lemma {:induction false} BreaksLater(env: Env, log: seq<Entry>, round: nat, before: seq<ProviderEvent>,
                                       call: ToolCall,
                                       e: AgentError)
    requires log != [] && BreaksWith(env, log[..|log| - 1], round, before, call, e)
    requires var front := log[..|log| - 1];
             && Accounts.TallyOf(log, round) == Accounts.TallyOf(front, round)
             && DeliveredMessages(log) == DeliveredMessages(front) && DispatchedCalls(log) == DispatchedCalls(front)
    ensures BreaksWith(env, log, round, before, call, e)
  {
    hide Accounts.TallyOf, DeliveredMessages, DispatchedCalls, Calls, Ids, Blocks;
  }

  /** An error about a call comes from the stream. */
  lemma {:induction false} CallErrorStreams(env: Env, v: View, until: nat, e: AgentError)
    requires Caused(env, env.input.messages, v, until, e) && IsCallError(e)
    ensures v.phase.Streaming? && StreamFails(env, env.input.messages, v, v.phase.round, v.phase.got, e)
  {
    hide StreamFails, PrepareFails;
    if v.phase.Between? { PrepareRefusesNoCall(env, v.context, until, e); }
  }

  lemma {:induction false} PrepareRefusesNoCall(env: Env, context: seq<Message>, until: nat, e: AgentError)
    requires IsCallError(e) || e.ModelTextTooLarge?
    ensures !PrepareFails(env, context, until, e)
  {
    hide TurnLengths, Lengths, FirstUser, TrimCount, Trimmed;
    TurnsHold(context);
  }

  // ---------------------------------------------------------------- other limits

  /** A run that ends for too much text had received more than the limit, and not before the last event. */
  lemma {:induction false} TextLimitIsTrue(env: Env, r: Result<RunResult, AgentError>, log: seq<Entry>, end: nat)
    ensures IsRunOf(env, r, log, end) && r.Err? && r.error.ModelTextTooLarge? ==>
              var got := Accounts.TallyOf(log, r.error.round).received;
              && r.error.limit == env.budget.maxSerializedBytes && got != []
              && |Text(got)| > r.error.limit && |Text(got[..|got| - 1])| <= r.error.limit
  {
    hide Replay, Ends, Delivers, TurnClosed, TicksIncrease, TicksBelow, PrepareFails, ErrorCode;
    hide Accounts.TallyOf, DeliveredMessages, DispatchedCalls, ProviderRequests, ContextAfter;
    hide Text, Ids, Blocks, CheckCall;
    if IsRunOf(env, r, log, end) && r.Err? && r.error.ModelTextTooLarge? {
      var rules, n := env.Grammar(), |log| - 1;
      var front := log[..n];
      var v := Replay(rules, front);
      PrefixAccepted(rules, log, n);
      if v.phase.Between? { PrepareRefusesNoCall(env, v.context, end, r.error); }
      StreamingTally(rules, front);
      LastAddsNothing(rules, log, v.phase.round);
    }
  }

  /** A run that ends at the round limit made as many requests as it allows. */
  lemma {:induction false} RoundLimitIsTrue(env: Env, r: Result<RunResult, AgentError>, log: seq<Entry>, end: nat)
    ensures IsRunOf(env, r, log, end) && r.Err? && r.error.ModelRoundLimit? ==>
              r.error.limit == env.limits.maxModelRounds && |ProviderRequests(log)| == env.limits.maxModelRounds
  {
    hide Replay, Ends, Delivers, TurnClosed, TicksIncrease, TicksBelow, ErrorCode, StreamFails, PrepareFails;
    hide DeliveredMessages, DispatchedCalls, ProviderRequests, ContextAfter, Accounts.TallyOf;
    if IsRunOf(env, r, log, end) && r.Err? && r.error.ModelRoundLimit? {
      var rules, n := env.Grammar(), |log| - 1;
      var front := log[..n];
      var v := Replay(rules, front);
      PrefixAccepted(rules, log, n);
      ViewSummarizes(rules, front);
      LimitPhase(env, v, end, r.error);
      RequestsCounted(rules, front);
      ExhaustedAtLimit(rules, front);
      LastAddsNothing(rules, log, 0);
    }
  }

  lemma {:induction false} LimitPhase(env: Env, v: View, until: nat, e: AgentError)
    requires Caused(env, env.input.messages, v, until, e) && e.ModelRoundLimit?
    ensures v.phase.Exhausted? && e.limit == env.limits.maxModelRounds
  {
    hide StreamFails, PrepareFails;
    if v.phase.Between? { PrepareIsNoLimit(env, v.context, until, e); }
    if v.phase.Streaming? { StreamIsNoLimit(env, env.input.messages, v, e); }
  }

  lemma {:induction false} PrepareIsNoLimit(env: Env, context: seq<Message>, until: nat, e: AgentError)
    requires e.ModelRoundLimit?
    ensures !PrepareFails(env, context, until, e)
  {
    hide TurnLengths, Lengths, FirstUser, TrimCount, Trimmed;
    TurnsHold(context);
  }

  lemma {:induction false} StreamIsNoLimit(env: Env, input: seq<Message>, v: View, e: AgentError)
    requires e.ModelRoundLimit? && v.phase.Streaming?
    ensures !StreamFails(env, input, v, v.phase.round, v.phase.got, e)
  {
    hide Ids, Blocks, IdSet, Calls, Text;
  }

  lemma {:induction false} ExhaustedAtLimit(rules: Rules, log: seq<Entry>)
    requires Accepted(rules, log) && Replay(rules, log).phase.Exhausted?
    ensures Replay(rules, log).phase.round == rules.maxModelRounds
  {
    hide Replay;
    assert log != [] by { NotExhausted(rules); }
    var n := |log| - 1;
    ReplayUnfold(rules, log);
    ExhaustedStep(rules, Replay(rules, log[..n]), log[n]);
  }

  lemma {:induction false} NotExhausted(rules: Rules)
    ensures !Replay(rules, []).phase.Exhausted?
  {
  }

  lemma {:induction false} ExhaustedStep(rules: Rules, v: View, e: Entry)
    requires Step(rules, v, e).phase.Exhausted?
    ensures Step(rules, v, e).phase.round == rules.maxModelRounds
  {
    hide NextContext, NextUsage, NextFailed, Yields, YieldsAll, Complete, Validated, Applies, Stopped, MayFail, Calls;
    hide AssistantMessage;
  }

  // ---------------------------------------------------------------- refused streams

  /** What the log says about a run that a stream ended: which item the provider yielded next, or that it yielded no
      more, and where completions stand among the events received. */
  ghost predicate StreamEndsWith(env: Env, log: seq<Entry>, round: nat, e: AgentError) {
    var t := Accounts.TallyOf(log, round);
    var got := t.received;
    var n := |got|;
    && t.request.Some?
    && match env.stream(round, t.request.value)
       case Err(cause) => n == 0 && e == Provider(cause)
       case Ok(items) =>
         match e
         case Provider(cause) => n < |items| && items[n] == Err(cause)
         case IncompleteProviderStream => n == |items| && forall i :: 0 <= i < n ==> !got[i].Completed?
         case DuplicateProviderCompletion => n > 1 && got[n - 1].Completed? && got[n - 2].Completed?
         case InconsistentProviderCompletion =>
           || (n > 1 && got[n - 2].Completed? && !got[n - 1].Completed?)
           || (n > 0 && n == |items| && got[n - 1].Completed?
               && (got[n - 1].reason.ToolCalls? <==> forall item :: item in got ==> !item.Requested?))
         case _ => false
  }

  predicate IsStreamError(e: AgentError) {
    e.IncompleteProviderStream? || e.DuplicateProviderCompletion? || e.InconsistentProviderCompletion?
  }

  lemma {:induction false} RefusalEnds(env: Env, log: seq<Entry>, v: View, e: AgentError)
    requires (IsStreamError(e) || e.Provider?) && v.phase.Streaming?
    requires var t := Accounts.TallyOf(log, v.phase.round);
             t.received == v.phase.got && t.request == Some(v.context)
    requires StreamFails(env, env.input.messages, v, v.phase.round, v.phase.got, e)
    ensures StreamEndsWith(env, log, v.phase.round, e)
  {
    hide Ids, Blocks, Accounts.TallyOf, Calls, Text, CheckCall;
    CallsAreRequested(v.phase.got);
  }

  /** Every run that a stream ended had received just that, and every run that reports a provider error had it from the
      stream or from the estimate of a context. */
  lemma {:induction false} StreamErrorsAreTrue(env: Env, r: Result<RunResult, AgentError>, log: seq<Entry>, end: nat)
    ensures IsRunOf(env, r, log, end) && r.Err? && IsStreamError(r.error) ==>
              exists round :: StreamEndsWith(env, log, round, r.error)
    ensures IsRunOf(env, r, log, end) && r.Err? && r.error.Provider? ==>
              || (exists round :: StreamEndsWith(env, log, round, r.error))
              || (exists ms :: env.estimate(ms) == Err(r.error.cause))
  {
    hide Replay, Ends, Delivers, TurnClosed, TicksIncrease, TicksBelow, StreamFails, PrepareFails, ErrorCode;
    hide StreamEndsWith, Accounts.TallyOf, DeliveredMessages, DispatchedCalls, ProviderRequests, ContextAfter;
    if IsRunOf(env, r, log, end) && r.Err? && (IsStreamError(r.error) || r.error.Provider?) {
      var rules, n := env.Grammar(), |log| - 1;
      var front := log[..n];
      var v := Replay(rules, front);
      PrefixAccepted(rules, log, n);
      if v.phase.Between? {
        PrepareRefusesNoStream(env, v.context, end, r.error);
      } else {
        StreamErrorStreams(env, v, end, r.error);
        StreamingTally(rules, front);
        LastAddsNothing(rules, log, v.phase.round);
        RefusalEnds(env, log, v, r.error);
      }
    }
  }

  lemma {:induction false} StreamErrorStreams(env: Env, v: View, until: nat, e: AgentError)
    requires Caused(env, env.input.messages, v, until, e) && (IsStreamError(e) || e.Provider?) && !v.phase.Between?
    ensures v.phase.Streaming? && StreamFails(env, env.input.messages, v, v.phase.round, v.phase.got, e)
  {
    hide StreamFails, PrepareFails;
  }

  lemma {:induction false} PrepareRefusesNoStream(env: Env, context: seq<Message>, until: nat, e: AgentError)
    ensures PrepareFails(env, context, until, e) ==> !IsStreamError(e)
    ensures PrepareFails(env, context, until, e) && e.Provider? ==> exists ms :: env.estimate(ms) == Err(e.cause)
  {
    hide TurnLengths, Lengths, FirstUser, TrimCount, Trimmed;
    TurnsHold(context);
  }

  // ---------------------------------------------------------------- identities, order, pairing

  lemma {:induction false} IdsInPlainTerms(bs: seq<Block>, id: string)
    ensures id in Ids(bs) <==> exists i :: 0 <= i < |bs| && bs[i].CallBlock? && bs[i].call.id == id
  {
    if bs != [] {
      IdsInPlainTerms(bs[1..], id);
      if id in Ids(bs[1..]) {
        var i :| 0 <= i < |bs[1..]| && bs[1..][i].CallBlock? && bs[1..][i].call.id == id;
        assert bs[i + 1].CallBlock? && bs[i + 1].call.id == id;
      }
      if i :| 0 <= i < |bs| && bs[i].CallBlock? && bs[i].call.id == id && i > 0 {
        assert bs[1..][i - 1].CallBlock? && bs[1..][i - 1].call.id == id;
      }
    }
  }

  /** Where a dispatched call of the log stands in the list of all of them. */
  lemma {:induction false} DispatchIsListed(log: seq<Entry>, i: nat) returns (k: nat)
    requires i < |log| && log[i].Dispatched?
    ensures k < |DispatchedCalls(log)| && DispatchedCalls(log)[k] == log[i].call
    ensures k == |DispatchedCalls(log[..i])|
    decreases |log|
  {
    var n := |log| - 1;
    if i == n {
      k := |DispatchedCalls(log[..n])|;
    } else {
      k := DispatchIsListed(log[..n], i);
      assert log[..n][..i] == log[..i];
    }
  }

  lemma {:induction false} ListGrows(log: seq<Entry>, i: nat, j: nat)
    requires i < j <= |log| && log[i].Dispatched?
    ensures |DispatchedCalls(log[..i])| < |DispatchedCalls(log[..j])|
    decreases j
  {
    assert log[..j][..j - 1] == log[..j - 1];
    if i < j - 1 {
      ListGrows(log, i, j - 1);
    }
  }

  /** No call id reaches the executor twice in a run, nor one that a call of the input already used; dispatches are
      stamped in order. */
  lemma {:induction false} NoCallTwice(env: Env, r: Result<RunResult, AgentError>, log: seq<Entry>, end: nat)
    ensures IsRunOf(env, r, log, end) ==>
              forall i, j :: 0 <= i < j < |log| && log[i].Dispatched? && log[j].Dispatched? ==>
                log[i].call.id != log[j].call.id && log[i].tick < log[j].tick < end
    ensures IsRunOf(env, r, log, end) ==>
              forall i :: 0 <= i < |log| && log[i].Dispatched? ==> !InputCalls(env.input.messages, log[i].call.id)
  {
    hide Replay, Ends, Delivers, TurnClosed, Caused, DispatchedCalls, ProviderRequests, Ids, Blocks, InputCalls;
    CountsAreReal(env, r, log, end);
    if IsRunOf(env, r, log, end) {
      var calls := DispatchedCalls(log);
      forall i, j | 0 <= i < j < |log| && log[i].Dispatched? && log[j].Dispatched?
        ensures log[i].call.id != log[j].call.id && log[i].tick < log[j].tick < end
      {
        var a := DispatchIsListed(log, i);
        var b := DispatchIsListed(log, j);
        ListGrows(log, i, j);
        assert IdSeq(calls)[a] != IdSeq(calls)[b];
      }
      forall i | 0 <= i < |log| && log[i].Dispatched?
        ensures !InputCalls(env.input.messages, log[i].call.id)
      {
        var a := DispatchIsListed(log, i);
        assert calls[a].id !in Ids(Blocks(env.input.messages));
        InputIds(env.input.messages, log[i].call.id);
      }
    }
  }

  /** Some call of the messages has this id. */
  ghost predicate InputCalls(ms: seq<Message>, id: string) {
    var bs := Blocks(ms);
    exists i :: 0 <= i < |bs| && bs[i].CallBlock? && bs[i].call.id == id
  }

  lemma {:induction false} InputIds(ms: seq<Message>, id: string)
    ensures InputCalls(ms, id) <==> id in Ids(Blocks(ms))
  {
    hide Ids, Blocks;
    IdsInPlainTerms(Blocks(ms), id);
  }

  lemma {:induction false} PairedIsPlain(ms: seq<Message>)
    ensures Paired(ms) <==> PlainPairs(Blocks(ms))
  {
    hide Paired, Blocks, PlainPairs, Orderly, EveryCallAnswered;
    PairedMeaning(ms);
    PairsInPlainTerms(Blocks(ms));
  }

  /** Every request has its calls paired with results, and ends with the input from its last user message on and all
      that was delivered before it. */
  ghost predicate PlainRequest(env: Env, log: seq<Entry>, i: nat)
    requires i < |log| && log[i].Asked?
  {
    && PlainPairs(Blocks(log[i].messages))
    && exists u: nat, p: nat ::
         && u < |env.input.messages| && env.input.messages[u].role.User?
         && (forall k :: u < k < |env.input.messages| ==> !env.input.messages[k].role.User?)
         && p <= |log[i].messages|
         && log[i].messages[p..] == env.input.messages[u..] + DeliveredMessages(log[..i])
  }

  lemma {:induction false} GoodIsPlain(env: Env, log: seq<Entry>, i: nat)
    requires HasUser(env.input.messages) && i < |log| && log[i].Asked? && IsExactRequest(env, log, i)
    ensures PlainRequest(env, log, i)
  {
    hide Paired, Blocks, PlainPairs, WellFormed, WithinBudget, Subsequence, LastUser, HasUser, ContextAfter;
    hide DeliveredMessages;
    PairedIsPlain(log[i].messages);
    var u := LastUser(env.input.messages);
    var p := |log[i].messages| - |OpenTurn(env.input.messages) + DeliveredMessages(log[..i])|;
    assert log[i].messages[p..] == env.input.messages[u..] + DeliveredMessages(log[..i]);
  }

  /** Every request of every run is such a request, and what a run leaves behind, after its input, is paired again. */
  lemma {:induction false} PairingInPlainTerms(env: Env, r: Result<RunResult, AgentError>, log: seq<Entry>, end: nat)
    ensures IsRunOf(env, r, log, end) ==>
              forall i :: 0 <= i < |log| && log[i].Asked? ==> PlainRequest(env, log, i)
    ensures IsRunOf(env, r, log, end) ==> PlainPairs(Blocks(env.input.messages + DeliveredMessages(log)))
  {
    hide Replay, Delivers, TurnClosed, TicksIncrease, TicksBelow, Caused, PlainRequest, IsExactRequest, Paired, Blocks;
    hide PlainPairs, OwnMessages, FreshCalls, Ids, GoodRequests, DeliveredMessages, DispatchedCalls, ProviderRequests;
    hide ContextAfter;
    EveryRequestIsExact(env, r, log, end);
    if IsRunOf(env, r, log, end) {
      forall i | 0 <= i < |log| && log[i].Asked? ensures PlainRequest(env, log, i) { GoodIsPlain(env, log, i); }
      ViewSummarizes(env.Grammar(), log);
      PairedIsPlain(env.input.messages + DeliveredMessages(log));
    }
  }

  /** The system messages of a list: laws that leave no freedom. */
  lemma {:induction false} SystemsLaws(m: Message, a: seq<Message>, b: seq<Message>)
    ensures Systems([]) == [] && Systems([m]) == (if m.role == System then [m] else [])
    ensures Systems(a + b) == Systems(a) + Systems(b)
  {
    SystemsConcat(a, b);
    assert [m][1..] == [];
  }

  // ---------------------------------------------------------------- usage from nothing

  /** A run without usage reports has no usage; one report counts as it is, with its total raised to cover its parts. */
  lemma {:induction false} UsageFromNothing(log: seq<Entry>, n: nat, u: Usage)
    ensures (forall round: nat :: 0 < round <= n ==> Accounts.TallyOf(log, round).reports == []) ==>
              Accounts.ReportedUsage(log, n) == Usage(0, 0, 0)
    ensures var m := MergeAll(NO_USAGE, [u]);
            && m.inputTokens == u.inputTokens && m.outputTokens == u.outputTokens
            && (m.totalTokens == u.totalTokens
                || m.totalTokens == Smaller(u.inputTokens + u.outputTokens, 0xFFFF_FFFF_FFFF_FFFF))
            && m.totalTokens >= u.totalTokens
  {
    assert [u][1..] == [];
    if n > 0 {
      UsageFromNothing(log, n - 1, u);
      hide Accounts.TallyOf;
    }
  }

  // ---------------------------------------------------------------- the world around a run

  /** Nothing is dispatched at a tick at which the run is cancelled or past its deadline; and if interruptions are
      never withdrawn, nothing after one was raised. */
  lemma {:induction false} DispatchesInPlainTerms(env: Env, r: Result<RunResult, AgentError>, log: seq<Entry>, end: nat)
    ensures IsRunOf(env, r, log, end) ==>
              forall i :: 0 <= i < |log| && log[i].Dispatched? ==>
                !env.cancelled(log[i].tick) && !env.expired(log[i].tick)
    ensures IsRunOf(env, r, log, end)
            && (forall t, t' :: 0 <= t <= t' && env.cancelled(t) ==> env.cancelled(t'))
            && (forall t, t' :: 0 <= t <= t' && env.expired(t) ==> env.expired(t')) ==>
              forall i, t: nat :: 0 <= i < |log| && log[i].Dispatched? && t <= log[i].tick ==>
                !env.cancelled(t) && !env.expired(t)
  {
    hide Replay, Ends, Delivers, TurnClosed, TicksIncrease, TicksBelow, Caused;
    if IsRunOf(env, r, log, end) {
      forall i | 0 <= i < |log| && log[i].Dispatched?
        ensures !env.cancelled(log[i].tick) && !env.expired(log[i].tick)
      {
        DispatchIsSettled(env.Grammar(), log, i);
        assert env.Grammar().active(log[i].tick);
      }
    }
  }

  /** An event received at position i is the item that the provider yields next for the request of its round. */
  ghost predicate IsNextItem(env: Env, log: seq<Entry>, i: nat)
    requires i < |log| && log[i].Received?
  {
    var t := Accounts.TallyOf(log[..i], log[i].round);
    && t.request.Some? && env.stream(log[i].round, t.request.value).Ok?
    && var items := env.stream(log[i].round, t.request.value).value;
       |t.received| < |items| && items[|t.received|] == Ok(log[i].item)
  }

  /** A round that completes at position i received every item of the provider's answer, in order, and no error. */
  ghost predicate ReceivedAll(env: Env, log: seq<Entry>, i: nat, round: nat)
    requires i <= |log|
  {
    var t := Accounts.TallyOf(log[..i], round);
    && t.request.Some? && env.stream(round, t.request.value).Ok?
    && var items := env.stream(round, t.request.value).value;
       |items| == |t.received| && forall k :: 0 <= k < |items| ==> items[k] == Ok(t.received[k])
  }

  lemma {:induction false} EventsInPlainTerms(env: Env, r: Result<RunResult, AgentError>, log: seq<Entry>, end: nat)
    ensures IsRunOf(env, r, log, end) ==>
              forall i :: 0 <= i < |log| && log[i].Received? ==> IsNextItem(env, log, i)
    ensures IsRunOf(env, r, log, end) ==>
              forall i :: 0 <= i < |log| && log[i].Observed? && log[i].event.ModelRoundCompleted? ==>
                ReceivedAll(env, log, i, log[i].event.round)
  {
    hide Guarantees, Accounts.TallyOf;
    EveryEventIsTheProviders(env, r, log, end);
    if IsRunOf(env, r, log, end) {
      forall i | 0 <= i < |log| && log[i].Received?
        ensures IsNextItem(env, log, i)
      {
        var t := Accounts.TallyOf(log[..i], log[i].round);
        var more := t.received + [log[i].item];
        assert more[|t.received|] == log[i].item;
      }
    }
  }
}
