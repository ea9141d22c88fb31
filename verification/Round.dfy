/** The two inner loops of a run: reading one provider stream, and dispatching the calls it
    asked for. Everything outside the runner is an oracle indexed by a tick that counts the
    points where the runner awaits or looks at the clock. */
module Round {
  import opened Wrappers
  import opened AgentTypes
  import opened Pairing
  import opened Budget
  import opened Input
  import opened Turn
  import opened RunLog
  import Context

  /** Which branch an unbiased `select!` takes; a branch that is not ready is not taken. */
  datatype Pick = TakeValue | TakeCancellation | TakeDeadline

  /** Everything a run depends on: what it is asked, its configuration, and the world around it. */
  datatype Env = Env(
    input: AgentInput,
    limits: Limits,
    budget: ContextBudget,
    estimate: Context.Estimator,
    summarize: Option<(nat, seq<Message>) -> Option<string>>,
    blank: string -> bool,
    cancelled: nat -> bool,
    expired: nat -> bool,
    pick: nat -> Pick,
    stream: (nat, seq<Message>) -> Result<Items, ProviderError>,
    execute: (nat, ToolCall) -> Result<ToolOutput, ToolFailure>)
  {
    predicate Valid() {
      limits.Valid() && budget.Valid()
    }

    predicate Active(t: nat) {
      !expired(t) && !cancelled(t)
    }

    /** A call of a tool of the input with arguments within the limit. */
    predicate Allows(call: ToolCall) {
      call.name in input.tools && |call.arguments| <= limits.maxToolArgumentBytes
    }

    function Grammar(): Rules {
      Rules(limits.maxModelRounds, limits.maxToolCallsPerRound, budget.maxSerializedBytes,
            (call: ToolCall) => Allows(call), (t: nat) => Active(t), input.messages, stream, execute)
    }
  }

  datatype Trace = Trace(tick: nat, log: seq<Entry>)

  /** Dispatches are stamped with increasing ticks. */
  predicate TicksIncrease(log: seq<Entry>) {
    forall i, j :: 0 <= i < j < |log| && log[i].Dispatched? && log[j].Dispatched? ==> log[i].tick < log[j].tick
  }

  predicate TicksBelow(log: seq<Entry>, tick: nat) {
    forall i :: 0 <= i < |log| && log[i].Dispatched? ==> log[i].tick < tick
  }

  predicate Timely(w: Trace) {
    TicksIncrease(w.log) && TicksBelow(w.log, w.tick)
  }

  /** A trace whose stamps lie in its past, in order. */
  type World = w: Trace | Timely(w) witness Trace(0, [])

  function Pass(w: World): World {
    w.(tick := w.tick + 1)
  }

  function Record(w: World, e: Entry): World
    requires e.Dispatched? ==> e.tick == w.tick
  {
    Trace(w.tick + 1, w.log + [e])
  }

  /** The observer's view of the log so far. */
  function Seen(env: Env, w: World): View {
    Replay(env.Grammar(), w.log)
  }

  lemma {:induction false} RecordStep(env: Env, w: World, e: Entry)
    requires e.Dispatched? ==> e.tick == w.tick
    ensures Seen(env, Record(w, e)) == Step(env.Grammar(), Seen(env, w), e)
  {
    ReplaySnoc(env.Grammar(), w.log, e);
  }

  /** `guarded`: the interruption it reports at this tick, if any. It may still let the value
      through after cancellation. */
  function Guard(env: Env, t: nat): Option<AgentError> {
    match env.pick(t)
    case TakeCancellation => if env.cancelled(t) then Some(Cancelled) else None
    case TakeDeadline => if env.expired(t) then Some(DeadlineExceeded) else None
    case TakeValue => None
  }

  /** `ensure_active`: definite, and the deadline wins. */
  function EnsureActive(env: Env, t: nat): Option<AgentError> {
    if env.expired(t) then Some(DeadlineExceeded)
    else if env.cancelled(t) then Some(Cancelled)
    else None
  }

  /** `emit` to an observer that accepts whatever it is handed: an interrupted emit delivers nothing. */
  function Emit(env: Env, w: World, e: RunEvent): (Option<AgentError>, World) {
    match Guard(env, w.tick)
    case Some(error) => (Some(error), Pass(w))
    case None => (None, Record(w, Observed(e)))
  }

  /** `emit_with_settlement_grace`. */
  function EmitWithGrace(w: World, e: RunEvent): World {
    Record(w, Observed(e))
  }

  /** `emit_after_settlement`: the event is delivered in every case. */
  function EmitAfterSettlement(env: Env, w: World, e: RunEvent): (Option<AgentError>, World) {
    match EnsureActive(env, w.tick)
    case Some(error) => (Some(error), EmitWithGrace(w, e))
    case None =>
      var (cut, w') := Emit(env, Pass(w), e);
      if cut.Some? then (cut, EmitWithGrace(w', e)) else (None, w')
  }

  /** Nothing but the phase of the view has changed. */
  predicate Quiet(v: View, v': View) {
    v' == v.(phase := v'.phase)
  }

  // ---------------------------------------------------------------- reading a stream

  datatype Reply = Reply(
    text: string,
    calls: seq<ToolCall>,
    blocks: seq<Block>,
    reason: StopReason,
    usage: Usage)

  /** The limits a stream must keep, whatever it says. */
  predicate Admissible(env: Env, used: set<string>, total: nat, got: seq<ProviderEvent>) {
    && |Text(got)| <= env.budget.maxSerializedBytes
    && (forall i :: 0 <= i < |Calls(got)| ==> env.Allows(Calls(got)[i]))
    && FreshCalls(Calls(got), used)
    && |Calls(got)| <= env.limits.maxToolCallsPerRound
    && total + |Calls(got)| <= env.limits.maxTotalToolCalls
  }

  /** `validate_model_call` and the two call limits, in the order of the source. */
  function CheckCall(env: Env, used: set<string>, round: nat, count: nat, total: nat, call: ToolCall)
    : Option<AgentError>
  {
    if call.name !in env.input.tools then Some(UnknownTool(call.name))
    else if |call.arguments| > env.limits.maxToolArgumentBytes then
      Some(ToolArgumentsTooLarge(call.id, env.limits.maxToolArgumentBytes))
    else if call.id in used then Some(DuplicateToolCall(call.id))
    else if count == env.limits.maxToolCallsPerRound then Some(RoundToolLimit(round, env.limits.maxToolCallsPerRound))
    else if total + count == env.limits.maxTotalToolCalls then Some(TotalToolLimit(env.limits.maxTotalToolCalls))
    else None
  }

  lemma {:induction false} AdmitCall(env: Env, used: set<string>, total: nat, round: nat,
                                     got: seq<ProviderEvent>, call: ToolCall)
    requires Admissible(env, used, total, got)
    requires CheckCall(env, used + IdSet(Calls(got)), round, |Calls(got)|, total, call).None?
    ensures Admissible(env, used, total, got + [Requested(call)])
    ensures IdSet(Calls(got + [Requested(call)])) == IdSet(Calls(got)) + {call.id}
  {
    OneMoreEvent(got, Requested(call));
    var calls := Calls(got);
    hide Calls, Text;
    var calls' := calls + [call];
    forall i, j | 0 <= i < j < |calls'| ensures IdSeq(calls')[i] != IdSeq(calls')[j] {
      if j < |calls| {
        assert IdSeq(calls)[i] != IdSeq(calls)[j];
      } else {
        assert calls[i] in calls;
      }
    }
    assert IdSet(calls') == IdSet(calls) + {call.id};
  }

  lemma {:induction false} CallRefused(env: Env, used: set<string>, total: nat, round: nat,
                                       got: seq<ProviderEvent>, call: ToolCall)
    requires CheckCall(env, used + IdSet(Calls(got)), round, |Calls(got)|, total, call).Some?
    ensures !Admissible(env, used, total, got + [Requested(call)])
  {
    OneMoreEvent(got, Requested(call));
    var calls := Calls(got);
    hide Calls, Text;
    var calls' := calls + [call];
    assert calls'[|calls|] == call;
    if call.id in IdSet(calls) {
      var c :| c in calls && c.id == call.id;
      var i :| 0 <= i < |calls| && calls[i] == c;
      assert IdSeq(calls')[i] == IdSeq(calls')[|calls|];
    }
  }

  lemma {:induction false} AdmitOther(env: Env, used: set<string>, total: nat,
                                      got: seq<ProviderEvent>, e: ProviderEvent)
    requires Admissible(env, used, total, got)
    requires !e.Requested?
    requires e.Delta? ==> |Text(got)| + |e.delta| <= env.budget.maxSerializedBytes
    ensures Admissible(env, used, total, got + [e])
  {
    OneMoreEvent(got, e);
    assert Calls(got + [e]) == Calls(got);
  }

  lemma {:induction false} EmptyStream(env: Env, used: set<string>, total: nat)
    requires total <= env.limits.maxTotalToolCalls
    ensures Admissible(env, used, total, [])
  {
  }

  lemma {:induction false} TextWithinLimit(env: Env, used: set<string>, total: nat, got: seq<ProviderEvent>)
    requires Admissible(env, used, total, got)
    ensures |Text(got)| <= env.budget.maxSerializedBytes
  {
    hide Text, Calls, FreshCalls;
  }

  lemma {:induction false} TextTooLarge(env: Env, used: set<string>, total: nat,
                                        got: seq<ProviderEvent>)
    requires |Text(got)| > env.budget.maxSerializedBytes
    ensures !Admissible(env, used, total, got)
  {
  }

  lemma {:induction false} StepReceived(rules: Rules, v: View, round: nat, e: ProviderEvent)
    requires v.phase.Streaming? && v.phase.round == round && v.phase.owed.None?
    requires Yields(rules, round, v.context, v.phase.got + [e])
    ensures Step(rules, v, Received(round, e)) == v.(phase := Streaming(round, v.phase.got + [e], Owed(round, e)))
  {
  }

  lemma {:induction false} StepOwed(rules: Rules, v: View)
    requires v.phase.Streaming? && v.phase.owed.Some?
    requires v.phase.owed.value.TextStreamed? || v.phase.owed.value.UsageReported?
    ensures Step(rules, v, Observed(v.phase.owed.value)) == v.(phase := v.phase.(owed := None))
  {
  }

  /** The error is an interruption that had been raised before the tick `until`. */
  ghost predicate Interrupted(env: Env, e: AgentError, until: nat) {
    match e
    case Cancelled => exists t :: 0 <= t < until && env.cancelled(t)
    case DeadlineExceeded => exists t :: 0 <= t < until && env.expired(t)
    case _ => false
  }

  lemma {:induction false} GuardInterrupts(env: Env, t: nat)
    ensures Guard(env, t).Some? ==> Interrupted(env, Guard(env, t).value, t + 1)
    ensures EnsureActive(env, t).Some? ==> Interrupted(env, EnsureActive(env, t).value, t + 1)
  {
  }

  lemma {:induction false} InterruptedLater(env: Env, e: AgentError, t: nat, t': nat)
    requires Interrupted(env, e, t) && t <= t'
    ensures Interrupted(env, e, t')
  {
  }

  predicate InStream(env: Env, w: World, round: nat, got: seq<ProviderEvent>, owed: Option<RunEvent>) {
    Seen(env, w).phase == Streaming(round, got, owed)
  }

  /** Delivering the owed event, or being cut while doing so. */
  lemma {:induction false} EmitOwed(env: Env, w: World, round: nat, got: seq<ProviderEvent>, e: RunEvent)
    requires InStream(env, w, round, got, Some(e)) && (e.TextStreamed? || e.UsageReported?)
    ensures var (cut, w') := Emit(env, w, e);
            && Quiet(Seen(env, w), Seen(env, w'))
            && InStream(env, w', round, got, if cut.None? then None else Some(e))
            && (cut.Some? ==> Interrupted(env, cut.value, w'.tick))
  {
    hide Replay, Step;
    RecordStep(env, w, Observed(e));
    StepOwed(env.Grammar(), Seen(env, w));
    GuardInterrupts(env, w.tick);
  }

  lemma {:induction false} Receive(env: Env, w: World, round: nat, got: seq<ProviderEvent>, e: ProviderEvent)
    requires InStream(env, w, round, got, None) && Yields(env.Grammar(), round, Seen(env, w).context, got + [e])
    ensures Quiet(Seen(env, w), Seen(env, Record(w, Received(round, e))))
    ensures InStream(env, Record(w, Received(round, e)), round, got + [e], Owed(round, e))
  {
    hide Replay, Step;
    RecordStep(env, w, Received(round, e));
    StepReceived(env.Grammar(), Seen(env, w), round, e);
  }

  lemma {:induction false} PassInStream(env: Env, w: World, round: nat, got: seq<ProviderEvent>)
    ensures Seen(env, Pass(w)) == Seen(env, w)
    ensures InStream(env, w, round, got, None) ==> InStream(env, Pass(w), round, got, None)
  {
    hide Replay;
  }

  /** Why a stream was refused after the events `got`, of which all but the last had been admissible: what the
      provider yielded next, what it failed to yield, or which rule its last event breaks. */
  ghost predicate Refused(env: Env, used: set<string>, total: nat, round: nat, items: Items, got: seq<ProviderEvent>,
                          e: AgentError)
  {
    var n := |got|;
    match e
    case Provider(cause) => n < |items| && items[n] == Err(cause)
    case IncompleteProviderStream => n == |items| && forall i :: 0 <= i < n ==> !got[i].Completed?
    case DuplicateProviderCompletion => n > 1 && got[n - 1].Completed? && got[n - 2].Completed?
    case InconsistentProviderCompletion =>
      || (n > 1 && got[n - 2].Completed? && !got[n - 1].Completed?)
      || (n > 0 && n == |items| && got[n - 1].Completed? && (got[n - 1].reason.ToolCalls? <==> Calls(got) == []))
    case ModelTextTooLarge(r, limit) =>
      && r == round && limit == env.budget.maxSerializedBytes
      && n > 0 && got[n - 1].Delta? && |Text(got)| > limit && |Text(got[..n - 1])| <= limit
    case _ =>
      && n > 0 && got[n - 1].Requested?
      && RefusedCall(env, used, total, round, got[..n - 1], got[n - 1].call) == Some(e)
  }

  /** What the checks say about a call after the events `before` of its stream. */
  function RefusedCall(env: Env, used: set<string>, total: nat, round: nat, before: seq<ProviderEvent>, call: ToolCall)
    : Option<AgentError>
  {
    CheckCall(env, used + IdSet(Calls(before)), round, |Calls(before)|, total, call)
  }

  /** An error ends the reading of a stream because of an interruption or because the stream was refused. */
  ghost predicate Explains(env: Env, used: set<string>, total: nat, round: nat, items: Items, got: seq<ProviderEvent>,
                           until: nat, e: AgentError)
  {
    if e.Cancelled? || e.DeadlineExceeded? then Interrupted(env, e, until)
    else Refused(env, used, total, round, items, got, e)
  }

  /** The variables of the stream loop. */
  datatype Reading = Reading(
    text: string,
    calls: seq<ToolCall>,
    blocks: seq<Block>,
    used: set<string>,
    completion: Option<StopReason>)

  /** The completion an accepted prefix of a stream may carry: its last event. */
  function Ended(got: seq<ProviderEvent>): Option<StopReason> {
    if got != [] && got[|got| - 1].Completed? then Some(got[|got| - 1].reason) else None
  }

  /** What the loop has computed from the events `got`. */
  predicate Reads(used: set<string>, got: seq<ProviderEvent>, st: Reading) {
    && st.text == Text(got) && st.calls == Calls(got) && st.blocks == AssistantBlocks(got)
    && st.used == used + IdSet(Calls(got))
    && st.completion == Ended(got)
  }

  lemma {:induction false} ReadsMore(used: set<string>, got: seq<ProviderEvent>, e: ProviderEvent, st: Reading)
    requires Reads(used, got, st)
    ensures Reads(used, got + [e],
                  Reading(st.text + (if e.Delta? then e.delta else ""),
                          st.calls + (if e.Requested? then [e.call] else []),
                          AddEvent(st.blocks, e),
                          st.used + (if e.Requested? then {e.call.id} else {}),
                          if e.Completed? then Some(e.reason) else None))
  {
    hide AddEvent, IdSet, Text, Calls, Reports, AssistantBlocks;
    OneMoreEvent(got, e);
    if e.Requested? { IdSetSnoc(Calls(got), e.call); }
    assert Calls(got) + [] == Calls(got);
  }

  lemma {:induction false} IdSetSnoc(calls: seq<ToolCall>, call: ToolCall)
    ensures IdSet(calls + [call]) == IdSet(calls) + {call.id}
  {
  }

  /** The body of the stream loop, for an event that follows no completion. */
  method Absorb(env: Env, round: nat, ghost used: set<string>, total: nat,
                ghost got: seq<ProviderEvent>, event: ProviderEvent, st: Reading, w0: World)
    returns (refused: Option<AgentError>, st': Reading, w: World)
    requires Reads(used, got, st) && st.completion.None? && Admissible(env, used, total, got)
    requires InStream(env, w0, round, got + [event], Owed(round, event))
    ensures Quiet(Seen(env, w0), Seen(env, w))
    ensures InStream(env, w, round, got + [event], None) || InStream(env, w, round, got + [event], Owed(round, event))
    ensures refused.None? ==>
              && Reads(used, got + [event], st') && Admissible(env, used, total, got + [event])
              && InStream(env, w, round, got + [event], None)
    ensures refused.Some? ==>
              || Interrupted(env, refused.value, w.tick)
              || BreaksRule(env, used, total, round, got, event, refused.value)
    ensures refused.Some? && !Interrupted(env, refused.value, w.tick) ==> !Admissible(env, used, total, got + [event])
  {
    hide Seen, InStream, Emit, Interrupted, Admissible, Text, Calls, AssistantBlocks, Reports, IdSet;
    w, st', refused := w0, st, None;
    ReadsMore(used, got, event, st);
    if event.Requested? {
      if CheckCall(env, st.used, round, |st.calls|, total, event.call).Some? {
        CallRefused(env, used, total, round, got, event.call);
      } else {
        AdmitCall(env, used, total, round, got, event.call);
      }
    } else if event.Delta? && |st.text| + |event.delta| > env.budget.maxSerializedBytes {
      OneMoreEvent(got, event);
      TextWithinLimit(env, used, total, got);
      TextTooLarge(env, used, total, got + [event]);
    } else {
      AdmitOther(env, used, total, got, event);
    }
    match event {
      case Delta(delta) =>
        var bytes := CheckedAdd(|st.text|, |delta|);
        if !(bytes.Some? && bytes.value <= env.budget.maxSerializedBytes) {
          return Some(ModelTextTooLarge(round, env.budget.maxSerializedBytes)), st, w;
        }
        var blocks := st.blocks;
        if blocks != [] && blocks[|blocks| - 1].TextBlock? {
          blocks := blocks[..|blocks| - 1] + [TextBlock(blocks[|blocks| - 1].text + delta)];
        } else {
          blocks := blocks + [TextBlock(delta)];
        }
        st' := st.(text := st.text + delta, blocks := blocks);
        EmitOwed(env, w, round, got + [event], TextStreamed(round, delta));
        var (cut, w') := Emit(env, w, TextStreamed(round, delta));
        refused, w := cut, w';
      case Requested(call) =>
        refused := CheckCall(env, st.used, round, |st.calls|, total, call);
        if refused.None? {
          st' := st.(used := st.used + {call.id}, blocks := st.blocks + [CallBlock(call)], calls := st.calls + [call]);
        }
      case Continued(placement, value) =>
        st' := st.(blocks := st.blocks + [ContinuationBlock(placement, value)]);
      case Metered(usage) =>
        EmitOwed(env, w, round, got + [event], UsageReported(round, usage));
        var (cut, w') := Emit(env, w, UsageReported(round, usage));
        refused, w := cut, w';
      case Completed(reason) =>
        st' := st.(completion := Some(reason));
    }
  }

  /** The rule that an event breaks after the admissible events `before`. */
  ghost predicate BreaksRule(env: Env, used: set<string>, total: nat, round: nat, before: seq<ProviderEvent>,
                             event: ProviderEvent, e: AgentError)
  {
    || (event.Delta? && e == ModelTextTooLarge(round, env.budget.maxSerializedBytes)
        && |Text(before + [event])| > env.budget.maxSerializedBytes
        && |Text(before)| <= env.budget.maxSerializedBytes)
    || (event.Requested? && RefusedCall(env, used, total, round, before, event.call) == Some(e))
  }

  lemma {:induction false} ExplainRefusal(env: Env, used: set<string>, total: nat, round: nat, items: Items,
                                          before: seq<ProviderEvent>, event: ProviderEvent, until: nat, e: AgentError)
    requires Interrupted(env, e, until) || BreaksRule(env, used, total, round, before, event, e)
    ensures Explains(env, used, total, round, items, before + [event], until, e)
  {
    hide Text, Calls, IdSet;
    var got := before + [event];
    assert got[..|got| - 1] == before;
  }

  lemma {:induction false} ReadsNothing(used: set<string>, st: Reading)
    requires st == Reading("", [], [], used, None)
    ensures Reads(used, [], st)
  {
    assert used + IdSet([]) == used;
  }

  lemma {:induction false} CompletionRead(used: set<string>, got: seq<ProviderEvent>, st: Reading)
    requires Reads(used, got, st)
    ensures st.completion == Ended(got)
  {
    hide Text, Calls, AssistantBlocks, Reports, MergeAll, IdSet;
  }

  lemma {:induction false} ExplainCut(env: Env, used: set<string>, total: nat, round: nat, items: Items,
                                      got: seq<ProviderEvent>, until: nat, e: AgentError)
    requires Interrupted(env, e, until) || (e.Provider? && |got| < |items| && items[|got|] == Err(e.cause))
    ensures Explains(env, used, total, round, items, got, until, e)
  {
    hide Text, Calls;
  }

  lemma {:induction false} ExplainLateEvent(env: Env, used: set<string>, total: nat, round: nat, items: Items,
                                            got: seq<ProviderEvent>, until: nat)
    requires |got| > 1 && got[|got| - 2].Completed?
    ensures Explains(env, used, total, round, items, got, until,
                     if got[|got| - 1].Completed? then DuplicateProviderCompletion else InconsistentProviderCompletion)
  {
    hide Text, Calls;
  }

  lemma {:induction false} ExplainEnd(env: Env, used: set<string>, total: nat, round: nat, items: Items,
                                      got: seq<ProviderEvent>, st: Reading, until: nat)
    requires Reads(used, got, st) && |got| == |items| && forall k :: 0 <= k < |got| - 1 ==> !got[k].Completed?
    ensures st.completion.None? ==> Explains(env, used, total, round, items, got, until, IncompleteProviderStream)
    ensures st.completion.Some? && st.completion.value.ToolCalls? == (st.calls == []) ==>
              Explains(env, used, total, round, items, got, until, InconsistentProviderCompletion)
    ensures st.completion.Some? && st.completion.value.ToolCalls? != (st.calls == []) ==>
              && Complete(got, st.completion.value)
              && st.text == Text(got) && st.calls == Calls(got) && st.blocks == AssistantBlocks(got)
              && st.used == used + IdSet(Calls(got))
  {
    hide Admissible, Text, Calls, AssistantBlocks, Reports, MergeAll, IdSet;
  }

  lemma {:induction false} NextYields(env: Env, round: nat, request: seq<Message>, items: Items,
                                      got: seq<ProviderEvent>, e: ProviderEvent)
    requires env.stream(round, request) == Ok(items) && |got| < |items| && items[|got|] == Ok(e)
    requires forall k :: 0 <= k < |got| ==> items[k] == Ok(got[k])
    ensures Yields(env.Grammar(), round, request, got + [e])
  {
  }

  lemma {:induction false} AllYielded(env: Env, round: nat, request: seq<Message>, items: Items,
                                      got: seq<ProviderEvent>)
    requires env.stream(round, request) == Ok(items) && |got| == |items|
    requires forall k :: 0 <= k < |got| ==> items[k] == Ok(got[k])
    ensures YieldsAll(env.Grammar(), round, request, got)
  {
  }

  lemma {:induction false} NothingReported()
    ensures MergeAll(NO_USAGE, Reports([])) == NO_USAGE
  {
  }

  lemma {:induction false} MoreReported(got: seq<ProviderEvent>, e: ProviderEvent)
    ensures var before := MergeAll(NO_USAGE, Reports(got));
            MergeAll(NO_USAGE, Reports(got + [e])) == if e.Metered? then Merged(before, e.usage) else before
  {
    hide MergeAll, Merged, Reports, Text, Calls, AssistantBlocks;
    OneMoreEvent(got, e);
    if e.Metered? {
      MergeAllSnoc(NO_USAGE, Reports(got), e.usage);
    } else {
      assert Reports(got) + [] == Reports(got);
    }
  }

  /** The loop over one provider stream. */
  method ReadStream(env: Env, round: nat, used: set<string>, total: nat, items: Items, w0: World)
    returns (r: Result<Reply, AgentError>, ghost got: seq<ProviderEvent>, used': set<string>, w: World)
    requires InStream(env, w0, round, [], None) && env.stream(round, Seen(env, w0).context) == Ok(items)
    requires total <= env.limits.maxTotalToolCalls
    ensures Quiet(Seen(env, w0), Seen(env, w))
    ensures exists owed :: InStream(env, w, round, got, owed)
    ensures r.Ok? ==>
              && InStream(env, w, round, got, None)
              && YieldsAll(env.Grammar(), round, Seen(env, w0).context, got)
              && Complete(got, r.value.reason)
              && Admissible(env, used, total, got)
              && r.value == Reply(Text(got), Calls(got), AssistantBlocks(got), r.value.reason,
                                  MergeAll(NO_USAGE, Reports(got)))
              && used' == used + IdSet(Calls(got))
    ensures r.Err? ==> Explains(env, used, total, round, items, got, w.tick, r.error)
  {
    hide Reads, Emit, Record, Merged, LeastCover, Timely;
    hide Seen, InStream, Guard, Admissible, Text, Calls, AssistantBlocks, Reports, MergeAll, IdSet, Complete, CheckCall;
    hide Explains, Interrupted, BreaksRule, Yields, YieldsAll;
    got, w := [], w0;
    var st := Reading("", [], [], used, None);
    var roundUsage := new UsageMeter(NO_USAGE);
    ReadsNothing(used, st);
    NothingReported();
    EmptyStream(env, used, total);
    var i := 0;
    while true
      invariant 0 <= i <= |items| && |got| == i
      invariant forall k :: 0 <= k < i ==> items[k] == Ok(got[k])
      invariant Quiet(Seen(env, w0), Seen(env, w))
      invariant InStream(env, w, round, got, None)
      invariant Reads(used, got, st) && Admissible(env, used, total, got)
      invariant fresh(roundUsage) && roundUsage.Value() == MergeAll(NO_USAGE, Reports(got))
      invariant forall k :: 0 <= k < |got| - 1 ==> !got[k].Completed?
      decreases |items| - i
    {
      var cut := Guard(env, w.tick);
      GuardInterrupts(env, w.tick);
      PassInStream(env, w, round, got);
      w := Pass(w);
      if cut.Some? {
        ExplainCut(env, used, total, round, items, got, w.tick, cut.value);
        return Err(cut.value), got, st.used, w;
      }
      if i == |items| { break; }
      var item := items[i];
      if item.Err? {
        ExplainCut(env, used, total, round, items, got, w.tick, Provider(item.error));
        return Err(Provider(item.error)), got, st.used, w;
      }
      i := i + 1;
      var event := item.value;
      NextYields(env, round, Seen(env, w).context, items, got, event);
      Receive(env, w, round, got, event);
      w := Record(w, Received(round, event));
      ghost var before := got;
      got := got + [event];
      CompletionRead(used, before, st);
      if st.completion.Some? {
        var error := if event.Completed? then DuplicateProviderCompletion else InconsistentProviderCompletion;
        ExplainLateEvent(env, used, total, round, items, got, w.tick);
        return Err(error), got, st.used, w;
      }
      MoreReported(before, event);
      if event.Metered? { roundUsage.Merge(event.usage); }
      var refused;
      refused, st, w := Absorb(env, round, used, total, before, event, st, w);
      if refused.Some? {
        ExplainRefusal(env, used, total, round, items, before, event, w.tick, refused.value);
        return Err(refused.value), got, st.used, w;
      }
    }
    used' := st.used;
    ExplainEnd(env, used, total, round, items, got, st, w.tick);
    AllYielded(env, round, Seen(env, w0).context, items, got);
    if st.completion.None? { return Err(IncompleteProviderStream), got, used', w; }
    if st.completion.value.ToolCalls? == (st.calls == []) {
      return Err(InconsistentProviderCompletion), got, used', w;
    }
    return Ok(Reply(st.text, st.calls, st.blocks, st.completion.value, roundUsage.Value())), got, used', w;
  }
}
