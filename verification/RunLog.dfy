/** What an observer of a run can see, and the grammar every run obeys.
    A log holds the trace events delivered to the observer together with the three other
    exchanges of a run: requests to the provider, provider events, and calls handed to the
    tool executor. `Replay` reads a log against the grammar. */
module RunLog {
  import opened Wrappers
  import opened AgentTypes
  import opened Pairing
  import opened Budget
  import opened Turn
  import Context

  datatype RunEvent =
    | RunStarted
    | ContextCompacted(compaction: CompactionEvent)
    | ModelRoundStarted(round: nat)
    | TextStreamed(round: nat, text: string)
    | UsageReported(round: nat, usage: Usage)
    | ModelRoundCompleted(round: nat, reason: StopReason)
    | ToolStarted(round: nat, callId: string, name: string)
    | ToolCompleted(round: nat, callId: string, name: string, output: ToolOutput)
    | ToolFailed(round: nat, callId: string, name: string, failure: ToolFailure)
    | TranscriptMessages(round: nat, messages: seq<Message>)
    | RunCompleted(rounds: nat, toolCalls: nat)
    | RunFailed(code: FailureCode)

  datatype Entry =
    | Observed(event: RunEvent)
    | Asked(round: nat, messages: seq<Message>)
    | Received(round: nat, item: ProviderEvent)
    | Dispatched(round: nat, call: ToolCall, tick: nat)

  /** What a run is told before it starts: its limits, the calls it may dispatch, when it is active, the messages
      it starts from, and what the provider and the executor answer. */
  datatype Rules = Rules(
    maxModelRounds: nat,
    maxCallsPerRound: nat,
    maxTextBytes: nat,
    allowed: ToolCall -> bool,
    active: nat -> bool,
    input: seq<Message>,
    stream: (nat, seq<Message>) -> Result<Items, ProviderError>,
    execute: (nat, ToolCall) -> Result<ToolOutput, ToolFailure>)

  datatype Phase =
    | Fresh
    | Between(done: nat)
    | Compacted(done: nat)
    | Opened(round: nat)
    | Streaming(round: nat, got: seq<ProviderEvent>, owed: Option<RunEvent>)
    | Answering(round: nat, answer: Message)
    | Delivered(round: nat)
    | Exhausted(round: nat)
    | Ready(round: nat, turn: seq<Message>, rest: seq<ToolCall>)
    | Announced(round: nat, turn: seq<Message>, rest: seq<ToolCall>)
    | InFlight(round: nat, turn: seq<Message>, rest: seq<ToolCall>, tick: nat)
    | Failing(round: nat, turn: seq<Message>, rest: seq<ToolCall>)
    | Closed(round: nat)
    | Finished
    | Broken

  /** A request to the provider, with all that had been delivered when it was made. */
  datatype Request = Request(messages: seq<Message>, delivered: seq<Message>)

  /** A call, dispatched at `tick`, for which the executor reported a failure. */
  datatype FailedCall = FailedCall(name: string, failure: ToolFailure, tick: nat)

  datatype View = View(
    phase: Phase,
    context: seq<Message>,
    requests: seq<Request>,
    dispatched: seq<ToolCall>,
    transcript: seq<Message>,
    usage: Usage,
    failed: Option<FailedCall>)

  function Start(rules: Rules): View {
    View(Fresh, rules.input, [], [], [], NO_USAGE, None)
  }

  /** The events of a stream that completed exactly once, at its end, with `reason`, which names
      tool calls exactly when there are some. */
  predicate Complete(got: seq<ProviderEvent>, reason: StopReason) {
    && got != [] && got[|got| - 1] == Completed(reason)
    && (forall i :: 0 <= i < |got| - 1 ==> !got[i].Completed?)
    && (reason.ToolCalls? <==> Calls(got) != [])
  }

  /** The text and the calls of a stream that passed validation. */
  predicate Validated(rules: Rules, got: seq<ProviderEvent>) {
    && |Text(got)| <= rules.maxTextBytes
    && |Calls(got)| <= rules.maxCallsPerRound
    && forall i :: 0 <= i < |Calls(got)| ==> rules.allowed(Calls(got)[i])
  }

  /** The events read so far are the first ones of the provider's answer. */
  predicate Yields(rules: Rules, round: nat, request: seq<Message>, got: seq<ProviderEvent>) {
    var answer := rules.stream(round, request);
    got == [] ||
    (answer.Ok? && |got| <= |answer.value| && forall i :: 0 <= i < |got| ==> answer.value[i] == Ok(got[i]))
  }

  /** They are all of it. */
  predicate YieldsAll(rules: Rules, round: nat, request: seq<Message>, got: seq<ProviderEvent>) {
    var answer := rules.stream(round, request);
    answer.Ok? && |got| == |answer.value| && forall i :: 0 <= i < |got| ==> answer.value[i] == Ok(got[i])
  }

  /** The event that reports what the executor answered. */
  function SettlementOf(round: nat, call: ToolCall, answer: Result<ToolOutput, ToolFailure>): RunEvent {
    match answer
    case Ok(output) => ToolCompleted(round, call.id, call.name, output)
    case Err(failure) => ToolFailed(round, call.id, call.name, failure)
  }

  /** The trace event an observer is owed for a provider event. */
  function Owed(round: nat, item: ProviderEvent): Option<RunEvent> {
    match item
    case Delta(d) => Some(TextStreamed(round, d))
    case Metered(u) => Some(UsageReported(round, u))
    case _ => None
  }

  function AfterRound(rules: Rules, round: nat, got: seq<ProviderEvent>): Phase {
    if Calls(got) == [] then Answering(round, AssistantMessage(got))
    else if round == rules.maxModelRounds then Exhausted(round)
    else Ready(round, [AssistantMessage(got)], Calls(got))
  }

  /** A run may only fail where nothing is in flight or unrecorded; an unknown outcome must
      surface as a tool error, and running out of rounds as the round limit. */
  predicate MayFail(v: View, code: FailureCode) {
    match v.phase
    case Ready(_, _, _) => false
    case Announced(_, _, _) => false
    case InFlight(_, _, _, _) => false
    case Failing(_, _, _) => false
    case Finished => false
    case Broken => false
    case Exhausted(_) => code == CodeModelRoundLimit
    case Closed(_) => v.failed.Some? && v.failed.value.failure.outcome.Unknown? ==> code == CodeToolError
    case _ => true
  }

  function Settle(p: Phase, m: Message): Phase
    requires p.InFlight? && p.rest != []
  {
    Ready(p.round, p.turn + [m], p.rest[1..])
  }

  // ---------------------------------------------------------------- the context the provider is sent

  /** The range starts at the first user message, ends before another one, holds no system message and closes every
      call it opens. */
  predicate MayGo(r: Range, context: seq<Message>) {
    && r.start == Context.FirstUser(context) && r.start <= r.end < |context| && context[r.end].role.User?
    && Context.NoSystem(context[r.start..r.end]) && ToolPairsComplete(context[r.start..r.end])
  }

  /** Only such a range is removed, and only a removed range is summarized. */
  predicate Applies(c: CompactionEvent, context: seq<Message>) {
    if c.compactedRange.Some? then MayGo(c.compactedRange.value, context) else c.replacementSummary.None?
  }

  /** The context with the reported range replaced by the reported summary, or by nothing. */
  function Apply(c: CompactionEvent, context: seq<Message>): seq<Message> {
    if c.compactedRange.None? || !Applies(c, context) then context
    else
      var summary := if c.replacementSummary.Some? then [Context.SummaryMessage(c.replacementSummary.value)] else [];
      context[..c.compactedRange.value.start] + summary + context[c.compactedRange.value.end..]
  }

  /** Compactions edit the context, transcripts extend it, and nothing else touches it. */
  function NextContext(context: seq<Message>, e: Entry): seq<Message> {
    if e.Observed? && e.event.ContextCompacted? then Apply(e.event.compaction, context)
    else if e.Observed? && e.event.TranscriptMessages? then context + e.event.messages
    else context
  }

  // ---------------------------------------------------------------- the grammar

  function OnEvent(rules: Rules, v: View, e: RunEvent): Phase {
    var p := v.phase;
    match e
    case RunStarted =>
      if p.Fresh? then Between(0) else Broken
    case ContextCompacted(c) =>
      if p.Between? && Applies(c, v.context) then Compacted(p.done) else Broken
    case ModelRoundStarted(round) =>
      if (p.Between? || p.Compacted?) && round == p.done + 1 && round <= rules.maxModelRounds
      then Opened(round) else Broken
    case TextStreamed(_, _) =>
      if p.Streaming? && p.owed == Some(e) then p.(owed := None) else Broken
    case UsageReported(_, _) =>
      if p.Streaming? && p.owed == Some(e) then p.(owed := None) else Broken
    case ModelRoundCompleted(round, reason) =>
      if p.Streaming? && p.round == round && p.owed.None? && Complete(p.got, reason) && Validated(rules, p.got)
         && YieldsAll(rules, round, v.context, p.got)
      then AfterRound(rules, round, p.got) else Broken
    case ToolStarted(round, id, name) =>
      if p.Ready? && p.round == round && p.rest != [] && p.rest[0].id == id && p.rest[0].name == name
      then Announced(round, p.turn, p.rest) else Broken
    case ToolCompleted(round, id, name, output) =>
      if p.InFlight? && p.rest != [] && e == SettlementOf(p.round, p.rest[0], rules.execute(p.tick + 1, p.rest[0]))
      then Settle(p, ResultMessage(p.rest[0], output)) else Broken
    case ToolFailed(round, id, name, failure) =>
      if p.InFlight? && p.rest != [] && e == SettlementOf(p.round, p.rest[0], rules.execute(p.tick + 1, p.rest[0]))
      then Failing(round, p.turn + [TerminalMessage(p.rest[0], failure.outcome)], p.rest[1..]) else Broken
    case TranscriptMessages(round, ms) =>
      if p.Answering? && p.round == round && ms == [p.answer] then Delivered(round)
      else if p.Ready? && p.round == round && p.rest == [] && ms == p.turn then Between(round)
      else if (p.Ready? || p.Announced? || p.Failing?) && p.round == round && ms == Stopped(p.turn, p.rest)
      then Closed(round)
      else Broken
    case RunCompleted(rounds, toolCalls) =>
      if p.Delivered? && p.round == rounds && toolCalls == |v.dispatched| then Finished else Broken
    case RunFailed(code) =>
      if MayFail(v, code) then Finished else Broken
  }

  function NextPhase(rules: Rules, v: View, e: Entry): Phase {
    var p := v.phase;
    match e
    case Observed(event) => OnEvent(rules, v, event)
    case Asked(round, ms) => if p == Opened(round) && ms == v.context then Streaming(round, [], None) else Broken
    case Received(round, item) =>
      if p.Streaming? && p.round == round && p.owed.None? && Yields(rules, round, v.context, p.got + [item])
      then Streaming(round, p.got + [item], Owed(round, item)) else Broken
    case Dispatched(round, call, tick) =>
      if p.Announced? && p.round == round && p.rest != [] && p.rest[0] == call && rules.active(tick)
      then InFlight(round, p.turn, p.rest, tick) else Broken
  }

  /** Usage is merged within a round and accumulated when the round completes. */
  function NextUsage(v: View, e: Entry): Usage {
    if e.Observed? && e.event.ModelRoundCompleted? && v.phase.Streaming?
    then Accumulated(v.usage, MergeAll(NO_USAGE, Reports(v.phase.got)))
    else v.usage
  }

  function NextFailed(v: View, e: Entry): Option<FailedCall> {
    if e.Observed? && e.event.ToolFailed? && v.phase.InFlight?
    then Some(FailedCall(e.event.name, e.event.failure, v.phase.tick))
    else v.failed
  }

  function Step(rules: Rules, v: View, e: Entry): View {
    View(
      NextPhase(rules, v, e),
      NextContext(v.context, e),
      if e.Asked? then v.requests + [Request(e.messages, v.transcript)] else v.requests,
      if e.Dispatched? then v.dispatched + [e.call] else v.dispatched,
      if IsTranscript(e) then v.transcript + e.event.messages else v.transcript,
      NextUsage(v, e),
      NextFailed(v, e))
  }

  function Replay(rules: Rules, log: seq<Entry>): View {
    if log == [] then Start(rules) else Step(rules, Replay(rules, log[..|log| - 1]), log[|log| - 1])
  }

  lemma {:induction false} ReplaySnoc(rules: Rules, log: seq<Entry>, e: Entry)
    ensures Replay(rules, log + [e]) == Step(rules, Replay(rules, log), e)
  {
    hide Step;
    assert (log + [e])[..|log|] == log;
  }

  // ---------------------------------------------------------------- one step

  predicate IsTerminal(e: Entry) {
    e.Observed? && (e.event.RunCompleted? || e.event.RunFailed?)
  }

  predicate IsSettlement(e: Entry) {
    e.Observed? && (e.event.ToolCompleted? || e.event.ToolFailed?)
  }

  predicate IsTranscript(e: Entry) {
    e.Observed? && e.event.TranscriptMessages?
  }

  predicate Settles(e: Entry, round: nat, call: ToolCall) {
    && IsSettlement(e)
    && e.event.round == round && e.event.callId == call.id && e.event.name == call.name
  }

  /** The tool phase of a round, from its first announcement to its transcript. */
  predicate InToolPhase(p: Phase, round: nat) {
    (p.Ready? || p.Announced? || p.InFlight? || p.Failing?) && p.round == round
  }

  /** A run that a failed settlement has ended. */
  predicate Winding(p: Phase) {
    p.Failing? || p.Closed? || p.Finished?
  }

  lemma {:induction false} ToolSteps(rules: Rules, v: View, e: Entry, v': View)
    requires v' == Step(rules, v, e) && !v'.phase.Broken?
    ensures v'.phase.Announced? ==>
              v'.phase.rest != []
              && e == Observed(ToolStarted(v'.phase.round, v'.phase.rest[0].id, v'.phase.rest[0].name))
    ensures v'.phase.InFlight? ==>
              && v.phase.Announced? && v.phase.round == v'.phase.round && v.phase.rest == v'.phase.rest
              && e.Dispatched? && e.tick == v'.phase.tick
    ensures e.Dispatched? ==>
              && v'.phase.InFlight? && v'.phase.rest != []
              && e.round == v'.phase.round && e.call == v'.phase.rest[0] && rules.active(e.tick)
    ensures v.phase.InFlight? && v.phase.rest != [] ==>
              var call := v.phase.rest[0];
              e == Observed(SettlementOf(v.phase.round, call, rules.execute(v.phase.tick + 1, call)))
    ensures IsSettlement(e) ==> v.phase.InFlight?
  {
    hide NextContext, NextUsage, Applies, Complete, Validated, Yields, YieldsAll, Stopped, MayFail, AfterRound;
    hide AssistantMessage, Calls, ResultMessage, TerminalMessage;
    AfterRoundKind(rules, v);
    FailingPhases(v);
  }

  lemma {:induction false} AfterRoundKind(rules: Rules, v: View)
    ensures v.phase.Streaming? ==>
              var p := AfterRound(rules, v.phase.round, v.phase.got);
              (p.Answering? || p.Exhausted? || p.Ready?) && p.round == v.phase.round
  {
    hide AssistantMessage, Calls;
  }

  lemma {:induction false} PhaseSteps(rules: Rules, v: View, e: Entry, v': View)
    requires v' == Step(rules, v, e) && !v'.phase.Broken?
    ensures !v.phase.Broken? && !v.phase.Finished?
    ensures IsTerminal(e) <==> v'.phase.Finished?
    ensures Winding(v.phase) ==> Winding(v'.phase) && !e.Dispatched? && v'.failed == v.failed
    ensures forall round :: InToolPhase(v.phase, round) ==>
              InToolPhase(v'.phase, round) || (IsTranscript(e) && e.event.round == round)
    ensures e.Observed? && e.event.ToolFailed? ==>
              && v'.phase.Failing?
              && v.phase.InFlight? && v'.failed == Some(FailedCall(e.event.name, e.event.failure, v.phase.tick))
  {
    hide NextContext, NextUsage, Applies, Complete, Validated, Yields, YieldsAll, Stopped, MayFail, AfterRound;
    hide AssistantMessage, Calls, ResultMessage, TerminalMessage;
    AfterRoundKind(rules, v);
    FailingPhases(v);
  }

  lemma {:induction false} FailingPhases(v: View)
    ensures forall code :: MayFail(v, code) ==>
              && !v.phase.Finished? && !v.phase.Broken? && !v.phase.Failing? && !v.phase.InFlight?
              && forall round :: !InToolPhase(v.phase, round)
    ensures v.phase.Closed? && v.failed.Some? && v.failed.value.failure.outcome.Unknown? ==>
              forall code :: MayFail(v, code) ==> code == CodeToolError
  {
  }

  function Progress(p: Phase): int {
    match p
    case Fresh => 0
    case Between(done) => 4 * done
    case Compacted(done) => 4 * done + 1
    case Opened(round) => 4 * round - 2
    case Streaming(round, _, _) => 4 * round - 2
    case Answering(round, _) => 4 * round - 1
    case Exhausted(round) => 4 * round - 1
    case Ready(round, _, _) => 4 * round - 1
    case Announced(round, _, _) => 4 * round - 1
    case InFlight(round, _, _, _) => 4 * round - 1
    case Failing(round, _, _) => 4 * round - 1
    case Delivered(round) => 4 * round
    case Closed(round) => 4 * round
    case Finished => 0
    case Broken => 0
  }

  lemma {:induction false} ProgressSteps(rules: Rules, v: View, e: Entry, v': View)
    requires v' == Step(rules, v, e) && !v'.phase.Broken?
    ensures v'.phase.Finished? || Progress(v.phase) <= Progress(v'.phase)
    ensures IsTranscript(e) ==> Progress(v.phase) == 4 * e.event.round - 1 && Progress(v'.phase) == 4 * e.event.round
    ensures e.Dispatched? ==> Progress(v'.phase) == 4 * e.round - 1
    ensures e.Received? ==> Progress(v.phase) == 4 * e.round - 2
  {
    hide NextContext, NextUsage, Applies, Complete, Validated, Yields, YieldsAll, Stopped, MayFail, AfterRound;
    hide AssistantMessage, Calls, ResultMessage, TerminalMessage;
    AfterRoundKind(rules, v);
  }

  // ---------------------------------------------------------------- what acceptance means

  predicate Accepted(rules: Rules, log: seq<Entry>) {
    !Replay(rules, log).phase.Broken?
  }

  lemma {:induction false} BrokenStays(rules: Rules, v: View, e: Entry)
    requires v.phase.Broken?
    ensures Step(rules, v, e).phase.Broken?
  {
  }

  lemma {:induction false} ReplayUnfold(rules: Rules, log: seq<Entry>)
    requires log != []
    ensures Replay(rules, log) == Step(rules, Replay(rules, log[..|log| - 1]), log[|log| - 1])
  {
    hide Step;
  }

  lemma {:induction false} PrefixAccepted(rules: Rules, log: seq<Entry>, n: nat)
    requires Accepted(rules, log) && n <= |log|
    ensures Accepted(rules, log[..n])
    decreases |log|
  {
    hide Step, Replay;
    if n == |log| {
      assert log[..n] == log;
    } else {
      var init := log[..|log| - 1];
      ReplayUnfold(rules, log);
      if Replay(rules, init).phase.Broken? { BrokenStays(rules, Replay(rules, init), log[|log| - 1]); }
      PrefixAccepted(rules, init, n);
      assert init[..n] == log[..n];
    }
  }

  ghost function At(rules: Rules, log: seq<Entry>, i: nat): View
    requires i <= |log|
  {
    Replay(rules, log[..i])
  }

  /** The views before and after entry `i` of an accepted log. */
  lemma {:induction false} StepAt(rules: Rules, log: seq<Entry>, i: nat)
    requires Accepted(rules, log) && i < |log|
    ensures !At(rules, log, i).phase.Broken? && !At(rules, log, i + 1).phase.Broken?
    ensures At(rules, log, i + 1) == Step(rules, At(rules, log, i), log[i])
    ensures i + 1 == |log| ==> At(rules, log, i + 1) == Replay(rules, log)
  {
    hide Step, Replay;
    PrefixAccepted(rules, log, i);
    PrefixAccepted(rules, log, i + 1);
    ReplayUnfold(rules, log[..i + 1]);
    assert log[..i + 1][..i] == log[..i];
    if i + 1 == |log| { assert log[..i + 1] == log; }
  }

  lemma {:induction false} AtStart(rules: Rules, log: seq<Entry>)
    ensures At(rules, log, 0) == Start(rules)
  {
    assert log[..0] == [];
  }

  /** A settlement directly follows the dispatch of its call, which directly follows its
      announcement; and the dispatch happened while the run was active. */
  lemma {:induction false} SettlementIsPreceded(rules: Rules, log: seq<Entry>, i: nat)
    requires Accepted(rules, log) && i < |log| && IsSettlement(log[i])
    ensures i >= 2 && log[i - 1].Dispatched?
    ensures Settles(log[i], log[i - 1].round, log[i - 1].call)
    ensures log[i - 2] == Observed(ToolStarted(log[i - 1].round, log[i - 1].call.id, log[i - 1].call.name))
    ensures rules.active(log[i - 1].tick)
  {
    hide Step, Replay, At;
    AtStart(rules, log);
    StepAt(rules, log, i);
    ToolSteps(rules, At(rules, log, i), log[i], At(rules, log, i + 1));
    StepAt(rules, log, i - 1);
    ToolSteps(rules, At(rules, log, i - 1), log[i - 1], At(rules, log, i));
    StepAt(rules, log, i - 2);
    ToolSteps(rules, At(rules, log, i - 2), log[i - 2], At(rules, log, i - 1));
  }

  /** A dispatched call is settled by the very next entry, so exactly once, and that entry reports what the
      executor answered. */
  lemma {:induction false} DispatchIsSettled(rules: Rules, log: seq<Entry>, i: nat)
    requires Replay(rules, log).phase.Finished? && i < |log| && log[i].Dispatched?
    ensures i + 1 < |log| && Settles(log[i + 1], log[i].round, log[i].call)
    ensures log[i + 1] == Observed(SettlementOf(log[i].round, log[i].call, rules.execute(log[i].tick + 1, log[i].call)))
    ensures rules.active(log[i].tick)
  {
    hide Step, Replay, At;
    StepAt(rules, log, i);
    ToolSteps(rules, At(rules, log, i), log[i], At(rules, log, i + 1));
    assert i + 1 < |log|;
    NextSettles(rules, log, i);
  }

  lemma {:induction false} NextSettles(rules: Rules, log: seq<Entry>, i: nat)
    requires Accepted(rules, log) && i + 1 < |log| && log[i].Dispatched?
    ensures log[i + 1] == Observed(SettlementOf(log[i].round, log[i].call, rules.execute(log[i].tick + 1, log[i].call)))
  {
    hide Step, Replay, At;
    StepAt(rules, log, i);
    ToolSteps(rules, At(rules, log, i), log[i], At(rules, log, i + 1));
    StepAt(rules, log, i + 1);
    ToolSteps(rules, At(rules, log, i + 1), log[i + 1], At(rules, log, i + 2));
  }

  /** Exactly one terminal event, and it ends the log. */
  lemma {:induction false} TerminalIsLast(rules: Rules, log: seq<Entry>, i: nat)
    requires Replay(rules, log).phase.Finished? && i < |log|
    ensures IsTerminal(log[i]) <==> i == |log| - 1
  {
    hide Step, Replay, At;
    StepAt(rules, log, i);
    PhaseSteps(rules, At(rules, log, i), log[i], At(rules, log, i + 1));
    if i < |log| - 1 {
      StepAt(rules, log, i + 1);
      PhaseSteps(rules, At(rules, log, i + 1), log[i + 1], At(rules, log, i + 2));
    }
  }

  lemma {:induction false} WindingDown(rules: Rules, log: seq<Entry>, i: nat, j: nat)
    requires Accepted(rules, log) && i <= j < |log|
    requires Winding(At(rules, log, i).phase)
    ensures Winding(At(rules, log, j).phase) && !log[j].Dispatched?
    ensures At(rules, log, j).failed == At(rules, log, i).failed
    decreases j
  {
    hide Step, Replay, At;
    StepAt(rules, log, j);
    if i < j {
      WindingDown(rules, log, i, j - 1);
      StepAt(rules, log, j - 1);
      PhaseSteps(rules, At(rules, log, j - 1), log[j - 1], At(rules, log, j));
    }
    PhaseSteps(rules, At(rules, log, j), log[j], At(rules, log, j + 1));
  }

  /** Once the executor has answered a call with a failure, nothing more is dispatched. */
  lemma {:induction false} NothingAfterFailure(rules: Rules, log: seq<Entry>, i: nat, j: nat)
    requires Accepted(rules, log) && i < j < |log|
    requires log[i].Dispatched? && rules.execute(log[i].tick + 1, log[i].call).Err?
    ensures !log[j].Dispatched?
  {
    hide Step, Replay, At;
    NextSettles(rules, log, i);
    StepAt(rules, log, i + 1);
    PhaseSteps(rules, At(rules, log, i + 1), log[i + 1], At(rules, log, i + 2));
    if i + 1 < j { WindingDown(rules, log, i + 2, j); }
  }

  // ---------------------------------------------------------------- order of rounds

  lemma {:induction false} ProgressGrows(rules: Rules, log: seq<Entry>, i: nat, j: nat)
    requires Accepted(rules, log) && i <= j < |log|
    ensures !At(rules, log, j).phase.Finished?
    ensures Progress(At(rules, log, i).phase) <= Progress(At(rules, log, j).phase)
    decreases j
  {
    hide Step, Replay, At;
    StepAt(rules, log, j);
    PhaseSteps(rules, At(rules, log, j), log[j], At(rules, log, j + 1));
    if i < j {
      ProgressGrows(rules, log, i, j - 1);
      StepAt(rules, log, j - 1);
      ProgressSteps(rules, At(rules, log, j - 1), log[j - 1], At(rules, log, j));
    }
  }

  /** Transcripts are delivered for strictly increasing rounds: at most one per round. */
  lemma {:induction false} OneTranscriptPerRound(rules: Rules, log: seq<Entry>, i: nat, j: nat)
    requires Accepted(rules, log) && i < j < |log|
    requires IsTranscript(log[i]) && IsTranscript(log[j])
    ensures log[i].event.round < log[j].event.round
  {
    hide Step, Replay, At;
    StepAt(rules, log, i);
    ProgressSteps(rules, At(rules, log, i), log[i], At(rules, log, i + 1));
    ProgressGrows(rules, log, i + 1, j);
    StepAt(rules, log, j);
    ProgressSteps(rules, At(rules, log, j), log[j], At(rules, log, j + 1));
  }

  /** Once a call of a round is dispatched, no further provider event of that round, or of an
      earlier one, is read: its stream was complete. */
  lemma {:induction false} StreamEndsBeforeDispatch(rules: Rules, log: seq<Entry>, i: nat, j: nat)
    requires Accepted(rules, log) && i < j < |log|
    requires log[i].Dispatched? && log[j].Received?
    ensures log[i].round < log[j].round
  {
    hide Step, Replay, At;
    StepAt(rules, log, i);
    ProgressSteps(rules, At(rules, log, i), log[i], At(rules, log, i + 1));
    ProgressGrows(rules, log, i + 1, j);
    StepAt(rules, log, j);
    ProgressSteps(rules, At(rules, log, j), log[j], At(rules, log, j + 1));
  }

  /** Every round that asked for tools and may go on delivers its transcript before the run ends. */
  lemma {:induction false} TranscriptFollows(rules: Rules, log: seq<Entry>, i: nat) returns (k: nat)
    requires Replay(rules, log).phase.Finished? && i < |log|
    requires log[i].Observed? && log[i].event.ModelRoundCompleted? && log[i].event.reason.ToolCalls?
    requires log[i].event.round != rules.maxModelRounds
    ensures i < k < |log| && IsTranscript(log[k]) && log[k].event.round == log[i].event.round
  {
    hide Step, Replay;
    StepAt(rules, log, i);
    ToolRoundOpens(rules, At(rules, log, i), log[i], At(rules, log, i + 1));
    k := NextTranscript(rules, log, i + 1, log[i].event.round);
  }

  lemma {:induction false} ToolRoundOpens(rules: Rules, v: View, e: Entry, v': View)
    requires v' == Step(rules, v, e) && !v'.phase.Broken?
    requires e.Observed? && e.event.ModelRoundCompleted? && e.event.reason.ToolCalls?
    requires e.event.round != rules.maxModelRounds
    ensures InToolPhase(v'.phase, e.event.round)
  {
    hide NextContext, NextUsage, NextFailed, Validated, Calls, AssistantMessage;
  }

  lemma {:induction false} NextTranscript(rules: Rules, log: seq<Entry>, j: nat, round: nat) returns (k: nat)
    requires Replay(rules, log).phase.Finished? && 0 < j <= |log|
    requires InToolPhase(At(rules, log, j).phase, round)
    ensures j <= k < |log| && IsTranscript(log[k]) && log[k].event.round == round
    decreases |log| - j
  {
    hide Step, Replay, At;
    StepAt(rules, log, j - 1);
    assert j < |log|;
    StepAt(rules, log, j);
    PhaseSteps(rules, At(rules, log, j), log[j], At(rules, log, j + 1));
    if InToolPhase(At(rules, log, j + 1).phase, round) {
      k := NextTranscript(rules, log, j + 1, round);
    } else {
      k := j;
    }
  }

  /** A failure that the executor answered is on record at the end, and an unknown outcome ends the log with the
      tool-error code. */
  lemma {:induction false} FailureIsOnRecord(rules: Rules, log: seq<Entry>, i: nat)
    requires Replay(rules, log).phase.Finished? && i < |log| && log[i].Dispatched?
    requires rules.execute(log[i].tick + 1, log[i].call).Err?
    ensures var failure := rules.execute(log[i].tick + 1, log[i].call).error;
            && At(rules, log, |log| - 1).failed == Some(FailedCall(log[i].call.name, failure, log[i].tick))
            && log[|log| - 1].Observed? && log[|log| - 1].event.RunFailed?
            && (failure.outcome.Unknown? ==> log[|log| - 1] == Observed(RunFailed(CodeToolError)))
  {
    hide Step, Replay, At;
    var n := |log| - 1;
    DispatchIsSettled(rules, log, i);
    StepAt(rules, log, i);
    ToolSteps(rules, At(rules, log, i), log[i], At(rules, log, i + 1));
    StepAt(rules, log, i + 1);
    PhaseSteps(rules, At(rules, log, i + 1), log[i + 1], At(rules, log, i + 2));
    assert i + 1 < n;
    WindingDown(rules, log, i + 2, n);
    StepAt(rules, log, n);
    PhaseSteps(rules, At(rules, log, n), log[n], At(rules, log, n + 1));
    LastOfWinding(rules, At(rules, log, n), log[n]);
  }

  /** A failure on record is the executor's answer to a dispatched call. */
  lemma {:induction false} FailedIsLogged(rules: Rules, log: seq<Entry>) returns (i: nat)
    requires Accepted(rules, log) && Replay(rules, log).failed.Some?
    ensures var f := Replay(rules, log).failed.value;
            && i < |log| && log[i].Dispatched? && log[i].tick == f.tick && log[i].call.name == f.name
            && rules.execute(log[i].tick + 1, log[i].call) == Err(f.failure)
  {
    hide Step, Replay, At;
    NothingFailedYet(rules);
    var n := |log| - 1;
    var v, e := At(rules, log, n), log[n];
    StepAt(rules, log, n);
    FailedStep(rules, v, e);
    if e.Observed? && e.event.ToolFailed? {
      SettlementIsPreceded(rules, log, n);
      NextSettles(rules, log, n - 1);
      StepAt(rules, log, n - 1);
      ToolSteps(rules, At(rules, log, n - 1), log[n - 1], v);
      ToolSteps(rules, v, e, At(rules, log, n + 1));
      i := n - 1;
    } else {
      PrefixAccepted(rules, log, n);
      assert At(rules, log, n) == Replay(rules, log[..n]) by { AtUnfold(rules, log, n); }
      i := FailedIsLogged(rules, log[..n]);
    }
  }

  lemma {:induction false} AtUnfold(rules: Rules, log: seq<Entry>, i: nat)
    requires i <= |log|
    ensures At(rules, log, i) == Replay(rules, log[..i])
  {
    hide Replay;
  }

  lemma {:induction false} NothingFailedYet(rules: Rules)
    ensures Replay(rules, []).failed.None?
  {
  }

  lemma {:induction false} FailedStep(rules: Rules, v: View, e: Entry)
    ensures var v' := Step(rules, v, e);
            !v'.phase.Broken? ==>
              if e.Observed? && e.event.ToolFailed?
              then v.phase.InFlight? && v'.failed == Some(FailedCall(e.event.name, e.event.failure, v.phase.tick))
              else v'.failed == v.failed
  {
    hide NextContext, NextUsage, AfterRound, Complete, Validated, Yields, YieldsAll, Stopped, MayFail, Applies;
  }

  lemma {:induction false} LastOfWinding(rules: Rules, v: View, e: Entry)
    requires Winding(v.phase) && v.failed.Some? && IsTerminal(e) && !Step(rules, v, e).phase.Broken?
    ensures e.event.RunFailed?
    ensures v.failed.value.failure.outcome.Unknown? ==> e == Observed(RunFailed(CodeToolError))
  {
    hide NextContext, NextUsage, NextFailed;
  }

  // ---------------------------------------------------------------- the view is a summary of the log

  function DispatchedCalls(log: seq<Entry>): seq<ToolCall> {
    if log == [] then []
    else DispatchedCalls(log[..|log| - 1]) + (if log[|log| - 1].Dispatched? then [log[|log| - 1].call] else [])
  }

  function DeliveredMessages(log: seq<Entry>): seq<Message> {
    if log == [] then []
    else
      var front, e := log[..|log| - 1], log[|log| - 1];
      DeliveredMessages(front) + (if IsTranscript(e) then e.event.messages else [])
  }

  /** The requests of a run, each with what had been delivered before it. */
  function ProviderRequests(log: seq<Entry>): seq<Request> {
    if log == [] then []
    else
      var front, e := log[..|log| - 1], log[|log| - 1];
      ProviderRequests(front) + (if e.Asked? then [Request(e.messages, DeliveredMessages(front))] else [])
  }

  /** The context that starts as `input` and is edited and extended as the log reports. */
  function ContextAfter(input: seq<Message>, log: seq<Entry>): seq<Message> {
    if log == [] then input else NextContext(ContextAfter(input, log[..|log| - 1]), log[|log| - 1])
  }

  /** What the reader of a log accumulates is what the log says. */
  lemma {:induction false} ViewSummarizes(rules: Rules, log: seq<Entry>)
    ensures var v := Replay(rules, log);
            && v.dispatched == DispatchedCalls(log)
            && v.transcript == DeliveredMessages(log)
            && v.requests == ProviderRequests(log)
            && v.context == ContextAfter(rules.input, log)
  {
    hide NextPhase, NextContext, NextUsage, NextFailed;
    if log != [] { ViewSummarizes(rules, log[..|log| - 1]); }
  }

  /** Every request is exactly the input as edited by the compactions the observer was told of and extended by
      the transcripts delivered before it; and every reported range lay in that context. */
  lemma {:induction false} RequestsAreContexts(rules: Rules, log: seq<Entry>, i: nat)
    requires Accepted(rules, log) && i < |log|
    ensures log[i].Asked? ==> log[i].messages == ContextAfter(rules.input, log[..i])
    ensures log[i].Observed? && log[i].event.ContextCompacted? ==>
              Applies(log[i].event.compaction, ContextAfter(rules.input, log[..i]))
  {
    hide Replay, NextContext, NextUsage, NextFailed, Applies, AfterRound, Complete, Validated, Stopped, MayFail;
    StepAt(rules, log, i);
    ViewSummarizes(rules, log[..i]);
  }

  /** A request of the log is in the list of requests, with what had been delivered before it. */
  lemma {:induction false} RequestIsListed(log: seq<Entry>, i: nat) returns (k: nat)
    requires i < |log| && log[i].Asked?
    ensures k < |ProviderRequests(log)|
    ensures ProviderRequests(log)[k] == Request(log[i].messages, DeliveredMessages(log[..i]))
    decreases |log|
  {
    hide DeliveredMessages;
    var front := log[..|log| - 1];
    if i == |log| - 1 {
      k := |ProviderRequests(front)|;
    } else {
      k := RequestIsListed(front, i);
      assert front[..i] == log[..i];
    }
  }

  /** How many requests a run has made when it is in phase `p`. */
  function RequestsMade(p: Phase): int {
    match p
    case Between(done) => done
    case Compacted(done) => done
    case Opened(round) => round - 1
    case Streaming(round, _, _) => round
    case Answering(round, _) => round
    case Delivered(round) => round
    case Exhausted(round) => round
    case Ready(round, _, _) => round
    case Announced(round, _, _) => round
    case InFlight(round, _, _, _) => round
    case Failing(round, _, _) => round
    case Closed(round) => round
    case _ => 0
  }

  lemma {:induction false} RequestStep(rules: Rules, v: View, e: Entry, v': View)
    requires v' == Step(rules, v, e) && !v'.phase.Broken? && !v'.phase.Finished?
    ensures RequestsMade(v'.phase) == RequestsMade(v.phase) + (if e.Asked? then 1 else 0)
    ensures |v'.requests| == |v.requests| + (if e.Asked? then 1 else 0)
  {
    hide NextContext, NextUsage, Applies, Complete, Validated, Yields, YieldsAll, Stopped, MayFail, AfterRound;
    hide AssistantMessage, Calls, ResultMessage, TerminalMessage, Owed;
    AfterRoundKind(rules, v);
  }

  lemma {:induction false} RequestsCounted(rules: Rules, log: seq<Entry>)
    requires Accepted(rules, log) && !Replay(rules, log).phase.Finished?
    ensures |Replay(rules, log).requests| == RequestsMade(Replay(rules, log).phase)
  {
    hide Step, RequestsMade;
    if log == [] {
      assert RequestsMade(Fresh) == 0 by { NothingRequested(); }
    } else {
      var front, e := log[..|log| - 1], log[|log| - 1];
      ReplayUnfold(rules, log);
      PrefixAccepted(rules, log, |log| - 1);
      PhaseSteps(rules, Replay(rules, front), e, Replay(rules, log));
      RequestStep(rules, Replay(rules, front), e, Replay(rules, log));
      RequestsCounted(rules, front);
    }
  }

  lemma {:induction false} NothingRequested()
    ensures RequestsMade(Fresh) == 0
  {}

  /** The counts in the completion event are the real ones: one provider request per reported round and one
      dispatch per reported tool call. */
  lemma {:induction false} CompletionCounts(rules: Rules, log: seq<Entry>)
    requires Replay(rules, log).phase.Finished? && log != []
    requires log[|log| - 1].Observed? && log[|log| - 1].event.RunCompleted?
    ensures |ProviderRequests(log)| == log[|log| - 1].event.rounds
    ensures |DispatchedCalls(log)| == log[|log| - 1].event.toolCalls
  {
    hide NextContext, NextUsage, Applies, Complete, Validated, Yields, YieldsAll, Stopped, MayFail, AfterRound;
    hide AssistantMessage, Calls, Replay;
    var front := log[..|log| - 1];
    ReplayUnfold(rules, log);
    PrefixAccepted(rules, log, |log| - 1);
    RequestsCounted(rules, front);
    ViewSummarizes(rules, log);
  }
}
