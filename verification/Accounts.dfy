/** What each round of a log received, dispatched, settled and reported, and what follows from it for every
    dispatch, every transcript and the usage of a run. */
module Accounts {
  import opened Wrappers
  import opened AgentTypes
  import opened Budget
  import opened Turn
  import opened RunLog

  datatype Tally = Tally(
    request: Option<seq<Message>>,
    received: seq<ProviderEvent>,
    dispatched: seq<ToolCall>,
    settled: seq<Message>,
    reports: seq<Usage>)

  const NO_TALLY := Tally(None, [], [], [], [])

  /** The result message that a settlement event stands for. */
  function ResultOf(e: RunEvent): Message
    requires e.ToolCompleted? || e.ToolFailed?
  {
    ResultMessage(ToolCall(e.callId, e.name, ""),
                  if e.ToolCompleted? then e.output else ToolOutput(Some(OutcomeText(e.failure.outcome)), None))
  }

  function Add(t: Tally, e: Entry, round: nat): Tally {
    match e
    case Received(r, item) => if r == round then t.(received := t.received + [item]) else t
    case Dispatched(r, call, _) => if r == round then t.(dispatched := t.dispatched + [call]) else t
    case Asked(r, ms) => if r == round then t.(request := Some(ms)) else t
    case Observed(event) =>
      if IsSettlement(e) && event.round == round then t.(settled := t.settled + [ResultOf(event)])
      else if event.UsageReported? && event.round == round then t.(reports := t.reports + [event.usage])
      else t
  }

  /** What the log says about one round. */
  function TallyOf(log: seq<Entry>, round: nat): Tally {
    if log == [] then NO_TALLY else Add(TallyOf(log[..|log| - 1], round), log[|log| - 1], round)
  }

  /** The usage reported in the first n rounds: merged within each, accumulated over them. */
  function ReportedUsage(log: seq<Entry>, n: nat): Usage {
    if n == 0 then NO_USAGE
    else Accumulated(ReportedUsage(log, n - 1), MergeAll(NO_USAGE, TallyOf(log, n).reports))
  }

  lemma {:induction false} TallySnoc(log: seq<Entry>, e: Entry, round: nat)
    ensures TallyOf(log + [e], round) == Add(TallyOf(log, round), e, round)
  {
    hide Add;
    assert (log + [e])[..|log|] == log;
  }

  // ---------------------------------------------------------------- the invariant of a log

  function OwedReports(owed: Option<RunEvent>): seq<Usage> {
    if owed.Some? && owed.value.UsageReported? then [owed.value.usage] else []
  }

  /** All the provider yielded for the request of the round has been received, it completed and asks for tools, and
      it passed validation. */
  predicate AsksForTools(rules: Rules, round: nat, t: Tally) {
    && Complete(t.received, ToolCalls) && Validated(rules, t.received)
    && t.request.Some? && YieldsAll(rules, round, t.request.value, t.received)
  }

  /** What a phase knows about the tally of its own round. */
  ghost predicate Agrees(rules: Rules, p: Phase, context: seq<Message>, t: Tally) {
    match p
    case Opened(_) => t == NO_TALLY
    case Streaming(round, got, owed) =>
      && t == Tally(Some(context), got, [], [], t.reports) && Yields(rules, round, context, got)
      && t.reports + OwedReports(owed) == Reports(got)
    case Answering(_, answer) =>
      && t == Tally(t.request, t.received, [], [], t.reports)
      && answer == AssistantMessage(t.received) && Calls(t.received) == []
    case Ready(round, turn, rest) => Settling(rules, round, t, turn, t.dispatched, rest)
    case Announced(round, turn, rest) => Settling(rules, round, t, turn, t.dispatched, rest)
    case Failing(round, turn, rest) => Settling(rules, round, t, turn, t.dispatched, rest)
    case InFlight(round, turn, rest, _) =>
      && rest != [] && t.dispatched != [] && t.dispatched[|t.dispatched| - 1] == rest[0]
      && Settling(rules, round, t, turn, t.dispatched[..|t.dispatched| - 1], rest)
    case _ => true
  }

  /** A tool phase whose first calls `done` are settled. */
  ghost predicate Settling(rules: Rules, round: nat, t: Tally, turn: seq<Message>, done: seq<ToolCall>,
                           rest: seq<ToolCall>)
  {
    && AsksForTools(rules, round, t)
    && done + rest == Calls(t.received) && |done| == |t.settled|
    && turn == [AssistantMessage(t.received)] + t.settled
  }

  /** The round a phase is in. */
  predicate Within(p: Phase, round: nat) {
    match p
    case Opened(r) => r == round
    case Streaming(r, _, _) => r == round
    case Answering(r, _) => r == round
    case Ready(r, _, _) => r == round
    case Announced(r, _, _) => r == round
    case InFlight(r, _, _, _) => r == round
    case Failing(r, _, _) => r == round
    case _ => false
  }

  /** How many rounds have completed their stream. */
  function Streamed(p: Phase): nat {
    match p
    case Between(done) => done
    case Compacted(done) => done
    case Opened(round) => if round > 0 then round - 1 else 0
    case Streaming(round, _, _) => if round > 0 then round - 1 else 0
    case Answering(round, _) => round
    case Delivered(round) => round
    case Exhausted(round) => round
    case Ready(round, _, _) => round
    case Announced(round, _, _) => round
    case InFlight(round, _, _, _) => round
    case Failing(round, _, _) => round
    case Closed(round) => round
    case _ => 0
  }

  /** Rounds count from one, and what a stream owes is of its own round. */
  predicate Proper(p: Phase) {
    && (p.Opened? || p.Streaming? ==> p.round > 0)
    && (p.Streaming? && p.owed.Some? ==>
          (p.owed.value.TextStreamed? || p.owed.value.UsageReported?) && p.owed.value.round == p.round)
  }

  ghost predicate Account(rules: Rules, v: View, log: seq<Entry>) {
    && Proper(v.phase)
    && (forall round: nat {:trigger TallyOf(log, round)} ::
          round > RequestsMade(v.phase) ==> TallyOf(log, round) == NO_TALLY)
    && (forall round: nat :: Within(v.phase, round) ==> Agrees(rules, v.phase, v.context, TallyOf(log, round)))
    && v.usage == ReportedUsage(log, Streamed(v.phase))
  }

  // ---------------------------------------------------------------- one step

  /** The entry adds to the tally of the round. */
  predicate Speaks(e: Entry, round: nat) {
    match e
    case Received(r, _) => r == round
    case Dispatched(r, _, _) => r == round
    case Asked(r, _) => r == round
    case Observed(event) => (IsSettlement(e) || event.UsageReported?) && event.round == round
  }

  lemma {:induction false} SilentEntry(t: Tally, e: Entry, round: nat)
    requires !Speaks(e, round)
    ensures Add(t, e, round) == t
  {
    hide ResultOf;
  }

  /** An accepted entry speaks only of the round that the phase is in, and rounds only go forward. */
  lemma {:induction false} StepRounds(rules: Rules, v: View, e: Entry, v': View)
    requires v' == Step(rules, v, e) && !v'.phase.Broken? && !v'.phase.Finished? && Proper(v.phase)
    ensures Proper(v'.phase)
    ensures forall round: nat :: Within(v'.phase, round) ==>
              Within(v.phase, round) || (v'.phase.Opened? && round > RequestsMade(v.phase))
    ensures RequestsMade(v.phase) <= RequestsMade(v'.phase)
    ensures forall round: nat :: Speaks(e, round) ==> Within(v.phase, round) && round <= RequestsMade(v'.phase)
  {
    hide NextContext, NextUsage, NextFailed, Applies, Complete, Validated, Yields;
    hide YieldsAll, Stopped, MayFail, AssistantMessage, Calls;
    hide ResultMessage, TerminalMessage;
  }

  lemma {:induction false} NewRoundAgrees(rules: Rules, v: View, e: Entry, v': View, t: Tally, round: nat)
    requires v' == Step(rules, v, e) && v'.phase.Opened? && t == NO_TALLY
    ensures Agrees(rules, v'.phase, v'.context, Add(t, e, round))
  {
    hide NextContext, NextUsage, NextFailed, Applies, AfterRound, Complete, Validated;
    hide Yields, YieldsAll, Stopped, MayFail, Settling;
    hide ResultMessage, TerminalMessage, OwedReports, Reports, AssistantMessage, Calls, ResultOf;
  }

  /** While a stream is read the tally follows it. */
  lemma {:induction false} StreamAgrees(rules: Rules, v: View, e: Entry, v': View, t: Tally, round: nat)
    requires v' == Step(rules, v, e) && v'.phase.Streaming? && v'.phase.round == round
    requires Proper(v.phase) && Within(v.phase, round) && Agrees(rules, v.phase, v.context, t)
    ensures Agrees(rules, v'.phase, v'.context, Add(t, e, round))
  {
    hide Apply, NextUsage, NextFailed, Applies, Complete, Validated, YieldsAll, Stopped, MayFail, Settling;
    hide Calls, AssistantMessage;
    if e.Received? {
      hide Reports, Yields;
      OneMoreEvent(v.phase.got, e.item);
      assert t.reports + [] == t.reports;
    } else if e.Observed? {
      hide Reports, Yields;
      assert v.phase.Streaming?;
      assert v.phase.owed == Some(e.event);
      assert t.reports + [] == t.reports;
      assert (t.reports + OwedReports(v.phase.owed)) + [] == t.reports + OwedReports(v.phase.owed);
    }
  }

  /** When it completes, the answer or the tool phase starts from all of it. */
  lemma {:induction false} CompletionAgrees(rules: Rules, v: View, e: Entry, v': View, t: Tally, round: nat)
    requires v' == Step(rules, v, e) && (v'.phase.Ready? || v'.phase.Answering?) && v'.phase.round == round
    requires v.phase.Streaming? && v.phase.round == round && Agrees(rules, v.phase, v.context, t)
    ensures Agrees(rules, v'.phase, v'.context, Add(t, e, round))
  {
    hide Step, Complete, Validated, Yields, YieldsAll, AssistantMessage, Calls, Reports;
    CompletionShapes(rules, v, e, v', round);
    var calls := Calls(v.phase.got);
    assert [] + calls == calls;
  }

  lemma {:induction false} CompletionShapes(rules: Rules, v: View, e: Entry, v': View, round: nat)
    requires v' == Step(rules, v, e) && (v'.phase.Ready? || v'.phase.Answering?) && v'.phase.round == round
    requires v.phase.Streaming? && v.phase.round == round
    ensures e.Observed? && e.event.ModelRoundCompleted? && v.phase.owed.None?
    ensures var got := v.phase.got;
            && Complete(got, e.event.reason) && Validated(rules, got) && YieldsAll(rules, round, v.context, got)
            && v'.phase == AfterRound(rules, round, got)
            && (Calls(got) == [] <==> v'.phase.Answering?)
            && (v'.phase.Ready? ==> e.event.reason.ToolCalls?)
  {
    hide NextContext, NextUsage, NextFailed, Applies, Validated, Yields, YieldsAll, Stopped, MayFail, Calls;
    hide AssistantMessage;
  }

  /** The steps inside a tool phase. */
  lemma {:induction false} ToolShapes(rules: Rules, v: View, e: Entry, v': View, round: nat)
    requires v' == Step(rules, v, e) && InToolPhase(v'.phase, round) && InToolPhase(v.phase, round)
    ensures var p, p' := v.phase, v'.phase;
            || (p.Ready? && e.Observed? && e.event.ToolStarted? && p' == Announced(round, p.turn, p.rest))
            || (p.Announced? && p.rest != [] && e.Dispatched? && e.round == round && e.call == p.rest[0]
                && p' == InFlight(round, p.turn, p.rest, e.tick))
            || (p.InFlight? && p.rest != [] && IsSettlement(e) && e.event.round == round
                && (p' == Ready(round, p.turn + [ResultOf(e.event)], p.rest[1..])
                    || p' == Failing(round, p.turn + [ResultOf(e.event)], p.rest[1..])))
  {
    hide NextContext, NextUsage, NextFailed, Applies, AfterRound, Complete, Validated, Yields, YieldsAll, Stopped;
    hide MayFail, AssistantMessage, Calls, OutcomeText;
  }

  /** Each tool step moves one call from announced to dispatched to settled. */
  lemma {:induction false} ToolAgrees(rules: Rules, v: View, e: Entry, v': View, t: Tally, round: nat)
    requires v' == Step(rules, v, e) && InToolPhase(v'.phase, round) && InToolPhase(v.phase, round)
    requires Agrees(rules, v.phase, v.context, t)
    ensures Agrees(rules, v'.phase, v'.context, Add(t, e, round))
  {
    hide Step, Complete, Validated, Yields, YieldsAll, AssistantMessage, Calls, ResultOf, Reports;
    ToolShapes(rules, v, e, v', round);
    var p, d := v.phase, t.dispatched;
    if e.Dispatched? {
      assert (d + [e.call])[..|d|] == d;
    } else if p.InFlight? {
      SettleOne(rules, round, t, p.turn, p.rest, ResultOf(e.event));
    }
  }

  /** A result moves the call in flight to the settled ones. */
  lemma {:induction false} SettleOne(rules: Rules, round: nat, t: Tally, turn: seq<Message>, rest: seq<ToolCall>,
                                     m: Message)
    requires rest != [] && t.dispatched != [] && t.dispatched[|t.dispatched| - 1] == rest[0]
    requires Settling(rules, round, t, turn, t.dispatched[..|t.dispatched| - 1], rest)
    ensures Settling(rules, round, t.(settled := t.settled + [m]), turn + [m], t.dispatched, rest[1..])
  {
    hide Complete, Validated, YieldsAll, AssistantMessage, Calls;
    var d, n := t.dispatched, |t.dispatched| - 1;
    assert d == d[..n] + [rest[0]] && rest == [rest[0]] + rest[1..];
    assert d + rest[1..] == d[..n] + rest;
  }

  lemma {:induction false} PhaseAgrees(rules: Rules, v: View, e: Entry, v': View, t: Tally, round: nat)
    requires v' == Step(rules, v, e) && !v'.phase.Broken? && !v'.phase.Finished?
    requires Proper(v.phase) && Within(v.phase, round) && Within(v'.phase, round)
    requires Agrees(rules, v.phase, v.context, t)
    ensures Agrees(rules, v'.phase, v'.context, Add(t, e, round))
  {
    hide Agrees, Add, Step;
    PhaseFollows(rules, v, e, v', round);
    if v'.phase.Streaming? {
      StreamAgrees(rules, v, e, v', t, round);
    } else if v.phase.Streaming? {
      CompletionAgrees(rules, v, e, v', t, round);
    } else {
      ToolAgrees(rules, v, e, v', t, round);
    }
  }

  lemma {:induction false} PhaseFollows(rules: Rules, v: View, e: Entry, v': View, round: nat)
    requires v' == Step(rules, v, e) && !v'.phase.Broken? && !v'.phase.Finished?
    requires Within(v.phase, round) && Within(v'.phase, round)
    ensures || v'.phase.Streaming?
            || (v.phase.Streaming? && (v'.phase.Ready? || v'.phase.Answering?))
            || (InToolPhase(v'.phase, round) && InToolPhase(v.phase, round))
    ensures v'.phase.Streaming? ==> v'.phase.round == round
    ensures v'.phase.Ready? || v'.phase.Answering? ==> v'.phase.round == round
    ensures v.phase.Streaming? ==> v.phase.round == round
  {
    hide NextContext, NextUsage, NextFailed, Applies, Complete, Validated, Yields;
    hide YieldsAll, Stopped, MayFail, AssistantMessage, Calls;
    hide ResultMessage, TerminalMessage, Owed;
  }

  // ---------------------------------------------------------------- usage

  lemma {:induction false} UsageDepends(a: seq<Entry>, b: seq<Entry>, n: nat)
    requires forall round: nat :: 0 < round <= n ==> TallyOf(a, round).reports == TallyOf(b, round).reports
    ensures ReportedUsage(a, n) == ReportedUsage(b, n)
  {
    hide TallyOf, MergeAll, Accumulated;
    if n > 0 { UsageDepends(a, b, n - 1); }
  }

  /** A step either completes a stream, and then accumulates exactly its reports, or changes no earlier report. */
  lemma {:induction false} UsageSteps(rules: Rules, v: View, e: Entry, v': View)
    requires v' == Step(rules, v, e) && !v'.phase.Broken? && !v'.phase.Finished? && Proper(v.phase)
    ensures if e.Observed? && e.event.ModelRoundCompleted? then
              && v.phase.Streaming? && v.phase.owed.None? && Within(v.phase, v.phase.round)
              && Streamed(v'.phase) == v.phase.round == Streamed(v.phase) + 1
              && v'.usage == Accumulated(v.usage, MergeAll(NO_USAGE, Reports(v.phase.got)))
            else
              Streamed(v'.phase) == Streamed(v.phase) && v'.usage == v.usage
    ensures e.Observed? && e.event.UsageReported? ==> e.event.round > Streamed(v.phase)
  {
    hide NextContext, NextFailed, Applies, Complete, Validated, Yields, YieldsAll;
    hide Stopped, MayFail, AssistantMessage, Calls, Reports;
    hide ResultMessage, TerminalMessage, MergeAll, Accumulated;
  }

  /** Only usage reports change the reports of a round. */
  lemma {:induction false} OtherEntry(t: Tally, e: Entry, round: nat)
    requires !(e.Observed? && e.event.UsageReported? && e.event.round == round)
    ensures Add(t, e, round).reports == t.reports
  {
    hide ResultOf;
  }

  lemma {:induction false} UsageFollows(rules: Rules, v: View, log: seq<Entry>, e: Entry, v': View)
    requires v' == Step(rules, v, e) && !v'.phase.Broken? && !v'.phase.Finished?
    requires Account(rules, v, log)
    ensures v'.usage == ReportedUsage(log + [e], Streamed(v'.phase))
  {
    hide Step, TallyOf, Add, MergeAll, Accumulated, Reports, Streamed, Within, RequestsMade;
    UsageSteps(rules, v, e, v');
    var n := Streamed(v.phase);
    forall round: nat | 0 < round <= n
      ensures TallyOf(log, round).reports == TallyOf(log + [e], round).reports
    {
      TallySnoc(log, e, round);
      OtherEntry(TallyOf(log, round), e, round);
    }
    UsageDepends(log, log + [e], n);
    if e.Observed? && e.event.ModelRoundCompleted? {
      var r := v.phase.round;
      TallySnoc(log, e, r);
      OtherEntry(TallyOf(log, r), e, r);
      var t := TallyOf(log, r);
      assert t.reports == Reports(v.phase.got) by {
        assert Agrees(rules, v.phase, v.context, t);
        assert t.reports + [] == t.reports;
      }
    }
  }

  lemma {:induction false} AccountStep(rules: Rules, v: View, log: seq<Entry>, e: Entry, v': View)
    requires v' == Step(rules, v, e) && !v'.phase.Broken? && !v'.phase.Finished?
    requires Account(rules, v, log)
    ensures Account(rules, v', log + [e])
  {
    hide Step, TallyOf, Add, Agrees, Proper, ReportedUsage, Streamed, Speaks, Within, RequestsMade;
    UsageFollows(rules, v, log, e, v');
    StepRounds(rules, v, e, v');
    forall round: nat | round > RequestsMade(v'.phase)
      ensures TallyOf(log + [e], round) == NO_TALLY
    {
      TallySnoc(log, e, round);
      SilentEntry(TallyOf(log, round), e, round);
    }
    forall round: nat | Within(v'.phase, round)
      ensures Agrees(rules, v'.phase, v'.context, TallyOf(log + [e], round))
    {
      TallySnoc(log, e, round);
      if Within(v.phase, round) {
        PhaseAgrees(rules, v, e, v', TallyOf(log, round), round);
      } else {
        NewRoundAgrees(rules, v, e, v', TallyOf(log, round), round);
      }
    }
  }

  /** Every prefix of an accepted log is in balance. */
  lemma {:induction false} LogAccounts(rules: Rules, log: seq<Entry>)
    requires Accepted(rules, log) && !Replay(rules, log).phase.Finished?
    ensures Account(rules, Replay(rules, log), log)
  {
    hide Step, Account;
    if log == [] {
      NothingToAccount(rules);
    } else {
      var front, e := log[..|log| - 1], log[|log| - 1];
      ReplayUnfold(rules, log);
      PrefixAccepted(rules, log, |log| - 1);
      PhaseSteps(rules, Replay(rules, front), e, Replay(rules, log));
      LogAccounts(rules, front);
      AccountStep(rules, Replay(rules, front), front, e, Replay(rules, log));
      assert front + [e] == log;
    }
  }

  lemma {:induction false} NothingToAccount(rules: Rules)
    ensures Account(rules, Start(rules), [])
  {
  }

  lemma {:induction false} AccountBefore(rules: Rules, log: seq<Entry>, i: nat)
    requires Accepted(rules, log) && i < |log|
    ensures At(rules, log, i + 1) == Step(rules, At(rules, log, i), log[i]) && !At(rules, log, i + 1).phase.Broken?
    ensures Account(rules, At(rules, log, i), log[..i])
  {
    hide Step, Replay, Account;
    StepAt(rules, log, i);
    PrefixAccepted(rules, log, i);
    PhaseSteps(rules, At(rules, log, i), log[i], At(rules, log, i + 1));
    LogAccounts(rules, log[..i]);
  }

  // ---------------------------------------------------------------- what it means for a run

  /** A call is dispatched only after the stream that asked for it was received to its end and passed validation,
      and it is the next of the calls of that stream. */
  ghost predicate DispatchInTurn(rules: Rules, round: nat, t: Tally, call: ToolCall) {
    && AsksForTools(rules, round, t)
    && |t.dispatched| < |Calls(t.received)| && Calls(t.received)[|t.dispatched|] == call
    && t.dispatched == Calls(t.received)[..|t.dispatched|]
  }

  lemma {:induction false} DispatchIsValidated(rules: Rules, log: seq<Entry>, i: nat)
    requires Accepted(rules, log) && i < |log| && log[i].Dispatched?
    ensures DispatchInTurn(rules, log[i].round, TallyOf(log[..i], log[i].round), log[i].call)
    ensures rules.allowed(log[i].call)
  {
    hide Step, Replay, TallyOf, AsksForTools, Calls, ReportedUsage, AssistantMessage, RequestsMade;
    AccountBefore(rules, log, i);
    var v, t := At(rules, log, i), TallyOf(log[..i], log[i].round);
    DispatchedFrom(rules, v, log[i], At(rules, log, i + 1));
    assert Within(v.phase, log[i].round);
    assert Agrees(rules, v.phase, v.context, t);
    assert t.dispatched + v.phase.rest == Calls(t.received);
    AllowedInTurn(rules, log[i].round, t, log[i].call);
  }

  lemma {:induction false} DispatchedFrom(rules: Rules, v: View, e: Entry, v': View)
    requires v' == Step(rules, v, e) && !v'.phase.Broken? && e.Dispatched?
    ensures v.phase.Announced? && v.phase.round == e.round && v.phase.rest != [] && v.phase.rest[0] == e.call
  {
    hide NextContext, NextUsage, NextFailed;
  }

  lemma {:induction false} AllowedInTurn(rules: Rules, round: nat, t: Tally, call: ToolCall)
    requires DispatchInTurn(rules, round, t, call)
    ensures rules.allowed(call) && |t.dispatched| < rules.maxCallsPerRound
  {
    hide Calls, Complete;
  }

  /** Every event received is the next one that the provider yields for the request of its round. */
  lemma {:induction false} ReceivedFromProvider(rules: Rules, log: seq<Entry>, i: nat)
    requires Accepted(rules, log) && i < |log| && log[i].Received?
    ensures var t := TallyOf(log[..i], log[i].round);
            t.request.Some? && Yields(rules, log[i].round, t.request.value, t.received + [log[i].item])
  {
    hide Step, Replay, TallyOf, ReportedUsage, RequestsMade, Reports, Yields;
    AccountBefore(rules, log, i);
    var v, t := At(rules, log, i), TallyOf(log[..i], log[i].round);
    ReceivedFrom(rules, v, log[i], At(rules, log, i + 1));
    assert Within(v.phase, log[i].round);
    assert Agrees(rules, v.phase, v.context, t);
  }

  lemma {:induction false} ReceivedFrom(rules: Rules, v: View, e: Entry, v': View)
    requires v' == Step(rules, v, e) && !v'.phase.Broken? && e.Received?
    ensures v.phase.Streaming? && v.phase.round == e.round
    ensures Yields(rules, e.round, v.context, v.phase.got + [e.item])
  {
    hide NextContext, NextUsage, NextFailed, Yields;
  }

  /** A round completes only when all the provider yielded for its request has been received, completes and passed
      validation. */
  lemma {:induction false} RoundIsWhole(rules: Rules, log: seq<Entry>, i: nat)
    requires Accepted(rules, log) && i < |log| && log[i].Observed? && log[i].event.ModelRoundCompleted?
    ensures var e, t := log[i].event, TallyOf(log[..i], log[i].event.round);
            && Complete(t.received, e.reason) && Validated(rules, t.received)
            && t.request.Some? && YieldsAll(rules, e.round, t.request.value, t.received)
  {
    hide Step, Replay, TallyOf, ReportedUsage, RequestsMade, Reports, Yields, YieldsAll, Complete, Validated;
    AccountBefore(rules, log, i);
    var v, t := At(rules, log, i), TallyOf(log[..i], log[i].event.round);
    CompletedFrom(rules, v, log[i], At(rules, log, i + 1));
    assert Within(v.phase, log[i].event.round);
    assert Agrees(rules, v.phase, v.context, t);
  }

  lemma {:induction false} CompletedFrom(rules: Rules, v: View, e: Entry, v': View)
    requires v' == Step(rules, v, e) && !v'.phase.Broken? && e.Observed? && e.event.ModelRoundCompleted?
    ensures v.phase.Streaming? && v.phase.round == e.event.round
    ensures Complete(v.phase.got, e.event.reason) && Validated(rules, v.phase.got)
    ensures YieldsAll(rules, e.event.round, v.context, v.phase.got)
  {
    hide NextContext, NextUsage, NextFailed, YieldsAll, Complete, Validated, AfterRound;
  }

  /** No round dispatches more calls than one round may ask for. */
  lemma {:induction false} RoundIsBounded(rules: Rules, log: seq<Entry>, round: nat)
    requires Accepted(rules, log)
    ensures |TallyOf(log, round).dispatched| <= rules.maxCallsPerRound
  {
    hide Replay, DispatchInTurn;
    if log != [] {
      var n := |log| - 1;
      PrefixAccepted(rules, log, n);
      RoundIsBounded(rules, log[..n], round);
      if log[n].Dispatched? && log[n].round == round {
        DispatchIsValidated(rules, log, n);
        AllowedInTurn(rules, round, TallyOf(log[..n], round), log[n].call);
      }
    }
  }

  /** A delivered transcript is the assistant message of the events received, the settled results as the observer
      saw them, and a NotStarted result for each call of the stream that was not dispatched, in the order of the
      calls; the marker closes it whenever there are such calls. */
  ghost predicate AccountsFor(ms: seq<Message>, t: Tally) {
    var calls, n := Calls(t.received), |t.dispatched|;
    && n <= |calls| && t.dispatched == calls[..n] && |t.settled| == n
    && (|| (n == |calls| && ms == [AssistantMessage(t.received)] + t.settled)
        || ms == [AssistantMessage(t.received)] + t.settled + NotStartedMessages(calls[n..]) + [MARKER])
  }

  /** Whatever happens in a run, every transcript it delivers accounts for all calls of its round. */
  lemma {:induction false} TranscriptAccounts(rules: Rules, log: seq<Entry>, k: nat)
    requires Accepted(rules, log) && k < |log| && IsTranscript(log[k])
    ensures AccountsFor(log[k].event.messages, TallyOf(log[..k], log[k].event.round))
  {
    hide Step, Replay, TallyOf, AccountsFor, Agrees, ReportedUsage, RequestsMade;
    AccountBefore(rules, log, k);
    var v, r := At(rules, log, k), log[k].event.round;
    TranscriptPhase(rules, v, log[k], At(rules, log, k + 1));
    TranscriptStep(rules, v, log[k], At(rules, log, k + 1), TallyOf(log[..k], r));
  }

  lemma {:induction false} TranscriptPhase(rules: Rules, v: View, e: Entry, v': View)
    requires v' == Step(rules, v, e) && !v'.phase.Broken? && IsTranscript(e)
    ensures Within(v.phase, e.event.round)
  {
    hide NextContext, NextUsage, NextFailed, Stopped;
  }

  lemma {:induction false} TranscriptStep(rules: Rules, v: View, e: Entry, v': View, t: Tally)
    requires v' == Step(rules, v, e) && !v'.phase.Broken? && IsTranscript(e)
    requires Agrees(rules, v.phase, v.context, t)
    ensures AccountsFor(e.event.messages, t)
  {
    hide NextContext, NextUsage, NextFailed, Applies, MayFail, AfterRound, Calls, AssistantMessage, AsksForTools;
    hide ResultMessage, TerminalMessage, NotStartedMessages, Reports;
    var p, ms := v.phase, e.event.messages;
    if p.Answering? {
      assert [p.answer] == [AssistantMessage(t.received)] + t.settled;
    } else {
      var calls, n := Calls(t.received), |t.dispatched|;
      assert calls[..n] == t.dispatched && calls[n..] == p.rest;
    }
  }

  /** The usage of a run that completed is what its log reported, round by round. */
  lemma {:induction false} UsageIsReported(rules: Rules, log: seq<Entry>)
    requires Replay(rules, log).phase.Finished? && log != []
    requires log[|log| - 1].Observed? && log[|log| - 1].event.RunCompleted?
    ensures Replay(rules, log).usage == ReportedUsage(log, log[|log| - 1].event.rounds)
  {
    hide Replay, TallyOf, ReportedUsage, Agrees, RequestsMade;
    var n, e := |log| - 1, log[|log| - 1];
    var front := log[..n];
    AccountBefore(rules, log, n);
    assert log[..|log|] == log;
    ReplayUnfold(rules, log);
    var v := Replay(rules, front);
    CompletesDelivered(rules, v, e);
    assert front + [e] == log;
    forall round: nat | 0 < round <= e.event.rounds
      ensures TallyOf(front, round).reports == TallyOf(log, round).reports
    {
      TallySnoc(front, e, round);
      OtherEntry(TallyOf(front, round), e, round);
    }
    UsageDepends(front, log, e.event.rounds);
  }

  lemma {:induction false} CompletesDelivered(rules: Rules, v: View, e: Entry)
    requires !Step(rules, v, e).phase.Broken? && e.Observed? && e.event.RunCompleted?
    ensures v.phase == Delivered(e.event.rounds) && Step(rules, v, e).usage == v.usage
  {
    hide NextContext, NextFailed;
  }

  lemma {:induction false} AddGrows(t: Tally, e: Entry, round: nat)
    ensures t.dispatched <= Add(t, e, round).dispatched && t.settled <= Add(t, e, round).settled
    ensures |Add(t, e, round).settled| > |t.settled| ==>
              && IsSettlement(e) && e.event.round == round
              && Add(t, e, round).settled == t.settled + [ResultOf(e.event)]
              && Add(t, e, round).dispatched == t.dispatched
  {
    hide ResultOf;
  }

  /** Each settled result of a round is what the executor answered to the dispatched call in the same place. */
  lemma {:induction false} SettledIsAnswer(rules: Rules, log: seq<Entry>, round: nat, i: nat) returns (j: nat)
    requires Accepted(rules, log) && i < |TallyOf(log, round).settled|
    ensures var t := TallyOf(log, round);
            && i < |t.dispatched| && j < |log| && log[j].Dispatched? && log[j].round == round
            && log[j].call == t.dispatched[i]
            && t.settled[i] ==
               ResultOf(SettlementOf(round, log[j].call, rules.execute(log[j].tick + 1, log[j].call)))
    decreases |log|
  {
    hide Step, Replay, At, Add, ResultOf, Agrees, ReportedUsage, RequestsMade, Account;
    var n := |log| - 1;
    var front, e := log[..n], log[n];
    var t, t' := TallyOf(front, round), TallyOf(log, round);
    assert t' == Add(t, e, round);
    AddGrows(t, e, round);
    PrefixAccepted(rules, log, n);
    if i < |t.settled| {
      j := SettledIsAnswer(rules, front, round, i);
    } else {
      SettlementIsPreceded(rules, log, n);
      NextSettles(rules, log, n - 1);
      StepAt(rules, log, n - 1);
      ToolSteps(rules, At(rules, log, n - 1), log[n - 1], At(rules, log, n));
      InFlightTally(rules, log, n, round);
      j := n - 1;
    }
  }

  /** With a call in flight, it is the last dispatched and the only unsettled one. */
  lemma {:induction false} InFlightTally(rules: Rules, log: seq<Entry>, n: nat, round: nat)
    requires Accepted(rules, log) && n < |log|
    requires At(rules, log, n).phase.InFlight? && At(rules, log, n).phase.round == round
    ensures var t := TallyOf(log[..n], round);
            && At(rules, log, n).phase.rest != [] && |t.dispatched| == |t.settled| + 1
            && t.dispatched[|t.settled|] == At(rules, log, n).phase.rest[0]
  {
    hide Step, Replay, At, TallyOf, ReportedUsage, RequestsMade, AsksForTools;
    AccountBefore(rules, log, n);
    assert Within(At(rules, log, n).phase, round);
    assert Agrees(rules, At(rules, log, n).phase, At(rules, log, n).context, TallyOf(log[..n], round));
  }

  /** An event counted as received is in the log. */
  lemma {:induction false} ReceivedIsLogged(log: seq<Entry>, round: nat, item: ProviderEvent) returns (j: nat)
    requires item in TallyOf(log, round).received
    ensures j < |log| && log[j] == Received(round, item)
  {
    hide ResultOf;
    var n := |log| - 1;
    if log[n] == Received(round, item) {
      j := n;
    } else {
      j := ReceivedIsLogged(log[..n], round, item);
    }
  }
}
