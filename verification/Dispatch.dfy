/** The tool phase of a round: one call after the other, until one of them stops the run. */
module Dispatch {
  import opened Wrappers
  import opened AgentTypes
  import opened Turn
  import opened RunLog
  import opened Round

  /** The view is in the tool phase with no call in flight. */
  predicate AtReady(v: View, round: nat, turn: seq<Message>, rest: seq<ToolCall>) {
    v.phase == Ready(round, turn, rest) && v.failed.None?
  }

  /** The only thing that may be delivered next, apart from nothing, is the transcript `turn`
      closed by the marker: every call without a result in it did not start. */
  predicate MustStop(v: View, round: nat, turn: seq<Message>) {
    && (v.phase.Ready? || v.phase.Announced? || v.phase.Failing?)
    && v.phase.round == round
    && turn + [MARKER] == Stopped(v.phase.turn, v.phase.rest)
  }

  /** Dispatching only adds to the dispatched calls, apart from the phase and what has failed. */
  predicate OnlyDispatches(v: View, v': View, calls: seq<ToolCall>) {
    v' == v.(phase := v'.phase, failed := v'.failed, dispatched := v.dispatched + calls)
  }

  /** The error of a run whose executor reported a failure: an unknown outcome always surfaces, and after a known
      one an interruption takes precedence. The activity test follows the dispatch by three ticks. */
  function SettledError(env: Env, f: FailedCall): AgentError {
    var interruption := EnsureActive(env, f.tick + 3);
    if f.failure.outcome.Unknown? || interruption.None? then ToolError(f.name, f.failure) else interruption.value
  }

  /** Why a tool phase stopped: the failure on record, or an interruption raised by then. */
  ghost predicate StopsFor(env: Env, v: View, until: nat, e: AgentError) {
    if v.failed.Some? then e == SettledError(env, v.failed.value) && v.failed.value.tick + 3 <= until
    else Interrupted(env, e, until)
  }

  /** The result message for what the executor answered. */
  function AnswerMessage(call: ToolCall, answer: Result<ToolOutput, ToolFailure>): Message {
    match answer
    case Ok(output) => ResultMessage(call, output)
    case Err(failure) => TerminalMessage(call, failure.outcome)
  }

  /** The message is what the executor answered when it was given the call. */
  ghost predicate FromExecutor(env: Env, call: ToolCall, m: Message) {
    exists t: nat :: m == AnswerMessage(call, env.execute(t, call))
  }

  // ---------------------------------------------------------------- steps of the grammar

  lemma {:induction false} StepAnnounce(rules: Rules, v: View, round: nat, turn: seq<Message>, rest: seq<ToolCall>)
    requires AtReady(v, round, turn, rest) && rest != []
    ensures Step(rules, v, Observed(ToolStarted(round, rest[0].id, rest[0].name)))
         == v.(phase := Announced(round, turn, rest))
  {
  }

  lemma {:induction false} StepDispatch(rules: Rules, v: View, round: nat, turn: seq<Message>, rest: seq<ToolCall>,
                                        t: nat)
    requires v.phase == Announced(round, turn, rest) && rest != [] && rules.active(t)
    ensures Step(rules, v, Dispatched(round, rest[0], t))
         == v.(phase := InFlight(round, turn, rest, t), dispatched := v.dispatched + [rest[0]])
  {
  }

  lemma {:induction false} StepComplete(rules: Rules, v: View, round: nat, turn: seq<Message>, rest: seq<ToolCall>,
                                        output: ToolOutput, t: nat)
    requires v.phase == InFlight(round, turn, rest, t) && rest != [] && rules.execute(t + 1, rest[0]) == Ok(output)
    ensures Step(rules, v, Observed(ToolCompleted(round, rest[0].id, rest[0].name, output)))
         == v.(phase := Ready(round, turn + [ResultMessage(rest[0], output)], rest[1..]))
  {
    hide ResultMessage;
  }

  lemma {:induction false} StepFail(rules: Rules, v: View, round: nat, turn: seq<Message>, rest: seq<ToolCall>,
                                    failure: ToolFailure, t: nat)
    requires v.phase == InFlight(round, turn, rest, t) && rest != [] && rules.execute(t + 1, rest[0]) == Err(failure)
    ensures Step(rules, v, Observed(ToolFailed(round, rest[0].id, rest[0].name, failure)))
         == v.(phase := Failing(round, turn + [TerminalMessage(rest[0], failure.outcome)], rest[1..]),
               failed := Some(FailedCall(rest[0].name, failure, t)))
  {
    hide TerminalMessage;
  }

  lemma {:induction false} NotStartedFirst(rest: seq<ToolCall>)
    requires rest != []
    ensures NotStartedMessages(rest) == [TerminalMessage(rest[0], NotStarted)] + NotStartedMessages(rest[1..])
  {
    hide TerminalMessage;
  }

  // ---------------------------------------------------------------- one call

  /** What handing one call to the executor and settling it does to the run. */
  method SettleCall(env: Env, round: nat, turn: seq<Message>, rest: seq<ToolCall>, w0: World)
    returns (terminal: Option<AgentError>, result: Message, w: World)
    requires rest != [] && Seen(env, w0).phase == Announced(round, turn, rest) && Seen(env, w0).failed.None?
    requires env.Active(w0.tick)
    ensures OnlyDispatches(Seen(env, w0), Seen(env, w), [rest[0]])
    ensures result == AnswerMessage(rest[0], env.execute(w0.tick + 1, rest[0]))
    ensures env.execute(w0.tick + 1, rest[0]).Ok? ==> AtReady(Seen(env, w), round, turn + [result], rest[1..])
    ensures env.execute(w0.tick + 1, rest[0]).Err? ==>
              && terminal.Some? && Seen(env, w).phase == Failing(round, turn + [result], rest[1..])
              && Seen(env, w).failed ==
                 Some(FailedCall(rest[0].name, env.execute(w0.tick + 1, rest[0]).error, w0.tick))
    ensures terminal.Some? ==> StopsFor(env, Seen(env, w), w.tick, terminal.value)
  {
    hide Seen, Step, Interrupted, ResultMessage, TerminalMessage, Guard, EmitAfterSettlement;
    var call := rest[0];
    ghost var v := Seen(env, w0);
    var dispatch := Dispatched(round, call, w0.tick);
    RecordStep(env, w0, dispatch);
    StepDispatch(env.Grammar(), v, round, turn, rest, w0.tick);
    w := Record(w0, dispatch);
    var settlement := env.execute(w.tick, call);
    TickIsQuiet(env, w);
    w := Pass(w);
    v := Seen(env, w);
    match settlement {
      case Ok(output) =>
        result := ResultMessage(call, output);
        var completed := ToolCompleted(round, call.id, call.name, output);
        StepComplete(env.Grammar(), v, round, turn, rest, output, w0.tick);
        AfterSettlement(env, w, completed);
        var (cut, w') := EmitAfterSettlement(env, w, completed);
        terminal, w := cut, w';
      case Err(failure) =>
        StepFail(env.Grammar(), v, round, turn, rest, failure, w0.tick);
        RecordStep(env, w, Observed(ToolFailed(round, call.id, call.name, failure)));
        w := EmitWithGrace(w, ToolFailed(round, call.id, call.name, failure));
        result := TerminalMessage(call, failure.outcome);
        if failure.outcome.Unknown? {
          terminal := Some(ToolError(call.name, failure));
        } else {
          var stop := EnsureActive(env, w.tick);
          terminal := Some(if stop.Some? then stop.value else ToolError(call.name, failure));
        }
    }
  }

  lemma {:induction false} TickIsQuiet(env: Env, w: World)
    ensures Seen(env, Pass(w)) == Seen(env, w)
  {
    hide Replay;
  }

  lemma {:induction false} EmitStep(env: Env, w: World, e: RunEvent)
    ensures var (cut, w') := Emit(env, w, e);
            && Seen(env, w') == (if cut.None? then Step(env.Grammar(), Seen(env, w), Observed(e)) else Seen(env, w))
            && (cut.Some? ==> Interrupted(env, cut.value, w'.tick))
            && (cut.None? ==> w'.log != [] && w'.log[|w'.log| - 1] == Observed(e))
            && w'.tick == w.tick + 1
  {
    hide Replay, Step, Interrupted, Guard;
    GuardInterrupts(env, w.tick);
    RecordStep(env, w, Observed(e));
    TickIsQuiet(env, w);
  }

  lemma {:induction false} AnswerFits(call: ToolCall, answer: Result<ToolOutput, ToolFailure>)
    ensures ResultFor(AnswerMessage(call, answer), call)
  {
    hide OutcomeText;
  }

  /** A settlement event is delivered exactly once, whatever interrupts the emit. */
  lemma {:induction false} AfterSettlement(env: Env, w: World, e: RunEvent)
    ensures var (cut, w') := EmitAfterSettlement(env, w, e);
            && Seen(env, w') == Step(env.Grammar(), Seen(env, w), Observed(e))
            && (cut.Some? ==> Interrupted(env, cut.value, w'.tick))
  {
    hide Replay, Step, Interrupted, Guard;
    GuardInterrupts(env, w.tick);
    RecordStep(env, w, Observed(e));
    var w1 := Pass(w);
    TickIsQuiet(env, w);
    GuardInterrupts(env, w1.tick);
    RecordStep(env, w1, Observed(e));
    TickIsQuiet(env, w1);
    RecordStep(env, Pass(w1), Observed(e));
    if Guard(env, w1.tick).Some? { InterruptedLater(env, Guard(env, w1.tick).value, w1.tick + 1, w1.tick + 2); }
  }

  /** One iteration of the dispatch loop, including what it appends when it stops. */
  method RunCall(env: Env, round: nat, turn: seq<Message>, rest: seq<ToolCall>, total: nat, w0: World)
    returns (terminal: Option<AgentError>, turn': seq<Message>, total': nat, w: World)
    requires rest != [] && AtReady(Seen(env, w0), round, turn, rest)
    ensures total' == total || total' == total + 1
    ensures OnlyDispatches(Seen(env, w0), Seen(env, w), if total' == total then [] else [rest[0]])
    ensures |turn'| > |turn| && turn <= turn'
    ensures total' == total + 1 ==> FromExecutor(env, rest[0], turn'[|turn|])
    ensures terminal.None? ==>
              && total' == total + 1 && turn' == turn + [turn'[|turn|]]
              && AtReady(Seen(env, w), round, turn', rest[1..])
    ensures terminal.Some? ==>
              && turn'[|turn| + total' - total..] == NotStartedMessages(rest[total' - total..])
              && MustStop(Seen(env, w), round, turn')
              && StopsFor(env, Seen(env, w), w.tick, terminal.value)
  {
    hide Seen, Step, Interrupted, TerminalMessage, Guard, NotStartedMessages, AnswerMessage, SettledError, Record;
    var call := rest[0];
    ghost var v := Seen(env, w0);
    total', w := total, w0;
    StepAnnounce(env.Grammar(), v, round, turn, rest);
    EmitStep(env, w, ToolStarted(round, call.id, call.name));
    var (cut, w1) := Emit(env, w, ToolStarted(round, call.id, call.name));
    terminal, w, turn' := cut, w1, turn;
    NotStartedFirst(rest);
    if terminal.Some? {
      turn' := turn + [TerminalMessage(call, NotStarted)];
    }
    if terminal.None? {
      terminal := EnsureActive(env, w.tick);
      if terminal.Some? {
        GuardInterrupts(env, w.tick);
        turn' := turn + [TerminalMessage(call, NotStarted)];
        TickIsQuiet(env, w);
        w := Pass(w);
      }
    }
    if terminal.Some? {
      turn' := turn' + NotStartedMessages(rest[1..]);
      assert turn' == turn + NotStartedMessages(rest);
      assert rest[0..] == rest;
      return;
    }
    total' := total + 1;
    var result;
    terminal, result, w := SettleCall(env, round, turn, rest, w);
    turn' := turn + [result];
    if terminal.Some? {
      turn' := turn' + NotStartedMessages(rest[1..]);
      assert turn'[|turn| + 1..] == NotStartedMessages(rest[1..]);
    }
  }

  // ---------------------------------------------------------------- all calls

  /** The results of a tool phase: the executor's answers to the first k calls, and for each other call that it did
      not start. */
  ghost predicate Results(env: Env, calls: seq<ToolCall>, k: nat, results: seq<Message>) {
    && k <= |calls| == |results|
    && (forall i :: 0 <= i < k ==> FromExecutor(env, calls[i], results[i]))
    && (forall i :: k <= i < |calls| ==> results[i] == TerminalMessage(calls[i], NotStarted))
  }

  lemma {:induction false} ResultsAnswer(env: Env, calls: seq<ToolCall>, k: nat, results: seq<Message>)
    requires Results(env, calls, k, results)
    ensures Answered(calls, results)
  {
    hide TerminalMessage, AnswerMessage, ResultFor;
    forall i | 0 <= i < |calls|
      ensures ResultFor(results[i], calls[i])
    {
      if i < k {
        var t: nat :| results[i] == AnswerMessage(calls[i], env.execute(t, calls[i]));
        AnswerFits(calls[i], env.execute(t, calls[i]));
      } else {
        NotStartedFits(calls[i]);
      }
    }
  }

  lemma {:induction false} NotStartedFits(call: ToolCall)
    ensures ResultFor(TerminalMessage(call, NotStarted), call)
  {
    hide OutcomeText;
  }

  /** The dispatch loop. The calls handed to the executor are a prefix of the requested ones, in order; the results
      are its answers and NotStarted for the others; a stop leaves exactly one thing to deliver and has a cause. */
  method DispatchTools(env: Env, round: nat, assistant: Message, calls: seq<ToolCall>, total: nat, w0: World)
    returns (terminal: Option<AgentError>, turn: seq<Message>, total': nat, w: World)
    requires AtReady(Seen(env, w0), round, [assistant], calls)
    ensures total <= total' <= total + |calls|
    ensures OnlyDispatches(Seen(env, w0), Seen(env, w), calls[..total' - total])
    ensures turn != [] && turn[0] == assistant && Results(env, calls, total' - total, turn[1..])
    ensures terminal.None? ==> total' == total + |calls| && AtReady(Seen(env, w), round, turn, [])
    ensures terminal.Some? ==>
              MustStop(Seen(env, w), round, turn) && StopsFor(env, Seen(env, w), w.tick, terminal.value)
  {
    hide Seen, StopsFor, MustStop, NotStartedMessages, AnsweredFirst, AtReady, OnlyDispatches, Results;
    terminal, turn, total', w := None, [assistant], total, w0;
    NothingDispatched(env, calls, turn, Seen(env, w0));
    assert calls[0..] == calls;
    var i := 0;
    while i < |calls|
      invariant 0 <= i <= |calls| && total' == total + i && terminal.None?
      invariant |turn| == i + 1 && turn[0] == assistant && AnsweredFirst(env, calls, i, turn)
      invariant AtReady(Seen(env, w), round, turn, calls[i..])
      invariant OnlyDispatches(Seen(env, w0), Seen(env, w), calls[..i])
    {
      ghost var before, v := turn, Seen(env, w);
      assert calls[i..][0] == calls[i] && calls[i..][1..] == calls[i + 1..];
      terminal, turn, total', w := RunCall(env, round, turn, calls[i..], total', w);
      MoreDispatched(env, calls, i, before, turn, total' - total - i, Seen(env, w0), v, Seen(env, w));
      if terminal.Some? {
        StoppedResults(env, calls, i, turn, total' - total);
        return;
      }
      i := i + 1;
    }
    AllAnswered(env, calls, turn);
    assert calls[..|calls|] == calls && calls[|calls|..] == [];
  }

  /** The executor's answers to the first n calls follow the assistant message. */
  ghost predicate AnsweredFirst(env: Env, calls: seq<ToolCall>, n: nat, turn: seq<Message>) {
    n <= |calls| && n < |turn| && forall j :: 0 <= j < n ==> FromExecutor(env, calls[j], turn[1..][j])
  }

  lemma {:induction false} NothingDispatched(env: Env, calls: seq<ToolCall>, turn: seq<Message>, v: View)
    requires |turn| == 1
    ensures AnsweredFirst(env, calls, 0, turn) && OnlyDispatches(v, v, calls[..0])
  {
    assert calls[..0] == [] && v.dispatched + [] == v.dispatched;
  }

  /** One more iteration, with n calls dispatched in it. */
  lemma {:induction false} MoreDispatched(env: Env, calls: seq<ToolCall>, i: nat, before: seq<Message>,
                                          turn: seq<Message>, n: nat, v0: View, v: View, v': View)
    requires i < |calls| && |before| == i + 1 && before <= turn && |turn| > i + 1 && n <= 1
    requires AnsweredFirst(env, calls, i, before)
    requires n == 1 ==> FromExecutor(env, calls[i], turn[i + 1])
    requires OnlyDispatches(v0, v, calls[..i]) && OnlyDispatches(v, v', if n == 0 then [] else [calls[i]])
    ensures turn[0] == before[0] && AnsweredFirst(env, calls, i + n, turn)
    ensures OnlyDispatches(v0, v', calls[..i + n])
  {
    hide FromExecutor;
    forall j | 0 <= j < i + n
      ensures FromExecutor(env, calls[j], turn[1..][j])
    {
      if j < i { assert turn[1..][j] == before[1..][j]; }
    }
    assert calls[..i + n] == calls[..i] + (if n == 0 then [] else [calls[i]]);
  }

  lemma {:induction false} StoppedResults(env: Env, calls: seq<ToolCall>, i: nat, turn: seq<Message>, k: nat)
    requires i < |calls| && i <= k <= i + 1 && |turn| > i + 1 && AnsweredFirst(env, calls, k, turn)
    requires turn[1 + k..] == NotStartedMessages(calls[i..][k - i..])
    ensures Results(env, calls, k, turn[1..])
  {
    hide FromExecutor, TerminalMessage;
    assert calls[i..][k - i..] == calls[k..];
    forall j | k <= j < |calls|
      ensures turn[1..][j] == TerminalMessage(calls[j], NotStarted)
    {
      assert turn[1..][j] == turn[1 + k..][j - k];
    }
  }

  lemma {:induction false} AllAnswered(env: Env, calls: seq<ToolCall>, turn: seq<Message>)
    requires |turn| == |calls| + 1 && AnsweredFirst(env, calls, |calls|, turn)
    ensures Results(env, calls, |calls|, turn[1..])
  {
    hide FromExecutor;
  }
}
