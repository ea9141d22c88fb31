/** A whole run: rounds of compaction, streaming and dispatch, and how each one ends. */
module Runner {
  import opened Wrappers
  import opened AgentTypes
  import opened Pairing
  import opened Budget
  import opened Input
  import opened Context
  import opened Compaction
  import opened Turn
  import opened RunLog
  import opened Round
  import opened Dispatch
  import opened RunState
  import Accounts
  import Requests

  datatype RunResult = RunResult(
    messages: seq<Message>,
    generated: seq<Message>,
    finalText: string,
    usage: Usage,
    modelRounds: nat,
    toolCalls: nat)

  /** The variables of the round loop. */
  datatype State = State(
    messages: seq<Message>,
    generated: seq<Message>,
    used: set<string>,
    total: nat,
    usage: Usage,
    w: World)

  // ---------------------------------------------------------------- what every run keeps

  predicate WithinBudget(env: Env, ms: seq<Message>) {
    env.estimate(ms).Ok? && !env.budget.Exceeded(env.estimate(ms).value)
  }

  /** A request to the provider: balanced, within the rules and the budget, and ending with the
      open turn and all that had been delivered when it was made. */
  ghost predicate GoodRequest(env: Env, input: seq<Message>, q: Request)
    requires HasUser(input)
  {
    && Paired(q.messages)
    && WellFormed(q.messages, env.limits.maxToolArgumentBytes)
    && WithinBudget(env, q.messages)
    && Subsequence(Systems(input), Systems(q.messages))
    && EndsWith(q.messages, OpenTurn(input) + q.delivered)
  }

  /** No call id reaches the executor twice, nor one that the input already used. */
  predicate FreshDispatches(input: seq<Message>, dispatched: seq<ToolCall>, used: set<string>) {
    && FreshCalls(dispatched, Ids(Blocks(input)))
    && IdSet(dispatched) <= used
  }

  ghost predicate GoodRequests(env: Env, input: seq<Message>, v: View)
    requires HasUser(input)
  {
    forall i :: 0 <= i < |v.requests| ==> GoodRequest(env, input, v.requests[i])
  }

  /** What holds of the observer's view whenever `rounds` rounds may have dispatched calls. */
  ghost predicate Sound(env: Env, input: seq<Message>, v: View, used: set<string>, rounds: nat)
    requires HasUser(input)
  {
    && Durable(input, v.transcript, used, env.limits.maxToolArgumentBytes)
    && FreshDispatches(input, v.dispatched, used)
    && |v.dispatched| <= env.limits.maxTotalToolCalls
    && |v.dispatched| <= rounds * env.limits.maxToolCallsPerRound
    && GoodRequests(env, input, v)
  }

  /** The state at the top of the round loop, after `done` rounds. */
  ghost predicate RoundStart(env: Env, input: seq<Message>, done: nat, s: State)
    requires HasUser(input)
  {
    var v := Seen(env, s.w);
    && v.phase == Between(done) && v.failed.None?
    && s.total == |v.dispatched| && s.generated == v.transcript
    && s.messages == v.context && s.usage == v.usage
    && done < env.limits.maxModelRounds
    && Sound(env, input, v, s.used, done)
    && LiveContext(input, s.generated, s.used, env.limits.maxToolArgumentBytes, s.messages)
    && Covers(s.usage)
  }

  /** A record that closes its turn leaves a complete turn behind. */
  predicate TurnClosed(input: seq<Message>, v: View)
    requires HasUser(input)
  {
    v.phase.Closed? || v.phase.Delivered? ==>
      (ToolPairsComplete(OpenTurn(input)) ==> TurnIsComplete(OpenTurn(input) + v.transcript))
  }

  /** What holds of the view when a run ends: the input and what was delivered replay together,
      no call was dispatched twice, the limits bound what was dispatched, and every request was good. */
  ghost predicate Ends(env: Env, input: seq<Message>, v: View)
    requires HasUser(input)
  {
    && Paired(input + v.transcript)
    && OwnMessages(v.transcript, env.limits.maxToolArgumentBytes)
    && FreshCalls(v.dispatched, Ids(Blocks(input)))
    && |v.dispatched| <= env.limits.maxTotalToolCalls
    && |v.dispatched| <= (env.limits.maxModelRounds - 1) * env.limits.maxToolCallsPerRound
    && GoodRequests(env, input, v)
  }

  /** Compaction refused the context with this error at a tick of the run. */
  ghost predicate PrepareFails(env: Env, context: seq<Message>, until: nat, e: AgentError) {
    exists t: nat :: t < until && PrepareOutcome(SetupAt(env, t), context).0 == Err(e)
  }

  /** The provider did not answer the request, or its stream was refused after the events `got`. */
  ghost predicate StreamFails(env: Env, input: seq<Message>, v: View, round: nat, got: seq<ProviderEvent>,
                              e: AgentError)
  {
    match env.stream(round, v.context)
    case Err(cause) => got == [] && e == Provider(cause)
    case Ok(items) => Refused(env, Ids(Blocks(input + v.transcript)), |v.dispatched|, round, items, got, e)
  }

  /** Why a run that the observer last saw as `v` fails with `e`: a failure the executor reported decides; an
      interruption had been raised by then; otherwise the phase says what refused to go on. */
  ghost predicate Caused(env: Env, input: seq<Message>, v: View, until: nat, e: AgentError) {
    && (v.failed.Some? ==> e == SettledError(env, v.failed.value))
    && if e.Cancelled? || e.DeadlineExceeded? then Interrupted(env, e, until) && !v.phase.Exhausted?
       else match v.phase
         case Between(_) => PrepareFails(env, v.context, until, e)
         case Streaming(round, got, _) => StreamFails(env, input, v, round, got, e)
         case Exhausted(_) => e == ModelRoundLimit(env.limits.maxModelRounds)
         case Closed(_) => v.failed.Some?
         case _ => false
  }

  ghost predicate FailureExit(env: Env, input: seq<Message>, w: World, e: AgentError)
    requires HasUser(input) && env.limits.maxModelRounds > 0
  {
    var v := Seen(env, w);
    && Ends(env, input, v)
    && MayFail(v, ErrorCode(e))
    && Caused(env, input, v, w.tick, e)
    && TurnClosed(input, v)
  }

  /** A successful result: its counts, messages and usage are those of the log, the final
      context still ends with the open turn and all of them, and the turn is complete. */
  ghost predicate Delivers(input: seq<Message>, v: View, r: RunResult)
    requires HasUser(input)
  {
    && r.toolCalls == |v.dispatched|
    && r.generated == v.transcript && r.generated != []
    && r.messages == v.context && r.usage == v.usage
    && TextOfBlocks(r.generated[|r.generated| - 1].blocks) == r.finalText
    && Paired(r.messages)
    && EndsWith(r.messages, OpenTurn(input) + r.generated)
    && Subsequence(Systems(input), Systems(r.messages))
    && Covers(r.usage)
    && (ToolPairsComplete(OpenTurn(input)) ==> TurnIsComplete(OpenTurn(input) + r.generated))
  }

  ghost predicate SuccessExit(env: Env, input: seq<Message>, w: World, r: RunResult)
    requires HasUser(input) && env.limits.maxModelRounds > 0
  {
    var v := Seen(env, w);
    && Ends(env, input, v)
    && v.phase.Finished? && v.failed.None?
    && w.log != [] && w.log[|w.log| - 1] == Observed(RunCompleted(r.modelRounds, r.toolCalls))
    && Delivers(input, v, r)
    && |r.finalText| <= env.budget.maxSerializedBytes
  }

  // ---------------------------------------------------------------- soundness under steps

  lemma {:induction false} SoundEnds(env: Env, input: seq<Message>, v: View, used: set<string>, rounds: nat)
    requires HasUser(input) && Sound(env, input, v, used, rounds) && rounds < env.limits.maxModelRounds
    ensures Ends(env, input, v)
  {
    hide Scan, Blocks, OwnMessages, FreshCalls, GoodRequests, Ids, IdSet;
    MulGrows(rounds, env.limits.maxModelRounds - 1, env.limits.maxToolCallsPerRound);
  }

  lemma {:induction false} MulGrows(a: nat, b: nat, c: nat)
    requires a <= b
    ensures a * c <= b * c
  {
  }

  /** Nothing was requested, dispatched, delivered or failed in between. */
  predicate SameRecord(v: View, v': View) {
    v'.requests == v.requests && v'.dispatched == v.dispatched && v'.transcript == v.transcript && v'.failed == v.failed
  }

  /** Such steps keep a view sound. */
  lemma {:induction false} SoundQuiet(env: Env, input: seq<Message>, v: View, v': View, used: set<string>, rounds: nat)
    requires HasUser(input) && Sound(env, input, v, used, rounds) && SameRecord(v, v')
    ensures Sound(env, input, v', used, rounds)
  {
    hide Durable, FreshDispatches, GoodRequest;
  }

  /** A failure while no tool is being dispatched. */
  lemma {:induction false} QuietFailure(env: Env, input: seq<Message>, v: View, w: World, used: set<string>,
                                        rounds: nat, e: AgentError)
    requires HasUser(input) && env.Valid() && rounds < env.limits.maxModelRounds
    requires Sound(env, input, v, used, rounds) && v.failed.None?
    requires SameRecord(v, Seen(env, w))
    requires MayFail(Seen(env, w), ErrorCode(e)) && !Seen(env, w).phase.Closed? && !Seen(env, w).phase.Delivered?
    requires Caused(env, input, Seen(env, w), w.tick, e)
    ensures FailureExit(env, input, w, e)
  {
    hide Sound, MayFail, Seen, Ends, Caused;
    SoundQuiet(env, input, v, Seen(env, w), used, rounds);
    SoundEnds(env, input, Seen(env, w), used, rounds);
  }

  lemma {:induction false} CutCauses(env: Env, input: seq<Message>, v: View, until: nat, e: AgentError)
    requires Interrupted(env, e, until) && v.failed.None? && !v.phase.Exhausted?
    ensures Caused(env, input, v, until, e)
  {
    hide StreamFails, PrepareFails;
  }

  // ---------------------------------------------------------------- opening a round

  /** The race between the summary and cancellation, at tick t. */
  function SummaryAt(env: Env, t: nat, span: seq<Message>): SummaryReply
    requires env.summarize.Some?
  {
    if env.pick(t).TakeCancellation? && env.cancelled(t) then SummaryCancelled
    else match env.summarize.value(t, span)
      case Some(text) => Summarized(text)
      case None => SummaryFailed
  }

  function SetupAt(env: Env, t: nat): Setup {
    Setup(env.budget, env.estimate,
          if env.summarize.None? then None else Some((span: seq<Message>) => SummaryAt(env, t, span)),
          env.blank)
  }

  /** What a refusal by `prepare` may say: cancellation only if it was raised. */
  lemma {:induction false} PrepareCauses(env: Env, input: seq<Message>, v: View, t: nat, until: nat, e: AgentError)
    requires PrepareOutcome(SetupAt(env, t), v.context).0 == Err(e) && t < until
    requires v.phase.Between? && v.failed.None?
    ensures Caused(env, input, v, until, e)
  {
    hide StreamFails, PrepareOutcome, SetupAt;
    PrepareErrors(SetupAt(env, t), v.context);
    if e.Cancelled? { SummaryCancels(env, t); }
  }

  lemma {:induction false} SummaryCancels(env: Env, t: nat)
    requires var c := SetupAt(env, t);
             c.compactor.Some? && exists span :: c.compactor.value(span).SummaryCancelled?
    ensures env.cancelled(t)
  {
  }

  lemma {:induction false} PrepareErrors(c: Setup, ms: seq<Message>)
    ensures PrepareOutcome(c, ms).0 != Err(DeadlineExceeded)
    ensures PrepareOutcome(c, ms).0 == Err(Cancelled) ==>
              c.compactor.Some? && exists span :: c.compactor.value(span).SummaryCancelled?
  {
    hide TurnLengths, Lengths, FirstUser, TrimCount, Trimmed;
    TurnsHold(ms);
  }

  /** The phases in which a round is being opened. */
  predicate Opening(p: Phase, round: nat) {
    round > 0 && (p == Between(round - 1) || p == Compacted(round - 1) || p == Opened(round))
  }

  lemma {:induction false} StepCompacted(rules: Rules, v: View, done: nat, c: CompactionEvent)
    requires v.phase == Between(done) && Applies(c, v.context)
    ensures Step(rules, v, Observed(ContextCompacted(c))) ==
            v.(phase := Compacted(done), context := Apply(c, v.context))
  {
  }

  lemma {:induction false} StepOpened(rules: Rules, v: View, round: nat)
    requires 0 < round <= rules.maxModelRounds
    requires v.phase == Between(round - 1) || v.phase == Compacted(round - 1)
    ensures Step(rules, v, Observed(ModelRoundStarted(round))) == v.(phase := Opened(round))
  {
  }

  lemma {:induction false} StepAsked(rules: Rules, v: View, round: nat, ms: seq<Message>)
    requires v.phase == Opened(round) && ms == v.context
    ensures Step(rules, v, Asked(round, ms)) ==
            v.(phase := Streaming(round, [], None), requests := v.requests + [Request(ms, v.transcript)])
  {
  }

  /** Prepares the context, announces the round and asks the provider for its stream. */
  method OpenRound(env: Env, ghost input: seq<Message>, round: nat, s: State)
    returns (r: Result<Items, AgentError>, messages: seq<Message>, w: World)
    requires env.Valid() && HasUser(input) && round > 0 && RoundStart(env, input, round - 1, s)
    ensures r.Err? ==> FailureExit(env, input, w, r.error)
    ensures r.Ok? ==>
              && env.stream(round, messages) == Ok(r.value)
              && InStream(env, w, round, [], None)
              && Seen(env, w) == Seen(env, s.w).(phase := Seen(env, w).phase, context := messages,
                                                 requests := Seen(env, s.w).requests + [Request(messages, s.generated)])
              && LiveContext(input, s.generated, s.used, env.limits.maxToolArgumentBytes, messages)
              && Sound(env, input, Seen(env, w), s.used, round - 1)
  {
    hide Seen, Step, Guard, Emit, Sound, LiveContext, PrepareOutcome;
    hide FailureExit, Interrupted, MayFail, Covers, Caused, Reported;
    hide StreamFails;
    ghost var v, rules := Seen(env, s.w), env.Grammar();
    ghost var done := round - 1;
    w := s.w;
    var prepared;
    prepared, messages := Prepare(SetupAt(env, w.tick), s.messages);
    ContextPrepared(env, input, done, s, w.tick);
    TickIsQuiet(env, w);
    w := Pass(w);
    var cut := Guard(env, w.tick);
    GuardInterrupts(env, w.tick);
    TickIsQuiet(env, w);
    w := Pass(w);
    if cut.Some? {
      CutCauses(env, input, Seen(env, w), w.tick, cut.value);
      OpeningFailure(env, input, v, w, s.used, round, cut.value);
      return Err(cut.value), messages, w;
    }
    if prepared.Err? {
      PrepareCauses(env, input, Seen(env, w), s.w.tick, w.tick, prepared.error);
      OpeningFailure(env, input, v, w, s.used, round, prepared.error);
      return Err(prepared.error), messages, w;
    }
    if prepared.value.None? { NothingReportedNothingChanged(v.context, messages); }
    if prepared.value.Some? {
      ReportApplies(prepared.value.value, v.context, messages);
      EmitStep(env, w, ContextCompacted(prepared.value.value));
      StepCompacted(rules, Seen(env, w), done, prepared.value.value);
      var (cut, w') := Emit(env, w, ContextCompacted(prepared.value.value));
      w := w';
      if cut.Some? {
        CutCauses(env, input, Seen(env, w), w.tick, cut.value);
        OpeningFailure(env, input, v, w, s.used, round, cut.value);
        return Err(cut.value), messages, w;
      }
    }
    EmitStep(env, w, ModelRoundStarted(round));
    StepOpened(rules, Seen(env, w), round);
    var (cut', w1) := Emit(env, w, ModelRoundStarted(round));
    w := w1;
    if cut'.Some? {
      CutCauses(env, input, Seen(env, w), w.tick, cut'.value);
      OpeningFailure(env, input, v, w, s.used, round, cut'.value);
      return Err(cut'.value), messages, w;
    }
    StepAsked(rules, Seen(env, w), round, messages);
    RecordStep(env, w, Asked(round, messages));
    w := Record(w, Asked(round, messages));
    RequestIsGood(env, input, v, Seen(env, w), s, messages, done);
    var cut'' := Guard(env, w.tick);
    GuardInterrupts(env, w.tick);
    TickIsQuiet(env, w);
    w := Pass(w);
    if cut''.Some? {
      CutCauses(env, input, Seen(env, w), w.tick, cut''.value);
      StreamFailure(env, input, Seen(env, w), w, s.used, round, cut''.value);
      return Err(cut''.value), messages, w;
    }
    var items := env.stream(round, messages);
    if items.Err? {
      NoAnswerCauses(env, input, Seen(env, w), round, w.tick, items.error);
      StreamFailure(env, input, Seen(env, w), w, s.used, round, Provider(items.error));
      return Err(Provider(items.error)), messages, w;
    }
    r := Ok(items.value);
    InStreamFrom(env, w, round);
  }

  lemma {:induction false} ReportApplies(c: CompactionEvent, before: seq<Message>, after: seq<Message>)
    requires Reported(Some(c), before, after)
    ensures Applies(c, before) && after == Apply(c, before)
  {
    hide Applies, Apply;
  }

  lemma {:induction false} NothingReportedNothingChanged(before: seq<Message>, after: seq<Message>)
    requires Reported(None, before, after)
    ensures after == before
  {
    hide Applies, Apply;
  }

  lemma {:induction false} NoAnswerCauses(env: Env, input: seq<Message>, v: View, round: nat, until: nat,
                                          cause: ProviderError)
    requires env.stream(round, v.context) == Err(cause) && v.phase == Streaming(round, [], None) && v.failed.None?
    ensures Caused(env, input, v, until, Provider(cause))
  {
  }

  /** The call ids in use are those of the input and of everything delivered. */
  lemma {:induction false} UsedIds(input: seq<Message>, transcript: seq<Message>, used: set<string>, limit: nat)
    requires Durable(input, transcript, used, limit)
    ensures used == Ids(Blocks(input + transcript))
  {
    hide Scan, Blocks, OwnMessages, Ids;
    ScanGrows(EMPTY_LEDGER, Blocks(input + transcript));
  }

  /** A refused stream explains the failure of its run. */
  lemma {:induction false} RefusalCauses(env: Env, input: seq<Message>, v: View, used: set<string>, rounds: nat,
                                         round: nat, items: Items, got: seq<ProviderEvent>, owed: Option<RunEvent>,
                                         until: nat, e: AgentError)
    requires HasUser(input) && Sound(env, input, v, used, rounds) && v.failed.None?
    requires v.phase == Streaming(round, got, owed) && env.stream(round, v.context) == Ok(items)
    requires Explains(env, used, |v.dispatched|, round, items, got, until, e)
    ensures Caused(env, input, v, until, e)
  {
    hide Durable, FreshDispatches, GoodRequests, Refused, Interrupted, Ids, Blocks;
    UsedIds(input, v.transcript, used, env.limits.maxToolArgumentBytes);
  }

  lemma {:induction false} InStreamFrom(env: Env, w: World, round: nat)
    requires Seen(env, w).phase == Streaming(round, [], None)
    ensures InStream(env, w, round, [], None)
  {
    hide Seen;
  }

  lemma {:induction false} ContextPrepared(env: Env, input: seq<Message>, done: nat, s: State, t: nat)
    requires env.Valid() && HasUser(input) && RoundStart(env, input, done, s)
    ensures var (prepared, out) := PrepareOutcome(SetupAt(env, t), s.messages);
            && LiveContext(input, s.generated, s.used, env.limits.maxToolArgumentBytes, out)
            && (prepared.Ok? ==> WithinBudget(env, out) && Reported(prepared.value, Seen(env, s.w).context, out))
    ensures Sound(env, input, Seen(env, s.w), s.used, done)
    ensures Seen(env, s.w).phase == Between(done) && Seen(env, s.w).failed.None?
    ensures s.generated == Seen(env, s.w).transcript && s.total == |Seen(env, s.w).dispatched|
    ensures OwnMessages(s.generated, env.limits.maxToolArgumentBytes)
  {
    hide Seen, LiveContext, PrepareOutcome, OwnMessages, FreshDispatches, GoodRequests, Scan, Blocks;
    PrepareKeepsContext(SetupAt(env, t), input, s.generated, s.used, env.limits.maxToolArgumentBytes, s.messages);
    PrepareWithinBudget(SetupAt(env, t), s.messages);
    PrepareIsReported(SetupAt(env, t), s.messages);
  }

  lemma {:induction false} OpeningFailure(env: Env, input: seq<Message>, v: View, w: World, used: set<string>,
                                          round: nat, e: AgentError)
    requires HasUser(input) && env.Valid() && 0 < round <= env.limits.maxModelRounds
    requires Sound(env, input, v, used, round - 1) && v.failed.None?
    requires SameRecord(v, Seen(env, w)) && Opening(Seen(env, w).phase, round)
    requires Caused(env, input, Seen(env, w), w.tick, e)
    ensures FailureExit(env, input, w, e)
  {
    hide Sound, Seen, FailureExit, Caused;
    QuietFailure(env, input, v, w, used, round - 1, e);
  }

  lemma {:induction false} StreamFailure(env: Env, input: seq<Message>, v: View, w: World, used: set<string>,
                                         round: nat, e: AgentError)
    requires HasUser(input) && env.Valid() && 0 < round <= env.limits.maxModelRounds
    requires Sound(env, input, v, used, round - 1) && v.failed.None?
    requires SameRecord(v, Seen(env, w)) && Seen(env, w).phase.Streaming?
    requires Caused(env, input, Seen(env, w), w.tick, e)
    ensures FailureExit(env, input, w, e)
  {
    hide Sound, Seen, FailureExit, Caused;
    QuietFailure(env, input, v, w, used, round - 1, e);
  }

  /** The request just made is good, so the view stays sound. */
  lemma {:induction false} RequestIsGood(env: Env, input: seq<Message>, v: View, v': View, s: State,
                                         ms: seq<Message>, done: nat)
    requires HasUser(input) && Sound(env, input, v, s.used, done)
    requires v' == v.(phase := v'.phase, context := v'.context, requests := v.requests + [Request(ms, v.transcript)])
    requires s.generated == v.transcript
    requires LiveContext(input, s.generated, s.used, env.limits.maxToolArgumentBytes, ms) && WithinBudget(env, ms)
    ensures Sound(env, input, v', s.used, done)
  {
    hide Durable, FreshDispatches, Paired, WellFormed, WithinBudget, Subsequence, EndsWith, OpenTurn, Ids, Blocks;
    assert GoodRequest(env, input, Request(ms, v.transcript));
    hide GoodRequest;
    forall i | 0 <= i < |v'.requests| ensures GoodRequest(env, input, v'.requests[i]) {
      if i < |v.requests| { assert v'.requests[i] == v.requests[i]; }
    }
  }

  // ---------------------------------------------------------------- delivering a round

  lemma {:induction false} InputIdsUsed(input: seq<Message>, transcript: seq<Message>, used: set<string>, limit: nat)
    requires Durable(input, transcript, used, limit)
    ensures Ids(Blocks(input)) <= used
  {
    hide Scan, Blocks, OwnMessages, Ids, CallIds;
    BlocksConcat(input, transcript);
    ScanGrows(EMPTY_LEDGER, Blocks(input + transcript));
    CallIdsConcat(Blocks(input), Blocks(transcript));
  }

  lemma {:induction false} MoreDispatches(ids: set<string>, dispatched: seq<ToolCall>, used: set<string>,
                                          calls: seq<ToolCall>, k: nat)
    requires FreshCalls(dispatched, ids) && IdSet(dispatched) <= used && ids <= used
    requires FreshCalls(calls, used) && k <= |calls|
    ensures FreshCalls(dispatched + calls[..k], ids) && IdSet(dispatched + calls[..k]) <= used + IdSet(calls)
  {
    var all := dispatched + calls[..k];
    var n := |dispatched|;
    forall i, j | 0 <= i < j < |all| ensures IdSeq(all)[i] != IdSeq(all)[j] {
      if j < n {
        assert IdSeq(dispatched)[i] != IdSeq(dispatched)[j];
      } else if i < n {
        assert all[j] == calls[j - n] && dispatched[i] in dispatched && dispatched[i].id in IdSet(dispatched);
      } else {
        assert all[i] == calls[i - n] && all[j] == calls[j - n];
        assert IdSeq(calls)[i - n] != IdSeq(calls)[j - n];
      }
    }
    forall c | c in all ensures c.id in used + IdSet(calls) {
      if c in dispatched {
        assert c.id in IdSet(dispatched);
      } else {
        assert c in calls && c.id in IdSet(calls);
      }
    }
    forall i | 0 <= i < |all| ensures all[i].id !in ids {
      if i >= n { assert all[i] == calls[i - n]; }
    }
  }

  lemma {:induction false} OneRoundMore(dispatched: nat, k: nat, rounds: nat, perRound: nat)
    requires dispatched <= rounds * perRound && k <= perRound
    ensures dispatched + k <= (rounds + 1) * perRound
  {
  }

  /** Delivering the messages of a round keeps the view sound. */
  lemma {:induction false} RoundDelivered(env: Env, input: seq<Message>, v: View, v': View, used: set<string>,
                                          rounds: nat, got: seq<ProviderEvent>, results: seq<Message>,
                                          marker: seq<Message>, k: nat)
    requires HasUser(input) && Sound(env, input, v, used, rounds)
    requires GoodRound(got, results, marker, used, env.limits.maxToolArgumentBytes)
    requires k <= |Calls(got)| <= env.limits.maxToolCallsPerRound
    requires |v.dispatched| + |Calls(got)| <= env.limits.maxTotalToolCalls
    requires v'.requests == v.requests
    requires v'.dispatched == v.dispatched + Calls(got)[..k]
    requires v'.transcript == v.transcript + RoundMessages(got, results, marker)
    ensures Sound(env, input, v', used + IdSet(Calls(got)), rounds + 1)
    ensures k == 0 ==> Sound(env, input, v', used + IdSet(Calls(got)), rounds)
  {
    var limit := env.limits.maxToolArgumentBytes;
    assert FreshCalls(Calls(got), used);
    hide Durable, Calls, IdSet, FreshCalls, GoodRequest, GoodRound, RoundMessages, Ids, Blocks;
    DurableGrows(input, v.transcript, used, limit, got, results, marker);
    InputIdsUsed(input, v.transcript, used, limit);
    MoreDispatches(Ids(Blocks(input)), v.dispatched, used, Calls(got), k);
    OneRoundMore(|v.dispatched|, k, rounds, env.limits.maxToolCallsPerRound);
  }

  /** What an admissible, complete stream gives the rest of its round. */
  lemma {:induction false} AdmittedRound(env: Env, used: set<string>, total: nat,
                                         got: seq<ProviderEvent>, results: seq<Message>, marker: seq<Message>)
    requires Admissible(env, used, total, got) && Answered(Calls(got), results)
    requires marker == [] || marker == [MARKER]
    ensures GoodRound(got, results, marker, used, env.limits.maxToolArgumentBytes)
    ensures |Calls(got)| <= env.limits.maxToolCallsPerRound
    ensures total + |Calls(got)| <= env.limits.maxTotalToolCalls
    ensures |Text(got)| <= env.budget.maxSerializedBytes
  {
    hide Calls, Text, Answered, FreshCalls;
  }

  lemma {:induction false} ClosingTurn(env: Env, input: seq<Message>, v: View, used: set<string>, rounds: nat)
    requires HasUser(input) && Paired(input) && Sound(env, input, v, used, rounds)
    requires v.transcript != [] && v.transcript[|v.transcript| - 1].role.Assistant?
    ensures ToolPairsComplete(OpenTurn(input)) ==> TurnIsComplete(OpenTurn(input) + v.transcript)
  {
    hide Durable, FreshDispatches, GoodRequests, Paired, ToolPairsComplete, OpenTurn, TurnIsComplete;
    if ToolPairsComplete(OpenTurn(input)) {
      TurnCloses(input, v.transcript, used, env.limits.maxToolArgumentBytes);
    }
  }

  // ---------------------------------------------------------------- the answering round

  lemma {:induction false} StepAnswer(rules: Rules, v: View, round: nat, m: Message)
    requires v.phase == Answering(round, m)
    ensures Step(rules, v, Observed(TranscriptMessages(round, [m])))
         == v.(phase := Delivered(round), context := v.context + [m], transcript := v.transcript + [m])
  {
  }

  lemma {:induction false} StepDone(rules: Rules, v: View, round: nat)
    requires v.phase == Delivered(round)
    ensures Step(rules, v, Observed(RunCompleted(round, |v.dispatched|))) == v.(phase := Finished)
  {
  }

  /** The last round: deliver the answer, then report the run complete. */
  method Answer(env: Env, ghost input: seq<Message>, round: nat, s: State,
                messages: seq<Message>, ghost got: seq<ProviderEvent>, reply: Reply, w0: World)
    returns (r: Result<RunResult, AgentError>, w: World)
    requires env.Valid() && HasUser(input) && Paired(input) && 0 < round <= env.limits.maxModelRounds
    requires Seen(env, w0).phase == Answering(round, AssistantMessage(got)) && Seen(env, w0).failed.None?
    requires Sound(env, input, Seen(env, w0), s.used, round - 1)
    requires Admissible(env, s.used, s.total, got) && Calls(got) == []
    requires s.generated == Seen(env, w0).transcript && s.total == |Seen(env, w0).dispatched|
    requires messages == Seen(env, w0).context && s.usage == Seen(env, w0).usage
    requires LiveContext(input, s.generated, s.used, env.limits.maxToolArgumentBytes, messages)
    requires Covers(s.usage) && reply.blocks == AssistantBlocks(got) && reply.text == Text(got)
    ensures r.Ok? ==> SuccessExit(env, input, w, r.value)
    ensures r.Ok? ==> r.value.modelRounds == round && r.value.finalText == reply.text && r.value.usage == s.usage
    ensures r.Err? ==> FailureExit(env, input, w, r.error)
  {
    hide Seen, Step, Emit, Sound, LiveContext, FailureExit, Interrupted, MayFail, Covers, Admissible, Calls, Text;
    hide AssistantBlocks, TurnIsComplete, ToolPairsComplete, OpenTurn, Paired, Ends, TurnClosed, SuccessExit, Caused;
    var assistant := Message(Assistant, reply.blocks);
    ghost var v := Seen(env, w0);
    w := w0;
    EmitStep(env, w, TranscriptMessages(round, [assistant]));
    StepAnswer(env.Grammar(), v, round, assistant);
    var (cut, w1) := Emit(env, w, TranscriptMessages(round, [assistant]));
    w := w1;
    if cut.Some? {
      CutCauses(env, input, Seen(env, w), w.tick, cut.value);
      AnsweringFailure(env, input, v, w, s.used, round, cut.value);
      return Err(cut.value), w;
    }
    ghost var v1 := Seen(env, w);
    AnswerDelivered(env, input, v, v1, s, messages, got, round);
    var messages', generated := messages + [assistant], s.generated + [assistant];
    EmitStep(env, w, RunCompleted(round, s.total));
    StepDone(env.Grammar(), v1, round);
    var (cut', w2) := Emit(env, w, RunCompleted(round, s.total));
    w := w2;
    if cut'.Some? {
      CutCauses(env, input, Seen(env, w), w.tick, cut'.value);
      DeliveredFailure(env, input, w, cut'.value);
      return Err(cut'.value), w;
    }
    r := Ok(RunResult(messages', generated, reply.text, s.usage, round, s.total));
    AnswerSucceeds(env, input, v1, w, r.value, s.used, got, messages);
  }

  lemma {:induction false} AnsweringFailure(env: Env, input: seq<Message>, v: View, w: World, used: set<string>,
                                            round: nat, e: AgentError)
    requires HasUser(input) && env.Valid() && 0 < round <= env.limits.maxModelRounds
    requires Sound(env, input, v, used, round - 1) && v.failed.None?
    requires SameRecord(v, Seen(env, w)) && Seen(env, w).phase.Answering?
    requires Caused(env, input, Seen(env, w), w.tick, e)
    ensures FailureExit(env, input, w, e)
  {
    hide Sound, Seen, FailureExit, Caused;
    QuietFailure(env, input, v, w, used, round - 1, e);
  }

  lemma {:induction false} AnswerDelivered(env: Env, input: seq<Message>, v: View, v': View, s: State,
                                           messages: seq<Message>, got: seq<ProviderEvent>, round: nat)
    requires env.Valid() && HasUser(input) && Paired(input) && 0 < round <= env.limits.maxModelRounds
    requires Sound(env, input, v, s.used, round - 1)
    requires Admissible(env, s.used, s.total, got) && Calls(got) == []
    requires s.generated == v.transcript && s.total == |v.dispatched|
    requires LiveContext(input, s.generated, s.used, env.limits.maxToolArgumentBytes, messages)
    requires v' == v.(phase := Delivered(round), context := v.context + [AssistantMessage(got)],
                      transcript := v.transcript + [AssistantMessage(got)])
    ensures Ends(env, input, v')
    ensures ToolPairsComplete(OpenTurn(input)) ==> TurnIsComplete(OpenTurn(input) + v'.transcript)
    ensures LiveContext(input, v'.transcript, s.used, env.limits.maxToolArgumentBytes,
                        messages + [AssistantMessage(got)])
    ensures |Text(got)| <= env.budget.maxSerializedBytes
  {
    hide Sound, LiveContext, Admissible, Calls, AssistantMessage, Paired;
    hide Ends, ToolPairsComplete, TurnIsComplete, OpenTurn;
    hide IdSet, GoodRound;
    var m := AssistantMessage(got);
    assert m.role.Assistant? by { AssistantRole(got); }
    assert Answered(Calls(got), []);
    hide Answered;
    AdmittedRound(env, s.used, s.total, got, [], []);
    assert RoundMessages(got, [], []) == [m];
    assert v.dispatched + [] == v.dispatched;
    assert s.used + IdSet([]) == s.used by { NoIds(); }
    RoundDelivered(env, input, v, v', s.used, round - 1, got, [], [], 0);
    SoundEnds(env, input, v', s.used, round - 1);
    ClosingTurn(env, input, v', s.used, round - 1);
    ContextGrows(input, s.generated, s.used, env.limits.maxToolArgumentBytes, messages, got, [], []);
  }

  lemma {:induction false} NoIds()
    ensures IdSet([]) == {}
  {
  }

  lemma {:induction false} AssistantRole(got: seq<ProviderEvent>)
    ensures AssistantMessage(got).role.Assistant?
  {
  }

  lemma {:induction false} DeliveredFailure(env: Env, input: seq<Message>, w: World, e: AgentError)
    requires HasUser(input) && env.Valid() && Seen(env, w).phase.Delivered? && Seen(env, w).failed.None?
    requires Ends(env, input, Seen(env, w))
    requires ToolPairsComplete(OpenTurn(input)) ==> TurnIsComplete(OpenTurn(input) + Seen(env, w).transcript)
    requires Caused(env, input, Seen(env, w), w.tick, e)
    ensures FailureExit(env, input, w, e)
  {
    hide Seen, Ends, ToolPairsComplete, TurnIsComplete, OpenTurn, Caused;
  }

  lemma {:induction false} AnswerSucceeds(env: Env, input: seq<Message>, v: View, w: World, r: RunResult,
                                          used: set<string>, got: seq<ProviderEvent>, messages: seq<Message>)
    requires HasUser(input) && env.Valid()
    requires Ends(env, input, v) && v.failed.None?
    requires Seen(env, w) == v.(phase := Finished)
    requires w.log != [] && w.log[|w.log| - 1] == Observed(RunCompleted(r.modelRounds, r.toolCalls))
    requires r.toolCalls == |v.dispatched| && r.generated == v.transcript
    requires r.messages == v.context && r.usage == v.usage
    requires r.generated != [] && r.generated[|r.generated| - 1] == AssistantMessage(got) && r.finalText == Text(got)
    requires |Text(got)| <= env.budget.maxSerializedBytes
    requires r.messages == messages + [AssistantMessage(got)] && Covers(r.usage)
    requires LiveContext(input, v.transcript, used, env.limits.maxToolArgumentBytes, r.messages)
    requires ToolPairsComplete(OpenTurn(input)) ==> TurnIsComplete(OpenTurn(input) + v.transcript)
    ensures SuccessExit(env, input, w, r)
  {
    hide Seen, ToolPairsComplete, TurnIsComplete, OpenTurn, Paired, AssistantBlocks;
    hide Text, Subsequence, Covers, EndsWith;
    hide WellFormed, OwnMessages, FreshCalls, GoodRequest, Ids, Blocks;
    AssistantText(got);
    assert GoodRequests(env, input, Seen(env, w));
  }

  // ---------------------------------------------------------------- a tool round

  lemma {:induction false} StepStop(rules: Rules, v: View, round: nat, turn: seq<Message>)
    requires MustStop(v, round, turn)
    ensures Step(rules, v, Observed(TranscriptMessages(round, turn + [MARKER])))
         == v.(phase := Closed(round), context := v.context + (turn + [MARKER]),
               transcript := v.transcript + (turn + [MARKER]))
  {
    hide NotStartedMessages;
    assert |turn + [MARKER]| > |v.phase.turn|;
  }

  lemma {:induction false} StepNextRound(rules: Rules, v: View, round: nat, turn: seq<Message>)
    requires AtReady(v, round, turn, [])
    ensures Step(rules, v, Observed(TranscriptMessages(round, turn)))
         == v.(phase := Between(round), context := v.context + turn, transcript := v.transcript + turn)
    ensures MustStop(v, round, turn)
  {
    assert NotStartedMessages([]) == [];
  }

  /** What is true of the view when the tool phase of a round is over and not yet delivered. */
  ghost predicate ToolsSettled(env: Env, input: seq<Message>, round: nat, s: State, v: View, v': View,
                               got: seq<ProviderEvent>, turn: seq<Message>, k: nat)
    requires HasUser(input)
  {
    && 0 < round < env.limits.maxModelRounds
    && Sound(env, input, v, s.used, round - 1)
    && Admissible(env, s.used, s.total, got) && s.total == |v.dispatched|
    && k <= |Calls(got)| && OnlyDispatches(v, v', Calls(got)[..k])
    && turn != [] && turn[0] == AssistantMessage(got) && Answered(Calls(got), turn[1..])
  }

  lemma {:induction false} StopCauses(env: Env, input: seq<Message>, v: View, v': View, until: nat, e: AgentError)
    requires until > 0 && StopsFor(env, v, until - 1, e)
    requires v'.failed == v.failed && v'.phase.Closed?
    ensures Caused(env, input, v', until, e) && MayFail(v', ErrorCode(e))
  {
    hide StreamFails, PrepareFails;
    if v.failed.Some? {
      var t := v.failed.value.tick + 3;
      GuardInterrupts(env, t);
    } else {
      InterruptedLater(env, e, until - 1, until);
    }
  }

  /** A stopped tool round: its closed transcript is delivered and the run fails with `e`. */
  lemma {:induction false} ToolRoundStops(env: Env, input: seq<Message>, round: nat, s: State,
                                          v: View, v': View, got: seq<ProviderEvent>, turn: seq<Message>, k: nat,
                                          w: World, e: AgentError)
    requires env.Valid() && HasUser(input) && Paired(input)
    requires ToolsSettled(env, input, round, s, v, v', got, turn, k)
    requires w.tick > 0 && StopsFor(env, v', w.tick - 1, e)
    requires Seen(env, w) == v'.(phase := Closed(round), context := v'.context + (turn + [MARKER]),
                                 transcript := v'.transcript + (turn + [MARKER]))
    ensures FailureExit(env, input, w, e)
  {
    hide Seen, Sound, Admissible, Calls, AssistantMessage, Paired, Ends, ToolPairsComplete, TurnIsComplete, OpenTurn;
    hide IdSet, GoodRound, Answered;
    var v'' := Seen(env, w);
    var results := turn[1..];
    AdmittedRound(env, s.used, s.total, got, results, [MARKER]);
    assert RoundMessages(got, results, [MARKER]) == turn + [MARKER];
    RoundDelivered(env, input, v, v'', s.used, round - 1, got, results, [MARKER], k);
    SoundEnds(env, input, v'', s.used + IdSet(Calls(got)), round);
    assert v''.transcript[|v''.transcript| - 1] == MARKER;
    StopCauses(env, input, v', v'', w.tick, e);
    ClosingTurn(env, input, v'', s.used + IdSet(Calls(got)), round);
  }

  lemma {:induction false} CutStops(env: Env, v: View, until: nat, e: AgentError)
    requires v.failed.None? && Interrupted(env, e, until)
    ensures StopsFor(env, v, until, e)
  {
    hide Interrupted;
  }

  /** A finished tool round: the state at the top of the next round. */
  lemma {:induction false} ToolRoundContinues(env: Env, input: seq<Message>, round: nat, s: State,
                                              v: View, v': View, got: seq<ProviderEvent>, turn: seq<Message>,
                                              messages: seq<Message>, s': State)
    requires env.Valid() && HasUser(input)
    requires ToolsSettled(env, input, round, s, v, v', got, turn, |Calls(got)|)
    requires v'.failed.None? && s.generated == v.transcript && Covers(s.usage)
    requires LiveContext(input, s.generated, s.used, env.limits.maxToolArgumentBytes, messages)
    requires Seen(env, s'.w) == v'.(phase := Between(round), context := v'.context + turn,
                                    transcript := v'.transcript + turn)
    requires messages == v.context && s.usage == v.usage
    requires s' == State(messages + turn, s.generated + turn, s.used + IdSet(Calls(got)), s.total + |Calls(got)|,
                         s.usage, s'.w)
    ensures RoundStart(env, input, round, s')
  {
    hide Seen, Sound, Admissible, Calls, AssistantMessage, LiveContext, IdSet, GoodRound, Answered, Covers;
    var results := turn[1..];
    AdmittedRound(env, s.used, s.total, got, results, []);
    assert RoundMessages(got, results, []) == turn;
    assert Calls(got)[..|Calls(got)|] == Calls(got);
    RoundDelivered(env, input, v, Seen(env, s'.w), s.used, round - 1, got, results, [], |Calls(got)|);
    ContextGrows(input, s.generated, s.used, env.limits.maxToolArgumentBytes, messages, got, results, []);
  }

  datatype Outcome = Continue(next: State) | Done(result: Result<RunResult, AgentError>, w: World)

  /** A round that asked for tools: dispatch them, deliver the transcript, go on or fail. */
  method ToolRound(env: Env, ghost input: seq<Message>, round: nat, s: State,
                   messages: seq<Message>, ghost got: seq<ProviderEvent>, reply: Reply, used: set<string>, w0: World)
    returns (out: Outcome)
    requires env.Valid() && HasUser(input) && Paired(input) && 0 < round < env.limits.maxModelRounds
    requires AtReady(Seen(env, w0), round, [AssistantMessage(got)], Calls(got))
    requires Sound(env, input, Seen(env, w0), s.used, round - 1)
    requires Admissible(env, s.used, s.total, got)
    requires s.generated == Seen(env, w0).transcript && s.total == |Seen(env, w0).dispatched| && Covers(s.usage)
    requires messages == Seen(env, w0).context && s.usage == Seen(env, w0).usage
    requires LiveContext(input, s.generated, s.used, env.limits.maxToolArgumentBytes, messages)
    requires reply.blocks == AssistantBlocks(got) && reply.calls == Calls(got) && used == s.used + IdSet(Calls(got))
    ensures out.Continue? ==> RoundStart(env, input, round, out.next)
    ensures out.Done? ==> out.result.Err? && FailureExit(env, input, out.w, out.result.error)
  {
    hide Seen, Step, Emit, Sound, LiveContext, FailureExit, Interrupted, MayFail, Covers, Admissible, Calls, RoundStart;
    hide AssistantBlocks, Paired, IdSet, Answered, MustStop, StopsFor, Results;
    ghost var v := Seen(env, w0);
    var assistant := Message(Assistant, reply.blocks);
    var terminal, turn, total, w := DispatchTools(env, round, assistant, reply.calls, s.total, w0);
    ghost var v' := Seen(env, w);
    ghost var k := total - s.total;
    ResultsAnswer(env, reply.calls, k, turn[1..]);
    assert ToolsSettled(env, input, round, s, v, v', got, turn, k);
    var transcript := TranscriptMessages(round, turn + [MARKER]);
    if terminal.Some? {
      StepStop(env.Grammar(), v', round, turn);
      RecordStep(env, w, Observed(transcript));
      w := EmitWithGrace(w, transcript);
      ToolRoundStops(env, input, round, s, v, v', got, turn, k, w, terminal.value);
      return Done(Err(terminal.value), w);
    }
    StepNextRound(env.Grammar(), v', round, turn);
    EmitStep(env, w, TranscriptMessages(round, turn));
    var (cut, w1) := Emit(env, w, TranscriptMessages(round, turn));
    w := w1;
    if cut.Some? {
      StepStop(env.Grammar(), v', round, turn);
      RecordStep(env, w, Observed(transcript));
      CutStops(env, v', w.tick, cut.value);
      w := EmitWithGrace(w, transcript);
      ToolRoundStops(env, input, round, s, v, v', got, turn, k, w, cut.value);
      return Done(Err(cut.value), w);
    }
    var next := State(messages + turn, s.generated + turn, used, total, s.usage, w);
    ToolRoundContinues(env, input, round, s, v, v', got, turn, messages, next);
    return Continue(next);
  }

  // ---------------------------------------------------------------- one round

  lemma {:induction false} StepRoundCompleted(rules: Rules, v: View, round: nat, got: seq<ProviderEvent>,
                                              reason: StopReason)
    requires v.phase == Streaming(round, got, None) && Complete(got, reason) && Validated(rules, got)
    requires YieldsAll(rules, round, v.context, got)
    ensures Step(rules, v, Observed(ModelRoundCompleted(round, reason))) ==
            v.(phase := AfterRound(rules, round, got), usage := Accumulated(v.usage, MergeAll(NO_USAGE, Reports(got))))
  {
    hide Complete, Validated, YieldsAll, AfterRound, Accumulated, MergeAll, Reports;
  }

  /** A stream the runner admitted is one the observer may take as validated. */
  lemma {:induction false} AdmittedIsValidated(env: Env, used: set<string>, total: nat, got: seq<ProviderEvent>)
    requires Admissible(env, used, total, got)
    ensures Validated(env.Grammar(), got)
  {
    hide Text, Calls, FreshCalls;
  }

  lemma {:induction false} AfterRoundCases(env: Env, v: View, round: nat, got: seq<ProviderEvent>)
    requires v.phase == AfterRound(env.Grammar(), round, got) && v.failed.None?
    ensures Calls(got) == [] ==> v.phase == Answering(round, AssistantMessage(got))
    ensures Calls(got) != [] && round == env.limits.maxModelRounds ==> v.phase == Exhausted(round)
    ensures Calls(got) != [] && round != env.limits.maxModelRounds ==>
              AtReady(v, round, [AssistantMessage(got)], Calls(got))
  {
    hide Calls, AssistantMessage;
  }

  lemma {:induction false} RoundUsageCovers(usage: Usage, got: seq<ProviderEvent>)
    requires Covers(usage)
    ensures Covers(Accumulated(usage, MergeAll(NO_USAGE, Reports(got))))
  {
    hide MergeAll, Reports;
    MergeAllCovers(NO_USAGE, Reports(got));
    AccumulateCovers(usage, MergeAll(NO_USAGE, Reports(got)));
  }

  lemma {:induction false} ExhaustedFailure(env: Env, input: seq<Message>, v: View, w: World, used: set<string>,
                                            round: nat)
    requires HasUser(input) && env.Valid() && 0 < round <= env.limits.maxModelRounds
    requires Sound(env, input, v, used, round - 1) && v.failed.None?
    requires SameRecord(v, Seen(env, w)) && Seen(env, w).phase.Exhausted?
    ensures FailureExit(env, input, w, ModelRoundLimit(env.limits.maxModelRounds))
  {
    hide Sound, Seen, FailureExit, StreamFails, PrepareFails;
    QuietFailure(env, input, v, w, used, round - 1, ModelRoundLimit(env.limits.maxModelRounds));
  }

  /** The body of the round loop. */
  method RunRound(env: Env, ghost input: seq<Message>, round: nat, s: State)
    returns (out: Outcome)
    requires env.Valid() && HasUser(input) && Paired(input)
    requires 0 < round <= env.limits.maxModelRounds && RoundStart(env, input, round - 1, s)
    ensures out.Continue? ==> round < env.limits.maxModelRounds && RoundStart(env, input, round, out.next)
    ensures out.Done? && out.result.Ok? ==>
              SuccessExit(env, input, out.w, out.result.value) && out.result.value.modelRounds == round
    ensures out.Done? && out.result.Err? ==> FailureExit(env, input, out.w, out.result.error)
  {
    hide Seen, Step, Emit, Sound, LiveContext, FailureExit, Interrupted, MayFail, Covers, Admissible, Calls, RoundStart;
    hide AssistantBlocks, Paired, IdSet, SuccessExit, Explains, AfterRound, Complete, Text, MergeAll, Reports, InStream;
    hide Caused, YieldsAll;
    ghost var v := Seen(env, s.w);
    StartFacts(env, input, round - 1, s);
    var items, messages, w := OpenRound(env, input, round, s);
    if items.Err? { return Done(Err(items.error), w); }
    ghost var v1 := Seen(env, w);
    var reply, used;
    ghost var got;
    reply, got, used, w := ReadStream(env, round, s.used, s.total, items.value, w);
    if reply.Err? {
      ghost var owed :| InStream(env, w, round, got, owed);
      InStreamPhase(env, w, round, got, owed);
      SoundQuiet(env, input, v1, Seen(env, w), s.used, round - 1);
      RefusalCauses(env, input, Seen(env, w), s.used, round - 1, round, items.value, got, owed, w.tick, reply.error);
      StreamFailure(env, input, v1, w, s.used, round, reply.error);
      return Done(Err(reply.error), w);
    }
    InStreamPhase(env, w, round, got, None);
    ghost var v2 := Seen(env, w);
    var totalUsage := new UsageMeter(s.usage);
    totalUsage.Accumulate(reply.value.usage);
    var s1 := s.(usage := totalUsage.Value());
    AdmittedIsValidated(env, s.used, s.total, got);
    RoundUsageCovers(s.usage, got);
    EmitStep(env, w, ModelRoundCompleted(round, reply.value.reason));
    StepRoundCompleted(env.Grammar(), v2, round, got, reply.value.reason);
    var (cut, w1) := Emit(env, w, ModelRoundCompleted(round, reply.value.reason));
    w := w1;
    if cut.Some? {
      CutCauses(env, input, Seen(env, w), w.tick, cut.value);
      StreamFailure(env, input, v1, w, s.used, round, cut.value);
      return Done(Err(cut.value), w);
    }
    SoundQuiet(env, input, v1, Seen(env, w), s.used, round - 1);
    AfterRoundCases(env, Seen(env, w), round, got);
    if reply.value.calls == [] {
      var result;
      result, w := Answer(env, input, round, s1, messages, got, reply.value, w);
      return Done(result, w);
    }
    if round == env.limits.maxModelRounds {
      ExhaustedFailure(env, input, v1, w, s.used, round);
      return Done(Err(ModelRoundLimit(env.limits.maxModelRounds)), w);
    }
    out := ToolRound(env, input, round, s1, messages, got, reply.value, used, w);
  }

  lemma {:induction false} InStreamPhase(env: Env, w: World, round: nat, got: seq<ProviderEvent>,
                                         owed: Option<RunEvent>)
    requires InStream(env, w, round, got, owed)
    ensures Seen(env, w).phase == Streaming(round, got, owed)
  {
    hide Seen;
  }

  lemma {:induction false} StartFacts(env: Env, input: seq<Message>, done: nat, s: State)
    requires HasUser(input) && RoundStart(env, input, done, s)
    ensures var v := Seen(env, s.w);
            && v.failed.None? && s.total == |v.dispatched| && s.generated == v.transcript && s.usage == v.usage
            && s.total <= env.limits.maxTotalToolCalls && Covers(s.usage)
  {
    hide Seen, Durable, FreshDispatches, GoodRequests, LiveContext, Covers;
  }

  // ---------------------------------------------------------------- the run

  /** `transcript_call_ids`. */
  function TranscriptCallIds(ms: seq<Message>): set<string> {
    Ids(Blocks(ms))
  }

  lemma {:induction false} ValidIsWellFormed(input: AgentInput, limits: Limits)
    requires ValidInput(input, limits)
    ensures HasUser(input.messages) && Paired(input.messages)
    ensures WellFormed(input.messages, limits.maxToolArgumentBytes)
  {
    hide Paired, HasUser, RoleOk, SizesOk, PlacementOk, Distinct;
  }

  lemma {:induction false} StartSound(env: Env, input: seq<Message>, v: View)
    requires HasUser(input) && v.requests == [] && v.dispatched == [] && v.transcript == []
    requires Durable(input, [], Ids(Blocks(input)), env.limits.maxToolArgumentBytes)
    ensures Sound(env, input, v, Ids(Blocks(input)), 0)
  {
    hide Durable, Ids, Blocks, GoodRequest;
    assert IdSet([]) == {};
    assert IdSeq([]) == [];
  }

  lemma {:induction false} FirstRound(env: Env, input: AgentInput, s: State)
    requires env.Valid() && ValidInput(input, env.limits)
    requires Seen(env, s.w) == Start(env.Grammar()).(phase := Between(0)) && input == env.input
    requires s == State(input.messages, [], TranscriptCallIds(input.messages), 0, NO_USAGE, s.w)
    ensures RoundStart(env, input.messages, 0, s)
  {
    hide Seen, ValidInput, Paired, Ids, Blocks, Durable, WellFormed, LiveContext, Sound;
    ValidIsWellFormed(input, env.limits);
    InitialContext(input.messages, env.limits.maxToolArgumentBytes);
    StartSound(env, input.messages, Seen(env, s.w));
  }

  lemma {:induction false} NothingSeen(env: Env, t: nat)
    ensures Seen(env, Trace(t, [])) == Start(env.Grammar())
  {
  }

  lemma {:induction false} StepStarted(rules: Rules)
    ensures Step(rules, Start(rules), Observed(RunStarted)) == Start(rules).(phase := Between(0))
  {
  }

  lemma {:induction false} StartFailure(env: Env, input: AgentInput, w: World, e: AgentError)
    requires env.Valid() && ValidInput(input, env.limits) && Seen(env, w) == Start(env.Grammar())
    requires Interrupted(env, e, w.tick)
    ensures FailureExit(env, input.messages, w, e)
  {
    hide Seen, ValidInput, Paired, Ids, Blocks, Durable, WellFormed, LiveContext, Sound, Ends;
    ValidIsWellFormed(input, env.limits);
    CutCauses(env, input.messages, Seen(env, w), w.tick, e);
    InitialContext(input.messages, env.limits.maxToolArgumentBytes);
    StartSound(env, input.messages, Start(env.Grammar()));
    SoundEnds(env, input.messages, Start(env.Grammar()), Ids(Blocks(input.messages)), 0);
  }

  /** An emission that loses the race to a raised interruption delivers nothing. */
  lemma {:induction false} FirstEmit(env: Env, w: World, e: RunEvent)
    ensures var (cut, w') := Emit(env, w, e);
            && (env.pick(w.tick).TakeCancellation? && env.cancelled(w.tick) ==>
                  cut == Some(Cancelled) && w'.log == w.log)
            && (env.pick(w.tick).TakeDeadline? && env.expired(w.tick) ==>
                  cut == Some(DeadlineExceeded) && w'.log == w.log)
  {
  }

  /** `execute_run`. An invalid input is refused before anything is observable; otherwise the
      run ends in success or failure with everything the two exits promise. */
  method ExecuteRun(env: Env) returns (r: Result<RunResult, AgentError>, w: World)
    requires env.Valid()
    ensures !ValidInput(env.input, env.limits) ==> r.Err? && w == Trace(0, [])
    ensures ValidInput(env.input, env.limits) && r.Ok? ==>
              SuccessExit(env, env.input.messages, w, r.value) && r.value.modelRounds <= env.limits.maxModelRounds
    ensures ValidInput(env.input, env.limits) && r.Err? ==> FailureExit(env, env.input.messages, w, r.error)
    ensures ValidInput(env.input, env.limits) && env.pick(0).TakeCancellation? && env.cancelled(0) ==>
              r == Err(Cancelled) && w.log == []
    ensures ValidInput(env.input, env.limits) && env.pick(0).TakeDeadline? && env.expired(0) ==>
              r == Err(DeadlineExceeded) && w.log == []
  {
    hide Seen, Step, Emit, SuccessExit, FailureExit, Paired;
    hide MessageOk, RoundStart, Interrupted, TranscriptCallIds, Start;
    var input := env.input;
    w := Trace(0, []);
    NothingSeen(env, 0);
    var invalid := ValidateInput(input, env.limits);
    if invalid.Some? { return Err(invalid.value), w; }
    EmitStep(env, w, RunStarted);
    FirstEmit(env, w, RunStarted);
    StepStarted(env.Grammar());
    var (cut, w1) := Emit(env, w, RunStarted);
    w := w1;
    if cut.Some? {
      StartFailure(env, input, w, cut.value);
      return Err(cut.value), w;
    }
    var s := State(input.messages, [], TranscriptCallIds(input.messages), 0, NO_USAGE, w);
    FirstRound(env, input, s);
    var round := 1;
    while round <= env.limits.maxModelRounds
      invariant 1 <= round <= env.limits.maxModelRounds
      invariant RoundStart(env, input.messages, round - 1, s)
    {
      var out := RunRound(env, input.messages, round, s);
      if out.Done? { return out.result, out.w; }
      s := out.next;
      round := round + 1;
    }
    assert false;
  }

  /** `normalize_provider_cancellation`. */
  function Normalize(env: Env, t: nat, e: AgentError): AgentError {
    if e != Provider(ProviderCancelled) then e
    else if env.expired(t) then DeadlineExceeded
    else if env.cancelled(t) then Cancelled
    else e
  }

  lemma {:induction false} NormalizedFailure(env: Env, input: seq<Message>, w: World, e: AgentError)
    requires HasUser(input) && env.Valid() && FailureExit(env, input, w, e)
    ensures FailureExit(env, input, Pass(w), Normalize(env, w.tick, e))
  {
    hide Seen, Ends, TurnClosed, Caused;
    TickIsQuiet(env, w);
    CauseNormalized(env, input, Seen(env, w), w.tick, e);
  }

  lemma {:induction false} CauseNormalized(env: Env, input: seq<Message>, v: View, t: nat, e: AgentError)
    requires Caused(env, input, v, t, e)
    ensures Caused(env, input, v, t + 1, Normalize(env, t, e))
  {
    hide StreamFails;
    if e.Cancelled? || e.DeadlineExceeded? { InterruptedLater(env, e, t, t + 1); }
  }

  // ---------------------------------------------------------------- what every run guarantees

  /** `end` is the first tick after the run. */
  ghost predicate Guarantees(env: Env, r: Result<RunResult, AgentError>, log: seq<Entry>, end: nat)
    requires HasUser(env.input.messages)
  {
    var v, input := Replay(env.Grammar(), log), env.input.messages;
    && log != [] && v.phase.Finished?
    && log[|log| - 1] == Observed(match r
                                  case Ok(x) => RunCompleted(x.modelRounds, x.toolCalls)
                                  case Err(e) => RunFailed(ErrorCode(e)))
    && Ends(env, input, v)
    && TicksIncrease(log) && TicksBelow(log, end)
    && (r.Ok? ==>
          && Delivers(input, v, r.value)
          && r.value.modelRounds <= env.limits.maxModelRounds
          && |r.value.finalText| <= env.budget.maxSerializedBytes)
    && (r.Err? ==>
          var last := Replay(env.Grammar(), log[..|log| - 1]);
          TurnClosed(input, last) && Caused(env, input, last, end, r.error))
    && (r == Err(Provider(ProviderCancelled)) ==> end > 0 && env.Active(end - 1))
  }

  /** The log and the result are those of a run that gives all its guarantees. */
  ghost predicate IsRunOf(env: Env, r: Result<RunResult, AgentError>, log: seq<Entry>, end: nat) {
    env.Valid() && HasUser(env.input.messages) && Guarantees(env, r, log, end)
  }

  /** `run_inner`: every run, successful or not, gives all the guarantees; an invalid input is
      reported and nothing else happens. */
  method Run(env: Env) returns (r: Result<RunResult, AgentError>, log: seq<Entry>, end: nat)
    requires env.Valid()
    ensures ValidInput(env.input, env.limits) ==> IsRunOf(env, r, log, end)
    ensures !ValidInput(env.input, env.limits) ==> r.Err? && log == [Observed(RunFailed(ErrorCode(r.error)))]
    ensures ValidInput(env.input, env.limits) && env.pick(0).TakeCancellation? && env.cancelled(0) ==>
              r == Err(Cancelled) && log == [Observed(RunFailed(CodeCancelled))]
    ensures ValidInput(env.input, env.limits) && env.pick(0).TakeDeadline? && env.expired(0) ==>
              r == Err(DeadlineExceeded) && log == [Observed(RunFailed(CodeDeadlineExceeded))]
  {
    hide Seen, FailureExit, SuccessExit, Guarantees, ValidInput;
    var result, w := ExecuteRun(env);
    match result {
      case Ok(x) =>
        r, log, end := result, w.log, w.tick;
        if ValidInput(env.input, env.limits) {
          ValidHasUser(env.input, env.limits);
          SuccessGuarantees(env, w, x);
        }
      case Err(e) =>
        var e' := Normalize(env, w.tick, e);
        r := Err(e');
        log, end := w.log + [Observed(RunFailed(ErrorCode(e')))], w.tick + 1;
        if ValidInput(env.input, env.limits) {
          ValidHasUser(env.input, env.limits);
          NormalizedFailure(env, env.input.messages, w, e);
          FailureGuarantees(env, Pass(w), e');
        }
    }
  }

  lemma {:induction false} ValidHasUser(input: AgentInput, limits: Limits)
    requires ValidInput(input, limits)
    ensures HasUser(input.messages)
  {
    hide HasUser, Distinct, MessageOk, Paired;
  }

  lemma {:induction false} SuccessGuarantees(env: Env, w: World, r: RunResult)
    requires HasUser(env.input.messages) && env.Valid() && SuccessExit(env, env.input.messages, w, r)
    requires r.modelRounds <= env.limits.maxModelRounds
    ensures Guarantees(env, Ok(r), w.log, w.tick)
  {
    hide Replay, Ends, Delivers, TicksIncrease, TicksBelow;
  }

  lemma {:induction false} StepFailed(rules: Rules, v: View, code: FailureCode)
    requires MayFail(v, code)
    ensures Step(rules, v, Observed(RunFailed(code))) == v.(phase := Finished)
  {
    hide MayFail;
  }

  lemma {:induction false} FailureGuarantees(env: Env, w: World, e: AgentError)
    requires HasUser(env.input.messages) && env.Valid() && FailureExit(env, env.input.messages, w, e)
    requires e == Provider(ProviderCancelled) ==> w.tick > 0 && env.Active(w.tick - 1)
    ensures Guarantees(env, Err(e), w.log + [Observed(RunFailed(ErrorCode(e)))], w.tick)
  {
    hide Replay, Step, MayFail, TurnClosed, Caused, ErrorCode, Paired;
    hide OwnMessages, FreshCalls, GoodRequest, Ids, Blocks;
    var last := Observed(RunFailed(ErrorCode(e)));
    var log := w.log + [last];
    ReplaySnoc(env.Grammar(), w.log, last);
    StepFailed(env.Grammar(), Seen(env, w), ErrorCode(e));
    assert log[..|log| - 1] == w.log;
    var v, v' := Seen(env, w), Replay(env.Grammar(), log);
    assert v' == v.(phase := Finished);
    assert GoodRequests(env, env.input.messages, v');
    assert TicksIncrease(w.log);
  }

  // ---------------------------------------------------------------- consequences

  /** Interruptions are never withdrawn. */
  ghost predicate Monotone(env: Env) {
    && (forall t, t' :: 0 <= t <= t' && env.cancelled(t) ==> env.cancelled(t'))
    && (forall t, t' :: 0 <= t <= t' && env.expired(t) ==> env.expired(t'))
  }

  /** Dispatches happen in the order of their ticks, and none once cancellation or the deadline has been raised. */
  lemma {:induction false} NoDispatchAfterInterruption(env: Env, r: Result<RunResult, AgentError>, log: seq<Entry>,
                                                       end: nat)
    ensures IsRunOf(env, r, log, end) ==> TicksIncrease(log)
    ensures IsRunOf(env, r, log, end) && Monotone(env) ==>
              forall i, t: nat :: 0 <= i < |log| && log[i].Dispatched? && t <= log[i].tick ==> env.Active(t)
  {
    hide Replay, Ends, Delivers, TurnClosed, TicksIncrease, TicksBelow, Caused;
    if IsRunOf(env, r, log, end) && Monotone(env) {
      forall i, t: nat | 0 <= i < |log| && log[i].Dispatched? && t <= log[i].tick
        ensures env.Active(t)
      {
        DispatchIsSettled(env.Grammar(), log, i);
        assert env.Active(log[i].tick);
      }
    }
  }

  /** What the executor answered to a dispatched call. */
  function AnswerTo(env: Env, e: Entry): Result<ToolOutput, ToolFailure>
    requires e.Dispatched?
  {
    env.execute(e.tick + 1, e.call)
  }

  predicate FailedAt(env: Env, e: Entry) {
    e.Dispatched? && AnswerTo(env, e).Err?
  }

  /** The failure the executor answered, as the run records it. */
  function FailureOf(env: Env, e: Entry): FailedCall
    requires FailedAt(env, e)
  {
    FailedCall(e.call.name, AnswerTo(env, e).error, e.tick)
  }

  /** Every call handed to the executor is settled at once, by the event that reports the executor's answer. */
  lemma {:induction false} EverySettlementIsTheAnswer(env: Env, r: Result<RunResult, AgentError>, log: seq<Entry>,
                                                      end: nat)
    ensures IsRunOf(env, r, log, end) ==>
              forall i :: 0 <= i < |log| && log[i].Dispatched? ==>
                && i + 1 < |log|
                && log[i + 1] == Observed(SettlementOf(log[i].round, log[i].call, AnswerTo(env, log[i])))
  {
    hide Replay, Ends, Delivers, TurnClosed, TicksIncrease, TicksBelow, Caused;
    if IsRunOf(env, r, log, end) {
      forall i | 0 <= i < |log| && log[i].Dispatched?
        ensures i + 1 < |log|
        ensures log[i + 1] == Observed(SettlementOf(log[i].round, log[i].call, AnswerTo(env, log[i])))
      {
        DispatchIsSettled(env.Grammar(), log, i);
      }
    }
  }

  /** The first failure that the executor answers is the last thing dispatched, and it decides the error of the run:
      an unknown outcome surfaces as the tool error that carries it, whatever the cancellation state; a known one too
      unless the run had been interrupted when it was settled. */
  lemma {:induction false} FailureIsReported(env: Env, r: Result<RunResult, AgentError>, log: seq<Entry>, end: nat)
    ensures IsRunOf(env, r, log, end) ==>
              forall i :: 0 <= i < |log| && FailedAt(env, log[i]) ==>
                && r == Err(SettledError(env, FailureOf(env, log[i])))
                && forall j :: i < j < |log| ==> !log[j].Dispatched?
  {
    hide Replay, Ends, Delivers, TurnClosed, TicksIncrease, TicksBelow, SettledError, StreamFails, PrepareFails;
    if IsRunOf(env, r, log, end) {
      forall i | 0 <= i < |log| && FailedAt(env, log[i])
        ensures r == Err(SettledError(env, FailureOf(env, log[i])))
        ensures forall j :: i < j < |log| ==> !log[j].Dispatched?
      {
        FailureIsOnRecord(env.Grammar(), log, i);
        forall j | i < j < |log|
          ensures !log[j].Dispatched?
        {
          NothingAfterFailure(env.Grammar(), log, i, j);
        }
      }
    }
  }

  /** In every run an unknown outcome of the executor is the tool error that the run returns and reports. */
  lemma {:induction false} UnknownOutcomeIsReported(env: Env, r: Result<RunResult, AgentError>, log: seq<Entry>,
                                                    end: nat)
    ensures IsRunOf(env, r, log, end) ==>
              forall i :: 0 <= i < |log| && FailedAt(env, log[i]) && AnswerTo(env, log[i]).error.outcome.Unknown? ==>
                && r == Err(ToolError(log[i].call.name, AnswerTo(env, log[i]).error))
                && log[|log| - 1] == Observed(RunFailed(CodeToolError))
  {
    hide Replay, Ends, Delivers, TurnClosed, TicksIncrease, TicksBelow, Caused;
    FailureIsReported(env, r, log, end);
    if IsRunOf(env, r, log, end) {
      forall i | 0 <= i < |log| && FailedAt(env, log[i]) && AnswerTo(env, log[i]).error.outcome.Unknown?
        ensures log[|log| - 1] == Observed(RunFailed(CodeToolError))
      {
        FailureIsOnRecord(env.Grammar(), log, i);
      }
    }
  }

  /** A call of a tool of the input, within the limit, and the next one of a stream received whole and validated. */
  ghost predicate IsValidatedDispatch(env: Env, log: seq<Entry>, i: nat)
    requires i < |log| && log[i].Dispatched?
  {
    && log[i].call.name in env.input.tools
    && |log[i].call.arguments| <= env.limits.maxToolArgumentBytes
    && Accounts.DispatchInTurn(env.Grammar(), log[i].round, Accounts.TallyOf(log[..i], log[i].round), log[i].call)
  }

  /** Every call handed to the executor is such a call, and no round hands over more than its limit. */
  lemma {:induction false} EveryDispatchIsValidated(env: Env, r: Result<RunResult, AgentError>, log: seq<Entry>,
                                                    end: nat)
    ensures IsRunOf(env, r, log, end) ==>
              forall i :: 0 <= i < |log| && log[i].Dispatched? ==> IsValidatedDispatch(env, log, i)
    ensures IsRunOf(env, r, log, end) ==>
              forall round: nat :: |Accounts.TallyOf(log, round).dispatched| <= env.limits.maxToolCallsPerRound
  {
    hide Replay, Ends, Delivers, TurnClosed, TicksIncrease;
    hide TicksBelow, Caused, Accounts.DispatchInTurn, Accounts.TallyOf;
    if IsRunOf(env, r, log, end) {
      var rules := env.Grammar();
      forall i | 0 <= i < |log| && log[i].Dispatched?
        ensures IsValidatedDispatch(env, log, i)
      {
        Accounts.DispatchIsValidated(rules, log, i);
        assert rules.allowed(log[i].call);
      }
      forall round: nat
        ensures |Accounts.TallyOf(log, round).dispatched| <= env.limits.maxToolCallsPerRound
      {
        Accounts.RoundIsBounded(rules, log, round);
      }
    }
  }

  /** Every event received is the next one that the provider yields for the request of its round, and every round
      that completes received all of them. */
  lemma {:induction false} EveryEventIsTheProviders(env: Env, r: Result<RunResult, AgentError>, log: seq<Entry>,
                                                    end: nat)
    ensures IsRunOf(env, r, log, end) ==>
              forall i :: 0 <= i < |log| && log[i].Received? ==>
                var t := Accounts.TallyOf(log[..i], log[i].round);
                t.request.Some? && Yields(env.Grammar(), log[i].round, t.request.value, t.received + [log[i].item])
    ensures IsRunOf(env, r, log, end) ==>
              forall i :: 0 <= i < |log| && log[i].Observed? && log[i].event.ModelRoundCompleted? ==>
                var t := Accounts.TallyOf(log[..i], log[i].event.round);
                t.request.Some? && YieldsAll(env.Grammar(), log[i].event.round, t.request.value, t.received)
  {
    hide Replay, Ends, Delivers, TurnClosed, TicksIncrease, TicksBelow, Caused, Accounts.TallyOf, Yields, YieldsAll;
    if IsRunOf(env, r, log, end) {
      forall i | 0 <= i < |log| && log[i].Received?
        ensures var t := Accounts.TallyOf(log[..i], log[i].round);
                t.request.Some? && Yields(env.Grammar(), log[i].round, t.request.value, t.received + [log[i].item])
      {
        Accounts.ReceivedFromProvider(env.Grammar(), log, i);
      }
      forall i | 0 <= i < |log| && log[i].Observed? && log[i].event.ModelRoundCompleted?
        ensures var t := Accounts.TallyOf(log[..i], log[i].event.round);
                t.request.Some? && YieldsAll(env.Grammar(), log[i].event.round, t.request.value, t.received)
      {
        Accounts.RoundIsWhole(env.Grammar(), log, i);
      }
    }
  }

  /** No system message of a request, and so no summary, is missing from a later one. */
  lemma {:induction false} SummariesAreKept(env: Env, r: Result<RunResult, AgentError>, log: seq<Entry>, end: nat)
    ensures IsRunOf(env, r, log, end) ==>
              forall i, j :: 0 <= i <= j < |log| && log[i].Asked? && log[j].Asked? ==>
                Subsequence(Systems(log[i].messages), Systems(log[j].messages))
  {
    hide Replay, Ends, Delivers, TurnClosed, TicksIncrease, TicksBelow, Caused, Subsequence, Systems;
    if IsRunOf(env, r, log, end) {
      forall i, j | 0 <= i <= j < |log| && log[i].Asked? && log[j].Asked?
        ensures Subsequence(Systems(log[i].messages), Systems(log[j].messages))
      {
        Requests.SystemsAreKept(env.Grammar(), log, i, j);
      }
    }
  }

  /** What a failed run may say: an interruption was raised before it ended; a tool error is what the executor
      answered; and a context over budget exceeds it with every compactable turn gone. */
  lemma {:induction false} ErrorsAreTrue(env: Env, r: Result<RunResult, AgentError>, log: seq<Entry>, end: nat)
    ensures IsRunOf(env, r, log, end) && r == Err(Cancelled) ==> exists t: nat :: t < end && env.cancelled(t)
    ensures IsRunOf(env, r, log, end) && r == Err(DeadlineExceeded) ==> exists t: nat :: t < end && env.expired(t)
    ensures IsRunOf(env, r, log, end) && r.Err? && r.error.ToolError? ==>
              exists i :: 0 <= i < |log| && FailedAt(env, log[i]) && log[i].call.name == r.error.tool
                          && AnswerTo(env, log[i]) == Err(r.error.source)
    ensures IsRunOf(env, r, log, end) && r == Err(ContextBudgetExceeded) ==>
              var context := ContextAfter(env.input.messages, log);
              OverBudget(env, context)
  {
    hide Replay, Ends, Delivers, TurnClosed, TicksIncrease, TicksBelow;
    hide StreamFails, PrepareFails, OverBudget, ContextAfter;
    if IsRunOf(env, r, log, end) && r.Err? {
      var rules, n := env.Grammar(), |log| - 1;
      var v := Replay(rules, log[..n]);
      PrefixAccepted(rules, log, n);
      if r.error.ToolError? {
        ToolErrorOnRecord(env, v, end, r.error);
        var i := FailedIsLogged(rules, log[..n]);
        assert FailedAt(env, log[i]) && log[i].call.name == r.error.tool;
      }
      if r.error == ContextBudgetExceeded {
        ViewSummarizes(rules, log[..n]);
        LastKeepsContext(env, log, r.error);
        BudgetCause(env, v, end);
      }
    }
  }

  /** With every compactable turn gone the context still exceeds the budget. */
  ghost predicate OverBudget(env: Env, context: seq<Message>) {
    var turns := CompactableTurns(context);
    InBounds(context, turns) &&
    var least := WithoutTurns(context, turns, |turns|);
    env.estimate(least).Ok? && env.budget.Exceeded(env.estimate(least).value)
  }

  lemma {:induction false} ToolErrorOnRecord(env: Env, v: View, until: nat, e: AgentError)
    requires Caused(env, env.input.messages, v, until, e) && e.ToolError?
    ensures v.failed.Some? && v.failed.value.name == e.tool && v.failed.value.failure == e.source
  {
    hide PrepareFails, StreamFails;
    if v.phase.Between? { PrepareIsNoTool(env, v.context, until, e); }
    if v.phase.Streaming? { StreamIsNoTool(env, env.input.messages, v, v.phase.round, v.phase.got, e); }
  }

  lemma {:induction false} PrepareIsNoTool(env: Env, context: seq<Message>, until: nat, e: AgentError)
    requires e.ToolError?
    ensures !PrepareFails(env, context, until, e)
  {
    hide TurnLengths, Lengths, FirstUser, TrimCount, Trimmed;
    TurnsHold(context);
  }

  lemma {:induction false} StreamIsNoTool(env: Env, input: seq<Message>, v: View, round: nat, got: seq<ProviderEvent>,
                                          e: AgentError)
    requires e.ToolError? || e.ContextBudgetExceeded?
    ensures !StreamFails(env, input, v, round, got, e)
  {
    hide Ids, Blocks, IdSet, Calls, Text;
  }

  lemma {:induction false} LastKeepsContext(env: Env, log: seq<Entry>, e: AgentError)
    requires log != [] && log[|log| - 1] == Observed(RunFailed(ErrorCode(e)))
    ensures ContextAfter(env.input.messages, log) == ContextAfter(env.input.messages, log[..|log| - 1])
  {
  }

  lemma {:induction false} BudgetCause(env: Env, v: View, until: nat)
    requires Caused(env, env.input.messages, v, until, ContextBudgetExceeded) && env.budget.Valid()
    ensures OverBudget(env, v.context)
  {
    hide StreamFails, CompactableTurns, PrepareOutcome, SettledError, InBounds, WithoutTurns;
    if v.phase.Streaming? {
      StreamIsNoTool(env, env.input.messages, v, v.phase.round, v.phase.got, ContextBudgetExceeded);
    }
    SettledIsNoBudget(env, v);
    var t: nat :| t < until && PrepareOutcome(SetupAt(env, t), v.context).0 == Err(ContextBudgetExceeded);
    BudgetErrorMeansNothingLeft(SetupAt(env, t), v.context);
  }

  lemma {:induction false} SettledIsNoBudget(env: Env, v: View)
    ensures v.failed.Some? ==> SettledError(env, v.failed.value) != ContextBudgetExceeded
  {
  }

  /** Every transcript a run delivers accounts for all calls of its round: settled as the observer saw, or not
      started. */
  lemma {:induction false} EveryTranscriptAccounts(env: Env, r: Result<RunResult, AgentError>, log: seq<Entry>,
                                                   end: nat)
    ensures IsRunOf(env, r, log, end) ==>
              forall k :: 0 <= k < |log| && IsTranscript(log[k]) ==>
                Accounts.AccountsFor(log[k].event.messages, Accounts.TallyOf(log[..k], log[k].event.round))
  {
    hide Replay, Ends, Delivers, TurnClosed, TicksIncrease, TicksBelow, Caused, Accounts.AccountsFor, Accounts.TallyOf;
    if IsRunOf(env, r, log, end) {
      forall k | 0 <= k < |log| && IsTranscript(log[k])
        ensures Accounts.AccountsFor(log[k].event.messages, Accounts.TallyOf(log[..k], log[k].event.round))
      {
        Accounts.TranscriptAccounts(env.Grammar(), log, k);
      }
    }
  }

  /** A request that is the input, edited by the compactions reported and extended by the transcripts delivered
      before it; it is balanced, within the budget, and ends with the open turn and all of those transcripts. */
  ghost predicate IsExactRequest(env: Env, log: seq<Entry>, i: nat)
    requires HasUser(env.input.messages) && i < |log| && log[i].Asked?
  {
    && log[i].messages == ContextAfter(env.input.messages, log[..i])
    && GoodRequest(env, env.input.messages, Request(log[i].messages, DeliveredMessages(log[..i])))
  }

  lemma {:induction false} EveryRequestIsExact(env: Env, r: Result<RunResult, AgentError>, log: seq<Entry>, end: nat)
    ensures IsRunOf(env, r, log, end) ==> forall i :: 0 <= i < |log| && log[i].Asked? ==> IsExactRequest(env, log, i)
  {
    hide Replay, Delivers, TurnClosed, TicksIncrease, TicksBelow, Caused;
    hide ContextAfter, DeliveredMessages, GoodRequest, Paired, OwnMessages;
    hide FreshCalls, Ids, Blocks, ProviderRequests;
    if IsRunOf(env, r, log, end) {
      var rules := env.Grammar();
      ViewSummarizes(rules, log);
      forall i | 0 <= i < |log| && log[i].Asked?
        ensures IsExactRequest(env, log, i)
      {
        RequestsAreContexts(rules, log, i);
        var k := RequestIsListed(log, i);
        assert ProviderRequests(log)[k] == Request(log[i].messages, DeliveredMessages(log[..i]));
      }
    }
  }

  /** The counts and the usage a successful run returns are those of its log, and whatever the result, the executor
      was never asked more often than the limits allow, nor twice for one call id. */
  lemma {:induction false} CountsAreReal(env: Env, r: Result<RunResult, AgentError>, log: seq<Entry>, end: nat)
    ensures IsRunOf(env, r, log, end) && r.Ok? ==>
              && r.value.modelRounds == |ProviderRequests(log)| && r.value.toolCalls == |DispatchedCalls(log)|
              && r.value.usage == Accounts.ReportedUsage(log, r.value.modelRounds)
    ensures IsRunOf(env, r, log, end) ==>
              && |DispatchedCalls(log)| <= env.limits.maxTotalToolCalls
              && |DispatchedCalls(log)| <= (env.limits.maxModelRounds - 1) * env.limits.maxToolCallsPerRound
              && FreshCalls(DispatchedCalls(log), Ids(Blocks(env.input.messages)))
  {
    hide Replay, TurnClosed, TicksBelow, Caused, Paired, OwnMessages, GoodRequests;
    hide FreshCalls, Ids, Blocks, TicksIncrease, EndsWith, OpenTurn;
    hide Subsequence, ToolPairsComplete, TurnIsComplete, Covers;
    if IsRunOf(env, r, log, end) {
      ViewSummarizes(env.Grammar(), log);
      if r.Ok? {
        CompletionCounts(env.Grammar(), log);
        Accounts.UsageIsReported(env.Grammar(), log);
      }
    }
  }
}
