/** What a run keeps true of its transcript, and how each step of a round keeps it. */
module RunState {
  import opened Wrappers
  import opened AgentTypes
  import opened Pairing
  import opened Budget
  import opened Input
  import opened Context
  import opened Compaction
  import opened Turn
  import opened RunLog

  // ---------------------------------------------------------------- the turn in progress

  function LastUser(ms: seq<Message>): (n: nat)
    requires HasUser(ms)
    ensures n < |ms| && ms[n].role.User?
    ensures forall i :: n < i < |ms| ==> !ms[i].role.User?
  {
    if ms[|ms| - 1].role.User? then |ms| - 1
    else
      assert HasUser(ms[..|ms| - 1]) by {
        var i :| 0 <= i < |ms| && ms[i].role.User?;
        assert ms[..|ms| - 1][i].role.User?;
      }
      LastUser(ms[..|ms| - 1])
  }

  /** The input from its last user message on. */
  function OpenTurn(input: seq<Message>): (tail: seq<Message>)
    requires HasUser(input)
    ensures CurrentTurn(tail)
  {
    input[LastUser(input)..]
  }

  predicate EndsWith(ms: seq<Message>, tail: seq<Message>) {
    |tail| <= |ms| && ms[|ms| - |tail|..] == tail
  }

  predicate WellFormed(ms: seq<Message>, limit: nat) {
    forall i :: 0 <= i < |ms| ==> RoleOk(ms[i]) && SizesOk(ms[i], limit)
  }

  /** Messages a run itself may add: assistant and tool messages within the rules. */
  predicate OwnMessages(ms: seq<Message>, limit: nat) {
    && WellFormed(ms, limit)
    && forall i :: 0 <= i < |ms| ==> ms[i].role.Assistant? || ms[i].role.Tool?
  }

  // ---------------------------------------------------------------- the two transcripts

  /** The context kept for the provider: balanced, within the rules, ending with the open turn
      and everything generated since, with every system message of the input still there. */
  ghost predicate LiveContext(input: seq<Message>, generated: seq<Message>, used: set<string>, limit: nat,
                              ms: seq<Message>)
    requires HasUser(input)
  {
    && Paired(ms)
    && Ids(Blocks(ms)) <= used
    && WellFormed(ms, limit)
    && EndsWith(ms, OpenTurn(input) + generated)
    && Subsequence(Systems(input), Systems(ms))
  }

  /** The durable record: the input followed by what the run has delivered. */
  predicate Durable(input: seq<Message>, transcript: seq<Message>, used: set<string>, limit: nat) {
    && Scan(EMPTY_LEDGER, Blocks(input + transcript)) == Ledger(used, used)
    && OwnMessages(transcript, limit)
  }

  lemma {:induction false} InitialContext(input: seq<Message>, limit: nat)
    requires HasUser(input) && WellFormed(input, limit) && Paired(input)
    ensures LiveContext(input, [], Ids(Blocks(input)), limit, input)
    ensures Durable(input, [], Ids(Blocks(input)), limit)
  {
    hide Scan, CallIds, Blocks, WellFormed;
    assert input + [] == input;
    assert OpenTurn(input) + [] == OpenTurn(input);
    assert OwnMessages([], limit) by { NoMessages(limit); }
    ScanGrows(EMPTY_LEDGER, Blocks(input));
    SubsequenceRefl(Systems(input));
  }

  lemma {:induction false} NoMessages(limit: nat)
    ensures WellFormed([], limit)
  {
  }

  // ---------------------------------------------------------------- compaction

  lemma {:induction false} ReplacementWellFormed(ms: seq<Message>, out: seq<Message>, a: nat, b: nat,
                                                 mid: seq<Message>, limit: nat)
    requires Replaces(ms, out, a, b, mid) && WellFormed(ms, limit)
    ensures WellFormed(out, limit)
  {
    hide ToolPairsComplete, NoSystem;
    forall i | 0 <= i < |out| ensures RoleOk(out[i]) && SizesOk(out[i], limit) {
      if i < a {
        assert out[i] == ms[i];
      } else if i < a + |mid| {
        assert out[i] == mid[0];
      } else {
        assert out[i] == ms[b + (i - a - |mid|)];
      }
    }
  }

  /** Whatever `prepare` does to the context between rounds, the context stays live. */
  lemma {:induction false} PrepareKeepsContext(c: Setup, input: seq<Message>, generated: seq<Message>,
                                               used: set<string>, limit: nat, ms: seq<Message>)
    requires HasUser(input) && LiveContext(input, generated, used, limit, ms) && OwnMessages(generated, limit)
    ensures LiveContext(input, generated, used, limit, PrepareOutcome(c, ms).1)
  {
    var out := PrepareOutcome(c, ms).1;
    hide PrepareOutcome, Replaces, Paired, Ids, Blocks, Systems, Subsequence, WellFormed;
    var a, b, mid := PrepareReplaces(c, ms);
    ReplacementKeepsPairing(ms, out, a, b, mid);
    ReplacementWellFormed(ms, out, a, b, mid, limit);
    ReplacementKeepsSystems(ms, out, a, b, mid);
    SubsequenceTrans(Systems(input), Systems(ms), Systems(out));
    var tail := OpenTurn(input) + generated;
    assert CurrentTurn(tail) by { OpenTurnGrows(input, generated, limit); }
    hide OpenTurn, CurrentTurn, OwnMessages;
    var pre := ms[..|ms| - |tail|];
    assert ms == pre + tail;
    var pre' := ReplacementKeepsCurrentTurn(ms, out, a, b, mid, pre, tail);
    assert out[|out| - |tail|..] == tail;
  }

  lemma {:induction false} OpenTurnGrows(input: seq<Message>, generated: seq<Message>, limit: nat)
    requires HasUser(input) && OwnMessages(generated, limit)
    ensures CurrentTurn(OpenTurn(input) + generated)
  {
    hide WellFormed;
    var tail := OpenTurn(input);
    forall i | 0 < i < |tail + generated| ensures !(tail + generated)[i].role.User? {
      if i >= |tail| { assert (tail + generated)[i] == generated[i - |tail|]; }
    }
  }

  // ---------------------------------------------------------------- growth

  /** The messages of one round: the assistant message, a result for each call, maybe the marker. */
  function RoundMessages(got: seq<ProviderEvent>, results: seq<Message>, marker: seq<Message>): seq<Message> {
    [AssistantMessage(got)] + results + marker
  }

  predicate GoodRound(got: seq<ProviderEvent>, results: seq<Message>, marker: seq<Message>, used: set<string>,
                      limit: nat)
  {
    && FreshCalls(Calls(got), used)
    && Answered(Calls(got), results)
    && (marker == [] || marker == [MARKER])
    && forall i :: 0 <= i < |Calls(got)| ==> |Calls(got)[i].arguments| <= limit
  }

  lemma {:induction false} RoundMessagesAreOwn(got: seq<ProviderEvent>, results: seq<Message>, marker: seq<Message>,
                                               used: set<string>, limit: nat)
    requires GoodRound(got, results, marker, used, limit)
    ensures OwnMessages(RoundMessages(got, results, marker), limit)
  {
    hide AssistantMessage, Calls, RoleOk, SizesOk;
    TurnRoles(got, results, marker, limit);
  }

  lemma {:induction false} DurableGrows(input: seq<Message>, transcript: seq<Message>, used: set<string>, limit: nat,
                                        got: seq<ProviderEvent>, results: seq<Message>, marker: seq<Message>)
    requires Durable(input, transcript, used, limit) && GoodRound(got, results, marker, used, limit)
    ensures Durable(input, transcript + RoundMessages(got, results, marker), used + IdSet(Calls(got)), limit)
  {
    hide Scan, Blocks, AssistantMessage, Calls, OwnMessages, Answered, FreshCalls, IdSet;
    var turn := RoundMessages(got, results, marker);
    RoundMessagesAreOwn(got, results, marker, used, limit);
    OwnConcat(transcript, turn, limit);
    TurnBalances(used, got, results, marker);
    assert input + (transcript + turn) == (input + transcript) + turn;
    BlocksConcat(input + transcript, turn);
    ScanConcat(EMPTY_LEDGER, Blocks(input + transcript), Blocks(turn));
  }

  lemma {:induction false} OwnConcat(a: seq<Message>, b: seq<Message>, limit: nat)
    requires OwnMessages(a, limit) && OwnMessages(b, limit)
    ensures OwnMessages(a + b, limit)
  {
    hide RoleOk, SizesOk;
  }

  lemma {:induction false} ContextGrows(input: seq<Message>, generated: seq<Message>, used: set<string>, limit: nat,
                                        ms: seq<Message>, got: seq<ProviderEvent>, results: seq<Message>,
                                        marker: seq<Message>)
    requires HasUser(input) && LiveContext(input, generated, used, limit, ms)
    requires GoodRound(got, results, marker, used, limit)
    ensures var turn := RoundMessages(got, results, marker);
            LiveContext(input, generated + turn, used + IdSet(Calls(got)), limit, ms + turn)
  {
    var turn := RoundMessages(got, results, marker);
    hide Paired, Ids, Blocks, WellFormed, OpenTurn, Systems, Subsequence, GoodRound, RoundMessages, Calls, IdSet;
    PairingGrows(ms, used, got, results, marker, limit);
    RoundMessagesAreOwn(got, results, marker, used, limit);
    TailGrows(ms, OpenTurn(input), generated, turn);
    GrowWellFormed(ms, turn, limit);
    NewSystems(ms, turn, limit);
  }

  lemma {:induction false} TailGrows(ms: seq<Message>, open: seq<Message>, generated: seq<Message>, turn: seq<Message>)
    requires EndsWith(ms, open + generated)
    ensures EndsWith(ms + turn, open + (generated + turn))
  {
    var tail := open + generated;
    assert open + (generated + turn) == tail + turn;
    assert (ms + turn)[|ms + turn| - |tail + turn|..] == ms[|ms| - |tail|..] + turn;
  }

  lemma {:induction false} PairingGrows(ms: seq<Message>, used: set<string>, got: seq<ProviderEvent>,
                                        results: seq<Message>, marker: seq<Message>, limit: nat)
    requires Paired(ms) && Ids(Blocks(ms)) <= used && GoodRound(got, results, marker, used, limit)
    ensures var turn := RoundMessages(got, results, marker);
            Paired(ms + turn) && Ids(Blocks(ms + turn)) <= used + IdSet(Calls(got))
  {
    hide Scan, Blocks, AssistantMessage, Calls, CallIds, Ids, IdSet, Answered, IdSeq;
    var turn := RoundMessages(got, results, marker);
    var open := Ids(Blocks(ms));
    assert FreshCalls(Calls(got), open);
    TurnBalances(open, got, results, marker);
    BlocksConcat(ms, turn);
    ScanConcat(EMPTY_LEDGER, Blocks(ms), Blocks(turn));
    ScanGrows(EMPTY_LEDGER, Blocks(ms));
    CallIdsConcat(Blocks(ms), Blocks(turn));
    assert Scan(EMPTY_LEDGER, Blocks(ms)) == Ledger(open, open);
  }

  lemma {:induction false} GrowWellFormed(a: seq<Message>, b: seq<Message>, limit: nat)
    requires WellFormed(a, limit) && OwnMessages(b, limit)
    ensures WellFormed(a + b, limit)
  {
    hide RoleOk, SizesOk;
  }

  lemma {:induction false} NewSystems(ms: seq<Message>, turn: seq<Message>, limit: nat)
    requires OwnMessages(turn, limit)
    ensures Systems(ms + turn) == Systems(ms)
  {
    hide WellFormed;
    SystemsConcat(ms, turn);
    NoSystems(turn);
  }

  // ---------------------------------------------------------------- the closed turn

  /** When the record ends with an assistant message, the open turn together with what was
      delivered is a complete turn: it can be compacted by a later run. */
  lemma {:induction false} TurnCloses(input: seq<Message>, transcript: seq<Message>, used: set<string>, limit: nat)
    requires HasUser(input) && Paired(input) && Durable(input, transcript, used, limit)
    requires transcript != [] && transcript[|transcript| - 1].role.Assistant?
    requires ToolPairsComplete(OpenTurn(input))
    ensures TurnIsComplete(OpenTurn(input) + transcript)
  {
    hide Scan, Blocks, Pending, OpenTurn, OwnMessages;
    BlocksConcat(input, transcript);
    ScanConcat(EMPTY_LEDGER, Blocks(input), Blocks(transcript));
    var l := Scan(EMPTY_LEDGER, Blocks(input));
    assert l.calls - l.results == {} && used - used == {};
    PendingIsOpenCalls(l, {}, Blocks(transcript));
    BlocksConcat(OpenTurn(input), transcript);
    PendingConcat({}, Blocks(OpenTurn(input)), Blocks(transcript));
  }

  /** The durable record passes the role and pairing clauses of `validate_input` again. */
  lemma {:induction false} DurableReplays(input: seq<Message>, transcript: seq<Message>, used: set<string>, limit: nat)
    requires WellFormed(input, limit) && Durable(input, transcript, used, limit)
    ensures Paired(input + transcript) && WellFormed(input + transcript, limit)
  {
    hide Scan, Blocks;
    GrowWellFormed(input, transcript, limit);
  }

  /** The context that comes out of `prepare` is the one its report describes. */
  predicate Reported(report: Option<CompactionEvent>, before: seq<Message>, after: seq<Message>) {
    match report
    case None => after == before
    case Some(c) => Applies(c, before) && after == Apply(c, before)
  }

  lemma {:induction false} PrepareIsReported(c: Setup, ms: seq<Message>)
    ensures var (result, out) := PrepareOutcome(c, ms);
            result.Ok? ==> Reported(result.value, ms, out)
  {
    hide Turns, Lengths, FirstUser, Reported;
    TurnsHold(ms);
    var u, ls := FirstUser(ms), Lengths(ms);
    ResultIsReported(c, ms, u, ls);
  }

  /** The first k compactable turns of a transcript may go. */
  lemma {:induction false} TurnsMayGo(ms: seq<Message>, u: nat, ls: seq<nat>, k: nat)
    requires Turns(ms, u, ls) && ls != [] && k <= |ls|
    ensures MayGo(Range(u, u + Sum(ls, k)), ms)
  {
    hide TurnLengths, FirstUser, ToolPairsComplete, NoSystem, Sum;
    assert u == FirstUser(ms);
    StretchIsRemovable(ms[u..], ls, k);
    TurnsAfterTrim(ms, u, ls, k);
    assert ms[u..][..Sum(ls, k)] == ms[u..u + Sum(ls, k)];
  }

  lemma {:induction false} ResultIsReported(c: Setup, ms: seq<Message>, u: nat, ls: seq<nat>)
    requires Turns(ms, u, ls)
    ensures forall j :: 0 <= j <= |ls| ==> u + Sum(ls, j) <= |ms|
    ensures var (result, out) := PrepareResult(c, ms, u, ls);
            result.Ok? ==> Reported(result.value, ms, out)
  {
    hide TrimResult, SummaryMessage, MayGo, FirstUser, Lengths;
    if ls != [] { TurnsMayGo(ms, u, ls, |ls|); }
    match c.estimate(ms) {
      case Err(_) =>
      case Ok(before) =>
        TrimResultIsReported(c, ms, u, ls, before, false);
        TrimResultIsReported(c, ms, u, ls, before, true);
    }
  }

  lemma {:induction false} TrimResultIsReported(c: Setup, ms: seq<Message>, u: nat, ls: seq<nat>, before: ContextUsage,
                                                summaryFailed: bool)
    requires Turns(ms, u, ls)
    ensures var (result, out) := TrimResult(c, ms, u, ls, before, summaryFailed);
            result.Ok? ==> Reported(result.value, ms, out)
  {
    hide TrimCount, Trimmed, SummaryMessage, MayGo, FirstUser, Lengths;
    var n := TrimCount(c, ms, u, ls, 0);
    if ls != [] { TurnsMayGo(ms, u, ls, n); }
    TrimIsReported(ms, u, ls, n);
  }

  lemma {:induction false} TrimIsReported(ms: seq<Message>, u: nat, ls: seq<nat>, n: nat)
    requires forall j :: 0 <= j <= |ls| ==> u + Sum(ls, j) <= |ms|
    requires n <= |ls|
    ensures n == 0 ==> Trimmed(ms, u, ls, n) == ms
    ensures Trimmed(ms, u, ls, n) == ms[..u] + [] + ms[u + Sum(ls, n)..]
  {
    SumZero(ls);
  }
}
