/** What `ContextManager::prepare` guarantees to the run that calls it. */
module Compaction {
  import opened Wrappers
  import opened AgentTypes
  import opened Pairing
  import opened Budget
  import opened Context

  // ---------------------------------------------------------------- budget

  /** Every successful return, including the ones that change nothing, leaves the context
      within the hard budget. */
  lemma {:induction false} PrepareWithinBudget(c: Setup, ms: seq<Message>)
    requires c.budget.Valid()
    ensures var (result, out) := PrepareOutcome(c, ms);
            result.Ok? ==> c.estimate(out).Ok? && !c.budget.Exceeded(c.estimate(out).value)
  {
    hide TurnLengths, Lengths, FirstUser, TrimCount, Trimmed, Sum;
    TurnsHold(ms);
    var out := PrepareOutcome(c, ms).1;
    if c.estimate(out).Ok? {
      ExceededReachesThreshold(c.budget, c.estimate(out).value);
    }
  }

  // ---------------------------------------------------------------- trimming

  lemma {:induction false} TrimCountIsLeast(c: Setup, ms: seq<Message>, u: nat, ls: seq<nat>, k: nat)
    requires forall j :: 0 <= j <= |ls| ==> u + Sum(ls, j) <= |ms|
    requires k <= |ls|
    ensures var n := TrimCount(c, ms, u, ls, k);
            && (forall j :: k <= j < n ==> OverThreshold(c, Trimmed(ms, u, ls, j)))
            && (n == |ls| || !OverThreshold(c, Trimmed(ms, u, ls, n)))
    decreases |ls| - k
  {
    hide Trimmed, Sum;
    if k < |ls| && OverThreshold(c, Trimmed(ms, u, ls, k)) {
      TrimCountIsLeast(c, ms, u, ls, k + 1);
    }
  }

  /** The transcript with the first `k` of its compactable turns, as collected from the
      original, cut out in one piece. */
  ghost function WithoutTurns(ms: seq<Message>, turns: seq<Range>, k: nat): seq<Message>
    requires k <= |turns|
    requires k > 0 ==> turns[0].start <= turns[k - 1].end <= |ms|
  {
    if k == 0 then ms else ms[..turns[0].start] + ms[turns[k - 1].end..]
  }

  ghost predicate InBounds(ms: seq<Message>, turns: seq<Range>) {
    forall k :: 0 <= k < |turns| ==> turns[0].start <= turns[k].end <= |ms|
  }

  lemma {:induction false} SumZero(ls: seq<nat>)
    ensures Sum(ls, 0) == 0
  {
  }

  lemma {:induction false} TrimmedIsWithoutTurns(ms: seq<Message>, u: nat, ls: seq<nat>, k: nat)
    requires Turns(ms, u, ls) && k <= |ls|
    ensures |CompactableTurns(ms)| == |ls| && InBounds(ms, CompactableTurns(ms))
    ensures Trimmed(ms, u, ls, k) == WithoutTurns(ms, CompactableTurns(ms), k)
    ensures k > 0 ==> CompactableTurns(ms)[0].start == u && CompactableTurns(ms)[k - 1].end == u + Sum(ls, k)
  {
    hide TurnLengths, Lengths, FirstUser, Ranges, Sum;
    RangesLength(u, ls);
    SumZero(ls);
    var turns := CompactableTurns(ms);
    forall i | 0 <= i < |turns| ensures turns[0].start == u <= turns[i].end == u + Sum(ls, i + 1) <= |ms| {
      RangesHead(u, ls, i);
      RangesHead(u, ls, 0);
    }
  }

  /** A trim cuts exactly the reported range; the range is the first `removedTurns` compactable
      turns of the original, and no shorter prefix of them would have gone below the threshold. */
  lemma {:induction false} TrimIsExactAndShortest(c: Setup, ms: seq<Message>)
    requires c.budget.Valid()
    ensures InBounds(ms, CompactableTurns(ms))
    ensures var (result, out) := PrepareOutcome(c, ms);
            result.Ok? && result.value.Some? && result.value.value.strategy.DeterministicTrim? ==>
              var ev, turns := result.value.value, CompactableTurns(ms);
              && ev.removedTurns <= |turns|
              && out == WithoutTurns(ms, turns, ev.removedTurns)
              && ev.compactedRange ==
                 (if ev.removedTurns == 0 then None
                  else Some(Range(turns[0].start, turns[ev.removedTurns - 1].end)))
              && (forall j :: 0 <= j < ev.removedTurns ==> OverThreshold(c, WithoutTurns(ms, turns, j)))
              && (ev.removedTurns == |turns| || !OverThreshold(c, WithoutTurns(ms, turns, ev.removedTurns)))
              && c.estimate(ms) == Ok(ev.before) && c.estimate(out) == Ok(ev.after)
  {
    hide TurnLengths, Lengths, FirstUser, CompactableTurns, Trimmed, Sum, WithoutTurns;
    TurnsHold(ms);
    var u, ls := FirstUser(ms), Lengths(ms);
    forall k | 0 <= k <= |ls|
      ensures |CompactableTurns(ms)| == |ls| && InBounds(ms, CompactableTurns(ms))
      ensures Trimmed(ms, u, ls, k) == WithoutTurns(ms, CompactableTurns(ms), k)
      ensures k > 0 ==> CompactableTurns(ms)[0].start == u && CompactableTurns(ms)[k - 1].end == u + Sum(ls, k)
    {
      TrimmedIsWithoutTurns(ms, u, ls, k);
    }
    TrimmedIsWithoutTurns(ms, u, ls, 0);
    TrimCountIsLeast(c, ms, u, ls, 0);
  }

  /** `ContextBudgetExceeded` means that the mandatory context alone is over budget: every
      compactable turn is gone and the rest still exceeds it. */
  lemma {:induction false} BudgetErrorMeansNothingLeft(c: Setup, ms: seq<Message>)
    requires c.budget.Valid()
    ensures InBounds(ms, CompactableTurns(ms))
    ensures var (result, out) := PrepareOutcome(c, ms);
            result == Err(ContextBudgetExceeded) ==>
              && out == WithoutTurns(ms, CompactableTurns(ms), |CompactableTurns(ms)|)
              && c.estimate(out).Ok? && c.budget.Exceeded(c.estimate(out).value)
  {
    hide TurnLengths, Lengths, FirstUser, CompactableTurns, Trimmed, Sum, WithoutTurns;
    TurnsHold(ms);
    var u, ls := FirstUser(ms), Lengths(ms);
    TrimmedIsWithoutTurns(ms, u, ls, |ls|);
    TrimCountIsLeast(c, ms, u, ls, 0);
    var out := PrepareOutcome(c, ms).1;
    if c.estimate(out).Ok? {
      ExceededReachesThreshold(c.budget, c.estimate(out).value);
    }
  }

  // ---------------------------------------------------------------- useless summaries

  /** The summarizer fails, or its text is blank, oversized or does not bring the context
      below the threshold. */
  predicate Useless(c: Setup, ms: seq<Message>) {
    TurnsHold(ms);
    var u, ls := FirstUser(ms), Lengths(ms);
    c.compactor.Some? &&
    match c.compactor.value(ms[u..u + Sum(ls, |ls|)])
    case SummaryCancelled => false
    case SummaryFailed => true
    case Summarized(text) => !Acceptable(c, text) || OverThreshold(c, WithSummary(ms, u, ls, text))
  }

  function FlagSummaryFailure(p: Prepared): Prepared {
    if p.Ok? && p.value.Some? then Ok(Some(p.value.value.(summaryFailed := true))) else p
  }

  /** A useless summary leaves the transcript and the result of a run without any compactor,
      except for the flag that reports it, which is set exactly when there was a turn to summarize. */
  lemma {:induction false} UselessSummaryIsNoSummary(c: Setup, ms: seq<Message>)
    requires Useless(c, ms)
    ensures var (with, out) := PrepareOutcome(c, ms);
            var (without, out') := PrepareOutcome(c.(compactor := None), ms);
            && out == out'
            && with == if CompactableTurns(ms) == [] then without else FlagSummaryFailure(without)
  {
    hide TurnLengths, FirstUser, Trimmed, Sum;
    TurnsHold(ms);
    var u, ls := FirstUser(ms), Lengths(ms);
    hide Lengths;
    RangesLength(u, ls);
    TrimCountIgnoresCompactor(c, ms, u, ls, 0);
  }

  lemma {:induction false} TrimCountIgnoresCompactor(c: Setup, ms: seq<Message>, u: nat, ls: seq<nat>, k: nat)
    requires forall j :: 0 <= j <= |ls| ==> u + Sum(ls, j) <= |ms|
    requires k <= |ls|
    ensures TrimCount(c.(compactor := None), ms, u, ls, k) == TrimCount(c, ms, u, ls, k)
    decreases |ls| - k
  {
    hide Trimmed, Sum;
    if k < |ls| { TrimCountIgnoresCompactor(c, ms, u, ls, k + 1); }
  }

  // ---------------------------------------------------------------- what survives

  /** `out` is `ms` with the stretch `[a, b)` replaced by at most one summary message, where the
      stretch holds no system message, closes its own tool calls and ends at a user message. */
  ghost predicate Replaces(ms: seq<Message>, out: seq<Message>, a: nat, b: nat, mid: seq<Message>) {
    && a <= b <= |ms|
    && out == ms[..a] + mid + ms[b..]
    && (mid == [] || exists text :: mid == [SummaryMessage(text)])
    && NoSystem(ms[a..b])
    && ToolPairsComplete(ms[a..b])
    && (if a == b then mid == [] else b < |ms| && ms[b].role.User?)
  }

  lemma {:induction false} StretchIsRemovable(tail: seq<Message>, ls: seq<nat>, k: nat)
    requires tail != [] && tail[0].role.User? && ls == TurnLengths(tail) && k <= |ls|
    ensures Sum(ls, k) <= |tail|
    ensures NoSystem(tail[..Sum(ls, k)]) && ToolPairsComplete(tail[..Sum(ls, k)])
    decreases k
  {
    hide TurnLengths, Pending, Blocks;
    TailAfter(tail, ls, k);
    if k == 0 {
      assert tail[..0] == [];
      EmptyStretch();
    } else {
      FirstTurn(tail);
      FirstTurnRemovable(tail);
      var n := ls[0];
      var next := tail[n..];
      assert next[0] == tail[n];
      StretchIsRemovable(next, ls[1..], k - 1);
      var rest := Sum(ls[1..], k - 1);
      assert tail[..n + rest] == tail[..n] + next[..rest];
      BlocksConcat(tail[..n], next[..rest]);
      PendingConcat({}, Blocks(tail[..n]), Blocks(next[..rest]));
    }
  }

  lemma {:induction false} EmptyStretch()
    ensures NoSystem([]) && ToolPairsComplete([])
  {
  }

  lemma {:induction false} FirstTurnRemovable(tail: seq<Message>)
    requires tail != [] && TurnLengths(tail) != []
    ensures TurnLengths(tail)[0] <= |tail| && Removable(tail[..TurnLengths(tail)[0]])
  {
    hide Removable;
  }

  lemma {:induction false} OutcomeShapes(c: Setup, ms: seq<Message>, u: nat, ls: seq<nat>)
    requires forall j :: 0 <= j <= |ls| ==> u + Sum(ls, j) <= |ms|
    ensures var out := PrepareResult(c, ms, u, ls).1;
            || out == ms
            || out == Trimmed(ms, u, ls, TrimCount(c, ms, u, ls, 0))
            || (ls != [] && exists text :: out == WithSummary(ms, u, ls, text))
  {
    hide TrimCount, Trimmed, WithSummary;
    if c.estimate(ms).Ok? && c.budget.ThresholdReached(c.estimate(ms).value) && ls != [] && c.compactor.Some? {
      var end := u + Sum(ls, |ls|);
      assert u <= end <= |ms|;
      match c.compactor.value(ms[u..end])
      case SummaryCancelled =>
      case SummaryFailed =>
      case Summarized(text) =>
        var out := PrepareResult(c, ms, u, ls).1;
        assert out == WithSummary(ms, u, ls, text) || out == Trimmed(ms, u, ls, TrimCount(c, ms, u, ls, 0));
    }
  }

  /** The stretch of the first `k` compactable turns may be replaced. */
  lemma {:induction false} StretchReplaced(ms: seq<Message>, u: nat, ls: seq<nat>, k: nat, mid: seq<Message>)
    requires Turns(ms, u, ls) && u < |ms| && k <= |ls|
    requires mid == [] || (k == |ls| && ls != [] && exists text :: mid == [SummaryMessage(text)])
    ensures Replaces(ms, ms[..u] + mid + ms[u + Sum(ls, k)..], u, u + Sum(ls, k), mid)
  {
    hide TurnLengths, FirstUser, ToolPairsComplete, NoSystem;
    StretchIsRemovable(ms[u..], ls, k);
    TurnsAfterTrim(ms, u, ls, k);
    assert ms[u..][..Sum(ls, k)] == ms[u..u + Sum(ls, k)];
    if mid != [] { SumPositive(ms[u..], ls); }
  }

  lemma {:induction false} ReplacesNothing(ms: seq<Message>)
    ensures Replaces(ms, ms, 0, 0, [])
  {
    hide ToolPairsComplete, NoSystem;
    EmptyStretch();
    assert ms[0..0] == [] && ms[..0] + [] + ms[0..] == ms;
  }

  /** Whatever `prepare` returns, the transcript it leaves is such a replacement. */
  lemma {:induction false} PrepareReplaces(c: Setup, ms: seq<Message>) returns (a: nat, b: nat, mid: seq<Message>)
    ensures Replaces(ms, PrepareOutcome(c, ms).1, a, b, mid)
  {
    hide TurnLengths, FirstUser, Lengths, ToolPairsComplete, NoSystem, TrimCount, PrepareResult, Sum, Replaces;
    TurnsHold(ms);
    var u, ls := FirstUser(ms), Lengths(ms);
    var out := PrepareOutcome(c, ms).1;
    OutcomeShapes(c, ms, u, ls);
    if out == ms || u == |ms| {
      ReplacesNothing(ms);
      a, b, mid := 0, 0, [];
    } else if out == Trimmed(ms, u, ls, TrimCount(c, ms, u, ls, 0)) {
      var k := TrimCount(c, ms, u, ls, 0);
      a, b, mid := u, u + Sum(ls, k), [];
      StretchReplaced(ms, u, ls, k, mid);
      assert out == ms[..a] + mid + ms[b..];
    } else {
      var text :| out == WithSummary(ms, u, ls, text);
      a, b, mid := u, u + Sum(ls, |ls|), [SummaryMessage(text)];
      StretchReplaced(ms, u, ls, |ls|, mid);
    }
  }

  lemma {:induction false} SumPositive(tail: seq<Message>, ls: seq<nat>)
    requires tail != [] && tail[0].role.User? && ls == TurnLengths(tail) && ls != []
    ensures Sum(ls, |ls|) > 0
  {
    FirstTurn(tail);
  }

  /** Pairing survives, and no call id appears that was not there before. */
  lemma {:induction false} ReplacementKeepsPairing(ms: seq<Message>, out: seq<Message>, a: nat, b: nat,
                                                   mid: seq<Message>)
    requires Replaces(ms, out, a, b, mid) && Paired(ms)
    ensures Paired(out)
    ensures Ids(Blocks(out)) <= Ids(Blocks(ms))
  {
    hide Pending, NoSystem;
    var front, cut, back := ms[..a], ms[a..b], ms[b..];
    assert ms == front + cut + back;
    BlocksConcat(front + cut, back);
    BlocksConcat(front, cut);
    BlocksConcat(front + mid, back);
    BlocksConcat(front, mid);
    hide Blocks;
    CutKeepsLedger(Blocks(front), Blocks(cut), Blocks(back));
    TextOnlyIsInert(mid);
    InertMiddle(EMPTY_LEDGER, Blocks(front), Blocks(mid), Blocks(back));
  }

  lemma {:induction false} TextOnlyIsInert(mid: seq<Message>)
    requires mid == [] || exists text :: mid == [SummaryMessage(text)]
    ensures Inert(Blocks(mid))
  {
    if mid != [] {
      assert Blocks(mid) == mid[0].blocks + Blocks(mid[1..]);
    }
  }

  lemma {:induction false} InertMiddle(l: Ledger, x: seq<Block>, m: seq<Block>, y: seq<Block>)
    requires Inert(m)
    ensures Scan(l, x + m + y) == Scan(l, x + y) && Ids(x + m + y) == Ids(x + y)
  {
    hide Scan, CallIds, Ids, Inert;
    ScanConcat(l, x + m, y);
    ScanConcat(l, x, m);
    ScanConcat(l, x, y);
    InertScan(Scan(l, x), m);
    CallIdsConcat(x + m, y);
    CallIdsConcat(x, m);
    CallIdsConcat(x, y);
  }

  /** The turn in progress: it starts with the last user message. */
  ghost predicate CurrentTurn(tail: seq<Message>) {
    tail != [] && tail[0].role.User? && forall i :: 0 < i < |tail| ==> !tail[i].role.User?
  }

  /** Nothing from the last user message on is touched. */
  lemma {:induction false} ReplacementKeepsCurrentTurn(ms: seq<Message>, out: seq<Message>, a: nat, b: nat,
                                                       mid: seq<Message>,
                                    pre: seq<Message>, tail: seq<Message>) returns (pre': seq<Message>)
    requires Replaces(ms, out, a, b, mid)
    requires ms == pre + tail && CurrentTurn(tail)
    ensures out == pre' + tail
  {
    hide NoSystem, ToolPairsComplete;
    if a == b {
      pre' := pre;
      assert out == ms;
    } else {
      assert forall i :: |pre| < i < |ms| ==> ms[i] == tail[i - |pre|];
      pre' := ms[..a] + mid + pre[b..];
      assert ms[b..] == pre[b..] + tail;
    }
  }

  /** System messages, in order. */
  function Systems(ms: seq<Message>): seq<Message> {
    if ms == [] then []
    else (if ms[0].role.System? then [ms[0]] else []) + Systems(ms[1..])
  }

  lemma {:induction false} SystemsConcat(x: seq<Message>, y: seq<Message>)
    ensures Systems(x + y) == Systems(x) + Systems(y)
  {
    if x == [] {
      assert x + y == y;
    } else {
      assert (x + y)[1..] == x[1..] + y;
      SystemsConcat(x[1..], y);
      var first := if x[0].role.System? then [x[0]] else [];
      assert first + (Systems(x[1..]) + Systems(y)) == (first + Systems(x[1..])) + Systems(y);
    }
  }

  lemma {:induction false} NoSystems(ms: seq<Message>)
    requires NoSystem(ms)
    ensures Systems(ms) == []
  {
    if ms != [] { NoSystems(ms[1..]); }
  }

  /** `f` says where each element of `x` is found in `y`, in order. */
  ghost predicate Embeds(x: seq<Message>, y: seq<Message>, f: seq<nat>) {
    && |f| == |x|
    && (forall i :: 0 <= i < |f| ==> f[i] < |y| && y[f[i]] == x[i])
    && (forall i, j :: 0 <= i < j < |f| ==> f[i] < f[j])
  }

  ghost predicate Subsequence(x: seq<Message>, y: seq<Message>) {
    exists f :: Embeds(x, y, f)
  }

  lemma {:induction false} SubsequenceRefl(x: seq<Message>)
    ensures Subsequence(x, x)
  {
    assert Embeds(x, x, seq(|x|, i => i));
  }

  lemma {:induction false} SubsequenceTrans(x: seq<Message>, y: seq<Message>, z: seq<Message>)
    requires Subsequence(x, y) && Subsequence(y, z)
    ensures Subsequence(x, z)
  {
    var f :| Embeds(x, y, f);
    var g :| Embeds(y, z, g);
    assert Embeds(x, z, seq(|x|, i requires 0 <= i < |x| => g[f[i]]));
  }

  lemma {:induction false} SubsequenceInsert(x: seq<Message>, m: seq<Message>, y: seq<Message>)
    ensures Subsequence(x + y, x + m + y)
  {
    assert Embeds(x + y, x + m + y, seq(|x + y|, i => if i < |x| then i else i + |m|));
  }

  /** System messages keep their order and none is lost, so a summary that was inserted once is
      never compacted again; at most one summary is added. */
  lemma {:induction false} ReplacementKeepsSystems(ms: seq<Message>, out: seq<Message>, a: nat, b: nat,
                                                   mid: seq<Message>)
    requires Replaces(ms, out, a, b, mid)
    ensures Systems(ms) == Systems(ms[..a]) + Systems(ms[b..])
    ensures Systems(out) == Systems(ms[..a]) + mid + Systems(ms[b..])
    ensures Subsequence(Systems(ms), Systems(out))
  {
    hide ToolPairsComplete;
    var front, cut, back := ms[..a], ms[a..b], ms[b..];
    assert ms == front + cut + back;
    SystemsConcat(front + cut, back);
    SystemsConcat(front, cut);
    NoSystems(cut);
    SystemsConcat(front + mid, back);
    SystemsConcat(front, mid);
    if mid != [] { assert mid == [mid[0]] && mid[1..] == []; }
    SubsequenceInsert(Systems(front), mid, Systems(back));
  }
}
