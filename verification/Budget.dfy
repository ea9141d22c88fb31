/** Context budgets under saturating arithmetic, and token metering. */
module Budget {
  import opened Wrappers
  import opened AgentTypes

  datatype ContextBudget = ContextBudget(maxTokens: Option<word>, maxSerializedBytes: word, percent: word) {

    /** What `ContextBudget::new` accepts. */
    predicate Valid() {
      && maxSerializedBytes != 0
      && maxTokens != Some(0)
      && 1 <= percent <= 100
    }

    predicate BytesReached(u: ContextUsage) {
      SaturatingMul(u.serializedBytes, 100) >= SaturatingMul(maxSerializedBytes, percent)
    }

    predicate TokensReached(u: ContextUsage) {
      maxTokens.Some? && SaturatingMul(u.estimatedTokens, 100) >= SaturatingMul(maxTokens.value, percent)
    }

    predicate ThresholdReached(u: ContextUsage) {
      BytesReached(u) || TokensReached(u)
    }

    predicate Exceeded(u: ContextUsage) {
      u.serializedBytes > maxSerializedBytes
      || (maxTokens.Some? && u.estimatedTokens > maxTokens.value)
    }

    function Cause(u: ContextUsage): CompactionCause {
      match (TokensReached(u), BytesReached(u))
      case (true, true) => BothThresholds
      case (true, false) => TokenThreshold
      case (false, _) => ByteThreshold
    }
  }

  /** `ContextBudget::new`: no limit may be zero, and the share lies between one and a hundred per cent. */
  method NewBudget(maxTokens: Option<word>, maxSerializedBytes: word, percent: word) returns (r: Option<ContextBudget>)
    ensures r.Some? <==> maxSerializedBytes > 0 && maxTokens != Some(0) && 1 <= percent && percent <= 100
    ensures r.Some? ==> r == Some(ContextBudget(maxTokens, maxSerializedBytes, percent)) && r.value.Valid()
  {
    var budget := ContextBudget(maxTokens, maxSerializedBytes, percent);
    if maxSerializedBytes == 0 || maxTokens == Some(0) || !(1 <= percent <= 100) { return None; }
    return Some(budget);
  }

  lemma {:induction false} ValidBudgets(b: ContextBudget)
    ensures b.Valid() <==> b.maxSerializedBytes > 0 && b.maxTokens != Some(0) && 1 <= b.percent && b.percent <= 100
  {
  }

  lemma {:induction false} MulMonotone(a: nat, b: nat, p: nat)
    requires a > b && p <= 100
    ensures a * 100 >= b * p
  {
    assert b * p <= b * 100;
  }

  /** Saturation cannot hide an overrun: whatever is over the limit is over the threshold. */
  lemma {:induction false} OverrunMeetsThreshold(used: word, limit: word, percent: word)
    requires used > limit && percent <= 100
    ensures SaturatingMul(used, 100) >= SaturatingMul(limit, percent)
  {
    MulMonotone(used, limit, percent);
  }

  /** The comparison of saturated products, over the integers: the products compare as they are, except that a
      usage whose product is no word, or the largest one, always reaches the threshold. */
  lemma {:induction false} SaturatedComparison(used: word, limit: word, percent: word)
    ensures SaturatingMul(used, 100) >= SaturatingMul(limit, percent) <==>
            used * 100 >= limit * percent || used * 100 >= 0xFFFF_FFFF_FFFF_FFFF
  {
  }

  lemma {:induction false} ThresholdInIntegers(b: ContextBudget, u: ContextUsage)
    ensures b.BytesReached(u) <==>
            || u.serializedBytes * 100 >= b.maxSerializedBytes * b.percent
            || u.serializedBytes * 100 >= 0xFFFF_FFFF_FFFF_FFFF
    ensures b.TokensReached(u) <==>
            && b.maxTokens.Some?
            && (|| u.estimatedTokens * 100 >= b.maxTokens.value * b.percent
                || u.estimatedTokens * 100 >= 0xFFFF_FFFF_FFFF_FFFF)
  {
    SaturatedComparison(u.serializedBytes, b.maxSerializedBytes, b.percent);
    if b.maxTokens.Some? { SaturatedComparison(u.estimatedTokens, b.maxTokens.value, b.percent); }
  }

  lemma {:induction false} ExceededReachesThreshold(b: ContextBudget, u: ContextUsage)
    requires b.Valid()
    ensures b.Exceeded(u) ==> b.ThresholdReached(u)
  {
    if u.serializedBytes > b.maxSerializedBytes {
      OverrunMeetsThreshold(u.serializedBytes, b.maxSerializedBytes, b.percent);
    }
    if b.maxTokens.Some? && u.estimatedTokens > b.maxTokens.value {
      OverrunMeetsThreshold(u.estimatedTokens, b.maxTokens.value, b.percent);
    }
  }

  // ---------------------------------------------------------------- usage

  function Merged(u: Usage, newer: Usage): Usage {
    var i := Max(u.inputTokens, newer.inputTokens);
    var o := Max(u.outputTokens, newer.outputTokens);
    Usage(i, o, Max(Max(u.totalTokens, newer.totalTokens), SaturatingAdd(i, o)))
  }

  function Accumulated(u: Usage, round: Usage): Usage {
    Usage(SaturatingAdd(u.inputTokens, round.inputTokens),
          SaturatingAdd(u.outputTokens, round.outputTokens),
          SaturatingAdd(u.totalTokens, round.totalTokens))
  }

  /** No field is smaller. */
  predicate AtMost(u: Usage, v: Usage) {
    u.inputTokens <= v.inputTokens && u.outputTokens <= v.outputTokens && u.totalTokens <= v.totalTokens
  }

  /** The reported total covers the reported input and output tokens. */
  predicate Covers(u: Usage) {
    u.totalTokens >= SaturatingAdd(u.inputTokens, u.outputTokens)
  }

  /** `m` is the least usage that covers its own parts and is not below any of the two. */
  ghost predicate LeastCover(m: Usage, u: Usage, v: Usage) {
    && Covers(m) && AtMost(u, m) && AtMost(v, m)
    && forall x :: Covers(x) && AtMost(u, x) && AtMost(v, x) ==> AtMost(m, x)
  }

  /** `s` is the sum, or the largest word when the sum is not one. */
  predicate ClippedSum(s: word, a: word, b: word) {
    s == a + b || (a + b > WORD_MAX && s == WORD_MAX)
  }

  /** A usage record updated in place. */
  class UsageMeter {
    var inputTokens: word
    var outputTokens: word
    var totalTokens: word

    constructor (start: Usage)
      ensures Value() == start
    {
      inputTokens, outputTokens, totalTokens := start.inputTokens, start.outputTokens, start.totalTokens;
    }

    function Value(): Usage
      reads this
    {
      Usage(inputTokens, outputTokens, totalTokens)
    }

    /** `merge`: the least covering usage above the old value and the newer report. */
    method Merge(newer: Usage)
      modifies this
      ensures LeastCover(Value(), old(Value()), newer)
      ensures Value() == Merged(old(Value()), newer)
    {
      inputTokens := Max(inputTokens, newer.inputTokens);
      outputTokens := Max(outputTokens, newer.outputTokens);
      totalTokens := Max(Max(totalTokens, newer.totalTokens), SaturatingAdd(inputTokens, outputTokens));
      MergedIsLeastCover(old(Value()), newer);
    }

    /** `accumulate`: field-wise sums that stop at the largest word; covering survives. */
    method Accumulate(completedRound: Usage)
      modifies this
      ensures ClippedSum(inputTokens, old(inputTokens), completedRound.inputTokens)
      ensures ClippedSum(outputTokens, old(outputTokens), completedRound.outputTokens)
      ensures ClippedSum(totalTokens, old(totalTokens), completedRound.totalTokens)
      ensures Covers(old(Value())) && Covers(completedRound) ==> Covers(Value())
      ensures Value() == Accumulated(old(Value()), completedRound)
    {
      inputTokens := SaturatingAdd(inputTokens, completedRound.inputTokens);
      outputTokens := SaturatingAdd(outputTokens, completedRound.outputTokens);
      totalTokens := SaturatingAdd(totalTokens, completedRound.totalTokens);
      if Covers(old(Value())) && Covers(completedRound) {
        AccumulateCovers(old(Value()), completedRound);
      }
    }
  }

  lemma {:induction false} MergedIsLeastCover(u: Usage, v: Usage)
    ensures LeastCover(Merged(u, v), u, v)
  {
  }

  /** Two covers that are both least are the same usage. */
  lemma {:induction false} LeastCoverIsUnique(m: Usage, m': Usage, u: Usage, v: Usage)
    requires LeastCover(m, u, v) && LeastCover(m', u, v)
    ensures m == m'
  {
    assert AtMost(m, m') && AtMost(m', m);
  }

  function MergeAll(u: Usage, reports: seq<Usage>): Usage
    decreases |reports|
  {
    if reports == [] then u else MergeAll(Merged(u, reports[0]), reports[1..])
  }

  lemma {:induction false} MergeAllSnoc(u: Usage, reports: seq<Usage>, last: Usage)
    ensures MergeAll(u, reports + [last]) == Merged(MergeAll(u, reports), last)
    decreases |reports|
  {
    if reports == [] {
      assert (reports + [last])[1..] == [];
    } else {
      assert (reports + [last])[1..] == reports[1..] + [last];
      MergeAllSnoc(Merged(u, reports[0]), reports[1..], last);
    }
  }

  lemma {:induction false} MergeCommutes(u: Usage, a: Usage, b: Usage)
    ensures Merged(Merged(u, a), b) == Merged(Merged(u, b), a)
  {
    hide Merged, SaturatingAdd;
    MergedTwice(u, a, b);
    MergedTwice(u, b, a);
  }

  /** Two merges in a row, field by field. */
  lemma {:induction false} MergedTwice(u: Usage, a: Usage, b: Usage)
    ensures var i := Max(Max(u.inputTokens, a.inputTokens), b.inputTokens);
            var o := Max(Max(u.outputTokens, a.outputTokens), b.outputTokens);
            var t := Max(Max(u.totalTokens, a.totalTokens), b.totalTokens);
            Merged(Merged(u, a), b) == Usage(i, o, Max(t, SaturatingAdd(i, o)))
  {
  }

  /** Pulling one report to the front does not change the merge. */
  lemma {:induction false} MergeAllFront(u: Usage, reports: seq<Usage>, k: nat)
    requires k < |reports|
    ensures MergeAll(u, reports) == MergeAll(Merged(u, reports[k]), reports[..k] + reports[k + 1..])
    decreases k
  {
    hide Merged;
    var rest := reports[..k] + reports[k + 1..];
    if k == 0 {
      assert rest == reports[1..];
    } else {
      assert rest[1..] == reports[1..][..k - 1] + reports[1..][k..];
      MergeAllFront(Merged(u, reports[0]), reports[1..], k - 1);
      MergeCommutes(u, reports[0], reports[k]);
    }
  }

  lemma {:induction false} RemoveAt(s: seq<Usage>, k: nat)
    requires k < |s|
    ensures multiset(s[..k] + s[k + 1..]) == multiset(s) - multiset{s[k]}
  {
    assert s == s[..k] + ([s[k]] + s[k + 1..]);
  }

  /** The merged usage of a round depends only on which reports arrived, not on their order. */
  lemma {:induction false} MergeOrderIrrelevant(u: Usage, a: seq<Usage>, b: seq<Usage>)
    requires multiset(a) == multiset(b)
    ensures MergeAll(u, a) == MergeAll(u, b)
    decreases |a|
  {
    hide Merged;
    if a == [] {
      assert |multiset(b)| == 0;
    } else {
      assert a[0] in multiset(b);
      var k :| 0 <= k < |b| && b[k] == a[0];
      MergeAllFront(u, b, k);
      RemoveAt(b, k);
      RemoveAt(a, 0);
      assert a[..0] + a[1..] == a[1..];
      MergeOrderIrrelevant(Merged(u, a[0]), a[1..], b[..k] + b[k + 1..]);
    }
  }

  lemma {:induction false} MergeAllCovers(u: Usage, reports: seq<Usage>)
    requires Covers(u)
    ensures Covers(MergeAll(u, reports))
    decreases |reports|
  {
    if reports != [] { MergeAllCovers(Merged(u, reports[0]), reports[1..]); }
  }

  /** `Covers` survives accumulation although all three sums saturate separately. */
  lemma {:induction false} AccumulateCovers(u: Usage, round: Usage)
    requires Covers(u) && Covers(round)
    ensures Covers(Accumulated(u, round))
  {
  }

  /** What accumulating does to each field, in numbers. */
  lemma {:induction false} AccumulatedInIntegers(u: Usage, round: Usage)
    ensures var v := Accumulated(u, round);
            && v.inputTokens == Smaller(u.inputTokens + round.inputTokens, 0xFFFF_FFFF_FFFF_FFFF)
            && v.outputTokens == Smaller(u.outputTokens + round.outputTokens, 0xFFFF_FFFF_FFFF_FFFF)
            && v.totalTokens == Smaller(u.totalTokens + round.totalTokens, 0xFFFF_FFFF_FFFF_FFFF)
  {
  }

  function Smaller(a: nat, b: nat): (n: nat)
    ensures n <= a && n <= b && (n == a || n == b)
  {
    if a <= b then a else b
  }

  /** What merging does, in numbers: each count is the larger one, and the total is raised to cover both. */
  lemma {:induction false} MergedInIntegers(u: Usage, v: Usage)
    ensures var m := Merged(u, v);
            && m.inputTokens >= u.inputTokens && m.inputTokens >= v.inputTokens
            && (m.inputTokens == u.inputTokens || m.inputTokens == v.inputTokens)
            && m.outputTokens >= u.outputTokens && m.outputTokens >= v.outputTokens
            && (m.outputTokens == u.outputTokens || m.outputTokens == v.outputTokens)
            && m.totalTokens >= u.totalTokens && m.totalTokens >= v.totalTokens
            && m.totalTokens >= Smaller(m.inputTokens + m.outputTokens, 0xFFFF_FFFF_FFFF_FFFF)
            && (m.totalTokens == u.totalTokens || m.totalTokens == v.totalTokens
                || m.totalTokens == Smaller(m.inputTokens + m.outputTokens, 0xFFFF_FFFF_FFFF_FFFF))
  {
  }
}
