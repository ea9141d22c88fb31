/** What `prepare` decides, in plain terms: integers for the budget, positions and roles for the turns, and the
    literal text of a summary. */
module ContextLaws {
  import opened Wrappers
  import opened AgentTypes
  import opened Pairing
  import opened Budget
  import opened Context
  import opened Compaction

  // ---------------------------------------------------------------- tool pairs

  predicate Calls(b: Block, id: string) {
    b.CallBlock? && b.call.id == id
  }

  predicate AnswersTo(b: Block, id: string) {
    b.ResultBlock? && b.result.callId == id
  }

  /** Before position n a call of `id` is open: neither called nor answered again since. */
  ghost predicate OpenAt(bs: seq<Block>, n: nat, id: string)
    requires n <= |bs|
  {
    exists i :: 0 <= i < n && Calls(bs[i], id) && forall k :: i < k < n ==> !Calls(bs[k], id) && !AnswersTo(bs[k], id)
  }

  /** Every call finds its id closed and every result finds it open. */
  ghost predicate TakesTurns(bs: seq<Block>) {
    forall j :: 0 <= j < |bs| ==>
      && (bs[j].CallBlock? ==> !OpenAt(bs, j, bs[j].call.id))
      && (bs[j].ResultBlock? ==> OpenAt(bs, j, bs[j].result.callId))
  }

  lemma {:induction false} OpenStep(init: seq<Block>, b: Block, id: string)
    ensures OpenAt(init + [b], |init| + 1, id) <==> Calls(b, id) || (OpenAt(init, |init|, id) && !AnswersTo(b, id))
  {
    var bs, n := init + [b], |init|;
    assert forall i :: 0 <= i < n ==> bs[i] == init[i];
    if Calls(b, id) { assert Calls(bs[n], id); }
    if OpenAt(bs, n + 1, id) && !Calls(b, id) {
      var i :| 0 <= i < n + 1 && Calls(bs[i], id)
               && forall k :: i < k < n + 1 ==> !Calls(bs[k], id) && !AnswersTo(bs[k], id);
      assert bs[n] == b && i < n && Calls(init[i], id);
      assert forall k :: i < k < n ==> !Calls(init[k], id) && !AnswersTo(init[k], id);
    }
    if OpenAt(init, n, id) && !AnswersTo(b, id) && !Calls(b, id) {
      var i :| 0 <= i < n && Calls(init[i], id)
               && forall k :: i < k < n ==> !Calls(init[k], id) && !AnswersTo(init[k], id);
      assert Calls(bs[i], id);
    }
  }

  lemma {:induction false} OpenKept(init: seq<Block>, b: Block, j: nat, id: string)
    requires j <= |init|
    ensures OpenAt(init + [b], j, id) <==> OpenAt(init, j, id)
  {
    var bs := init + [b];
    assert forall i :: 0 <= i < |init| ==> bs[i] == init[i];
    if OpenAt(init, j, id) {
      var i :| 0 <= i < j && Calls(init[i], id)
               && forall k :: i < k < j ==> !Calls(init[k], id) && !AnswersTo(init[k], id);
      assert Calls(bs[i], id);
    }
  }

  lemma {:induction false} TakesTurnsStep(init: seq<Block>, b: Block)
    ensures TakesTurns(init + [b]) <==>
            && TakesTurns(init)
            && (b.CallBlock? ==> !OpenAt(init, |init|, b.call.id))
            && (b.ResultBlock? ==> OpenAt(init, |init|, b.result.callId))
  {
    hide OpenAt;
    var bs := init + [b];
    forall j, id | 0 <= j <= |init|
      ensures OpenAt(bs, j, id) <==> OpenAt(init, j, id)
    {
      OpenKept(init, b, j, id);
    }
    assert bs[|init|] == b && forall j :: 0 <= j < |init| ==> bs[j] == init[j];
    if TakesTurns(bs) {
      forall j | 0 <= j < |init|
        ensures init[j].CallBlock? ==> !OpenAt(init, j, init[j].call.id)
        ensures init[j].ResultBlock? ==> OpenAt(init, j, init[j].result.callId)
      {
        assert bs[j] == init[j];
      }
    }
  }

  /** The pending set of the completeness test holds the ids that are open, and the test goes on exactly while calls
      and results take turns. */
  lemma {:induction false} PendingMeaning(bs: seq<Block>)
    ensures Pending({}, bs).Some? <==> TakesTurns(bs)
    ensures Pending({}, bs).Some? ==> forall id :: id in Pending({}, bs).value <==> OpenAt(bs, |bs|, id)
  {
    hide OpenAt, TakesTurns;
    if bs == [] {
      assert TakesTurns([]) by { NothingTakesTurns(); }
      forall id ensures !OpenAt([], 0, id) { NothingOpen(id); }
    } else {
      var init, b := bs[..|bs| - 1], bs[|bs| - 1];
      assert bs == init + [b];
      PendingMeaning(init);
      PendingConcat({}, init, [b]);
      TakesTurnsStep(init, b);
      forall id ensures OpenAt(bs, |bs|, id) <==> Calls(b, id) || (OpenAt(init, |init|, id) && !AnswersTo(b, id)) {
        OpenStep(init, b, id);
      }
      assert [b][1..] == [];
    }
  }

  lemma {:induction false} NothingTakesTurns()
    ensures TakesTurns([])
  {
  }

  lemma {:induction false} NothingOpen(id: string)
    ensures !OpenAt([], 0, id)
  {
  }

  /** A turn closes its tool pairs exactly when calls and results of each id take turns and none is left open. */
  lemma {:induction false} PairsInPlainTerms(ms: seq<Message>)
    ensures var bs := Blocks(ms);
            ToolPairsComplete(ms) <==> TakesTurns(bs) && forall id :: !OpenAt(bs, |bs|, id)
  {
    hide OpenAt, TakesTurns;
    var bs := Blocks(ms);
    PendingMeaning(bs);
    if Pending({}, bs).Some? {
      var p := Pending({}, bs).value;
      if forall id :: !OpenAt(bs, |bs|, id) { assert p == {}; }
    }
  }

  // ---------------------------------------------------------------- turns

  /** From the user message at p to the one at q: a turn that may be removed. */
  ghost predicate IsTurn(ms: seq<Message>, p: nat, q: nat) {
    && p < q < |ms| && ms[p].role.User? && ms[q].role.User?
    && (forall i :: p < i < q ==> !ms[i].role.User?)
    && (forall i :: p <= i < q ==> !ms[i].role.System?)
    && ms[q - 1].role.Assistant?
    && ToolPairsComplete(ms[p..q])
  }

  /** The ranges are turns that follow each other from p on, and there is no turn after the last. */
  ghost predicate TurnsFrom(ms: seq<Message>, p: nat, turns: seq<Range>)
    decreases |turns|
  {
    if turns == [] then forall q: nat :: !IsTurn(ms, p, q)
    else turns[0].start == p && IsTurn(ms, p, turns[0].end) && TurnsFrom(ms, turns[0].end, turns[1..])
  }

  lemma {:induction false} RangesCons(p: nat, n: nat, ls: seq<nat>)
    ensures Ranges(p, []) == []
    ensures Ranges(p, [n] + ls) == [Range(p, p + n)] + Ranges(p + n, ls)
  {
    assert ([n] + ls)[1..] == ls;
  }

  lemma {:induction false} TurnsFromCons(ms: seq<Message>, p: nat, q: nat, turns: seq<Range>)
    requires IsTurn(ms, p, q) && TurnsFrom(ms, q, turns)
    ensures TurnsFrom(ms, p, [Range(p, q)] + turns)
  {
    hide IsTurn;
    assert ([Range(p, q)] + turns)[1..] == turns;
  }

  lemma {:induction false} RangesAreTurns(ms: seq<Message>, p: nat)
    requires p < |ms| && ms[p].role.User?
    ensures TurnsFrom(ms, p, Ranges(p, TurnLengths(ms[p..])))
    decreases |ms| - p
  {
    hide IsTurn, FirstUser, Removable, TurnLengths, Ranges;
    var tail := ms[p..];
    var n := 1 + FirstUser(tail[1..]);
    OneTurn(tail, n);
    if n == |tail| || !Removable(tail[..n]) {
      RangesCons(p, n, []);
      forall q: nat ensures !IsTurn(ms, p, q) { NoTurn(ms, p, q); }
    } else {
      var q := p + n;
      NextUser(ms, p, n);
      assert tail[n..] == ms[q..];
      RangesAreTurns(ms, q);
      RangesCons(p, n, TurnLengths(ms[q..]));
      TurnsFromCons(ms, p, q, Ranges(q, TurnLengths(ms[q..])));
    }
  }

  lemma {:induction false} NextUser(ms: seq<Message>, p: nat, n: nat)
    requires p < |ms| && ms[p].role.User? && n == 1 + FirstUser(ms[p..][1..]) && n < |ms[p..]|
    requires Removable(ms[p..][..n])
    ensures p + n < |ms| && ms[p + n].role.User? && IsTurn(ms, p, p + n)
  {
    hide ToolPairsComplete;
    var turn := ms[p..][..n];
    assert turn == ms[p..p + n];
    var rest := ms[p..][1..];
    assert ms[p + n] == rest[n - 1];
    forall i | p < i < p + n ensures !ms[i].role.User? { assert ms[i] == rest[i - p - 1]; }
    forall i | p <= i < p + n ensures !ms[i].role.System? { assert ms[i] == turn[i - p]; }
    assert ms[p + n - 1] == turn[n - 1];
  }

  lemma {:induction false} TurnIsFirst(ms: seq<Message>, p: nat, q: nat)
    requires IsTurn(ms, p, q)
    ensures 1 + FirstUser(ms[p..][1..]) == q - p && q - p < |ms[p..]| && Removable(ms[p..][..q - p])
  {
    hide ToolPairsComplete;
    var rest := ms[p..][1..];
    forall i | 0 <= i < q - p - 1 ensures !rest[i].role.User? { assert rest[i] == ms[p + 1 + i]; }
    assert rest[q - p - 1] == ms[q];
    UniqueFirstUser(rest, q - p - 1);
    var turn := ms[p..][..q - p];
    assert turn == ms[p..q] && turn[|turn| - 1] == ms[q - 1];
    forall i | 0 <= i < |turn| ensures !turn[i].role.System? { assert turn[i] == ms[p + i]; }
  }

  lemma {:induction false} NoTurn(ms: seq<Message>, p: nat, q: nat)
    requires p < |ms| && ms[p].role.User?
    requires var n := 1 + FirstUser(ms[p..][1..]); n == |ms[p..]| || !Removable(ms[p..][..n])
    ensures !IsTurn(ms, p, q)
  {
    hide IsTurn, FirstUser, Removable;
    if IsTurn(ms, p, q) { TurnIsFirst(ms, p, q); }
  }

  /** `compactable_turns` in plain terms: the turns that follow each other from the first user message on, up to the
      first stretch between two user messages that is no removable turn. */
  lemma {:induction false} TurnsInPlainTerms(ms: seq<Message>)
    ensures var turns := CompactableTurns(ms);
            || ((forall i :: 0 <= i < |ms| ==> !ms[i].role.User?) && turns == [])
            || exists p: nat :: && p < |ms| && ms[p].role.User? && (forall i :: 0 <= i < p ==> !ms[i].role.User?)
                                && TurnsFrom(ms, p, turns)
  {
    hide TurnLengths, TurnsFrom;
    var p := FirstUser(ms);
    if p < |ms| { RangesAreTurns(ms, p); }
  }

  // ---------------------------------------------------------------- decisions

  /** `prepare` leaves a context alone exactly while no dimension has reached its share of the budget, over the
      integers. */
  lemma {:induction false} PrepareDecides(c: Setup, ms: seq<Message>, u: ContextUsage)
    requires c.estimate(ms) == Ok(u)
    ensures var b := c.budget;
            PrepareOutcome(c, ms).0 == Ok(None) <==>
            && u.serializedBytes * 100 < b.maxSerializedBytes * b.percent
            && u.serializedBytes * 100 < 0xFFFF_FFFF_FFFF_FFFF
            && (b.maxTokens.Some? ==>
                  && u.estimatedTokens * 100 < b.maxTokens.value * b.percent
                  && u.estimatedTokens * 100 < 0xFFFF_FFFF_FFFF_FFFF)
    ensures PrepareOutcome(c, ms).0 == Ok(None) ==> PrepareOutcome(c, ms).1 == ms
  {
    hide TurnLengths, Lengths, FirstUser, TrimCount, Trimmed;
    TurnsHold(ms);
    ThresholdInIntegers(c.budget, u);
  }

  /** Where the estimate and the products are far from the word limit, these are the plain inequalities. */
  lemma {:induction false} PrepareDecidesPlainly(c: Setup, ms: seq<Message>, u: ContextUsage)
    requires c.estimate(ms) == Ok(u)
    requires u.serializedBytes * 100 < 0xFFFF_FFFF_FFFF_FFFF && u.estimatedTokens * 100 < 0xFFFF_FFFF_FFFF_FFFF
    ensures var b := c.budget;
            PrepareOutcome(c, ms).0 == Ok(None) <==>
            && u.serializedBytes * 100 < b.maxSerializedBytes * b.percent
            && (b.maxTokens.Some? ==> u.estimatedTokens * 100 < b.maxTokens.value * b.percent)
  {
    hide PrepareOutcome;
    PrepareDecides(c, ms, u);
  }

  /** The reported cause says which dimension had reached its share. */
  lemma {:induction false} CauseInIntegers(c: Setup, ms: seq<Message>)
    ensures var r := PrepareOutcome(c, ms).0;
            r.Ok? && r.value.Some? ==>
              var ev, b := r.value.value, c.budget;
              var u := ev.before;
              && c.estimate(ms) == Ok(u)
              && (ev.cause.ByteThreshold? || ev.cause.BothThresholds? <==>
                    || u.serializedBytes * 100 >= b.maxSerializedBytes * b.percent
                    || u.serializedBytes * 100 >= 0xFFFF_FFFF_FFFF_FFFF)
              && (ev.cause.TokenThreshold? || ev.cause.BothThresholds? <==>
                    && b.maxTokens.Some?
                    && (|| u.estimatedTokens * 100 >= b.maxTokens.value * b.percent
                        || u.estimatedTokens * 100 >= 0xFFFF_FFFF_FFFF_FFFF))
  {
    hide TurnLengths, Lengths, FirstUser, TrimCount, Trimmed;
    TurnsHold(ms);
    if c.estimate(ms).Ok? { ThresholdInIntegers(c.budget, c.estimate(ms).value); }
  }

  /** A successful return fits the budget, in numbers; the budget error means that it does not even with every
      compactable turn gone. */
  lemma {:induction false} PrepareFits(c: Setup, ms: seq<Message>)
    requires c.budget.Valid()
    ensures var (r, out) := PrepareOutcome(c, ms);
            var b := c.budget;
            r.Ok? ==>
              && c.estimate(out).Ok?
              && c.estimate(out).value.serializedBytes <= b.maxSerializedBytes
              && (b.maxTokens.Some? ==> c.estimate(out).value.estimatedTokens <= b.maxTokens.value)
    ensures var (r, out) := PrepareOutcome(c, ms);
            var b := c.budget;
            r == Err(ContextBudgetExceeded) ==>
              && c.estimate(out).Ok?
              && (|| c.estimate(out).value.serializedBytes > b.maxSerializedBytes
                  || (b.maxTokens.Some? && c.estimate(out).value.estimatedTokens > b.maxTokens.value))
  {
    hide PrepareOutcome;
    PrepareWithinBudget(c, ms);
    BudgetErrorMeansNothingLeft(c, ms);
  }

  // ---------------------------------------------------------------- summaries

  /** The span a compactor is asked about: all compactable turns. */
  ghost function Span(ms: seq<Message>): Range
    requires CompactableTurns(ms) != []
  {
    var turns := CompactableTurns(ms);
    Range(turns[0].start, turns[|turns| - 1].end)
  }

  lemma {:induction false} SpanIsAll(ms: seq<Message>)
    ensures CompactableTurns(ms) == [] <==> Lengths(ms) == []
    ensures CompactableTurns(ms) != [] ==> Span(ms).start <= Span(ms).end <= |ms|
    ensures CompactableTurns(ms) != [] ==>
              var u, ls := FirstUser(ms), Lengths(ms);
              && Span(ms) == Range(u, u + Sum(ls, |ls|)) && u <= u + Sum(ls, |ls|) <= |ms|
              && |CompactableTurns(ms)| == |ls|
  {
    hide TurnLengths, Lengths, FirstUser;
    TurnsHold(ms);
    var u, ls := FirstUser(ms), Lengths(ms);
    RangesLength(u, ls);
    if ls != [] { TrimmedIsWithoutTurns(ms, u, ls, |ls|); }
  }

  /** The messages of a span that lies in the list. */
  ghost function Slice(ms: seq<Message>, span: Range): seq<Message> {
    if span.start <= span.end <= |ms| then ms[span.start..span.end] else []
  }

  /** The context with the span replaced by one system message that carries the text. */
  ghost function Summarized(ms: seq<Message>, span: Range, text: string): seq<Message> {
    if span.start <= span.end <= |ms| then
      ms[..span.start] + [Message(System, [TextBlock("Conversation summary:\n" + text)])] + ms[span.end..]
    else ms
  }

  predicate IsSummary(r: Prepared) {
    r.Ok? && r.value.Some? && r.value.value.strategy.Summary?
  }

  /** Without turns to summarize there is no summary. */
  lemma {:induction false} NoTurnsNoSummary(c: Setup, ms: seq<Message>)
    ensures CompactableTurns(ms) == [] || c.compactor.None? ==> !IsSummary(PrepareOutcome(c, ms).0)
  {
    hide TurnLengths, Lengths, FirstUser, TrimCount, Trimmed, CompactableTurns;
    TurnsHold(ms);
    SpanIsAll(ms);
  }

  /** When a summary is used: the context had reached its threshold, the compactor was asked about exactly the
      compactable turns and gave a text that is not blank and at most 64 KiB, and the context with it is below. */
  lemma {:induction false} SummaryIsUsed(c: Setup, ms: seq<Message>, span: Range)
    requires CompactableTurns(ms) != [] && span == Span(ms) && c.compactor.Some?
    ensures var reply := c.compactor.value(Slice(ms, span));
            IsSummary(PrepareOutcome(c, ms).0) <==>
            && c.estimate(ms).Ok? && c.budget.ThresholdReached(c.estimate(ms).value)
            && reply.Summarized? && !c.blank(reply.text) && |reply.text| <= 65536
            && c.estimate(Summarized(ms, span, reply.text)).Ok?
            && !c.budget.ThresholdReached(c.estimate(Summarized(ms, span, reply.text)).value)
  {
    hide TurnLengths, Lengths, FirstUser, TrimCount, Trimmed, CompactableTurns, Span;
    TurnsHold(ms);
    SpanIsAll(ms);
  }

  /** What a used summary does and reports. */
  lemma {:induction false} SummaryIsExact(c: Setup, ms: seq<Message>, span: Range)
    requires CompactableTurns(ms) != [] && span == Span(ms) && c.compactor.Some?
    ensures var (r, out) := PrepareOutcome(c, ms);
            IsSummary(r) ==>
              var ev := r.value.value;
              && ev.replacementSummary.Some?
              && c.compactor.value(Slice(ms, span)) == SummaryReply.Summarized(ev.replacementSummary.value)
              && out == Summarized(ms, span, ev.replacementSummary.value)
              && ev.compactedRange == Some(span) && ev.removedTurns == |CompactableTurns(ms)|
              && !ev.summaryFailed
              && c.estimate(ms) == Ok(ev.before) && c.estimate(out) == Ok(ev.after)
  {
    hide TurnLengths, Lengths, FirstUser, TrimCount, Trimmed, CompactableTurns, Span;
    TurnsHold(ms);
    SpanIsAll(ms);
  }

  /** The failure flag of a trim says that a compactor was asked and its answer was not used. */
  lemma {:induction false} FlagIsExact(c: Setup, ms: seq<Message>)
    ensures var r := PrepareOutcome(c, ms).0;
            r.Ok? && r.value.Some? && r.value.value.strategy.DeterministicTrim? ==>
              (r.value.value.summaryFailed <==> c.compactor.Some? && CompactableTurns(ms) != [])
              && r.value.value.replacementSummary.None?
  {
    hide TurnLengths, Lengths, FirstUser, TrimCount, Trimmed, CompactableTurns, Span;
    TurnsHold(ms);
    SpanIsAll(ms);
  }
}
