/** The call/result pairing discipline of a transcript: the ledger that `validate_input`
    keeps while it scans, and what a balanced ledger means. */
module Pairing {
  import opened Wrappers
  import opened AgentTypes

  /** `calls` and `results` of `validate_input`, or the first clash. */
  datatype Ledger = Ledger(calls: set<string>, results: set<string>) | Clash

  const EMPTY_LEDGER := Ledger({}, {})

  function Post(l: Ledger, b: Block): Ledger {
    if l.Clash? then Clash
    else match b
      case CallBlock(c) =>
        if c.id in l.calls then Clash else Ledger(l.calls + {c.id}, l.results)
      case ResultBlock(r) =>
        if r.callId !in l.calls || r.callId in l.results then Clash
        else Ledger(l.calls, l.results + {r.callId})
      case _ => l
  }

  function Scan(l: Ledger, bs: seq<Block>): Ledger
    decreases |bs|
  {
    if bs == [] then l else Scan(Post(l, bs[0]), bs[1..])
  }

  predicate Settled(l: Ledger) {
    l.Ledger? && l.calls == l.results
  }

  /** The pairing clauses of `validate_input` hold of the whole transcript. */
  predicate Paired(ms: seq<Message>) {
    Settled(Scan(EMPTY_LEDGER, Blocks(ms)))
  }

  /** Ids of the calls in `bs`, in order. */
  function CallIds(bs: seq<Block>): seq<string> {
    if bs == [] then []
    else (if bs[0].CallBlock? then [bs[0].call.id] else []) + CallIds(bs[1..])
  }

  function Ids(bs: seq<Block>): set<string> {
    set id | id in CallIds(bs)
  }

  // ---------------------------------------------------------------- algebra of scanning

  lemma {:induction false} ScanConcat(l: Ledger, a: seq<Block>, b: seq<Block>)
    ensures Scan(l, a + b) == Scan(Scan(l, a), b)
    decreases |a|
  {
    if a == [] {
      assert a + b == b;
    } else {
      assert (a + b)[1..] == a[1..] + b;
      ScanConcat(Post(l, a[0]), a[1..], b);
    }
  }

  lemma {:induction false} ScanClash(bs: seq<Block>)
    ensures Scan(Clash, bs) == Clash
  {
    if bs != [] { ScanClash(bs[1..]); }
  }

  lemma {:induction false} CallIdsConcat(a: seq<Block>, b: seq<Block>)
    ensures CallIds(a + b) == CallIds(a) + CallIds(b)
    ensures Ids(a + b) == Ids(a) + Ids(b)
  {
    if a == [] {
      assert a + b == b;
    } else {
      assert (a + b)[1..] == a[1..] + b;
      CallIdsConcat(a[1..], b);
      var first := if a[0].CallBlock? then [a[0].call.id] else [];
      assert first + (CallIds(a[1..]) + CallIds(b)) == (first + CallIds(a[1..])) + CallIds(b);
    }
  }

  /** A successful scan only ever adds the ids of the calls it meets. */
  lemma {:induction false} ScanGrows(l: Ledger, bs: seq<Block>)
    requires l.Ledger? && Scan(l, bs).Ledger?
    ensures Scan(l, bs).calls == l.calls + Ids(bs)
    ensures l.results <= Scan(l, bs).results
    ensures l.results <= l.calls ==> Scan(l, bs).results <= Scan(l, bs).calls
    ensures l.calls !! Ids(bs)
    decreases |bs|
  {
    if bs == [] {
    } else {
      if Post(l, bs[0]).Clash? { ScanClash(bs[1..]); }
      ScanGrows(Post(l, bs[0]), bs[1..]);
      assert Ids(bs) == (if bs[0].CallBlock? then {bs[0].call.id} else {}) + Ids(bs[1..]);
    }
  }

  /** Entries that are settled before a scan starts cannot influence it: they can be forgotten. */
  lemma {:induction false} ScanForgets(l: Ledger, d: set<string>, bs: seq<Block>)
    requires l.Ledger? && d !! l.calls && d !! l.results
    requires Scan(Ledger(l.calls + d, l.results + d), bs).Ledger?
    ensures var big := Scan(Ledger(l.calls + d, l.results + d), bs);
            var small := Scan(l, bs);
            small.Ledger? && d !! small.calls && d !! small.results
            && big.calls == small.calls + d && big.results == small.results + d
    decreases |bs|
  {
    if bs == [] {
    } else {
      var big := Ledger(l.calls + d, l.results + d);
      if Post(big, bs[0]).Clash? { ScanClash(bs[1..]); }
      var next := Post(l, bs[0]);
      assert next.Ledger?;
      assert Post(big, bs[0]).calls == next.calls + d;
      assert Post(big, bs[0]).results == next.results + d;
      ScanForgets(next, d, bs[1..]);
    }
  }

  // ---------------------------------------------------------------- self-contained stretches

  /** The pending set of `tool_pairs_complete`, or `None` where it returns false early. */
  function Pending(pending: set<string>, bs: seq<Block>): Option<set<string>>
    decreases |bs|
  {
    if bs == [] then Some(pending)
    else match bs[0]
      case CallBlock(c) =>
        if c.id in pending then None else Pending(pending + {c.id}, bs[1..])
      case ResultBlock(r) =>
        if r.callId !in pending then None else Pending(pending - {r.callId}, bs[1..])
      case _ => Pending(pending, bs[1..])
  }

  predicate ToolPairsComplete(ms: seq<Message>) {
    Pending({}, Blocks(ms)) == Some({})
  }

  lemma {:induction false} PendingConcat(p: set<string>, a: seq<Block>, b: seq<Block>)
    ensures Pending(p, a + b) ==
            match Pending(p, a) case None => None case Some(q) => Pending(q, b)
    decreases |a|
  {
    if a == [] {
      assert a + b == b;
    } else {
      assert (a + b)[1..] == a[1..] + b;
      match a[0]
      case CallBlock(c) => PendingConcat(p + {c.id}, a[1..], b);
      case ResultBlock(r) => PendingConcat(p - {r.callId}, a[1..], b);
      case _ => PendingConcat(p, a[1..], b);
    }
  }

  /** In a scan without clash, `Pending` tracks exactly the calls the stretch has opened itself. */
  lemma {:induction false} PendingIsOpenCalls(l: Ledger, p: set<string>, bs: seq<Block>)
    requires l.Ledger? && l.results <= l.calls && p <= l.calls - l.results
    requires Scan(l, bs).Ledger?
    ensures Pending(p, bs).Some? ==>
              var end := Scan(l, bs);
              && Pending(p, bs).value <= end.calls - end.results
              && (l.calls - l.results) - p == (end.calls - end.results) - Pending(p, bs).value
    ensures p == l.calls - l.results ==> Pending(p, bs) == Some(Scan(l, bs).calls - Scan(l, bs).results)
    decreases |bs|
  {
    if bs == [] {
    } else {
      if Post(l, bs[0]).Clash? { ScanClash(bs[1..]); }
      var l' := Post(l, bs[0]);
      match bs[0]
      case CallBlock(c) =>
        assert (l'.calls - l'.results) == (l.calls - l.results) + {c.id};
        PendingIsOpenCalls(l', p + {c.id}, bs[1..]);
      case ResultBlock(r) =>
        assert (l'.calls - l'.results) == (l.calls - l.results) - {r.callId};
        if r.callId in p {
          PendingIsOpenCalls(l', p - {r.callId}, bs[1..]);
        }
      case _ => PendingIsOpenCalls(l', p, bs[1..]);
    }
  }

  /** Cutting a self-contained stretch out of a transcript keeps the rest balanced. */
  lemma {:induction false} CutKeepsLedger(a: seq<Block>, t: seq<Block>, b: seq<Block>)
    requires Settled(Scan(EMPTY_LEDGER, a + t + b))
    requires Pending({}, t) == Some({})
    ensures Settled(Scan(EMPTY_LEDGER, a + b))
    ensures Ids(a + b) <= Ids(a + t + b)
  {
    var la := Scan(EMPTY_LEDGER, a);
    ScanConcat(EMPTY_LEDGER, a + t, b);
    ScanConcat(EMPTY_LEDGER, a, t);
    ScanConcat(EMPTY_LEDGER, a, b);
    var lt := Scan(la, t);
    if la.Clash? { ScanClash(t); }
    if lt.Clash? { ScanClash(b); }
    ScanGrows(EMPTY_LEDGER, a);
    ScanGrows(la, t);
    PendingIsOpenCalls(la, {}, t);
    var d := Ids(t);
    assert lt.calls == la.calls + d;
    SelfContainedResults(la, {}, t);
    assert lt == Ledger(la.calls + d, la.results + d);
    ScanForgets(la, d, b);
    CallIdsConcat(a + t, b);
    CallIdsConcat(a, t);
    CallIdsConcat(a, b);
  }

  /** The results a stretch posts are the calls it closed itself. */
  lemma {:induction false} SelfContainedResults(l: Ledger, p: set<string>, bs: seq<Block>)
    requires l.Ledger? && l.results <= l.calls && p <= l.calls - l.results
    requires Scan(l, bs).Ledger?
    requires Pending(p, bs).Some?
    ensures Scan(l, bs).results == l.results + ((p + Ids(bs)) - Pending(p, bs).value)
    decreases |bs|
  {
    if bs == [] {
      assert p + Ids(bs) - p == {};
    } else {
      if Post(l, bs[0]).Clash? { ScanClash(bs[1..]); }
      var l' := Post(l, bs[0]);
      ScanGrows(l', bs[1..]);
      PendingOrigin(p, bs);
      assert Ids(bs) == (if bs[0].CallBlock? then {bs[0].call.id} else {}) + Ids(bs[1..]);
      match bs[0]
      case CallBlock(c) =>
        SelfContainedResults(l', p + {c.id}, bs[1..]);
        assert (p + {c.id}) + Ids(bs[1..]) == p + Ids(bs);
      case ResultBlock(r) =>
        SelfContainedResults(l', p - {r.callId}, bs[1..]);
        PendingOrigin(p - {r.callId}, bs[1..]);
        assert r.callId in l'.calls && r.callId !in Ids(bs[1..]);
        assert (p - {r.callId}) + Ids(bs[1..]) == (p + Ids(bs)) - {r.callId};
      case _ =>
        SelfContainedResults(l', p, bs[1..]);
    }
  }

  /** What is pending at the end was pending before or was opened by the stretch. */
  lemma {:induction false} PendingOrigin(p: set<string>, bs: seq<Block>)
    ensures Pending(p, bs).Some? ==> Pending(p, bs).value <= p + Ids(bs)
    decreases |bs|
  {
    if bs != [] {
      assert Ids(bs) == (if bs[0].CallBlock? then {bs[0].call.id} else {}) + Ids(bs[1..]);
      match bs[0]
      case CallBlock(c) => PendingOrigin(p + {c.id}, bs[1..]);
      case ResultBlock(r) => PendingOrigin(p - {r.callId}, bs[1..]);
      case _ => PendingOrigin(p, bs[1..]);
    }
  }

  // ---------------------------------------------------------------- meaning

  predicate SameCall(x: Block, y: Block) {
    x.CallBlock? && y.CallBlock? && x.call.id == y.call.id
  }

  predicate SameResult(x: Block, y: Block) {
    x.ResultBlock? && y.ResultBlock? && x.result.callId == y.result.callId
  }

  predicate Answers(x: Block, y: Block) {
    x.CallBlock? && y.ResultBlock? && x.call.id == y.result.callId
  }

  /** No id is called twice or answered twice, and every result follows its call. */
  ghost predicate Orderly(bs: seq<Block>) {
    && (forall i, j :: 0 <= i < j < |bs| ==> !SameCall(bs[i], bs[j]))
    && (forall i, j :: 0 <= i < j < |bs| ==> !SameResult(bs[i], bs[j]))
    && (forall j :: 0 <= j < |bs| && bs[j].ResultBlock? ==> exists i :: 0 <= i < j && Answers(bs[i], bs[j]))
  }

  ghost predicate EveryCallAnswered(bs: seq<Block>) {
    forall i :: 0 <= i < |bs| && bs[i].CallBlock? ==> exists j :: i < j < |bs| && Answers(bs[i], bs[j])
  }

  ghost predicate TracksCalls(ids: set<string>, bs: seq<Block>) {
    && (forall i :: 0 <= i < |bs| && bs[i].CallBlock? ==> bs[i].call.id in ids)
    && (forall id :: id in ids ==> exists i :: 0 <= i < |bs| && bs[i].CallBlock? && bs[i].call.id == id)
  }

  ghost predicate TracksResults(ids: set<string>, bs: seq<Block>) {
    && (forall i :: 0 <= i < |bs| && bs[i].ResultBlock? ==> bs[i].result.callId in ids)
    && (forall id :: id in ids ==> exists i :: 0 <= i < |bs| && bs[i].ResultBlock? && bs[i].result.callId == id)
  }

  ghost predicate Tracks(l: Ledger, bs: seq<Block>) {
    l.Ledger? && TracksCalls(l.calls, bs) && TracksResults(l.results, bs)
  }

  lemma {:induction false} TracksOneMore(calls: set<string>, results: set<string>, init: seq<Block>, b: Block)
    requires TracksCalls(calls, init) && TracksResults(results, init)
    ensures TracksCalls(if b.CallBlock? then calls + {b.call.id} else calls, init + [b])
    ensures TracksResults(if b.ResultBlock? then results + {b.result.callId} else results, init + [b])
  {
    var bs := init + [b];
    assert forall i :: 0 <= i < |init| ==> bs[i] == init[i];
    assert bs[|init|] == b;
  }

  /** The scan succeeds exactly on orderly block lists, and then records their ids. */
  lemma {:induction false} ScanMeaning(bs: seq<Block>)
    ensures Scan(EMPTY_LEDGER, bs).Ledger? <==> Orderly(bs)
    ensures Orderly(bs) ==> Tracks(Scan(EMPTY_LEDGER, bs), bs)
  {
    if bs == [] {
    } else {
      var n := |bs| - 1;
      var init, b := bs[..n], bs[n];
      assert bs == init + [b];
      ScanConcat(EMPTY_LEDGER, init, [b]);
      ScanMeaning(init);
      var l := Scan(EMPTY_LEDGER, init);
      assert Scan(l, [b]) == Post(l, b);
      assert forall i :: 0 <= i < n ==> init[i] == bs[i];
      if Orderly(bs) {
        assert Orderly(init) by {
          forall j | 0 <= j < n && init[j].ResultBlock?
            ensures exists i :: 0 <= i < j && Answers(init[i], init[j])
          {
            assert bs[j].ResultBlock?;
            var i :| 0 <= i < j && Answers(bs[i], bs[j]);
            assert Answers(init[i], init[j]);
          }
        }
        LastBlockFits(init, b, l);
      } else if Orderly(init) {
        if Post(l, b).Ledger? { FittingBlockKeepsOrder(init, b, l); }
      }
    }
  }

  lemma {:induction false} LastBlockFits(init: seq<Block>, b: Block, l: Ledger)
    requires Orderly(init + [b]) && Tracks(l, init)
    ensures Tracks(Post(l, b), init + [b])
  {
    var bs := init + [b];
    var n := |init|;
    assert forall i :: 0 <= i < n ==> bs[i] == init[i];
    assert bs[n] == b;
    TracksOneMore(l.calls, l.results, init, b);
    if b.CallBlock? {
      forall i | 0 <= i < n && init[i].CallBlock? ensures init[i].call.id != b.call.id {
        assert !SameCall(bs[i], bs[n]);
      }
      assert b.call.id !in l.calls;
    } else if b.ResultBlock? {
      var i :| 0 <= i < n && Answers(bs[i], bs[n]);
      assert init[i].CallBlock?;
      forall k | 0 <= k < n && init[k].ResultBlock? ensures init[k].result.callId != b.result.callId {
        assert !SameResult(bs[k], bs[n]);
      }
      assert b.result.callId !in l.results;
    }
  }

  /** An orderly list stays orderly under a block that fits its ledger. */
  lemma {:induction false} FittingBlockKeepsOrder(init: seq<Block>, b: Block, l: Ledger)
    requires Orderly(init) && Tracks(l, init) && Post(l, b).Ledger?
    ensures Orderly(init + [b])
  {
    var bs := init + [b];
    var n := |init|;
    forall i, j | 0 <= i < j < |bs| ensures !SameCall(bs[i], bs[j]) {
      if j < n { assert !SameCall(init[i], init[j]); } else { assert bs[i] == init[i]; }
    }
    forall i, j | 0 <= i < j < |bs| ensures !SameResult(bs[i], bs[j]) {
      if j < n { assert !SameResult(init[i], init[j]); } else { assert bs[i] == init[i]; }
    }
    forall j | 0 <= j < |bs| && bs[j].ResultBlock?
      ensures exists i :: 0 <= i < j && Answers(bs[i], bs[j])
    {
      if j < n {
        assert init[j].ResultBlock?;
        var i :| 0 <= i < j && Answers(init[i], init[j]);
        assert Answers(bs[i], bs[j]);
      } else {
        var i :| 0 <= i < |init| && init[i].CallBlock? && init[i].call.id == b.result.callId;
        assert Answers(bs[i], bs[j]);
      }
    }
  }

  /** `Paired` says what its name promises: unique calls, unique results, each result after
      its call, and no call left without a result. */
  lemma {:induction false} PairedMeaning(ms: seq<Message>)
    ensures Paired(ms) <==> Orderly(Blocks(ms)) && EveryCallAnswered(Blocks(ms))
  {
    var bs := Blocks(ms);
    ScanMeaning(bs);
    var l := Scan(EMPTY_LEDGER, bs);
    if Orderly(bs) {
      assert Tracks(l, bs);
      ScanGrows(EMPTY_LEDGER, bs);
      if l.calls == l.results {
        forall i | 0 <= i < |bs| && bs[i].CallBlock?
          ensures exists j :: i < j < |bs| && Answers(bs[i], bs[j])
        {
          assert bs[i].call.id in l.results;
          var j :| 0 <= j < |bs| && bs[j].ResultBlock? && bs[j].result.callId == bs[i].call.id;
          var k :| 0 <= k < j && Answers(bs[k], bs[j]);
          assert SameCall(bs[k], bs[i]);
          assert !(k < i) && !(i < k);
          assert Answers(bs[i], bs[j]);
        }
      }
      if EveryCallAnswered(bs) {
        forall id | id in l.calls ensures id in l.results {
          var i :| 0 <= i < |bs| && bs[i].CallBlock? && bs[i].call.id == id;
          var j :| i < j < |bs| && Answers(bs[i], bs[j]);
        }
      }
    }
  }

  /** Blocks that neither call nor answer. */
  predicate Inert(bs: seq<Block>) {
    forall i :: 0 <= i < |bs| ==> bs[i].TextBlock?
  }

  lemma {:induction false} InertScan(l: Ledger, bs: seq<Block>)
    requires Inert(bs)
    ensures Scan(l, bs) == l && Ids(bs) == {}
    decreases |bs|
  {
    if bs != [] {
      InertScan(Post(l, bs[0]), bs[1..]);
      assert Ids(bs) == Ids(bs[1..]);
    }
  }
}
