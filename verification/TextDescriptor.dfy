/** Bringing a text descriptor to line-feed endings. */
module TextDescriptor {
  import opened Wrappers
  import opened Manifest

  /** A line feed that no carriage return precedes, among the first n bytes. */
  ghost predicate HasBareLf(m: Bytes, n: nat) {
    exists i :: 0 <= i < n && i < |m| && m[i] == LF && (i == 0 || m[i - 1] != CR)
  }

  ghost predicate HasCr(m: Bytes, n: nat) {
    exists i :: 0 <= i < n && i < |m| && m[i] == CR
  }

  /** No bare carriage return, and not both kinds of line ending. */
  ghost predicate UniformEndings(m: Bytes) {
    NoBareCr(m) && !(HasBareLf(m, |m|) && HasCr(m, |m|))
  }

  /** CR LF pairs become LF. */
  function Collapse(m: Bytes): Bytes {
    if m == [] then []
    else if m[0] == CR && |m| > 1 && m[1] == LF then [LF] + Collapse(m[2..])
    else [m[0]] + Collapse(m[1..])
  }

  /** LF becomes CR LF. */
  function Expand(t: Bytes): Bytes {
    if t == [] then [] else (if t[0] == LF then [CR, LF] else [t[0]]) + Expand(t[1..])
  }

  /** `canonicalTextDescriptor`: refuses exactly the texts whose line endings are not uniform. */
  method CanonicalText(actual: Bytes) returns (r: Option<Bytes>)
    ensures r.Some? <==> UniformEndings(actual)
    ensures r.Some? ==> r.value == Collapse(actual)
  {
    hide Collapse, HasBareLf, HasCr;
    var canonical: Bytes := [];
    var sawLf, sawCrlf := false, false;
    var index := 0;
    assert actual[0..] == actual;
    NoEndingsYet(actual);
    while index < |actual|
      invariant 0 <= index <= |actual|
      invariant index > 0 ==> actual[index - 1] != CR
      invariant forall i :: 0 <= i < index && actual[i] == CR ==> i + 1 < |actual| && actual[i + 1] == LF
      invariant sawLf <==> HasBareLf(actual, index)
      invariant sawCrlf <==> HasCr(actual, index)
      invariant canonical + Collapse(actual[index..]) == Collapse(actual)
    {
      CollapseStep(actual, index);
      EndingsStep(actual, index);
      if actual[index] == CR {
        if index + 1 >= |actual| || actual[index + 1] != LF {
          return None;
        }
        sawCrlf := true;
        canonical := canonical + [LF];
        index := index + 1;
        EndingsStep(actual, index);
      } else {
        if actual[index] == LF {
          sawLf := true;
        }
        canonical := canonical + [actual[index]];
      }
      index := index + 1;
    }
    CollapseNothing(actual);
    assert canonical + [] == canonical;
    if sawLf && sawCrlf { return None; }
    return Some(canonical);
  }

  lemma {:induction false} NoEndingsYet(m: Bytes)
    ensures !HasBareLf(m, 0) && !HasCr(m, 0)
  {}

  lemma {:induction false} EndingsStep(m: Bytes, i: nat)
    requires i < |m|
    ensures HasBareLf(m, i + 1) <==> HasBareLf(m, i) || (m[i] == LF && (i == 0 || m[i - 1] != CR))
    ensures HasCr(m, i + 1) <==> HasCr(m, i) || m[i] == CR
  {}

  lemma {:induction false} CollapseStep(m: Bytes, i: nat)
    requires i < |m|
    ensures m[i] == CR && i + 1 < |m| && m[i + 1] == LF ==> Collapse(m[i..]) == [LF] + Collapse(m[i + 2..])
    ensures !(m[i] == CR && i + 1 < |m| && m[i + 1] == LF) ==> Collapse(m[i..]) == [m[i]] + Collapse(m[i + 1..])
  {
    assert m[i..][1..] == m[i + 1..];
    if i + 1 < |m| { assert m[i..][2..] == m[i + 2..]; }
  }

  lemma {:induction false} CollapseNothing(m: Bytes)
    ensures Collapse(m[|m|..]) == []
  {}

  ghost predicate NoCr(t: Bytes) {
    forall i :: 0 <= i < |t| ==> t[i] != CR
  }

  lemma {:induction false} CollapseHasNoCr(m: Bytes)
    requires NoBareCr(m)
    ensures NoCr(Collapse(m))
  {
    if m != [] {
      var n := if m[0] == CR then 2 else 1;
      assert NoBareCr(m[n..]) by {
        forall i | 0 <= i < |m[n..]| && m[n..][i] == CR
          ensures i + 1 < |m[n..]| && m[n..][i + 1] == LF
        {
          assert m[n + i] == CR;
        }
      }
      CollapseHasNoCr(m[n..]);
    }
  }

  /** Text without carriage returns is already canonical. */
  lemma {:induction false} CollapseFixes(t: Bytes)
    requires NoCr(t)
    ensures Collapse(t) == t
  {
    if t != [] {
      CollapseFixes(t[1..]);
      assert t == [t[0]] + t[1..];
    }
  }

  /** Collapsing undoes expanding. */
  lemma {:induction false} CollapseExpand(t: Bytes)
    requires NoCr(t)
    ensures Collapse(Expand(t)) == t
  {
    if t != [] {
      var rest := Expand(t[1..]);
      CollapseExpand(t[1..]);
      if t[0] == LF {
        assert Expand(t)[2..] == rest;
      } else {
        assert Expand(t)[1..] == rest;
      }
      assert t == [t[0]] + t[1..];
    }
  }

  /** In CR LF form every carriage return has its line feed and every line feed its carriage return. */
  lemma {:induction false} ExpandEndings(t: Bytes)
    requires NoCr(t)
    ensures NoBareCr(Expand(t)) && !HasBareLf(Expand(t), |Expand(t)|)
  {
    if t != [] {
      var rest := Expand(t[1..]);
      ExpandEndings(t[1..]);
      var all := Expand(t);
      var n := if t[0] == LF then 2 else 1;
      assert forall k :: n <= k < |all| ==> all[k] == rest[k - n];
      forall i | 0 <= i < |all| && all[i] == CR
        ensures i + 1 < |all| && all[i + 1] == LF
      {
        if i >= n { assert rest[i - n] == CR; }
      }
      forall i | 0 <= i < |all| && all[i] == LF
        ensures i > 0 && all[i - 1] == CR
      {
        if i >= n { assert rest[i - n] == LF; }
      }
    }
  }

  /** Without bare line endings of either kind, expanding undoes collapsing. */
  lemma {:induction false} ExpandCollapse(m: Bytes)
    requires NoBareCr(m) && !HasBareLf(m, |m|)
    ensures Expand(Collapse(m)) == m
  {
    if m != [] {
      var n := if m[0] == CR then 2 else 1;
      var rest := m[n..];
      assert m[n - 1] != CR;
      forall i | 0 <= i < |rest|
        ensures rest[i] == CR ==> i + 1 < |rest| && rest[i + 1] == LF
        ensures rest[i] == LF ==> i > 0 && rest[i - 1] == CR
      {
        assert m[n + i] == rest[i];
      }
      ExpandCollapse(rest);
      var c := Collapse(rest);
      assert ([LF] + c)[1..] == c && ([m[0]] + c)[1..] == c;
      assert m == m[..n] + rest;
    }
  }

  /** Accepted are exactly the two forms of each text without carriage returns, and both canonicalize to it. */
  lemma {:induction false} AcceptedForms(m: Bytes)
    ensures UniformEndings(m) <==> exists t :: NoCr(t) && (m == t || m == Expand(t))
    ensures forall t :: NoCr(t) && (m == t || m == Expand(t)) ==> Collapse(m) == t
  {
    if UniformEndings(m) {
      CollapseHasNoCr(m);
      if HasCr(m, |m|) {
        ExpandCollapse(m);
        assert m == Expand(Collapse(m));
      } else {
        assert NoCr(m);
      }
    }
    forall t | NoCr(t) && (m == t || m == Expand(t))
      ensures UniformEndings(m) && Collapse(m) == t
    {
      if m == t {
        CollapseFixes(t);
      } else {
        ExpandEndings(t);
        CollapseExpand(t);
      }
    }
  }

  /** What was accepted has no carriage return afterwards, is accepted again unchanged, and comes back from it:
      as it is when it had no CR, and by expanding when it had one. */
  lemma {:induction false} CanonicalIsStable(m: Bytes)
    requires UniformEndings(m)
    ensures var c := Collapse(m); NoCr(c) && UniformEndings(c) && Collapse(c) == c
    ensures m == if HasCr(m, |m|) then Expand(Collapse(m)) else Collapse(m)
  {
    CollapseHasNoCr(m);
    CollapseFixes(Collapse(m));
    if HasCr(m, |m|) {
      ExpandCollapse(m);
    } else {
      assert NoCr(m);
      CollapseFixes(m);
    }
  }
}
