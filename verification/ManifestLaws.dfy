/** What stripping a manifest keeps, and exactly when a second pass has nothing to do. */
module ManifestLaws {
  import opened Manifest

  // ---------------------------------------------------------------- lines and text

  /** A text that is one line: nothing follows its terminator. */
  ghost predicate IsLine(l: Bytes) {
    l != [] && FirstLine(l) == |l|
  }

  ghost predicate Terminated(l: Bytes) {
    ContentLength(l) < |l|
  }

  /** Lines of some text: only the last may lack a terminator. */
  ghost predicate ProperLines(ls: seq<Bytes>) {
    && (forall i :: 0 <= i < |ls| ==> IsLine(ls[i]))
    && (forall i :: 0 <= i < |ls| - 1 ==> Terminated(ls[i]))
  }

  /** A carriage return that no line feed follows ends this line. */
  ghost predicate EndsInCr(l: Bytes) {
    l != [] && l[|l| - 1] == CR
  }

  /** Put next to each other, the two lines would read as one. */
  ghost predicate Fuses(l: Bytes, next: Bytes) {
    EndsInCr(l) && next != [] && next[0] == LF
  }

  ghost predicate Joinable(ls: seq<Bytes>) {
    forall i :: 0 <= i < |ls| - 1 ==> !Fuses(ls[i], ls[i + 1])
  }

  /** Splitting loses nothing and yields lines that do not fuse. */
  lemma {:induction false} LinesPartition(m: Bytes)
    ensures Concat(Lines(m)) == m
    ensures ProperLines(Lines(m)) && Joinable(Lines(m))
    decreases |m|
  {
    hide ContentLength, FirstLine, IsLine, Terminated, Fuses;
    if m != [] {
      var n := FirstLine(m);
      var line, rest := m[..n], m[n..];
      LinesPartition(rest);
      ConcatCons(line, Lines(rest));
      assert line + rest == m;
      FirstLineIsLine(m);
      if rest != [] { LinesStart(rest); }
    }
  }

  lemma {:induction false} FirstLineIsLine(m: Bytes)
    requires m != []
    ensures IsLine(m[..FirstLine(m)])
    ensures FirstLine(m) < |m| ==>
              var rest := m[FirstLine(m)..];
              Terminated(m[..FirstLine(m)]) && !Fuses(m[..FirstLine(m)], rest[..FirstLine(rest)])
  {
    var n := FirstLine(m);
    UniqueContentLength(m[..n], ContentLength(m));
  }

  lemma {:induction false} LinesStart(m: Bytes)
    requires m != []
    ensures Lines(m) != [] && Lines(m)[0] == m[..FirstLine(m)]
  {
    hide ContentLength, FirstLine;
  }

  /** The first line of a line followed by more text. */
  lemma {:induction false} FirstLineOf(line: Bytes, rest: Bytes)
    requires IsLine(line) && (Terminated(line) || rest == [])
    ensures FirstLine(line + rest) == |line| + (if Fuses(line, rest) then 1 else 0)
  {
    UniqueContentLength(line + rest, ContentLength(line));
  }

  /** Lines are recovered from their concatenation exactly when no two of them fuse. */
  lemma {:induction false} ResplitIffJoinable(ls: seq<Bytes>)
    requires ProperLines(ls)
    ensures Lines(Concat(ls)) == ls <==> Joinable(ls)
  {
    hide ContentLength, FirstLine, IsLine, Terminated, Fuses;
    if Joinable(ls) {
      JoinableResplits(ls);
    }
    if Lines(Concat(ls)) == ls {
      LinesPartition(Concat(ls));
    }
  }

  lemma {:induction false} JoinableResplits(ls: seq<Bytes>)
    requires ProperLines(ls) && Joinable(ls)
    ensures Lines(Concat(ls)) == ls
  {
    hide ContentLength, FirstLine, IsLine, Terminated, Fuses;
    if ls != [] {
      var line, rest := ls[0], ls[1..];
      assert ProperLines(rest) && Joinable(rest);
      JoinableResplits(rest);
      var m := line + Concat(rest);
      assert IsLine(line);
      assert rest != [] ==> Terminated(line);
      if rest != [] {
        assert IsLine(rest[0]);
        FuseIsLocal(line, rest[0], Concat(rest[1..]));
      }
      FirstLineOf(line, Concat(rest));
      NotFusedWithNothing(line);
      assert m[..|line|] == line && m[|line|..] == Concat(rest);
      LineNonempty(line);
    }
  }

  lemma {:induction false} LineNonempty(l: Bytes)
    requires IsLine(l)
    ensures l != []
  {}

  lemma {:induction false} NotFusedWithNothing(l: Bytes)
    ensures !Fuses(l, [])
  {}

  lemma {:induction false} FuseIsLocal(l: Bytes, next: Bytes, more: Bytes)
    requires IsLine(next)
    ensures Fuses(l, next + more) <==> Fuses(l, next)
  {}

  // ---------------------------------------------------------------- which lines go

  /** Lines before the first blank one: the main section. */
  function MainLength(ls: seq<Bytes>): (n: nat)
    ensures n <= |ls|
    ensures n < |ls| ==> IsBlank(ls[n])
    ensures forall i :: 0 <= i < n ==> !IsBlank(ls[i])
  {
    if ls == [] || IsBlank(ls[0]) then 0 else 1 + MainLength(ls[1..])
  }

  /** Line i is a Class-Path header or continues one. */
  ghost predicate BelongsToClassPath(ls: seq<Bytes>, i: nat)
    requires i < |ls|
  {
    exists j :: 0 <= j <= i && IsClassPath(ls[j]) && forall k :: j < k <= i ==> IsContinuation(ls[k])
  }

  ghost predicate Dropped(ls: seq<Bytes>, i: nat)
    requires i < |ls|
  {
    i < MainLength(ls) && BelongsToClassPath(ls, i)
  }

  /** The lines before position n that are not dropped. */
  ghost function NotDropped(ls: seq<Bytes>, n: nat): seq<Bytes>
    requires n <= |ls|
  {
    if n == 0 then [] else NotDropped(ls, n - 1) + (if Dropped(ls, n - 1) then [] else [ls[n - 1]])
  }

  function ModeAfter(mode: Mode, ls: seq<Bytes>): Mode
  {
    if ls == [] then mode else After(ModeAfter(mode, ls[..|ls| - 1]), ls[|ls| - 1])
  }

  lemma {:induction false} ModeAfterCons(mode: Mode, x: Bytes, ls: seq<Bytes>)
    ensures ModeAfter(mode, [x] + ls) == ModeAfter(After(mode, x), ls)
    decreases |ls|
  {
    hide After;
    var all := [x] + ls;
    if ls == [] {
      assert all[..0] == [] && all[0] == x;
    } else {
      var front := ls[..|ls| - 1];
      assert all[..|all| - 1] == [x] + front && all[|all| - 1] == ls[|ls| - 1];
      ModeAfterCons(mode, x, front);
    }
  }

  lemma {:induction false} NothingKept(mode: Mode)
    ensures Kept(mode, []) == []
  {}

  lemma {:induction false} KeptAppend(mode: Mode, a: seq<Bytes>, b: seq<Bytes>)
    ensures Kept(mode, a + b) == Kept(mode, a) + Kept(ModeAfter(mode, a), b)
    decreases |a|
  {
    hide After, Keeps, Kept;
    if a == [] {
      assert a + b == b;
      NothingKept(mode);
      assert [] + Kept(mode, b) == Kept(mode, b);
    } else {
      var x, rest := a[0], a[1..];
      assert a + b == [x] + (rest + b) && a == [x] + rest;
      KeptCons(mode, x, rest + b);
      KeptCons(mode, x, rest);
      KeptAppend(After(mode, x), rest, b);
      var first := if Keeps(mode, x) then [x] else [];
      var kept, more := Kept(After(mode, x), rest), Kept(ModeAfter(After(mode, x), rest), b);
      assert first + (kept + more) == (first + kept) + more;
      ModeAfterCons(mode, x, rest);
    }
  }

  /** Before line n the stripper is in the main section iff no blank line precedes, and is removing iff the
      previous line belongs to a Class-Path header. */
  lemma {:induction false} ModeMeaning(ls: seq<Bytes>, n: nat)
    requires n <= |ls|
    ensures ModeAfter(Main(false), ls[..n]).Main? <==> n <= MainLength(ls)
    ensures n <= MainLength(ls) ==>
              (ModeAfter(Main(false), ls[..n]) == Main(true) <==> n > 0 && BelongsToClassPath(ls, n - 1))
  {
    hide IsBlank, IsContinuation, IsClassPath, MainLength, BelongsToClassPath;
    if n == 0 {
      assert ls[..0] == [];
    } else {
      ModeMeaning(ls, n - 1);
      assert ls[..n][..n - 1] == ls[..n - 1];
      assert ModeAfter(Main(false), ls[..n]) == After(ModeAfter(Main(false), ls[..n - 1]), ls[n - 1]);
      MainStep(ls, n - 1);
      BelongsStep(ls, n - 1);
    }
  }

  lemma {:induction false} MainStep(ls: seq<Bytes>, i: nat)
    requires i < |ls|
    ensures i + 1 <= MainLength(ls) <==> i <= MainLength(ls) && !IsBlank(ls[i])
  {
    hide IsBlank;
  }

  lemma {:induction false} BelongsStep(ls: seq<Bytes>, i: nat)
    requires i < |ls|
    ensures BelongsToClassPath(ls, i) <==>
            if IsContinuation(ls[i]) then i > 0 && BelongsToClassPath(ls, i - 1) else IsClassPath(ls[i])
  {
    hide IsContinuation, IsClassPath;
    HeaderIsNoContinuation(ls[i]);
    if IsContinuation(ls[i]) {
      if i > 0 && BelongsToClassPath(ls, i - 1) {
        var j :| 0 <= j <= i - 1 && IsClassPath(ls[j]) && forall k :: j < k <= i - 1 ==> IsContinuation(ls[k]);
        assert forall k :: j < k <= i ==> IsContinuation(ls[k]);
      }
    }
  }

  lemma {:induction false} HeaderIsNoContinuation(l: Bytes)
    ensures IsClassPath(l) ==> !IsContinuation(l) && !IsBlank(l)
  {
    if IsClassPath(l) { assert Lower(l[0]) == Lower(CLASS_PATH[0]); }
  }

  /** The output is the input lines, in order, without the main-section Class-Path headers and their
      continuations. */
  lemma {:induction false} KeptIsNotDropped(ls: seq<Bytes>, n: nat)
    requires n <= |ls|
    ensures Kept(Main(false), ls[..n]) == NotDropped(ls, n)
  {
    hide IsBlank, IsContinuation, IsClassPath, MainLength, BelongsToClassPath, Dropped, After;
    if n == 0 {
      assert ls[..0] == [];
    } else {
      var front, x := ls[..n - 1], ls[n - 1];
      KeptIsNotDropped(ls, n - 1);
      assert ls[..n] == front + [x];
      KeptAppend(Main(false), front, [x]);
      KeptOne(ModeAfter(Main(false), front), x);
      KeepsMeaning(ls, n - 1);
    }
  }

  lemma {:induction false} KeptOne(mode: Mode, x: Bytes)
    ensures Kept(mode, [x]) == if Keeps(mode, x) then [x] else []
  {
    hide After, Keeps;
    KeptCons(mode, x, []);
    assert [x] + [] == [x];
  }

  lemma {:induction false} KeepsMeaning(ls: seq<Bytes>, i: nat)
    requires i < |ls|
    ensures Keeps(ModeAfter(Main(false), ls[..i]), ls[i]) <==> !Dropped(ls, i)
  {
    hide IsBlank, IsContinuation, IsClassPath, MainLength, BelongsToClassPath, After;
    ModeMeaning(ls, i + 1);
    assert ls[..i + 1][..i] == ls[..i];
  }

  /** Something is found exactly when the main section has a Class-Path header. */
  lemma {:induction false} RemovesMeaning(mode: Mode, ls: seq<Bytes>)
    ensures Removes(mode, ls) <==> mode.Main? && exists i :: 0 <= i < MainLength(ls) && IsClassPath(ls[i])
    decreases |ls|
  {
    hide IsBlank, IsContinuation, IsClassPath;
    if ls != [] {
      var x, rest := ls[0], ls[1..];
      HeaderIsNoContinuation(x);
      RemovesMeaning(After(mode, x), rest);
      if mode.Main? && !IsBlank(x) {
        assert MainLength(ls) == 1 + MainLength(rest);
        if i :| 0 <= i < MainLength(rest) && IsClassPath(rest[i]) {
          assert IsClassPath(ls[i + 1]);
        }
        if i :| 0 <= i < MainLength(ls) && IsClassPath(ls[i]) && i > 0 {
          assert IsClassPath(rest[i - 1]);
        }
      }
    }
  }

  /** In the manifest's own terms: the output is the lines outside the main-section Class-Path, and there is
      something to remove exactly when the main section has such a header. */
  lemma {:induction false} StrippedMeaning(m: Bytes)
    ensures Stripped(Main(false), m) == Concat(NotDropped(Lines(m), |Lines(m)|))
    ensures Finds(Main(false), m) <==> exists i :: 0 <= i < MainLength(Lines(m)) && IsClassPath(Lines(m)[i])
  {
    hide Lines, Kept, Concat, Removes, MainLength, IsClassPath, NotDropped;
    var ls := Lines(m);
    assert ls[..|ls|] == ls;
    KeptIsNotDropped(ls, |ls|);
    RemovesMeaning(Main(false), ls);
  }
}
