/** Stripping a manifest twice: what the second pass sees. */
module ManifestTwice {
  import opened Manifest
  import opened ManifestLaws

  /** The kept main-section lines. */
  function KeptMain(ls: seq<Bytes>): seq<Bytes> {
    Kept(Main(false), ls[..MainLength(ls)])
  }

  /** From the first blank line on. */
  function Sections(ls: seq<Bytes>): seq<Bytes> {
    ls[MainLength(ls)..]
  }

  // ---------------------------------------------------------------- shape of the output

  lemma {:induction false} KeptInRest(ls: seq<Bytes>)
    ensures Kept(Rest, ls) == ls
  {
    hide IsBlank, IsContinuation, IsClassPath;
    if ls != [] {
      KeptInRest(ls[1..]);
      assert ls == [ls[0]] + ls[1..];
    }
  }

  /** From the first blank line on the output is the input, byte for byte. */
  lemma {:induction false} SectionsUntouched(ls: seq<Bytes>)
    ensures Kept(Main(false), ls) == KeptMain(ls) + Sections(ls)
  {
    hide IsBlank, IsContinuation, IsClassPath, Kept, MainLength;
    var n := MainLength(ls);
    var main, rest := ls[..n], ls[n..];
    assert ls == main + rest;
    KeptAppend(Main(false), main, rest);
    if rest != [] {
      assert ls[..n + 1] == main + [rest[0]];
      KeptFromBlank(ModeAfter(Main(false), main), rest);
    } else {
      NothingKept(ModeAfter(Main(false), main));
    }
  }

  lemma {:induction false} KeptFromBlank(mode: Mode, ls: seq<Bytes>)
    requires ls != [] && IsBlank(ls[0])
    ensures Kept(mode, ls) == ls
  {
    hide IsBlank, IsContinuation, IsClassPath;
    KeptInRest(ls[1..]);
    assert ls == [ls[0]] + ls[1..];
  }

  ghost predicate NoBlank(ls: seq<Bytes>) {
    forall i :: 0 <= i < |ls| ==> !IsBlank(ls[i])
  }

  ghost predicate AllFrom(ls: seq<Bytes>, p: Bytes -> bool) {
    forall i :: 0 <= i < |ls| ==> p(ls[i])
  }

  /** Kept lines have every property all lines had. */
  lemma {:induction false} KeptAll(mode: Mode, ls: seq<Bytes>, p: Bytes -> bool)
    requires AllFrom(ls, p)
    ensures AllFrom(Kept(mode, ls), p)
    decreases |ls|
  {
    hide After, Keeps;
    if ls != [] { KeptAll(After(mode, ls[0]), ls[1..], p); }
  }

  lemma {:induction false} KeptProper(mode: Mode, ls: seq<Bytes>)
    requires ProperLines(ls)
    ensures ProperLines(Kept(mode, ls))
    decreases |ls|
  {
    hide After, Keeps, IsLine, Terminated;
    if ls != [] {
      var rest := ls[1..];
      assert ProperLines(rest);
      KeptProper(After(mode, ls[0]), rest);
      var tail := Kept(After(mode, ls[0]), rest);
      if rest == [] { NothingKept(After(mode, ls[0])); }
      assert tail != [] ==> Terminated(ls[0]);
      assert IsLine(ls[0]);
      ProperCons(ls[0], tail);
      assert [] + tail == tail;
    }
  }

  lemma {:induction false} ProperCons(l: Bytes, ls: seq<Bytes>)
    requires ProperLines(ls) && IsLine(l) && (ls != [] ==> Terminated(l))
    ensures ProperLines([l] + ls)
  {
    hide IsLine, Terminated;
  }

  lemma {:induction false} NonBlankStart(l: Bytes)
    requires IsLine(l) && !IsBlank(l)
    ensures l[0] != LF
  {}

  lemma {:induction false} NoBlankJoinable(ls: seq<Bytes>)
    requires ProperLines(ls) && NoBlank(ls)
    ensures Joinable(ls)
  {
    hide IsLine, Terminated, IsBlank;
    forall i | 0 <= i < |ls| - 1
      ensures !Fuses(ls[i], ls[i + 1])
    {
      NonBlankStart(ls[i + 1]);
    }
  }

  // ---------------------------------------------------------------- when lines fuse

  /** The last kept main line ends in a bare carriage return and the blank line after it is a bare line feed:
      with the Class-Path between them gone, the two read as one line and the blank line disappears. */
  ghost predicate SwallowsBlank(ls: seq<Bytes>) {
    var kept, sections := KeptMain(ls), Sections(ls);
    kept != [] && sections != [] && Fuses(kept[|kept| - 1], sections[0])
  }

  lemma {:induction false} KeptMainFacts(ls: seq<Bytes>)
    requires ProperLines(ls)
    ensures ProperLines(KeptMain(ls)) && NoBlank(KeptMain(ls)) && Joinable(KeptMain(ls))
  {
    hide IsLine, Terminated, Fuses, Kept, IsBlank;
    var main := ls[..MainLength(ls)];
    assert ProperLines(main);
    KeptProper(Main(false), main);
    KeptAll(Main(false), main, l => !IsBlank(l));
    assert NoBlank(KeptMain(ls));
    NoBlankJoinable(KeptMain(ls));
  }

  lemma {:induction false} JoinableAppend(a: seq<Bytes>, b: seq<Bytes>)
    requires Joinable(a) && Joinable(b)
    ensures Joinable(a + b) <==> !(a != [] && b != [] && Fuses(a[|a| - 1], b[0]))
  {
    hide Fuses;
    var ab := a + b;
    if a != [] && b != [] {
      var k := |a| - 1;
      assert ab[k] == a[k] && ab[k + 1] == b[0];
      if !Fuses(a[k], b[0]) {
        forall i | 0 <= i < |ab| - 1
          ensures !Fuses(ab[i], ab[i + 1])
        {
          if i < k { assert !Fuses(a[i], a[i + 1]); }
          if i > k { assert !Fuses(b[i - |a|], b[i - |a| + 1]); }
        }
      }
    } else if a == [] {
      assert ab == b;
    } else {
      assert ab == a;
    }
  }

  /** Splitting the output again gives the kept lines, unless the blank line is swallowed. */
  lemma {:induction false} OutputResplits(m: Bytes)
    ensures Lines(Stripped(Main(false), m)) == Kept(Main(false), Lines(m)) <==> !SwallowsBlank(Lines(m))
  {
    hide IsLine, Terminated, Fuses, Kept, Lines, Concat, MainLength, KeptMain, Sections;
    var ls := Lines(m);
    LinesPartition(m);
    KeptProper(Main(false), ls);
    ResplitIffJoinable(Kept(Main(false), ls));
    SectionsUntouched(ls);
    KeptMainFacts(ls);
    SectionsFacts(ls);
    JoinableAppend(KeptMain(ls), Sections(ls));
  }

  lemma {:induction false} SectionsFacts(ls: seq<Bytes>)
    requires ProperLines(ls) && Joinable(ls)
    ensures ProperLines(Sections(ls)) && Joinable(Sections(ls))
    ensures Sections(ls) != [] ==> IsBlank(Sections(ls)[0])
  {
    hide IsLine, Terminated, Fuses, IsBlank;
  }

  lemma {:induction false} NoLineEndsInCr(m: Bytes)
    requires NoBareCr(m)
    ensures AllFrom(Lines(m), l => !EndsInCr(l))
    decreases |m|
  {
    hide ContentLength;
    if m != [] {
      var n := FirstLine(m);
      assert !EndsInCr(m[..n]);
      assert NoBareCr(m[n..]) by {
        forall i | 0 <= i < |m[n..]| && m[n..][i] == CR
          ensures i + 1 < |m[n..]| && m[n..][i + 1] == LF
        {
          assert m[n + i] == CR;
        }
      }
      NoLineEndsInCr(m[n..]);
    }
  }

  lemma {:induction false} WithoutBareCrNothingSwallowed(m: Bytes)
    requires NoBareCr(m)
    ensures !SwallowsBlank(Lines(m))
  {
    hide Lines, Kept, MainLength, EndsInCr;
    var ls := Lines(m);
    NoLineEndsInCr(m);
    var p := (l: Bytes) => !EndsInCr(l);
    assert AllFrom(ls[..MainLength(ls)], p);
    KeptAll(Main(false), ls[..MainLength(ls)], p);
  }

  // ---------------------------------------------------------------- the second pass

  lemma {:induction false} RemovesInRest(ls: seq<Bytes>)
    ensures !Removes(Rest, ls)
  {
    hide IsBlank, IsContinuation, IsClassPath;
    if ls != [] { RemovesInRest(ls[1..]); }
  }

  /** No main-section Class-Path is among the kept lines. */
  lemma {:induction false} KeptHasNoClassPath(ls: seq<Bytes>, removing: bool, flag: bool)
    ensures !Removes(Main(flag), Kept(Main(removing), ls))
    decreases |ls|
  {
    hide IsBlank, IsContinuation, IsClassPath, Kept, Removes;
    if ls == [] {
      NothingKept(Main(removing));
      NothingRemoved(Main(flag));
    } else {
      var x, rest := ls[0], ls[1..];
      assert ls == [x] + rest;
      KeptCons(Main(removing), x, rest);
      var mode := After(Main(removing), x);
      var tail := Kept(mode, rest);
      if Keeps(Main(removing), x) {
        RemovesCons(Main(flag), x, tail);
      } else {
        assert [] + tail == tail;
      }
      if mode.Rest? {
        RemovesInRest(tail);
      } else {
        KeptHasNoClassPath(rest, mode.removing, flag);
        KeptHasNoClassPath(rest, mode.removing, false);
      }
    }
  }

  lemma {:induction false} NothingRemoved(mode: Mode)
    ensures !Removes(mode, [])
  {}

  /** Over non-blank lines, the search goes on in the main section. */
  lemma {:induction false} RemovesAppend(flag: bool, a: seq<Bytes>, b: seq<Bytes>)
    requires NoBlank(a)
    ensures Removes(Main(flag), a + b) <==> Removes(Main(flag), a) || Removes(Main(false), b)
    decreases |a|
  {
    hide IsBlank, IsContinuation, IsClassPath, Removes;
    if a == [] {
      assert a + b == b;
      NothingRemoved(Main(flag));
      RemovesMeaning(Main(flag), b);
      RemovesMeaning(Main(false), b);
    } else {
      var x, rest := a[0], a[1..];
      assert a + b == [x] + (rest + b) && a == [x] + rest;
      RemovesCons(Main(flag), x, rest + b);
      RemovesCons(Main(flag), x, rest);
      var mode := After(Main(flag), x);
      RemovesAppend(mode.removing, rest, b);
    }
  }

  /** The line that swallows a line feed keeps its content. */
  lemma {:induction false} FusedLine(l: Bytes)
    requires IsLine(l) && EndsInCr(l) && !IsBlank(l)
    ensures IsLine(l + [LF]) && Terminated(l + [LF]) && !EndsInCr(l + [LF]) && !IsBlank(l + [LF])
    ensures (l + [LF])[0] == l[0] && (l + [LF])[0] != LF
    ensures IsClassPath(l + [LF]) <==> IsClassPath(l)
  {
    assert ContentLength(l) == |l| - 1;
    UniqueContentLength(l + [LF], |l| - 1);
    assert forall i :: 0 <= i < |l| ==> (l + [LF])[i] == l[i];
  }

  lemma {:induction false} LineFeedLine(l: Bytes)
    requires IsLine(l) && l[0] == LF
    ensures l == [LF]
  {}

  lemma {:induction false} ConcatAppend(a: seq<Bytes>, b: seq<Bytes>)
    ensures Concat(a + b) == Concat(a) + Concat(b)
  {
    if a == [] {
      assert a + b == b;
    } else {
      assert a + b == [a[0]] + (a[1..] + b);
      ConcatCons(a[0], a[1..] + b);
      ConcatAppend(a[1..], b);
    }
  }

  /** The kept main lines with the last one fused to the line feed of the blank line. */
  ghost function FusedMain(ls: seq<Bytes>): seq<Bytes>
    requires SwallowsBlank(ls)
  {
    var kept := KeptMain(ls);
    kept[..|kept| - 1] + [kept[|kept| - 1] + [LF]]
  }

  lemma {:induction false} FusedMainFacts(ls: seq<Bytes>)
    requires ProperLines(ls) && SwallowsBlank(ls)
    ensures ProperLines(FusedMain(ls)) && NoBlank(FusedMain(ls)) && Joinable(FusedMain(ls))
    ensures forall i :: 0 <= i < |FusedMain(ls)| ==> Terminated(FusedMain(ls)[i]) 
    ensures var f := FusedMain(ls); f != [] && !EndsInCr(f[|f| - 1])
  {
    hide IsLine, Terminated, EndsInCr, IsBlank, KeptMain, Sections, MainLength, IsClassPath;
    KeptMainFacts(ls);
    var kept := KeptMain(ls);
    var last := kept[|kept| - 1];
    assert IsLine(last) && EndsInCr(last) && !IsBlank(last);
    FusedLine(last);
    var f := FusedMain(ls);
    forall i | 0 <= i < |f|
      ensures IsLine(f[i]) && Terminated(f[i]) && !IsBlank(f[i])
    {
      if i < |kept| - 1 { assert f[i] == kept[i] && Terminated(kept[i]); }
    }
    NoBlankJoinable(f);
  }

  /** Where the blank line is swallowed, the second pass sees this instead. */
  lemma {:induction false} SwallowedLines(m: Bytes)
    requires SwallowsBlank(Lines(m))
    ensures Lines(Stripped(Main(false), m)) == FusedMain(Lines(m)) + Sections(Lines(m))[1..]
  {
    hide IsLine, Terminated, EndsInCr, IsBlank, KeptMain, Sections, MainLength, Lines;
    hide Kept, Concat, SwallowsBlank, FusedMain, Joinable, ProperLines;
    var ls := Lines(m);
    LinesPartition(m);
    SectionsFacts(ls);
    FusedMainFacts(ls);
    FusedText(ls);
    SectionsUntouched(ls);
    var f, rest := FusedMain(ls), Sections(ls)[1..];
    FusedJoins(f, Sections(ls));
    JoinableResplits(f + rest);
  }

  lemma {:induction false} FusedJoins(f: seq<Bytes>, sections: seq<Bytes>)
    requires ProperLines(f) && Joinable(f) && ProperLines(sections) && Joinable(sections)
    requires forall i :: 0 <= i < |f| ==> Terminated(f[i])
    requires f != [] && sections != [] && !EndsInCr(f[|f| - 1])
    ensures ProperLines(f + sections[1..]) && Joinable(f + sections[1..])
  {
    hide IsLine, Terminated, EndsInCr;
    var rest := sections[1..];
    assert ProperLines(rest) && Joinable(rest);
    JoinableAppend(f, rest);
  }

  lemma {:induction false} FusedText(ls: seq<Bytes>)
    requires ProperLines(ls) && Joinable(ls) && SwallowsBlank(ls)
    ensures Sections(ls) != [] && Concat(FusedMain(ls) + Sections(ls)[1..]) == Concat(KeptMain(ls) + Sections(ls))
  {
    hide IsLine, Terminated, EndsInCr, IsBlank, KeptMain, Sections, MainLength, Concat;
    SectionsFacts(ls);
    var kept, sections := KeptMain(ls), Sections(ls);
    var front, last, rest := kept[..|kept| - 1], kept[|kept| - 1], sections[1..];
    assert IsLine(sections[0]);
    LineFeedLine(sections[0]);
    assert kept == front + [last] && sections == [[LF]] + rest;
    assert kept + sections == front + ([last] + ([[LF]] + rest));
    assert FusedMain(ls) + rest == front + ([last + [LF]] + rest);
    ConcatAppend(front, [last] + ([[LF]] + rest));
    ConcatAppend(front, [last + [LF]] + rest);
    ConcatCons(last, [[LF]] + rest);
    ConcatCons([LF], rest);
    ConcatCons(last + [LF], rest);
    assert last + ([LF] + Concat(rest)) == (last + [LF]) + Concat(rest);
  }

  lemma {:induction false} FusedHasNoClassPath(ls: seq<Bytes>)
    requires ProperLines(ls) && SwallowsBlank(ls)
    ensures !Removes(Main(false), FusedMain(ls))
  {
    hide IsLine, Terminated, EndsInCr, IsBlank, Sections, MainLength, IsClassPath, Kept, Removes;
    KeptMainFacts(ls);
    KeptHasNoClassPath(ls[..MainLength(ls)], false, false);
    var kept, f := KeptMain(ls), FusedMain(ls);
    FusedMainFacts(ls);
    FusedLine(kept[|kept| - 1]);
    RemovesMeaning(Main(false), kept);
    RemovesMeaning(Main(false), f);
    WholeIsMain(kept);
    WholeIsMain(f);
    forall i | 0 <= i < |f|
      ensures !IsClassPath(f[i])
    {
      assert !IsClassPath(kept[i]);
    }
  }

  lemma {:induction false} WholeIsMain(ls: seq<Bytes>)
    requires NoBlank(ls)
    ensures MainLength(ls) == |ls|
  {
    hide IsBlank;
  }

  /** Exactly when a second pass would remove something: the blank line was swallowed, and the lines after it
      hold a Class-Path header before their next blank line. */
  lemma {:induction false} SecondPassFinds(m: Bytes)
    ensures Finds(Main(false), Stripped(Main(false), m)) <==>
            SwallowsBlank(Lines(m)) && Removes(Main(false), Sections(Lines(m))[1..])
  {
    hide Stripped, IsLine, Terminated, EndsInCr, IsBlank, KeptMain, Sections;
    hide MainLength, Lines, Kept, FusedMain, Removes, ProperLines;
    var ls := Lines(m);
    OutputResplits(m);
    if SwallowsBlank(ls) {
      LinesPartition(m);
      SwallowedLines(m);
      FusedMainFacts(ls);
      FusedHasNoClassPath(ls);
      RemovesAppend(false, FusedMain(ls), Sections(ls)[1..]);
    } else {
      KeptHasNoClassPath(ls, false, false);
    }
  }

  /** With CR LF or LF terminators only, stripping is complete: the output splits into the kept lines, its main
      section has no Class-Path header, and a second pass is refused. */
  lemma {:induction false} StrippingIsComplete(m: Bytes)
    requires NoBareCr(m)
    ensures Lines(Stripped(Main(false), m)) == Kept(Main(false), Lines(m))
    ensures !Finds(Main(false), Stripped(Main(false), m))
    ensures var out := Lines(Stripped(Main(false), m));
            forall i :: 0 <= i < MainLength(out) ==> !IsClassPath(out[i])
  {
    hide Stripped, Lines, Kept, MainLength, IsClassPath, SwallowsBlank, Removes;
    WithoutBareCrNothingSwallowed(m);
    OutputResplits(m);
    SecondPassFinds(m);
    RemovesMeaning(Main(false), Lines(Stripped(Main(false), m)));
  }

  // ---------------------------------------------------------------- a manifest that needs two passes

  /** Text without line breaks. */
  ghost predicate Plain(text: Bytes) {
    forall c :: c in text ==> c != CR && c != LF
  }

  lemma {:induction false} PlainJoin(a: Bytes, b: Bytes)
    requires Plain(a) && Plain(b)
    ensures Plain(a + b)
  {
  }

  /** A line of plain text and its terminator. */
  lemma {:induction false} PlainLine(text: Bytes, end: byte)
    requires Plain(text) && text != [] && (end == CR || end == LF)
    ensures var l := text + [end];
            && IsLine(l) && Terminated(l) && !IsBlank(l) && ContentLength(l) == |text|
            && (text[0] != SPACE ==> !IsContinuation(l))
  {
    var l := text + [end];
    forall i | 0 <= i < |text|
      ensures l[i] != CR && l[i] != LF
    {
      assert l[i] in text;
    }
    UniqueContentLength(l, |text|);
  }

  /** "Manifest-Version: 1.0" */
  ghost const VERSION: Bytes :=
    [77, 97, 110, 105, 102, 101, 115, 116, 45, 86, 101, 114, 115, 105, 111, 110, 58, 32, 49, 46, 48]

  /** ": a.jar", ": c.jar" and "Name: b" */
  ghost const FIRST_JAR: Bytes := [58, 32, 97, 46, 106, 97, 114]
  ghost const SECOND_JAR: Bytes := [58, 32, 99, 46, 106, 97, 114]
  ghost const NAME: Bytes := [78, 97, 109, 101, 58, 32, 98]

  /** A manifest that a JAR parser accepts: a version line ended by a bare CR, a Class-Path, a blank line, and a
      section named b with a Class-Path of its own, all ended by LF. */
  ghost function BareCrLines(): seq<Bytes> {
    [VERSION + [CR], CLASS_PATH + FIRST_JAR + [LF], [LF], NAME + [LF], CLASS_PATH + SECOND_JAR + [LF]]
  }

  lemma {:induction false} ClassPathLine(value: Bytes)
    requires Plain(value) && value != [] && value[0] == COLON
    ensures var l := CLASS_PATH + value + [LF];
            IsLine(l) && Terminated(l) && IsClassPath(l) && l[0] != LF
  {
    assert Plain(CLASS_PATH);
    PlainJoin(CLASS_PATH, value);
    PlainLine(CLASS_PATH + value, LF);
  }

  lemma {:induction false} VersionLine()
    ensures var l := VERSION + [CR]; IsLine(l) && Terminated(l) && !IsBlank(l) && !IsContinuation(l) && !IsClassPath(l)
  {
    assert Plain(VERSION);
    PlainLine(VERSION, CR);
    assert Lower((VERSION + [CR])[0]) != Lower(CLASS_PATH[0]);
  }

  lemma {:induction false} NameLine()
    ensures var l := NAME + [LF];
            IsLine(l) && Terminated(l) && !IsBlank(l) && !IsContinuation(l) && !IsClassPath(l) && l[0] != LF
  {
    assert Plain(NAME);
    PlainLine(NAME, LF);
  }

  lemma {:induction false} BlankLine()
    ensures IsLine([LF]) && Terminated([LF]) && IsBlank([LF])
  {
    UniqueContentLength([LF], 0);
  }

  /** A bare carriage return before a removed Class-Path and a bare line feed after it defeat one pass: the
      following section's own Class-Path has become a main-section one. */
  lemma {:induction false} BareCrDefeatsOnePass()
    ensures Lines(Concat(BareCrLines())) == BareCrLines()
    ensures Finds(Main(false), Stripped(Main(false), Concat(BareCrLines())))
  {
    hide IsLine, Terminated, IsBlank, IsContinuation, IsClassPath, Concat, Lines, Stripped, Removes, Kept, Finds, Plain;
    var ls := BareCrLines();
    VersionLine();
    NameLine();
    BlankLine();
    assert Plain(FIRST_JAR) && Plain(SECOND_JAR) by { JarsArePlain(); }
    ClassPathLine(FIRST_JAR);
    ClassPathLine(SECOND_JAR);
    JoinableResplits(ls);
    SwallowsIn(ls[0], ls[1], ls[3..], ls);
    SecondSectionFinds(ls[3], ls[4]);
    assert Sections(ls)[1..] == [ls[3]] + [ls[4]];
    SecondPassFinds(Concat(ls));
  }

  lemma {:induction false} JarsArePlain()
    ensures Plain(FIRST_JAR) && Plain(SECOND_JAR)
  {
  }

  lemma {:induction false} SwallowsIn(v: Bytes, h: Bytes, rest: seq<Bytes>, ls: seq<Bytes>)
    requires ls == [v, h, [LF]] + rest
    requires !IsBlank(v) && !IsContinuation(v) && !IsClassPath(v) && EndsInCr(v) && IsClassPath(h) && IsBlank([LF])
    ensures SwallowsBlank(ls) && Sections(ls) == [[LF]] + rest
  {
    hide IsBlank, IsContinuation, IsClassPath, Kept;
    HeaderIsNoContinuation(h);
    assert ls[0] == v && ls[1] == h && ls[2] == [LF];
    assert MainLength(ls) == 2;
    assert ls[..2] == [v] + [h];
    KeptCons(Main(false), v, [h]);
    KeptOne(Main(false), h);
    assert KeptMain(ls) == [v];
    assert Sections(ls) == [[LF]] + rest;
  }

  lemma {:induction false} SecondSectionFinds(name: Bytes, h: Bytes)
    requires !IsBlank(name) && !IsContinuation(name) && !IsClassPath(name) && IsClassPath(h)
    ensures Removes(Main(false), [name] + [h])
  {
    hide IsBlank, IsContinuation, IsClassPath, Removes;
    HeaderIsNoContinuation(h);
    RemovesCons(Main(false), name, [h]);
    RemovesCons(Main(false), h, []);
    assert [h] + [] == [h];
  }
}
