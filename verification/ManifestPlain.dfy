/** The byte-level notions of the manifest stripper, with the bytes written out. */
module ManifestPlain {
  import opened Wrappers
  import opened Manifest
  import opened ManifestLaws

  /** A letter of the name, in either case. */
  lemma {:induction false} EitherCase(b: byte, upper: byte)
    requires 65 <= upper <= 90
    ensures Lower(b) == upper + 32 <==> b == upper || b == upper + 32
  {
  }

  lemma {:induction false} ContentAtLeast(m: Bytes, n: nat)
    ensures ContentLength(m) >= n <==> |m| >= n && forall i :: 0 <= i < n ==> m[i] != 13 && m[i] != 10
  {
  }

  /** The ten bytes of the name in lower case. */
  lemma {:induction false} NameInLowerCase(line: Bytes)
    requires |line| >= 11
    ensures (forall i :: 0 <= i < |CLASS_PATH| ==> Lower(line[i]) == Lower(CLASS_PATH[i])) <==>
            && Lower(line[0]) == 99 && Lower(line[1]) == 108 && Lower(line[2]) == 97 && Lower(line[3]) == 115
            && Lower(line[4]) == 115 && Lower(line[5]) == 45 && Lower(line[6]) == 112 && Lower(line[7]) == 97
            && Lower(line[8]) == 116 && Lower(line[9]) == 104
  {
    assert |CLASS_PATH| == 10;
  }

  /** A Class-Path header: "Class-Path:" with letters of either case at the start of a line. */
  lemma {:induction false} HeaderInPlainTerms(line: Bytes)
    ensures IsClassPath(line) <==>
            && |line| >= 11
            && (line[0] == 67 || line[0] == 99)
            && (line[1] == 76 || line[1] == 108)
            && (line[2] == 65 || line[2] == 97)
            && (line[3] == 83 || line[3] == 115)
            && (line[4] == 83 || line[4] == 115)
            && line[5] == 45
            && (line[6] == 80 || line[6] == 112)
            && (line[7] == 65 || line[7] == 97)
            && (line[8] == 84 || line[8] == 116)
            && (line[9] == 72 || line[9] == 104)
            && line[10] == 58
  {
    hide ContentLength;
    ContentAtLeast(line, 11);
    if |line| >= 11 {
      NameInLowerCase(line);
      EitherCase(line[0], 67);
      EitherCase(line[1], 76);
      EitherCase(line[2], 65);
      EitherCase(line[3], 83);
      EitherCase(line[4], 83);
      EitherCase(line[6], 80);
      EitherCase(line[7], 65);
      EitherCase(line[8], 84);
      EitherCase(line[9], 72);
      assert Lower(line[5]) == 45 <==> line[5] == 45;
      hide Lower;
      if && (line[0] == 67 || line[0] == 99) && (line[1] == 76 || line[1] == 108) && (line[2] == 65 || line[2] == 97)
         && (line[3] == 83 || line[3] == 115) && (line[4] == 83 || line[4] == 115) && line[5] == 45
         && (line[6] == 80 || line[6] == 112) && (line[7] == 65 || line[7] == 97) && (line[8] == 84 || line[8] == 116)
         && (line[9] == 72 || line[9] == 104) && line[10] == 58
      {
        HeaderContent(line);
      }
    }
  }

  lemma {:induction false} HeaderContent(line: Bytes)
    requires |line| >= 11
    requires && (line[0] == 67 || line[0] == 99) && (line[1] == 76 || line[1] == 108)
             && (line[2] == 65 || line[2] == 97)
             && (line[3] == 83 || line[3] == 115) && (line[4] == 83 || line[4] == 115) && line[5] == 45
             && (line[6] == 80 || line[6] == 112) && (line[7] == 65 || line[7] == 97)
             && (line[8] == 84 || line[8] == 116)
             && (line[9] == 72 || line[9] == 104) && line[10] == 58
    ensures forall i :: 0 <= i < 11 ==> line[i] != 13 && line[i] != 10
  {
  }

  /** Which bytes end a line, which make it blank, and which continue the line before. */
  lemma {:induction false} LinesInPlainTerms(line: Bytes)
    ensures IsBlank(line) <==> line == [] || line[0] == 13 || line[0] == 10
    ensures IsContinuation(line) <==> line != [] && line[0] == 32
    ensures IsLine(line) <==>
            exists n: nat :: && n <= |line| && line != []
                             && (forall i :: 0 <= i < n ==> line[i] != 13 && line[i] != 10)
                             && (line[n..] == [] || line[n..] == [10] || line[n..] == [13] || line[n..] == [13, 10])
    ensures Terminated(line) <==> exists i :: 0 <= i < |line| && (line[i] == 13 || line[i] == 10)
  {
    var n := ContentLength(line);
    if IsLine(line) {
      assert line[n..] == [] || line[n..] == [10] || line[n..] == [13] || line[n..] == [13, 10];
    }
    if k: nat :| && k <= |line| && line != []
                 && (forall i :: 0 <= i < k ==> line[i] != 13 && line[i] != 10)
                 && (line[k..] == [] || line[k..] == [10] || line[k..] == [13] || line[k..] == [13, 10])
    {
      if k < |line| { assert line[k] == line[k..][0]; }
      UniqueContentLength(line, k);
      if k + 1 < |line| { assert line[k + 1] == line[k..][1]; }
    }
  }

  lemma {:induction false} FusingInPlainTerms(l: Bytes, next: Bytes, m: Bytes)
    ensures Fuses(l, next) <==> l != [] && l[|l| - 1] == 13 && next != [] && next[0] == 10
    ensures NoBareCr(m) <==> forall i :: 0 <= i < |m| && m[i] == 13 ==> i + 1 < |m| && m[i + 1] == 10
  {
  }

  /** Lines are put together by writing them one after the other. */
  lemma {:induction false} ConcatLaws(l: Bytes, ls: seq<Bytes>)
    ensures Concat([]) == [] && Concat([l] + ls) == l + Concat(ls)
  {
    ConcatCons(l, ls);
  }

  /** A manifest whose only Class-Path is written in lower case loses it. */
  lemma {:induction false} LowerCaseIsRemoved(value: Bytes, rest: seq<Bytes>)
    requires |value| > 0 && value[0] == 58
    ensures var header := [99, 108, 97, 115, 115, 45, 112, 97, 116, 104] + value;
            Removes(Main(false), [header] + rest)
  {
    var header: Bytes := [99, 108, 97, 115, 115, 45, 112, 97, 116, 104] + value;
    assert header[10] == value[0];
    HeaderInPlainTerms(header);
    HeaderIsNoContinuation(header);
    RemovesCons(Main(false), header, rest);
  }
}
