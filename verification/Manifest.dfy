/** Removing the main-section Class-Path from a JAR manifest, byte by byte. */
module Manifest {
  import opened Wrappers

  type byte = x: int | 0 <= x < 256
  type Bytes = seq<byte>

  const CR: byte := 13
  const LF: byte := 10
  const SPACE: byte := 32
  const COLON: byte := 58

  /** "Class-Path" */
  const CLASS_PATH: Bytes := [67, 108, 97, 115, 115, 45, 80, 97, 116, 104]

  /** Every carriage return is followed by a line feed. */
  ghost predicate NoBareCr(m: Bytes) {
    forall i :: 0 <= i < |m| && m[i] == CR ==> i + 1 < |m| && m[i + 1] == LF
  }

  // ---------------------------------------------------------------- lines

  /** Number of bytes before the first line terminator. */
  function ContentLength(m: Bytes): (n: nat)
    ensures n <= |m|
    ensures n < |m| ==> m[n] == CR || m[n] == LF
    ensures forall i :: 0 <= i < n ==> m[i] != CR && m[i] != LF
  {
    if m == [] || m[0] == CR || m[0] == LF then 0 else 1 + ContentLength(m[1..])
  }

  /** Length of the first line with its terminator: CR LF, CR or LF. */
  function FirstLine(m: Bytes): (n: nat)
    ensures n <= |m| && (m != [] ==> n > 0)
  {
    var c := ContentLength(m);
    if c == |m| then c
    else if m[c] == CR && c + 1 < |m| && m[c + 1] == LF then c + 2
    else c + 1
  }

  function Lines(m: Bytes): seq<Bytes> {
    if m == [] then [] else [m[..FirstLine(m)]] + Lines(m[FirstLine(m)..])
  }

  function Concat(ls: seq<Bytes>): Bytes {
    if ls == [] then [] else ls[0] + Concat(ls[1..])
  }

  // ---------------------------------------------------------------- which lines are kept

  function Lower(b: byte): byte {
    if 65 <= b <= 90 then b + 32 else b
  }

  /** A header line named Class-Path in any case. */
  predicate IsClassPath(line: Bytes) {
    && ContentLength(line) >= |CLASS_PATH| + 1
    && line[|CLASS_PATH|] == COLON
    && forall i :: 0 <= i < |CLASS_PATH| ==> Lower(line[i]) == Lower(CLASS_PATH[i])
  }

  predicate IsBlank(line: Bytes) {
    ContentLength(line) == 0
  }

  predicate IsContinuation(line: Bytes) {
    ContentLength(line) > 0 && line[0] == SPACE
  }

  datatype Mode = Main(removing: bool) | Rest

  function After(mode: Mode, line: Bytes): Mode {
    if mode.Rest? || IsBlank(line) then Rest
    else if IsContinuation(line) then mode
    else Main(IsClassPath(line))
  }

  predicate Keeps(mode: Mode, line: Bytes) {
    After(mode, line) != Main(true)
  }

  function Kept(mode: Mode, ls: seq<Bytes>): seq<Bytes>
    decreases |ls|
  {
    if ls == [] then []
    else (if Keeps(mode, ls[0]) then [ls[0]] else []) + Kept(After(mode, ls[0]), ls[1..])
  }

  predicate IsRemovedHeader(mode: Mode, line: Bytes) {
    mode.Main? && !IsBlank(line) && !IsContinuation(line) && IsClassPath(line)
  }

  /** Some main-section Class-Path header is met. */
  predicate Removes(mode: Mode, ls: seq<Bytes>)
    decreases |ls|
  {
    ls != [] && (IsRemovedHeader(mode, ls[0]) || Removes(After(mode, ls[0]), ls[1..]))
  }

  // ---------------------------------------------------------------- the loops

  /** `isClassPathHeader` over the content bytes `[start, end)`. */
  method CheckClassPathHeader(m: Bytes, start: nat, end: nat) returns (yes: bool)
    requires start <= end <= |m| && end - start == ContentLength(m[start..])
    ensures yes <==> IsClassPath(m[start..])
  {
    var line := m[start..];
    if end - start < |CLASS_PATH| + 1 || m[start + |CLASS_PATH|] != COLON { return false; }
    for i := 0 to |CLASS_PATH|
      invariant forall k :: 0 <= k < i ==> Lower(line[k]) == Lower(CLASS_PATH[k])
    {
      if Lower(m[start + i]) != Lower(CLASS_PATH[i]) { return false; }
    }
    return true;
  }

  /** One line from `start`: where its content ends and where it ends. */
  method ReadLine(m: Bytes, start: nat) returns (contentEnd: nat, end: nat)
    requires start < |m|
    ensures start <= contentEnd <= |m| && contentEnd - start == ContentLength(m[start..])
    ensures start < end <= |m| && end - start == FirstLine(m[start..])
  {
    var cursor := start;
    while cursor < |m| && m[cursor] != CR && m[cursor] != LF
      invariant start <= cursor <= |m|
      invariant forall i :: start <= i < cursor ==> m[i] != CR && m[i] != LF
    {
      cursor := cursor + 1;
    }
    contentEnd := cursor;
    UniqueContentLength(m[start..], cursor - start);
    if cursor < |m| && m[cursor] == CR {
      cursor := cursor + 1;
      if cursor < |m| && m[cursor] == LF { cursor := cursor + 1; }
    } else if cursor < |m| {
      cursor := cursor + 1;
    }
    end := cursor;
  }

  lemma {:induction false} UniqueContentLength(m: Bytes, n: nat)
    requires n <= |m| && (n < |m| ==> m[n] == CR || m[n] == LF)
    requires forall i :: 0 <= i < n ==> m[i] != CR && m[i] != LF
    ensures ContentLength(m) == n
  {
  }

  /** What the stripper writes for the text `m` entered in `mode`. */
  function Stripped(mode: Mode, m: Bytes): Bytes {
    Concat(Kept(mode, Lines(m)))
  }

  /** Whether it meets something to remove there. */
  predicate Finds(mode: Mode, m: Bytes) {
    Removes(mode, Lines(m))
  }

  /** `stripMainClassPath`: the kept lines, or a refusal when there is nothing to remove. */
  method Strip(manifest: Bytes) returns (r: Option<Bytes>)
    ensures r == if Finds(Main(false), manifest) then Some(Stripped(Main(false), manifest)) else None
  {
    hide IsClassPath, IsBlank, IsContinuation, ContentLength, FirstLine, Lines, Concat, Kept, Removes, Stripped, Finds;
    var output: Bytes := [];
    var inMainSection, removing, removed := true, false, false;
    var cursor := 0;
    assert manifest[0..] == manifest;
    while cursor < |manifest|
      invariant 0 <= cursor <= |manifest|
      invariant !inMainSection ==> !removing
      invariant Stripped(Main(false), manifest) ==
                output + Stripped(ModeOf(inMainSection, removing), manifest[cursor..])
      invariant Finds(Main(false), manifest) <==> removed || Finds(ModeOf(inMainSection, removing), manifest[cursor..])
    {
      var start := cursor;
      var contentEnd, end := ReadLine(manifest, start);
      cursor := end;
      var line := manifest[start..end];
      ghost var mode := ModeOf(inMainSection, removing);
      StripOneLine(manifest, start, end, mode);
      ghost var next := Stripped(After(mode, line), manifest[end..]);
      assert (output + line) + next == output + (line + next) && [] + next == next;
      LineInPlace(manifest, start, contentEnd, end);
      if inMainSection && contentEnd == start {
        inMainSection, removing := false, false;
        output := output + line;
        continue;
      }
      if inMainSection && contentEnd > start && manifest[start] == SPACE {
        if !removing { output := output + line; }
        continue;
      }
      if inMainSection {
        removing := CheckClassPathHeader(manifest, start, contentEnd);
        if removing {
          removed := true;
          continue;
        }
      }
      output := output + line;
    }
    NothingLeft(manifest, ModeOf(inMainSection, removing));
    assert output + [] == output;
    if !removed { return None; }
    return Some(output);
  }

  function ModeOf(inMainSection: bool, removing: bool): Mode {
    if inMainSection then Main(removing) else Rest
  }

  lemma {:induction false} NothingLeft(m: Bytes, mode: Mode)
    ensures Stripped(mode, m[|m|..]) == [] && !Finds(mode, m[|m|..])
  {
    assert m[|m|..] == [];
  }

  lemma {:induction false} SplitOneLine(m: Bytes, start: nat, end: nat)
    requires start < end <= |m| && end - start == FirstLine(m[start..])
    ensures Lines(m[start..]) == [m[start..end]] + Lines(m[end..])
  {
    hide ContentLength, FirstLine;
    var tail := m[start..];
    assert tail[..end - start] == m[start..end] && tail[end - start..] == m[end..];
  }

  lemma {:induction false} ConcatCons(line: Bytes, ls: seq<Bytes>)
    ensures Concat([line] + ls) == line + Concat(ls)
  {
    assert ([line] + ls)[1..] == ls;
  }

  lemma {:induction false} KeptCons(mode: Mode, line: Bytes, ls: seq<Bytes>)
    ensures Kept(mode, [line] + ls) == (if Keeps(mode, line) then [line] else []) + Kept(After(mode, line), ls)
  {
    hide After, Keeps;
    assert ([line] + ls)[1..] == ls;
  }

  lemma {:induction false} RemovesCons(mode: Mode, line: Bytes, ls: seq<Bytes>)
    ensures Removes(mode, [line] + ls) <==> IsRemovedHeader(mode, line) || Removes(After(mode, line), ls)
  {
    hide After, IsBlank, IsContinuation, IsClassPath;
    assert ([line] + ls)[1..] == ls;
  }

  lemma {:induction false} StripOneLine(m: Bytes, start: nat, end: nat, mode: Mode)
    requires start < end <= |m| && end - start == FirstLine(m[start..])
    ensures Stripped(mode, m[start..]) ==
            (if Keeps(mode, m[start..end]) then m[start..end] else []) + Stripped(After(mode, m[start..end]), m[end..])
    ensures Finds(mode, m[start..]) <==>
            IsRemovedHeader(mode, m[start..end]) || Finds(After(mode, m[start..end]), m[end..])
  {
    hide ContentLength, FirstLine, Lines, Concat, Kept, Removes, After, Keeps, IsRemovedHeader;
    var line, rest := m[start..end], Lines(m[end..]);
    SplitOneLine(m, start, end);
    KeptCons(mode, line, rest);
    RemovesCons(mode, line, rest);
    var kept := Kept(After(mode, line), rest);
    if Keeps(mode, line) {
      ConcatCons(line, kept);
    } else {
      assert [] + kept == kept;
    }
  }

  /** A line has the content and the first byte of the text it starts. */
  lemma {:induction false} LineInPlace(m: Bytes, start: nat, contentEnd: nat, end: nat)
    requires start <= contentEnd && start < end <= |m| && end - start == FirstLine(m[start..])
    requires contentEnd - start == ContentLength(m[start..])
    ensures IsBlank(m[start..end]) <==> contentEnd == start
    ensures IsContinuation(m[start..end]) <==> contentEnd > start && m[start] == SPACE
    ensures IsClassPath(m[start..end]) <==> IsClassPath(m[start..])
  {
    var tail, line := m[start..], m[start..end];
    assert forall i :: 0 <= i < |line| ==> line[i] == tail[i];
    UniqueContentLength(line, contentEnd - start);
  }
}
