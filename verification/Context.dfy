/** Context compaction between model rounds. */
module Context {
  import opened Wrappers
  import opened AgentTypes
  import opened Pairing
  import opened Budget

  const MAX_SUMMARY_BYTES: nat := 64 * 1024

  // ---------------------------------------------------------------- turns

  /** Index of the first user message, or `|ms|`. */
  function FirstUser(ms: seq<Message>): (n: nat)
    ensures n <= |ms|
    ensures n < |ms| ==> ms[n].role.User?
    ensures forall i :: 0 <= i < n ==> !ms[i].role.User?
  {
    if ms == [] || ms[0].role.User? then 0 else 1 + FirstUser(ms[1..])
  }

  predicate TurnIsComplete(turn: seq<Message>) {
    turn != [] && turn[|turn| - 1].role.Assistant? && ToolPairsComplete(turn)
  }

  predicate NoSystem(ms: seq<Message>) {
    forall i :: 0 <= i < |ms| ==> !ms[i].role.System?
  }

  predicate Removable(turn: seq<Message>) {
    NoSystem(turn) && TurnIsComplete(turn)
  }

  /** Lengths of the removable turns in a row at the start of `tail`, which starts with a
      user message. The turn in progress, after the last user message, is never one of them. */
  function TurnLengths(tail: seq<Message>): seq<nat>
    requires tail != []
  {
    var n := 1 + FirstUser(tail[1..]);
    if n == |tail| || !Removable(tail[..n]) then [] else [n] + TurnLengths(tail[n..])
  }

  function Ranges(start: nat, lengths: seq<nat>): seq<Range>
    decreases |lengths|
  {
    if lengths == [] then []
    else [Range(start, start + lengths[0])] + Ranges(start + lengths[0], lengths[1..])
  }

  function Lengths(ms: seq<Message>): seq<nat> {
    var u := FirstUser(ms);
    if u == |ms| then [] else TurnLengths(ms[u..])
  }

  function CompactableTurns(ms: seq<Message>): seq<Range> {
    Ranges(FirstUser(ms), Lengths(ms))
  }

  /** `tool_pairs_complete`: the pending-set loop over all blocks. */
  method CheckToolPairs(ms: seq<Message>) returns (complete: bool)
    ensures complete <==> ToolPairsComplete(ms)
  {
    var bs := Blocks(ms);
    var pending: set<string> := {};
    var i := 0;
    while i < |bs|
      invariant 0 <= i <= |bs|
      invariant Pending({}, bs) == Pending(pending, bs[i..])
    {
      match bs[i] {
        case CallBlock(c) =>
          if c.id in pending { return false; }
          pending := pending + {c.id};
        case ResultBlock(r) =>
          if r.callId !in pending { return false; }
          pending := pending - {r.callId};
        case _ =>
      }
      i := i + 1;
    }
    return pending == {};
  }

  /** The indices of the user messages, in order: `users[k]` is the first one after `users[k - 1]`. */
  ghost predicate UserIndices(ms: seq<Message>, users: seq<nat>) {
    && (forall k :: 0 <= k < |users| ==> users[k] < |ms| && ms[users[k]].role.User?)
    && (forall j, k :: 0 <= j < k < |users| ==> users[j] < users[k])
    && (forall i :: 0 <= i < |ms| && ms[i].role.User? ==> i in users)
  }

  method CollectUsers(ms: seq<Message>) returns (users: seq<nat>)
    ensures UserIndices(ms, users)
  {
    users := [];
    for i := 0 to |ms|
      invariant forall k :: 0 <= k < |users| ==> users[k] < i && ms[users[k]].role.User?
      invariant forall j, k :: 0 <= j < k < |users| ==> users[j] < users[k]
      invariant forall j :: 0 <= j < i && ms[j].role.User? ==> j in users
    {
      if ms[i].role.User? { users := users + [i]; }
    }
  }

  lemma {:induction false} UniqueFirstUser(ms: seq<Message>, n: nat)
    requires n <= |ms| && (n < |ms| ==> ms[n].role.User?)
    requires forall i :: 0 <= i < n ==> !ms[i].role.User?
    ensures FirstUser(ms) == n
  {
  }

  lemma {:induction false} AdjacentUsers(ms: seq<Message>, users: seq<nat>, k: nat)
    requires UserIndices(ms, users) && k < |users|
    ensures 1 + FirstUser(ms[users[k]..][1..]) == (if k + 1 < |users| then users[k + 1] else |ms|) - users[k]
  {
    var u := users[k];
    var n := if k + 1 < |users| then users[k + 1] else |ms|;
    var rest := ms[u..][1..];
    forall i | 0 <= i < n - u - 1 ensures !rest[i].role.User? {
      assert rest[i] == ms[u + 1 + i];
      if ms[u + 1 + i].role.User? {
        var j :| 0 <= j < |users| && users[j] == u + 1 + i;
        assert false;
      }
    }
    UniqueFirstUser(rest, n - u - 1);
  }

  lemma {:induction false} FirstOfUsers(ms: seq<Message>, users: seq<nat>)
    requires UserIndices(ms, users)
    ensures FirstUser(ms) == if users == [] then |ms| else users[0]
  {
    var n := if users == [] then |ms| else users[0];
    UniqueFirstUser(ms, n);
  }

  lemma {:induction false} OneTurn(tail: seq<Message>, n: nat)
    requires tail != [] && n == 1 + FirstUser(tail[1..])
    ensures TurnLengths(tail) == if n == |tail| || !Removable(tail[..n]) then [] else [n] + TurnLengths(tail[n..])
  {
    hide Removable, FirstUser;
  }

  lemma {:induction false} NextTurn(ms: seq<Message>, users: seq<nat>, k: nat)
    requires UserIndices(ms, users) && k < |users|
    ensures TurnLengths(ms[users[k]..]) ==
            if k + 1 == |users| || !Removable(ms[users[k]..users[k + 1]]) then []
            else [users[k + 1] - users[k]] + TurnLengths(ms[users[k + 1]..])
  {
    hide Removable, FirstUser, TurnLengths;
    AdjacentUsers(ms, users, k);
    OneTurn(ms[users[k]..], (if k + 1 < |users| then users[k + 1] else |ms|) - users[k]);
    if k + 1 < |users| {
      var u, n := users[k], users[k + 1];
      assert ms[u..][..n - u] == ms[u..n] && ms[u..][n - u..] == ms[n..];
    }
  }

  lemma {:induction false} UserInRange(ms: seq<Message>, users: seq<nat>, k: nat)
    requires UserIndices(ms, users) && k < |users|
    ensures users[k] < |ms| && (k + 1 < |users| ==> users[k] < users[k + 1] < |ms|)
  {
  }

  /** The compactable ranges from the k-th user message on. */
  ghost function RangesFrom(ms: seq<Message>, users: seq<nat>, k: nat): seq<Range>
    requires k < |users| && users[k] < |ms|
  {
    Ranges(users[k], TurnLengths(ms[users[k]..]))
  }

  /** They are none, or this turn and the ranges from the next user message on. */
  lemma {:induction false} NextRange(ms: seq<Message>, users: seq<nat>, k: nat)
    requires UserIndices(ms, users) && k < |users|
    ensures users[k] < |ms|
    ensures k + 1 == |users| ==> RangesFrom(ms, users, k) == []
    ensures k + 1 < |users| ==>
              && users[k] < users[k + 1] < |ms|
              && RangesFrom(ms, users, k) ==
                 if !Removable(ms[users[k]..users[k + 1]]) then []
                 else [Range(users[k], users[k + 1])] + RangesFrom(ms, users, k + 1)
  {
    hide Removable, TurnLengths;
    UserInRange(ms, users, k);
    NextTurn(ms, users, k);
    if k + 1 < |users| && Removable(ms[users[k]..users[k + 1]]) {
      var first, more := users[k + 1] - users[k], TurnLengths(ms[users[k + 1]..]);
      assert ([first] + more)[1..] == more;
    }
  }

  method CheckRemovable(turn: seq<Message>) returns (yes: bool)
    requires turn != []
    ensures yes <==> Removable(turn)
  {
    hide ToolPairsComplete;
    if (exists i :: 0 <= i < |turn| && turn[i].role.System?) || !turn[|turn| - 1].role.Assistant? { return false; }
    yes := CheckToolPairs(turn);
  }

  lemma {:induction false} RangesFromUsers(ms: seq<Message>, users: seq<nat>)
    requires UserIndices(ms, users)
    ensures users == [] ==> CompactableTurns(ms) == []
    ensures users != [] ==> users[0] < |ms| && CompactableTurns(ms) == RangesFrom(ms, users, 0)
  {
    hide TurnLengths, FirstUser;
    FirstOfUsers(ms, users);
  }

  /** `compactable_turns`: collect the user indices, then walk their adjacent pairs. */
  method CollectCompactableTurns(ms: seq<Message>) returns (ranges: seq<Range>)
    ensures ranges == CompactableTurns(ms)
  {
    hide RangesFrom, Removable, CompactableTurns, UserIndices;
    var users := CollectUsers(ms);
    RangesFromUsers(ms, users);
    ranges := [];
    if users == [] { return; }
    var k := 0;
    while k + 1 < |users|
      invariant 0 <= k < |users| && users[k] < |ms|
      invariant CompactableTurns(ms) == ranges + RangesFrom(ms, users, k)
    {
      var u, n := users[k], users[k + 1];
      NextRange(ms, users, k);
      var removable := CheckRemovable(ms[u..n]);
      if !removable { return; }
      ghost var more := RangesFrom(ms, users, k + 1);
      assert ranges + ([Range(u, n)] + more) == (ranges + [Range(u, n)]) + more;
      ranges := ranges + [Range(u, n)];
      k := k + 1;
    }
    NextRange(ms, users, k);
  }

  // ---------------------------------------------------------------- cutting turns

  function Sum(lengths: seq<nat>, k: nat): nat
    requires k <= |lengths|
  {
    if k == 0 then 0 else lengths[0] + Sum(lengths[1..], k - 1)
  }

  lemma {:induction false} SumStep(lengths: seq<nat>, k: nat)
    requires k < |lengths|
    ensures Sum(lengths, k + 1) == Sum(lengths, k) + lengths[k]
    decreases k
  {
    if k > 0 { SumStep(lengths[1..], k - 1); }
  }

  lemma {:induction false} FirstTurn(tail: seq<Message>)
    requires tail != [] && TurnLengths(tail) != []
    ensures 0 < TurnLengths(tail)[0] < |tail|
    ensures tail[TurnLengths(tail)[0]].role.User?
    ensures TurnLengths(tail)[1..] == TurnLengths(tail[TurnLengths(tail)[0]..])
  {
  }

  /** Dropping the first `k` removable turns leaves a tail whose removable turns are the others. */
  lemma {:induction false} TailAfter(tail: seq<Message>, ls: seq<nat>, k: nat)
    requires tail != [] && tail[0].role.User? && ls == TurnLengths(tail) && k <= |ls|
    ensures Sum(ls, k) < |tail|
    ensures tail[Sum(ls, k)].role.User?
    ensures TurnLengths(tail[Sum(ls, k)..]) == ls[k..]
    ensures k < |ls| ==> ls[k] > 0
    decreases k
  {
    hide TurnLengths;
    if k == 0 {
      assert tail[0..] == tail;
      if 0 < |ls| { FirstTurn(tail); }
    } else {
      FirstTurn(tail);
      var n := ls[0];
      var next := tail[n..];
      assert next[0] == tail[n];
      TailAfter(next, ls[1..], k - 1);
      var rest := Sum(ls[1..], k - 1);
      assert next[rest..] == tail[n + rest..];
      assert next[rest] == tail[n + rest];
    }
  }

  /** Facts about the lengths of a transcript's compactable turns that later proofs need,
      without unfolding how they are found. */
  ghost predicate Turns(ms: seq<Message>, u: nat, ls: seq<nat>) {
    && u == FirstUser(ms)
    && ls == Lengths(ms)
    && (ls != [] ==> u < |ms|)
    && forall k :: 0 <= k <= |ls| ==> u + Sum(ls, k) <= |ms|
  }

  lemma {:induction false} TurnsHold(ms: seq<Message>)
    ensures Turns(ms, FirstUser(ms), Lengths(ms))
  {
    var u, ls := FirstUser(ms), Lengths(ms);
    forall k | 0 <= k <= |ls| ensures u + Sum(ls, k) <= |ms| {
      if u < |ms| { TailAfter(ms[u..], ls, k); }
    }
  }

  /** The transcript without its first `k` compactable turns. */
  function Trimmed(ms: seq<Message>, u: nat, ls: seq<nat>, k: nat): seq<Message>
    requires k <= |ls| && u + Sum(ls, k) <= |ms|
  {
    ms[..u] + ms[u + Sum(ls, k)..]
  }

  lemma {:induction false} RangesHead(u: nat, ls: seq<nat>, k: nat)
    requires k < |ls|
    ensures |Ranges(u, ls)| == |ls|
    ensures Ranges(u, ls)[k] == Range(u + Sum(ls, k), u + Sum(ls, k + 1))
    decreases k
  {
    RangesLength(u, ls);
    if k > 0 {
      RangesHead(u + ls[0], ls[1..], k - 1);
    } else {
      assert Sum(ls, 1) == ls[0];
    }
  }

  lemma {:induction false} RangesLength(u: nat, ls: seq<nat>)
    ensures |Ranges(u, ls)| == |ls|
    decreases |ls|
  {
    if ls != [] { RangesLength(u + ls[0], ls[1..]); }
  }

  lemma {:induction false} UserAfterHead(head: seq<Message>, tail: seq<Message>)
    requires forall i :: 0 <= i < |head| ==> !head[i].role.User?
    requires tail != [] && tail[0].role.User?
    ensures FirstUser(head + tail) == |head|
  {
    assert (head + tail)[|head|] == tail[0];
    UniqueFirstUser(head + tail, |head|);
  }

  /** The ranges recomputed after cutting the first `k` turns are the remaining original ones,
      moved down by what was cut. */
  lemma {:induction false} TurnsAfterTrim(ms: seq<Message>, u: nat, ls: seq<nat>, k: nat)
    requires Turns(ms, u, ls) && u < |ms| && k <= |ls|
    ensures u + Sum(ls, k) < |ms| && ms[u + Sum(ls, k)].role.User?
    ensures k < |ls| ==> ls[k] > 0
    ensures CompactableTurns(Trimmed(ms, u, ls, k)) == Ranges(u, ls[k..])
  {
    hide TurnLengths;
    var tail := ms[u..];
    TailAfter(tail, ls, k);
    var cut := Sum(ls, k);
    assert ms[u + cut..] == tail[cut..];
    assert tail[cut..][0] == tail[cut] == ms[u + cut];
    UserAfterHead(ms[..u], tail[cut..]);
    var ms' := Trimmed(ms, u, ls, k);
    assert ms' == ms[..u] + tail[cut..];
    assert ms'[u..] == tail[cut..];
  }

  /** One more drain of the first recomputed range cuts one more original turn. */
  lemma {:induction false} DrainOneMore(ms: seq<Message>, u: nat, ls: seq<nat>, k: nat, cut: seq<Message>)
    requires Turns(ms, u, ls) && u < |ms| && k < |ls|
    requires cut == Trimmed(ms, u, ls, k)
    ensures CompactableTurns(cut) != [] && CompactableTurns(cut)[0] == Range(u, u + ls[k])
    ensures u + ls[k] <= |cut|
    ensures cut[..u] + cut[u + ls[k]..] == Trimmed(ms, u, ls, k + 1)
    ensures ls[k] > 0
  {
    hide TurnLengths, Lengths, CompactableTurns, FirstUser;
    TurnsAfterTrim(ms, u, ls, k);
    RangesHead(u, ls[k..], 0);
    SumStep(ls, k);
    assert u + Sum(ls, k + 1) <= |ms|;
  }

  // ---------------------------------------------------------------- prepare

  /** What a configured compactor answers; `SummaryCancelled` is cancellation winning the race. */
  datatype SummaryReply = SummaryCancelled | Summarized(text: string) | SummaryFailed

  type Estimator = seq<Message> -> Result<ContextUsage, ProviderError>
  type Compactor = seq<Message> -> SummaryReply

  datatype Setup = Setup(
    budget: ContextBudget,
    estimate: Estimator,
    compactor: Option<Compactor>,
    blank: string -> bool)

  type Prepared = Result<Option<CompactionEvent>, AgentError>

  function SummaryMessage(text: string): Message {
    TextMessage(System, "Conversation summary:\n" + text)
  }

  /** All compactable turns replaced by one summary message. */
  function WithSummary(ms: seq<Message>, u: nat, ls: seq<nat>, text: string): seq<Message>
    requires u + Sum(ls, |ls|) <= |ms|
  {
    ms[..u] + [SummaryMessage(text)] + ms[u + Sum(ls, |ls|)..]
  }

  predicate Acceptable(c: Setup, text: string) {
    !c.blank(text) && |text| <= MAX_SUMMARY_BYTES
  }

  predicate OverThreshold(c: Setup, ms: seq<Message>) {
    c.estimate(ms).Ok? && c.budget.ThresholdReached(c.estimate(ms).value)
  }

  /** How many turns trimming removes, having removed `k`: it stops at an estimation error,
      below the threshold, or when no turn is left. */
  function TrimCount(c: Setup, ms: seq<Message>, u: nat, ls: seq<nat>, k: nat): (n: nat)
    requires forall j :: 0 <= j <= |ls| ==> u + Sum(ls, j) <= |ms|
    requires k <= |ls|
    ensures k <= n <= |ls|
    decreases |ls| - k
  {
    if k == |ls| || !OverThreshold(c, Trimmed(ms, u, ls, k)) then k
    else TrimCount(c, ms, u, ls, k + 1)
  }

  lemma {:induction false} TrimCountStep(c: Setup, ms: seq<Message>, u: nat, ls: seq<nat>, k: nat, cut: seq<Message>)
    requires forall j :: 0 <= j <= |ls| ==> u + Sum(ls, j) <= |ms|
    requires k <= |ls| && cut == Trimmed(ms, u, ls, k)
    ensures k == |ls| || !(c.estimate(cut).Ok? && c.budget.ThresholdReached(c.estimate(cut).value)) ==>
              TrimCount(c, ms, u, ls, k) == k
    ensures k < |ls| && c.estimate(cut).Ok? && c.budget.ThresholdReached(c.estimate(cut).value) ==>
              TrimCount(c, ms, u, ls, k) == TrimCount(c, ms, u, ls, k + 1)
  {
  }

  /** Deterministic trimming as one cut of the original transcript. */
  function TrimResult(c: Setup, ms: seq<Message>, u: nat, ls: seq<nat>, before: ContextUsage, summaryFailed: bool)
    : (Prepared, seq<Message>)
    requires forall j :: 0 <= j <= |ls| ==> u + Sum(ls, j) <= |ms|
  {
    var n := TrimCount(c, ms, u, ls, 0);
    var out := Trimmed(ms, u, ls, n);
    match c.estimate(out)
    case Err(e) => (Err(Provider(e)), out)
    case Ok(after) =>
      if c.budget.Exceeded(after) then (Err(ContextBudgetExceeded), out)
      else (Ok(Some(CompactionEvent(
                      c.budget.Cause(before), DeterministicTrim, n, summaryFailed, before, after, None,
                      if n == 0 then None else Some(Range(u, u + Sum(ls, n)))))), out)
  }

  /** The outcome of `prepare`: its result and the transcript it leaves, in terms of the
      compactable turns of the original transcript only. */
  function PrepareResult(c: Setup, ms: seq<Message>, u: nat, ls: seq<nat>): (Prepared, seq<Message>)
    requires forall j :: 0 <= j <= |ls| ==> u + Sum(ls, j) <= |ms|
  {
    match c.estimate(ms)
    case Err(e) => (Err(Provider(e)), ms)
    case Ok(before) =>
      if !c.budget.ThresholdReached(before) then (Ok(None), ms)
      else if ls == [] || c.compactor.None? then TrimResult(c, ms, u, ls, before, false)
      else
        var span := Range(u, u + Sum(ls, |ls|));
        match c.compactor.value(ms[span.start..span.end])
        case SummaryCancelled => (Err(Cancelled), ms)
        case SummaryFailed => TrimResult(c, ms, u, ls, before, true)
        case Summarized(text) =>
          if !Acceptable(c, text) then TrimResult(c, ms, u, ls, before, true)
          else
            var out := WithSummary(ms, u, ls, text);
            match c.estimate(out)
            case Err(e) => (Err(Provider(e)), out)
            case Ok(after) =>
              if c.budget.ThresholdReached(after) then TrimResult(c, ms, u, ls, before, true)
              else (Ok(Some(CompactionEvent(
                              c.budget.Cause(before), Summary, |ls|, false, before, after, Some(text),
                              Some(span)))), out)
  }

  function PrepareOutcome(c: Setup, ms: seq<Message>): (Prepared, seq<Message>) {
    TurnsHold(ms);
    PrepareResult(c, ms, FirstUser(ms), Lengths(ms))
  }

  /** `ContextManager::prepare`: splices a summary or drains turn after turn, recomputing the
      ranges after each drain; it does what the one-cut specification says. */
  method Prepare(c: Setup, messages: seq<Message>) returns (result: Prepared, out: seq<Message>)
    requires c.budget.Valid()
    ensures (result, out) == PrepareOutcome(c, messages)
  {
    hide TurnLengths, Lengths, FirstUser;
    TurnsHold(messages);
    ghost var u, ls := FirstUser(messages), Lengths(messages);
    out := messages;
    var before;
    match c.estimate(out) {
      case Err(e) => return Err(Provider(e)), out;
      case Ok(usage) => before := usage;
    }
    if !c.budget.ThresholdReached(before) { return Ok(None), out; }
    var cause := c.budget.Cause(before);
    var ranges := CollectCompactableTurns(out);
    RangesLength(u, ls);
    if ranges == [] {
      assert Sum(ls, 0) == 0 && Trimmed(messages, u, ls, 0) == messages;
      if c.budget.Exceeded(before) { return Err(ContextBudgetExceeded), out; }
      return Ok(Some(CompactionEvent(cause, DeterministicTrim, 0, false, before, before, None, None))), out;
    }
    RangesHead(u, ls, 0);
    RangesHead(u, ls, |ls| - 1);
    var summaryFailed := false;
    if c.compactor.Some? {
      var span := Range(ranges[0].start, ranges[|ranges| - 1].end);
      match c.compactor.value(out[span.start..span.end]) {
        case SummaryCancelled => return Err(Cancelled), out;
        case SummaryFailed => summaryFailed := true;
        case Summarized(text) =>
          if !c.blank(text) && |text| <= MAX_SUMMARY_BYTES {
            out := out[..span.start] + [SummaryMessage(text)] + out[span.end..];
            match c.estimate(out) {
              case Err(e) => return Err(Provider(e)), out;
              case Ok(after) =>
                if !c.budget.ThresholdReached(after) {
                  return Ok(Some(CompactionEvent(
                                   cause, Summary, |ranges|, false, before, after, Some(text), Some(span)))), out;
                }
            }
            out := messages;
          }
          summaryFailed := true;
      }
    }
    result, out := Trim(c, messages, ranges[0].start, cause, before, summaryFailed, ls);
  }

  /** The drain loop of `prepare`. */
  method Trim(c: Setup, messages: seq<Message>, compactedStart: nat, cause: CompactionCause, before: ContextUsage,
              summaryFailed: bool, ghost ls: seq<nat>)
    returns (result: Prepared, out: seq<Message>)
    requires Turns(messages, compactedStart, ls) && ls != []
    requires cause == c.budget.Cause(before)
    ensures (result, out) == TrimResult(c, messages, compactedStart, ls, before, summaryFailed)
  {
    hide TurnLengths, Lengths, CompactableTurns, FirstUser, TrimCount, OverThreshold;
    out := messages;
    var removedTurns: nat, removedMessages: nat := 0, 0;
    ghost var u := compactedStart;
    ghost var n := TrimCount(c, messages, u, ls, 0);
    assert u < |messages|;
    assert out == Trimmed(messages, u, ls, 0);
    while true
      invariant removedTurns <= |ls|
      invariant out == Trimmed(messages, u, ls, removedTurns)
      invariant removedMessages == Sum(ls, removedTurns)
      invariant n == TrimCount(c, messages, u, ls, removedTurns)
      invariant removedMessages == 0 <==> removedTurns == 0
      decreases |ls| - removedTurns
    {
      TrimCountStep(c, messages, u, ls, removedTurns, out);
      var usage := c.estimate(out);
      if usage.Err? { return Err(Provider(usage.error)), out; }
      if !c.budget.ThresholdReached(usage.value) { break; }
      var next := CollectCompactableTurns(out);
      if removedTurns == |ls| {
        TurnsAfterTrim(messages, u, ls, removedTurns);
      } else {
        DrainOneMore(messages, u, ls, removedTurns, out);
        SumStep(ls, removedTurns);
      }
      if next == [] { break; }
      removedMessages := removedMessages + (next[0].end - next[0].start);
      out := out[..next[0].start] + out[next[0].end..];
      removedTurns := removedTurns + 1;
    }
    assert n == removedTurns;
    match c.estimate(out) {
      case Err(e) => return Err(Provider(e)), out;
      case Ok(after) =>
        if c.budget.Exceeded(after) { return Err(ContextBudgetExceeded), out; }
        var compacted :=
          if removedMessages > 0 then Some(Range(compactedStart, compactedStart + removedMessages)) else None;
        return Ok(Some(CompactionEvent(
                         cause, DeterministicTrim, removedTurns, summaryFailed, before, after, None, compacted))), out;
    }
  }
}
