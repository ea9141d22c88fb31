/** Validation of the transcript and tools a run starts from. */
module Input {
  import opened Wrappers
  import opened AgentTypes
  import opened Pairing

  datatype AgentInput = AgentInput(messages: seq<Message>, tools: seq<string>)

  /** The blocks a message of each role may hold. */
  predicate RoleOk(m: Message) {
    match m.role
    case System => forall i :: 0 <= i < |m.blocks| ==> m.blocks[i].TextBlock?
    case User => forall i :: 0 <= i < |m.blocks| ==> m.blocks[i].TextBlock?
    case Assistant => forall i :: 0 <= i < |m.blocks| ==> !m.blocks[i].ResultBlock?
    case Tool => |m.blocks| == 1 && m.blocks[0].ResultBlock?
  }

  predicate SizesOk(m: Message, maxArgumentBytes: nat) {
    m.role.Assistant? ==>
      forall i :: 0 <= i < |m.blocks| && m.blocks[i].CallBlock? ==> |m.blocks[i].call.arguments| <= maxArgumentBytes
  }

  predicate PlacedAt(bs: seq<Block>, i: nat)
    requires i < |bs|
  {
    bs[i].ContinuationBlock? && bs[i].placement.AttachedToPreviousPart? ==>
      i > 0 && (bs[i - 1].TextBlock? || bs[i - 1].CallBlock?)
  }

  predicate PlacementOk(m: Message) {
    m.role.Assistant? ==> forall i :: 0 <= i < |m.blocks| ==> PlacedAt(m.blocks, i)
  }

  predicate MessageOk(m: Message, maxArgumentBytes: nat) {
    RoleOk(m) && SizesOk(m, maxArgumentBytes) && PlacementOk(m)
  }

  predicate HasUser(ms: seq<Message>) {
    exists i :: 0 <= i < |ms| && ms[i].role.User?
  }

  predicate Distinct(names: seq<string>) {
    forall i, j :: 0 <= i < j < |names| ==> names[i] != names[j]
  }

  /** What `validate_input` promises of the input it lets through. */
  predicate ValidInput(input: AgentInput, limits: Limits) {
    && HasUser(input.messages)
    && Distinct(input.tools)
    && (forall i :: 0 <= i < |input.messages| ==> MessageOk(input.messages[i], limits.maxToolArgumentBytes))
    && Paired(input.messages)
  }

  /** The error names a clause that the message, or the pairing, really breaks. */
  predicate Blames(e: AgentError, m: Message, limits: Limits, clash: bool) {
    match e
    case DuplicateToolCall(id) =>
      clash && exists i :: 0 <= i < |m.blocks| && m.blocks[i].CallBlock? && m.blocks[i].call.id == id
    case ToolArgumentsTooLarge(id, limit) =>
      limit == limits.maxToolArgumentBytes &&
      exists i :: 0 <= i < |m.blocks| && m.blocks[i].CallBlock? && m.blocks[i].call.id == id
                  && |m.blocks[i].call.arguments| > limit
    case InvalidInput(_) => !RoleOk(m) || !PlacementOk(m) || (m.role.Tool? && clash)
    case _ => false
  }

  /** The block loop of `validate_input` over one assistant message. */
  method CheckAssistant(m: Message, limits: Limits, before: Ledger) returns (r: Result<Ledger, AgentError>)
    requires m.role.Assistant? && before.Ledger?
    ensures r.Ok? <==> MessageOk(m, limits.maxToolArgumentBytes) && Scan(before, m.blocks).Ledger?
    ensures r.Ok? ==> r.value == Scan(before, m.blocks)
    ensures r.Err? ==> Blames(r.error, m, limits, Scan(before, m.blocks).Clash?)
  {
    var bs := m.blocks;
    var calls := before.calls;
    for i := 0 to |bs|
      invariant forall k :: 0 <= k < i ==> !bs[k].ResultBlock? && PlacedAt(bs, k)
      invariant forall k :: 0 <= k < i && bs[k].CallBlock? ==> |bs[k].call.arguments| <= limits.maxToolArgumentBytes
      invariant Scan(before, bs) == Scan(Ledger(calls, before.results), bs[i..])
    {
      assert bs[i..][0] == bs[i] && bs[i..][1..] == bs[i + 1..];
      match bs[i] {
        case TextBlock(_) =>
        case CallBlock(call) =>
          if |call.arguments| > limits.maxToolArgumentBytes {
            return Err(ToolArgumentsTooLarge(call.id, limits.maxToolArgumentBytes));
          }
          if call.id in calls {
            ScanClash(bs[i + 1..]);
            return Err(DuplicateToolCall(call.id));
          }
          calls := calls + {call.id};
        case ResultBlock(_) =>
          return Err(InvalidInput("assistant message contains a tool result"));
        case ContinuationBlock(placement, _) =>
          if placement.AttachedToPreviousPart? && !(i > 0 && (bs[i - 1].TextBlock? || bs[i - 1].CallBlock?)) {
            assert !PlacedAt(bs, i);
            return Err(InvalidInput("attached provider continuation has no preceding content part"));
          }
      }
    }
    return Ok(Ledger(calls, before.results));
  }

  lemma {:induction false} ScanSplit(ms: seq<Message>, i: nat)
    requires i < |ms|
    ensures Scan(EMPTY_LEDGER, Blocks(ms[..i + 1])) == Scan(Scan(EMPTY_LEDGER, Blocks(ms[..i])), ms[i].blocks)
    ensures Scan(EMPTY_LEDGER, Blocks(ms[..i + 1])).Clash? ==> !Paired(ms)
  {
    hide Scan;
    assert ms[..i + 1] == ms[..i] + [ms[i]];
    BlocksConcat(ms[..i], [ms[i]]);
    assert [ms[i]][1..] == [];
    assert Blocks([ms[i]]) == ms[i].blocks;
    ScanConcat(EMPTY_LEDGER, Blocks(ms[..i]), ms[i].blocks);
    assert ms == ms[..i + 1] + ms[i + 1..];
    BlocksConcat(ms[..i + 1], ms[i + 1..]);
    ScanConcat(EMPTY_LEDGER, Blocks(ms[..i + 1]), Blocks(ms[i + 1..]));
    ScanClash(Blocks(ms[i + 1..]));
  }

  predicate Unanswered(ms: seq<Message>, id: string) {
    var l := Scan(EMPTY_LEDGER, Blocks(ms));
    l.Ledger? && id in l.calls && id !in l.results
  }

  /** One message: its blocks by role, and the ledger it leaves. */
  method CheckMessage(m: Message, limits: Limits, before: Ledger) returns (r: Result<Ledger, AgentError>)
    requires before.Ledger?
    ensures r.Ok? <==> MessageOk(m, limits.maxToolArgumentBytes) && Scan(before, m.blocks).Ledger?
    ensures r.Ok? ==> r.value == Scan(before, m.blocks)
    ensures r.Err? ==> Blames(r.error, m, limits, Scan(before, m.blocks).Clash?)
  {
    match m.role {
      case System => r := CheckTextOnly(m, limits, before);
      case User => r := CheckTextOnly(m, limits, before);
      case Assistant => r := CheckAssistant(m, limits, before);
      case Tool =>
        if !(|m.blocks| == 1 && m.blocks[0].ResultBlock?) {
          return Err(InvalidInput("tool message must contain exactly one tool result"));
        }
        assert m.blocks[1..] == [];
        assert Scan(before, m.blocks) == Post(before, m.blocks[0]);
        var id := m.blocks[0].result.callId;
        if id !in before.calls || id in before.results {
          return Err(InvalidInput("tool result is missing, duplicated, or out of order"));
        }
        return Ok(Ledger(before.calls, before.results + {id}));
    }
  }

  method CheckTextOnly(m: Message, limits: Limits, before: Ledger) returns (r: Result<Ledger, AgentError>)
    requires before.Ledger? && (m.role.System? || m.role.User?)
    ensures r.Ok? <==> MessageOk(m, limits.maxToolArgumentBytes)
    ensures r.Ok? ==> r.value == before && Scan(before, m.blocks) == before
    ensures r.Err? ==> Blames(r.error, m, limits, false)
  {
    if exists i :: 0 <= i < |m.blocks| && !m.blocks[i].TextBlock? {
      return Err(InvalidInput("system/user messages may contain only text"));
    }
    InertScan(before, m.blocks);
    return Ok(before);
  }

  /** The message loop of `validate_input`; a rejection blames a message, or a call left open. */
  method CheckMessages(ms: seq<Message>, limits: Limits) returns (r: Option<AgentError>)
    ensures r.None? <==>
            (forall i :: 0 <= i < |ms| ==> MessageOk(ms[i], limits.maxToolArgumentBytes)) && Paired(ms)
    ensures r.Some? ==>
              || (r.value.InvalidInput? && exists id :: Unanswered(ms, id))
              || exists i, clash :: 0 <= i < |ms| && (clash ==> !Paired(ms)) && Blames(r.value, ms[i], limits, clash)
  {
    hide Blocks, MessageOk, Blames, Scan;
    var l := EMPTY_LEDGER;
    BlocksOfNothing(ms);
    for n := 0 to |ms|
      invariant l.Ledger? && l == Scan(EMPTY_LEDGER, Blocks(ms[..n]))
      invariant forall i :: 0 <= i < n ==> MessageOk(ms[i], limits.maxToolArgumentBytes)
    {
      ScanSplit(ms, n);
      var checked := CheckMessage(ms[n], limits, l);
      if checked.Err? {
        assert Blames(checked.error, ms[n], limits, Scan(l, ms[n].blocks).Clash?);
        return Some(checked.error);
      }
      l := checked.value;
    }
    assert ms[..|ms|] == ms;
    ScanGrows(EMPTY_LEDGER, Blocks(ms));
    if exists id :: id in l.calls && id !in l.results {
      assert exists id :: Unanswered(ms, id) by {
        var id :| id in l.calls && id !in l.results;
        assert Unanswered(ms, id);
      }
      return Some(InvalidInput("tool call has no result"));
    }
    return None;
  }

  lemma {:induction false} BlocksOfNothing(ms: seq<Message>)
    ensures Scan(EMPTY_LEDGER, Blocks(ms[..0])) == EMPTY_LEDGER
  {
    assert ms[..0] == [];
  }

  /** `validate_input` lets an input through exactly when it is valid. */
  method ValidateInput(input: AgentInput, limits: Limits) returns (r: Option<AgentError>)
    ensures r.None? <==> ValidInput(input, limits)
  {
    hide Paired, MessageOk, Blames, Unanswered;
    if input.messages == [] { return Some(InvalidInput("at least one message is required")); }
    if !HasUser(input.messages) { return Some(InvalidInput("at least one user message is required")); }
    var names: set<string> := {};
    for i := 0 to |input.tools|
      invariant forall k :: 0 <= k < i ==> input.tools[k] in names
      invariant forall name :: name in names ==> exists k :: 0 <= k < i && input.tools[k] == name
      invariant Distinct(input.tools[..i])
    {
      if input.tools[i] in names {
        return Some(InvalidInput("duplicate tool definition"));
      }
      names := names + {input.tools[i]};
    }
    assert input.tools[..|input.tools|] == input.tools;
    r := CheckMessages(input.messages, limits);
  }

  /** A block that an assistant message may hold at position k. */
  ghost predicate PlainBlock(bs: seq<Block>, k: nat, limit: nat)
    requires k < |bs|
  {
    match bs[k]
    case TextBlock(_) => true
    case CallBlock(call) => |call.arguments| <= limit
    case ResultBlock(_) => false
    case ContinuationBlock(placement, _) =>
      placement == StandalonePart || (k > 0 && (bs[k - 1].TextBlock? || bs[k - 1].CallBlock?))
  }

  /** A message as its role allows it. */
  ghost predicate PlainMessage(m: Message, limit: nat) {
    match m.role
    case System => forall k :: 0 <= k < |m.blocks| ==> m.blocks[k].TextBlock?
    case User => forall k :: 0 <= k < |m.blocks| ==> m.blocks[k].TextBlock?
    case Assistant => forall k :: 0 <= k < |m.blocks| ==> PlainBlock(m.blocks, k, limit)
    case Tool => |m.blocks| == 1 && m.blocks[0].ResultBlock?
  }

  lemma {:induction false} MessageInPlainTerms(m: Message, limit: nat)
    ensures MessageOk(m, limit) <==> PlainMessage(m, limit)
  {
    if m.role.Assistant? {
      if MessageOk(m, limit) {
        forall k | 0 <= k < |m.blocks| ensures PlainBlock(m.blocks, k, limit) { assert PlacedAt(m.blocks, k); }
      }
      if PlainMessage(m, limit) {
        forall k | 0 <= k < |m.blocks|
          ensures !m.blocks[k].ResultBlock? && PlacedAt(m.blocks, k)
          ensures m.blocks[k].CallBlock? ==> |m.blocks[k].call.arguments| <= limit
        {
          assert PlainBlock(m.blocks, k, limit);
        }
      }
    }
  }

  /** Calls and results that are paired: no id called twice or answered twice, each result after its call, and each
      call answered later. */
  ghost predicate PlainPairs(bs: seq<Block>) {
    && (forall i, j :: 0 <= i < j < |bs| ==>
          && (bs[i].CallBlock? && bs[j].CallBlock? ==> bs[i].call.id != bs[j].call.id)
          && (bs[i].ResultBlock? && bs[j].ResultBlock? ==> bs[i].result.callId != bs[j].result.callId))
    && (forall j :: 0 <= j < |bs| && bs[j].ResultBlock? ==>
          exists i :: 0 <= i < j && bs[i].CallBlock? && bs[i].call.id == bs[j].result.callId)
    && (forall i :: 0 <= i < |bs| && bs[i].CallBlock? ==>
          exists j :: i < j < |bs| && bs[j].ResultBlock? && bs[j].result.callId == bs[i].call.id)
  }

  lemma {:induction false} PairsInPlainTerms(bs: seq<Block>)
    ensures Orderly(bs) && EveryCallAnswered(bs) <==> PlainPairs(bs)
  {
    if Orderly(bs) && EveryCallAnswered(bs) {
      forall j | 0 <= j < |bs| && bs[j].ResultBlock?
        ensures exists i :: 0 <= i < j && bs[i].CallBlock? && bs[i].call.id == bs[j].result.callId
      {
        var i :| 0 <= i < j && Answers(bs[i], bs[j]);
      }
      forall i, j | 0 <= i < j < |bs|
        ensures bs[i].CallBlock? && bs[j].CallBlock? ==> bs[i].call.id != bs[j].call.id
        ensures bs[i].ResultBlock? && bs[j].ResultBlock? ==> bs[i].result.callId != bs[j].result.callId
      {
        assert !SameCall(bs[i], bs[j]) && !SameResult(bs[i], bs[j]);
      }
      forall i | 0 <= i < |bs| && bs[i].CallBlock?
        ensures exists j :: i < j < |bs| && bs[j].ResultBlock? && bs[j].result.callId == bs[i].call.id
      {
        var j :| i < j < |bs| && Answers(bs[i], bs[j]);
      }
    }
    if PlainPairs(bs) {
      forall j | 0 <= j < |bs| && bs[j].ResultBlock?
        ensures exists i :: 0 <= i < j && Answers(bs[i], bs[j])
      {
        var i :| 0 <= i < j && bs[i].CallBlock? && bs[i].call.id == bs[j].result.callId;
        assert Answers(bs[i], bs[j]);
      }
      forall i | 0 <= i < |bs| && bs[i].CallBlock?
        ensures exists j :: i < j < |bs| && Answers(bs[i], bs[j])
      {
        var j :| i < j < |bs| && bs[j].ResultBlock? && bs[j].result.callId == bs[i].call.id;
        assert Answers(bs[i], bs[j]);
      }
    }
  }

  /** What a valid input is, in plain terms: a user message, distinct tools, messages as their roles allow, and calls
      paired with results. */
  lemma {:induction false} ValidInPlainTerms(input: AgentInput, limits: Limits)
    ensures var ms := input.messages;
            ValidInput(input, limits) <==>
            && (exists i :: 0 <= i < |ms| && ms[i].role == User)
            && (forall i, j :: 0 <= i < j < |input.tools| ==> input.tools[i] != input.tools[j])
            && (forall i :: 0 <= i < |ms| ==> PlainMessage(ms[i], limits.maxToolArgumentBytes))
            && PlainPairs(Blocks(ms))
  {
    hide Paired, Blocks, MessageOk, PlainMessage, PlainPairs, Orderly, EveryCallAnswered;
    PairedMeaning(input.messages);
    PairsInPlainTerms(Blocks(input.messages));
    forall m ensures MessageOk(m, limits.maxToolArgumentBytes) <==> PlainMessage(m, limits.maxToolArgumentBytes) {
      MessageInPlainTerms(m, limits.maxToolArgumentBytes);
    }
  }

  /** The blocks of a transcript are those of its messages, in order. */
  lemma {:induction false} BlocksLaws(a: seq<Message>, m: Message, b: seq<Message>)
    ensures Blocks([]) == [] && Blocks([m]) == m.blocks && Blocks(a + b) == Blocks(a) + Blocks(b)
  {
    BlocksConcat(a, b);
    assert [m][1..] == [];
  }
}
