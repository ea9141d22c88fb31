/** The messages one model round adds: the assistant message assembled from the provider
    stream, and the tool results that answer its calls. */
module Turn {
  import opened Wrappers
  import opened AgentTypes
  import opened Pairing
  import opened Input

  // ---------------------------------------------------------------- the provider stream

  function Text(got: seq<ProviderEvent>): string {
    if got == [] then ""
    else
      var e := got[|got| - 1];
      Text(got[..|got| - 1]) + (if e.Delta? then e.delta else "")
  }

  function Calls(got: seq<ProviderEvent>): seq<ToolCall> {
    if got == [] then []
    else
      var e := got[|got| - 1];
      Calls(got[..|got| - 1]) + (if e.Requested? then [e.call] else [])
  }

  function Reports(got: seq<ProviderEvent>): seq<Usage> {
    if got == [] then []
    else
      var e := got[|got| - 1];
      Reports(got[..|got| - 1]) + (if e.Metered? then [e.usage] else [])
  }

  function AddEvent(bs: seq<Block>, e: ProviderEvent): seq<Block> {
    match e
    case Delta(d) =>
      if bs != [] && bs[|bs| - 1].TextBlock? then bs[..|bs| - 1] + [TextBlock(bs[|bs| - 1].text + d)]
      else bs + [TextBlock(d)]
    case Requested(call) => bs + [CallBlock(call)]
    case Continued(placement, value) => bs + [ContinuationBlock(placement, value)]
    case _ => bs
  }

  /** Blocks of the assistant message after the events `got`. */
  function AssistantBlocks(got: seq<ProviderEvent>): seq<Block> {
    if got == [] then [] else AddEvent(AssistantBlocks(got[..|got| - 1]), got[|got| - 1])
  }

  function AssistantMessage(got: seq<ProviderEvent>): Message {
    Message(Assistant, AssistantBlocks(got))
  }

  lemma {:induction false} OneMoreEvent(got: seq<ProviderEvent>, e: ProviderEvent)
    ensures Text(got + [e]) == Text(got) + (if e.Delta? then e.delta else "")
    ensures Calls(got + [e]) == Calls(got) + (if e.Requested? then [e.call] else [])
    ensures Reports(got + [e]) == Reports(got) + (if e.Metered? then [e.usage] else [])
    ensures AssistantBlocks(got + [e]) == AddEvent(AssistantBlocks(got), e)
  {
    assert (got + [e])[..|got|] == got;
  }

  /** Content in units that cannot be merged: bytes of text, and whole other parts. */
  datatype Atom = Byte(b: char) | Part(block: Block)

  function BytesOf(text: string): seq<Atom> {
    seq(|text|, i requires 0 <= i < |text| => Byte(text[i]))
  }

  function AtomsOfBlock(b: Block): seq<Atom> {
    if b.TextBlock? then BytesOf(b.text) else [Part(b)]
  }

  function AtomsOfBlocks(bs: seq<Block>): seq<Atom> {
    if bs == [] then [] else AtomsOfBlocks(bs[..|bs| - 1]) + AtomsOfBlock(bs[|bs| - 1])
  }

  lemma {:induction false} AtomsSnoc(bs: seq<Block>, b: Block)
    ensures AtomsOfBlocks(bs + [b]) == AtomsOfBlocks(bs) + AtomsOfBlock(b)
  {
    assert (bs + [b])[..|bs|] == bs;
  }

  function AtomsOfEvent(e: ProviderEvent): seq<Atom> {
    match e
    case Delta(d) => BytesOf(d)
    case Requested(call) => [Part(CallBlock(call))]
    case Continued(placement, value) => [Part(ContinuationBlock(placement, value))]
    case _ => []
  }

  function AtomsOfEvents(got: seq<ProviderEvent>): seq<Atom> {
    if got == [] then [] else AtomsOfEvents(got[..|got| - 1]) + AtomsOfEvent(got[|got| - 1])
  }

  predicate NoAdjacentText(bs: seq<Block>) {
    forall i :: 0 < i < |bs| ==> !(bs[i - 1].TextBlock? && bs[i].TextBlock?)
  }

  lemma {:induction false} AddEventKeepsContent(bs: seq<Block>, e: ProviderEvent)
    requires NoAdjacentText(bs)
    ensures AtomsOfBlocks(AddEvent(bs, e)) == AtomsOfBlocks(bs) + AtomsOfEvent(e)
    ensures NoAdjacentText(AddEvent(bs, e))
  {
    hide AtomsOfBlocks;
    var bs' := AddEvent(bs, e);
    if e.Delta? && bs != [] && bs[|bs| - 1].TextBlock? {
      var front, last := bs[..|bs| - 1], bs[|bs| - 1];
      assert bs == front + [last];
      AtomsSnoc(front, last);
      AtomsSnoc(front, TextBlock(last.text + e.delta));
      assert BytesOf(last.text + e.delta) == BytesOf(last.text) + BytesOf(e.delta);
    } else if e.Delta? || e.Requested? || e.Continued? {
      AtomsSnoc(bs, bs'[|bs|]);
    }
  }

  /** The assistant message is the event stream with adjacent text merged and nothing else
      changed: same content in the same order, and no two text blocks in a row. */
  lemma {:induction false} AssistantIsMergedStream(got: seq<ProviderEvent>)
    ensures AtomsOfBlocks(AssistantBlocks(got)) == AtomsOfEvents(got)
    ensures NoAdjacentText(AssistantBlocks(got))
  {
    hide AddEvent, AtomsOfEvent, NoAdjacentText;
    if got == [] {
      NothingIsMerged();
    } else {
      AssistantIsMergedStream(got[..|got| - 1]);
      AddEventKeepsContent(AssistantBlocks(got[..|got| - 1]), got[|got| - 1]);
    }
  }

  lemma {:induction false} NothingIsMerged()
    ensures NoAdjacentText([])
  {
  }

  function TextOfBlocks(bs: seq<Block>): string {
    if bs == [] then ""
    else TextOfBlocks(bs[..|bs| - 1]) + (if bs[|bs| - 1].TextBlock? then bs[|bs| - 1].text else "")
  }

  lemma {:induction false} TextSnoc(bs: seq<Block>, b: Block)
    ensures TextOfBlocks(bs + [b]) == TextOfBlocks(bs) + (if b.TextBlock? then b.text else "")
  {
    assert (bs + [b])[..|bs|] == bs;
  }

  lemma {:induction false} AddEventText(bs: seq<Block>, e: ProviderEvent)
    ensures TextOfBlocks(AddEvent(bs, e)) == TextOfBlocks(bs) + (if e.Delta? then e.delta else "")
  {
    hide TextOfBlocks;
    var bs' := AddEvent(bs, e);
    if e.Delta? && bs != [] && bs[|bs| - 1].TextBlock? {
      var front, last := bs[..|bs| - 1], bs[|bs| - 1];
      assert bs == front + [last];
      TextSnoc(front, last);
      TextSnoc(front, TextBlock(last.text + e.delta));
    } else if e.Delta? || e.Requested? || e.Continued? {
      TextSnoc(bs, bs'[|bs|]);
    }
  }

  /** The text blocks of the message concatenate to the text reported for the round. */
  lemma {:induction false} AssistantText(got: seq<ProviderEvent>)
    ensures TextOfBlocks(AssistantBlocks(got)) == Text(got)
  {
    hide AddEvent;
    if got != [] {
      AssistantText(got[..|got| - 1]);
      AddEventText(AssistantBlocks(got[..|got| - 1]), got[|got| - 1]);
    }
  }

  function IdSeq(calls: seq<ToolCall>): seq<string> {
    seq(|calls|, i requires 0 <= i < |calls| => calls[i].id)
  }

  function IdSet(calls: seq<ToolCall>): set<string> {
    set c | c in calls :: c.id
  }

  lemma {:induction false} CallIdsSnoc(bs: seq<Block>, b: Block)
    ensures CallIds(bs + [b]) == CallIds(bs) + (if b.CallBlock? then [b.call.id] else [])
  {
    CallIdsConcat(bs, [b]);
    assert [b][1..] == [];
    assert CallIds([b]) == if b.CallBlock? then [b.call.id] else [];
  }

  lemma {:induction false} AddEventCalls(bs: seq<Block>, e: ProviderEvent)
    ensures CallIds(AddEvent(bs, e)) == CallIds(bs) + (if e.Requested? then [e.call.id] else [])
  {
    hide CallIds;
    if e.Delta? && bs != [] && bs[|bs| - 1].TextBlock? {
      var front, last := bs[..|bs| - 1], bs[|bs| - 1];
      assert bs == front + [last];
      CallIdsSnoc(front, last);
      CallIdsSnoc(front, TextBlock(last.text + e.delta));
    } else if e.Delta? || e.Requested? || e.Continued? {
      CallIdsSnoc(bs, AddEvent(bs, e)[|bs|]);
    }
  }

  /** The call blocks of the message are the requested calls, in order; it holds no result. */
  lemma {:induction false} AssistantCalls(got: seq<ProviderEvent>)
    ensures CallIds(AssistantBlocks(got)) == IdSeq(Calls(got))
    ensures var bs := AssistantBlocks(got);
            forall i :: 0 <= i < |bs| ==>
              !bs[i].ResultBlock? && (bs[i].CallBlock? ==> bs[i].call in Calls(got))
  {
    hide CallIds;
    if got == [] {
      CallIdsOfNothing();
    } else {
      var init, e := got[..|got| - 1], got[|got| - 1];
      AssistantCalls(init);
      AddEventCalls(AssistantBlocks(init), e);
      assert Calls(got) == Calls(init) + (if e.Requested? then [e.call] else []);
    }
  }

  lemma {:induction false} CallIdsOfNothing()
    ensures CallIds([]) == []
  {
  }

  // ---------------------------------------------------------------- results

  function ResultMessage(call: ToolCall, output: ToolOutput): Message {
    Message(Tool, [ResultBlock(ToolResult(call.id, Some(call.name), output))])
  }

  /** `terminal_tool_message`. */
  function TerminalMessage(call: ToolCall, outcome: ExecutionOutcome): Message {
    ResultMessage(call, ToolOutput(Some(OutcomeText(outcome)), None))
  }

  function OutcomeText(outcome: ExecutionOutcome): string {
    match outcome
    case NotStarted => "Tool execution did not start because the run stopped."
    case Failed => "Tool execution failed with a known outcome."
    case Unknown => "Tool execution outcome is unknown and the operation was not retried."
  }

  const MARKER := TextMessage(Assistant, "The tool turn ended without another model response.")

  function NotStartedMessages(calls: seq<ToolCall>): seq<Message> {
    seq(|calls|, i requires 0 <= i < |calls| => TerminalMessage(calls[i], NotStarted))
  }

  /** The transcript of a tool turn that stops early: every call not yet settled did not start. */
  function Stopped(turn: seq<Message>, rest: seq<ToolCall>): seq<Message> {
    turn + NotStartedMessages(rest) + [MARKER]
  }

  predicate ResultFor(m: Message, call: ToolCall) {
    && m.role.Tool?
    && |m.blocks| == 1
    && m.blocks[0].ResultBlock?
    && m.blocks[0].result.callId == call.id
    && m.blocks[0].result.name == Some(call.name)
  }

  /** One result per call, in the order of the calls. */
  predicate Answered(calls: seq<ToolCall>, results: seq<Message>) {
    |results| == |calls| && forall i :: 0 <= i < |calls| ==> ResultFor(results[i], calls[i])
  }

  predicate FreshCalls(calls: seq<ToolCall>, used: set<string>) {
    Distinct(IdSeq(calls)) && forall i :: 0 <= i < |calls| ==> calls[i].id !in used
  }

  // ---------------------------------------------------------------- ledger of a turn

  lemma {:induction false} DistinctTail(ids: seq<string>)
    requires Distinct(ids) && ids != []
    ensures Distinct(ids[1..]) && ids[0] !in ids[1..]
  {
    var rest := ids[1..];
    assert forall i :: 0 <= i < |rest| ==> rest[i] == ids[i + 1];
  }

  lemma {:induction false} CallsTail(calls: seq<ToolCall>, results: seq<Message>, used: set<string>)
    requires calls != [] && Answered(calls, results) && FreshCalls(calls, used)
    ensures Answered(calls[1..], results[1..])
    ensures FreshCalls(calls[1..], used + {calls[0].id})
    ensures IdSet(calls) == {calls[0].id} + IdSet(calls[1..])
  {
    DistinctTail(IdSeq(calls));
    var rest := calls[1..];
    assert IdSeq(calls)[1..] == IdSeq(rest);
    forall i | 0 <= i < |rest| ensures ResultFor(results[1..][i], rest[i]) && rest[i].id !in used + {calls[0].id} {
      assert ResultFor(results[i + 1], calls[i + 1]);
      assert IdSeq(rest)[i] in IdSeq(rest);
    }
    assert calls == [calls[0]] + rest;
  }

  lemma {:induction false} ScanNewCalls(l: Ledger, bs: seq<Block>)
    requires l.Ledger?
    requires forall i :: 0 <= i < |bs| ==> !bs[i].ResultBlock?
    requires Distinct(CallIds(bs)) && forall id :: id in CallIds(bs) ==> id !in l.calls
    ensures Scan(l, bs) == Ledger(l.calls + Ids(bs), l.results)
    decreases |bs|
  {
    if bs == [] {
    } else {
      hide Distinct;
      var rest := bs[1..];
      var ids := CallIds(bs);
      if bs[0].CallBlock? {
        var id := bs[0].call.id;
        assert ids[0] == id && ids[1..] == CallIds(rest);
        DistinctTail(ids);
        assert id in ids && forall x :: x in CallIds(rest) ==> x in ids;
        ScanNewCalls(Ledger(l.calls + {id}, l.results), rest);
        assert Ids(bs) == {id} + Ids(rest);
        assert l.calls + {id} + Ids(rest) == l.calls + Ids(bs);
      } else {
        assert ids == CallIds(rest);
        ScanNewCalls(l, rest);
        assert Ids(bs) == Ids(rest);
      }
    }
  }

  lemma {:induction false} ScanAnswers(l: Ledger, calls: seq<ToolCall>, results: seq<Message>)
    requires l.Ledger? && Answered(calls, results) && FreshCalls(calls, l.results)
    requires IdSet(calls) <= l.calls
    ensures Scan(l, Blocks(results)) == Ledger(l.calls, l.results + IdSet(calls))
    decreases |calls|
  {
    if calls == [] {
      assert IdSet(calls) == {};
    } else {
      var c := calls[0];
      assert ResultFor(results[0], c);
      assert calls[0].id !in l.results;
      hide Answered, FreshCalls, IdSet;
      CallsTail(calls, results, l.results);
      var b := results[0].blocks[0];
      assert results[0].blocks == [b];
      assert Blocks(results)[0] == b && Blocks(results)[1..] == Blocks(results[1..]);
      ScanAnswers(Ledger(l.calls, l.results + {c.id}), calls[1..], results[1..]);
      assert l.results + {c.id} + IdSet(calls[1..]) == l.results + IdSet(calls);
    }
  }

  lemma {:induction false} IdsAreIdSet(calls: seq<ToolCall>)
    ensures (set id | id in IdSeq(calls)) == IdSet(calls)
  {
    forall id | id in IdSeq(calls) ensures id in IdSet(calls) {
      var i :| 0 <= i < |calls| && IdSeq(calls)[i] == id;
      assert calls[i] in calls;
    }
    forall id | id in IdSet(calls) ensures id in IdSeq(calls) {
      var c :| c in calls && c.id == id;
      var i :| 0 <= i < |calls| && calls[i] == c;
      assert IdSeq(calls)[i] == id;
    }
  }

  /** A turn of fresh calls, each answered, closes its own calls and opens nothing else; a
      closing marker does not matter. */
  lemma {:induction false} TurnBalances(open: set<string>, got: seq<ProviderEvent>, results: seq<Message>,
                                        marker: seq<Message>)
    requires FreshCalls(Calls(got), open) && Answered(Calls(got), results)
    requires marker == [] || marker == [MARKER]
    ensures Scan(Ledger(open, open), Blocks([AssistantMessage(got)] + results + marker)) ==
            Ledger(open + IdSet(Calls(got)), open + IdSet(Calls(got)))
    ensures Ids(Blocks([AssistantMessage(got)] + results + marker)) == IdSet(Calls(got))
  {
    var calls, a := Calls(got), [AssistantMessage(got)];
    var l := Ledger(open, open);
    hide Calls, Scan, AssistantBlocks, CallIds, Ids, Answered;
    BlocksConcat(a + results, marker);
    BlocksConcat(a, results);
    assert a[1..] == [];
    assert Blocks(a) == AssistantBlocks(got);
    AssistantCalls(got);
    IdsAreIdSet(calls);
    IdsUnfold(Blocks(a));
    forall id | id in IdSeq(calls) ensures id !in open {
      var i :| 0 <= i < |calls| && IdSeq(calls)[i] == id;
    }
    ScanNewCalls(l, Blocks(a));
    var l1 := Ledger(open + IdSet(calls), open);
    ScanAnswers(l1, calls, results);
    ScanConcat(l, Blocks(a), Blocks(results));
    ScanConcat(l, Blocks(a) + Blocks(results), Blocks(marker));
    MarkerIsInert(Ledger(open + IdSet(calls), open + IdSet(calls)), marker);
    CallIdsConcat(Blocks(a) + Blocks(results), Blocks(marker));
    CallIdsConcat(Blocks(a), Blocks(results));
    ResultsCallNothing(calls, results);
  }

  lemma {:induction false} IdsUnfold(bs: seq<Block>)
    ensures Ids(bs) == set id | id in CallIds(bs)
  {
  }

  lemma {:induction false} MarkerIsInert(l: Ledger, marker: seq<Message>)
    requires marker == [] || marker == [MARKER]
    ensures Scan(l, Blocks(marker)) == l && Ids(Blocks(marker)) == {}
  {
    if marker != [] {
      assert marker[1..] == [];
      assert Blocks(marker) == MARKER.blocks;
      assert MARKER.blocks[1..] == [];
      assert Scan(l, MARKER.blocks) == Post(l, MARKER.blocks[0]);
      assert CallIds(MARKER.blocks) == [];
    }
  }

  lemma {:induction false} ResultsCallNothing(calls: seq<ToolCall>, results: seq<Message>)
    requires Answered(calls, results)
    ensures Ids(Blocks(results)) == {}
    decreases |calls|
  {
    if calls != [] {
      forall i | 0 <= i < |calls[1..]| ensures ResultFor(results[1..][i], calls[1..][i]) {
        assert ResultFor(results[i + 1], calls[i + 1]);
      }
      ResultsCallNothing(calls[1..], results[1..]);
      var bs := results[0].blocks;
      assert ResultFor(results[0], calls[0]) && bs[1..] == [];
      assert CallIds(bs) == [];
      CallIdsConcat(bs, Blocks(results[1..]));
    }
  }

  /** Every message of such a turn obeys the role and size rules of `validate_input`, and none is
      a user or system message. */
  lemma {:induction false} TurnRoles(got: seq<ProviderEvent>, results: seq<Message>, marker: seq<Message>, limit: nat)
    requires Answered(Calls(got), results)
    requires marker == [] || marker == [MARKER]
    requires forall i :: 0 <= i < |Calls(got)| ==> |Calls(got)[i].arguments| <= limit
    ensures var turn := [AssistantMessage(got)] + results + marker;
            forall i :: 0 <= i < |turn| ==>
              (turn[i].role.Assistant? || turn[i].role.Tool?) && RoleOk(turn[i]) && SizesOk(turn[i], limit)
  {
    hide Calls, AssistantBlocks;
    AssistantCalls(got);
    var turn := [AssistantMessage(got)] + results + marker;
    forall i | 0 <= i < |turn|
      ensures (turn[i].role.Assistant? || turn[i].role.Tool?) && RoleOk(turn[i]) && SizesOk(turn[i], limit)
    {
      if 0 < i <= |results| {
        assert ResultFor(results[i - 1], Calls(got)[i - 1]);
      }
    }
  }
}
