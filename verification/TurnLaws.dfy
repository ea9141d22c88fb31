/** The messages of a round in plain terms: laws that leave no freedom in how they are built. */
module TurnLaws {
  import opened Wrappers
  import opened AgentTypes
  import opened Turn

  // ---------------------------------------------------------------- the provider stream

  /** The text of a stream: of one event, and of two parts. */
  lemma {:induction false} TextLaws(a: seq<ProviderEvent>, b: seq<ProviderEvent>, e: ProviderEvent)
    ensures Text([]) == ""
    ensures Text([e]) == match e case Delta(d) => d case _ => ""
    ensures Text(a + b) == Text(a) + Text(b)
    decreases |b|
  {
    Single(e);
    if b == [] {
      assert a + b == a;
    } else {
      var init, last := b[..|b| - 1], b[|b| - 1];
      assert a + b == (a + init) + [last] && b == init + [last];
      TextLaws(a, init, e);
      OneMoreEvent(a + init, last);
      OneMoreEvent(init, last);
    }
  }

  lemma {:induction false} Single(e: ProviderEvent)
    ensures Text([e]) == match e case Delta(d) => d case _ => ""
    ensures Calls([e]) == match e case Requested(call) => [call] case _ => []
    ensures Reports([e]) == match e case Metered(usage) => [usage] case _ => []
  {
    assert [e] == [] + [e];
    OneMoreEvent([], e);
  }

  /** The calls of a stream. */
  lemma {:induction false} CallsLaws(a: seq<ProviderEvent>, b: seq<ProviderEvent>, e: ProviderEvent)
    ensures Calls([]) == []
    ensures Calls([e]) == match e case Requested(call) => [call] case _ => []
    ensures Calls(a + b) == Calls(a) + Calls(b)
    decreases |b|
  {
    Single(e);
    if b == [] {
      assert a + b == a;
    } else {
      var init, last := b[..|b| - 1], b[|b| - 1];
      assert a + b == (a + init) + [last] && b == init + [last];
      CallsLaws(a, init, e);
      OneMoreEvent(a + init, last);
      OneMoreEvent(init, last);
    }
  }

  /** The usage reports of a stream. */
  lemma {:induction false} ReportsLaws(a: seq<ProviderEvent>, b: seq<ProviderEvent>, e: ProviderEvent)
    ensures Reports([]) == []
    ensures Reports([e]) == match e case Metered(usage) => [usage] case _ => []
    ensures Reports(a + b) == Reports(a) + Reports(b)
    decreases |b|
  {
    Single(e);
    if b == [] {
      assert a + b == a;
    } else {
      var init, last := b[..|b| - 1], b[|b| - 1];
      assert a + b == (a + init) + [last] && b == init + [last];
      ReportsLaws(a, init, e);
      OneMoreEvent(a + init, last);
      OneMoreEvent(init, last);
    }
  }

  // ---------------------------------------------------------------- the assistant message

  /** The block a provider event other than text stands for. */
  ghost predicate IsPart(e: ProviderEvent, b: Block) {
    || (e.Requested? && b == CallBlock(e.call))
    || (e.Continued? && b == ContinuationBlock(e.placement, e.value))
  }

  /** A call or a continuation becomes one block between the blocks of what comes before and after it. */
  lemma {:induction false} BlocksAroundPart(a: seq<ProviderEvent>, e: ProviderEvent, b: seq<ProviderEvent>, part: Block)
    requires IsPart(e, part)
    ensures AssistantBlocks(a + [e] + b) == AssistantBlocks(a) + [part] + AssistantBlocks(b)
    decreases |b|
  {
    var front := AssistantBlocks(a) + [part];
    if b == [] {
      assert a + [e] + b == a + [e] && front + [] == front;
      OneMoreEvent(a, e);
    } else {
      var init, last := b[..|b| - 1], b[|b| - 1];
      assert a + [e] + b == (a + [e] + init) + [last] && b == init + [last];
      BlocksAroundPart(a, e, init, part);
      OneMoreEvent(a + [e] + init, last);
      OneMoreEvent(init, last);
      AddAfter(front, AssistantBlocks(init), last);
    }
  }

  /** Adding an event looks at no block before one that is not text. */
  lemma {:induction false} AddAfter(front: seq<Block>, bs: seq<Block>, e: ProviderEvent)
    requires front != [] && !front[|front| - 1].TextBlock?
    ensures AddEvent(front + bs, e) == front + AddEvent(bs, e)
  {
    var all := front + bs;
    if bs != [] {
      assert all[|all| - 1] == bs[|bs| - 1];
      assert all[..|all| - 1] == front + bs[..|bs| - 1];
    } else {
      assert all == front;
    }
  }

  /** Usage and completion leave no trace in the message. */
  lemma {:induction false} BlocksSkip(a: seq<ProviderEvent>, e: ProviderEvent, b: seq<ProviderEvent>)
    requires e.Metered? || e.Completed?
    ensures AssistantBlocks(a + [e] + b) == AssistantBlocks(a + b)
    decreases |b|
  {
    if b == [] {
      assert a + [e] + b == a + [e] && a + b == a;
      OneMoreEvent(a, e);
    } else {
      var init, last := b[..|b| - 1], b[|b| - 1];
      assert a + [e] + b == (a + [e] + init) + [last] && a + b == (a + init) + [last];
      BlocksSkip(a, e, init);
      OneMoreEvent(a + [e] + init, last);
      OneMoreEvent(a + init, last);
    }
  }

  /** A stretch of text becomes one block with all of it. */
  lemma {:induction false} BlocksOfText(got: seq<ProviderEvent>)
    requires got != [] && forall i :: 0 <= i < |got| ==> got[i].Delta?
    ensures AssistantBlocks([]) == []
    ensures AssistantBlocks(got) == [TextBlock(Text(got))]
  {
    var init, last := got[..|got| - 1], got[|got| - 1];
    assert got == init + [last];
    OneMoreEvent(init, last);
    if init == [] {
      assert Text(got) == "" + last.delta == last.delta;
    } else {
      BlocksOfText(init);
    }
  }

  // ---------------------------------------------------------------- tool messages

  /** The result message of a call, and the texts of results without an output. */
  lemma {:induction false} MessagesInPlainTerms(got: seq<ProviderEvent>, call: ToolCall, output: ToolOutput)
    ensures AssistantMessage(got) == Message(Assistant, AssistantBlocks(got))
    ensures ResultMessage(call, output) == Message(Tool, [ResultBlock(ToolResult(call.id, Some(call.name), output))])
    ensures TerminalMessage(call, NotStarted) ==
            Message(Tool, [ResultBlock(ToolResult(call.id, Some(call.name), ToolOutput(
                             Some("Tool execution did not start because the run stopped."), None)))])
    ensures TerminalMessage(call, Failed) ==
            Message(Tool, [ResultBlock(ToolResult(call.id, Some(call.name), ToolOutput(
                             Some("Tool execution failed with a known outcome."), None)))])
    ensures TerminalMessage(call, Unknown) ==
            Message(Tool, [ResultBlock(ToolResult(call.id, Some(call.name), ToolOutput(
                             Some("Tool execution outcome is unknown and the operation was not retried."), None)))])
    ensures MARKER == Message(Assistant, [TextBlock("The tool turn ended without another model response.")])
  {
  }

  /** The three texts can be told apart. */
  lemma {:induction false} OutcomesDiffer(call: ToolCall, o: ExecutionOutcome, o': ExecutionOutcome)
    ensures TerminalMessage(call, o) == TerminalMessage(call, o') ==> o == o'
  {
    assert |OutcomeText(NotStarted)| == 53 && |OutcomeText(Failed)| == 43 && |OutcomeText(Unknown)| == 68;
  }
}
