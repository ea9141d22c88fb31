/** What stays in the requests of a run: system messages, and with them every summary, are never compacted away. */
module Requests {
  import opened Wrappers
  import opened AgentTypes
  import opened Pairing
  import opened Context
  import opened Compaction
  import opened RunLog

  /** An accepted entry keeps the system messages of the context, in order. */
  lemma {:induction false} NextKeepsSystems(context: seq<Message>, e: Entry)
    requires e.Observed? && e.event.ContextCompacted? ==> Applies(e.event.compaction, context)
    ensures Subsequence(Systems(context), Systems(NextContext(context, e)))
  {
    hide Systems, Subsequence, ToolPairsComplete, FirstUser, SummaryMessage;
    SubsequenceRefl(Systems(context));
    if e.Observed? && e.event.TranscriptMessages? {
      SystemsConcat(context, e.event.messages);
      SubsequenceInsert(Systems(context), Systems(e.event.messages), []);
      assert Systems(context) + [] == Systems(context);
      assert Systems(context) + Systems(e.event.messages) + [] == Systems(context) + Systems(e.event.messages);
    } else if e.Observed? && e.event.ContextCompacted? && e.event.compaction.compactedRange.Some? {
      var c := e.event.compaction;
      var r := c.compactedRange.value;
      CutKeepsSystems(context, r.start, r.end,
                      if c.replacementSummary.Some? then [SummaryMessage(c.replacementSummary.value)] else []);
    }
  }

  lemma {:induction false} CutKeepsSystems(ms: seq<Message>, a: nat, b: nat, mid: seq<Message>)
    requires a <= b <= |ms| && NoSystem(ms[a..b])
    ensures Subsequence(Systems(ms), Systems(ms[..a] + mid + ms[b..]))
  {
    hide Systems, Subsequence, NoSystem;
    var front, cut, back := ms[..a], ms[a..b], ms[b..];
    assert ms == front + cut + back;
    SystemsConcat(front + cut, back);
    SystemsConcat(front, cut);
    NoSystems(cut);
    SystemsConcat(front + mid, back);
    SystemsConcat(front, mid);
    assert Systems(front) + [] == Systems(front);
    SubsequenceInsert(Systems(front), Systems(mid), Systems(back));
  }

  lemma {:induction false} ContextsKeepSystems(rules: Rules, log: seq<Entry>, i: nat, j: nat)
    requires Accepted(rules, log) && i <= j <= |log|
    ensures Subsequence(Systems(ContextAfter(rules.input, log[..i])), Systems(ContextAfter(rules.input, log[..j])))
    decreases j
  {
    hide Systems, Subsequence, NextContext, Applies, Accepted;
    if i == j {
      SubsequenceRefl(Systems(ContextAfter(rules.input, log[..i])));
    } else {
      ContextsKeepSystems(rules, log, i, j - 1);
      RequestsAreContexts(rules, log, j - 1);
      var before := ContextAfter(rules.input, log[..j - 1]);
      NextKeepsSystems(before, log[j - 1]);
      assert log[..j][..j - 1] == log[..j - 1];
      var after := ContextAfter(rules.input, log[..j]);
      assert after == NextContext(before, log[j - 1]);
      SubsequenceTrans(Systems(ContextAfter(rules.input, log[..i])), Systems(before), Systems(after));
    }
  }

  /** The system messages of a request, summaries included, are in every later request, in order. */
  lemma {:induction false} SystemsAreKept(rules: Rules, log: seq<Entry>, i: nat, j: nat)
    requires Accepted(rules, log) && i <= j < |log| && log[i].Asked? && log[j].Asked?
    ensures Subsequence(Systems(log[i].messages), Systems(log[j].messages))
  {
    hide Systems, Subsequence, ContextAfter, Accepted;
    RequestsAreContexts(rules, log, i);
    RequestsAreContexts(rules, log, j);
    ContextsKeepSystems(rules, log, i, j);
  }
}
