/** When things happened in a run of the approval system: no write outlives the approval it used. */
module ApprovalHistory {
  import opened Wrappers
  import opened WriteApprovals
  import opened ApprovalProtocol

  // ---------------------------------------------------------------- single steps

  /** What one step does to the clock and to one task. */
  lemma {:induction false} TaskStep(p: Params, s: Sys, a: Action, id: nat)
    requires Enabled(p, s, a)
    ensures var s' := Next(p, s, a);
            && s.clock <= s'.clock
            && (id in s.tasks ==> id in s'.tasks)
            && (id in s'.tasks ==>
                  || (a.Begin? && a.id == id && id !in s.tasks
                      && s'.tasks[id] == Task(a.datasource, a.sql, None, Starting))
                  || (id in s.tasks && s'.tasks[id].datasource == s.tasks[id].datasource
                      && s'.tasks[id].sql == s.tasks[id].sql))
  {
    hide IssueAt, ConsumeOutcome, Live, Restrict, Finds, Matches;
  }

  /** A reading is taken from the clock by a step of its own. */
  lemma {:induction false} ReadingStep(p: Params, s: Sys, a: Action, id: nat)
    requires Enabled(p, s, a)
    ensures var s' := Next(p, s, a);
            id in s'.tasks && s'.tasks[id].reading.Some? ==>
              || (a == Read(id) && s'.tasks[id].reading == Some(s.clock))
              || (id in s.tasks && s'.tasks[id].reading == s.tasks[id].reading)
  {
    hide IssueAt, ConsumeOutcome, Live, Restrict, Finds, Matches;
  }

  lemma {:induction false} HostReadingStep(p: Params, s: Sys, a: Action, id: nat)
    requires Enabled(p, s, a)
    ensures var s' := Next(p, s, a);
            id in s'.calls && s'.calls[id].reading.Some? ==>
              || (a == HostRead(id) && s'.calls[id].reading == Some(s.clock))
              || (id in s.calls && s'.calls[id].reading == s.calls[id].reading)
  {
    hide IssueAt, ConsumeOutcome, Live, Restrict, Finds, Matches;
  }

  /** A step that lets a write through is a matching step or a redeeming one. */
  ghost predicate Lets(s: Sys, a: Action, x: Write) {
    && (a.Match? || a.Redeem?) && a.id == x.task
    && x.task in s.tasks
    && (if a.Match? then s.tasks[x.task].reading == Some(x.readAt) else x.readAt == s.clock)
  }

  lemma {:induction false} WriteStep(p: Params, s: Sys, a: Action)
    requires Enabled(p, s, a)
    ensures var s' := Next(p, s, a);
            || s'.writes == s.writes
            || (exists x :: s'.writes == s.writes + [x] && Lets(s, a, x) && s'.auths == s.auths && x.task in s.tasks
                            && x.datasource == s.tasks[x.task].datasource && x.sql == p.sha(s.tasks[x.task].sql)
                            && (exists key :: key in s.pending && s.pending[key] == x.used && key !in s'.pending))
  {
    hide IssueAt, Restrict, TokenShape;
    if a.Match? && a.key.Some? {
      var t, key := s.tasks[a.id], a.key.value;
      var x := Write(a.id, t.datasource, p.sha(t.sql), if key in s.owner then s.owner[key] else 0,
                     Live(s.pending, t.reading.value)[key], t.reading.value);
      assert Lets(s, a, x);
      assert key in s.pending && s.pending[key] == x.used && key !in Next(p, s, a).pending;
    } else if a.Redeem? {
      var t := s.tasks[a.id];
      var key := p.sha(t.progress.token);
      if key in s.pending {
        var x := Write(a.id, t.datasource, p.sha(t.sql), if key in s.owner then s.owner[key] else 0,
                       s.pending[key], s.clock);
        assert Lets(s, a, x);
        assert key in s.pending && s.pending[key] == x.used;
      }
    }
  }

  /** A pending approval was pending before, or was issued by this step from a reading taken earlier. */
  lemma {:induction false} PendingStep(p: Params, s: Sys, a: Action, key: Digest)
    requires Enabled(p, s, a) && key in Next(p, s, a).pending
    ensures var b := Next(p, s, a).pending[key];
            || (key in s.pending && s.pending[key] == b)
            || (a.Preapprove? && b.expiresAt == s.calls[a.id].reading.value + TTL)
            || (a.Mint? && b.expiresAt == s.tasks[a.id].reading.value + TTL)
  {
    hide Restrict, TokenShape, Finds;
    if a.Preapprove? {
      var c := s.calls[a.id];
      IssueShape(p, s.pending, c.reading.value, c.datasource, c.sql, a.draws);
    } else if a.Mint? {
      var t := s.tasks[a.id];
      IssueShape(p, s.pending, t.reading.value, t.datasource, t.sql, a.draws);
    }
  }

  /** A step gives at most one authorization: the host's for its own call, or a client's whose user confirmed. */
  lemma {:induction false} AuthStep(p: Params, s: Sys, a: Action)
    requires Enabled(p, s, a)
    ensures var s' := Next(p, s, a);
            || s'.auths == s.auths
            || (a.Preapprove? && s'.auths ==
                  s.auths + [Authorization(true, s.calls[a.id].datasource, p.sha(s.calls[a.id].sql))])
            || (a.Elicit? && a.confirmed && s'.auths ==
                  s.auths + [Authorization(false, s.tasks[a.id].datasource, p.sha(s.tasks[a.id].sql))])
  {
    hide IssueAt, ConsumeOutcome, Live, Restrict, Finds, Matches;
  }

  /** A user is asked only when no approval matched and the client supports forms. */
  lemma {:induction false} ElicitingStep(p: Params, s: Sys, a: Action, id: nat)
    requires Enabled(p, s, a)
    ensures var s' := Next(p, s, a);
            id in s'.tasks && s'.tasks[id].progress.Eliciting? ==>
              a == Match(id, None, true) || (id in s.tasks && s.tasks[id].progress.Eliciting?)
  {
    hide IssueAt, ConsumeOutcome, Live, Restrict, Finds, Matches;
  }

  /** What a host approves is what it asked for when its call began. */
  lemma {:induction false} HostStep(p: Params, s: Sys, a: Action, id: nat)
    requires Enabled(p, s, a)
    ensures var s' := Next(p, s, a);
            id in s'.calls ==>
              || (a.HostBegin? && a.id == id && s'.calls[id] == HostCall(a.datasource, a.sql, None))
              || (id in s.calls && s'.calls[id].datasource == s.calls[id].datasource
                  && s'.calls[id].sql == s.calls[id].sql)
  {
    hide IssueAt, ConsumeOutcome, Live, Restrict, Finds, Matches;
  }

  // ---------------------------------------------------------------- whole runs

  /** A host call began with the datasource and SQL that it still has. */
  lemma {:induction false} HostBegan(p: Params, actions: seq<Action>, states: seq<Sys>, n: nat, id: nat)
    returns (b: nat)
    requires IsRun(p, actions, states) && n < |states| && id in states[n].calls
    ensures b < n && actions[b] == HostBegin(id, states[n].calls[id].datasource, states[n].calls[id].sql)
    decreases n
  {
    hide Enabled, Next;
    assert n > 0;
    HostStep(p, states[n - 1], actions[n - 1], id);
    var a := actions[n - 1];
    if a.HostBegin? && a.id == id && states[n].calls[id] == HostCall(a.datasource, a.sql, None) {
      b := n - 1;
    } else {
      b := HostBegan(p, actions, states, n - 1, id);
    }
  }

  lemma {:induction false} FormOffered(p: Params, actions: seq<Action>, states: seq<Sys>, n: nat, id: nat)
    returns (f: nat)
    requires IsRun(p, actions, states) && n < |states|
    requires id in states[n].tasks && states[n].tasks[id].progress.Eliciting?
    ensures f < n && actions[f] == Match(id, None, true)
    decreases n
  {
    hide Enabled, Next;
    assert n > 0;
    ElicitingStep(p, states[n - 1], actions[n - 1], id);
    if actions[n - 1] == Match(id, None, true) {
      f := n - 1;
    } else {
      f := FormOffered(p, actions, states, n - 1, id);
    }
  }

  /** Step c gave the authorization x: a host for what its call asked since step b, or a user who confirmed what its
      request asked since step b, after no approval matched and the client offered a form. */
  ghost predicate Gives(p: Params, actions: seq<Action>, x: Authorization, b: nat, c: nat) {
    && b < c < |actions|
    && if x.byHost then
         && actions[c].Preapprove? && actions[b].HostBegin? && actions[b].id == actions[c].id
         && actions[b].datasource == x.datasource && p.sha(actions[b].sql) == x.sql
       else
         && actions[c].Elicit? && actions[c].confirmed && actions[b].Begin? && actions[b].id == actions[c].id
         && actions[b].datasource == x.datasource && p.sha(actions[b].sql) == x.sql
         && exists f :: b <= f < c && actions[f] == Match(actions[c].id, None, true)
  }

  /** Every authorization on the ledger was given so. */
  lemma {:induction false} AuthorizationGiven(p: Params, actions: seq<Action>, states: seq<Sys>, n: nat, i: nat)
    returns (b: nat, c: nat)
    requires IsRun(p, actions, states) && n < |states| && i < |states[n].auths|
    ensures c < n && Gives(p, actions, states[n].auths[i], b, c)
    decreases n
  {
    hide Next;
    assert n > 0;
    var s, a := states[n - 1], actions[n - 1];
    assert Enabled(p, s, a);
    AuthStep(p, s, a);
    if i < |s.auths| {
      b, c := AuthorizationGiven(p, actions, states, n - 1, i);
    } else if a.Preapprove? {
      c := n - 1;
      b := HostBegan(p, actions, states, n - 1, a.id);
    } else {
      c := n - 1;
      b := TaskBegan(p, actions, states, n - 1, a.id);
      var f := FormOffered(p, actions, states, n - 1, a.id);
      OfferedAfterBegin(p, actions, states, b, f, a.id);
    }
  }

  /** A request is matched only after it began. */
  lemma {:induction false} OfferedAfterBegin(p: Params, actions: seq<Action>, states: seq<Sys>, b: nat, f: nat, id: nat)
    requires IsRun(p, actions, states) && b < |actions| && f < |actions|
    requires actions[b].Begin? && actions[b].id == id && actions[f].Match? && actions[f].id == id
    ensures b <= f
  {
    hide Next;
    assert Enabled(p, states[b], actions[b]) && Enabled(p, states[f], actions[f]);
    if f < b { TaskStays(p, actions, states, f, b, id); }
  }

  lemma {:induction false} ClockGrows(p: Params, actions: seq<Action>, states: seq<Sys>, m: nat, n: nat)
    requires IsRun(p, actions, states) && m <= n < |states|
    ensures states[m].clock <= states[n].clock
    decreases n
  {
    hide Enabled, Next;
    if m < n {
      ClockGrows(p, actions, states, m, n - 1);
      TaskStep(p, states[n - 1], actions[n - 1], 0);
    }
  }

  /** A task began with the datasource and SQL that it still has. */
  lemma {:induction false} TaskBegan(p: Params, actions: seq<Action>, states: seq<Sys>, n: nat, id: nat)
    returns (b: nat)
    requires IsRun(p, actions, states) && n < |states| && id in states[n].tasks
    ensures b < n && actions[b] == Begin(id, states[n].tasks[id].datasource, states[n].tasks[id].sql)
    decreases n
  {
    hide Enabled, Next;
    assert n > 0;
    TaskStep(p, states[n - 1], actions[n - 1], id);
    var a := actions[n - 1];
    if a.Begin? && a.id == id && states[n].tasks[id] == Task(a.datasource, a.sql, None, Starting) {
      b := n - 1;
    } else {
      b := TaskBegan(p, actions, states, n - 1, id);
    }
  }

  /** A reading that a task holds was the clock at a step of that task. */
  lemma {:induction false} TaskRead(p: Params, actions: seq<Action>, states: seq<Sys>, n: nat, id: nat) returns (l: nat)
    requires IsRun(p, actions, states) && n < |states| && id in states[n].tasks && states[n].tasks[id].reading.Some?
    ensures l < n && actions[l] == Read(id) && states[n].tasks[id].reading == Some(states[l].clock)
    decreases n
  {
    hide Enabled, Next;
    assert n > 0;
    ReadingStep(p, states[n - 1], actions[n - 1], id);
    if actions[n - 1] == Read(id) && states[n].tasks[id].reading == Some(states[n - 1].clock) {
      l := n - 1;
    } else {
      l := TaskRead(p, actions, states, n - 1, id);
    }
  }

  lemma {:induction false} HostCallRead(p: Params, actions: seq<Action>, states: seq<Sys>, n: nat, id: nat)
    returns (l: nat)
    requires IsRun(p, actions, states) && n < |states| && id in states[n].calls && states[n].calls[id].reading.Some?
    ensures l < n && actions[l] == HostRead(id) && states[n].calls[id].reading == Some(states[l].clock)
    decreases n
  {
    hide Enabled, Next;
    assert n > 0;
    HostReadingStep(p, states[n - 1], actions[n - 1], id);
    if actions[n - 1] == HostRead(id) && states[n].calls[id].reading == Some(states[n - 1].clock) {
      l := n - 1;
    } else {
      l := HostCallRead(p, actions, states, n - 1, id);
    }
  }

  /** A task keeps its datasource and SQL. */
  lemma {:induction false} TaskStays(p: Params, actions: seq<Action>, states: seq<Sys>, l: nat, m: nat, id: nat)
    requires IsRun(p, actions, states) && l <= m < |states| && id in states[l].tasks
    ensures id in states[m].tasks
    ensures states[m].tasks[id].datasource == states[l].tasks[id].datasource
    ensures states[m].tasks[id].sql == states[l].tasks[id].sql
    decreases m
  {
    hide Enabled, Next;
    if l < m {
      TaskStays(p, actions, states, l, m - 1, id);
      TaskStep(p, states[m - 1], actions[m - 1], id);
    }
  }

  /** A task that holds a reading began before it was taken. */
  lemma {:induction false} BeganAndRead(p: Params, actions: seq<Action>, states: seq<Sys>, m: nat, id: nat)
    returns (b: nat, l: nat)
    requires IsRun(p, actions, states) && m < |states| && id in states[m].tasks && states[m].tasks[id].reading.Some?
    ensures b < l < m && actions[l] == Read(id) && states[m].tasks[id].reading == Some(states[l].clock)
    ensures actions[b] == Begin(id, states[m].tasks[id].datasource, states[m].tasks[id].sql)
  {
    hide Next;
    l := TaskRead(p, actions, states, m, id);
    assert Enabled(p, states[l], actions[l]);
    hide Enabled;
    b := TaskBegan(p, actions, states, l, id);
    TaskStays(p, actions, states, l, m, id);
  }

  /** Step q issued an approval that expires at `expiry`, from the clock that the same call had read at step g. */
  ghost predicate Issues(actions: seq<Action>, states: seq<Sys>, g: nat, q: nat, expiry: nat)
    requires |states| == |actions| + 1
  {
    && g < q < |actions| && expiry == states[g].clock + 300
    && (|| (actions[q].Preapprove? && actions[g] == HostRead(actions[q].id))
        || (actions[q].Mint? && actions[g] == Read(actions[q].id)))
  }

  /** A pending approval was put there by a step that issued it, and expires one lifetime after the clock reading of
      the call that issued it. */
  lemma {:induction false} PendingIssued(p: Params, actions: seq<Action>, states: seq<Sys>, n: nat, key: Digest)
    returns (g: nat, q: nat)
    requires IsRun(p, actions, states) && n < |states| && key in states[n].pending
    ensures q < n && Issues(actions, states, g, q, states[n].pending[key].expiresAt)
    ensures key in states[q + 1].pending && states[q + 1].pending[key] == states[n].pending[key]
    decreases n
  {
    hide Next;
    assert n > 0;
    var s, a := states[n - 1], actions[n - 1];
    assert Enabled(p, s, a);
    PendingStep(p, s, a, key);
    if key in s.pending && s.pending[key] == states[n].pending[key] {
      g, q := PendingIssued(p, actions, states, n - 1, key);
    } else if a.Preapprove? {
      q := n - 1;
      g := HostCallRead(p, actions, states, q, a.id);
    } else {
      q := n - 1;
      g := TaskRead(p, actions, states, q, a.id);
    }
  }

  /** The step that let a write through. */
  lemma {:induction false} WriteHappened(p: Params, actions: seq<Action>, states: seq<Sys>, n: nat, i: nat)
    returns (m: nat)
    requires IsRun(p, actions, states) && n < |states| && i < |states[n].writes|
    ensures m < n && |states[m].writes| == i && i < |states[m + 1].writes|
    ensures states[m + 1].writes[i] == states[n].writes[i]
    decreases n
  {
    hide Next;
    assert n > 0;
    var s, a := states[n - 1], actions[n - 1];
    assert Enabled(p, s, a);
    WriteStep(p, s, a);
    if i < |s.writes| {
      m := WriteHappened(p, actions, states, n - 1, i);
    } else {
      m := n - 1;
    }
  }

  /** What a run says about one of its writes: it was let through at step m by the approval under `key`, which was
      still pending, matched it exactly and is gone afterwards; the request began at step b; the clock that the
      approval was held against was read at step l of the same request, and by then the approval, issued at step q
      from the clock that its call had read at step g, had not reached the end of its lifetime. A redeeming step reads
      the clock itself. */
  ghost predicate Approved(actions: seq<Action>, states: seq<Sys>, x: Write, g: nat, q: nat, b: nat, l: nat, m: nat,
                           key: Digest)
    requires |states| == |actions| + 1
  {
    && b < l <= m < |actions| && q < m
    && actions[b].Begin? && actions[b].id == x.task && actions[b].datasource == x.datasource
    && (if actions[m].Match? then actions[l] == Read(x.task) else l == m && actions[m] == Redeem(x.task))
    && states[m + 1].writes == states[m].writes + [x]
    && key in states[m].pending && key !in states[m + 1].pending && states[m].pending[key] == x.used
    && x.used.datasource == x.datasource && x.used.sql == x.sql
    && Issues(actions, states, g, q, x.used.expiresAt)
    && states[b].clock <= states[l].clock == x.readAt < x.used.expiresAt == states[g].clock + 300
    && x.auth < |states[m].auths|
    && states[m].auths[x.auth].datasource == x.datasource && states[m].auths[x.auth].sql == x.sql
  }

  lemma {:induction false} WriteExplained(p: Params, actions: seq<Action>, states: seq<Sys>, m: nat, x: Write,
                                          key: Digest)
    returns (g: nat, q: nat, b: nat, l: nat)
    requires IsRun(p, actions, states) && m < |actions|
    requires states[m + 1].writes == states[m].writes + [x] && states[m + 1].auths == states[m].auths
    requires Lets(states[m], actions[m], x)
    requires x.datasource == states[m].tasks[x.task].datasource && x.sql == p.sha(states[m].tasks[x.task].sql)
    requires key in states[m].pending && key !in states[m + 1].pending && states[m].pending[key] == x.used
    ensures Approved(actions, states, x, g, q, b, l, m, key) && p.sha(actions[b].sql) == x.sql
  {
    hide Next, Enabled;
    if actions[m].Match? {
      b, l := BeganAndRead(p, actions, states, m, x.task);
    } else {
      l := m;
      b := TaskBegan(p, actions, states, m, x.task);
    }
    g, q := PendingIssued(p, actions, states, m, key);
    ClockGrows(p, actions, states, b, l);
    WritesAreDistinct(p, actions, states, m + 1, |states[m].writes|);
  }

  /** Every write used up one authorization of its own, given before it, through an unexpired exact match. */
  lemma {:induction false} EveryWriteWasApproved(p: Params, actions: seq<Action>, states: seq<Sys>, n: nat, i: nat)
    returns (g: nat, q: nat, b: nat, l: nat, m: nat, key: Digest)
    requires IsRun(p, actions, states) && n < |states| && i < |states[n].writes|
    ensures m < n && Approved(actions, states, states[n].writes[i], g, q, b, l, m, key)
    ensures p.sha(actions[b].sql) == states[n].writes[i].sql
    ensures forall j :: 0 <= j < |states[n].writes| && j != i ==> states[n].writes[j].auth != states[n].writes[i].auth
  {
    hide Next, Approved, Lets;
    m := WriteHappened(p, actions, states, n, i);
    WritesAreDistinct(p, actions, states, n, i);
    assert Enabled(p, states[m], actions[m]);
    WriteStep(p, states[m], actions[m]);
    var x :| states[m + 1].writes == states[m].writes + [x] && Lets(states[m], actions[m], x)
             && states[m + 1].auths == states[m].auths && x.task in states[m].tasks
             && x.datasource == states[m].tasks[x.task].datasource && x.sql == p.sha(states[m].tasks[x.task].sql)
             && (exists k :: k in states[m].pending && states[m].pending[k] == x.used && k !in states[m + 1].pending);
    key :| key in states[m].pending && states[m].pending[key] == x.used && key !in states[m + 1].pending;
    assert x == states[n].writes[i];
    g, q, b, l := WriteExplained(p, actions, states, m, x, key);
  }
}
