/** What each step of the approval system decides, in plain terms, and that no request gets stuck. */
module ApprovalDecisions {
  import opened Wrappers
  import opened WriteApprovals
  import opened ApprovalProtocol

  /** An unexpired approval for exactly this datasource and SQL is pending. */
  ghost predicate Available(p: Params, s: Sys, now: nat, datasource: string, sql: string) {
    exists k :: k in s.pending && now < s.pending[k].expiresAt
                && s.pending[k].datasource == datasource && s.pending[k].sql == p.sha(sql)
  }

  /** The approvals still live at `now`. */
  ghost function LiveKeys(s: Sys, now: nat): set<Digest> {
    set k | k in s.pending && now < s.pending[k].expiresAt
  }

  lemma {:induction false} LiveCount(s: Sys, now: nat)
    ensures Live(s.pending, now).Keys == LiveKeys(s, now) && |Live(s.pending, now)| == |LiveKeys(s, now)|
  {
    assert Live(s.pending, now).Keys == LiveKeys(s, now);
    KeyCount(Live(s.pending, now));
  }

  lemma {:induction false} KeyCount<K, V>(m: map<K, V>)
    ensures |m| == |m.Keys|
  {
  }

  /** A request is let through on the spot exactly if an approval is available; otherwise its user is asked if the
      client supports forms. */
  lemma {:induction false} MatchDecides(p: Params, s: Sys, id: nat, key: Option<Digest>, forms: bool)
    requires Enabled(p, s, Match(id, key, forms))
    ensures var t := s.tasks[id];
            var progress := Next(p, s, Match(id, key, forms)).tasks[id].progress;
            progress == if Available(p, s, t.reading.value, t.datasource, t.sql) then Allowed
                        else if forms then Eliciting else Denied
  {
    hide Restrict;
    var t := s.tasks[id];
    var live := Live(s.pending, t.reading.value);
    if key.Some? {
      assert key.value in s.pending && live[key.value] == s.pending[key.value];
      assert Available(p, s, t.reading.value, t.datasource, t.sql);
    } else {
      forall k | k in s.pending && t.reading.value < s.pending[k].expiresAt
        ensures !(s.pending[k].datasource == t.datasource && s.pending[k].sql == p.sha(t.sql))
      {
        assert k in live && live[k] == s.pending[k];
      }
    }
  }

  lemma {:induction false} ElicitDecides(p: Params, s: Sys, id: nat, confirmed: bool)
    requires Enabled(p, s, Elicit(id, confirmed))
    ensures var s' := Next(p, s, Elicit(id, confirmed));
            if confirmed then
              && s'.tasks[id].progress == Confirmed(|s.auths|)
              && s'.auths == s.auths + [Authorization(false, s.tasks[id].datasource, p.sha(s.tasks[id].sql))]
            else s'.tasks[id].progress == Denied && s'.auths == s.auths
  {
  }

  /** A confirmation becomes an approval exactly if the request is not blank and fewer than 256 approvals are live. */
  lemma {:induction false} MintDecides(p: Params, s: Sys, id: nat, draws: seq<string>)
    requires Enabled(p, s, Mint(id, draws))
    ensures var t := s.tasks[id];
            var progress := Next(p, s, Mint(id, draws)).tasks[id].progress;
            if !p.blank(t.datasource) && !p.blank(t.sql) && |LiveKeys(s, t.reading.value)| < 256
            then progress.Minted? && progress.token in draws
            else progress == Denied
  {
    hide Restrict, Live;
    LiveCount(s, s.tasks[id].reading.value);
    FreshIsDrawn(p.sha, Live(s.pending, s.tasks[id].reading.value), draws);
  }

  lemma {:induction false} FreshIsDrawn(sha: string -> Digest, taken: Pending, draws: seq<string>)
    ensures FirstFresh(sha, taken, draws).Some? ==> FirstFresh(sha, taken, draws).value in draws
    ensures FirstFresh(sha, taken, draws).None? <==> forall d :: d in draws ==> sha(d) in taken
  {
    if draws != [] { FreshIsDrawn(sha, taken, draws[1..]); }
  }

  /** The same for a host, which also gives its authorization exactly then. */
  lemma {:induction false} PreapproveDecides(p: Params, s: Sys, id: nat, draws: seq<string>)
    requires Enabled(p, s, Preapprove(id, draws))
    ensures var c := s.calls[id];
            var s' := Next(p, s, Preapprove(id, draws));
            s'.auths == if !p.blank(c.datasource) && !p.blank(c.sql) && |LiveKeys(s, c.reading.value)| < 256
                        then s.auths + [Authorization(true, c.datasource, p.sha(c.sql))]
                        else s.auths
  {
    hide Restrict, Live;
    LiveCount(s, s.calls[id].reading.value);
  }

  /** A minted token lets its request through exactly if its approval is still there, unexpired, and matches. */
  lemma {:induction false} RedeemDecides(p: Params, s: Sys, id: nat)
    requires Enabled(p, s, Redeem(id))
    ensures var t := s.tasks[id];
            var token := t.progress.token;
            var key := p.sha(token);
            Next(p, s, Redeem(id)).tasks[id].progress ==
            if && TokenShape(token) && key in s.pending && s.clock < s.pending[key].expiresAt
               && s.pending[key].datasource == t.datasource && s.pending[key].sql == p.sha(t.sql)
            then Allowed else Denied
  {
    hide Restrict, TokenShape;
  }

  /** The step that is due for a request, as long as its generator draws a token that is free. */
  ghost predicate CanGoOn(p: Params, s: Sys, id: nat, draws: seq<string>)
    requires id in s.tasks
  {
    match s.tasks[id].progress
    case Starting =>
      if s.tasks[id].reading.None? then Enabled(p, s, Read(id))
      else exists key :: Enabled(p, s, Match(id, key, true)) && Enabled(p, s, Match(id, key, false))
    case Eliciting => Enabled(p, s, Elicit(id, true)) && Enabled(p, s, Elicit(id, false))
    case Confirmed(_) => if s.tasks[id].reading.None? then Enabled(p, s, Read(id)) else Enabled(p, s, Mint(id, draws))
    case Minted(_) => Enabled(p, s, Redeem(id))
    case _ => true
  }

  /** No request gets stuck: whatever the others do, its next step can be taken. */
  lemma {:induction false} NoRequestGetsStuck(p: Params, s: Sys, id: nat, draws: seq<string>)
    requires id in s.tasks && exists d :: d in draws && p.sha(d) !in s.pending
    ensures CanGoOn(p, s, id, draws)
  {
    hide Restrict;
    var t := s.tasks[id];
    if t.progress.Starting? && t.reading.Some? {
      var live := Live(s.pending, t.reading.value);
      if k :| k in live && Matches(live[k], t.datasource, p.sha(t.sql)) {
        assert Enabled(p, s, Match(id, Some(k), true)) && Enabled(p, s, Match(id, Some(k), false));
      } else {
        assert Enabled(p, s, Match(id, None, true)) && Enabled(p, s, Match(id, None, false));
      }
    }
    if t.progress.Confirmed? && t.reading.Some? {
      FreshIsDrawn(p.sha, Live(s.pending, t.reading.value), draws);
    }
  }

  /** New requests and host calls can always be made, and the clock can always move on. */
  lemma {:induction false} NobodyIsLockedOut(p: Params, s: Sys, id: nat, ds: string, sql: string, draws: seq<string>)
    requires exists d :: d in draws && p.sha(d) !in s.pending
    ensures id !in s.tasks ==> Enabled(p, s, Begin(id, ds, sql))
    ensures id !in s.calls ==> Enabled(p, s, HostBegin(id, ds, sql))
    ensures id in s.calls ==>
              if s.calls[id].reading.None? then Enabled(p, s, HostRead(id)) else Enabled(p, s, Preapprove(id, draws))
    ensures forall now: nat :: s.clock <= now ==> Enabled(p, s, Advance(now))
  {
    if id in s.calls && s.calls[id].reading.Some? {
      FreshIsDrawn(p.sha, Live(s.pending, s.calls[id].reading.value), draws);
    }
  }
}
