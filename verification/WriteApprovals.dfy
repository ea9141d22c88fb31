/** Single-use, expiring approvals for database writes, shared by concurrent clients. */
module WriteApprovals {
  import opened Wrappers

  /** `WRITE_APPROVAL_TTL`, in the clock's unit. */
  const TTL: nat := 300
  const MAX_PENDING: nat := 256

  type Digest = string

  datatype Binding = Binding(datasource: string, sql: Digest, expiresAt: nat)

  type Pending = map<Digest, Binding>

  datatype Issued = Approval(token: string) | InvalidRequest | CapacityReached | StillDrawing

  // ---------------------------------------------------------------- the registry as a value

  /** What `retain` keeps. */
  function Live(p: Pending, now: nat): Pending {
    map k | k in p && p[k].expiresAt > now :: p[k]
  }

  /** The first drawn token whose digest is not taken; the source draws until there is one. */
  function FirstFresh(sha: string -> Digest, taken: Pending, draws: seq<string>): Option<string> {
    if draws == [] then None
    else if sha(draws[0]) !in taken then Some(draws[0])
    else FirstFresh(sha, taken, draws[1..])
  }

  function IssueOutcome(sha: string -> Digest, blank: string -> bool, p: Pending, now: nat, datasource: string,
                        sql: string, draws: seq<string>): (Issued, Pending)
  {
    if blank(datasource) || blank(sql) then (InvalidRequest, p)
    else
      var live := Live(p, now);
      if |live| >= MAX_PENDING then (CapacityReached, live)
      else match FirstFresh(sha, live, draws)
        case None => (StillDrawing, live)
        case Some(token) => (Approval(token), live[sha(token) := Binding(datasource, sha(sql), now + TTL)])
  }

  predicate IsHexDigit(c: char) {
    '0' <= c <= '9' || 'a' <= c <= 'f' || 'A' <= c <= 'F'
  }

  predicate TokenShape(token: string) {
    |token| == 64 && forall i :: 0 <= i < |token| ==> IsHexDigit(token[i])
  }

  function ConsumeOutcome(sha: string -> Digest, p: Pending, now: nat, token: string, datasource: string, sql: string)
    : (bool, Pending)
  {
    if !TokenShape(token) || sha(token) !in p then (false, p)
    else
      var b := p[sha(token)];
      (b.expiresAt > now && b.datasource == datasource && b.sql == sha(sql), p - {sha(token)})
  }

  predicate Matches(b: Binding, datasource: string, sql: Digest) {
    b.datasource == datasource && b.sql == sql
  }

  /** An unexpired approval for exactly this datasource and SQL digest. */
  predicate LiveMatch(p: Pending, now: nat, datasource: string, sql: Digest, k: Digest) {
    k in p && p[k].expiresAt > now && Matches(p[k], datasource, sql)
  }

  /** The token is the first drawn one whose digest is not taken. */
  ghost predicate IsFirstFree(sha: string -> Digest, taken: Pending, draws: seq<string>, token: string) {
    exists i :: 0 <= i < |draws| && draws[i] == token && sha(token) !in taken
                && forall k :: 0 <= k < i ==> sha(draws[k]) in taken
  }

  /** What counts as live, as a match and as a token, in plain terms: an approval is live strictly before it expires,
      and a token is 64 hexadecimal digits. */
  lemma {:induction false} ApprovalsInPlainTerms(p: Pending, now: nat, datasource: string, sql: Digest, k: Digest)
    ensures k in Live(p, now) <==> k in p && now < p[k].expiresAt
    ensures k in Live(p, now) ==> Live(p, now)[k] == p[k]
    ensures LiveMatch(p, now, datasource, sql, k) <==>
            k in p && now < p[k].expiresAt && p[k].datasource == datasource && p[k].sql == sql
  {
  }

  lemma {:induction false} TokensInPlainTerms(token: string)
    ensures TokenShape(token) <==> |token| == 64 && forall i :: 0 <= i < 64 ==> token[i] in "0123456789abcdefABCDEF"
  {
    forall c: char
      ensures IsHexDigit(c) <==> c in "0123456789abcdefABCDEF"
    {
      HexDigits(c);
    }
  }

  lemma {:induction false} HexDigits(c: char)
    ensures IsHexDigit(c) <==> c in "0123456789abcdefABCDEF"
  {
    assert "0123456789abcdefABCDEF" == ['0', '1', '2', '3', '4', '5', '6', '7', '8', '9', 'a', 'b', 'c', 'd', 'e', 'f',
                                        'A', 'B', 'C', 'D', 'E', 'F'];
  }

  /** What `consume` does, in plain terms. */
  lemma {:induction false} ConsumeInPlainTerms(sha: string -> Digest, p: Pending, now: nat, token: string,
                                               datasource: string, sql: string)
    ensures var (ok, p') := ConsumeOutcome(sha, p, now, token, datasource, sql);
            var k := sha(token);
            && (ok <==> && TokenShape(token) && k in p && now < p[k].expiresAt
                        && p[k].datasource == datasource && p[k].sql == sha(sql))
            && (forall q :: q in p' <==> q in p && (TokenShape(token) ==> q != k))
            && (forall q :: q in p' ==> p'[q] == p[q])
  {
  }

  // ---------------------------------------------------------------- the registry as an object

  class Registry {
    var pending: Pending
    const sha: string -> Digest
    const blank: string -> bool

    constructor (sha: string -> Digest, blank: string -> bool)
      ensures pending == map[] && this.sha == sha && this.blank == blank
    {
      this.pending, this.sha, this.blank := map[], sha, blank;
    }

    /** `issue`, with the clock reading it took and the tokens its generator draws: refuses a blank request without
        touching anything, drops what has expired, refuses when full, and otherwise adds one binding under the first
        drawn token whose digest is free. */
    method Issue(datasource: string, sql: string, now: nat, draws: seq<string>) returns (r: Issued)
      modifies this`pending
      ensures r.InvalidRequest? <==> blank(datasource) || blank(sql)
      ensures r.InvalidRequest? ==> pending == old(pending)
      ensures r.CapacityReached? <==> !r.InvalidRequest? && |Live(old(pending), now)| >= 256
      ensures r.CapacityReached? || r.StillDrawing? ==> pending == Live(old(pending), now)
      ensures r.StillDrawing? ==> forall i :: 0 <= i < |draws| ==> sha(draws[i]) in Live(old(pending), now)
      ensures r.Approval? ==>
                && IsFirstFree(sha, Live(old(pending), now), draws, r.token)
                && pending == Live(old(pending), now)[sha(r.token) := Binding(datasource, sha(sql), now + TTL)]
                && |pending| <= 256 && pending[sha(r.token)].expiresAt == now + 300
      ensures (r, pending) == IssueOutcome(sha, blank, old(pending), now, datasource, sql, draws)
    {
      if blank(datasource) || blank(sql) { return InvalidRequest; }
      pending := Live(pending, now);
      if |pending| >= MAX_PENDING { return CapacityReached; }
      var digest := sha(sql);
      var i := 0;
      while i < |draws|
        invariant 0 <= i <= |draws|
        invariant pending == Live(old(pending), now)
        invariant forall k :: 0 <= k < i ==> sha(draws[k]) in pending
        invariant FirstFresh(sha, pending, draws) == FirstFresh(sha, pending, draws[i..])
      {
        var token := draws[i];
        if sha(token) !in pending {
          assert IsFirstFree(sha, pending, draws, draws[i]);
          pending := pending[sha(token) := Binding(datasource, digest, now + TTL)];
          return Approval(token);
        }
        i := i + 1;
      }
      return StillDrawing;
    }

    /** `consume`: true exactly for a well-shaped token whose approval is unexpired and matches; an approval that was
        found is gone whatever the answer, and nothing else is. */
    method Consume(token: string, datasource: string, sql: string, now: nat) returns (ok: bool)
      modifies this`pending
      ensures ok <==> TokenShape(token) && LiveMatch(old(pending), now, datasource, sha(sql), sha(token))
      ensures TokenShape(token) ==> pending == old(pending) - {sha(token)}
      ensures !TokenShape(token) ==> pending == old(pending)
      ensures (ok, pending) == ConsumeOutcome(sha, old(pending), now, token, datasource, sql)
    {
      if !TokenShape(token) { return false; }
      var key := sha(token);
      if key !in pending { return false; }
      var binding := pending[key];
      pending := pending - {key};
      return binding.expiresAt > now && binding.datasource == datasource && binding.sql == sha(sql);
    }

    /** `consume_matching`: takes some live matching approval, exactly when there is one. */
    method ConsumeMatching(datasource: string, sql: string, now: nat) returns (ok: bool)
      modifies this`pending
      ensures ok <==> exists k :: LiveMatch(old(pending), now, datasource, sha(sql), k)
      ensures ok ==> exists k :: LiveMatch(old(pending), now, datasource, sha(sql), k)
                                 && pending == Live(old(pending), now) - {k}
      ensures !ok ==> pending == Live(old(pending), now)
    {
      var digest := sha(sql);
      pending := Live(pending, now);
      var matching := set k | k in pending && Matches(pending[k], datasource, digest);
      assert forall k :: k in matching <==> LiveMatch(old(pending), now, datasource, digest, k);
      if matching == {} { return false; }
      var token :| token in matching;
      assert LiveMatch(old(pending), now, datasource, digest, token);
      pending := pending - {token};
      return true;
    }
  }

  /** What the client and its user answer when they are asked: whether forms are supported, and the confirmation. */
  datatype Client = Client(forms: bool, confirms: bool)

  /** `obtain_external_write_approval`, when nobody else uses the registry in between: an approval given in advance is
      used first; otherwise the user is asked, and a confirmation is issued and redeemed on the spot. Either way no
      approval is left over from the request itself. */
  method ObtainApproval(registry: Registry, client: Client, datasource: string, sql: string, asked: nat, issued: nat,
                        redeemed: nat, draws: seq<string>)
    returns (ok: bool)
    requires asked <= issued <= redeemed
    requires forall i :: 0 <= i < |draws| ==> TokenShape(draws[i])
    modifies registry`pending
    ensures var p, sha := old(registry.pending), registry.sha;
            var preapproved := exists k :: LiveMatch(p, asked, datasource, sha(sql), k);
            var minted := IssueOutcome(sha, registry.blank, Live(p, asked), issued, datasource, sql, draws);
            && (ok <==> preapproved
                        || (client.forms && client.confirms && minted.0.Approval? && redeemed < issued + TTL))
            && (preapproved ==> exists k :: LiveMatch(p, asked, datasource, sha(sql), k)
                                            && registry.pending == Live(p, asked) - {k})
            && (!preapproved ==> registry.pending == Live(p, asked) || registry.pending == Live(Live(p, asked), issued))
  {
    ok := registry.ConsumeMatching(datasource, sql, asked);
    if ok || !client.forms || !client.confirms { return; }
    ghost var before := registry.pending;
    var approval := registry.Issue(datasource, sql, issued, draws);
    if !approval.Approval? { return false; }
    IssuedApprovalIsRedeemable(registry.sha, registry.blank, before, issued, datasource, sql, draws, redeemed);
    assert approval.token in draws;
    ok := registry.Consume(approval.token, datasource, sql, redeemed);
  }

  /** An approval redeemed at once, with the token it was issued under, always counts. */
  lemma {:induction false} IssuedApprovalIsRedeemable(sha: string -> Digest, blank: string -> bool, p: Pending,
                                                      now: nat,
                                                      datasource: string, sql: string, draws: seq<string>, later: nat)
    requires IssueOutcome(sha, blank, p, now, datasource, sql, draws).0.Approval?
    ensures var (r, p1) := IssueOutcome(sha, blank, p, now, datasource, sql, draws);
            var (ok, p2) := ConsumeOutcome(sha, p1, later, r.token, datasource, sql);
            && (ok <==> TokenShape(r.token) && later < now + TTL)
            && (TokenShape(r.token) ==> p2 == Live(p, now))
  {
    FirstFreshIsFresh(sha, Live(p, now), draws);
  }

  lemma {:induction false} FirstFreshIsFresh(sha: string -> Digest, taken: Pending, draws: seq<string>)
    ensures FirstFresh(sha, taken, draws).Some? ==> sha(FirstFresh(sha, taken, draws).value) !in taken
    decreases |draws|
  {
    if draws != [] { FirstFreshIsFresh(sha, taken, draws[1..]); }
  }
}

/** Any number of clients and a host, interleaved between the separately locked steps. */
module ApprovalProtocol {
  import opened Wrappers
  import opened WriteApprovals

  /** An authorization by the trusted side, in the order they were given. */
  datatype Authorization = Authorization(byHost: bool, datasource: string, sql: Digest)

  datatype Progress =
    | Starting
    | Eliciting
    | Confirmed(auth: nat)
    | Minted(token: string)
    | Allowed
    | Denied

  /** A client's request for a write; `reading` is the clock reading its next locked step will use. */
  datatype Task = Task(datasource: string, sql: string, reading: Option<nat>, progress: Progress)

  /** A host's call to approve a write in advance. */
  datatype HostCall = HostCall(datasource: string, sql: string, reading: Option<nat>)

  /** A write that was let through: what it asked for, the approval it used up, and the clock reading it was
      held against. */
  datatype Write = Write(task: nat, datasource: string, sql: Digest, auth: nat, used: Binding, readAt: nat)

  /** The shared registry together with a ledger: `owner` records which authorization each
      pending approval came from. */
  datatype Sys = Sys(
    clock: nat,
    pending: Pending,
    owner: map<Digest, nat>,
    auths: seq<Authorization>,
    writes: seq<Write>,
    calls: map<nat, HostCall>,
    tasks: map<nat, Task>)

  datatype Params = Params(sha: string -> Digest, blank: string -> bool)

  function Restrict(owner: map<Digest, nat>, keys: set<Digest>): map<Digest, nat> {
    map k | k in owner && k in keys :: owner[k]
  }

  /** The steps of the system. The source reads the clock before it takes the lock, so reading it is a step of
      its own; `consume` reads it under the lock. */
  datatype Action =
    | Advance(now: nat)
    | HostBegin(id: nat, datasource: string, sql: string)
    | HostRead(id: nat)
    | Preapprove(id: nat, draws: seq<string>)
    | Begin(id: nat, datasource: string, sql: string)
    | Read(id: nat)
    | Match(id: nat, key: Option<Digest>, formSupported: bool)
    | Elicit(id: nat, confirmed: bool)
    | Mint(id: nat, draws: seq<string>)
    | Redeem(id: nat)

  predicate At(s: Sys, id: nat, p: Progress) {
    id in s.tasks && s.tasks[id].progress == p
  }

  function Move(s: Sys, id: nat, p: Progress): map<nat, Task>
    requires id in s.tasks
  {
    s.tasks[id := s.tasks[id].(progress := p, reading := None)]
  }

  /** A possible result of searching the map in its own order. */
  predicate Finds(live: Pending, datasource: string, sql: Digest, key: Option<Digest>) {
    if key.Some? then key.value in live && Matches(live[key.value], datasource, sql)
    else forall k :: k in live ==> !Matches(live[k], datasource, sql)
  }

  /** The task waits for its clock reading, or for the lock with it. */
  predicate NeedsReading(t: Task) {
    t.progress.Starting? || t.progress.Confirmed?
  }

  function IssueAt(p: Params, pending: Pending, reading: Option<nat>, datasource: string, sql: string,
                   draws: seq<string>): (Issued, Pending)
    requires reading.Some?
  {
    IssueOutcome(p.sha, p.blank, pending, reading.value, datasource, sql, draws)
  }

  predicate Enabled(p: Params, s: Sys, a: Action) {
    match a
    case Advance(now) => s.clock <= now
    case HostBegin(id, _, _) => id !in s.calls
    case HostRead(id) => id in s.calls && s.calls[id].reading.None?
    case Preapprove(id, draws) =>
      && id in s.calls && s.calls[id].reading.Some?
      && !IssueAt(p, s.pending, s.calls[id].reading, s.calls[id].datasource, s.calls[id].sql, draws).0.StillDrawing?
    case Begin(id, _, _) => id !in s.tasks
    case Read(id) => id in s.tasks && NeedsReading(s.tasks[id]) && s.tasks[id].reading.None?
    case Match(id, key, _) =>
      && At(s, id, Starting) && s.tasks[id].reading.Some?
      && Finds(Live(s.pending, s.tasks[id].reading.value), s.tasks[id].datasource, p.sha(s.tasks[id].sql), key)
    case Elicit(id, _) => At(s, id, Eliciting)
    case Mint(id, draws) =>
      && id in s.tasks && s.tasks[id].progress.Confirmed? && s.tasks[id].reading.Some?
      && !IssueAt(p, s.pending, s.tasks[id].reading, s.tasks[id].datasource, s.tasks[id].sql, draws).0.StillDrawing?
    case Redeem(id) => id in s.tasks && s.tasks[id].progress.Minted?
  }

  function Next(p: Params, s: Sys, a: Action): Sys
    requires Enabled(p, s, a)
  {
    match a
    case Advance(now) => s.(clock := now)
    case HostBegin(id, ds, sql) => s.(calls := s.calls[id := HostCall(ds, sql, None)])
    case HostRead(id) => s.(calls := s.calls[id := s.calls[id].(reading := Some(s.clock))])
    case Preapprove(id, draws) =>
      var c := s.calls[id];
      var (r, pending) := IssueAt(p, s.pending, c.reading, c.datasource, c.sql, draws);
      var owner := Restrict(s.owner, pending.Keys);
      var calls := s.calls - {id};
      if r.Approval? then
        s.(pending := pending,
           owner := owner[p.sha(r.token) := |s.auths|],
           auths := s.auths + [Authorization(true, c.datasource, p.sha(c.sql))],
           calls := calls)
      else s.(pending := pending, owner := owner, calls := calls)
    case Begin(id, ds, sql) => s.(tasks := s.tasks[id := Task(ds, sql, None, Starting)])
    case Read(id) => s.(tasks := s.tasks[id := s.tasks[id].(reading := Some(s.clock))])
    case Match(id, key, formSupported) =>
      var t := s.tasks[id];
      var live := Live(s.pending, t.reading.value);
      if key.Some? then
        var pending := live - {key.value};
        s.(pending := pending, owner := Restrict(s.owner, pending.Keys), tasks := Move(s, id, Allowed),
           writes := s.writes + [Write(id, t.datasource, p.sha(t.sql),
                                       if key.value in s.owner then s.owner[key.value] else 0,
                                       live[key.value], t.reading.value)])
      else
        s.(pending := live, owner := Restrict(s.owner, live.Keys),
           tasks := Move(s, id, if formSupported then Eliciting else Denied))
    case Elicit(id, confirmed) =>
      if confirmed then
        s.(auths := s.auths + [Authorization(false, s.tasks[id].datasource, p.sha(s.tasks[id].sql))],
           tasks := Move(s, id, Confirmed(|s.auths|)))
      else s.(tasks := Move(s, id, Denied))
    case Mint(id, draws) =>
      var t := s.tasks[id];
      var (r, pending) := IssueAt(p, s.pending, t.reading, t.datasource, t.sql, draws);
      var owner := Restrict(s.owner, pending.Keys);
      if r.Approval? then
        s.(pending := pending, owner := owner[p.sha(r.token) := t.progress.auth], tasks := Move(s, id, Minted(r.token)))
      else s.(pending := pending, owner := owner, tasks := Move(s, id, Denied))
    case Redeem(id) =>
      var t := s.tasks[id];
      var key := p.sha(t.progress.token);
      var (ok, pending) := ConsumeOutcome(p.sha, s.pending, s.clock, t.progress.token, t.datasource, t.sql);
      var s' := s.(pending := pending, owner := Restrict(s.owner, pending.Keys),
                   tasks := Move(s, id, if ok then Allowed else Denied));
      if ok then
        s'.(writes := s.writes + [Write(id, t.datasource, p.sha(t.sql),
                                        if key in s.owner then s.owner[key] else 0,
                                        s.pending[key], s.clock)])
      else s'
  }

  const IDLE := Sys(0, map[], map[], [], [], map[], map[])

  /** A run of the system: any sequence of enabled actions from the empty registry. */
  ghost predicate IsRun(p: Params, actions: seq<Action>, states: seq<Sys>) {
    && |states| == |actions| + 1
    && states[0] == IDLE
    && forall i :: 0 <= i < |actions| ==>
         Enabled(p, states[i], actions[i]) && states[i + 1] == Next(p, states[i], actions[i])
  }

  // ---------------------------------------------------------------- the invariant

  predicate Injective(owner: map<Digest, nat>) {
    forall k, k' :: k in owner && k' in owner && k != k' ==> owner[k] != owner[k']
  }

  /** Each pending approval comes from an authorization for the same datasource and SQL. */
  predicate Backed(s: Sys) {
    forall k :: k in s.owner ==>
      && k in s.pending && s.owner[k] < |s.auths|
      && Matches(s.pending[k], s.auths[s.owner[k]].datasource, s.auths[s.owner[k]].sql)
  }

  predicate Owned(s: Sys) {
    && s.owner.Keys == s.pending.Keys
    && |s.pending| <= MAX_PENDING
    && Backed(s)
    && Injective(s.owner)
  }

  predicate WriteOk(s: Sys, x: Write) {
    && x.auth < |s.auths|
    && s.auths[x.auth].datasource == x.datasource && s.auths[x.auth].sql == x.sql
    && Matches(x.used, x.datasource, x.sql)
    && x.used.expiresAt > x.readAt
  }

  /** Every write used one unexpired approval that matched it exactly, and no two the same
      authorization; none of these is pending any more. */
  predicate Spent(s: Sys) {
    && (forall i :: 0 <= i < |s.writes| ==> WriteOk(s, s.writes[i]) && s.writes[i].auth !in s.owner.Values)
    && (forall i, j :: 0 <= i < j < |s.writes| ==> s.writes[i].auth != s.writes[j].auth)
  }

  predicate Holds(s: Sys, id: nat, auth: nat) {
    id in s.tasks && s.tasks[id].progress == Confirmed(auth)
  }

  predicate Free(s: Sys, a: nat) {
    && a < |s.auths|
    && a !in s.owner.Values
    && forall i :: 0 <= i < |s.writes| ==> s.writes[i].auth != a
  }

  /** A confirmation that has not been minted yet belongs to one task and to no approval. */
  ghost predicate Held(p: Params, s: Sys) {
    && (forall id: nat, a: nat :: Holds(s, id, a) ==>
          && Free(s, a)
          && s.auths[a].datasource == s.tasks[id].datasource && s.auths[a].sql == p.sha(s.tasks[id].sql))
    && (forall id: nat, id': nat, a: nat :: Holds(s, id, a) && Holds(s, id', a) ==> id == id')
  }

  ghost predicate Inv(p: Params, s: Sys) {
    Owned(s) && Spent(s) && Held(p, s)
  }

  // ---------------------------------------------------------------- preservation

  /** `s'` has lost some pending approvals and possibly some held confirmations, nothing else. */
  ghost predicate Shrinks(s: Sys, s': Sys) {
    && s'.pending.Keys <= s.pending.Keys
    && (forall k :: k in s'.pending ==> s'.pending[k] == s.pending[k])
    && s'.owner == Restrict(s.owner, s'.pending.Keys)
    && s'.auths == s.auths && s'.writes == s.writes && s.clock <= s'.clock
    && SameHolders(s, s')
  }

  ghost predicate SameHolders(s: Sys, s': Sys) {
    forall id: nat, a: nat :: Holds(s', id, a) ==>
      Holds(s, id, a) && s'.tasks[id].datasource == s.tasks[id].datasource && s'.tasks[id].sql == s.tasks[id].sql
  }

  lemma {:induction false} ShrinkKeepsInv(p: Params, s: Sys, s': Sys)
    requires Inv(p, s) && Shrinks(s, s')
    ensures Inv(p, s')
  {
    hide Owned, Spent, Held, SameHolders;
    OwnedShrinks(s, s');
    SpentShrinks(s, s');
    HeldShrinks(p, s, s');
  }

  lemma {:induction false} OwnedShrinks(s: Sys, s': Sys)
    requires Owned(s) && Shrinks(s, s')
    ensures Owned(s') && s'.owner.Values <= s.owner.Values
  {
    hide SameHolders;
    assert s'.owner.Keys == s'.pending.Keys;
    SubsetSize(s'.pending.Keys, s.pending.Keys);
    assert Backed(s') by { hide Injective, Matches; }
    assert Injective(s'.owner) by { hide Backed; }
  }

  lemma {:induction false} SpentShrinks(s: Sys, s': Sys)
    requires Spent(s) && s'.owner.Values <= s.owner.Values
    requires s'.auths == s.auths && s'.writes == s.writes && s.clock <= s'.clock
    ensures Spent(s')
  {
    forall i | 0 <= i < |s.writes| ensures WriteOk(s', s.writes[i]) { assert WriteOk(s, s.writes[i]); }
  }

  lemma {:induction false} HeldShrinks(p: Params, s: Sys, s': Sys)
    requires Held(p, s) && SameHolders(s, s') && s'.owner.Values <= s.owner.Values
    requires s'.auths == s.auths && s'.writes == s.writes
    ensures Held(p, s')
  {
  }

  lemma {:induction false} SubsetSize<T>(a: set<T>, b: set<T>)
    requires a <= b
    ensures |a| <= |b|
  {
    assert b == a + (b - a) && a * (b - a) == {};
  }

  ghost predicate Unheld(s: Sys, a: nat) {
    forall id: nat :: !Holds(s, id, a)
  }

  lemma {:induction false} AddKeepsInv(p: Params, s: Sys, s': Sys, key: Digest, b: Binding, a: nat)
    requires Inv(p, s) && Free(s, a) && Unheld(s, a) && key !in s.pending && |s.pending| < MAX_PENDING
    requires Matches(b, s.auths[a].datasource, s.auths[a].sql)
    requires s' == s.(pending := s.pending[key := b], owner := s.owner[key := a])
    ensures Inv(p, s')
  {
    hide Owned, Spent, Held, Unheld;
    OwnedAdds(s, s', key, b, a);
    SpentAdds(s, s', a);
    HeldAdds(p, s, s', a);
  }

  lemma {:induction false} OwnedAdds(s: Sys, s': Sys, key: Digest, b: Binding, a: nat)
    requires Owned(s) && Free(s, a) && key !in s.pending && |s.pending| < MAX_PENDING
    requires Matches(b, s.auths[a].datasource, s.auths[a].sql)
    requires s' == s.(pending := s.pending[key := b], owner := s.owner[key := a])
    ensures Owned(s') && s'.owner.Values <= s.owner.Values + {a}
  {
    hide Injective, Backed;
    assert s'.pending.Keys == s.pending.Keys + {key};
    assert s'.owner.Keys == s.owner.Keys + {key};
    InjectiveAdds(s.owner, key, a);
    BackedAdds(s, s', key, b, a);
  }

  lemma {:induction false} InjectiveAdds(owner: map<Digest, nat>, key: Digest, a: nat)
    requires Injective(owner) && a !in owner.Values
    ensures Injective(owner[key := a]) && owner[key := a].Values <= owner.Values + {a}
  {
    var owner' := owner[key := a];
    forall k, k' | k in owner' && k' in owner' && k != k' ensures owner'[k] != owner'[k'] {
      assert k != key ==> owner[k] in owner.Values;
      assert k' != key ==> owner[k'] in owner.Values;
    }
  }

  lemma {:induction false} BackedAdds(s: Sys, s': Sys, key: Digest, b: Binding, a: nat)
    requires Backed(s) && a < |s.auths| && Matches(b, s.auths[a].datasource, s.auths[a].sql)
    requires s' == s.(pending := s.pending[key := b], owner := s.owner[key := a])
    ensures Backed(s')
  {
    hide Matches;
  }

  lemma {:induction false} SpentAdds(s: Sys, s': Sys, a: nat)
    requires Spent(s) && Free(s, a) && s'.owner.Values <= s.owner.Values + {a}
    requires s'.auths == s.auths && s'.writes == s.writes && s'.clock == s.clock
    ensures Spent(s')
  {
    forall i | 0 <= i < |s.writes| ensures WriteOk(s', s.writes[i]) { assert WriteOk(s, s.writes[i]); }
  }

  lemma {:induction false} HeldAdds(p: Params, s: Sys, s': Sys, a: nat)
    requires Held(p, s) && Unheld(s, a) && s'.owner.Values <= s.owner.Values + {a}
    requires s'.auths == s.auths && s'.writes == s.writes && s'.tasks == s.tasks
    ensures Held(p, s')
  {
    forall id: nat, x: nat | Holds(s', id, x) ensures Holds(s, id, x) && x != a {
      assert Holds(s, id, x);
    }
  }

  lemma {:induction false} SpendKeepsInv(p: Params, s: Sys, s': Sys, key: Digest, x: Write)
    requires Inv(p, s) && key in s.pending && key in s.owner
    requires x.auth == s.owner[key] && x.used == s.pending[key] && Matches(x.used, x.datasource, x.sql)
    requires x.used.expiresAt > x.readAt
    requires s' == s.(pending := s.pending - {key}, owner := Restrict(s.owner, (s.pending - {key}).Keys),
                      writes := s.writes + [x])
    ensures Inv(p, s')
  {
    hide Owned, Spent, Held, Free, WriteOk, Restrict;
    var middle := s.(pending := s'.pending, owner := s'.owner);
    OwnedShrinks(s, middle);
    OwnedSpends(s, middle, key);
    OwnedWrites(middle, s');
    SpentWrite(s, s', key, x);
    WritesGrow(s, s', x);
    HeldSpends(p, s, s', x);
  }

  lemma {:induction false} OwnedSpends(s: Sys, s': Sys, key: Digest)
    requires Owned(s) && key in s.owner && s'.owner == Restrict(s.owner, (s.pending - {key}).Keys)
    ensures s.owner[key] in s.owner.Values && s.owner[key] !in s'.owner.Values
  {
  }

  lemma {:induction false} OwnedWrites(s: Sys, s': Sys)
    requires Owned(s) && s'.owner == s.owner && s'.pending == s.pending && s'.auths == s.auths
    ensures Owned(s')
  {
  }

  lemma {:induction false} SpentWrite(s: Sys, s': Sys, key: Digest, x: Write)
    requires Owned(s) && key in s.pending && key in s.owner
    requires x.auth == s.owner[key] && x.used == s.pending[key] && Matches(x.used, x.datasource, x.sql)
    requires x.used.expiresAt > x.readAt
    requires s'.auths == s.auths && s'.clock == s.clock
    ensures WriteOk(s', x)
  {
  }

  lemma {:induction false} HeldSpends(p: Params, s: Sys, s': Sys, x: Write)
    requires Held(p, s) && x.auth in s.owner.Values && s'.owner.Values <= s.owner.Values
    requires s'.auths == s.auths && s'.writes == s.writes + [x] && s'.tasks == s.tasks
    ensures Held(p, s')
  {
    forall id: nat, a: nat | Holds(s', id, a) ensures Holds(s, id, a) && Free(s', a) {
      assert Holds(s, id, a);
    }
  }

  lemma {:induction false} WritesGrow(s: Sys, s': Sys, x: Write)
    requires Spent(s) && WriteOk(s', x) && x.auth in s.owner.Values && x.auth !in s'.owner.Values
    requires s'.owner.Values <= s.owner.Values && s'.auths == s.auths && s'.clock == s.clock
    requires s'.writes == s.writes + [x]
    ensures Spent(s')
  {
    forall i | 0 <= i < |s.writes| ensures WriteOk(s', s.writes[i]) { assert WriteOk(s, s.writes[i]); }
  }

  // ---------------------------------------------------------------- steps

  lemma {:induction false} LiveShrinks(p: Pending, now: nat)
    ensures Live(p, now).Keys <= p.Keys
    ensures forall k :: k in Live(p, now) ==> Live(p, now)[k] == p[k] && p[k].expiresAt > now
  {
  }

  /** Purging expired approvals. */
  function Purged(s: Sys, now: nat): Sys {
    s.(pending := Live(s.pending, now), owner := Restrict(s.owner, Live(s.pending, now).Keys))
  }

  lemma {:induction false} PurgeKeepsInv(p: Params, s: Sys, now: nat)
    requires Inv(p, s)
    ensures Inv(p, Purged(s, now))
    ensures forall id: nat, a: nat :: Holds(Purged(s, now), id, a) ==> Holds(s, id, a)
    ensures Purged(s, now).owner.Values <= s.owner.Values
  {
    hide Inv;
    LiveShrinks(s.pending, now);
    var s' := Purged(s, now);
    assert SameHolders(s, s') by {
      forall id: nat, a: nat | Holds(s', id, a) ensures Holds(s, id, a) { assert s'.tasks == s.tasks; }
    }
    ShrinkKeepsInv(p, s, s');
  }

  /** Changing one task to a state that holds no confirmation. */
  lemma {:induction false} MoveKeepsInv(p: Params, s: Sys, id: nat, t: Task)
    requires Inv(p, s) && !t.progress.Confirmed?
    ensures Inv(p, s.(tasks := s.tasks[id := t]))
  {
    hide Owned, Spent, Held;
    var s' := s.(tasks := s.tasks[id := t]);
    assert SameHolders(s, s') by {
      forall i: nat, a: nat | Holds(s', i, a) ensures Holds(s, i, a) { }
    }
    SpentShrinks(s, s');
    HeldShrinks(p, s, s');
    OwnedWrites(s, s');
  }

  lemma {:induction false} AdvanceKeepsInv(p: Params, s: Sys, now: nat)
    requires Inv(p, s) && s.clock <= now
    ensures Inv(p, s.(clock := now))
  {
    hide Owned, Spent, Held;
    var s' := s.(clock := now);
    assert SameHolders(s, s') by {
      forall i: nat, a: nat | Holds(s', i, a) ensures Holds(s, i, a) { }
    }
    SpentShrinks(s, s');
    HeldShrinks(p, s, s');
    OwnedWrites(s, s');
  }

  /** A new authorization is free and held by nobody. */
  lemma {:induction false} AuthorizeKeepsInv(p: Params, s: Sys, x: Authorization)
    requires Inv(p, s)
    ensures var s' := s.(auths := s.auths + [x]);
            Inv(p, s') && Free(s', |s.auths|) && Unheld(s', |s.auths|)
  {
    var s' := s.(auths := s.auths + [x]);
    assert Owned(s') by { hide Spent, Held; }
    assert forall v :: v in s.owner.Values ==> v < |s.auths| by {
      hide Spent, Held;
      forall v | v in s.owner.Values ensures v < |s.auths| {
        var k :| k in s.owner && s.owner[k] == v;
      }
    }
    assert Spent(s') by {
      hide Owned, Held;
      forall i | 0 <= i < |s.writes| ensures WriteOk(s', s.writes[i]) { assert WriteOk(s, s.writes[i]); }
    }
    assert forall i :: 0 <= i < |s.writes| ==> s.writes[i].auth < |s.auths| by {
      hide Owned, Held;
      forall i | 0 <= i < |s.writes| ensures s.writes[i].auth < |s.auths| { assert WriteOk(s, s.writes[i]); }
    }
    assert Held(p, s') && Unheld(s', |s.auths|) by {
      hide Owned, Spent;
      forall id: nat, a: nat | Holds(s', id, a) ensures Holds(s, id, a) && Free(s', a) && a < |s.auths| {
        assert Holds(s, id, a);
      }
    }
  }

  lemma {:induction false} RestrictAll(s: Sys)
    requires Owned(s)
    ensures Restrict(s.owner, s.pending.Keys) == s.owner
  {
    hide Backed, Injective;
  }

  lemma {:induction false} HoldKeepsInv(p: Params, s: Sys, id: nat, a: nat, t: Task)
    requires Inv(p, s) && Free(s, a) && Unheld(s, a) && t.progress == Confirmed(a)
    requires s.auths[a].datasource == t.datasource && s.auths[a].sql == p.sha(t.sql)
    ensures Inv(p, s.(tasks := s.tasks[id := t]))
  {
    hide Owned, Spent;
    var s' := s.(tasks := s.tasks[id := t]);
    OwnedWrites(s, s');
    SpentShrinks(s, s');
    forall i: nat, x: nat | Holds(s', i, x) ensures Holds(s, i, x) || (i == id && x == a) { }
  }

  lemma {:induction false} IssueShape(p: Params, q: Pending, now: nat, ds: string, sql: string, draws: seq<string>)
    ensures var (r, q') := IssueOutcome(p.sha, p.blank, q, now, ds, sql, draws);
            match r
            case InvalidRequest => q' == q
            case Approval(token) =>
              && |Live(q, now)| < MAX_PENDING && p.sha(token) !in Live(q, now)
              && q' == Live(q, now)[p.sha(token) := Binding(ds, p.sha(sql), now + TTL)]
            case _ => q' == Live(q, now)
  {
    FirstFreshIsFresh(p.sha, Live(q, now), draws);
  }

  lemma {:induction false} OwnerOverwrite(owner: map<Digest, nat>, keys: set<Digest>, key: Digest, a: nat)
    ensures Restrict(owner, keys + {key})[key := a] == Restrict(owner, keys)[key := a]
  {
  }

  lemma {:induction false} PreapproveKeepsInv(p: Params, s: Sys, a: Action)
    requires Inv(p, s) && a.Preapprove? && Enabled(p, s, a)
    ensures Inv(p, Next(p, s, a))
  {
    hide Inv, IssueOutcome, Live, Restrict;
    var c := s.calls[a.id];
    var now := c.reading.value;
    var s0 := s.(calls := s.calls - {a.id});
    HostKeepsInv(p, s, s0.calls);
    IssueShape(p, s.pending, now, c.datasource, c.sql, a.draws);
    var (r, pending) := IssueOutcome(p.sha, p.blank, s.pending, now, c.datasource, c.sql, a.draws);
    PurgeKeepsInv(p, s0, now);
    RestrictOwned(p, s);
    if r.Approval? {
      var x := Authorization(true, c.datasource, p.sha(c.sql));
      var s1 := Purged(s0, now);
      AuthorizeKeepsInv(p, s1, x);
      var s2 := s1.(auths := s1.auths + [x]);
      var key, n := p.sha(r.token), |s.auths|;
      var b := Binding(c.datasource, p.sha(c.sql), now + TTL);
      OwnerOverwrite(s.owner, s1.pending.Keys, key, n);
      assert pending.Keys == s1.pending.Keys + {key};
      var s3 := s2.(pending := s2.pending[key := b], owner := s2.owner[key := n]);
      AddKeepsInv(p, s2, s3, key, b, n);
      assert Next(p, s, a) == s3;
    }
  }

  /** Steps of the host before its lock, and clock readings, touch neither approvals nor progress. */
  lemma {:induction false} SameTasksKeepsInv(p: Params, s: Sys, s': Sys)
    requires Inv(p, s) && s' == s.(calls := s'.calls, tasks := s'.tasks)
    requires SameHolders(s, s')
    ensures Inv(p, s')
  {
    hide Owned, Spent, Held, SameHolders, Restrict;
    RestrictOwned(p, s);
    ShrinkKeepsInv(p, s, s');
  }

  lemma {:induction false} ReadKeepsInv(p: Params, s: Sys, a: Action)
    requires Inv(p, s) && a.Read? && Enabled(p, s, a)
    ensures Inv(p, Next(p, s, a))
  {
    hide Inv;
    var s' := Next(p, s, a);
    forall id: nat, x: nat | Holds(s', id, x)
      ensures Holds(s, id, x)
      ensures s'.tasks[id].datasource == s.tasks[id].datasource && s'.tasks[id].sql == s.tasks[id].sql
    {
    }
    SameTasksKeepsInv(p, s, s');
  }

  lemma {:induction false} HostKeepsInv(p: Params, s: Sys, calls: map<nat, HostCall>)
    requires Inv(p, s)
    ensures Inv(p, s.(calls := calls))
  {
    hide Inv;
    var s' := s.(calls := calls);
    forall id: nat, x: nat | Holds(s', id, x)
      ensures Holds(s, id, x)
    {
      assert s'.tasks == s.tasks;
    }
    SameTasksKeepsInv(p, s, s');
  }

  lemma {:induction false} RestrictOwned(p: Params, s: Sys)
    requires Inv(p, s)
    ensures Restrict(s.owner, s.pending.Keys) == s.owner && s.owner.Keys == s.pending.Keys
  {
    hide Spent, Held;
    RestrictAll(s);
  }

  lemma {:induction false} ElicitKeepsInv(p: Params, s: Sys, a: Action)
    requires Inv(p, s) && a.Elicit? && Enabled(p, s, a)
    ensures Inv(p, Next(p, s, a))
  {
    hide Inv;
    var t := s.tasks[a.id];
    if a.confirmed {
      var x := Authorization(false, t.datasource, p.sha(t.sql));
      AuthorizeKeepsInv(p, s, x);
      var s1 := s.(auths := s.auths + [x]);
      HoldKeepsInv(p, s1, a.id, |s.auths|, t.(progress := Confirmed(|s.auths|), reading := None));
    } else {
      MoveKeepsInv(p, s, a.id, t.(progress := Denied, reading := None));
    }
  }

  /** Minting takes a confirmation out of its task and puts it behind a pending approval. */
  lemma {:induction false} HeldIsFree(p: Params, s: Sys, id: nat, a: nat, t: Task)
    requires Inv(p, s) && Holds(s, id, a) && !t.progress.Confirmed?
    ensures var s' := s.(tasks := s.tasks[id := t]);
            Free(s', a) && Unheld(s', a)
    ensures s.auths[a].datasource == s.tasks[id].datasource && s.auths[a].sql == p.sha(s.tasks[id].sql)
  {
    hide Owned, Spent;
    var s' := s.(tasks := s.tasks[id := t]);
    forall i: nat ensures !Holds(s', i, a) {
      assert Holds(s', i, a) ==> Holds(s, i, a) && i != id;
    }
  }

  lemma {:induction false} MintKeepsInv(p: Params, s: Sys, a: Action)
    requires Inv(p, s) && a.Mint? && Enabled(p, s, a)
    ensures Inv(p, Next(p, s, a))
  {
    hide Inv, IssueOutcome, Live, Restrict, Free, Unheld;
    var t := s.tasks[a.id];
    var now := t.reading.value;
    IssueShape(p, s.pending, now, t.datasource, t.sql, a.draws);
    var (r, pending) := IssueOutcome(p.sha, p.blank, s.pending, now, t.datasource, t.sql, a.draws);
    var s1 := Purged(s, now);
    PurgeKeepsInv(p, s, now);
    RestrictOwned(p, s);
    if r.Approval? {
      var auth := t.progress.auth;
      var t' := t.(progress := Minted(r.token), reading := None);
      assert Holds(s1, a.id, auth);
      HeldIsFree(p, s1, a.id, auth, t');
      MoveKeepsInv(p, s1, a.id, t');
      var s2 := s1.(tasks := s1.tasks[a.id := t']);
      var key := p.sha(r.token);
      var b := Binding(t.datasource, p.sha(t.sql), now + TTL);
      OwnerOverwrite(s.owner, s1.pending.Keys, key, auth);
      assert pending.Keys == s1.pending.Keys + {key};
      var s3 := s2.(pending := s2.pending[key := b], owner := s2.owner[key := auth]);
      AddKeepsInv(p, s2, s3, key, b, auth);
      assert Next(p, s, a) == s3;
    } else {
      MoveKeepsInv(p, s, a.id, t.(progress := Denied, reading := None));
      MoveKeepsInv(p, s1, a.id, t.(progress := Denied, reading := None));
    }
  }

  lemma {:induction false} RestrictTwice(owner: map<Digest, nat>, a: set<Digest>, b: set<Digest>)
    requires b <= a
    ensures Restrict(Restrict(owner, a), b) == Restrict(owner, b)
  {
  }

  lemma {:induction false} MatchKeepsInv(p: Params, s: Sys, a: Action)
    requires Inv(p, s) && a.Match? && Enabled(p, s, a)
    ensures Inv(p, Next(p, s, a))
  {
    hide Inv, Live, Restrict;
    var t := s.tasks[a.id];
    var now := t.reading.value;
    var s1 := Purged(s, now);
    PurgeKeepsInv(p, s, now);
    LiveShrinks(s.pending, now);
    RestrictOwned(p, s);
    RestrictOwned(p, s1);
    if a.key.Some? {
      var key := a.key.value;
      OwnerKept(s.owner, s1.pending.Keys, key);
      var x := Write(a.id, t.datasource, p.sha(t.sql), s.owner[key], s1.pending[key], now);
      var rest := s1.pending - {key};
      RestrictTwice(s.owner, s1.pending.Keys, rest.Keys);
      var s2 := s1.(pending := rest, owner := Restrict(s1.owner, rest.Keys), writes := s1.writes + [x]);
      SpendKeepsInv(p, s1, s2, key, x);
      MoveKeepsInv(p, s2, a.id, t.(progress := Allowed, reading := None));
    } else {
      MoveKeepsInv(p, s1, a.id, t.(progress := if a.formSupported then Eliciting else Denied, reading := None));
    }
  }

  lemma {:induction false} OwnerKept(owner: map<Digest, nat>, keys: set<Digest>, key: Digest)
    requires key in owner && key in keys
    ensures key in Restrict(owner, keys) && Restrict(owner, keys)[key] == owner[key]
  {
  }

  lemma {:induction false} RedeemKeepsInv(p: Params, s: Sys, a: Action)
    requires Inv(p, s) && a.Redeem? && Enabled(p, s, a)
    ensures Inv(p, Next(p, s, a))
  {
    hide Inv, Restrict, TokenShape;
    var t := s.tasks[a.id];
    var key := p.sha(t.progress.token);
    var (ok, pending) := ConsumeOutcome(p.sha, s.pending, s.clock, t.progress.token, t.datasource, t.sql);
    RestrictOwned(p, s);
    if ok {
      var x := Write(a.id, t.datasource, p.sha(t.sql), s.owner[key], s.pending[key], s.clock);
      var s1 := s.(pending := pending, owner := Restrict(s.owner, pending.Keys), writes := s.writes + [x]);
      SpendKeepsInv(p, s, s1, key, x);
      MoveKeepsInv(p, s1, a.id, t.(progress := Allowed, reading := None));
    } else {
      var s1 := s.(pending := pending, owner := Restrict(s.owner, pending.Keys));
      assert SameHolders(s, s1) by {
        forall i: nat, y: nat | Holds(s1, i, y) ensures Holds(s, i, y) { assert s1.tasks == s.tasks; }
      }
      ShrinkKeepsInv(p, s, s1);
      MoveKeepsInv(p, s1, a.id, t.(progress := Denied, reading := None));
    }
  }

  /** Every step keeps the invariant. */
  lemma {:induction false} StepKeepsInv(p: Params, s: Sys, a: Action)
    requires Inv(p, s) && Enabled(p, s, a)
    ensures Inv(p, Next(p, s, a))
  {
    hide Inv, IssueOutcome, ConsumeOutcome, Live, Restrict, Finds;
    match a
    case Advance(now) => AdvanceKeepsInv(p, s, now);
    case HostBegin(_, _, _) => HostKeepsInv(p, s, Next(p, s, a).calls);
    case HostRead(_) => HostKeepsInv(p, s, Next(p, s, a).calls);
    case Preapprove(_, _) => PreapproveKeepsInv(p, s, a);
    case Begin(id, ds, sql) => MoveKeepsInv(p, s, id, Task(ds, sql, None, Starting));
    case Read(_) => ReadKeepsInv(p, s, a);
    case Match(_, _, _) => MatchKeepsInv(p, s, a);
    case Elicit(_, _) => ElicitKeepsInv(p, s, a);
    case Mint(_, _) => MintKeepsInv(p, s, a);
    case Redeem(_) => RedeemKeepsInv(p, s, a);
  }

  lemma {:induction false} IdleInv(p: Params)
    ensures Inv(p, IDLE)
  {
  }

  lemma {:induction false} RunKeepsInv(p: Params, actions: seq<Action>, states: seq<Sys>, n: nat)
    requires IsRun(p, actions, states) && n < |states|
    ensures Inv(p, states[n])
  {
    hide Inv, Enabled, Next;
    if n == 0 {
      IdleInv(p);
    } else {
      RunKeepsInv(p, actions, states, n - 1);
      StepKeepsInv(p, states[n - 1], actions[n - 1]);
    }
  }

  // ---------------------------------------------------------------- conservation

  ghost function WritesFor(s: Sys, ds: string, sql: Digest): set<nat> {
    set i | 0 <= i < |s.writes| && s.writes[i].datasource == ds && s.writes[i].sql == sql
  }

  ghost function PendingFor(s: Sys, ds: string, sql: Digest): set<Digest> {
    set k | k in s.pending && Matches(s.pending[k], ds, sql)
  }

  ghost function AuthorizationsFor(s: Sys, byHost: bool, ds: string, sql: Digest): set<nat> {
    set a | 0 <= a < |s.auths| && s.auths[a] == Authorization(byHost, ds, sql)
  }

  lemma {:induction false} InjectiveImage<K, V>(f: map<K, V>, ks: set<K>, image: set<V>)
    requires ks <= f.Keys
    requires forall k, k' :: k in ks && k' in ks && k != k' ==> f[k] != f[k']
    requires forall k :: k in ks ==> f[k] in image
    ensures |ks| <= |image|
    decreases |ks|
  {
    if ks != {} {
      var k :| k in ks;
      forall x | x in ks - {k} ensures f[x] in image - {f[k]} { }
      InjectiveImage(f, ks - {k}, image - {f[k]});
    }
  }

  /** Over every interleaving, for each datasource and SQL digest: the writes let through and the
      approvals still pending never outnumber the host's preapprovals and the confirmed
      elicitations for exactly that datasource and SQL. */
  lemma {:induction false} ApprovalsAreConserved(p: Params, actions: seq<Action>, states: seq<Sys>, n: nat,
                                                 ds: string, sql: Digest)
    requires IsRun(p, actions, states) && n < |states|
    ensures var s := states[n];
            var writes := set i | 0 <= i < |s.writes| && s.writes[i].datasource == ds && s.writes[i].sql == sql;
            var pending := set k | k in s.pending && s.pending[k].datasource == ds && s.pending[k].sql == sql;
            var preapproved := set a | 0 <= a < |s.auths| && s.auths[a] == Authorization(true, ds, sql);
            var confirmed := set a | 0 <= a < |s.auths| && s.auths[a] == Authorization(false, ds, sql);
            |writes| + |pending| <= |preapproved| + |confirmed|
    ensures |states[n].pending| <= 256
  {
    RunKeepsInv(p, actions, states, n);
    hide IsRun, Held;
    var s := states[n];
    LedgerBalances(s, ds, sql);
    assert PendingFor(s, ds, sql) == set k | k in s.pending && s.pending[k].datasource == ds && s.pending[k].sql == sql;
  }

  lemma {:induction false} LedgerBalances(s: Sys, ds: string, sql: Digest)
    requires Owned(s) && Spent(s)
    ensures |WritesFor(s, ds, sql)| + |PendingFor(s, ds, sql)|
            <= |AuthorizationsFor(s, true, ds, sql)| + |AuthorizationsFor(s, false, ds, sql)|
  {
    var ws, ps := WritesFor(s, ds, sql), PendingFor(s, ds, sql);
    var host, user := AuthorizationsFor(s, true, ds, sql), AuthorizationsFor(s, false, ds, sql);
    var wrote := set i | i in ws :: s.writes[i].auth;
    var waits := set k | k in ps :: s.owner[k];
    WritesCount(s, ws, wrote);
    WritesAuthorized(s, ds, sql, wrote);
    hide WritesFor, AuthorizationsFor, Spent;
    WaitsAuthorized(s, ds, sql, waits);
    hide Owned, PendingFor;
    SubsetSize(wrote + waits, host + user);
    DisjointSize(wrote, waits);
    DisjointSize(host, user);
  }

  lemma {:induction false} DisjointSize(a: set<nat>, b: set<nat>)
    requires a * b == {}
    ensures |a + b| == |a| + |b|
  {
  }

  lemma {:induction false} WritesAuthorized(s: Sys, ds: string, sql: Digest, wrote: set<nat>)
    requires Spent(s) && wrote == set i | i in WritesFor(s, ds, sql) :: s.writes[i].auth
    ensures wrote <= AuthorizationsFor(s, true, ds, sql) + AuthorizationsFor(s, false, ds, sql)
    ensures wrote * s.owner.Values == {}
    ensures AuthorizationsFor(s, true, ds, sql) * AuthorizationsFor(s, false, ds, sql) == {}
  {
    forall a | a in wrote
      ensures a in AuthorizationsFor(s, true, ds, sql) + AuthorizationsFor(s, false, ds, sql) && a !in s.owner.Values
    {
      var i :| i in WritesFor(s, ds, sql) && s.writes[i].auth == a;
      assert WriteOk(s, s.writes[i]);
    }
  }

  lemma {:induction false} WaitsAuthorized(s: Sys, ds: string, sql: Digest, waits: set<nat>)
    requires Owned(s) && waits == set k | k in PendingFor(s, ds, sql) :: s.owner[k]
    ensures waits <= AuthorizationsFor(s, true, ds, sql) + AuthorizationsFor(s, false, ds, sql)
    ensures waits <= s.owner.Values && |PendingFor(s, ds, sql)| <= |waits|
  {
    InjectiveImage(s.owner, PendingFor(s, ds, sql), waits);
  }

  lemma {:induction false} WritesCount(s: Sys, ws: set<nat>, wrote: set<nat>)
    requires Spent(s) && (forall i :: i in ws ==> i < |s.writes|) && (forall i :: i in ws ==> s.writes[i].auth in wrote)
    ensures |ws| <= |wrote|
  {
    var f := map i | i in ws :: s.writes[i].auth;
    assert forall i, j :: i in ws && j in ws && i != j ==> f[i] != f[j] by {
      forall i, j | i in ws && j in ws && i != j ensures f[i] != f[j] {
        if i < j { assert s.writes[i].auth != s.writes[j].auth; } else { assert s.writes[j].auth != s.writes[i].auth; }
      }
    }
    InjectiveImage(f, ws, wrote);
  }

  /** Each write used up one authorization of its own, through an approval that matched it exactly. */
  lemma {:induction false} WritesAreDistinct(p: Params, actions: seq<Action>, states: seq<Sys>, n: nat, i: nat)
    requires IsRun(p, actions, states) && n < |states| && i < |states[n].writes|
    ensures var s := states[n];
            var x := s.writes[i];
            && x.auth < |s.auths| && s.auths[x.auth].datasource == x.datasource && s.auths[x.auth].sql == x.sql
            && x.used.datasource == x.datasource && x.used.sql == x.sql && x.used.expiresAt > x.readAt
            && forall j :: 0 <= j < |s.writes| && j != i ==> s.writes[j].auth != x.auth
  {
    RunKeepsInv(p, actions, states, n);
    hide IsRun, Held, Owned;
    var s := states[n];
    assert WriteOk(s, s.writes[i]);
    forall j | 0 <= j < |s.writes| && j != i ensures s.writes[j].auth != s.writes[i].auth {
      if j < i { assert s.writes[j].auth != s.writes[i].auth; } else { assert s.writes[i].auth != s.writes[j].auth; }
    }
  }
}
