// Runs, from an empty database, in which a property that provider sign-in has almost always fails.
module LinkExamples {
  import opened Options
  import opened ProviderLinks
  import opened LinkProtocol
  import opened LinkTheorems
  import opened LinkAlone
  import opened LinkShadow
  import opened LinkCleanup

  ghost predicate NoCleanups(acts: seq<Action>) {
    forall a: Action :: a in acts ==> !a.Cleanup?
  }

  // `t` is reached from `s` without a cleanup.
  ghost predicate Calm(s: State, t: State) {
    exists acts :: Run(s, acts, t) && NoCleanups(acts)
  }

  lemma CalmTrans(s: State, t: State, u: State)
    requires Calm(s, t) && Calm(t, u)
    ensures Calm(s, u)
  {
    var acts :| Run(s, acts, t) && NoCleanups(acts);
    var more :| Run(t, more, u) && NoCleanups(more);
    RunAppended(s, acts, t, more, u);
    assert NoCleanups(acts + more);
  }

  lemma RunOfOne(s: State, a: Action)
    requires Enabled(s, a)
    ensures Run(s, [a], Apply(s, a))
  {
    assert [a][0] == a && [a][1..] == [];
    assert Run(Apply(s, a), [a][1..], Apply(s, a));
  }

  lemma CalmStep(s: State, t: State, a: Action)
    requires Calm(s, t) && Enabled(t, a) && !a.Cleanup?
    ensures Calm(s, Apply(t, a))
  {
    RunOfOne(t, a);
    assert NoCleanups([a]);
    CalmTrans(s, t, Apply(t, a));
  }

  lemma CalmSelf(s: State)
    ensures Calm(s, s)
  {
    assert Run(s, [], s) && NoCleanups([]);
  }

  lemma CalmAlone(s: State, t: State, p: Pid, u: State)
    requires Calm(s, t) && Alone(t, p, u)
    ensures Calm(s, u)
  {
    var acts :| Run(t, acts, u) && OwnSteps(acts, p);
    assert NoCleanups(acts);
    CalmTrans(s, t, u);
  }

  lemma {:induction false} PrunedAfter(calm: seq<Action>, acts: seq<Action>, bare: seq<Action>)
    requires NoCleanups(calm) && Pruned(acts, bare)
    ensures Pruned(calm + acts, calm + bare)
    decreases |calm|
  {
    if calm == [] {
      assert calm + acts == acts && calm + bare == bare;
    } else {
      PrunedAfter(calm[1..], acts, bare);
      assert (calm + acts)[1..] == calm[1..] + acts && (calm + bare)[1..] == calm[1..] + bare;
      assert calm[0] in calm;
    }
  }

  // Two runs that part in a state both reach without a cleanup: the one sweeps there, the other does not.
  lemma Twins(s: State, t: State, cutoff: Time, x: seq<Action>, u: State, y: seq<Action>, v: State)
    returns (acts: seq<Action>, bare: seq<Action>)
    requires Calm(s, t) && cutoff <= t.clock && Pruned(x, y)
    requires Run(Apply(t, Cleanup(cutoff)), x, u) && Run(t, y, v)
    ensures Run(s, acts, u) && Run(s, bare, v) && Pruned(acts, bare)
  {
    var calm :| Run(s, calm, t) && NoCleanups(calm);
    var sweep := [Cleanup(cutoff)];
    RunOfOne(t, Cleanup(cutoff));
    RunAppended(t, sweep, Apply(t, Cleanup(cutoff)), x, u);
    RunAppended(s, calm, t, sweep + x, u);
    RunAppended(s, calm, t, y, v);
    assert (sweep + x)[0] == Cleanup(cutoff) && (sweep + x)[1..] == x;
    PrunedAfter(calm, sweep + x, y);
    acts, bare := calm + (sweep + x), calm + y;
  }

  lemma SamePruned(a: Action, b: Action)
    requires SameMove(a, b) && !a.Cleanup?
    ensures Pruned([a], [b])
  {
    assert Pruned([a][1..], [b][1..]);
  }

  // ---------- A request on its way ----------

  // An account with the identity's e-mail, which is verified, and no link for it.
  ghost predicate Joinable(s: State, identity: Identity) {
    identity.emailVerified && identity.email in s.users && identity.key !in s.links
  }

  lemma Registered(s: State, identity: Identity) returns (t: State)
    requires Init(s) && identity.emailVerified
    ensures Calm(s, t) && Joinable(t, identity) && t.links == map[] && t.pending == map[] && t.procs == map[]
    ensures Inv(t) && FlightOk(t)
  {
    InitIsInv(s);
    CalmSelf(s);
    t := Apply(s, Register(identity.email));
    CalmStep(s, s, Register(identity.email));
    StepKeepsBoth(s, Register(identity.email));
  }

  lemma LookupStep(s: State, p: Pid, identity: Identity)
    requires p in s.procs && s.procs[p] == Lookup(identity) && identity.key !in s.links
    ensures Enabled(s, Advance(p, 0)) && Apply(s, Advance(p, 0)) == Put(s, p, ByEmail(identity))
  {
  }

  lemma ByEmailStep(s: State, p: Pid, identity: Identity)
    requires p in s.procs && s.procs[p] == ByEmail(identity) && Joinable(s, identity)
    ensures Enabled(s, Advance(p, 0))
    ensures Apply(s, Advance(p, 0)) == Put(s, p, Requesting(identity, s.users[identity.email]))
  {
  }

  lemma PutTwice(s: State, p: Pid, a: Proc, b: Proc)
    ensures Put(Put(s, p, a), p, b) == Put(s, p, b)
  {
  }

  lemma AtRequest(s: State, t: State, p: Pid, identity: Identity)
    requires Calm(s, t) && Joinable(t, identity) && p !in t.procs
    ensures Calm(s, Put(t, p, Requesting(identity, t.users[identity.email])))
  {
    var t1, t2 := Put(t, p, Lookup(identity)), Put(t, p, ByEmail(identity));
    CalmStep(s, t, Begin(p, Lookup(identity)));
    LookupStep(t1, p, identity);
    PutTwice(t, p, Lookup(identity), ByEmail(identity));
    CalmStep(s, t1, Advance(p, 0));
    ByEmailStep(t2, p, identity);
    PutTwice(t, p, ByEmail(identity), Requesting(identity, t.users[identity.email]));
    CalmStep(s, t2, Advance(p, 0));
  }

  lemma NothingMatches(rows: PendingTable, user: UserId, key: Key, now: Time)
    requires rows == map[]
    ensures Matching(rows, user, key) == {} && !CoolingDown(rows, user, key, now)
  {
  }

  // A first request that reaches the issue, up to the commit of its row.
  lemma FirstIssue(s: State, p: Pid, identity: Identity, user: UserId) returns (u: State)
    requires TablesOk(s) && p in s.procs && s.procs[p] == Requesting(identity, user) && s.pending == map[]
    ensures Alone(s, p, u) && u.links == s.links && u.users == s.users && u.clock == s.clock
    ensures u.pending == map[s.nextPending := Ask(identity, user, s.nextToken, s.clock).Row()]
    ensures p in u.procs && u.procs == s.procs[p := u.procs[p]]
  {
    NothingMatches(s.pending, user, identity.key, s.clock);
    u := IssueAloneRuns(s, p, identity, user, 0);
  }

  lemma FirstRow(s: State, t: State, p: Pid, identity: Identity) returns (u: State)
    requires Calm(s, t) && TablesOk(t) && Joinable(t, identity) && p !in t.procs && t.pending == map[]
    ensures Calm(s, u) && u.links == t.links && u.users == t.users && u.clock == t.clock
    ensures u.pending == map[t.nextPending := Ask(identity, t.users[identity.email], t.nextToken, t.clock).Row()]
    ensures u.procs.Keys == t.procs.Keys + {p} && forall q :: q in t.procs ==> u.procs[q] == t.procs[q]
  {
    AtRequest(s, t, p, identity);
    var t1 := Put(t, p, Requesting(identity, t.users[identity.email]));
    u := FirstIssue(t1, p, identity, t.users[identity.email]);
    CalmAlone(s, t1, p, u);
  }

  // ---------- Cleanups that are noticed ----------

  // The row of a request in the last millisecond of its life.
  lemma LastMillisecond(s: State, identity: Identity) returns (t: State, id: Id)
    requires Init(s) && identity.emailVerified
    ensures Calm(s, t) && t.links == map[] && 1 !in t.procs && t.pending.Keys == {id}
    ensures t.pending[id].key == identity.key && t.pending[id].expiresAt == t.clock + 1
  {
    var s1 := Registered(s, identity);
    var s2 := FirstRow(s, s1, 0, identity);
    var wait := Tick((LINK_TTL_MS - 1) as nat);
    CalmStep(s, s2, wait);
    t, id := Apply(s2, wait), s1.nextPending;
  }

  lemma OnlyClaim(rows: PendingTable, claim: Claim)
    requires rows.Keys == {claim.id} && rows[claim.id] == claim.row
    requires claim.row.tokenHash == claim.token && claim.row.expiresAt > claim.now
    ensures FindClaim(rows, claim.token, claim.now) == Claiming(claim)
  {
    assert Claimable(rows, claim.id, claim.token, claim.now);
  }

  // A `confirm` has read its row, which then expires.
  lemma ReadInTime(s: State, identity: Identity) returns (t: State, claim: Claim)
    requires Init(s) && identity.emailVerified
    ensures Calm(s, t) && 1 in t.procs && t.procs[1] == Claiming(claim)
    ensures t.links == map[] && t.pending == map[claim.id := claim.row]
    ensures Claimable(t.pending, claim.id, claim.token, claim.now) && claim.row.expiresAt == t.clock
  {
    var s1, id := LastMillisecond(s, identity);
    var row := s1.pending[id];
    var s2 := Put(s1, 1, Confirming(row.tokenHash));
    CalmStep(s, s1, Begin(1, Confirming(row.tokenHash)));
    FindStep(s2, 1, row.tokenHash);
    claim := Claim(row.tokenHash, s2.clock, id, row);
    OnlyClaim(s2.pending, claim);
    var s3 := Put(s2, 1, Claiming(claim));
    CalmAlone(s, s2, 1, s3);
    CalmStep(s, s3, Tick(1));
    t := Apply(s3, Tick(1));
  }

  lemma TwoSteps(s: State, a: Action, b: Action)
    requires Enabled(s, a) && Enabled(Apply(s, a), b)
    ensures Run(s, [a, b], Apply(Apply(s, a), b))
  {
    RunOfOne(s, a);
    RunOfOne(Apply(s, a), b);
    RunAppended(s, [a], Apply(s, a), [b], Apply(Apply(s, a), b));
    assert [a] + [b] == [a, b];
  }

  lemma ClaimingStep(s: State, p: Pid, claim: Claim)
    requires p in s.procs && s.procs[p] == Claiming(claim)
    ensures Enabled(s, Advance(p, 0))
    ensures Apply(s, Advance(p, 0)) ==
            Put(s, p, LookingUp(claim, Claimable(s.pending, claim.id, claim.token, claim.now)))
  {
  }

  lemma UnlinkedStep(s: State, p: Pid, claim: Claim, claimed: bool)
    requires p in s.procs && s.procs[p] == LookingUp(claim, claimed) && claim.row.key !in s.links
    ensures Enabled(s, Advance(p, 0))
    ensures Apply(s, Advance(p, 0)) == Put(s, p, if claimed then Linking(claim) else Done(BadToken))
  {
    LookUpAs(s, p, claim, claimed);
  }

  lemma LinkingConfirms(s: State, p: Pid, claim: Claim)
    requires p in s.procs && s.procs[p] == Linking(claim) && claim.row.key !in s.links
    ensures Enabled(s, Advance(p, 0))
    ensures p in Apply(s, Advance(p, 0)).procs && Apply(s, Advance(p, 0)).procs[p] == Done(Confirmed(claim))
  {
  }

  // Claim and look-up, the row being there or not.
  lemma ClaimAndLookUp(s: State, claim: Claim, claimed: bool) returns (t: State)
    requires 1 in s.procs && s.procs[1] == Claiming(claim) && claim.row.key !in s.links
    requires claimed == Claimable(s.pending, claim.id, claim.token, claim.now)
    ensures Run(s, [Advance(1, 0), Advance(1, 0)], t)
    ensures t == Put(s, 1, if claimed then Linking(claim) else Done(BadToken))
  {
    ClaimingStep(s, 1, claim);
    var s1 := Put(s, 1, LookingUp(claim, claimed));
    UnlinkedStep(s1, 1, claim, claimed);
    t := Put(s, 1, if claimed then Linking(claim) else Done(BadToken));
    PutTwice(s, 1, LookingUp(claim, claimed), if claimed then Linking(claim) else Done(BadToken));
    TwoSteps(s, Advance(1, 0), Advance(1, 0));
  }

  // A cleanup between the read and the claim of a `confirm` takes the row it has read: its token is bad, where
  // without the cleanup its next step confirms.
  lemma CleanupCatchesConfirm(s: State, identity: Identity)
    returns (acts: seq<Action>, t: State, bare: seq<Action>, e: State)
    requires Init(s) && identity.emailVerified
    ensures Run(s, acts, t) && Run(s, bare, e) && Pruned(acts, bare)
    ensures 1 in t.procs && t.procs[1] == Done(BadToken)
    ensures 1 in e.procs && e.procs[1].Linking? && Enabled(e, Advance(1, 0))
    ensures 1 in Apply(e, Advance(1, 0)).procs && Apply(e, Advance(1, 0)).procs[1] == Done(Confirmed(e.procs[1].claim))
  {
    var u, claim := ReadInTime(s, identity);
    var swept := Apply(u, Cleanup(u.clock));
    assert swept.pending == map[];
    t := ClaimAndLookUp(swept, claim, false);
    e := ClaimAndLookUp(u, claim, true);
    LinkingConfirms(e, 1, claim);
    var two := [Advance(1, 0), Advance(1, 0)];
    PrunedSelf(two);
    acts, bare := Twins(s, u, u.clock, two, t, two, e);
  }

  lemma {:induction false} PrunedSelf(acts: seq<Action>)
    requires NoCleanups(acts)
    ensures Pruned(acts, acts)
    decreases |acts|
  {
    if acts != [] {
      assert acts[0] in acts;
      PrunedSelf(acts[1..]);
    }
  }

  // A request that reads what is pending fifteen minutes after it looked at the clock.
  lemma LateRequest(s: State, identity: Identity) returns (t: State, ask: Ask, id: Id)
    requires Init(s) && identity.emailVerified
    ensures Calm(s, t) && 1 in t.procs && t.procs[1] == FindingExisting(ask) && t.pending.Keys == {id}
    ensures IsNewest(t.pending, ask.user, ask.identity.key, id)
    ensures ask.now - t.pending[id].createdAt == 59_999 && t.pending[id].expiresAt <= t.clock
  {
    var s1 := Registered(s, identity);
    var s2 := FirstRow(s, s1, 0, identity);
    CalmStep(s, s2, Tick(59_999));
    var s3 := Apply(s2, Tick(59_999));
    AtRequest(s, s3, 1, identity);
    var s4 := Put(s3, 1, Requesting(identity, s3.users[identity.email]));
    CalmStep(s, s4, Advance(1, 0));
    var s5 := StartAsk(s4, 1, identity, s3.users[identity.email]);
    assert Progress(s4, 1, 0) == s5;
    var wait := Tick(LINK_TTL_MS as nat);
    CalmStep(s, s5, wait);
    t, ask, id := Apply(s5, wait), s5.procs[1].ask, s1.nextPending;
  }

  // A cleanup before such a read takes the row that is still cooling down for it: the request goes on, where
  // without the cleanup it is refused.
  lemma CleanupCatchesRequest(s: State, identity: Identity)
    returns (acts: seq<Action>, t: State, bare: seq<Action>, e: State)
    requires Init(s) && identity.emailVerified
    ensures Run(s, acts, t) && Run(s, bare, e) && Pruned(acts, bare)
    ensures 1 in t.procs && t.procs[1].Deleting?
    ensures 1 in e.procs && e.procs[1].Done? && e.procs[1].outcome.Cooldown?
  {
    var u, ask, id := LateRequest(s, identity);
    var swept := Apply(u, Cleanup(u.clock));
    assert swept.pending == map[];
    t, e := CheckCooldown(swept, 1, ask, id), CheckCooldown(u, 1, ask, id);
    RunOfOne(swept, Advance(1, id));
    RunOfOne(u, Advance(1, id));
    SamePruned(Advance(1, id), Advance(1, id));
    acts, bare := Twins(s, u, u.clock, [Advance(1, id)], t, [Advance(1, id)], e);
  }

  // ---------- A cooldown that is missed ----------

  // A request that found nothing pending.
  lemma NothingPending(s: State, identity: Identity) returns (t: State, ask: Ask)
    requires Init(s) && identity.emailVerified
    ensures Calm(s, t) && Joinable(t, identity) && t.procs == map[0 := Deleting(ask)] && t.pending == map[]
    ensures ask == Ask(identity, t.users[identity.email], ask.token, t.clock)
  {
    var s1 := Registered(s, identity);
    AtRequest(s, s1, 0, identity);
    var user := s1.users[identity.email];
    var s2 := Put(s1, 0, Requesting(identity, user));
    CooldownStep(s2, 0, identity, user, 0);
    ask := Ask(identity, user, s2.nextToken, s2.clock);
    var s3 := StartAsk(s2, 0, identity, user);
    CooldownCheck(s3, 0, ask, 0);
    t := Put(s3, 0, Deleting(ask));
    CalmAlone(s, s2, 0, t);
  }

  // Two requests for one account at the same moment: the second commits between the first one's read and its
  // delete, and the first replaces a row of age zero.
  lemma CooldownMissed(s: State, identity: Identity) returns (t: State, ask: Ask, id: Id, u: State)
    requires Init(s) && identity.emailVerified
    ensures Calm(s, t) && 0 in t.procs && t.procs[0] == Deleting(ask) && Alone(t, 0, u)
    ensures id in t.pending && t.pending[id].createdAt == ask.now && 0 in u.procs
    ensures u.procs[0].Enqueueing? && u.procs[0].id != id && id !in u.pending
  {
    var s1: State;
    s1, ask := NothingPending(s, identity);
    CalmKeepsInv(s, s1);
    t := FirstRow(s, s1, 1, identity);
    id := s1.nextPending;
    ReplaceAlone(t, 0, ask);
    CalmKeepsInv(s, t);
    u := Replaces(t, ask, id);
  }

  lemma Replaces(t: State, ask: Ask, id: Id) returns (u: State)
    requires Inv(t) && FlightOk(t) && 0 in t.procs && t.procs[0] == Deleting(ask)
    requires id in Matching(t.pending, ask.user, ask.identity.key)
    ensures u == CommitIssue(t, 0, ask, Matching(t.pending, ask.user, ask.identity.key))
    ensures 0 in u.procs && u.procs[0].Enqueueing? && u.procs[0].id != id && id !in u.pending
  {
    u := CommitIssue(t, 0, ask, Matching(t.pending, ask.user, ask.identity.key));
    assert InFlight(t.procs[0]) == Some(ask.token);
    assert !Blocked(t.pending, Matching(t.pending, ask.user, ask.identity.key), ask.Row());
  }

  lemma CalmKeepsInv(s: State, t: State)
    requires Init(s) && Calm(s, t)
    ensures Inv(t) && FlightOk(t)
  {
    var acts :| Run(s, acts, t) && NoCleanups(acts);
    InitIsInv(s);
    RunKeepsBoth(s, acts, t);
  }
}
