// Two runs of provider sign-in side by side, with the same calls, failures and ticks: `s` has cleanups, `d` has
// none, and `h` is the latest cutoff so far. What keeps them in step, and the steps at which a cleanup is noticed.
module LinkShadow {
  import opened ProviderLinks
  import opened LinkProtocol
  import opened LinkTheorems
  import opened LinkSteps

  // What counts of a call: everything but which rows its uncommitted delete saw, whether its claim met its row,
  // and which row made it wait.
  function Kind(pc: Proc): Proc {
    match pc
    case Inserting(ask, _) => Inserting(ask, {})
    case LookingUp(claim, _) => LookingUp(claim, true)
    case Done(Cooldown(_)) => Done(Cooldown(0))
    case _ => pc
  }

  ghost predicate SameCalls(s: State, d: State) {
    s.procs.Keys == d.procs.Keys && forall p :: p in s.procs ==> Kind(s.procs[p]) == Kind(d.procs[p])
  }

  // The same step, but for the database's choice among equally new rows.
  predicate SameMove(a: Action, b: Action) {
    a == b || (a.Advance? && b.Advance? && a.p == b.p)
  }

  // A row that only a cleanup has removed.
  predicate Swept(s: State, d: State, i: Id) {
    i in d.pending && i !in s.pending
  }

  // ---------- In step ----------

  ghost predicate TablesShadow(s: State, d: State) {
    && s.clock == d.clock && s.users == d.users && s.links == d.links && s.births == d.births && s.asks == d.asks
    && s.origins == d.origins
    && s.nextUser == d.nextUser && s.nextPending == d.nextPending && s.nextToken == d.nextToken
  }

  ghost predicate RowsShadow(rows: PendingTable, all: PendingTable, h: Time) {
    && Extends(rows, all)
    && forall i :: i in all && i !in rows ==> all[i].expiresAt <= h
  }

  // The two views of an uncommitted delete agree on what is still stored.
  ghost predicate DoomedShadow(rows: PendingTable, next: Id, a: set<Id>, b: set<Id>) {
    && (forall i :: i in a || i in b ==> i < next)
    && (forall i :: i in rows ==> (i in a <==> i in b))
  }

  // A claim that missed a row which is there without cleanups missed it for having expired.
  ghost predicate ClaimShadow(s: State, h: Time, claim: Claim, a: bool, b: bool) {
    a != b ==> b && claim.id < s.nextPending && claim.id !in s.pending && claim.row.expiresAt <= h
  }

  ghost predicate LocalsShadow(s: State, h: Time, a: Proc, b: Proc) {
    && Kind(a) == Kind(b)
    && (a.Inserting? && b.Inserting? ==> DoomedShadow(s.pending, s.nextPending, a.doomed, b.doomed))
    && (a.LookingUp? && b.LookingUp? ==> ClaimShadow(s, h, a.claim, a.claimed, b.claimed))
  }

  ghost predicate CallsShadow(s: State, d: State, h: Time) {
    s.procs.Keys == d.procs.Keys && forall p :: p in s.procs ==> LocalsShadow(s, h, s.procs[p], d.procs[p])
  }

  ghost predicate Shadow(s: State, d: State, h: Time) {
    TablesShadow(s, d) && h <= s.clock && RowsShadow(s.pending, d.pending, h) && CallsShadow(s, d, h)
  }

  // ---------- Noticed ----------

  // The next step of the call meets a difference the cleanups made.
  ghost predicate Caught(s: State, d: State, a: Action) {
    a.Advance? && a.p in s.procs && a.p in d.procs &&
    match s.procs[a.p]
    case FindingValid(token, now) =>
      exists i :: Swept(s, d, i) && Claimable(d.pending, i, token, now)
    case LookingUp(claim, claimed) =>
      !claimed && d.procs[a.p] == LookingUp(claim, true) && claim.row.key !in s.links
    case FindingExisting(ask) =>
      && CoolingDown(d.pending, ask.user, ask.identity.key, ask.now)
      && !CoolingDown(s.pending, ask.user, ask.identity.key, ask.now)
    case Inserting(ask, doomed) =>
      && d.procs[a.p].Inserting? && Blocked(d.pending, d.procs[a.p].doomed, ask.Row())
      && !Blocked(s.pending, doomed, ask.Row())
    case Rechecking(ask) =>
      && Matching(d.pending, ask.user, ask.identity.key) != {}
      && Matching(s.pending, ask.user, ask.identity.key) == {}
    case _ => false
  }

  // The two runs have answered the call differently, or one has and the other can not any more.
  predicate Parted(a: Proc, b: Proc) {
    Kind(a) != Kind(b) && (a.Done? || b.Done? || (a.Enqueueing? && b.Rechecking?))
  }

  // ---------- Staying in step ----------

  lemma LocalsStay(s: State, t: State, h: Time, a: Proc, b: Proc)
    requires LocalsShadow(s, h, a, b)
    requires RowsGo(s.pending, s.nextPending, t.pending) && s.nextPending <= t.nextPending && s.clock <= t.clock
    ensures LocalsShadow(t, h, a, b)
  {
  }

  // A step of `p` that keeps the tables in step keeps all of it.
  lemma InStep(s: State, d: State, h: Time, t: State, e: State, p: Pid, a: Proc, b: Proc)
    requires Shadow(s, d, h) && t.procs == s.procs[p := a] && e.procs == d.procs[p := b]
    requires RowsGo(s.pending, s.nextPending, t.pending) && s.nextPending <= t.nextPending && s.clock <= t.clock
    requires TablesShadow(t, e) && RowsShadow(t.pending, e.pending, h) && LocalsShadow(t, h, a, b)
    ensures Shadow(t, e, h)
  {
    forall q | q in t.procs
      ensures LocalsShadow(t, h, t.procs[q], e.procs[q])
    {
      if q != p {
        LocalsStay(s, t, h, s.procs[q], d.procs[q]);
      }
    }
  }

  lemma LocalInStep(s: State, d: State, h: Time, p: Pid, a: Proc, b: Proc)
    requires Shadow(s, d, h) && LocalsShadow(s, h, a, b)
    ensures Shadow(Put(s, p, a), Put(d, p, b), h)
  {
    InStep(s, d, h, Put(s, p, a), Put(d, p, b), p, a, b);
  }

  // A step that only removes rows.
  lemma FewerInStep(s: State, d: State, h: Time, p: Pid, rows: PendingTable, all: PendingTable, a: Proc, b: Proc)
    requires Shadow(s, d, h) && Extends(rows, s.pending) && RowsShadow(rows, all, h) && LocalsShadow(s, h, a, b)
    ensures Shadow(Put(s.(pending := rows), p, a), Put(d.(pending := all), p, b), h)
  {
    var t, e := Put(s.(pending := rows), p, a), Put(d.(pending := all), p, b);
    assert RowsGo(s.pending, s.nextPending, t.pending);
    LocalsStay(s, t, h, a, b);
    InStep(s, d, h, t, e, p, a, b);
  }

  // The tables that the two runs share, changed alike.
  lemma SharedInStep(s: State, d: State, h: Time, t: State, e: State, p: Pid, pc: Proc)
    requires Shadow(s, d, h) && TablesShadow(t, e) && t.procs == s.procs[p := pc] && e.procs == d.procs[p := pc]
    requires t.pending == s.pending && e.pending == d.pending && t.nextPending == s.nextPending && t.clock == s.clock
    requires !pc.Inserting? && !pc.LookingUp?
    ensures Shadow(t, e, h)
  {
    assert LocalsShadow(t, h, pc, pc);
    InStep(s, d, h, t, e, p, pc, pc);
  }

  lemma CreateInStep(s: State, d: State, h: Time, p: Pid, identity: Identity)
    requires Shadow(s, d, h)
    ensures Shadow(CreateAccount(s, p, identity), CreateAccount(d, p, identity), h)
  {
    var t, e := CreateAccount(s, p, identity), CreateAccount(d, p, identity);
    if identity.email in s.users || identity.key in s.links {
      SharedInStep(s, d, h, t, e, p, Done(Failed));
    } else {
      SharedInStep(s, d, h, t, e, p, Done(Account(identity.key, s.nextUser)));
    }
  }

  lemma AskInStep(s: State, d: State, h: Time, p: Pid, identity: Identity, user: UserId)
    requires Shadow(s, d, h)
    ensures Shadow(StartAsk(s, p, identity, user), StartAsk(d, p, identity, user), h)
  {
    var t, e := StartAsk(s, p, identity, user), StartAsk(d, p, identity, user);
    InStep(s, d, h, t, e, p, t.procs[p], e.procs[p]);
  }

  // ---------- requestLink ----------

  lemma CoolingInStep(s: State, d: State, h: Time, p: Pid, ask: Ask, pick: Id, pick': Id)
    requires Shadow(s, d, h) && PickOk(s, FindingExisting(ask), pick) && PickOk(d, FindingExisting(ask), pick')
    requires CoolingDown(s.pending, ask.user, ask.identity.key, ask.now) ==
             CoolingDown(d.pending, ask.user, ask.identity.key, ask.now)
    ensures Shadow(CheckCooldown(s, p, ask, pick), CheckCooldown(d, p, ask, pick'), h)
  {
    CooldownCheck(s, p, ask, pick);
    CooldownCheck(d, p, ask, pick');
    if CoolingDown(s.pending, ask.user, ask.identity.key, ask.now) {
      LocalInStep(s, d, h, p, Done(Cooldown(pick)), Done(Cooldown(pick')));
    } else {
      LocalInStep(s, d, h, p, Deleting(ask), Deleting(ask));
    }
  }

  lemma CooldownCheck(s: State, p: Pid, ask: Ask, pick: Id)
    requires PickOk(s, FindingExisting(ask), pick)
    ensures CheckCooldown(s, p, ask, pick) ==
            Put(s, p, if CoolingDown(s.pending, ask.user, ask.identity.key, ask.now) then Done(Cooldown(pick))
                      else Deleting(ask))
  {
    CooldownIff(s, p, ask, pick);
  }

  lemma DeletingInStep(s: State, d: State, h: Time, p: Pid, ask: Ask)
    requires Shadow(s, d, h) && PendingOk(d.pending, d.asks, d.nextPending)
    ensures var a := Inserting(ask, Matching(s.pending, ask.user, ask.identity.key));
            var b := Inserting(ask, Matching(d.pending, ask.user, ask.identity.key));
            Shadow(Put(s, p, a), Put(d, p, b), h)
  {
    var x, y := Matching(s.pending, ask.user, ask.identity.key), Matching(d.pending, ask.user, ask.identity.key);
    assert DoomedShadow(s.pending, s.nextPending, x, y);
    LocalInStep(s, d, h, p, Inserting(ask, x), Inserting(ask, y));
  }

  // What blocks with cleanups blocks without.
  lemma BlockedShadow(rows: PendingTable, all: PendingTable, h: Time, next: Id, x: set<Id>, y: set<Id>, row: Pending)
    requires RowsShadow(rows, all, h) && DoomedShadow(rows, next, x, y) && Blocked(rows, x, row)
    ensures Blocked(all, y, row)
  {
    var i :| i in rows && i !in x && Clash(rows[i], row);
    assert i in all && i !in y && Clash(all[i], row);
  }

  lemma IssueRowsShadow(rows: PendingTable, all: PendingTable, h: Time, next: Id, x: set<Id>, y: set<Id>, row: Pending)
    requires RowsShadow(rows, all, h) && DoomedShadow(rows, next, x, y)
    ensures RowsShadow((rows - x)[next := row], (all - y)[next := row], h)
  {
  }

  lemma InsertInStep(s: State, d: State, h: Time, p: Pid, ask: Ask, x: set<Id>, y: set<Id>)
    requires Shadow(s, d, h) && DoomedShadow(s.pending, s.nextPending, x, y)
    requires Blocked(s.pending, x, ask.Row()) == Blocked(d.pending, y, ask.Row())
    ensures Shadow(CommitIssue(s, p, ask, x), CommitIssue(d, p, ask, y), h)
  {
    var t, e := CommitIssue(s, p, ask, x), CommitIssue(d, p, ask, y);
    if !Blocked(s.pending, x, ask.Row()) {
      IssueRowsShadow(s.pending, d.pending, h, s.nextPending, x, y, ask.Row());
    }
    InStep(s, d, h, t, e, p, t.procs[p], e.procs[p]);
  }

  lemma RecheckInStep(s: State, d: State, h: Time, p: Pid, ask: Ask, pick: Id, pick': Id)
    requires Shadow(s, d, h)
    requires Matching(s.pending, ask.user, ask.identity.key) == {} <==>
             Matching(d.pending, ask.user, ask.identity.key) == {}
    ensures var none := Matching(s.pending, ask.user, ask.identity.key) == {};
            Shadow(Put(s, p, Done(if none then Failed else Cooldown(pick))),
                   Put(d, p, Done(if none then Failed else Cooldown(pick'))), h)
  {
    var none := Matching(s.pending, ask.user, ask.identity.key) == {};
    LocalInStep(s, d, h, p, Done(if none then Failed else Cooldown(pick)),
                Done(if none then Failed else Cooldown(pick')));
  }

  lemma CompensatedShadow(rows: PendingTable, all: PendingTable, h: Time, id: Id, token: Token)
    requires RowsShadow(rows, all, h)
    ensures RowsShadow(if OwnedBy(rows, id, token) then rows - {id} else rows,
                       if OwnedBy(all, id, token) then all - {id} else all, h)
  {
    RowGone(rows, all, h, id);
  }

  lemma CompensateInStep(s: State, d: State, h: Time, p: Pid, ask: Ask, id: Id)
    requires Shadow(s, d, h)
    ensures Shadow(Compensate(s, p, ask, id), Compensate(d, p, ask, id), h)
  {
    CompensateAs(s, p, ask, id);
    CompensateAs(d, p, ask, id);
    CompensatedShadow(s.pending, d.pending, h, id, ask.token);
    FewerInStep(s, d, h, p, if OwnedBy(s.pending, id, ask.token) then s.pending - {id} else s.pending,
                if OwnedBy(d.pending, id, ask.token) then d.pending - {id} else d.pending,
                Done(Unavailable), Done(Unavailable));
  }

  // ---------- confirm ----------

  lemma FoundWithout(s: State, d: State, h: Time, token: Token, now: Time)
    requires Shadow(s, d, h) && UniqueKeys(d.pending) && FindClaimable(s.pending, token, now).Some?
    ensures FindClaim(s.pending, token, now) == FindClaim(d.pending, token, now)
  {
    var i := FindClaimable(s.pending, token, now).value;
    assert Claimable(d.pending, i, token, now);
  }

  lemma FoundOrSwept(s: State, d: State, h: Time, token: Token, now: Time)
    requires Shadow(s, d, h) && UniqueKeys(d.pending)
    ensures FindClaim(s.pending, token, now) == FindClaim(d.pending, token, now)
            || (FindClaim(s.pending, token, now) == Done(BadToken) && FindClaim(d.pending, token, now).Claiming?)
    ensures FindClaim(s.pending, token, now) != FindClaim(d.pending, token, now) <==>
            exists i :: Swept(s, d, i) && Claimable(d.pending, i, token, now)
  {
    if FindClaimable(s.pending, token, now).Some? {
      FoundWithout(s, d, h, token, now);
      var j := FindClaimable(s.pending, token, now).value;
      assert Claimable(d.pending, j, token, now);
      assert forall i :: Claimable(d.pending, i, token, now) ==> Clash(d.pending[i], d.pending[j]);
    } else if FindClaimable(d.pending, token, now).Some? {
      var i := FindClaimable(d.pending, token, now).value;
      assert !Claimable(s.pending, i, token, now);
      assert Swept(s, d, i);
    }
  }

  lemma ClaimInStep(s: State, d: State, h: Time, p: Pid, claim: Claim)
    requires Shadow(s, d, h) && PendingOk(d.pending, d.asks, d.nextPending) && ClaimOk(d.asks, claim)
    ensures Shadow(Put(s, p, LookingUp(claim, Claimable(s.pending, claim.id, claim.token, claim.now))),
                   Put(d, p, LookingUp(claim, Claimable(d.pending, claim.id, claim.token, claim.now))), h)
  {
    var a := Claimable(s.pending, claim.id, claim.token, claim.now);
    var b := Claimable(d.pending, claim.id, claim.token, claim.now);
    if a != b {
      assert Asked(d.asks, d.pending[claim.id]);
    }
    assert ClaimShadow(s, h, claim, a, b);
    LocalInStep(s, d, h, p, LookingUp(claim, a), LookingUp(claim, b));
  }

  lemma RowGone(rows: PendingTable, all: PendingTable, h: Time, id: Id)
    requires RowsShadow(rows, all, h)
    ensures RowsShadow(rows - {id}, all - {id}, h)
    ensures id !in rows ==> RowsShadow(rows, all - {id}, h)
  {
  }

  lemma LookUpInStep(s: State, d: State, h: Time, p: Pid, claim: Claim, a: bool, b: bool)
    requires Shadow(s, d, h) && ClaimShadow(s, h, claim, a, b) && (a == b || claim.row.key in s.links)
    ensures Shadow(LookUpLink(s, p, claim, a), LookUpLink(d, p, claim, b), h)
  {
    RowGone(s.pending, d.pending, h, claim.id);
    LookUpAs(s, p, claim, a);
    LookUpAs(d, p, claim, b);
    var linked := LinkedTo(s.links, claim.row.key, claim.row.userId);
    var rows := if a && linked then s.pending - {claim.id} else s.pending;
    var all := if b && linked then d.pending - {claim.id} else d.pending;
    var pc := AfterLookUp(s.links, claim, a);
    assert pc == AfterLookUp(s.links, claim, b) && LocalsShadow(s, h, pc, pc);
    FewerInStep(s, d, h, p, rows, all, pc, pc);
  }

  lemma LinkInStep(s: State, d: State, h: Time, p: Pid, claim: Claim)
    requires Shadow(s, d, h)
    ensures Shadow(CommitLink(s, p, claim), CommitLink(d, p, claim), h)
  {
    if claim.row.key in s.links {
      LocalInStep(s, d, h, p, Raced(claim), Raced(claim));
    } else {
      LinkedInStep(s, d, h, p, claim);
    }
  }

  lemma LinkedInStep(s: State, d: State, h: Time, p: Pid, claim: Claim)
    requires Shadow(s, d, h) && claim.row.key !in s.links
    ensures Shadow(CommitLink(s, p, claim), CommitLink(d, p, claim), h)
  {
    RowGone(s.pending, d.pending, h, claim.id);
    var pc := Done(Confirmed(claim));
    var s1 := Put(s.(pending := s.pending - {claim.id}), p, pc);
    var d1 := Put(d.(pending := d.pending - {claim.id}), p, pc);
    FewerInStep(s, d, h, p, s.pending - {claim.id}, d.pending - {claim.id}, pc, pc);
    assert s1.procs[p := pc] == s1.procs && d1.procs[p := pc] == d1.procs;
    SharedInStep(s1, d1, h, CommitLink(s, p, claim), CommitLink(d, p, claim), p, pc);
  }

  // ---------- Any step ----------

  // Which calls stand where in which run.
  lemma SamePc(s: State, d: State, h: Time, p: Pid)
    requires Shadow(s, d, h) && p in s.procs
    ensures p in d.procs && LocalsShadow(s, h, s.procs[p], d.procs[p])
    ensures s.procs[p].Inserting? <==> d.procs[p].Inserting?
    ensures s.procs[p].LookingUp? <==> d.procs[p].LookingUp?
    ensures s.procs[p].Done? <==> d.procs[p].Done?
    ensures !s.procs[p].Inserting? && !s.procs[p].LookingUp? && !s.procs[p].Done? ==> d.procs[p] == s.procs[p]
    ensures s.procs[p].Inserting? ==> d.procs[p].ask == s.procs[p].ask
    ensures s.procs[p].LookingUp? ==> d.procs[p].claim == s.procs[p].claim
  {
    assert LocalsShadow(s, h, s.procs[p], d.procs[p]);
  }

  lemma ResolveInStep(s: State, d: State, h: Time, p: Pid, pick: Id, pick': Id)
    requires Shadow(s, d, h) && Enabled(s, Advance(p, pick)) && Enabled(d, Advance(p, pick'))
    requires s.procs[p].Lookup? || s.procs[p].ByEmail? || s.procs[p].CreatingAccount? || s.procs[p].Requesting?
    ensures Shadow(Progress(s, p, pick), Progress(d, p, pick'), h)
  {
    SamePc(s, d, h, p);
    var pc := s.procs[p];
    if pc.CreatingAccount? {
      CreateInStep(s, d, h, p, pc.identity);
    } else if pc.Requesting? {
      AskInStep(s, d, h, p, pc.identity, pc.user);
    } else {
      var next := Progress(s, p, pick).procs[p];
      assert Progress(s, p, pick) == Put(s, p, next) && Progress(d, p, pick') == Put(d, p, next);
      LocalInStep(s, d, h, p, next, next);
    }
  }

  lemma IssueInStep(s: State, d: State, h: Time, p: Pid, ask: Ask, x: set<Id>, y: set<Id>)
    requires Shadow(s, d, h) && DoomedShadow(s.pending, s.nextPending, x, y)
    requires Blocked(d.pending, y, ask.Row()) ==> Blocked(s.pending, x, ask.Row())
    ensures Shadow(CommitIssue(s, p, ask, x), CommitIssue(d, p, ask, y), h)
  {
    if Blocked(s.pending, x, ask.Row()) {
      BlockedShadow(s.pending, d.pending, h, s.nextPending, x, y, ask.Row());
    }
    InsertInStep(s, d, h, p, ask, x, y);
  }

  lemma RequestReadInStep(s: State, d: State, h: Time, p: Pid, pick: Id, pick': Id)
    requires Shadow(s, d, h) && PendingOk(d.pending, d.asks, d.nextPending)
    requires Enabled(s, Advance(p, pick)) && Enabled(d, Advance(p, pick')) && !Caught(s, d, Advance(p, pick))
    requires s.procs[p].FindingExisting? || s.procs[p].Deleting? || s.procs[p].Rechecking? || s.procs[p].Enqueueing?
    ensures Shadow(Progress(s, p, pick), Progress(d, p, pick'), h)
  {
    SamePc(s, d, h, p);
    match s.procs[p]
    case FindingExisting(ask) =>
      CoolingShadow(s, d, h, ask);
      CoolingInStep(s, d, h, p, ask, pick, pick');
    case Deleting(ask) => DeletingInStep(s, d, h, p, ask);
    case Rechecking(ask) =>
      MatchingShadow(s, d, h, ask);
      RecheckInStep(s, d, h, p, ask, pick, pick');
    case Enqueueing(ask, id) => LocalInStep(s, d, h, p, Done(Issued(id)), Done(Issued(id)));
  }

  lemma RequestInStep(s: State, d: State, h: Time, p: Pid, pick: Id, pick': Id)
    requires Shadow(s, d, h) && PendingOk(d.pending, d.asks, d.nextPending)
    requires Enabled(s, Advance(p, pick)) && Enabled(d, Advance(p, pick')) && !Caught(s, d, Advance(p, pick))
    requires
      || s.procs[p].FindingExisting? || s.procs[p].Deleting? || s.procs[p].Inserting? || s.procs[p].Rechecking?
      || s.procs[p].Enqueueing? || s.procs[p].Compensating?
    ensures Shadow(Progress(s, p, pick), Progress(d, p, pick'), h)
  {
    var pc := s.procs[p];
    if OnlyReads(pc) {
      RequestReadInStep(s, d, h, p, pick, pick');
    } else {
      SamePc(s, d, h, p);
      if pc.Inserting? {
        IssueInStep(s, d, h, p, pc.ask, pc.doomed, d.procs[p].doomed);
      } else {
        CompensateInStep(s, d, h, p, pc.ask, pc.id);
      }
    }
  }

  lemma MatchingShadow(s: State, d: State, h: Time, ask: Ask)
    requires Shadow(s, d, h)
    ensures Matching(s.pending, ask.user, ask.identity.key) <= Matching(d.pending, ask.user, ask.identity.key)
  {
  }

  lemma CoolingShadow(s: State, d: State, h: Time, ask: Ask)
    requires Shadow(s, d, h)
    ensures CoolingDown(s.pending, ask.user, ask.identity.key, ask.now) ==>
              CoolingDown(d.pending, ask.user, ask.identity.key, ask.now)
  {
    MatchingShadow(s, d, h, ask);
    if CoolingDown(s.pending, ask.user, ask.identity.key, ask.now) {
      var i :| i in Matching(s.pending, ask.user, ask.identity.key)
               && ask.now - s.pending[i].createdAt < PENDING_LINK_RESEND_COOLDOWN_MS;
      assert i in Matching(d.pending, ask.user, ask.identity.key);
    }
  }

  // The two reads of `confirm` before its claim.
  lemma ReadInStep(s: State, d: State, h: Time, p: Pid, token: Token, now: Time)
    requires Shadow(s, d, h) && UniqueKeys(d.pending)
    requires forall i :: Swept(s, d, i) ==> !Claimable(d.pending, i, token, now)
    ensures Shadow(Put(s, p, FindClaim(s.pending, token, now)), Put(d, p, FindClaim(d.pending, token, now)), h)
  {
    FoundOrSwept(s, d, h, token, now);
    var next := FindClaim(s.pending, token, now);
    assert next == FindClaim(d.pending, token, now);
    LocalInStep(s, d, h, p, next, next);
  }

  lemma RereadInStep(s: State, d: State, h: Time, p: Pid, claim: Claim)
    requires Shadow(s, d, h)
    ensures Shadow(Reread(s, p, claim), Reread(d, p, claim), h)
  {
    var next := Reread(s, p, claim).procs[p];
    LocalInStep(s, d, h, p, next, next);
  }

  lemma ConfirmReadInStep(s: State, d: State, h: Time, p: Pid, pick: Id, pick': Id)
    requires Shadow(s, d, h) && Inv(d)
    requires Enabled(s, Advance(p, pick)) && Enabled(d, Advance(p, pick')) && !Caught(s, d, Advance(p, pick))
    requires s.procs[p].Confirming? || s.procs[p].FindingValid? || s.procs[p].Claiming? || s.procs[p].Raced?
    ensures Shadow(Progress(s, p, pick), Progress(d, p, pick'), h)
  {
    SamePc(s, d, h, p);
    var pc := s.procs[p];
    if pc.Confirming? {
      LocalInStep(s, d, h, p, FindingValid(pc.token, s.clock), FindingValid(pc.token, s.clock));
    } else if pc.FindingValid? {
      ReadInStep(s, d, h, p, pc.token, pc.now);
    } else if pc.Claiming? {
      assert ProcOk(d, p, d.procs[p]);
      ClaimInStep(s, d, h, p, pc.claim);
    } else {
      RereadInStep(s, d, h, p, pc.claim);
    }
  }

  lemma ConfirmInStep(s: State, d: State, h: Time, p: Pid, pick: Id, pick': Id)
    requires Shadow(s, d, h) && Inv(d)
    requires Enabled(s, Advance(p, pick)) && Enabled(d, Advance(p, pick')) && !Caught(s, d, Advance(p, pick))
    requires IsConfirm(s.procs[p])
    ensures Shadow(Progress(s, p, pick), Progress(d, p, pick'), h)
  {
    SamePc(s, d, h, p);
    var pc := s.procs[p];
    if pc.LookingUp? {
      LookingUpStep(s, p, pick);
      LookingUpStep(d, p, pick');
      LookUpInStep(s, d, h, p, pc.claim, pc.claimed, d.procs[p].claimed);
    } else if pc.Linking? {
      LinkingStep(s, p, pick);
      LinkingStep(d, p, pick');
      LinkInStep(s, d, h, p, pc.claim);
    } else {
      ConfirmReadInStep(s, d, h, p, pick, pick');
    }
  }

  lemma FailInStep(s: State, d: State, h: Time, p: Pid)
    requires Shadow(s, d, h) && Enabled(s, Fail(p))
    ensures Enabled(d, Fail(p)) && Shadow(Apply(s, Fail(p)), Apply(d, Fail(p)), h)
  {
    SamePc(s, d, h, p);
    LocalInStep(s, d, h, p, Aborted(s.procs[p]), Aborted(s.procs[p]));
  }

  lemma BackgroundInStep(s: State, d: State, h: Time, a: Action)
    requires Shadow(s, d, h) && Enabled(s, a) && Enabled(d, a) && (a.Register? || a.Tick?)
    ensures Shadow(Apply(s, a), Apply(d, a), h)
  {
    forall p | p in s.procs
      ensures LocalsShadow(Apply(s, a), h, s.procs[p], d.procs[p])
    {
      LocalsStay(s, Apply(s, a), h, s.procs[p], d.procs[p]);
    }
  }

  function Max(a: Time, b: Time): Time {
    if a < b then b else a
  }

  // A cleanup of the one run only.
  lemma SweepInStep(s: State, d: State, h: Time, cutoff: Time)
    requires Shadow(s, d, h) && cutoff <= s.clock
    ensures Shadow(Apply(s, Cleanup(cutoff)), d, Max(h, cutoff))
  {
    var t := Apply(s, Cleanup(cutoff));
    forall p | p in s.procs
      ensures LocalsShadow(t, Max(h, cutoff), s.procs[p], d.procs[p])
    {
      LocalsStay(s, t, h, s.procs[p], d.procs[p]);
    }
  }

  // The two runs stay in step until a call is caught.
  lemma MoveInStep(s: State, d: State, h: Time, a: Action, b: Action)
    requires Inv(s) && Inv(d) && Shadow(s, d, h) && !a.Cleanup?
    requires Enabled(s, a) && Enabled(d, b) && SameMove(a, b) && !Caught(s, d, a)
    ensures Shadow(Apply(s, a), Apply(d, b), h)
  {
    match a
    case Begin(p, call) => LocalInStep(s, d, h, p, call, call);
    case Fail(p) => FailInStep(s, d, h, p);
    case Advance(p, pick) => ProgressInStep(s, d, h, p, pick, b.pick);
    case _ => BackgroundInStep(s, d, h, a);
  }

  lemma ProgressInStep(s: State, d: State, h: Time, p: Pid, pick: Id, pick': Id)
    requires Inv(d) && Shadow(s, d, h)
    requires Enabled(s, Advance(p, pick)) && Enabled(d, Advance(p, pick')) && !Caught(s, d, Advance(p, pick))
    ensures Shadow(Progress(s, p, pick), Progress(d, p, pick'), h)
  {
    var pc := s.procs[p];
    if IsConfirm(pc) {
      ConfirmInStep(s, d, h, p, pick, pick');
    } else if pc.Lookup? || pc.ByEmail? || pc.CreatingAccount? || pc.Requesting? {
      ResolveInStep(s, d, h, p, pick, pick');
    } else {
      RequestInStep(s, d, h, p, pick, pick');
    }
  }

  // ---------- Out of step ----------

  lemma CaughtConfirmParts(s: State, d: State, h: Time, p: Pid, pick: Id, pick': Id)
    requires Inv(d) && Shadow(s, d, h) && Enabled(s, Advance(p, pick)) && Enabled(d, Advance(p, pick'))
    requires Caught(s, d, Advance(p, pick)) && (s.procs[p].FindingValid? || s.procs[p].LookingUp?)
    ensures p in Progress(s, p, pick).procs && p in Progress(d, p, pick').procs
    ensures Progress(s, p, pick).procs[p] == Done(BadToken)
    ensures Progress(d, p, pick').procs[p].Claiming? || Progress(d, p, pick').procs[p].Linking?
  {
    SamePc(s, d, h, p);
    if s.procs[p].FindingValid? {
      FoundOrSwept(s, d, h, s.procs[p].token, s.procs[p].now);
    } else {
      LookUpAs(s, p, s.procs[p].claim, false);
      LookUpAs(d, p, s.procs[p].claim, true);
    }
  }

  lemma CaughtReadParts(s: State, d: State, h: Time, p: Pid, pick: Id, pick': Id)
    requires Inv(d) && Shadow(s, d, h) && Enabled(s, Advance(p, pick)) && Enabled(d, Advance(p, pick'))
    requires Caught(s, d, Advance(p, pick)) && (s.procs[p].FindingExisting? || s.procs[p].Rechecking?)
    ensures p in Progress(s, p, pick).procs && p in Progress(d, p, pick').procs
    ensures Progress(d, p, pick').procs[p] == Done(Cooldown(pick'))
    ensures Progress(s, p, pick).procs[p] ==
            if s.procs[p].FindingExisting? then Deleting(s.procs[p].ask) else Done(Failed)
  {
    SamePc(s, d, h, p);
    if s.procs[p].FindingExisting? {
      CooldownCheck(s, p, s.procs[p].ask, pick);
      CooldownCheck(d, p, s.procs[p].ask, pick');
    }
  }

  lemma CaughtInsertParts(s: State, d: State, h: Time, p: Pid, pick: Id, pick': Id)
    requires Inv(d) && Shadow(s, d, h) && Enabled(s, Advance(p, pick)) && Enabled(d, Advance(p, pick'))
    requires Caught(s, d, Advance(p, pick)) && s.procs[p].Inserting?
    ensures p in Progress(s, p, pick).procs && Progress(s, p, pick).procs[p].Enqueueing?
    ensures p in Progress(d, p, pick').procs && Progress(d, p, pick').procs[p].Rechecking?
  {
    SamePc(s, d, h, p);
    InsertingStep(s, p, pick);
    InsertingStep(d, p, pick');
    IssueAs(s, p, s.procs[p].ask, s.procs[p].doomed);
    IssueAs(d, p, d.procs[p].ask, d.procs[p].doomed);
  }

  // A caught call is answered differently, or can be answered by one run only.
  lemma CaughtParts(s: State, d: State, h: Time, p: Pid, pick: Id, pick': Id)
    requires Inv(d) && Shadow(s, d, h) && Enabled(s, Advance(p, pick)) && Enabled(d, Advance(p, pick'))
    requires Caught(s, d, Advance(p, pick))
    ensures p in Progress(s, p, pick).procs && p in Progress(d, p, pick').procs
    ensures Parted(Progress(s, p, pick).procs[p], Progress(d, p, pick').procs[p])
  {
    var pc := s.procs[p];
    if pc.FindingValid? || pc.LookingUp? {
      CaughtConfirmParts(s, d, h, p, pick, pick');
      ConfirmShapesPart(Progress(s, p, pick).procs[p], Progress(d, p, pick').procs[p]);
    } else {
      if pc.Inserting? {
        CaughtInsertParts(s, d, h, p, pick, pick');
      } else {
        CaughtReadParts(s, d, h, p, pick, pick');
      }
      RequestShapesPart(Progress(s, p, pick).procs[p], Progress(d, p, pick').procs[p]);
    }
  }

  lemma ConfirmShapesPart(a: Proc, b: Proc)
    requires a == Done(BadToken) && (b.Claiming? || b.Linking?)
    ensures Parted(a, b)
  {
  }

  lemma RequestShapesPart(a: Proc, b: Proc)
    requires
      || (a.Deleting? && b.Done?) || (a.Enqueueing? && b.Rechecking?)
      || (a == Done(Failed) && b.Done? && b.outcome.Cooldown?)
    ensures Parted(a, b)
  {
  }

  lemma PartedMoves(s: State, d: State, a: Action, b: Action, p: Pid)
    requires Enabled(s, a) && Enabled(d, b) && SameMove(a, b) && (a.Advance? || a.Fail?) && a.p == p
    requires p in s.procs && p in d.procs && Parted(s.procs[p], d.procs[p])
    ensures p in Apply(s, a).procs && p in Apply(d, b).procs && Parted(Apply(s, a).procs[p], Apply(d, b).procs[p])
  {
  }

  lemma PartedStays(s: State, d: State, a: Action, b: Action, p: Pid)
    requires Enabled(s, a) && Enabled(d, b) && SameMove(a, b)
    requires p in s.procs && p in d.procs && Parted(s.procs[p], d.procs[p])
    ensures p in Apply(s, a).procs && p in Apply(d, b).procs && Parted(Apply(s, a).procs[p], Apply(d, b).procs[p])
  {
    if (a.Advance? || a.Fail?) && a.p == p {
      PartedMoves(s, d, a, b, p);
    } else {
      OthersStay(s, a, p);
      OthersStay(d, b, p);
    }
  }
}
