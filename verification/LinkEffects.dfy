// What provider sign-in does, told by the fields of rows and by the answers of whole calls
// (src/auth/account/account-resolver.service.ts, src/auth/account-linking/).
module LinkEffects {
  import opened Options
  import opened ProviderLinks
  import opened LinkProtocol
  import opened LinkTheorems
  import opened LinkSteps
  import opened LinkAlone
  import opened LinkCooldown

  // ---------- Rows ----------

  // The rows that a request competes with: of the same provider, and of the same provider account or the same user.
  lemma MatchesIff(r: Pending, user: UserId, key: Key)
    ensures Matches(r, user, key) <==>
            r.key.provider == key.provider && (r.key.account == key.account || r.userId == user)
  {
    assert r.key == Key(r.key.provider, r.key.account) && key == Key(key.provider, key.account);
  }

  // The three unique indexes, in every reachable state.
  lemma UniqueInEveryRun(s: State, acts: seq<Action>, t: State, i: Id, j: Id)
    requires Init(s) && Run(s, acts, t) && i in t.pending && j in t.pending && i != j
    ensures t.pending[i].tokenHash != t.pending[j].tokenHash
    ensures t.pending[i].key.provider == t.pending[j].key.provider ==>
              t.pending[i].key.account != t.pending[j].key.account && t.pending[i].userId != t.pending[j].userId
  {
    InitIsInv(s);
    RunKeepsInv(s, acts, t);
    assert !Clash(t.pending[i], t.pending[j]);
    MatchesIff(t.pending[i], t.pending[j].userId, t.pending[j].key);
  }

  // What a request stores: its account, its provider account, its token, for fifteen minutes from its stamp.
  lemma RowOfRequest(ask: Ask)
    ensures ask.Row() == Pending(ask.user, ask.identity.key, ask.token, ask.now + 900_000, ask.now)
  {
  }

  // A commit removes only rows of its provider that are of its provider account or of its user.
  lemma IssueRemovesOnlyRivals(s: State, p: Pid, ask: Ask, pick: Id, acts: seq<Action>, u: State, more: seq<Action>,
                               v: State, i: Id)
    requires Inv(s) && Issues(s, p, ask, pick, acts, u, more, v) && Removes(u, v, p, ask, i)
    ensures v.pending[i].key.provider == ask.identity.key.provider
    ensures v.pending[i].key.account == ask.identity.key.account || v.pending[i].userId == ask.user
  {
    RemovedWasSeen(s, p, ask, pick, acts, u, more, v, i);
    MatchesIff(v.pending[i], ask.user, ask.identity.key);
  }

  // And leaves all of them removed but its own.
  lemma IssueLeavesNoRival(s: State, p: Pid, ask: Ask, doomed: set<Id>, i: Id)
    requires Inv(s) && p in s.procs && s.procs[p] == Inserting(ask, doomed)
    requires CommitIssue(s, p, ask, doomed).procs[p].Enqueueing? && i in CommitIssue(s, p, ask, doomed).pending
    requires i != s.nextPending
    ensures var r := CommitIssue(s, p, ask, doomed).pending[i];
            r.key.provider == ask.identity.key.provider ==>
              r.key.account != ask.identity.key.account && r.userId != ask.user
  {
    var t := CommitIssue(s, p, ask, doomed);
    IssueOwnsKeys(s, p, ask, doomed);
    assert i !in Matching(t.pending, ask.user, ask.identity.key);
    MatchesIff(t.pending[i], ask.user, ask.identity.key);
  }

  // The cleanup keeps exactly what has not expired by its cutoff, as it is.
  lemma CleanupKeepsUnexpired(s: State, cutoff: Time)
    requires cutoff <= s.clock
    ensures var t := Apply(s, Cleanup(cutoff)).pending;
            && (forall i :: i in t <==> i in s.pending && s.pending[i].expiresAt > cutoff)
            && (forall i :: i in t ==> t[i] == s.pending[i])
  {
  }

  // ---------- resolve ----------

  // A sign-in that nothing interrupts: a linked provider account gets its account; an unknown e-mail gets a new
  // account, linked to it; a known e-mail the provider has not verified is refused; any other asks to be linked.
  lemma ResolveAlone(s: State, p: Pid, identity: Identity) returns (t: State)
    requires p in s.procs && s.procs[p] == Lookup(identity)
    ensures Alone(s, p, t) && p in t.procs && t.pending == s.pending
    ensures identity.key in s.links ==>
              && t.procs[p] == Done(Account(identity.key, s.links[identity.key]))
              && t.users == s.users && t.links == s.links
    ensures identity.key !in s.links && identity.email !in s.users ==>
              && t.procs[p] == Done(Account(identity.key, s.nextUser))
              && t.users == s.users[identity.email := s.nextUser] && t.links == s.links[identity.key := s.nextUser]
    ensures identity.key !in s.links && identity.email in s.users ==>
              && t.procs[p] == (if identity.emailVerified then Requesting(identity, s.users[identity.email])
                                else Done(Unverified))
              && t.users == s.users && t.links == s.links
  {
    AloneStep(s, p, 0);
    if identity.key in s.links {
      t := Put(s, p, Done(Account(identity.key, s.links[identity.key])));
    } else {
      var s1 := Put(s, p, ByEmail(identity));
      t := ByEmailAlone(s1, p, identity);
      AloneTrans(s, p, s1, t);
    }
  }

  lemma ByEmailAlone(s: State, p: Pid, identity: Identity) returns (t: State)
    requires p in s.procs && s.procs[p] == ByEmail(identity) && identity.key !in s.links
    ensures Alone(s, p, t) && p in t.procs && t.pending == s.pending
    ensures identity.email !in s.users ==>
              && t.procs[p] == Done(Account(identity.key, s.nextUser))
              && t.users == s.users[identity.email := s.nextUser] && t.links == s.links[identity.key := s.nextUser]
    ensures identity.email in s.users ==>
              && t.procs[p] == (if identity.emailVerified then Requesting(identity, s.users[identity.email])
                                else Done(Unverified))
              && t.users == s.users && t.links == s.links
  {
    AloneStep(s, p, 0);
    t := Progress(s, p, 0);
    if identity.email !in s.users {
      var s1 := Put(s, p, CreatingAccount(identity));
      assert t == s1;
      t := CreatingAlone(s1, p, identity);
      AloneTrans(s, p, s1, t);
    }
  }

  lemma CreatingAlone(s: State, p: Pid, identity: Identity) returns (t: State)
    requires p in s.procs && s.procs[p] == CreatingAccount(identity)
    requires identity.key !in s.links && identity.email !in s.users
    ensures Alone(s, p, t) && p in t.procs && t.pending == s.pending
    ensures t.procs[p] == Done(Account(identity.key, s.nextUser))
    ensures t.users == s.users[identity.email := s.nextUser] && t.links == s.links[identity.key := s.nextUser]
  {
    AloneStep(s, p, 0);
    CreatingStep(s, p, 0);
    t := CreateAccount(s, p, identity);
  }

  // Two sign-ups at once: the transaction of the later one fails, and leaves nothing.
  lemma CreatingLoses(s: State, p: Pid, identity: Identity)
    requires identity.key in s.links || identity.email in s.users
    ensures var t := CreateAccount(s, p, identity);
            t.users == s.users && t.links == s.links && p in t.procs && t.procs[p] == Done(Failed)
  {
  }

  // ---------- confirm ----------

  // The read finds exactly an unexpired row of the token.
  lemma FindsIff(s: State, p: Pid, pick: Id)
    requires Enabled(s, Advance(p, pick)) && s.procs[p].FindingValid?
    ensures p in Progress(s, p, pick).procs
    ensures var pc, next := s.procs[p], Progress(s, p, pick).procs[p];
            if exists i :: i in s.pending && s.pending[i].tokenHash == pc.token && s.pending[i].expiresAt > pc.now
            then
              && next.Claiming? && next.claim.token == pc.token && next.claim.now == pc.now
              && next.claim.id in s.pending && s.pending[next.claim.id] == next.claim.row
              && next.claim.row.tokenHash == pc.token && next.claim.row.expiresAt > pc.now
            else next == Done(BadToken)
  {
    var pc := s.procs[p];
    if i :| i in s.pending && s.pending[i].tokenHash == pc.token && s.pending[i].expiresAt > pc.now {
      assert Claimable(s.pending, i, pc.token, pc.now);
    }
  }

  // The claim takes exactly the row that was read, if it is still there.
  lemma ClaimsIff(s: State, p: Pid, pick: Id)
    requires Enabled(s, Advance(p, pick)) && s.procs[p].Claiming?
    requires s.procs[p].claim.row.tokenHash == s.procs[p].claim.token
    requires s.procs[p].claim.row.expiresAt > s.procs[p].claim.now
    requires s.procs[p].claim.id in s.pending ==> s.pending[s.procs[p].claim.id] == s.procs[p].claim.row
    ensures p in Progress(s, p, pick).procs
    ensures Progress(s, p, pick).procs[p] == LookingUp(s.procs[p].claim, s.procs[p].claim.id in s.pending)
  {
  }

  // What the look-up decides.
  lemma LooksUp(s: State, p: Pid, pick: Id)
    requires Enabled(s, Advance(p, pick)) && s.procs[p].LookingUp?
    ensures p in Progress(s, p, pick).procs
    ensures var pc, t := s.procs[p], Progress(s, p, pick);
            var claim := pc.claim;
            && t.links == s.links && t.users == s.users
            && (claim.row.key !in s.links ==>
                  t.procs[p] == (if pc.claimed then Linking(claim) else Done(BadToken)) && t.pending == s.pending)
            && (claim.row.key in s.links && s.links[claim.row.key] != claim.row.userId ==>
                  t.procs[p] == Done(LinkConflict(claim)) && t.pending == s.pending)
            && (claim.row.key in s.links && s.links[claim.row.key] == claim.row.userId ==>
                  && t.procs[p] == Done(AlreadyConfirmed(claim))
                  && t.pending == if pc.claimed then s.pending - {claim.id} else s.pending)
  {
    LookingUpStep(s, p, pick);
    LookUpAs(s, p, s.procs[p].claim, s.procs[p].claimed);
  }

  // A `confirm` with a token: its answers are about a row of that token.
  predicate OfToken(pc: Proc, token: Token) {
    match pc
    case Confirming(tok) => tok == token
    case FindingValid(tok, _) => tok == token
    case Claiming(claim) => ClaimOf(claim, token)
    case LookingUp(claim, _) => ClaimOf(claim, token)
    case Linking(claim) => ClaimOf(claim, token)
    case Raced(claim) => ClaimOf(claim, token)
    case Done(Confirmed(claim)) => ClaimOf(claim, token)
    case Done(AlreadyConfirmed(claim)) => ClaimOf(claim, token)
    case Done(LinkConflict(claim)) => ClaimOf(claim, token)
    case Done(BadToken) => true
    case Done(Failed) => true
    case _ => false
  }

  predicate ClaimOf(claim: Claim, token: Token) {
    claim.token == token && claim.row.tokenHash == token && claim.row.expiresAt > claim.now
  }

  lemma CommitLinkAnswers(s: State, p: Pid, claim: Claim)
    ensures p in CommitLink(s, p, claim).procs
    ensures CommitLink(s, p, claim).procs[p] ==
            if claim.row.key in s.links then Raced(claim) else Done(Confirmed(claim))
  {
  }

  lemma OfTokenReads(s: State, p: Pid, pick: Id, token: Token)
    requires Enabled(s, Advance(p, pick)) && OfToken(s.procs[p], token) && OnlyReads(s.procs[p])
    ensures OfToken(NextRead(s, s.procs[p], pick), token)
  {
    if s.procs[p].FindingValid? {
      FindsIff(s, p, pick);
    }
  }

  lemma OfTokenAdvances(s: State, p: Pid, pick: Id, token: Token)
    requires Enabled(s, Advance(p, pick)) && OfToken(s.procs[p], token)
    ensures p in Progress(s, p, pick).procs && OfToken(Progress(s, p, pick).procs[p], token)
  {
    var pc := s.procs[p];
    if OnlyReads(pc) {
      OfTokenReads(s, p, pick, token);
    } else {
      OfTokenCommits(s, p, pick, token);
    }
  }

  lemma OfTokenCommits(s: State, p: Pid, pick: Id, token: Token)
    requires Enabled(s, Advance(p, pick)) && OfToken(s.procs[p], token)
    requires s.procs[p].LookingUp? || s.procs[p].Linking?
    ensures p in Progress(s, p, pick).procs && OfToken(Progress(s, p, pick).procs[p], token)
  {
    var pc := s.procs[p];
    if pc.LookingUp? {
      LookingUpStep(s, p, pick);
      LookUpAs(s, p, pc.claim, pc.claimed);
    } else {
      LinkingStep(s, p, pick);
      CommitLinkAnswers(s, p, pc.claim);
    }
  }

  lemma {:induction false} ConfirmIsOfItsToken(s: State, acts: seq<Action>, t: State, p: Pid, token: Token)
    requires Run(s, acts, t) && p in s.procs && OfToken(s.procs[p], token)
    ensures p in t.procs && OfToken(t.procs[p], token)
    decreases |acts|
  {
    if acts != [] {
      var a := acts[0];
      if a.Advance? && a.p == p {
        OfTokenAdvances(s, p, a.pick, token);
      } else if a != Fail(p) {
        OthersStay(s, a, p);
      }
      ConfirmIsOfItsToken(Apply(s, a), acts[1..], t, p, token);
    }
  }

  // ---------- resolve and requestLink ----------

  // A sign-in with an identity: what it answers and asks is about that identity.
  predicate OfIdentity(pc: Proc, identity: Identity) {
    match pc
    case Lookup(i) => i == identity
    case ByEmail(i) => i == identity
    case CreatingAccount(i) => i == identity
    case Requesting(i, _) => i == identity
    case FindingExisting(ask) => ask.identity == identity
    case Deleting(ask) => ask.identity == identity
    case Inserting(ask, _) => ask.identity == identity
    case Rechecking(ask) => ask.identity == identity
    case Enqueueing(ask, _) => ask.identity == identity
    case Compensating(ask, _) => ask.identity == identity
    case Done(Account(key, _)) => key == identity.key
    case Done(Unverified) => !identity.emailVerified
    case Done(Issued(_)) => true
    case Done(Cooldown(_)) => true
    case Done(Unavailable) => true
    case Done(Failed) => true
    case _ => false
  }

  lemma CreateAnswers(s: State, p: Pid, identity: Identity)
    ensures p in CreateAccount(s, p, identity).procs
    ensures CreateAccount(s, p, identity).procs[p] ==
            if identity.email in s.users || identity.key in s.links then Done(Failed)
            else Done(Account(identity.key, s.nextUser))
  {
  }

  lemma IssueAnswers(s: State, p: Pid, ask: Ask, doomed: set<Id>)
    ensures p in CommitIssue(s, p, ask, doomed).procs
    ensures CommitIssue(s, p, ask, doomed).procs[p] ==
            if Blocked(s.pending, doomed, ask.Row()) then Rechecking(ask) else Enqueueing(ask, s.nextPending)
  {
    IssueAs(s, p, ask, doomed);
  }

  lemma OfIdentityReads(s: State, pc: Proc, pick: Id, identity: Identity)
    requires OnlyReads(pc) && PickOk(s, pc, pick) && OfIdentity(pc, identity)
    ensures OfIdentity(NextRead(s, pc, pick), identity)
  {
  }

  lemma OfIdentityCommits(s: State, p: Pid, pick: Id, identity: Identity)
    requires Enabled(s, Advance(p, pick)) && OfIdentity(s.procs[p], identity)
    requires s.procs[p].CreatingAccount? || s.procs[p].Inserting?
    ensures p in Progress(s, p, pick).procs && OfIdentity(Progress(s, p, pick).procs[p], identity)
  {
    var pc := s.procs[p];
    if pc.CreatingAccount? {
      CreatingStep(s, p, pick);
      CreateAnswers(s, p, pc.identity);
    } else {
      InsertingStep(s, p, pick);
      IssueAnswers(s, p, pc.ask, pc.doomed);
    }
  }

  lemma OfIdentityAsks(s: State, p: Pid, pick: Id, identity: Identity)
    requires Enabled(s, Advance(p, pick)) && OfIdentity(s.procs[p], identity)
    requires s.procs[p].Requesting? || s.procs[p].Compensating?
    ensures p in Progress(s, p, pick).procs && OfIdentity(Progress(s, p, pick).procs[p], identity)
  {
    var pc := s.procs[p];
    if pc.Requesting? {
      RequestingStep(s, p, pick);
    } else {
      CompensateAs(s, p, pc.ask, pc.id);
    }
  }

  lemma OfIdentityAdvances(s: State, p: Pid, pick: Id, identity: Identity)
    requires Enabled(s, Advance(p, pick)) && OfIdentity(s.procs[p], identity)
    ensures p in Progress(s, p, pick).procs && OfIdentity(Progress(s, p, pick).procs[p], identity)
  {
    var pc := s.procs[p];
    if OnlyReads(pc) {
      OfIdentityReads(s, pc, pick, identity);
    } else if pc.CreatingAccount? || pc.Inserting? {
      OfIdentityCommits(s, p, pick, identity);
    } else {
      OfIdentityAsks(s, p, pick, identity);
    }
  }

  lemma {:induction false} ResolveIsOfItsIdentity(s: State, acts: seq<Action>, t: State, p: Pid, identity: Identity)
    requires Run(s, acts, t) && p in s.procs && OfIdentity(s.procs[p], identity)
    ensures p in t.procs && OfIdentity(t.procs[p], identity)
    decreases |acts|
  {
    if acts != [] {
      var a := acts[0];
      if a.Advance? && a.p == p {
        OfIdentityAdvances(s, p, a.pick, identity);
      } else if a != Fail(p) {
        OthersStay(s, a, p);
      }
      ResolveIsOfItsIdentity(Apply(s, a), acts[1..], t, p, identity);
    }
  }

  // ---------- Compensation ----------

  // How often the call's own external calls fail along the run.
  function OwnFails(acts: seq<Action>, p: Pid): nat {
    if acts == [] then 0 else (if acts[0] == Fail(p) then 1 else 0) + OwnFails(acts[1..], p)
  }

  lemma {:induction false} DoneFailsNoMore(s: State, acts: seq<Action>, t: State, p: Pid)
    requires Run(s, acts, t) && p in s.procs && s.procs[p].Done?
    ensures OwnFails(acts, p) == 0 && p in t.procs && t.procs[p] == s.procs[p]
    decreases |acts|
  {
    if acts != [] {
      OthersStay(s, acts[0], p);
      DoneFailsNoMore(Apply(s, acts[0]), acts[1..], t, p);
    }
  }

  lemma CompensationRemoves(s: State, p: Pid, pick: Id)
    requires Inv(s) && Enabled(s, Advance(p, pick)) && s.procs[p].Compensating?
    ensures p in Progress(s, p, pick).procs && Progress(s, p, pick).procs[p] == Done(Unavailable)
    ensures s.procs[p].id !in Progress(s, p, pick).pending && s.procs[p].id < Progress(s, p, pick).nextPending
  {
    assert ProcOk(s, p, s.procs[p]);
    CompensateAs(s, p, s.procs[p].ask, s.procs[p].id);
  }

  lemma {:induction false} CompensatingEnds(s: State, acts: seq<Action>, t: State, p: Pid, ask: Ask, id: Id)
    requires Inv(s) && Run(s, acts, t) && p in s.procs && s.procs[p] == Compensating(ask, id)
    requires p in t.procs && t.procs[p].Done?
    ensures t.procs[p] == Done(Unavailable)
    ensures OwnFails(acts, p) == 1 || (OwnFails(acts, p) == 0 && id !in t.pending)
    decreases |acts|
  {
    var a, s1 := acts[0], Apply(s, acts[0]);
    StepKeepsInv(s, a);
    if a.Advance? && a.p == p {
      CompensationRemoves(s, p, a.pick);
      DoneFailsNoMore(s1, acts[1..], t, p);
      RunKeepsInv(s1, acts[1..], t);
    } else if a == Fail(p) {
      DoneFailsNoMore(s1, acts[1..], t, p);
    } else {
      OthersStay(s, a, p);
      CompensatingEnds(s1, acts[1..], t, p, ask, id);
    }
  }

  // A request that has stored its row answers with that row's id when its e-mail is queued. When the queue fails it
  // is unavailable, and its row is gone for good unless the delete fails as well.
  lemma {:induction false} EnqueueEnds(s: State, acts: seq<Action>, t: State, p: Pid, ask: Ask, id: Id)
    requires Inv(s) && Run(s, acts, t) && p in s.procs && s.procs[p] == Enqueueing(ask, id)
    requires p in t.procs && t.procs[p].Done?
    ensures t.procs[p] == Done(Issued(id)) <==> OwnFails(acts, p) == 0
    ensures t.procs[p] == Done(Unavailable) <==> OwnFails(acts, p) > 0
    ensures OwnFails(acts, p) == 1 ==> id !in t.pending
    ensures OwnFails(acts, p) <= 2
    decreases |acts|
  {
    var a, s1 := acts[0], Apply(s, acts[0]);
    StepKeepsInv(s, a);
    if a.Advance? && a.p == p {
      assert s1.procs[p] == Done(Issued(id));
      DoneFailsNoMore(s1, acts[1..], t, p);
    } else if a == Fail(p) {
      assert s1.procs[p] == Compensating(ask, id);
      CompensatingEnds(s1, acts[1..], t, p, ask, id);
    } else {
      OthersStay(s, a, p);
      EnqueueEnds(s1, acts[1..], t, p, ask, id);
    }
  }

  // The two ends of a request in flight, from `here`, where its row was stored, to `t`: its row is gone, or both the
  // queue and the delete failed.
  ghost predicate UndoneOrStuck(here: State, t: State, p: Pid, id: Id) {
    exists acts :: Run(here, acts, t) && (OwnFails(acts, p) == 2 || (OwnFails(acts, p) == 1 && id !in t.pending))
  }

  lemma EndsUndone(here: State, t: State, p: Pid, ask: Ask, id: Id, reliable: bool)
    requires Inv(here) && ReachesBy(here, t, reliable) && p in here.procs && here.procs[p] == Enqueueing(ask, id)
    requires p in t.procs && t.procs[p].Done?
    ensures t.procs[p] == Done(Issued(id)) || (t.procs[p] == Done(Unavailable) && UndoneOrStuck(here, t, p, id))
    ensures reliable ==> t.procs[p] == Done(Issued(id))
  {
    var acts :| Run(here, acts, t) && (reliable ==> NoFails(acts));
    EnqueueEnds(here, acts, t, p, ask, id);
    if reliable {
      NoFailsOwn(acts, p);
    }
  }

  lemma {:induction false} NoFailsOwn(acts: seq<Action>, p: Pid)
    requires NoFails(acts)
    ensures OwnFails(acts, p) == 0
    decreases |acts|
  {
    if acts != [] {
      assert acts[0] in acts;
      NoFailsOwn(acts[1..], p);
    }
  }

  // ---------- Errors without failures ----------

  // Somewhere in the run a sign-in loses a race on a unique key that it cannot explain: a new account's e-mail or
  // provider account was taken, or what blocked its request is gone again.
  ghost predicate LosesKey(s: State, acts: seq<Action>, p: Pid)
    decreases |acts|
  {
    acts != [] && Enabled(s, acts[0]) &&
    ((acts[0].Advance? && acts[0].p == p && KeyLost(s, s.procs[p])) || LosesKey(Apply(s, acts[0]), acts[1..], p))
  }

  predicate KeyLost(s: State, pc: Proc) {
    || (pc.CreatingAccount? && (pc.identity.email in s.users || pc.identity.key in s.links))
    || (pc.Rechecking? && Matching(s.pending, pc.ask.user, pc.ask.identity.key) == {})
  }

  lemma FailedRead(s: State, pc: Proc, pick: Id)
    requires OnlyReads(pc) && !pc.Done? && PickOk(s, pc, pick) && NextRead(s, pc, pick) == Done(Failed)
    ensures KeyLost(s, pc)
  {
  }

  lemma FailedRequest(s: State, p: Pid, pick: Id)
    requires Enabled(s, Advance(p, pick)) && p in Progress(s, p, pick).procs
    requires s.procs[p].CreatingAccount? || s.procs[p].Requesting? || s.procs[p].Inserting? || s.procs[p].Compensating?
    requires Progress(s, p, pick).procs[p] == Done(Failed)
    ensures KeyLost(s, s.procs[p])
  {
    var pc := s.procs[p];
    if pc.CreatingAccount? {
      CreatingStep(s, p, pick);
      CreateAnswers(s, p, pc.identity);
    } else if pc.Inserting? {
      InsertingStep(s, p, pick);
      IssueAnswers(s, p, pc.ask, pc.doomed);
    } else if pc.Compensating? {
      CompensateAs(s, p, pc.ask, pc.id);
    } else {
      RequestingStep(s, p, pick);
    }
  }

  lemma FailedAdvance(s: State, p: Pid, pick: Id)
    requires Enabled(s, Advance(p, pick)) && p in Progress(s, p, pick).procs
    requires Progress(s, p, pick).procs[p] == Done(Failed)
    ensures KeyLost(s, s.procs[p])
  {
    var pc := s.procs[p];
    if OnlyReads(pc) {
      FailedRead(s, pc, pick);
    } else if pc.LookingUp? {
      LooksUp(s, p, pick);
    } else if pc.Linking? {
      LinkingStep(s, p, pick);
      CommitLinkAnswers(s, p, pc.claim);
    } else {
      FailedRequest(s, p, pick);
    }
  }

  // Where nothing fails, an error means such a race.
  lemma {:induction false} FailedMeansLostKey(s: State, acts: seq<Action>, t: State, p: Pid)
    requires Run(s, acts, t) && NoFails(acts) && p in s.procs && s.procs[p] != Done(Failed)
    requires p in t.procs && t.procs[p] == Done(Failed)
    ensures LosesKey(s, acts, p)
    decreases |acts|
  {
    var a := acts[0];
    assert a in acts;
    if a.Advance? && a.p == p {
      ProgressMovesOne(s, p, a.pick);
      if Progress(s, p, a.pick).procs[p] == Done(Failed) {
        FailedAdvance(s, p, a.pick);
        return;
      }
    } else {
      OthersStay(s, a, p);
    }
    FailedMeansLostKey(Apply(s, a), acts[1..], t, p);
  }

  // A `confirm` has no such race: where nothing fails it does not end in an error.
  lemma {:induction false} ConfirmFailsOnlyByFailure(s: State, acts: seq<Action>, t: State, p: Pid)
    requires Run(s, acts, t) && NoFails(acts) && p in s.procs && (IsConfirm(s.procs[p]) || s.procs[p].Done?)
    requires s.procs[p] != Done(Failed)
    ensures p in t.procs && t.procs[p] != Done(Failed)
    decreases |acts|
  {
    if acts != [] {
      var a := acts[0];
      assert a in acts;
      if a.Advance? && a.p == p {
        ProgressFollows(s, p, a.pick);
        if Progress(s, p, a.pick).procs[p] == Done(Failed) {
          FailedAdvance(s, p, a.pick);
        }
      } else {
        OthersStay(s, a, p);
      }
      ConfirmFailsOnlyByFailure(Apply(s, a), acts[1..], t, p);
    }
  }

  // ---------- What the service promises ----------

  // A request that was answered unavailable had stored a row for the identity and the account, and undone it, or
  // both its queue and its delete failed.
  ghost predicate UnavailableIsUndone(start: State, t: State, p: Pid, identity: Identity, user: UserId) {
    exists here: State, ask, id ::
      && Reaches(start, here) && p in here.procs && here.procs[p] == Enqueueing(ask, id)
      && ask.identity == identity && ask.user == user && UndoneOrStuck(here, t, p, id)
  }

  ghost predicate UnavailableRequest(start: State, t: State, p: Pid, identity: Identity) {
    exists user :: UnavailableIsUndone(start, t, p, identity, user)
  }

  ghost predicate FailedForKey(start: State, t: State, p: Pid) {
    exists acts :: Run(start, acts, t) && LosesKey(start, acts, p)
  }

  lemma ResolveEnds(start: State, t: State, p: Pid, identity: Identity, reliable: bool)
    requires ReachesBy(start, t, reliable) && p in start.procs && start.procs[p] == Lookup(identity)
    requires p in t.procs && t.procs[p].Done?
    ensures OfIdentity(t.procs[p], identity)
    ensures reliable && t.procs[p] == Done(Failed) ==> FailedForKey(start, t, p)
  {
    var acts :| Run(start, acts, t) && (reliable ==> NoFails(acts));
    ResolveIsOfItsIdentity(start, acts, t, p, identity);
    if reliable && t.procs[p] == Done(Failed) {
      FailedMeansLostKey(start, acts, t, p);
    }
  }

  lemma ConfirmEnds(start: State, t: State, p: Pid, token: Token, reliable: bool)
    requires ReachesBy(start, t, reliable) && p in start.procs && start.procs[p] == Confirming(token)
    requires p in t.procs && t.procs[p].Done?
    ensures OfToken(t.procs[p], token) && (reliable ==> t.procs[p] != Done(Failed))
  {
    var acts :| Run(start, acts, t) && (reliable ==> NoFails(acts));
    ConfirmIsOfItsToken(start, acts, t, p, token);
    if reliable {
      ConfirmFailsOnlyByFailure(start, acts, t, p);
    }
  }

  lemma UndoneSince(start: State, here: State, t: State, p: Pid, ask: Ask, id: Id, reliable: bool)
    requires ReachesBy(start, here, reliable) && p in here.procs && here.procs[p] == Enqueueing(ask, id)
    requires UndoneOrStuck(here, t, p, id)
    ensures UnavailableIsUndone(start, t, p, ask.identity, ask.user)
  {
    var acts :| Run(start, acts, here) && (reliable ==> NoFails(acts));
    assert Reaches(start, here);
  }
}
