// `AccountResolverService` and `ProviderLinkService` as the code runs them: one call, awaiting the database,
// while every other call, the cleanup and the clock go on (src/auth/account/account-resolver.service.ts,
// src/auth/account-linking/provider-link.service.ts).
module LinkServices {
  import opened Options
  import opened ProviderLinks
  import opened LinkProtocol
  import opened LinkTheorems
  import opened LinkEffects

  class ProviderSignIn {
    const pendingRepo: PendingProviderLinkRepository
    const authProviders: AuthProviderRepository
    const accountUsers: AccountUserRepository
    // Whether every call to the database and the queue succeeds.
    const reliable: bool
    var clock: Time
    var nextToken: Token
    // The whole deployment, these tables and this clock being part of it.
    ghost var world: State

    ghost predicate Valid()
      reads this, pendingRepo, authProviders, accountUsers
    {
      && Reachable(world) && pendingRepo.Valid()
      && world.pending == pendingRepo.rows && world.nextPending == pendingRepo.nextId
      && world.links == authProviders.links
      && world.users == accountUsers.users && world.nextUser == accountUsers.nextId
      && world.clock == clock && world.nextToken == nextToken
    }

    // Call `p` stands at `pc`, in a world reached from `start`.
    ghost predicate At(start: State, p: Pid, pc: Proc)
      reads this, pendingRepo, authProviders, accountUsers
    {
      Valid() && ReachesBy(start, world, reliable) && p in world.procs && world.procs[p] == pc
    }

    constructor (clock: Time, reliable: bool)
      ensures Valid() && Init(world) && this.reliable == reliable
    {
      this.clock, this.nextToken, this.reliable := clock, 0, reliable;
      var pendingLinks := new PendingProviderLinkRepository();
      var providers := new AuthProviderRepository();
      var users := new AccountUserRepository();
      pendingRepo, authProviders, accountUsers := pendingLinks, providers, users;
      world := State(clock, map[], map[], map[], 0, 0, 0, map[], map[], map[], map[]);
      ReachesSelf(State(clock, map[], map[], map[], 0, 0, 0, map[], map[], map[], map[]));
    }

    // An await: the caller learns only that some run took place that left its own call alone.
    method Interfere(ghost start: State, ghost p: Pid, ghost pc: Proc)
      requires At(start, p, pc)
      modifies this, pendingRepo, authProviders, accountUsers
      ensures At(start, p, pc)
    {
    }

    ghost method Record(start: State, a: Action)
      requires Reachable(world) && ReachesBy(start, world, reliable) && Enabled(world, a) && (reliable ==> !a.Fail?)
      modifies this`world
      ensures Reachable(world) && ReachesBy(start, world, reliable) && world == Apply(old(world), a)
    {
      ghost var s0 :| Init(s0) && Reaches(s0, world);
      ReachesStep(s0, world, a);
      ReachesByStep(start, world, a, reliable);
      world := Apply(world, a);
    }

    // The call begins; what it does is told from here.
    ghost method Start(p: Pid, call: Proc) returns (start: State)
      requires Valid() && p !in world.procs && IsCall(call)
      modifies this`world
      ensures start == Put(old(world), p, call) && At(start, p, call)
    {
      ghost var s0 :| Init(s0) && Reaches(s0, world);
      ReachesStep(s0, world, Begin(p, call));
      world := Put(world, p, call);
      start := world;
      ReachesBySelf(start, reliable);
    }

    // Whether the next call to the database or the queue fails.
    method Breaks() returns (broken: bool)
      ensures reliable ==> !broken
    {
      broken := *;
      if reliable {
        broken := false;
      }
    }

    // A database or queue error.
    ghost method Abort(start: State, p: Pid, pc: Proc)
      requires At(start, p, pc) && !pc.Done? && !reliable
      modifies this`world
      ensures At(start, p, Aborted(pc))
    {
      Record(start, Fail(p));
    }

    // ---------- resolve ----------

    method Resolve(ghost p: Pid, identity: Identity) returns (r: Outcome)
      requires Valid() && p !in world.procs
      modifies this, pendingRepo, authProviders, accountUsers
      ensures At(Put(old(world), p, Lookup(identity)), p, Done(r)) && OfIdentity(Done(r), identity)
      ensures r == Unavailable ==>
                UnavailableRequest(Put(old(world), p, Lookup(identity)), world, p, identity) && !reliable
      ensures reliable && r == Failed ==> FailedForKey(Put(old(world), p, Lookup(identity)), world, p)
    {
      ghost var start := Start(p, Lookup(identity));
      r := SignIn(start, p, identity);
      ResolveEnds(start, world, p, identity, reliable);
    }

    method SignIn(ghost start: State, ghost p: Pid, identity: Identity) returns (r: Outcome)
      requires At(start, p, Lookup(identity))
      modifies this, pendingRepo, authProviders, accountUsers
      ensures At(start, p, Done(r))
      ensures r == Unavailable ==> UnavailableRequest(start, world, p, identity) && !reliable
    {
      Interfere(start, p, Lookup(identity));
      var broken := Breaks();
      if broken {
        Abort(start, p, Lookup(identity));
        return Failed;
      }
      var linked := FindLinked(start, p, identity);
      if linked.Some? {
        return Account(identity.key, linked.value);
      }
      r := SignInUnlinked(start, p, identity);
    }

    method SignInUnlinked(ghost start: State, ghost p: Pid, identity: Identity) returns (r: Outcome)
      requires At(start, p, ByEmail(identity))
      modifies this, pendingRepo, authProviders, accountUsers
      ensures At(start, p, Done(r))
      ensures r == Unavailable ==> UnavailableRequest(start, world, p, identity) && !reliable
    {
      Interfere(start, p, ByEmail(identity));
      var broken := Breaks();
      if broken {
        Abort(start, p, ByEmail(identity));
        return Failed;
      }
      var existing := FindByEmail(start, p, identity);
      if existing.None? {
        r := CreateAccount(start, p, identity);
      } else if !identity.emailVerified {
        r := Unverified;
      } else {
        r := RequestLink(start, p, identity, existing.value);
      }
    }

    method FindLinked(ghost start: State, ghost p: Pid, identity: Identity) returns (user: Option<UserId>)
      requires At(start, p, Lookup(identity))
      modifies this`world
      ensures At(start, p, if user.Some? then Done(Account(identity.key, user.value)) else ByEmail(identity))
    {
      user := authProviders.FindAccountByProvider(identity.key);
      Record(start, Advance(p, 0));
    }

    method FindByEmail(ghost start: State, ghost p: Pid, identity: Identity) returns (user: Option<UserId>)
      requires At(start, p, ByEmail(identity))
      modifies this`world
      ensures At(start, p, if user.None? then CreatingAccount(identity)
                           else if !identity.emailVerified then Done(Unverified)
                           else Requesting(identity, user.value))
    {
      user := accountUsers.FindIdByEmail(identity.email);
      Record(start, Advance(p, 0));
    }

    // One transaction: a unique-constraint violation on either insert undoes both.
    method CreateAccount(ghost start: State, ghost p: Pid, identity: Identity) returns (r: Outcome)
      requires At(start, p, CreatingAccount(identity))
      modifies this, pendingRepo, authProviders, accountUsers
      ensures At(start, p, Done(r)) && r != Unavailable
    {
      Interfere(start, p, CreatingAccount(identity));
      var broken := Breaks();
      if broken {
        Abort(start, p, CreatingAccount(identity));
        return Failed;
      }
      r := CommitAccount(start, p, identity);
    }

    method CommitAccount(ghost start: State, ghost p: Pid, identity: Identity) returns (r: Outcome)
      requires At(start, p, CreatingAccount(identity))
      modifies this`world, authProviders, accountUsers
      ensures At(start, p, Done(r)) && r != Unavailable
      ensures r == if identity.email !in old(accountUsers.users) && identity.key !in old(authProviders.links)
                   then Account(identity.key, old(accountUsers.nextId)) else Failed
      ensures r.Account? ==>
                && accountUsers.users == old(accountUsers.users)[identity.email := r.user]
                && authProviders.links == old(authProviders.links)[identity.key := r.user]
      ensures r.Failed? ==>
                accountUsers.users == old(accountUsers.users) && authProviders.links == old(authProviders.links)
    {
      RecordAccount(start, p, identity);
      var before := accountUsers.users;
      var user := accountUsers.CreatePasswordless(identity.email);
      r := Failed;
      if user.Some? {
        var ok := authProviders.Create(user.value, identity.key);
        if ok {
          r := Account(identity.key, user.value);
        } else {
          accountUsers.users := before;
        }
      }
    }

    ghost method RecordAccount(start: State, p: Pid, identity: Identity)
      requires At(start, p, CreatingAccount(identity))
      modifies this`world
      ensures Reachable(world) && ReachesBy(start, world, reliable)
      ensures world == LinkProtocol.CreateAccount(old(world), p, identity)
    {
      CreatingStep(world, p, 0);
      Record(start, Advance(p, 0));
    }

    // ---------- requestLink ----------

    method RequestLink(ghost start: State, ghost p: Pid, identity: Identity, user: UserId) returns (r: Outcome)
      requires At(start, p, Requesting(identity, user))
      modifies this, pendingRepo, authProviders, accountUsers
      ensures At(start, p, Done(r))
      ensures r == Unavailable ==> UnavailableIsUndone(start, world, p, identity, user) && !reliable
    {
      var ask := NewAsk(start, p, identity, user);
      Interfere(start, p, FindingExisting(ask));
      var broken := Breaks();
      if broken {
        Abort(start, p, FindingExisting(ask));
        return Failed;
      }
      var cooling := FindCooling(start, p, ask);
      if cooling.Some? {
        return Cooldown(cooling.value);
      }
      r := StoreAndQueue(start, p, ask);
    }

    method StoreAndQueue(ghost start: State, ghost p: Pid, ask: Ask) returns (r: Outcome)
      requires At(start, p, Deleting(ask))
      modifies this, pendingRepo, authProviders, accountUsers
      ensures At(start, p, Done(r))
      ensures r == Unavailable ==> UnavailableIsUndone(start, world, p, ask.identity, ask.user) && !reliable
    {
      Interfere(start, p, Deleting(ask));
      var broken := Breaks();
      if broken {
        Abort(start, p, Deleting(ask));
        return Failed;
      }
      var id: Option<Id>;
      id, r := Issue(start, p, ask);
      if id.Some? {
        ghost var here := world;
        r := Enqueue(start, p, ask, id.value);
        if r == Unavailable {
          UndoneSince(start, here, world, p, ask, id.value, reliable);
        }
      }
    }

    method NewAsk(ghost start: State, ghost p: Pid, identity: Identity, user: UserId) returns (ask: Ask)
      requires At(start, p, Requesting(identity, user))
      modifies this
      ensures ask == Ask(identity, user, old(nextToken), old(clock)) && At(start, p, FindingExisting(ask))
    {
      ask := Ask(identity, user, nextToken, clock);
      RecordAsk(start, p, identity, user);
      nextToken := nextToken + 1;
    }

    ghost method RecordAsk(start: State, p: Pid, identity: Identity, user: UserId)
      requires At(start, p, Requesting(identity, user))
      modifies this`world
      ensures Reachable(world) && ReachesBy(start, world, reliable) && world == StartAsk(old(world), p, identity, user)
    {
      RequestingStep(world, p, 0);
      Record(start, Advance(p, 0));
    }

    method FindCooling(ghost start: State, ghost p: Pid, ask: Ask) returns (cooling: Option<Id>)
      requires At(start, p, FindingExisting(ask))
      modifies this`world
      ensures At(start, p, if cooling.Some? then Done(Cooldown(cooling.value)) else Deleting(ask))
    {
      var existing := pendingRepo.FindExisting(ask.user, ask.identity.key);
      cooling := if existing.Some?
                    && ask.now - pendingRepo.rows[existing.value].createdAt < PENDING_LINK_RESEND_COOLDOWN_MS
                 then existing else None;
      Record(start, Advance(p, if existing.Some? then existing.value else 0));
    }

    // The issue transaction and, on a unique-constraint violation, the second read.
    method Issue(ghost start: State, ghost p: Pid, ask: Ask) returns (id: Option<Id>, r: Outcome)
      requires At(start, p, Deleting(ask))
      modifies this, pendingRepo, authProviders, accountUsers
      ensures At(start, p, if id.Some? then Enqueueing(ask, id.value) else Done(r)) && r != Unavailable
    {
      var doomed := DeleteMatching(start, p, ask);
      Interfere(start, p, Inserting(ask, doomed));
      var broken := Breaks();
      if broken {
        Abort(start, p, Inserting(ask, doomed));
        return None, Failed;
      }
      id := Insert(start, p, ask, doomed);
      if id.Some? {
        return id, Failed;
      }
      Interfere(start, p, Rechecking(ask));
      r := Recheck(start, p, ask);
    }

    // The transaction's `deleteMany`, not yet committed.
    method DeleteMatching(ghost start: State, ghost p: Pid, ask: Ask) returns (doomed: set<Id>)
      requires At(start, p, Deleting(ask))
      modifies this`world
      ensures At(start, p, Inserting(ask, doomed))
    {
      doomed := Matching(pendingRepo.rows, ask.user, ask.identity.key);
      Record(start, Advance(p, 0));
    }

    method Insert(ghost start: State, ghost p: Pid, ask: Ask, doomed: set<Id>) returns (id: Option<Id>)
      requires At(start, p, Inserting(ask, doomed))
      modifies this`world, pendingRepo
      ensures At(start, p, if id.Some? then Enqueueing(ask, id.value) else Rechecking(ask))
    {
      RecordIssue(start, p, ask, doomed);
      id := pendingRepo.ReplaceRows(doomed, ask.Row());
    }

    ghost method RecordIssue(start: State, p: Pid, ask: Ask, doomed: set<Id>)
      requires At(start, p, Inserting(ask, doomed))
      modifies this`world
      ensures Reachable(world) && ReachesBy(start, world, reliable)
      ensures var next := old(world).(nextPending := old(world).nextPending + 1);
              world == if Blocked(old(world).pending, doomed, ask.Row()) then Put(next, p, Rechecking(ask))
                       else Put(next.(pending := (old(world).pending - doomed)[old(world).nextPending := ask.Row()]),
                                p, Enqueueing(ask, old(world).nextPending))
    {
      InsertingStep(world, p, 0);
      IssueAs(world, p, ask, doomed);
      Record(start, Advance(p, 0));
    }

    method Recheck(ghost start: State, ghost p: Pid, ask: Ask) returns (r: Outcome)
      requires At(start, p, Rechecking(ask))
      modifies this`world
      ensures At(start, p, Done(r)) && r != Unavailable
    {
      var broken := Breaks();
      if broken {
        Abort(start, p, Rechecking(ask));
        return Failed;
      }
      var conflict := pendingRepo.FindExisting(ask.user, ask.identity.key);
      r := if conflict.Some? then Cooldown(conflict.value) else Failed;
      Record(start, Advance(p, if conflict.Some? then conflict.value else 0));
    }

    method Enqueue(ghost start: State, ghost p: Pid, ask: Ask, id: Id) returns (r: Outcome)
      requires At(start, p, Enqueueing(ask, id))
      modifies this, pendingRepo, authProviders, accountUsers
      ensures At(start, p, Done(r))
      ensures r == Issued(id) || (r == Unavailable && UndoneOrStuck(old(world), world, p, id))
      ensures reliable ==> r == Issued(id)
    {
      ghost var here := world;
      ReachableIsInv(here);
      ReachesBySelf(here, reliable);
      r := Queue(here, p, ask, id);
      ReachesByTrans(start, here, world, reliable);
      EndsUndone(here, world, p, ask, id, reliable);
    }

    method Queue(ghost start: State, ghost p: Pid, ask: Ask, id: Id) returns (r: Outcome)
      requires At(start, p, Enqueueing(ask, id))
      modifies this, pendingRepo, authProviders, accountUsers
      ensures At(start, p, Done(r))
    {
      Interfere(start, p, Enqueueing(ask, id));
      var broken := Breaks();
      if !broken {
        Sent(start, p, ask, id);
        return Issued(id);
      }
      Abort(start, p, Enqueueing(ask, id));
      Interfere(start, p, Compensating(ask, id));
      broken := Breaks();
      if broken {
        Abort(start, p, Compensating(ask, id));
      } else {
        Undo(start, p, ask, id);
      }
      return Unavailable;
    }

    ghost method Sent(start: State, p: Pid, ask: Ask, id: Id)
      requires At(start, p, Enqueueing(ask, id))
      modifies this`world
      ensures At(start, p, Done(Issued(id)))
    {
      Record(start, Advance(p, 0));
      assert world == Put(old(world), p, Done(Issued(id)));
    }

    method Undo(ghost start: State, ghost p: Pid, ask: Ask, id: Id)
      requires At(start, p, Compensating(ask, id))
      modifies this`world, pendingRepo`rows
      ensures At(start, p, Done(Unavailable))
    {
      var _ := pendingRepo.DeleteIfCurrent(id, ask.token);
      Record(start, Advance(p, 0));
      assert world == Compensate(old(world), p, ask, id);
    }

    // ---------- confirm ----------

    method Confirm(ghost p: Pid, token: Token) returns (r: Outcome)
      requires Valid() && p !in world.procs
      modifies this, pendingRepo, authProviders, accountUsers
      ensures At(Put(old(world), p, Confirming(token)), p, Done(r)) && OfToken(Done(r), token)
      ensures reliable ==> r != Failed
    {
      ghost var start := Start(p, Confirming(token));
      r := ConfirmToken(start, p, token);
      ConfirmEnds(start, world, p, token, reliable);
    }

    method ConfirmToken(ghost start: State, ghost p: Pid, token: Token) returns (r: Outcome)
      requires At(start, p, Confirming(token))
      modifies this, pendingRepo, authProviders, accountUsers
      ensures At(start, p, Done(r))
    {
      var now := Stamp(start, p, token);
      Interfere(start, p, FindingValid(token, now));
      var broken := Breaks();
      if broken {
        Abort(start, p, FindingValid(token, now));
        return Failed;
      }
      var found := Find(start, p, token, now);
      if found.None? {
        return BadToken;
      }
      r := ConfirmClaim(start, p, found.value);
    }

    method Stamp(ghost start: State, ghost p: Pid, token: Token) returns (now: Time)
      requires At(start, p, Confirming(token))
      modifies this`world
      ensures At(start, p, FindingValid(token, now))
    {
      now := clock;
      Record(start, Advance(p, 0));
      assert world == Put(old(world), p, FindingValid(token, now));
    }

    method ConfirmClaim(ghost start: State, ghost p: Pid, claim: Claim) returns (r: Outcome)
      requires At(start, p, Claiming(claim))
      modifies this, pendingRepo, authProviders, accountUsers
      ensures At(start, p, Done(r))
    {
      Interfere(start, p, Claiming(claim));
      var broken := Breaks();
      if broken {
        Abort(start, p, Claiming(claim));
        return Failed;
      }
      var claimed := ClaimRow(start, p, claim);
      r := LookUpAndLink(start, p, claim, claimed);
    }

    method LookUpAndLink(ghost start: State, ghost p: Pid, claim: Claim, claimed: bool) returns (r: Outcome)
      requires At(start, p, LookingUp(claim, claimed))
      modifies this, pendingRepo, authProviders, accountUsers
      ensures At(start, p, Done(r))
    {
      Interfere(start, p, LookingUp(claim, claimed));
      var broken := Breaks();
      if broken {
        Abort(start, p, LookingUp(claim, claimed));
        return Failed;
      }
      var existing := LookUp(start, p, claim, claimed);
      if existing.Some? {
        return if existing.value == claim.row.userId then AlreadyConfirmed(claim) else LinkConflict(claim);
      }
      if !claimed {
        return BadToken;
      }
      r := CreateLink(start, p, claim);
    }

    method Find(ghost start: State, ghost p: Pid, token: Token, now: Time) returns (found: Option<Claim>)
      requires At(start, p, FindingValid(token, now))
      modifies this`world
      ensures At(start, p, if found.Some? then Claiming(found.value) else Done(BadToken))
    {
      var row := pendingRepo.FindValid(token, now);
      found := if row.Some? then Some(Claim(token, now, row.value.0, row.value.1)) else None;
      if row.Some? {
        FoundIs(pendingRepo.rows, token, now, row.value.0);
      }
      Record(start, Advance(p, 0));
    }

    // The transaction's conditional delete, not yet committed.
    method ClaimRow(ghost start: State, ghost p: Pid, claim: Claim) returns (claimed: bool)
      requires At(start, p, Claiming(claim))
      modifies this`world
      ensures At(start, p, LookingUp(claim, claimed))
    {
      claimed := Claimable(pendingRepo.rows, claim.id, claim.token, claim.now);
      Record(start, Advance(p, 0));
    }

    // On a link to the same user the transaction commits with its claim; on one to another it rolls back.
    method LookUp(ghost start: State, ghost p: Pid, claim: Claim, claimed: bool) returns (existing: Option<UserId>)
      requires At(start, p, LookingUp(claim, claimed))
      modifies this`world, pendingRepo`rows
      ensures At(start, p, if existing.None? then if claimed then Linking(claim) else Done(BadToken)
                           else if existing.value == claim.row.userId then Done(AlreadyConfirmed(claim))
                           else Done(LinkConflict(claim)))
      ensures pendingRepo.rows == if claimed && existing == Some(claim.row.userId)
                                  then old(pendingRepo.rows) - {claim.id} else old(pendingRepo.rows)
    {
      existing := authProviders.FindAccountByProvider(claim.row.key);
      if existing == Some(claim.row.userId) {
        CommitClaim(start, p, claim, claimed);
      } else {
        RollBackClaim(start, p, claim, claimed);
      }
    }

    method CommitClaim(ghost start: State, ghost p: Pid, claim: Claim, claimed: bool)
      requires At(start, p, LookingUp(claim, claimed)) && LinkedTo(authProviders.links, claim.row.key, claim.row.userId)
      modifies this`world, pendingRepo`rows
      ensures At(start, p, Done(AlreadyConfirmed(claim)))
      ensures pendingRepo.rows == if claimed then old(pendingRepo.rows) - {claim.id} else old(pendingRepo.rows)
    {
      RecordLookUp(start, p, claim, claimed);
      if claimed {
        pendingRepo.rows := pendingRepo.rows - {claim.id};
      }
    }

    ghost method RecordLookUp(start: State, p: Pid, claim: Claim, claimed: bool)
      requires At(start, p, LookingUp(claim, claimed)) && LinkedTo(authProviders.links, claim.row.key, claim.row.userId)
      modifies this`world
      ensures Reachable(world) && ReachesBy(start, world, reliable)
      ensures var rows := if claimed then old(world).pending - {claim.id} else old(world).pending;
              world == Put(old(world).(pending := rows), p, Done(AlreadyConfirmed(claim)))
    {
      LookingUpStep(world, p, 0);
      LookUpAs(world, p, claim, claimed);
      Record(start, Advance(p, 0));
    }

    // Nothing committed yet: the transaction throws, or goes on to create the link.
    ghost method RollBackClaim(start: State, p: Pid, claim: Claim, claimed: bool)
      requires At(start, p, LookingUp(claim, claimed))
      requires !LinkedTo(authProviders.links, claim.row.key, claim.row.userId)
      modifies this`world
      ensures At(start, p, if claim.row.key in authProviders.links then Done(LinkConflict(claim))
                           else if claimed then Linking(claim) else Done(BadToken))
    {
      Record(start, Advance(p, 0));
      assert world == Put(old(world), p, AfterLookUp(old(world).links, claim, claimed));
    }

    method CreateLink(ghost start: State, ghost p: Pid, claim: Claim) returns (r: Outcome)
      requires At(start, p, Linking(claim))
      modifies this, pendingRepo, authProviders, accountUsers
      ensures At(start, p, Done(r))
    {
      Interfere(start, p, Linking(claim));
      var broken := Breaks();
      if broken {
        Abort(start, p, Linking(claim));
        return Failed;
      }
      var created := CommitLink(start, p, claim);
      if created {
        return Confirmed(claim);
      }
      r := SettleRace(start, p, claim);
    }

    method SettleRace(ghost start: State, ghost p: Pid, claim: Claim) returns (r: Outcome)
      requires At(start, p, Raced(claim))
      modifies this, pendingRepo, authProviders, accountUsers
      ensures At(start, p, Done(r))
    {
      Interfere(start, p, Raced(claim));
      var broken := Breaks();
      if broken {
        Abort(start, p, Raced(claim));
        return Failed;
      }
      r := Reread(start, p, claim);
    }

    method CommitLink(ghost start: State, ghost p: Pid, claim: Claim) returns (created: bool)
      requires At(start, p, Linking(claim))
      modifies this`world, pendingRepo`rows, authProviders
      ensures At(start, p, if created then Done(Confirmed(claim)) else Raced(claim))
      ensures created == (claim.row.key !in old(authProviders.links))
      ensures created ==>
                && authProviders.links == old(authProviders.links)[claim.row.key := claim.row.userId]
                && pendingRepo.rows == old(pendingRepo.rows) - {claim.id}
      ensures !created ==> authProviders.links == old(authProviders.links) && pendingRepo.rows == old(pendingRepo.rows)
    {
      RecordLink(start, p, claim);
      created := authProviders.Create(claim.row.userId, claim.row.key);
      if created {
        pendingRepo.rows := pendingRepo.rows - {claim.id};
      }
    }

    ghost method RecordLink(start: State, p: Pid, claim: Claim)
      requires At(start, p, Linking(claim))
      modifies this`world
      ensures Reachable(world) && ReachesBy(start, world, reliable)
      ensures world == LinkProtocol.CommitLink(old(world), p, claim)
    {
      LinkingStep(world, p, 0);
      Record(start, Advance(p, 0));
    }

    method Reread(ghost start: State, ghost p: Pid, claim: Claim) returns (r: Outcome)
      requires At(start, p, Raced(claim))
      modifies this`world
      ensures At(start, p, Done(r))
    {
      var existing := authProviders.FindAccountByProvider(claim.row.key);
      r := if existing == Some(claim.row.userId) then AlreadyConfirmed(claim) else LinkConflict(claim);
      Record(start, Advance(p, 0));
      assert world == LinkProtocol.Reread(old(world), p, claim);
    }

    // ---------- cleanup ----------

    // `cutoff` is the time the job read before the delete ran.
    method RemoveExpiredLinks(cutoff: Time)
      requires Valid() && cutoff <= clock
      modifies this`world, pendingRepo`rows
      ensures Valid() && ReachesBy(old(world), world, reliable) && world.procs == old(world.procs)
      ensures forall i :: i in pendingRepo.rows <==>
                i in old(pendingRepo.rows) && old(pendingRepo.rows)[i].expiresAt > cutoff
      ensures forall i :: i in pendingRepo.rows ==> pendingRepo.rows[i] == old(pendingRepo.rows)[i]
    {
      ghost var start := world;
      ReachesBySelf(start, reliable);
      pendingRepo.DeleteExpired(cutoff);
      Record(start, Cleanup(cutoff));
    }
  }
}
