// What provider sign-in promises over every interleaving.
module LinkTheorems {
  import opened Options
  import opened ProviderLinks
  import opened LinkProtocol

  lemma InitIsInv(s: State)
    requires Init(s)
    ensures Inv(s) && FlightOk(s)
  {
  }

  lemma LaterTrans(s: State, t: State, u: State)
    requires Later(s, t) && Later(t, u)
    ensures Later(s, u)
  {
  }

  lemma {:induction false} RunKeepsInv(s: State, acts: seq<Action>, t: State)
    requires Inv(s) && Run(s, acts, t)
    ensures Inv(t) && Later(s, t)
    decreases |acts|
  {
    if acts != [] {
      StepKeepsInv(s, acts[0]);
      RunKeepsInv(Apply(s, acts[0]), acts[1..], t);
      LaterTrans(s, Apply(s, acts[0]), t);
    }
  }

  lemma {:induction false} RunAppended(s: State, acts: seq<Action>, t: State, more: seq<Action>, u: State)
    requires Run(s, acts, t) && Run(t, more, u)
    ensures Run(s, acts + more, u)
    decreases |acts|
  {
    if acts == [] {
      assert acts + more == more;
    } else {
      RunAppended(Apply(s, acts[0]), acts[1..], t, more, u);
      assert (acts + more)[0] == acts[0] && (acts + more)[1..] == acts[1..] + more;
    }
  }

  // ---------- confirm ----------

  // What a `confirm` answered is true then and in every later state, whatever ran before and after.
  lemma ConfirmOutcomesHold(s: State, acts: seq<Action>, t: State, more: seq<Action>, u: State, p: Pid)
    requires Init(s) && Run(s, acts, t) && Run(t, more, u)
    requires p in t.procs && t.procs[p].Done?
    ensures p in u.procs && u.procs[p] == t.procs[p]
    ensures t.procs[p].outcome.Confirmed? || t.procs[p].outcome.AlreadyConfirmed? ==>
              var row := t.procs[p].outcome.claim.row; LinkedTo(u.links, row.key, row.userId)
    ensures t.procs[p].outcome.LinkConflict? ==>
              var row := t.procs[p].outcome.claim.row; row.key in u.links && u.links[row.key] != row.userId
  {
    InitIsInv(s);
    RunKeepsInv(s, acts, t);
    RunKeepsInv(t, more, u);
    assert ProcOk(u, p, u.procs[p]);
  }

  ghost predicate HasConfirmed(s: State, p: Pid, key: Key) {
    p in s.procs && s.procs[p].Done? && s.procs[p].outcome.Confirmed? && s.procs[p].outcome.claim.row.key == key
  }

  lemma ConfirmedIsOrigin(s: State, p: Pid, key: Key)
    requires Inv(s) && HasConfirmed(s, p, key)
    ensures key in s.origins && s.origins[key] == ByConfirm(p, s.procs[p].outcome.claim)
  {
    assert ProcOk(s, p, s.procs[p]);
  }

  // At most one `confirm` ever answers `confirmed` for a provider account.
  lemma ConfirmedOnce(s: State, acts: seq<Action>, t: State, p: Pid, q: Pid, key: Key)
    requires Init(s) && Run(s, acts, t)
    requires HasConfirmed(t, p, key) && HasConfirmed(t, q, key)
    ensures p == q
  {
    InitIsInv(s);
    RunKeepsInv(s, acts, t);
    ConfirmedIsOrigin(t, p, key);
    ConfirmedIsOrigin(t, q, key);
  }

  // What one step of a `confirm` may do to the tables, by the answer it gives, if any.
  ghost predicate ConfirmEffect(s: State, t: State, p: Pid) {
    t.users == s.users && p in s.procs && p in t.procs &&
    match t.procs[p]
    case Done(Confirmed(claim)) =>
      && claim.row.key !in s.links
      && t.links == s.links[claim.row.key := claim.row.userId]
      && t.pending == s.pending - {claim.id}
    case Done(AlreadyConfirmed(claim)) =>
      && t.links == s.links
      && t.pending == if s.procs[p] == LookingUp(claim, true) then s.pending - {claim.id} else s.pending
    case _ => t.links == s.links && t.pending == s.pending
  }

  lemma LookUpEffect(s: State, p: Pid, claim: Claim, claimed: bool)
    requires p in s.procs && s.procs[p] == LookingUp(claim, claimed)
    ensures ConfirmEffect(s, LookUpLink(s, p, claim, claimed), p)
  {
    if LinkedTo(s.links, claim.row.key, claim.row.userId) {
    } else if claim.row.key in s.links {
    } else {
    }
  }

  lemma CommitEffect(s: State, p: Pid, claim: Claim)
    requires p in s.procs
    ensures ConfirmEffect(s, CommitLink(s, p, claim), p)
  {
  }

  lemma LocalEffect(s: State, p: Pid, pc: Proc)
    requires p in s.procs && (pc.Done? ==> !pc.outcome.Confirmed?)
    requires pc.Done? && pc.outcome.AlreadyConfirmed? ==> !s.procs[p].LookingUp?
    ensures ConfirmEffect(s, Put(s, p, pc), p)
  {
  }

  lemma ReadEffect(s: State, p: Pid, pick: Id)
    requires Enabled(s, Advance(p, pick)) && IsConfirm(s.procs[p]) && OnlyReads(s.procs[p])
    ensures ConfirmEffect(s, Progress(s, p, pick), p)
  {
    LocalEffect(s, p, NextRead(s, s.procs[p], pick));
  }

  lemma ProgressEffect(s: State, p: Pid, pick: Id)
    requires Enabled(s, Advance(p, pick)) && IsConfirm(s.procs[p])
    ensures ConfirmEffect(s, Progress(s, p, pick), p)
  {
    var pc := s.procs[p];
    if pc.LookingUp? {
      LookUpEffect(s, p, pc.claim, pc.claimed);
    } else if pc.Linking? {
      CommitEffect(s, p, pc.claim);
    } else {
      ReadEffect(s, p, pick);
    }
  }

  // The steps of a `confirm` change a table only as they answer `confirmed` (the row goes, the link comes) or
  // `already-confirmed` from the transaction (the row it claimed goes); the read after a lost race leaves the row,
  // and so does a conflict. So a `confirm` that throws, at whatever step,
  // leaves both tables as they were, its own pending row included.
  lemma ConfirmChangesOnlyOnSuccess(s: State, p: Pid, pick: Id)
    requires Enabled(s, Advance(p, pick)) && IsConfirm(s.procs[p])
    ensures ConfirmEffect(s, Progress(s, p, pick), p)
    ensures ConfirmEffect(s, Apply(s, Fail(p)), p) && Apply(s, Fail(p)).procs[p] == Done(Failed)
  {
    ProgressEffect(s, p, pick);
    LocalEffect(s, p, Done(Failed));
  }

  predicate Succeeded(outcome: Outcome) {
    outcome.Confirmed? || outcome.AlreadyConfirmed?
  }

  // Over a whole run: no step of a `confirm` that ends in an error changed anything.
  lemma FailedConfirmChangesNothing(s: State, a: Action, after: seq<Action>, t: State, p: Pid)
    requires Inv(s) && Enabled(s, a) && (a == Fail(p) || (a.Advance? && a.p == p)) && IsConfirm(s.procs[p])
    requires Run(Apply(s, a), after, t)
    requires p in t.procs && t.procs[p].Done? && !Succeeded(t.procs[p].outcome)
    ensures Apply(s, a).links == s.links && Apply(s, a).pending == s.pending && Apply(s, a).users == s.users
  {
    var s1 := Apply(s, a);
    ConfirmChangesOnlyOnSuccess(s, p, if a.Advance? then a.pick else 0);
    StepKeepsInv(s, a);
    RunKeepsInv(s1, after, t);
    assert ConfirmEffect(s, s1, p);
    assert s1.procs[p].Done? ==> s1.procs[p] == t.procs[p];
  }

  // ---------- Provenance ----------

  // Every link was created with its account, or by a `confirm` within the lifetime of a pending row requested
  // for that very account by an identity whose provider verified the account's email.
  lemma LinkProvenance(s: State, acts: seq<Action>, t: State, key: Key)
    requires Init(s) && Run(s, acts, t) && key in t.links
    ensures key in t.origins
    ensures t.origins[key].Born? ==> t.links[key] in t.births && t.births[t.links[key]] == Some(key)
    ensures t.origins[key].ByConfirm? ==>
              var claim := t.origins[key].claim;
              && claim.token in t.asks && claim.row == t.asks[claim.token].Row() && claim.now < claim.row.expiresAt
              && t.asks[claim.token].identity.key == key && t.asks[claim.token].user == t.links[key]
              && EntitledTo(t.users, t.asks[claim.token].identity, t.links[key])
              && t.procs.Keys >= {t.origins[key].p} && t.procs[t.origins[key].p] == Done(Confirmed(claim))
  {
    InitIsInv(s);
    RunKeepsInv(s, acts, t);
    assert OriginOk(t, key);
  }

  // Once `resolve` has returned an account for an identity, every later `resolve` of that provider account
  // returns the same one.
  lemma ResolveIsStable(s: State, acts: seq<Action>, t: State, more: seq<Action>, u: State, p: Pid, q: Pid)
    requires Init(s) && Run(s, acts, t) && Run(t, more, u)
    requires p in t.procs && t.procs[p].Done? && t.procs[p].outcome.Account?
    requires q in u.procs && u.procs[q].Lookup? && u.procs[q].identity.key == t.procs[p].outcome.key
    ensures Progress(u, q, 0).procs[q] == t.procs[p]
  {
    InitIsInv(s);
    RunKeepsInv(s, acts, t);
    RunKeepsInv(t, more, u);
    assert ProcOk(t, p, t.procs[p]);
  }

  // ---------- issue ----------

  // The token of a request whose row is still to be inserted.
  function InFlight(pc: Proc): Option<Token> {
    if pc.FindingExisting? || pc.Deleting? || pc.Inserting? || pc.Rechecking? then Some(pc.ask.token) else None
  }

  ghost predicate FlightOk(s: State) {
    && (forall p :: p in s.procs && InFlight(s.procs[p]).Some? ==>
          InFlight(s.procs[p]).value < s.nextToken
          && forall i :: i in s.pending ==> s.pending[i].tokenHash != InFlight(s.procs[p]).value)
    && (forall p, q ::
          p in s.procs && q in s.procs && InFlight(s.procs[p]).Some? && InFlight(s.procs[p]) == InFlight(s.procs[q])
          ==> p == q)
  }

  // No stored row carries the token, and none ever will.
  ghost predicate Dead(s: State, token: Token) {
    && token < s.nextToken
    && (forall i :: i in s.pending ==> s.pending[i].tokenHash != token)
    && (forall p :: p in s.procs ==> InFlight(s.procs[p]) != Some(token))
  }

  // How a step may change what the two predicates above read: a call starts with a fresh token, keeps its
  // token, or drops it; a new row carries the token of the call that drops it.
  ghost predicate FlightStep(s: State, t: State, p: Pid) {
    && s.nextToken <= t.nextToken
    && (forall q :: q in t.procs && q != p ==> q in s.procs && t.procs[q] == s.procs[q])
    && (p in t.procs && InFlight(t.procs[p]).Some? ==>
          || (p in s.procs && InFlight(t.procs[p]) == InFlight(s.procs[p]))
          || (InFlight(t.procs[p]) == Some(s.nextToken) && s.nextToken < t.nextToken))
    && (forall i :: i in t.pending ==>
          || (i in s.pending && t.pending[i] == s.pending[i])
          || (p in s.procs && p in t.procs && InFlight(s.procs[p]) == Some(t.pending[i].tokenHash)
              && InFlight(t.procs[p]).None?))
  }

  lemma LocalFlight(s: State, p: Pid, pc: Proc)
    requires InFlight(pc).Some? ==> p in s.procs && InFlight(pc) == InFlight(s.procs[p])
    ensures FlightStep(s, Put(s, p, pc), p)
  {
  }

  lemma RowsGoneFlight(s: State, t: State, p: Pid)
    requires p in t.procs && t.procs == s.procs[p := t.procs[p]] && InFlight(t.procs[p]).None?
    requires t.nextToken == s.nextToken && forall i :: i in t.pending ==> i in s.pending && t.pending[i] == s.pending[i]
    ensures FlightStep(s, t, p)
  {
  }

  lemma CommitIssueFlight(s: State, p: Pid, ask: Ask, doomed: set<Id>)
    requires p in s.procs && s.procs[p] == Inserting(ask, doomed)
    ensures FlightStep(s, CommitIssue(s, p, ask, doomed), p)
  {
    assert ask.Row().tokenHash == ask.token;
  }

  // A read keeps the token of its call or drops it.
  lemma ReadInFlight(s: State, pc: Proc, pick: Id)
    requires OnlyReads(pc) && PickOk(s, pc, pick)
    ensures InFlight(NextRead(s, pc, pick)).None? || InFlight(NextRead(s, pc, pick)) == InFlight(pc)
  {
  }

  lemma ReadFlight(s: State, p: Pid, pick: Id)
    requires Enabled(s, Advance(p, pick)) && OnlyReads(s.procs[p])
    ensures FlightStep(s, Progress(s, p, pick), p)
  {
    ReadInFlight(s, s.procs[p], pick);
    LocalFlight(s, p, NextRead(s, s.procs[p], pick));
  }

  lemma StartAskFlight(s: State, p: Pid, identity: Identity, user: UserId)
    ensures FlightStep(s, StartAsk(s, p, identity, user), p)
  {
  }

  lemma LinkFlight(s: State, p: Pid, claim: Claim)
    ensures FlightStep(s, CommitLink(s, p, claim), p)
  {
    RowsGoneFlight(s, CommitLink(s, p, claim), p);
  }

  lemma LookUpFlight(s: State, p: Pid, claim: Claim, claimed: bool)
    ensures FlightStep(s, LookUpLink(s, p, claim, claimed), p)
  {
    if LinkedTo(s.links, claim.row.key, claim.row.userId) {
      RowsGoneFlight(s, LookUpLink(s, p, claim, claimed), p);
    } else if claim.row.key in s.links {
      LocalFlight(s, p, Done(LinkConflict(claim)));
    } else {
      LocalFlight(s, p, if claimed then Linking(claim) else Done(BadToken));
    }
  }

  lemma RequestFlight(s: State, p: Pid, pick: Id)
    requires Enabled(s, Advance(p, pick))
    requires (s.procs[p].Requesting? || s.procs[p].Inserting? || s.procs[p].Compensating?)
    ensures FlightStep(s, Progress(s, p, pick), p)
  {
    var pc := s.procs[p];
    if pc.Requesting? {
      StartAskFlight(s, p, pc.identity, pc.user);
    } else if pc.Inserting? {
      CommitIssueFlight(s, p, pc.ask, pc.doomed);
    } else {
      RowsGoneFlight(s, Compensate(s, p, pc.ask, pc.id), p);
    }
  }

  lemma AccountFlight(s: State, p: Pid, identity: Identity)
    ensures FlightStep(s, CreateAccount(s, p, identity), p)
  {
    RowsGoneFlight(s, CreateAccount(s, p, identity), p);
  }

  lemma CommitFlight(s: State, p: Pid, pick: Id)
    requires Enabled(s, Advance(p, pick))
    requires (s.procs[p].CreatingAccount? || s.procs[p].LookingUp? || s.procs[p].Linking?)
    ensures FlightStep(s, Progress(s, p, pick), p)
  {
    var pc := s.procs[p];
    if pc.CreatingAccount? {
      CreatingStep(s, p, pick);
      AccountFlight(s, p, pc.identity);
    } else if pc.LookingUp? {
      LookingUpStep(s, p, pick);
      LookUpFlight(s, p, pc.claim, pc.claimed);
    } else {
      LinkingStep(s, p, pick);
      LinkFlight(s, p, pc.claim);
    }
  }

  lemma ProgressIsFlightStep(s: State, p: Pid, pick: Id)
    requires Enabled(s, Advance(p, pick))
    ensures FlightStep(s, Progress(s, p, pick), p)
  {
    var pc := s.procs[p];
    if OnlyReads(pc) {
      ReadFlight(s, p, pick);
    } else if pc.Requesting? || pc.Inserting? || pc.Compensating? {
      RequestFlight(s, p, pick);
    } else {
      CommitFlight(s, p, pick);
    }
  }

  lemma StepIsFlightStep(s: State, a: Action) returns (p: Pid)
    requires Enabled(s, a)
    ensures FlightStep(s, Apply(s, a), p)
  {
    match a
    case Begin(q, _) => p := q;
    case Fail(q) => p := q;
    case Advance(q, pick) =>
      p := q;
      ProgressIsFlightStep(s, q, pick);
    case _ => p := 0;
  }

  lemma FlightStepKeeps(s: State, t: State, p: Pid)
    requires PendingOk(s.pending, s.asks, s.nextPending) && AsksOk(s.asks, s.users, s.nextToken)
    requires FlightOk(s) && FlightStep(s, t, p)
    ensures FlightOk(t)
    ensures forall token :: Dead(s, token) ==> Dead(t, token)
  {
    assert forall i :: i in s.pending ==> s.pending[i].tokenHash < s.nextToken;
  }

  lemma {:induction false} DeadForever(s: State, acts: seq<Action>, t: State, token: Token)
    requires Inv(s) && FlightOk(s) && Run(s, acts, t) && Dead(s, token)
    ensures Dead(t, token)
    decreases |acts|
  {
    if acts != [] {
      StepKeepsBoth(s, acts[0]);
      DeadForever(Apply(s, acts[0]), acts[1..], t, token);
    }
  }

  lemma StepKeepsBoth(s: State, a: Action)
    requires Inv(s) && FlightOk(s) && Enabled(s, a)
    ensures Inv(Apply(s, a)) && FlightOk(Apply(s, a))
    ensures forall token :: Dead(s, token) ==> Dead(Apply(s, a), token)
  {
    StepKeepsInv(s, a);
    var p := StepIsFlightStep(s, a);
    FlightStepKeeps(s, Apply(s, a), p);
  }

  lemma {:induction false} RunKeepsBoth(s: State, acts: seq<Action>, t: State)
    requires Inv(s) && FlightOk(s) && Run(s, acts, t)
    ensures Inv(t) && FlightOk(t)
    decreases |acts|
  {
    if acts != [] {
      StepKeepsBoth(s, acts[0]);
      RunKeepsBoth(Apply(s, acts[0]), acts[1..], t);
    }
  }

  // After the commit of an issue exactly one row matches either of its composite keys: its own.
  lemma IssueOwnsKeys(s: State, p: Pid, ask: Ask, doomed: set<Id>)
    requires Inv(s) && p in s.procs && s.procs[p] == Inserting(ask, doomed)
    requires CommitIssue(s, p, ask, doomed).procs[p].Enqueueing?
    ensures var t := CommitIssue(s, p, ask, doomed);
            && t.procs[p] == Enqueueing(ask, s.nextPending)
            && Matching(t.pending, ask.user, ask.identity.key) == {s.nextPending}
            && t.pending[s.nextPending] == ask.Row()
  {
    IssueAs(s, p, ask, doomed);
    OnlyOwnMatches(s.pending, s.nextPending, doomed, ask);
  }

  lemma OnlyOwnMatches(rows: PendingTable, next: Id, doomed: set<Id>, ask: Ask)
    requires !Blocked(rows, doomed, ask.Row())
    ensures Matching((rows - doomed)[next := ask.Row()], ask.user, ask.identity.key) == {next}
  {
  }

  lemma ReplacedTokenIsDead(s: State, p: Pid, ask: Ask, doomed: set<Id>, replaced: Id)
    requires Inv(s) && FlightOk(s) && p in s.procs && s.procs[p] == Inserting(ask, doomed)
    requires !Blocked(s.pending, doomed, ask.Row())
    requires replaced in s.pending && Matches(s.pending[replaced], ask.user, ask.identity.key)
    ensures Dead(CommitIssue(s, p, ask, doomed), s.pending[replaced].tokenHash)
  {
    var t, token := CommitIssue(s, p, ask, doomed), s.pending[replaced].tokenHash;
    assert replaced in doomed;
    assert InFlight(s.procs[p]) == Some(ask.token) && ask.token != token;
    forall i | i in t.pending
      ensures t.pending[i].tokenHash != token
    {
      if i in s.pending && s.pending[i].tokenHash == token {
        assert Clash(s.pending[i], s.pending[replaced]);
      }
    }
    assert Asked(s.asks, s.pending[replaced]);
  }

  // So the token of every row it replaced is dead, now and in every later state: a `confirm` that looks it up
  // afterwards is refused.
  lemma ReplacedTokensAreRefused(s: State, p: Pid, replaced: Id, acts: seq<Action>, t: State, now: Time)
    requires Inv(s) && FlightOk(s) && p in s.procs && s.procs[p].Inserting?
    requires !Blocked(s.pending, s.procs[p].doomed, s.procs[p].ask.Row())
    requires replaced in s.pending && Matches(s.pending[replaced], s.procs[p].ask.user, s.procs[p].ask.identity.key)
    requires Enabled(s, Advance(p, 0)) && Run(Apply(s, Advance(p, 0)), acts, t)
    ensures FindClaim(t.pending, s.pending[replaced].tokenHash, now) == Done(BadToken)
  {
    InsertingStep(s, p, 0);
    ReplacedTokenIsDead(s, p, s.procs[p].ask, s.procs[p].doomed, replaced);
    StepKeepsBoth(s, Advance(p, 0));
    DeadForever(Apply(s, Advance(p, 0)), acts, t, s.pending[replaced].tokenHash);
  }

  // Compensation removes only the row its own call created.
  lemma CompensationIsOwn(s: State, p: Pid, ask: Ask, id: Id)
    requires Inv(s) && p in s.procs && s.procs[p] == Compensating(ask, id)
    ensures var t := Compensate(s, p, ask, id);
            && t.pending == s.pending - {id} && t.links == s.links
            && (id in s.pending ==> s.pending[id] == ask.Row())
  {
    assert ProcOk(s, p, s.procs[p]);
  }

  // The newest-first read decides for every matching row: the request is refused exactly when one of them is
  // still cooling down.
  lemma CooldownIff(s: State, p: Pid, ask: Ask, pick: Id)
    requires PickOk(s, FindingExisting(ask), pick)
    ensures CheckCooldown(s, p, ask, pick).procs[p] == Done(Cooldown(pick)) <==>
            exists i ::
              i in Matching(s.pending, ask.user, ask.identity.key) && ask.now - s.pending[i].createdAt < 60_000
  {
    assert Matching(s.pending, ask.user, ask.identity.key) != {} ==>
        pick in Matching(s.pending, ask.user, ask.identity.key);
  }

  // An issue that nothing interrupts replaces at most two rows, all past the cooldown: the newest-first read
  // speaks for every matching row.
  lemma IssueAlone(s: State, p: Pid, ask: Ask, pick: Id)
    requires Inv(s) && FlightOk(s) && p in s.procs && s.procs[p] == FindingExisting(ask) && PickOk(s, s.procs[p], pick)
    requires CheckCooldown(s, p, ask, pick).procs[p].Deleting?
    ensures var gone := Matching(s.pending, ask.user, ask.identity.key);
            && |gone| <= 2
            && (forall i :: i in gone ==> ask.now - s.pending[i].createdAt >= 60_000)
            && !Blocked(s.pending, gone, ask.Row())
  {
    AtMostTwoMatch(s.pending, ask.user, ask.identity.key);
    assert InFlight(s.procs[p]) == Some(ask.token);
  }

  // ---------- Reachable states ----------

  ghost predicate Reaches(s: State, t: State) {
    exists acts :: Run(s, acts, t)
  }

  ghost predicate Reachable(s: State) {
    exists s0 :: Init(s0) && Reaches(s0, s)
  }

  lemma ReachesStep(s: State, t: State, a: Action)
    requires Reaches(s, t) && Enabled(t, a)
    ensures Reaches(s, Apply(t, a))
  {
    var acts :| Run(s, acts, t);
    assert [a][1..] == [];
    assert Run(t, [a], Apply(t, a));
    RunAppended(s, acts, t, [a], Apply(t, a));
  }

  lemma ReachesSelf(s: State)
    ensures Reaches(s, s)
  {
    assert Run(s, [], s);
  }

  ghost predicate NoFails(acts: seq<Action>) {
    forall a: Action :: a in acts ==> !a.Fail?
  }

  // Reached, if the database and the queue are `reliable`, without a failing call.
  ghost predicate ReachesBy(s: State, t: State, reliable: bool) {
    exists acts :: Run(s, acts, t) && (reliable ==> NoFails(acts))
  }

  lemma ReachesByStep(s: State, t: State, a: Action, reliable: bool)
    requires ReachesBy(s, t, reliable) && Enabled(t, a) && (reliable ==> !a.Fail?)
    ensures ReachesBy(s, Apply(t, a), reliable)
  {
    var acts :| Run(s, acts, t) && (reliable ==> NoFails(acts));
    assert [a][1..] == [];
    assert Run(t, [a], Apply(t, a));
    RunAppended(s, acts, t, [a], Apply(t, a));
    assert reliable ==> NoFails(acts + [a]);
  }

  lemma ReachesBySelf(s: State, reliable: bool)
    ensures ReachesBy(s, s, reliable)
  {
    assert Run(s, [], s) && NoFails([]);
  }

  lemma ReachesByTrans(s: State, t: State, u: State, reliable: bool)
    requires ReachesBy(s, t, reliable) && ReachesBy(t, u, reliable)
    ensures ReachesBy(s, u, reliable)
  {
    var acts :| Run(s, acts, t) && (reliable ==> NoFails(acts));
    var more :| Run(t, more, u) && (reliable ==> NoFails(more));
    RunAppended(s, acts, t, more, u);
    assert reliable ==> NoFails(acts + more);
  }

  lemma ReachableIsInv(s: State)
    requires Reachable(s)
    ensures Inv(s) && FlightOk(s)
  {
    var s0 :| Init(s0) && Reaches(s0, s);
    var acts :| Run(s0, acts, s);
    InitIsInv(s0);
    RunKeepsBoth(s0, acts, s);
  }
}
