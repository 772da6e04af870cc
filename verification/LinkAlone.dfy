// A `confirm`, or the `issue` of a `requestLink`, that nothing interrupts, as one step.
module LinkAlone {
  import opened ProviderLinks
  import opened LinkProtocol
  import opened LinkTheorems

  ghost predicate OwnSteps(acts: seq<Action>, p: Pid) {
    forall a: Action :: a in acts ==> a.Advance? && a.p == p
  }

  // `t` is reached from `s` by steps of `p` alone.
  ghost predicate Alone(s: State, p: Pid, t: State) {
    exists acts :: Run(s, acts, t) && OwnSteps(acts, p)
  }

  lemma AloneStep(s: State, p: Pid, pick: Id)
    requires Enabled(s, Advance(p, pick))
    ensures Alone(s, p, Progress(s, p, pick))
  {
    var acts := [Advance(p, pick)];
    assert acts[1..] == [];
    assert Run(Apply(s, acts[0]), acts[1..], Progress(s, p, pick));
    assert Run(s, acts, Progress(s, p, pick)) && OwnSteps(acts, p);
  }

  lemma AloneTrans(s: State, p: Pid, t: State, u: State)
    requires Alone(s, p, t) && Alone(t, p, u)
    ensures Alone(s, p, u)
  {
    var acts :| Run(s, acts, t) && OwnSteps(acts, p);
    var more :| Run(t, more, u) && OwnSteps(more, p);
    RunAppended(s, acts, t, more, u);
  }

  // ---------- confirm ----------

  // What a whole `confirm` does to the two tables, and its answer.
  function ConfirmRow(links: LinkTable, pending: PendingTable, claim: Claim): (LinkTable, PendingTable, Outcome) {
    if claim.row.key !in links then
      (links[claim.row.key := claim.row.userId], pending - {claim.id}, Confirmed(claim))
    else if links[claim.row.key] == claim.row.userId then (links, pending - {claim.id}, AlreadyConfirmed(claim))
    else (links, pending, LinkConflict(claim))
  }

  ghost function ConfirmAt(links: LinkTable, pending: PendingTable, token: Token, now: Time)
    : (LinkTable, PendingTable, Outcome)
  {
    var found := FindClaim(pending, token, now);
    if found.Claiming? then ConfirmRow(links, pending, found.claim) else (links, pending, BadToken)
  }

  ghost predicate Ends(t: State, p: Pid, result: (LinkTable, PendingTable, Outcome)) {
    t.links == result.0 && t.pending == result.1 && p in t.procs && t.procs[p] == Done(result.2)
  }

  lemma LookUpStep(s: State, p: Pid, claim: Claim, claimed: bool)
    requires p in s.procs && s.procs[p] == LookingUp(claim, claimed)
    ensures Alone(s, p, LookUpLink(s, p, claim, claimed))
  {
    AloneStep(s, p, 0);
  }

  lemma LinkStep(s: State, p: Pid, claim: Claim)
    requires p in s.procs && s.procs[p] == Linking(claim)
    ensures Alone(s, p, CommitLink(s, p, claim))
  {
    AloneStep(s, p, 0);
  }

  lemma LookUpEnds(s: State, p: Pid, claim: Claim)
    ensures var t := LookUpLink(s, p, claim, true);
            if claim.row.key in s.links then Ends(t, p, ConfirmRow(s.links, s.pending, claim))
            else t == Put(s, p, Linking(claim))
  {
    if LinkedTo(s.links, claim.row.key, claim.row.userId) {
    } else if claim.row.key in s.links {
    } else {
    }
  }

  lemma LookUpAlone(s: State, p: Pid, claim: Claim) returns (t: State)
    requires p in s.procs && s.procs[p] == LookingUp(claim, true)
    ensures Alone(s, p, t) && Ends(t, p, ConfirmRow(s.links, s.pending, claim))
  {
    LookUpStep(s, p, claim, true);
    LookUpEnds(s, p, claim);
    t := LookUpLink(s, p, claim, true);
    if claim.row.key !in s.links {
      var s1 := t;
      LinkStep(s1, p, claim);
      t := CommitLink(s1, p, claim);
      AloneTrans(s, p, s1, t);
    }
  }

  lemma FindStep(s: State, p: Pid, token: Token)
    requires p in s.procs && s.procs[p] == Confirming(token)
    ensures Alone(s, p, Put(s, p, FindClaim(s.pending, token, s.clock)))
  {
    var s1 := Put(s, p, FindingValid(token, s.clock));
    AloneStep(s, p, 0);
    AloneStep(s1, p, 0);
    assert Progress(s1, p, 0) == Put(s, p, FindClaim(s.pending, token, s.clock));
    AloneTrans(s, p, s1, Progress(s1, p, 0));
  }

  lemma ClaimStep(s: State, p: Pid, claim: Claim)
    requires p in s.procs && s.procs[p] == Claiming(claim) && Claimable(s.pending, claim.id, claim.token, claim.now)
    ensures Alone(s, p, Put(s, p, LookingUp(claim, true)))
  {
    AloneStep(s, p, 0);
  }

  lemma ClaimAlone(s: State, p: Pid, claim: Claim) returns (t: State)
    requires p in s.procs && s.procs[p] == Claiming(claim) && Claimable(s.pending, claim.id, claim.token, claim.now)
    ensures Alone(s, p, t) && Ends(t, p, ConfirmRow(s.links, s.pending, claim))
  {
    ClaimStep(s, p, claim);
    var s1 := Put(s, p, LookingUp(claim, true));
    t := LookUpAlone(s1, p, claim);
    AloneTrans(s, p, s1, t);
  }

  lemma ConfirmAlone(s: State, p: Pid, token: Token) returns (t: State)
    requires p in s.procs && s.procs[p] == Confirming(token)
    ensures Alone(s, p, t) && Ends(t, p, ConfirmAt(s.links, s.pending, token, s.clock))
  {
    FindStep(s, p, token);
    var found := FindClaim(s.pending, token, s.clock);
    t := Put(s, p, found);
    if found.Claiming? {
      var s1 := t;
      t := ClaimAlone(s1, p, found.claim);
      AloneTrans(s, p, s1, t);
    }
  }

  // ---------- issue ----------

  lemma FreshNotBlocked(s: State, ask: Ask)
    requires PendingOk(s.pending, s.asks, s.nextPending) && AsksOk(s.asks, s.users, s.nextToken)
    requires ask.token == s.nextToken
    ensures !Blocked(s.pending, Matching(s.pending, ask.user, ask.identity.key), ask.Row())
  {
    assert forall i :: i in s.pending ==> s.pending[i].tokenHash < s.nextToken;
  }

  lemma DeleteStep(s: State, p: Pid, ask: Ask)
    requires p in s.procs && s.procs[p] == Deleting(ask)
    ensures Alone(s, p, Put(s, p, Inserting(ask, Matching(s.pending, ask.user, ask.identity.key))))
  {
    AloneStep(s, p, 0);
  }

  lemma InsertStep(s: State, p: Pid, ask: Ask, doomed: set<Id>)
    requires p in s.procs && s.procs[p] == Inserting(ask, doomed)
    ensures Alone(s, p, CommitIssue(s, p, ask, doomed))
  {
    AloneStep(s, p, 0);
  }

  lemma CommitIgnoresLocals(s: State, p: Pid, pc: Proc, ask: Ask, doomed: set<Id>)
    ensures CommitIssue(Put(s, p, pc), p, ask, doomed) == CommitIssue(s, p, ask, doomed)
  {
    if Blocked(s.pending, doomed, ask.Row()) {
      assert Put(s, p, pc).procs[p := Rechecking(ask)] == s.procs[p := Rechecking(ask)];
    } else {
      assert Put(s, p, pc).procs[p := Enqueueing(ask, s.nextPending)] == s.procs[p := Enqueueing(ask, s.nextPending)];
    }
  }

  lemma ReplaceAlone(s: State, p: Pid, ask: Ask)
    requires p in s.procs && s.procs[p] == Deleting(ask)
    ensures Alone(s, p, CommitIssue(s, p, ask, Matching(s.pending, ask.user, ask.identity.key)))
  {
    var gone := Matching(s.pending, ask.user, ask.identity.key);
    var s1 := Put(s, p, Inserting(ask, gone));
    CommitIgnoresLocals(s, p, Inserting(ask, gone), ask, gone);
    var t := CommitIssue(s1, p, ask, gone);
    DeleteStep(s, p, ask);
    InsertStep(s1, p, ask, gone);
    AloneTrans(s, p, s1, t);
  }

  lemma CooldownStep(s: State, p: Pid, identity: Identity, user: UserId, pick: Id)
    requires p in s.procs && s.procs[p] == Requesting(identity, user)
    requires Matching(s.pending, user, identity.key) != {} ==> IsNewest(s.pending, user, identity.key, pick)
    ensures var s1, ask := StartAsk(s, p, identity, user), Ask(identity, user, s.nextToken, s.clock);
            PickOk(s1, s1.procs[p], pick) && Alone(s, p, CheckCooldown(s1, p, ask, pick))
  {
    var s1, ask := StartAsk(s, p, identity, user), Ask(identity, user, s.nextToken, s.clock);
    AloneStep(s, p, 0);
    assert s1.procs[p] == FindingExisting(ask);
    AloneStep(s1, p, pick);
    AloneTrans(s, p, s1, CheckCooldown(s1, p, ask, pick));
  }

  // The request either is refused for cooling down, with nothing changed, or stands before its e-mail is queued,
  // its row in the place of all that matched.
  lemma IssueAloneRuns(s: State, p: Pid, identity: Identity, user: UserId, pick: Id) returns (t: State)
    requires TablesOk(s) && p in s.procs && s.procs[p] == Requesting(identity, user)
    requires Matching(s.pending, user, identity.key) != {} ==> IsNewest(s.pending, user, identity.key, pick)
    ensures Alone(s, p, t) && p in t.procs && t.links == s.links && t.clock == s.clock
    ensures t.users == s.users && t.procs == s.procs[p := t.procs[p]]
    ensures var ask := Ask(identity, user, s.nextToken, s.clock);
            if CoolingDown(s.pending, user, identity.key, s.clock) then
              t.pending == s.pending && t.procs[p] == Done(Cooldown(pick))
            else
              && t.pending == (s.pending - Matching(s.pending, user, identity.key))[s.nextPending := ask.Row()]
              && t.procs[p] == Enqueueing(ask, s.nextPending)
  {
    var ask := Ask(identity, user, s.nextToken, s.clock);
    CooldownStep(s, p, identity, user, pick);
    t := CooldownState(s, p, ask, pick);
    if !CoolingDown(s.pending, user, identity.key, s.clock) {
      var s1 := t;
      ReplaceAlone(s1, p, ask);
      FreshNotBlocked(s, ask);
      t := CommitIssue(s1, p, ask, Matching(s.pending, user, identity.key));
      AloneTrans(s, p, s1, t);
    }
  }

  lemma CooldownState(s: State, p: Pid, ask: Ask, pick: Id) returns (t: State)
    requires ask.token == s.nextToken && ask.now == s.clock
    requires Matching(s.pending, ask.user, ask.identity.key) != {} ==>
               IsNewest(s.pending, ask.user, ask.identity.key, pick)
    ensures var s1 := StartAsk(s, p, ask.identity, ask.user);
            && t == CheckCooldown(s1, p, ask, pick)
            && t == Put(s1, p, if CoolingDown(s.pending, ask.user, ask.identity.key, s.clock)
                               then Done(Cooldown(pick)) else Deleting(ask))
  {
    var s1 := StartAsk(s, p, ask.identity, ask.user);
    CooldownIff(s1, p, ask, pick);
    t := CheckCooldown(s1, p, ask, pick);
  }
}
