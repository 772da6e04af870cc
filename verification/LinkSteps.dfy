// What one step of provider sign-in does: to the calls it does not belong to, to its own call, and to the pending
// rows.
module LinkSteps {
  import opened ProviderLinks
  import opened LinkProtocol

  // ---------- Other calls ----------

  predicate MovesOne(s: State, t: State, p: Pid) {
    p in t.procs && t.procs == s.procs[p := t.procs[p]]
  }

  lemma AccountMovesOne(s: State, p: Pid, identity: Identity)
    ensures MovesOne(s, CreateAccount(s, p, identity), p)
  {
  }

  lemma LinkMovesOne(s: State, p: Pid, claim: Claim)
    ensures MovesOne(s, CommitLink(s, p, claim), p)
  {
  }

  lemma RequestMovesOne(s: State, p: Pid, pick: Id)
    requires Enabled(s, Advance(p, pick))
    requires (s.procs[p].Requesting? || s.procs[p].Inserting? || s.procs[p].Compensating?)
    ensures MovesOne(s, Progress(s, p, pick), p)
  {
    var pc := s.procs[p];
    if pc.Inserting? {
      IssueAs(s, p, pc.ask, pc.doomed);
    } else if pc.Compensating? {
      CompensateAs(s, p, pc.ask, pc.id);
    }
  }

  lemma CommitMovesOne(s: State, p: Pid, pick: Id)
    requires Enabled(s, Advance(p, pick))
    requires (s.procs[p].CreatingAccount? || s.procs[p].LookingUp? || s.procs[p].Linking?)
    ensures MovesOne(s, Progress(s, p, pick), p)
  {
    var pc := s.procs[p];
    if pc.CreatingAccount? {
      AccountMovesOne(s, p, pc.identity);
    } else if pc.LookingUp? {
      LookUpAs(s, p, pc.claim, pc.claimed);
    } else {
      LinkMovesOne(s, p, pc.claim);
    }
  }

  lemma ProgressMovesOne(s: State, p: Pid, pick: Id)
    requires Enabled(s, Advance(p, pick))
    ensures MovesOne(s, Progress(s, p, pick), p)
  {
    var pc := s.procs[p];
    if pc.Requesting? || pc.Inserting? || pc.Compensating? {
      RequestMovesOne(s, p, pick);
    } else if !OnlyReads(pc) {
      CommitMovesOne(s, p, pick);
    }
  }

  lemma OthersStay(s: State, a: Action, p: Pid)
    requires Enabled(s, a) && p in s.procs && !(a.Advance? && a.p == p) && !(a.Fail? && a.p == p)
    ensures p in Apply(s, a).procs && Apply(s, a).procs[p] == s.procs[p]
  {
    if a.Advance? {
      ProgressMovesOne(s, a.p, a.pick);
    }
  }

  // ---------- Its own call ----------

  // Which point of a call follows which.
  predicate Follows(a: Proc, b: Proc, clock: Time) {
    match a
    case Lookup(_) => b.ByEmail? || b.Done?
    case ByEmail(_) => b.CreatingAccount? || b.Requesting? || b.Done?
    case CreatingAccount(_) => b.Done?
    case Requesting(_, _) => b.FindingExisting? && b.ask.now == clock
    case FindingExisting(ask) => b == Deleting(ask) || b.Done?
    case Deleting(ask) => b.Inserting? && b.ask == ask
    case Inserting(ask, _) => b == Rechecking(ask) || b.Enqueueing?
    case Rechecking(_) => b.Done?
    case Enqueueing(_, _) => b.Done?
    case Compensating(_, _) => b.Done?
    case Confirming(token) => b == FindingValid(token, clock)
    case FindingValid(_, now) => b.Done? || (b.Claiming? && b.claim.now == now)
    case Claiming(claim) => b.LookingUp? && b.claim == claim
    case LookingUp(claim, _) => b == Linking(claim) || b.Done?
    case Linking(claim) => b == Raced(claim) || b.Done?
    case Raced(_) => b.Done?
    case Done(_) => b == a
  }

  lemma ReadFollows(s: State, pc: Proc, pick: Id)
    requires OnlyReads(pc) && PickOk(s, pc, pick)
    ensures Follows(pc, NextRead(s, pc, pick), s.clock)
  {
  }

  lemma IssueRows(rows: PendingTable, next: Id, doomed: set<Id>, row: Pending, i: Id)
    requires i in (rows - doomed)[next := row]
    ensures (rows - doomed)[next := row][i] == row || (i in rows && (rows - doomed)[next := row][i] == rows[i])
  {
  }

  lemma IssueFollows(s: State, p: Pid, ask: Ask, doomed: set<Id>)
    ensures var t := CommitIssue(s, p, ask, doomed);
            && p in t.procs && (t.procs[p] == Rechecking(ask) || t.procs[p].Enqueueing?)
            && forall i :: i in t.pending ==>
                 (i in s.pending && t.pending[i] == s.pending[i]) || t.pending[i] == ask.Row()
  {
    IssueAs(s, p, ask, doomed);
    if !Blocked(s.pending, doomed, ask.Row()) {
      var rows := (s.pending - doomed)[s.nextPending := ask.Row()];
      forall i | i in rows
        ensures (i in s.pending && rows[i] == s.pending[i]) || rows[i] == ask.Row()
      {
        IssueRows(s.pending, s.nextPending, doomed, ask.Row(), i);
      }
    }
  }

  lemma LinkFollows(s: State, p: Pid, claim: Claim)
    ensures p in CommitLink(s, p, claim).procs && Follows(Linking(claim), CommitLink(s, p, claim).procs[p], s.clock)
    ensures Extends(CommitLink(s, p, claim).pending, s.pending)
  {
  }

  lemma RequestFollows(s: State, p: Pid, pick: Id)
    requires Enabled(s, Advance(p, pick))
    requires (s.procs[p].Requesting? || s.procs[p].Inserting? || s.procs[p].Compensating?)
    ensures p in Progress(s, p, pick).procs && Follows(s.procs[p], Progress(s, p, pick).procs[p], s.clock)
    ensures s.procs[p].Inserting? || Extends(Progress(s, p, pick).pending, s.pending)
  {
    var pc := s.procs[p];
    if pc.Inserting? {
      IssueFollows(s, p, pc.ask, pc.doomed);
    } else if pc.Compensating? {
      CompensateAs(s, p, pc.ask, pc.id);
    }
  }

  lemma CommitFollows(s: State, p: Pid, pick: Id)
    requires Enabled(s, Advance(p, pick))
    requires (s.procs[p].CreatingAccount? || s.procs[p].LookingUp? || s.procs[p].Linking?)
    ensures p in Progress(s, p, pick).procs && Follows(s.procs[p], Progress(s, p, pick).procs[p], s.clock)
    ensures Extends(Progress(s, p, pick).pending, s.pending)
  {
    var pc := s.procs[p];
    if pc.LookingUp? {
      LookUpAs(s, p, pc.claim, pc.claimed);
    } else if pc.Linking? {
      LinkFollows(s, p, pc.claim);
    }
  }

  // Where a step leaves its call; and rows come only with the commit of a request.
  lemma ProgressFollows(s: State, p: Pid, pick: Id)
    requires Enabled(s, Advance(p, pick))
    ensures p in Progress(s, p, pick).procs && Follows(s.procs[p], Progress(s, p, pick).procs[p], s.clock)
    ensures s.procs[p].Inserting? || Extends(Progress(s, p, pick).pending, s.pending)
  {
    var pc := s.procs[p];
    if OnlyReads(pc) {
      ReadFollows(s, pc, pick);
    } else if pc.Requesting? || pc.Inserting? || pc.Compensating? {
      RequestFollows(s, p, pick);
    } else {
      CommitFollows(s, p, pick);
    }
  }

  // ---------- The rows ----------

  // The next step of the call may remove the row.
  predicate Takes(pc: Proc, i: Id) {
    match pc
    case LookingUp(claim, claimed) => claimed && claim.id == i
    case Linking(claim) => claim.id == i
    case Compensating(_, id) => id == i
    case Inserting(_, doomed) => i in doomed
    case _ => false
  }

  lemma LinkLeaves(s: State, p: Pid, claim: Claim, i: Id)
    requires i in s.pending && claim.id != i
    ensures i in CommitLink(s, p, claim).pending && CommitLink(s, p, claim).pending[i] == s.pending[i]
  {
  }

  lemma RequestLeaves(s: State, p: Pid, pick: Id, i: Id)
    requires Enabled(s, Advance(p, pick))
    requires (s.procs[p].Requesting? || s.procs[p].Inserting? || s.procs[p].Compensating?)
    requires i in s.pending && i < s.nextPending && !Takes(s.procs[p], i)
    ensures i in Progress(s, p, pick).pending && Progress(s, p, pick).pending[i] == s.pending[i]
  {
    var pc := s.procs[p];
    if pc.Inserting? {
      InsertingStep(s, p, pick);
      IssueAs(s, p, pc.ask, pc.doomed);
    } else if pc.Compensating? {
      CompensateAs(s, p, pc.ask, pc.id);
    }
  }

  lemma CommitLeaves(s: State, p: Pid, pick: Id, i: Id)
    requires Enabled(s, Advance(p, pick))
    requires (s.procs[p].CreatingAccount? || s.procs[p].LookingUp? || s.procs[p].Linking?)
    requires i in s.pending && !Takes(s.procs[p], i)
    ensures i in Progress(s, p, pick).pending && Progress(s, p, pick).pending[i] == s.pending[i]
  {
    var pc := s.procs[p];
    if pc.LookingUp? {
      LookingUpStep(s, p, pick);
      LookUpAs(s, p, pc.claim, pc.claimed);
    } else if pc.Linking? {
      LinkingStep(s, p, pick);
      LinkLeaves(s, p, pc.claim, i);
    }
  }

  // A row goes only by a step that takes it, or by a cleanup.
  lemma ProgressLeaves(s: State, p: Pid, pick: Id, i: Id)
    requires Enabled(s, Advance(p, pick)) && i in s.pending && i < s.nextPending && !Takes(s.procs[p], i)
    ensures i in Progress(s, p, pick).pending && Progress(s, p, pick).pending[i] == s.pending[i]
  {
    var pc := s.procs[p];
    if OnlyReads(pc) {
    } else if pc.Requesting? || pc.Inserting? || pc.Compensating? {
      RequestLeaves(s, p, pick, i);
    } else {
      CommitLeaves(s, p, pick, i);
    }
  }
}
