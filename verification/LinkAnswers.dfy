// What a call caught by a cleanup is answered, against its answer in the run without cleanups, over every
// continuation of either run: the two need not keep step from there on.
module LinkAnswers {
  import opened ProviderLinks
  import opened LinkProtocol
  import opened LinkTheorems
  import opened LinkSteps
  import opened LinkAlone
  import opened LinkShadow
  import opened LinkCleanup

  // The same answer, but for which row a cooldown names.
  predicate SameAnswer(a: Outcome, b: Outcome) {
    a == b || (a.Cooldown? && b.Cooldown?)
  }

  // A step of `p` itself.
  predicate Own(a: Action, p: Pid) {
    (a.Advance? || a.Fail?) && a.p == p
  }

  lemma {:induction false} AnswerStays(s: State, acts: seq<Action>, t: State, p: Pid)
    requires Run(s, acts, t) && p in s.procs && s.procs[p].Done?
    ensures p in t.procs && t.procs[p] == s.procs[p]
    decreases |acts|
  {
    if acts != [] {
      OthersStay(s, acts[0], p);
      AnswerStays(Apply(s, acts[0]), acts[1..], t, p);
    }
  }

  // ---------- confirm, caught at its look-up ----------

  // A `confirm` past its claim and an unlinked key is never told that its token is bad.
  predicate PastClaim(pc: Proc) {
    pc.Linking? || pc.Raced? || (pc.Done? && pc.outcome != BadToken)
  }

  lemma PastClaimStays(s: State, a: Action, p: Pid)
    requires Enabled(s, a) && p in s.procs && PastClaim(s.procs[p])
    ensures p in Apply(s, a).procs && PastClaim(Apply(s, a).procs[p])
  {
    if a.Advance? && a.p == p {
    } else if a.Fail? && a.p == p {
    } else {
      OthersStay(s, a, p);
    }
  }

  lemma {:induction false} PastClaimForever(s: State, acts: seq<Action>, t: State, p: Pid)
    requires Run(s, acts, t) && p in s.procs && PastClaim(s.procs[p])
    ensures p in t.procs && PastClaim(t.procs[p])
    decreases |acts|
  {
    if acts != [] {
      PastClaimStays(s, acts[0], p);
      PastClaimForever(Apply(s, acts[0]), acts[1..], t, p);
    }
  }

  // A `confirm` that lost its claim to a cleanup is told that its token is bad; without the cleanup it never is,
  // whatever runs from there on.
  lemma LostClaimIsFelt(s: State, d: State, h: Time, p: Pid, more: seq<Action>, u: State)
    requires Inv(d) && Shadow(s, d, h) && Enabled(s, Advance(p, 0)) && Enabled(d, Advance(p, 0))
    requires Caught(s, d, Advance(p, 0)) && s.procs[p].LookingUp?
    requires Run(Progress(d, p, 0), more, u)
    ensures Progress(s, p, 0).procs[p] == Done(BadToken)
    ensures p in u.procs && (u.procs[p].Done? ==> u.procs[p].outcome != BadToken)
  {
    SamePc(s, d, h, p);
    CaughtConfirmParts(s, d, h, p, 0, 0);
    LookUpAs(d, p, s.procs[p].claim, true);
    PastClaimForever(Progress(d, p, 0), more, u, p);
  }

  // ---------- confirm, caught at its read ----------

  // Somewhere in the run the call looks up its key in vain: its claim had missed the row, and the key is unlinked.
  ghost predicate LooksUpInVain(s: State, acts: seq<Action>, p: Pid)
    decreases |acts|
  {
    acts != [] && Enabled(s, acts[0]) &&
    ((acts[0].Advance? && acts[0].p == p && InVain(s, s.procs[p])) || LooksUpInVain(Apply(s, acts[0]), acts[1..], p))
  }

  predicate InVain(s: State, pc: Proc) {
    pc.LookingUp? && !pc.claimed && pc.claim.row.key !in s.links
  }

  // A `confirm` that has found its row.
  predicate HasFound(pc: Proc) {
    pc.Claiming? || pc.LookingUp? || PastClaim(pc)
  }

  lemma FoundMoves(s: State, a: Action, p: Pid)
    requires Enabled(s, a) && Own(a, p) && HasFound(s.procs[p])
    ensures p in Apply(s, a).procs
    ensures var next := Apply(s, a).procs[p];
            if a.Advance? && InVain(s, s.procs[p]) then next == Done(BadToken) else HasFound(next)
    ensures a.Advance? && s.procs[p].Claiming? ==>
              var claim := s.procs[p].claim;
              Apply(s, a).procs[p] == LookingUp(claim, Claimable(s.pending, claim.id, claim.token, claim.now))
  {
    if a.Advance? {
      if s.procs[p].LookingUp? {
        LookingUpStep(s, p, a.pick);
        LookUpAs(s, p, s.procs[p].claim, s.procs[p].claimed);
      } else if !s.procs[p].Claiming? {
        PastClaimStays(s, a, p);
      }
    }
  }

  // It is told that its token is bad if and only if it looks up in vain.
  lemma {:induction false} BadTokenIff(s: State, acts: seq<Action>, t: State, p: Pid)
    requires Run(s, acts, t) && p in s.procs && HasFound(s.procs[p]) && p in t.procs && t.procs[p].Done?
    ensures t.procs[p].outcome == BadToken <==> LooksUpInVain(s, acts, p)
    decreases |acts|
  {
    if acts != [] {
      var a, s1 := acts[0], Apply(s, acts[0]);
      if Own(a, p) {
        FoundMoves(s, a, p);
        if a.Advance? && InVain(s, s.procs[p]) {
          AnswerStays(s1, acts[1..], t, p);
          return;
        }
      } else {
        OthersStay(s, a, p);
      }
      BadTokenIff(s1, acts[1..], t, p);
    }
  }

  // The row the call has found, if stored, is the one it saw.
  ghost predicate SawRow(s: State, claim: Claim) {
    && claim.id < s.nextPending && claim.row.tokenHash == claim.token && claim.row.expiresAt > claim.now
    && (claim.id in s.pending ==> s.pending[claim.id] == claim.row)
  }

  ghost predicate Seeking(s: State, pc: Proc, claim: Claim) {
    pc == Claiming(claim) || pc == LookingUp(claim, true) || (pc == LookingUp(claim, false) && claim.id !in s.pending)
  }

  lemma SawRowStays(s: State, t: State, claim: Claim)
    requires Later(s, t) && SawRow(s, claim)
    ensures SawRow(t, claim) && (claim.id !in s.pending ==> claim.id !in t.pending)
  {
  }

  // Its own next step.
  lemma SeekingAdvances(s: State, p: Pid, pick: Id, claim: Claim)
    requires Enabled(s, Advance(p, pick)) && Seeking(s, s.procs[p], claim) && SawRow(s, claim)
    ensures p in Progress(s, p, pick).procs
    ensures Seeking(Progress(s, p, pick), Progress(s, p, pick).procs[p], claim)
            || PastClaim(Progress(s, p, pick).procs[p]) || InVain(s, s.procs[p])
  {
    if s.procs[p].LookingUp? {
      LookingUpStep(s, p, pick);
      LookUpAs(s, p, claim, s.procs[p].claimed);
    }
  }

  lemma SeekingMoves(s: State, a: Action, p: Pid, claim: Claim)
    requires Enabled(s, a) && p in s.procs && Seeking(s, s.procs[p], claim)
    requires SawRow(s, claim) && Later(s, Apply(s, a))
    ensures p in Apply(s, a).procs
    ensures Seeking(Apply(s, a), Apply(s, a).procs[p], claim) || PastClaim(Apply(s, a).procs[p])
            || (a.Advance? && a.p == p && InVain(s, s.procs[p]))
  {
    if a.Advance? && a.p == p {
      SeekingAdvances(s, p, a.pick, claim);
    } else if !Own(a, p) {
      OthersStay(s, a, p);
      SawRowStays(s, Apply(s, a), claim);
    }
  }

  lemma {:induction false} PastClaimNeverInVain(s: State, acts: seq<Action>, t: State, p: Pid)
    requires Run(s, acts, t) && p in s.procs && PastClaim(s.procs[p])
    ensures !LooksUpInVain(s, acts, p)
    decreases |acts|
  {
    if acts != [] {
      PastClaimStays(s, acts[0], p);
      PastClaimNeverInVain(Apply(s, acts[0]), acts[1..], t, p);
    }
  }

  lemma {:induction false} GoneForever(s: State, acts: seq<Action>, t: State, claim: Claim)
    requires Inv(s) && Run(s, acts, t) && SawRow(s, claim) && claim.id !in s.pending
    ensures claim.id !in t.pending
  {
    RunKeepsInv(s, acts, t);
    SawRowStays(s, t, claim);
  }

  // Looking up in vain means that something else took the row.
  lemma {:induction false} InVainMeansGone(s: State, acts: seq<Action>, t: State, p: Pid, claim: Claim)
    requires Inv(s) && Run(s, acts, t) && p in s.procs && Seeking(s, s.procs[p], claim) && SawRow(s, claim)
    requires LooksUpInVain(s, acts, p)
    ensures claim.id !in t.pending
    decreases |acts|
  {
    var a, s1 := acts[0], Apply(s, acts[0]);
    if a.Advance? && a.p == p && InVain(s, s.procs[p]) {
      GoneForever(s, acts, t, claim);
      return;
    }
    StepKeepsInv(s, a);
    SawRowStays(s, s1, claim);
    SeekingMoves(s, a, p, claim);
    if PastClaim(s1.procs[p]) {
      PastClaimNeverInVain(s1, acts[1..], t, p);
      assert false;
    }
    InVainMeansGone(s1, acts[1..], t, p, claim);
  }

  // Another call's step, or a cleanup, takes the row.
  ghost predicate TakenByOther(s: State, acts: seq<Action>, p: Pid, i: Id)
    decreases |acts|
  {
    acts != [] && Enabled(s, acts[0]) &&
    (TakesNow(s, acts[0], p, i) || TakenByOther(Apply(s, acts[0]), acts[1..], p, i))
  }

  predicate TakesNow(s: State, a: Action, p: Pid, i: Id) {
    i in s.pending &&
    ((a.Advance? && a.p != p && a.p in s.procs && Takes(s.procs[a.p], i))
     || (a.Cleanup? && s.pending[i].expiresAt <= a.cutoff))
  }

  lemma RowStays(s: State, a: Action, p: Pid, i: Id)
    requires Enabled(s, a) && i in s.pending && i < s.nextPending && !TakesNow(s, a, p, i)
    requires p in s.procs && !Takes(s.procs[p], i)
    ensures i in Apply(s, a).pending
  {
    if a.Advance? {
      ProgressLeaves(s, a.p, a.pick, i);
    }
  }

  // A look-up in vain of a row that was there: someone else took it in between.
  lemma {:induction false} InVainMeansTaken(s: State, acts: seq<Action>, t: State, p: Pid, claim: Claim)
    requires Inv(s) && Run(s, acts, t) && p in s.procs && Seeking(s, s.procs[p], claim) && SawRow(s, claim)
    requires LooksUpInVain(s, acts, p) && claim.id in s.pending
    ensures TakenByOther(s, acts, p, claim.id)
    decreases |acts|
  {
    var a, s1 := acts[0], Apply(s, acts[0]);
    if !TakesNow(s, a, p, claim.id) {
      StepKeepsInv(s, a);
      SawRowStays(s, s1, claim);
      SeekingMoves(s, a, p, claim);
      if PastClaim(s1.procs[p]) {
        PastClaimNeverInVain(s1, acts[1..], t, p);
        assert false;
      } else {
        if s.procs[p] == Claiming(claim) {
          RowStays(s, a, p, claim.id);
        } else {
          ClaimedStays(s, a, p, claim);
          OthersLeave(s, a, p, claim.id);
        }
        InVainMeansTaken(s1, acts[1..], t, p, claim);
      }
    }
  }

  // A call that met its row at the claim does not stay where it is by a step of its own.
  lemma ClaimedStays(s: State, a: Action, p: Pid, claim: Claim)
    requires Enabled(s, a) && p in s.procs && s.procs[p] == LookingUp(claim, true)
    requires p in Apply(s, a).procs && !PastClaim(Apply(s, a).procs[p])
    ensures !Own(a, p)
  {
    if Own(a, p) && a.Advance? {
      LookingUpStep(s, p, a.pick);
      LookUpAs(s, p, claim, true);
    }
  }

  lemma OthersLeave(s: State, a: Action, p: Pid, i: Id)
    requires Enabled(s, a) && !Own(a, p) && i in s.pending && i < s.nextPending && !TakesNow(s, a, p, i)
    ensures i in Apply(s, a).pending
  {
    if a.Advance? {
      ProgressLeaves(s, a.p, a.pick, i);
    }
  }

  // A `confirm` that lost its row before the read is told so too; without the cleanup it ends, if nothing
  // interrupts it, with the answer its row entitles it to.
  lemma LostReadIsFelt(s: State, d: State, h: Time, p: Pid) returns (u: State)
    requires Inv(d) && Shadow(s, d, h) && Enabled(s, Advance(p, 0)) && Enabled(d, Advance(p, 0))
    requires Caught(s, d, Advance(p, 0)) && s.procs[p].FindingValid?
    ensures Progress(s, p, 0).procs[p] == Done(BadToken)
    ensures Alone(d, p, u) && p in u.procs && u.procs[p].Done?
    ensures u.procs[p].outcome.Confirmed? || u.procs[p].outcome.AlreadyConfirmed? || u.procs[p].outcome.LinkConflict?
  {
    SamePc(s, d, h, p);
    var token, now := s.procs[p].token, s.procs[p].now;
    FoundOrSwept(s, d, h, token, now);
    var found := FindClaim(d.pending, token, now);
    var d1 := Put(d, p, found);
    assert Progress(d, p, 0) == d1;
    AloneStep(d, p, 0);
    u := ClaimAlone(d1, p, found.claim);
    AloneTrans(d, p, d1, u);
  }

  // ---------- A request, caught at its first read ----------

  // Somewhere in the run the request loses a race on a unique key.
  ghost predicate LosesRace(s: State, acts: seq<Action>, p: Pid)
    decreases |acts|
  {
    acts != [] && Enabled(s, acts[0]) &&
    ((acts[0].Advance? && acts[0].p == p && IsBlocked(s, s.procs[p])) || LosesRace(Apply(s, acts[0]), acts[1..], p))
  }

  predicate IsBlocked(s: State, pc: Proc) {
    pc.Inserting? && Blocked(s.pending, pc.doomed, pc.ask.Row())
  }

  // Somewhere in the run its second read finds a row.
  ghost predicate FindsRival(s: State, acts: seq<Action>, p: Pid)
    decreases |acts|
  {
    acts != [] && Enabled(s, acts[0]) &&
    ((acts[0].Advance? && acts[0].p == p && HasRival(s, s.procs[p])) || FindsRival(Apply(s, acts[0]), acts[1..], p))
  }

  predicate HasRival(s: State, pc: Proc) {
    pc.Rechecking? && Matching(s.pending, pc.ask.user, pc.ask.identity.key) != {}
  }

  // A request past its first read.
  predicate PastFirstRead(pc: Proc) {
    pc.Deleting? || pc.Inserting? || pc.Rechecking? || pc.Enqueueing? || pc.Compensating?
    || (pc.Done? && !pc.outcome.Cooldown?)
  }

  lemma RequestAdvances(s: State, p: Pid, pick: Id)
    requires Enabled(s, Advance(p, pick)) && (s.procs[p].Inserting? || s.procs[p].Compensating?)
    ensures p in Progress(s, p, pick).procs && PastFirstRead(Progress(s, p, pick).procs[p])
    ensures Progress(s, p, pick).procs[p].Rechecking? ==> IsBlocked(s, s.procs[p])
  {
    if s.procs[p].Inserting? {
      InsertingStep(s, p, pick);
      IssueAs(s, p, s.procs[p].ask, s.procs[p].doomed);
    } else {
      CompensateAs(s, p, s.procs[p].ask, s.procs[p].id);
    }
  }

  lemma RequestMoves(s: State, a: Action, p: Pid)
    requires Enabled(s, a) && Own(a, p) && PastFirstRead(s.procs[p])
    ensures p in Apply(s, a).procs
    ensures var next := Apply(s, a).procs[p];
            if a.Advance? && HasRival(s, s.procs[p]) then next.Done? && next.outcome.Cooldown?
            else PastFirstRead(next) && (next.Rechecking? ==> a.Advance? && IsBlocked(s, s.procs[p]))
  {
    if a.Advance? && (s.procs[p].Inserting? || s.procs[p].Compensating?) {
      RequestAdvances(s, p, a.pick);
    }
  }

  // It is refused for cooling down if and only if its second read finds a row.
  lemma {:induction false} CooldownIffRival(s: State, acts: seq<Action>, t: State, p: Pid)
    requires Run(s, acts, t) && p in s.procs && PastFirstRead(s.procs[p]) && p in t.procs && t.procs[p].Done?
    ensures t.procs[p].outcome.Cooldown? <==> FindsRival(s, acts, p)
    decreases |acts|
  {
    if acts != [] {
      var a, s1 := acts[0], Apply(s, acts[0]);
      if Own(a, p) {
        RequestMoves(s, a, p);
        if a.Advance? && HasRival(s, s.procs[p]) {
          AnswerStays(s1, acts[1..], t, p);
          return;
        }
      } else {
        OthersStay(s, a, p);
      }
      CooldownIffRival(s1, acts[1..], t, p);
    }
  }

  lemma {:induction false} AnsweredFindsNothing(s: State, acts: seq<Action>, t: State, p: Pid)
    requires Run(s, acts, t) && p in s.procs && s.procs[p].Done?
    ensures !FindsRival(s, acts, p)
    decreases |acts|
  {
    if acts != [] {
      OthersStay(s, acts[0], p);
      AnsweredFindsNothing(Apply(s, acts[0]), acts[1..], t, p);
    }
  }

  // And it reads a second time only after a lost race.
  lemma {:induction false} RivalMeansRace(s: State, acts: seq<Action>, t: State, p: Pid)
    requires Run(s, acts, t) && p in s.procs && PastFirstRead(s.procs[p]) && !s.procs[p].Rechecking?
    requires FindsRival(s, acts, p)
    ensures LosesRace(s, acts, p)
    decreases |acts|
  {
    var a, s1 := acts[0], Apply(s, acts[0]);
    if Own(a, p) {
      RequestMoves(s, a, p);
      if !(a.Advance? && IsBlocked(s, s.procs[p])) {
        RivalMeansRace(s1, acts[1..], t, p);
      }
    } else {
      OthersStay(s, a, p);
      RivalMeansRace(s1, acts[1..], t, p);
    }
  }

  // ---------- A request, caught at its commit ----------

  predicate Committed(pc: Proc) {
    pc.Enqueueing? || pc.Compensating? || (pc.Done? && (pc.outcome.Issued? || pc.outcome.Unavailable?))
  }

  predicate Outrun(pc: Proc) {
    pc.Rechecking? || (pc.Done? && (pc.outcome.Cooldown? || pc.outcome.Failed?))
  }

  lemma CommitStays(s: State, a: Action, p: Pid)
    requires Enabled(s, a) && p in s.procs && (Committed(s.procs[p]) || Outrun(s.procs[p]))
    ensures p in Apply(s, a).procs
    ensures Committed(s.procs[p]) ==> Committed(Apply(s, a).procs[p])
    ensures Outrun(s.procs[p]) ==> Outrun(Apply(s, a).procs[p])
  {
    if Own(a, p) {
      if a.Advance? && s.procs[p].Compensating? {
        CompensateAs(s, p, s.procs[p].ask, s.procs[p].id);
      }
    } else {
      OthersStay(s, a, p);
    }
  }

  lemma {:induction false} CommitForever(s: State, acts: seq<Action>, t: State, p: Pid)
    requires Run(s, acts, t) && p in s.procs && (Committed(s.procs[p]) || Outrun(s.procs[p]))
    ensures p in t.procs
    ensures Committed(s.procs[p]) ==> Committed(t.procs[p])
    ensures Outrun(s.procs[p]) ==> Outrun(t.procs[p])
    decreases |acts|
  {
    if acts != [] {
      CommitStays(s, acts[0], p);
      CommitForever(Apply(s, acts[0]), acts[1..], t, p);
    }
  }

  // ---------- All of them ----------

  lemma ConfirmAnswers(s: State, more: seq<Action>, t: State, d: State, other: seq<Action>, e: State, p: Pid)
    requires Run(s, more, t) && p in s.procs && s.procs[p] == Done(BadToken) && p in t.procs && t.procs[p].Done?
    requires Run(d, other, e) && p in d.procs && HasFound(d.procs[p]) && p in e.procs && e.procs[p].Done?
    ensures SameAnswer(t.procs[p].outcome, e.procs[p].outcome) <==> LooksUpInVain(d, other, p)
    ensures PastClaim(d.procs[p]) ==> !LooksUpInVain(d, other, p)
  {
    AnswerStays(s, more, t, p);
    BadTokenIff(d, other, e, p);
    if PastClaim(d.procs[p]) {
      PastClaimNeverInVain(d, other, e, p);
    }
  }

  lemma FirstReadAnswers(s: State, more: seq<Action>, t: State, d: State, other: seq<Action>, e: State, p: Pid)
    requires Run(s, more, t) && p in s.procs && s.procs[p].Deleting? && p in t.procs && t.procs[p].Done?
    requires Run(d, other, e) && p in d.procs && d.procs[p].Done? && d.procs[p].outcome.Cooldown?
    ensures p in e.procs && e.procs[p].Done?
    ensures SameAnswer(t.procs[p].outcome, e.procs[p].outcome) <==> FindsRival(s, more, p)
  {
    CooldownIffRival(s, more, t, p);
    AnswerStays(d, other, e, p);
  }

  lemma CommitAnswers(s: State, more: seq<Action>, t: State, d: State, other: seq<Action>, e: State, p: Pid)
    requires Run(s, more, t) && p in s.procs && p in t.procs && t.procs[p].Done?
    requires Run(d, other, e) && p in d.procs && p in e.procs && e.procs[p].Done?
    requires (Committed(s.procs[p]) && Outrun(d.procs[p]))
             || (s.procs[p] == Done(Failed) && d.procs[p].Done? && d.procs[p].outcome.Cooldown?)
    ensures !SameAnswer(t.procs[p].outcome, e.procs[p].outcome)
  {
    if Committed(s.procs[p]) {
      CommitForever(s, more, t, p);
      CommitForever(d, other, e, p);
    } else {
      AnswerStays(s, more, t, p);
      AnswerStays(d, other, e, p);
    }
  }

  // The two runs are in step until a call is caught; from there on each goes on by itself, to any end. The call is
  // answered alike if and only if it lost, in the one run that still had a choice, a race that no cleanup decided: a
  // `confirm` caught at its read, its row to another call; a request caught at its first read, a unique key.
  ghost predicate RacedBesides(s: State, d: State, p: Pid, pick: Id, pick': Id, more: seq<Action>, other: seq<Action>)
    requires Enabled(s, Advance(p, pick)) && Enabled(d, Advance(p, pick'))
  {
    || (s.procs[p].FindingValid? && LooksUpInVain(Progress(d, p, pick'), other, p))
    || (s.procs[p].FindingExisting? && FindsRival(Progress(s, p, pick), more, p))
  }

  lemma CaughtAnswers(s: State, d: State, h: Time, p: Pid, pick: Id, pick': Id, more: seq<Action>, t: State,
                      other: seq<Action>, e: State)
    requires Inv(d) && Shadow(s, d, h) && Enabled(s, Advance(p, pick)) && Enabled(d, Advance(p, pick'))
    requires Caught(s, d, Advance(p, pick))
    requires Run(Progress(s, p, pick), more, t) && p in t.procs && t.procs[p].Done?
    requires Run(Progress(d, p, pick'), other, e) && p in e.procs && e.procs[p].Done?
    ensures SameAnswer(t.procs[p].outcome, e.procs[p].outcome) <==> RacedBesides(s, d, p, pick, pick', more, other)
  {
    var pc, s1, d1 := s.procs[p], Progress(s, p, pick), Progress(d, p, pick');
    if pc.FindingValid? || pc.LookingUp? {
      CaughtConfirmParts(s, d, h, p, pick, pick');
      LinkingAfterLookUp(s, d, h, p, pick, pick');
      ConfirmAnswers(s1, more, t, d1, other, e, p);
    } else if pc.Inserting? {
      CaughtInsertParts(s, d, h, p, pick, pick');
      CommitAnswers(s1, more, t, d1, other, e, p);
    } else {
      CaughtReadParts(s, d, h, p, pick, pick');
      if pc.FindingExisting? {
        FirstReadAnswers(s1, more, t, d1, other, e, p);
      } else {
        CommitAnswers(s1, more, t, d1, other, e, p);
      }
    }
  }

  lemma LinkingAfterLookUp(s: State, d: State, h: Time, p: Pid, pick: Id, pick': Id)
    requires Shadow(s, d, h) && Enabled(s, Advance(p, pick)) && Enabled(d, Advance(p, pick'))
    requires Caught(s, d, Advance(p, pick))
    ensures s.procs[p].LookingUp? ==> p in Progress(d, p, pick').procs && Progress(d, p, pick').procs[p].Linking?
  {
    if s.procs[p].LookingUp? {
      SamePc(s, d, h, p);
      LookingUpStep(d, p, pick');
      LookUpAs(d, p, s.procs[p].claim, true);
    }
  }

  // The first call that a run's cleanups catch, against the same run without cleanups up to there, each going on to
  // any end in which the call is over.
  lemma FirstCaughtIsAnsweredOtherwise(s0: State, acts: seq<Action>, s: State, bare: seq<Action>, d: State,
                                       p: Pid, pick: Id, pick': Id, more: seq<Action>, t: State,
                                       other: seq<Action>, e: State)
    requires Init(s0) && Run(s0, acts, s) && Run(s0, bare, d) && Pruned(acts, bare) && NeverCaught(s0, s0, acts, bare)
    requires Enabled(s, Advance(p, pick)) && Enabled(d, Advance(p, pick')) && Caught(s, d, Advance(p, pick))
    requires Run(Progress(s, p, pick), more, t) && p in t.procs && t.procs[p].Done?
    requires Run(Progress(d, p, pick'), other, e) && p in e.procs && e.procs[p].Done?
    ensures SameAnswer(t.procs[p].outcome, e.procs[p].outcome) <==> RacedBesides(s, d, p, pick, pick', more, other)
  {
    InitIsInv(s0);
    StartInStep(s0);
    RunKeepsInv(s0, bare, d);
    var h := UncaughtInStep(s0, s0, s0.clock, acts, bare, s, d);
    CaughtAnswers(s, d, h, p, pick, pick', more, t, other, e);
  }

  // What those races are: without cleanups, the row that the `confirm` had found was taken by another call, or has
  // expired and been removed since; with them, the request met a row committed after its delete.
  lemma RowLostMeansTaken(d: State, p: Pid, pick: Id, other: seq<Action>, e: State)
    requires Inv(d) && Enabled(d, Advance(p, pick)) && d.procs[p].FindingValid?
    requires p in Progress(d, p, pick).procs && Progress(d, p, pick).procs[p].Claiming?
    requires Run(Progress(d, p, pick), other, e) && LooksUpInVain(Progress(d, p, pick), other, p)
    ensures var claim := Progress(d, p, pick).procs[p].claim;
            TakenByOther(Progress(d, p, pick), other, p, claim.id) && claim.id !in e.pending
  {
    StepKeepsInv(d, Advance(p, pick));
    var d1 := Progress(d, p, pick);
    var claim := d1.procs[p].claim;
    assert SawRow(d1, claim) && claim.id in d1.pending;
    InVainMeansTaken(d1, other, e, p, claim);
    InVainMeansGone(d1, other, e, p, claim);
  }
}
