// Runs in which no call is caught by a cleanup, whatever else happens: what a caller can see to, and the proof that
// it is enough.
module LinkPunctual {
  import opened Options
  import opened ProviderLinks
  import opened LinkProtocol
  import opened LinkTheorems
  import opened LinkSteps
  import opened LinkShadow
  import opened LinkCleanup

  // The `now` a call has read, while it still reads the pending table.
  function Stamp(pc: Proc): Option<Time> {
    match pc
    case FindingExisting(ask) => Some(ask.now)
    case Deleting(ask) => Some(ask.now)
    case Inserting(ask, _) => Some(ask.now)
    case Rechecking(ask) => Some(ask.now)
    case FindingValid(_, now) => Some(now)
    case Claiming(claim) => Some(claim.now)
    case _ => None
  }

  ghost predicate StampedSince(s: State, h: Time) {
    forall p :: p in s.procs && Stamp(s.procs[p]).Some? ==> h <= Stamp(s.procs[p]).value <= s.clock
  }

  // A row in the way of a request that is about to read a second time.
  ghost predicate InTheWay(s: State, p: Pid, i: Id) {
    p in s.procs && s.procs[p].Rechecking? && i in Matching(s.pending, s.procs[p].ask.user, s.procs[p].ask.identity.key)
    && s.pending[i].expiresAt > s.procs[p].ask.now
  }

  // A cleanup's cutoff is not after what any call in flight has read; a request commits within the lifetime of its
  // row; and no call commits the removal of a row that is in the way of a request about to read a second time.
  ghost predicate Timely(s: State, a: Action) {
    match a
    case Cleanup(cutoff) => StampedSince(s, cutoff)
    case Advance(q, _) =>
      q in s.procs
      && (s.procs[q].Inserting? ==> s.clock < s.procs[q].ask.now + LINK_TTL_MS)
      && (forall p, i :: InTheWay(s, p, i) ==> !Takes(s.procs[q], i))
    case _ => true
  }

  ghost predicate Punctual(s: State, acts: seq<Action>)
    decreases |acts|
  {
    acts == [] || (Timely(s, acts[0]) && Enabled(s, acts[0]) && Punctual(Apply(s, acts[0]), acts[1..]))
  }

  // A row that an uncommitted request has not seen is younger than the request.
  ghost predicate UnseenIsNew(rows: PendingTable, pc: Proc) {
    pc.Inserting? ==>
      forall i :: i in rows && i !in pc.doomed && Clash(rows[i], pc.ask.Row()) ==> rows[i].expiresAt > pc.ask.now
  }

  ghost predicate ClaimsAlike(s: State, d: State) {
    forall p :: p in s.procs && p in d.procs && s.procs[p].LookingUp? && d.procs[p].LookingUp? ==>
      s.procs[p].claimed == d.procs[p].claimed
  }

  // What punctual runs keep besides.
  ghost predicate Settled(s: State, d: State, h: Time) {
    && StampedSince(s, h) && ClaimsAlike(s, d) && RivalsStay(s)
    && forall p :: p in d.procs ==> UnseenIsNew(d.pending, d.procs[p])
  }

  // What refused a commit is there for the second read.
  ghost predicate RivalsStay(s: State) {
    forall p :: p in s.procs && s.procs[p].Rechecking? ==> exists i :: InTheWay(s, p, i)
  }

  lemma SettledIsUncaught(s: State, d: State, h: Time, a: Action)
    requires Inv(d) && Shadow(s, d, h) && Settled(s, d, h) && Timely(s, a)
    ensures !Caught(s, d, a)
  {
    if a.Advance? && a.p in d.procs {
      var pc := s.procs[a.p];
      SamePc(s, d, h, a.p);
      assert Stamp(pc).Some? ==> h <= Stamp(pc).value;
      if pc.FindingExisting? && CoolingDown(d.pending, pc.ask.user, pc.ask.identity.key, pc.ask.now) {
        CoolingLate(s, d, h, pc.ask);
      } else if pc.Inserting? && Blocked(d.pending, d.procs[a.p].doomed, pc.ask.Row()) {
        BlockedLate(s, d, h, pc.doomed, d.procs[a.p].doomed, pc.ask.Row());
        assert UnseenIsNew(d.pending, d.procs[a.p]);
      } else if pc.Rechecking? {
        var i :| InTheWay(s, a.p, i);
      }
    }
  }

  // ---------- Punctual runs stay settled ----------

  lemma StampFollows(a: Proc, b: Proc, clock: Time)
    requires Follows(a, b, clock)
    ensures Stamp(b).None? || Stamp(b) == Some(clock) || Stamp(b) == Stamp(a)
  {
  }

  lemma StampedMove(s: State, h: Time, a: Action)
    requires StampedSince(s, h) && h <= s.clock && Enabled(s, a) && s.clock <= Apply(s, a).clock
    ensures StampedSince(Apply(s, a), h)
  {
    var t := Apply(s, a);
    if a.Advance? {
      ProgressFollows(s, a.p, a.pick);
      ProgressMovesOne(s, a.p, a.pick);
      StampFollows(s.procs[a.p], t.procs[a.p], s.clock);
    }
  }

  lemma ClaimsMove(s: State, d: State, h: Time, p: Pid, pick: Id, pick': Id)
    requires Inv(d) && Shadow(s, d, h) && StampedSince(s, h) && ClaimsAlike(s, d)
    requires Enabled(s, Advance(p, pick)) && Enabled(d, Advance(p, pick'))
    requires Shadow(Progress(s, p, pick), Progress(d, p, pick'), h)
    ensures ClaimsAlike(Progress(s, p, pick), Progress(d, p, pick'))
  {
    SamePc(s, d, h, p);
    ProgressMovesOne(s, p, pick);
    ProgressMovesOne(d, p, pick');
    var a, b := Progress(s, p, pick).procs[p], Progress(d, p, pick').procs[p];
    if a.LookingUp? && b.LookingUp? {
      ProgressFollows(s, p, pick);
      assert s.procs[p] == Claiming(a.claim);
      assert ProcOk(d, p, d.procs[p]);
      assert LocalsShadow(Progress(s, p, pick), h, a, b);
      assert a.claimed == b.claimed;
    }
  }

  // The new row of a request that commits in time is younger than every request in flight.
  lemma UnseenMove(d: State, p: Pid, pick: Id, q: Pid)
    requires Inv(d) && FlightOk(d) && Enabled(d, Advance(p, pick)) && q in Progress(d, p, pick).procs
    requires d.procs[p].Inserting? ==> d.clock < d.procs[p].ask.now + LINK_TTL_MS
    requires forall r :: r in d.procs ==> UnseenIsNew(d.pending, d.procs[r])
    requires forall r :: r in d.procs && d.procs[r].Inserting? ==> d.procs[r].ask.now <= d.clock
    ensures UnseenIsNew(Progress(d, p, pick).pending, Progress(d, p, pick).procs[q])
  {
    var e := Progress(d, p, pick);
    ProgressMovesOne(d, p, pick);
    ProgressFollows(d, p, pick);
    if q == p && e.procs[p].Inserting? {
      OwnUnseen(d, p, pick);
    } else if e.procs[q].Inserting? {
      assert UnseenIsNew(d.pending, d.procs[q]);
      if d.procs[p].Inserting? {
        IssueFollows(d, p, d.procs[p].ask, d.procs[p].doomed);
      }
    }
  }

  // A delete sees all that matches.
  lemma OwnUnseen(d: State, p: Pid, pick: Id)
    requires FlightOk(d) && Enabled(d, Advance(p, pick)) && d.procs[p].Deleting?
    ensures p in Progress(d, p, pick).procs && UnseenIsNew(Progress(d, p, pick).pending, Progress(d, p, pick).procs[p])
  {
    assert InFlight(d.procs[p]) == Some(d.procs[p].ask.token);
  }

  // A refused commit leaves the row that refused it.
  lemma RivalComes(s: State, d: State, h: Time, p: Pid, pick: Id)
    requires Inv(s) && FlightOk(d) && Shadow(s, d, h) && Enabled(s, Advance(p, pick)) && s.procs[p].Inserting?
    requires p in d.procs && UnseenIsNew(d.pending, d.procs[p])
    requires Blocked(s.pending, s.procs[p].doomed, s.procs[p].ask.Row())
    ensures exists i :: InTheWay(Progress(s, p, pick), p, i)
  {
    SamePc(s, d, h, p);
    var ask, doomed := s.procs[p].ask, s.procs[p].doomed;
    var i :| i in s.pending && i !in doomed && Clash(s.pending[i], ask.Row());
    assert InFlight(d.procs[p]) == Some(ask.token);
    assert i in d.pending && d.pending[i] == s.pending[i] && i !in d.procs[p].doomed;
    InsertingStep(s, p, pick);
    IssueAs(s, p, ask, doomed);
    assert InTheWay(Progress(s, p, pick), p, i);
  }

  lemma RivalsMove(s: State, d: State, h: Time, p: Pid, pick: Id)
    requires Inv(s) && FlightOk(d) && Shadow(s, d, h) && Settled(s, d, h)
    requires Enabled(s, Advance(p, pick)) && Timely(s, Advance(p, pick))
    ensures RivalsStay(Progress(s, p, pick))
  {
    var t := Progress(s, p, pick);
    ProgressMovesOne(s, p, pick);
    ProgressFollows(s, p, pick);
    forall q | q in t.procs && t.procs[q].Rechecking?
      ensures exists i :: InTheWay(t, q, i)
    {
      if q == p {
        SamePc(s, d, h, p);
        FollowsIntoRecheck(s.procs[p], t.procs[p], s.clock);
        RefusedWasBlocked(s, p, pick);
        RivalComes(s, d, h, p, pick);
      } else {
        var i :| InTheWay(s, q, i);
        ProgressLeaves(s, p, pick, i);
        assert InTheWay(t, q, i);
      }
    }
  }

  lemma FollowsIntoRecheck(a: Proc, b: Proc, clock: Time)
    requires Follows(a, b, clock) && b.Rechecking? && !a.Done?
    ensures a.Inserting?
  {
  }

  lemma RefusedWasBlocked(s: State, p: Pid, pick: Id)
    requires Enabled(s, Advance(p, pick)) && s.procs[p].Inserting?
    requires p in Progress(s, p, pick).procs && Progress(s, p, pick).procs[p].Rechecking?
    ensures Blocked(s.pending, s.procs[p].doomed, s.procs[p].ask.Row())
  {
    InsertingStep(s, p, pick);
    IssueAs(s, p, s.procs[p].ask, s.procs[p].doomed);
  }

  lemma RivalsKept(s: State, t: State)
    requires RivalsStay(s)
    requires forall p :: p in t.procs && t.procs[p].Rechecking? ==> p in s.procs && t.procs[p] == s.procs[p]
    requires forall p, i :: InTheWay(s, p, i) && p in t.procs && t.procs[p] == s.procs[p] ==>
               i in t.pending && t.pending[i] == s.pending[i]
    ensures RivalsStay(t)
  {
    forall p | p in t.procs && t.procs[p].Rechecking?
      ensures exists i :: InTheWay(t, p, i)
    {
      var i :| InTheWay(s, p, i);
      assert InTheWay(t, p, i);
    }
  }

  lemma OtherRivals(s: State, a: Action)
    requires RivalsStay(s) && Enabled(s, a) && !a.Advance? && !a.Cleanup?
    ensures RivalsStay(Apply(s, a))
  {
    assert Apply(s, a).pending == s.pending;
    RivalsKept(s, Apply(s, a));
  }

  lemma SettledAdvance(s: State, d: State, h: Time, p: Pid, pick: Id, pick': Id)
    requires Inv(s) && Inv(d) && FlightOk(d) && Shadow(s, d, h) && Settled(s, d, h)
    requires Enabled(s, Advance(p, pick)) && Enabled(d, Advance(p, pick')) && Timely(s, Advance(p, pick))
    requires Shadow(Progress(s, p, pick), Progress(d, p, pick'), h)
    ensures ClaimsAlike(Progress(s, p, pick), Progress(d, p, pick'))
    ensures forall q :: q in Progress(d, p, pick').procs ==>
              UnseenIsNew(Progress(d, p, pick').pending, Progress(d, p, pick').procs[q])
  {
    ClaimsMove(s, d, h, p, pick, pick');
    SamePc(s, d, h, p);
    forall r | r in d.procs && d.procs[r].Inserting?
      ensures d.procs[r].ask.now <= d.clock
    {
      SamePc(s, d, h, r);
      assert Stamp(s.procs[r]) == Some(d.procs[r].ask.now);
    }
    forall q | q in Progress(d, p, pick').procs
      ensures UnseenIsNew(Progress(d, p, pick').pending, Progress(d, p, pick').procs[q])
    {
      UnseenMove(d, p, pick', q);
    }
  }

  // Beginning or ending a call, a registration and a tick give no call anything new to see.
  lemma OtherStaysSettled(s: State, d: State, a: Action)
    requires Enabled(s, a) && Enabled(d, a) && !a.Advance? && !a.Cleanup? && ClaimsAlike(s, d)
    requires forall q :: q in d.procs ==> UnseenIsNew(d.pending, d.procs[q])
    ensures ClaimsAlike(Apply(s, a), Apply(d, a))
    ensures forall q :: q in Apply(d, a).procs ==> UnseenIsNew(Apply(d, a).pending, Apply(d, a).procs[q])
  {
  }

  lemma BothStaySettled(s: State, d: State, h: Time, a: Action, b: Action)
    requires Inv(s) && Inv(d) && FlightOk(d) && Shadow(s, d, h) && Settled(s, d, h) && !a.Cleanup? && Timely(s, a)
    requires Enabled(s, a) && Enabled(d, b) && SameMove(a, b)
    requires Shadow(Apply(s, a), Apply(d, b), h) && Later(s, Apply(s, a))
    ensures Settled(Apply(s, a), Apply(d, b), h)
  {
    StampedMove(s, h, a);
    if a.Advance? {
      SettledAdvance(s, d, h, a.p, a.pick, b.pick);
      RivalsMove(s, d, h, a.p, a.pick);
    } else {
      OtherStaysSettled(s, d, a);
      OtherRivals(s, a);
    }
  }

  lemma OneStaysSettled(s: State, d: State, h: Time, cutoff: Time)
    requires Settled(s, d, h) && Timely(s, Cleanup(cutoff)) && cutoff <= s.clock
    ensures Settled(Apply(s, Cleanup(cutoff)), d, Max(h, cutoff))
  {
    var t := Apply(s, Cleanup(cutoff));
    forall p, i | InTheWay(s, p, i)
      ensures i in t.pending && t.pending[i] == s.pending[i]
    {
      assert Stamp(s.procs[p]) == Some(s.procs[p].ask.now);
    }
    RivalsKept(s, t);
  }

  // ---------- The run without cleanups ----------

  // What one run can do the other can.
  lemma MatchingMove(s: State, d: State, h: Time, a: Action) returns (b: Action)
    requires Shadow(s, d, h) && Enabled(s, a) && !a.Cleanup?
    ensures SameMove(a, b) && Enabled(d, b)
  {
    b := a;
    if a.Advance? {
      SamePc(s, d, h, a.p);
      var pc := d.procs[a.p];
      if pc.FindingExisting? || pc.Rechecking? {
        var ids := Matching(d.pending, pc.ask.user, pc.ask.identity.key);
        if ids != {} {
          var i := NewestExists(d.pending, pc.ask.user, pc.ask.identity.key, ids);
          b := Advance(a.p, i);
        }
      }
    } else if a.Fail? {
      SamePc(s, d, h, a.p);
    }
  }

  lemma PunctualMove(s: State, d: State, h: Time, a: Action, b: Action)
    requires Inv(s) && Inv(d) && FlightOk(d) && Shadow(s, d, h) && Settled(s, d, h)
    requires Enabled(s, a) && Enabled(d, b) && SameMove(a, b) && !a.Cleanup? && Timely(s, a)
    ensures !Caught(s, d, a)
    ensures Inv(Apply(s, a)) && Inv(Apply(d, b)) && FlightOk(Apply(d, b))
    ensures Shadow(Apply(s, a), Apply(d, b), h) && Settled(Apply(s, a), Apply(d, b), h)
  {
    SettledIsUncaught(s, d, h, a);
    StepKeepsInv(s, a);
    StepKeepsBoth(d, b);
    MoveInStep(s, d, h, a, b);
    BothStaySettled(s, d, h, a, b);
  }

  lemma PunctualSweep(s: State, d: State, h: Time, cutoff: Time)
    requires Inv(s) && Shadow(s, d, h) && Settled(s, d, h) && cutoff <= s.clock && Timely(s, Cleanup(cutoff))
    ensures Inv(Apply(s, Cleanup(cutoff)))
    ensures Shadow(Apply(s, Cleanup(cutoff)), d, Max(h, cutoff))
    ensures Settled(Apply(s, Cleanup(cutoff)), d, Max(h, cutoff))
  {
    OneSweeps(s, d, h, cutoff);
    OneStaysSettled(s, d, h, cutoff);
  }

  lemma {:induction false} PunctualIsUncaught(s: State, d: State, h: Time, acts: seq<Action>,
                                              bare: seq<Action>, e: State)
    requires Inv(s) && Inv(d) && FlightOk(d) && Shadow(s, d, h) && Settled(s, d, h)
    requires Punctual(s, acts) && Run(d, bare, e) && Pruned(acts, bare)
    ensures NeverCaught(s, d, acts, bare)
    decreases |acts|
  {
    if acts == [] {
    } else if acts[0].Cleanup? {
      PunctualSweep(s, d, h, acts[0].cutoff);
      PunctualIsUncaught(Apply(s, acts[0]), d, Max(h, acts[0].cutoff), acts[1..], bare, e);
    } else {
      PunctualMove(s, d, h, acts[0], bare[0]);
      PunctualIsUncaught(Apply(s, acts[0]), Apply(d, bare[0]), h, acts[1..], bare[1..], e);
    }
  }

  lemma {:induction false} BareRun(s: State, d: State, h: Time, acts: seq<Action>) returns (bare: seq<Action>, e: State)
    requires Inv(s) && Inv(d) && FlightOk(d) && Shadow(s, d, h) && Settled(s, d, h) && Punctual(s, acts)
    ensures Run(d, bare, e) && Pruned(acts, bare)
    decreases |acts|
  {
    if acts == [] {
      return [], d;
    }
    var a := acts[0];
    if a.Cleanup? {
      PunctualSweep(s, d, h, a.cutoff);
      bare, e := BareRun(Apply(s, a), d, Max(h, a.cutoff), acts[1..]);
    } else {
      var b := MatchingMove(s, d, h, a);
      PunctualMove(s, d, h, a, b);
      var rest, u := BareRun(Apply(s, a), Apply(d, b), h, acts[1..]);
      bare, e := [b] + rest, u;
      assert bare[0] == b && bare[1..] == rest;
    }
  }

  // The cleanups of a punctual run are invisible: it has a twin without them, and in every such twin all calls are
  // answered alike and all links, accounts and unexpired rows are the same.
  lemma CleanupIsInvisible(s: State, acts: seq<Action>, t: State, bare: seq<Action>, e: State)
    requires Init(s) && Run(s, acts, t) && Punctual(s, acts) && Run(s, bare, e) && Pruned(acts, bare)
    ensures SameCalls(t, e) && t.links == e.links && t.users == e.users
    ensures Unexpired(t.pending, t.clock) == Unexpired(e.pending, e.clock)
  {
    InitIsInv(s);
    StartInStep(s);
    PunctualIsUncaught(s, s, s.clock, acts, bare, e);
    CleanupIsNoticedIffCaught(s, acts, t, bare, e);
  }

  lemma TwinExists(s: State, acts: seq<Action>) returns (bare: seq<Action>, e: State)
    requires Init(s) && Punctual(s, acts)
    ensures Run(s, bare, e) && Pruned(acts, bare)
  {
    InitIsInv(s);
    StartInStep(s);
    bare, e := BareRun(s, s, s.clock, acts);
  }
}
