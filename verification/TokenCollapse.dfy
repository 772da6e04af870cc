// When a `rotate` revokes all sessions of its user (src/auth/token/token.service.ts): a replay, but also a row that
// the cron removed under it.
module TokenCollapse {
  import opened Options
  import opened RefreshTokens
  import opened TokenRotation
  import opened TokenTheorems

  // Somewhere in the run the cron removes the row.
  ghost predicate Reaped(s: State, acts: seq<Action>, id: Id)
    decreases |acts|
  {
    acts != [] && Enabled(s, acts[0]) && (ReapsNow(s, acts[0], id) || Reaped(Apply(s, acts[0]), acts[1..], id))
  }

  predicate ReapsNow(s: State, a: Action, id: Id) {
    a.Reap? && id in s.table && s.table[id].expiresAt < a.cutoff
  }

  lemma ProgressKeepsRows(s: State, p: Pid)
    requires p in s.procs
    ensures s.table.Keys <= Progress(s, p).table.Keys
  {
  }

  lemma RowLeaves(s: State, a: Action, id: Id)
    requires Enabled(s, a) && id in s.table
    ensures id in Apply(s, a).table <==> !ReapsNow(s, a, id)
  {
    if a.Advance? {
      ProgressKeepsRows(s, a.p);
    }
  }

  lemma {:induction false} NeverBack(s: State, acts: seq<Action>, t: State, id: Id)
    requires Inv(s) && Run(s, acts, t) && id < s.nextId && id !in s.table
    ensures id !in t.table && !Reaped(s, acts, id)
    decreases |acts|
  {
    if acts != [] {
      StepIsLater(s, acts[0]);
      StepKeepsInv(s, acts[0]);
      NeverBack(Apply(s, acts[0]), acts[1..], t, id);
    }
  }

  // Only the cron removes rows.
  lemma {:induction false} GoneIffReaped(s: State, acts: seq<Action>, t: State, id: Id)
    requires Inv(s) && Run(s, acts, t) && id in s.table
    ensures id !in t.table <==> Reaped(s, acts, id)
    decreases |acts|
  {
    if acts != [] {
      var s1 := Apply(s, acts[0]);
      RowLeaves(s, acts[0], id);
      StepKeepsInv(s, acts[0]);
      StepIsLater(s, acts[0]);
      if id in s1.table {
        GoneIffReaped(s1, acts[1..], t, id);
      } else {
        NeverBack(s1, acts[1..], t, id);
      }
    }
  }

  // A `rotate` from its read on: it stays with the row it found.
  predicate OnRow(pc: Proc, raw: Token, id: Id) {
    (pc.Checking? && pc.raw == raw && pc.id == id) || (pc.Approved? && pc.raw == raw && pc.id == id)
    || (pc.Minted? && pc.raw == raw && pc.id == id) || pc.Collapsing? || pc.Rotated?
  }

  lemma OnRowMoves(s: State, a: Action, p: Pid, raw: Token, id: Id)
    requires Enabled(s, a) && p in s.procs && OnRow(s.procs[p], raw, id)
    ensures p in Apply(s, a).procs && OnRow(Apply(s, a).procs[p], raw, id)
  {
    if a != Advance(p) && a != Fail(p) {
      OthersStay(s, a, p);
    }
  }

  lemma {:induction false} OnRowForever(s: State, acts: seq<Action>, t: State, p: Pid, raw: Token, id: Id)
    requires Run(s, acts, t) && p in s.procs && OnRow(s.procs[p], raw, id)
    ensures p in t.procs && OnRow(t.procs[p], raw, id)
    decreases |acts|
  {
    if acts != [] {
      OnRowMoves(s, acts[0], p, raw, id);
      OnRowForever(Apply(s, acts[0]), acts[1..], t, p, raw, id);
    }
  }

  lemma LosesIff(s: State, p: Pid)
    requires p in s.procs && s.procs[p].Minted?
    ensures p in Progress(s, p).procs
    ensures Progress(s, p).procs[p].Collapsing? <==> !Unused(s.table, s.procs[p].id)
  {
  }

  // At its commit a `rotate` turns to revoke all sessions of the user if and only if the row it had read is replaced
  // by then, or was removed by the cron since.
  lemma CommitCollapsesIff(s: State, p: Pid, id: Id, acts: seq<Action>, t: State)
    requires Inv(s) && p in s.procs && s.procs[p].Rotating? && id in s.table && s.table[id].tokenHash == s.procs[p].raw
    requires Run(Progress(s, p), acts, t) && p in t.procs && t.procs[p].Minted?
    ensures p in Progress(t, p).procs
    ensures Progress(t, p).procs[p].Collapsing? <==>
            (id in t.table && t.table[id].replacedById.Some?) || Reaped(Progress(s, p), acts, id)
  {
    assert Find(s.table, s.procs[p].raw) == Some(id);
    var s1 := Progress(s, p);
    StepKeepsInv(s, Advance(p));
    OnRowForever(s1, acts, t, p, s.procs[p].raw, id);
    GoneIffReaped(s1, acts, t, id);
    LosesIff(t, p);
  }

  lemma {:induction false} ReapedHasExpired(s: State, acts: seq<Action>, t: State, id: Id)
    requires Inv(s) && Run(s, acts, t) && id in s.table && Reaped(s, acts, id)
    ensures s.table[id].expiresAt < t.clock
    decreases |acts|
  {
    var s1 := Apply(s, acts[0]);
    StepKeepsInv(s, acts[0]);
    StepIsLater(s, acts[0]);
    if ReapsNow(s, acts[0], id) {
      ClockRuns(s1, acts[1..], t);
    } else {
      RowLeaves(s, acts[0], id);
      assert RowGrows(s.table[id], s1.table[id]);
      ReapedHasExpired(s1, acts[1..], t, id);
    }
  }

  lemma {:induction false} ClockRuns(s: State, acts: seq<Action>, t: State)
    requires Inv(s) && Run(s, acts, t)
    ensures s.clock <= t.clock
    decreases |acts|
  {
    if acts != [] {
      StepKeepsInv(s, acts[0]);
      StepIsLater(s, acts[0]);
      ClockRuns(Apply(s, acts[0]), acts[1..], t);
    }
  }

  // And the removal came after the check: a row removed before it has expired, and the check rejects it.
  lemma ReapedBeforeCheckIsRejected(s: State, p: Pid, id: Id, acts: seq<Action>, t: State)
    requires Inv(s) && p in s.procs && s.procs[p].Rotating? && id in s.table && s.table[id].tokenHash == s.procs[p].raw
    requires Run(Progress(s, p), acts, t) && p in t.procs && t.procs[p] == Progress(s, p).procs[p]
    requires Reaped(Progress(s, p), acts, id)
    ensures p in Progress(t, p).procs && !Progress(t, p).procs[p].Approved?
  {
    assert Find(s.table, s.procs[p].raw) == Some(id);
    StepKeepsInv(s, Advance(p));
    ReapedHasExpired(Progress(s, p), acts, t, id);
    assert Progress(s, p).procs[p] == Checking(s.procs[p].raw, id, s.table[id]) && Progress(s, p).table == s.table;
    ExpiredIsRejected(t, p);
  }

  lemma ExpiredIsRejected(s: State, p: Pid)
    requires p in s.procs && s.procs[p].Checking? && s.procs[p].seen.expiresAt < s.clock
    ensures p in Progress(s, p).procs && !Progress(s, p).procs[p].Approved?
  {
  }

  // ---------- Revoked without a replay ----------

  // User 7 after 2 ms: a `rotate` of the first session is about to commit, though that session has expired; a second
  // session is live. No token was ever presented twice.
  function Straggler(): State {
    State(1, 2, map[0 := Row(7, 0, 1, None, None), 1 := Row(7, 2, 3, None, None)], 2, 3,
          map[0 := Opened(Issued(0)), 1 := Minted(0, 0, 7, 1, 1), 2 := Opened(Issued(2))], {0, 2}, 2, {})
  }

  // The same before the second session.
  function Waiting(): State {
    State(1, 2, map[0 := Row(7, 0, 1, None, None)], 1, 2,
          map[0 := Opened(Issued(0)), 1 := Minted(0, 0, 7, 1, 1)], {0}, 1, {})
  }

  lemma MintsFirst(s: State)
    requires s == Put(OneSession(), 1, Approved(0, 0, 7))
    ensures Apply(Apply(s, Advance(1)), Tick(2)) == Waiting()
  {
  }

  lemma WaitingIsReachable()
    ensures Reachable(Waiting())
  {
    RotateApproved();
    var s := Put(OneSession(), 1, Approved(0, 0, 7));
    MintsFirst(s);
    ReachableStep(s, Advance(1));
    ReachableStep(Apply(s, Advance(1)), Tick(2));
  }

  lemma SecondMints(s: State)
    requires s == Put(Waiting(), 2, Opening(7))
    ensures Apply(s, Advance(2)) == Put(Waiting().(nextToken := 3), 2, OpeningMinted(7, 2, 3))
  {
  }

  lemma SecondCommits(s: State)
    requires s == Put(Waiting().(nextToken := 3), 2, OpeningMinted(7, 2, 3))
    ensures Apply(s, Advance(2)) == Straggler()
  {
  }

  lemma StragglerIsReachable()
    ensures Reachable(Straggler())
  {
    WaitingIsReachable();
    ReachableStep(Waiting(), Begin(2, Opening(7)));
    var s := Put(Waiting(), 2, Opening(7));
    ReachableStep(s, Advance(2));
    SecondMints(s);
    ReachableStep(Apply(s, Advance(2)), Advance(2));
    SecondCommits(Apply(s, Advance(2)));
  }

  lemma CronRemovesFirst(s: State)
    requires s == Straggler()
    ensures Enabled(s, Reap(2)) && Apply(s, Reap(2)).procs == s.procs && Apply(s, Reap(2)).clock == 2
    ensures Apply(s, Reap(2)).table == map[1 := Row(7, 2, 3, None, None)]
  {
  }

  lemma StragglerCollapses(s: State)
    requires s.procs == Straggler().procs && s.table == map[1 := Row(7, 2, 3, None, None)]
    ensures Enabled(s, Advance(1)) && Progress(s, 1).procs == s.procs[1 := Collapsing(0, 7)]
    ensures Progress(s, 1).table == s.table && Progress(s, 1).clock == s.clock
  {
    assert s.procs[1] == Minted(0, 0, 7, 1, 1);
  }

  lemma SecondIsRevoked(s: State)
    requires 1 in s.procs && s.procs[1] == Collapsing(0, 7) && s.table == map[1 := Row(7, 2, 3, None, None)]
    ensures Enabled(s, Advance(1)) && Progress(s, 1).table == map[1 := Row(7, 2, 3, Some(s.clock), None)]
    ensures Progress(s, 1).procs == s.procs[1 := Rotated(0, Rejected)] && Progress(s, 1).clock == s.clock
  {
  }

  lemma ReachableProgress(s: State, p: Pid)
    requires Reachable(s) && Enabled(s, Advance(p))
    ensures Reachable(Progress(s, p))
  {
    ReachableStep(s, Advance(p));
  }

  // The cron removes the expired row, the commit misses it, and the live session is revoked.
  lemma RevokedWithoutReplay() returns (t: State)
    ensures Reachable(t) && t.table == map[1 := Row(7, 2, 3, Some(2), None)] && t.clock == 2
    ensures t.procs == map[0 := Opened(Issued(0)), 1 := Rotated(0, Rejected), 2 := Opened(Issued(2))]
  {
    StragglerIsReachable();
    CronRemovesFirst(Straggler());
    ReachableStep(Straggler(), Reap(2));
    var s := Apply(Straggler(), Reap(2));
    StragglerCollapses(s);
    ReachableProgress(s, 1);
    var u := Progress(s, 1);
    SecondIsRevoked(u);
    ReachableProgress(u, 1);
    t := Progress(u, 1);
    assert t.procs == Straggler().procs[1 := Rotated(0, Rejected)];
  }
}
