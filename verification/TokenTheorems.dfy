// What refresh-token rotation promises over every interleaving (section 5.2.2.3 of RFC 6819,
// section 4.14.2 of RFC 9700).
module TokenTheorems {
  import opened Options
  import opened RefreshTokens
  import opened TokenRotation

  lemma InitIsInv(s: State)
    requires Init(s)
    ensures Inv(s)
  {
    assert Heads(s.table) == {};
  }

  lemma {:induction false} RunKeepsInv(s: State, acts: seq<Action>, t: State)
    requires Inv(s) && Run(s, acts, t)
    ensures Inv(t)
    decreases |acts|
  {
    if acts != [] {
      StepKeepsInv(s, acts[0]);
      RunKeepsInv(Apply(s, acts[0]), acts[1..], t);
    }
  }

  lemma {:induction false} RunAppended(s: State, acts: seq<Action>, t: State, more: seq<Action>, u: State)
    requires Run(s, acts, t) && Run(t, more, u)
    ensures Run(s, acts + more, u)
    decreases |acts|
  {
    if acts == [] {
      assert acts + more == more;
    } else {
      RunAppended(Apply(s, acts[0]), acts[1..], t, more, u);
      assert (acts + more)[0] == acts[0] && (acts + more)[1..] == acts[1..] + more;
    }
  }

  // ---------- Reachable states ----------

  ghost predicate Reaches(s: State, t: State) {
    exists acts :: Run(s, acts, t)
  }

  ghost predicate Reachable(s: State) {
    exists s0 :: Init(s0) && Reaches(s0, s)
  }

  lemma ReachesStep(s: State, t: State, a: Action)
    requires Reaches(s, t) && Enabled(t, a)
    ensures Reaches(s, Apply(t, a))
  {
    var acts :| Run(s, acts, t);
    assert [a][1..] == [];
    assert Run(t, [a], Apply(t, a));
    RunAppended(s, acts, t, [a], Apply(t, a));
  }

  lemma ReachesSelf(s: State)
    ensures Reaches(s, s)
  {
    assert Run(s, [], s);
  }

  ghost predicate NoFails(acts: seq<Action>) {
    forall a: Action :: a in acts ==> !a.Fail?
  }

  // Reached, if the database is `reliable`, without a failing call.
  ghost predicate ReachesBy(s: State, t: State, reliable: bool) {
    exists acts :: Run(s, acts, t) && (reliable ==> NoFails(acts))
  }

  lemma ReachesByStep(s: State, t: State, a: Action, reliable: bool)
    requires ReachesBy(s, t, reliable) && Enabled(t, a) && (reliable ==> !a.Fail?)
    ensures ReachesBy(s, Apply(t, a), reliable)
  {
    var acts :| Run(s, acts, t) && (reliable ==> NoFails(acts));
    assert [a][1..] == [];
    assert Run(t, [a], Apply(t, a));
    RunAppended(s, acts, t, [a], Apply(t, a));
    assert reliable ==> NoFails(acts + [a]);
  }

  lemma ReachesBySelf(s: State, reliable: bool)
    ensures ReachesBy(s, s, reliable)
  {
    assert Run(s, [], s) && NoFails([]);
  }

  lemma ReachableIsInv(s: State)
    requires Reachable(s)
    ensures Inv(s)
  {
    var s0 :| Init(s0) && Reaches(s0, s);
    var acts :| Run(s0, acts, s);
    InitIsInv(s0);
    RunKeepsInv(s0, acts, s);
  }

  // ---------- Chains ----------

  // Following `replacedById` always ends, at an unreplaced row of the same user.
  function Head(t: Table, id: Id, bound: Id): (h: Id)
    requires Chained(t) && id in t && forall i :: i in t ==> i < bound
    ensures h in t && t[h].replacedById.None? && t[h].userId == t[id].userId && id <= h
    decreases bound - id
  {
    if t[id].replacedById.None? then id else Head(t, t[id].replacedById.value, bound)
  }

  // `b` is reached from `a` by following `replacedById`.
  predicate Leads(t: Table, a: Id, b: Id, bound: Id)
    requires Chained(t) && a in t && forall i :: i in t ==> i < bound
    decreases bound - a
  {
    a == b || (t[a].replacedById.Some? && Leads(t, t[a].replacedById.value, b, bound))
  }

  function Depth(t: Table, id: Id, bound: Id): nat
    requires Chained(t) && id in t && forall i :: i in t ==> i < bound
    decreases bound - id
  {
    if t[id].replacedById.None? then 0 else 1 + Depth(t, t[id].replacedById.value, bound)
  }

  lemma {:induction false} SameDepth(t: Table, a: Id, b: Id, bound: Id)
    requires Chained(t) && a in t && b in t && forall i :: i in t ==> i < bound
    requires Head(t, a, bound) == Head(t, b, bound) && Depth(t, a, bound) == Depth(t, b, bound)
    ensures a == b
    decreases bound - a
  {
    if t[a].replacedById.Some? {
      SameDepth(t, t[a].replacedById.value, t[b].replacedById.value, bound);
    }
  }

  // Two rows of one family lie on one path: families never branch.
  lemma {:induction false} FamilyIsAPath(t: Table, a: Id, b: Id, bound: Id)
    requires Chained(t) && a in t && b in t && forall i :: i in t ==> i < bound
    requires Depth(t, a, bound) >= Depth(t, b, bound)
    ensures Head(t, a, bound) == Head(t, b, bound) <==> Leads(t, a, b, bound)
    decreases bound - a
  {
    if Depth(t, a, bound) == Depth(t, b, bound) {
      if Head(t, a, bound) == Head(t, b, bound) {
        SameDepth(t, a, b, bound);
      } else if t[a].replacedById.Some? {
        DeeperLeads(t, t[a].replacedById.value, b, bound);
      }
    } else {
      FamilyIsAPath(t, t[a].replacedById.value, b, bound);
    }
  }

  lemma {:induction false} DeeperLeads(t: Table, a: Id, b: Id, bound: Id)
    requires Chained(t) && a in t && b in t && forall i :: i in t ==> i < bound
    requires Depth(t, a, bound) < Depth(t, b, bound)
    ensures !Leads(t, a, b, bound)
    decreases bound - a
  {
    if t[a].replacedById.Some? {
      DeeperLeads(t, t[a].replacedById.value, b, bound);
    }
  }

  // In every reachable state the chain invariant holds, so `Head` and `FamilyIsAPath` apply to it.
  lemma ChainsInEveryRun(s: State, acts: seq<Action>, t: State)
    requires Init(s) && Run(s, acts, t)
    ensures Chained(t.table) && forall i :: i in t.table ==> i < t.nextId
  {
    InitIsInv(s);
    RunKeepsInv(s, acts, t);
  }

  // ---------- Sessions ----------

  // A call is over when it has answered: its outcome stays.
  lemma {:induction false} OutcomeIsFinal(s: State, acts: seq<Action>, t: State, p: Pid)
    requires Run(s, acts, t) && p in s.procs && Finished(s.procs[p])
    ensures p in t.procs && t.procs[p] == s.procs[p]
    decreases |acts|
  {
    if acts != [] {
      OutcomeIsFinal(Apply(s, acts[0]), acts[1..], t, p);
    }
  }

  // No token is exchanged twice, and every session opened is an unreplaced row or one the cron removed.
  lemma SingleSuccess(s: State, acts: seq<Action>, t: State)
    requires Init(s) && Run(s, acts, t)
    ensures forall p, q, raw :: Wins(t, p, raw) && Wins(t, q, raw) ==> p == q
    ensures |Heads(t.table)| + |t.reaped| == t.issued
    ensures Heads(t.table) !! t.reaped
  {
    InitIsInv(s);
    RunKeepsInv(s, acts, t);
  }

  ghost predicate AnswersWith(pc: Proc, token: Token) {
    (pc.Rotated? && pc.outcome == Issued(token)) || (pc.Opened? && pc.outcome == Issued(token))
  }

  lemma AnswerComesFrom(s: State, p: Pid, token: Token)
    requires Enabled(s, Advance(p)) && AnswersWith(Progress(s, p).procs[p], token)
    ensures FreshOf(s.procs[p]) == Some(token)
    ensures s.procs[p].Minted? ==> Unused(s.table, s.procs[p].id)
  {
  }

  lemma FreshStoresRow(s: State, p: Pid)
    requires TableOk(s) && Enabled(s, Advance(p)) && ProcOk(s, s.procs[p]) && FreshOf(s.procs[p]).Some?
    requires s.procs[p].Minted? ==> Unused(s.table, s.procs[p].id)
    ensures var t, token := Progress(s, p), s.procs[p].minted;
            && t.table.Keys == s.table.Keys + {s.nextId}
            && t.table[s.nextId].tokenHash == token && token !in s.everStored
            && t.table[s.nextId].replacedById.None? && t.table[s.nextId].revokedAt.None?
  {
  }

  // An answer with a token stores one new row, for that token, live and at the end of its chain.
  lemma AnswerStoresRow(s: State, p: Pid, token: Token)
    requires Inv(s) && Enabled(s, Advance(p)) && AnswersWith(Progress(s, p).procs[p], token)
    ensures var t := Progress(s, p);
            && t.table.Keys == s.table.Keys + {s.nextId}
            && t.table[s.nextId].tokenHash == token && token !in s.everStored
            && t.table[s.nextId].replacedById.None? && t.table[s.nextId].revokedAt.None?
  {
    AnswerComesFrom(s, p, token);
    assert ProcOk(s, s.procs[p]);
    FreshStoresRow(s, p);
  }

  // Every other step, those of a failing `rotate` included, adds no row.
  lemma NoAnswerNoRow(s: State, a: Action)
    requires Enabled(s, a)
    requires a.Advance? ==> forall token :: !AnswersWith(Progress(s, a.p).procs[a.p], token)
    ensures Apply(s, a).table.Keys <= s.table.Keys
  {
    if a.Advance? {
      var pc := s.procs[a.p];
      if pc.Collapsing? || pc.LogoutFound? {
        RevokingTable(s, a.p);
      } else if FreshOf(pc).Some? {
        FreshAnswers(s, a.p);
      } else {
        RowsStay(s, a.p);
      }
    }
  }

  // Over a whole run: no step of a `rotate` that ends without a pair ever added a row.
  lemma FailedRotationAddsNoRow(s: State, a: Action, after: seq<Action>, t: State, p: Pid)
    requires Enabled(s, a) && (a == Advance(p) || a == Fail(p))
    requires Run(Apply(s, a), after, t)
    requires p in t.procs && t.procs[p].Rotated? && !t.procs[p].outcome.Issued?
    ensures Apply(s, a).table.Keys <= s.table.Keys
  {
    var pc := Apply(s, a).procs[p];
    if Finished(pc) {
      OutcomeIsFinal(Apply(s, a), after, t, p);
      assert pc == t.procs[p];
    }
    NoAnswerNoRow(s, a);
  }

  lemma FreshAnswers(s: State, p: Pid)
    requires Enabled(s, Advance(p)) && FreshOf(s.procs[p]).Some?
    ensures Progress(s, p).table == s.table || AnswersWith(Progress(s, p).procs[p], s.procs[p].minted)
  {
  }

  lemma RowsStay(s: State, p: Pid)
    requires Enabled(s, Advance(p)) && FreshOf(s.procs[p]).None?
    requires !s.procs[p].Collapsing? && !s.procs[p].LogoutFound?
    ensures Progress(s, p).table == s.table
  {
  }

  // ---------- Replay ----------

  // The read of `rotate` would let `raw` through.
  ghost predicate Live(s: State, raw: Token) {
    exists i :: i in s.table && s.table[i].tokenHash == raw
      && s.table[i].replacedById.None? && s.table[i].revokedAt.None? && s.table[i].expiresAt > s.clock
  }

  // The `rotate` call `p` can still end with a token pair.
  ghost predicate CanWin(s: State, p: Pid) {
    p in s.procs &&
    match s.procs[p]
    case Rotating(raw) => Live(s, raw)
    case Checking(_, id, seen) =>
      seen.replacedById.None? && seen.revokedAt.None? && seen.expiresAt > s.clock && Unused(s.table, id)
    case Approved(_, id, _) => Unused(s.table, id)
    case Minted(_, id, _, _, _) => Unused(s.table, id)
    case Rotated(_, outcome) => outcome.Issued?
    case _ => false
  }

  ghost predicate IsRotation(s: State, p: Pid) {
    p in s.procs && (s.procs[p].Rotating? || s.procs[p].Checking? || s.procs[p].Approved? || s.procs[p].Minted?
                     || s.procs[p].Collapsing? || s.procs[p].Rotated?)
  }

  // Contrapositive: a stored token rejected on read stays rejected.
  lemma LiveBefore(s: State, t: State, raw: Token)
    requires Later(s, t) && raw in s.everStored && Live(t, raw)
    ensures Live(s, raw)
  {
    var i :| i in t.table && t.table[i].tokenHash == raw
      && t.table[i].replacedById.None? && t.table[i].revokedAt.None? && t.table[i].expiresAt > t.clock;
    assert RowGrows(s.table[i], t.table[i]);
  }

  // Steps of other calls, of the cron and of the clock never give `p` a chance it did not have.
  lemma CanWinBeforeOthers(s: State, t: State, p: Pid)
    requires Later(s, t) && p in s.procs && p in t.procs && t.procs[p] == s.procs[p] && ProcOk(s, s.procs[p])
    requires s.procs[p].Rotating? ==> s.procs[p].raw in s.everStored
    requires CanWin(t, p)
    ensures CanWin(s, p)
  {
    if s.procs[p].Rotating? {
      LiveBefore(s, t, s.procs[p].raw);
    }
  }

  lemma CanWinBeforeOwn(s: State, p: Pid)
    requires p in s.procs && CanWin(Progress(s, p), p)
    ensures CanWin(s, p)
  {
    var pc := s.procs[p];
    if pc.Rotating? {
      var found := Find(s.table, pc.raw);
      assert found.Some? && s.table[found.value].tokenHash == pc.raw;
    }
  }

  lemma OthersStay(s: State, a: Action, p: Pid)
    requires Enabled(s, a) && p in s.procs && a != Advance(p) && a != Fail(p)
    ensures p in Apply(s, a).procs && Apply(s, a).procs[p] == s.procs[p]
  {
  }

  lemma FailureWinsNothing(s: State, p: Pid)
    requires Enabled(s, Fail(p))
    ensures !CanWin(Apply(s, Fail(p)), p)
  {
  }

  lemma CanWinBefore(s: State, a: Action, p: Pid)
    requires Inv(s) && Enabled(s, a) && CanWin(Apply(s, a), p)
    requires p in s.procs && (s.procs[p].Rotating? ==> s.procs[p].raw in s.everStored)
    ensures CanWin(s, p)
  {
    if a == Advance(p) {
      CanWinBeforeOwn(s, p);
    } else if a == Fail(p) {
      FailureWinsNothing(s, p);
    } else {
      StepIsLater(s, a);
      assert ProcOk(s, s.procs[p]);
      OthersStay(s, a, p);
      CanWinBeforeOthers(s, Apply(s, a), p);
    }
  }

  lemma StepKeepsRotation(s: State, a: Action, p: Pid)
    requires Enabled(s, a) && IsRotation(s, p)
    ensures var t := Apply(s, a); IsRotation(t, p) && t.procs[p].raw == s.procs[p].raw
    ensures Apply(s, a).procs[p].Rotating? ==> s.procs[p].Rotating?
  {
  }

  lemma {:induction false} WinnerCouldWin(s: State, acts: seq<Action>, t: State, p: Pid)
    requires Inv(s) && Run(s, acts, t)
    requires IsRotation(s, p) && (s.procs[p].Rotating? ==> s.procs[p].raw in s.everStored)
    requires CanWin(t, p)
    ensures CanWin(s, p)
    decreases |acts|
  {
    if acts != [] {
      StepKeepsInv(s, acts[0]);
      StepIsLater(s, acts[0]);
      StepKeepsRotation(s, acts[0], p);
      WinnerCouldWin(Apply(s, acts[0]), acts[1..], t, p);
      CanWinBefore(s, acts[0], p);
    }
  }

  // Steps left until `p` answers when nothing interferes.
  function StepsLeft(pc: Proc): nat {
    match pc
    case Rotating(_) => 4
    case Checking(_, _, _) => 3
    case Approved(_, _, _) => 2
    case Minted(_, _, _, _, _) => 1
    case _ => 0
  }

  lemma CanWinAdvances(s: State, p: Pid)
    requires Inv(s) && CanWin(s, p) && !Finished(s.procs[p])
    ensures var t := Progress(s, p); CanWin(t, p) && StepsLeft(t.procs[p]) < StepsLeft(s.procs[p])
  {
    var pc := s.procs[p];
    if pc.Rotating? {
      var i :| i in s.table && s.table[i].tokenHash == pc.raw
        && s.table[i].replacedById.None? && s.table[i].revokedAt.None? && s.table[i].expiresAt > s.clock;
      assert Find(s.table, pc.raw) == Some(i);
    }
  }

  lemma {:induction false} CanWinWins(s: State, p: Pid) returns (acts: seq<Action>, t: State)
    requires Inv(s) && CanWin(s, p)
    ensures Run(s, acts, t) && IsRotation(t, p) && Wins(t, p, s.procs[p].raw)
    decreases StepsLeft(s.procs[p])
  {
    if Finished(s.procs[p]) {
      return [], s;
    }
    CanWinAdvances(s, p);
    StepKeepsInv(s, Advance(p));
    StepKeepsRotation(s, Advance(p), p);
    var rest, u := CanWinWins(Progress(s, p), p);
    acts, t := [Advance(p)] + rest, u;
    assert acts[0] == Advance(p) && acts[1..] == rest;
  }

  ghost predicate CanEndWithPair(s: State, p: Pid, raw: Token) {
    exists acts, t :: Run(s, acts, t) && Wins(t, p, raw)
  }

  // Exactly when a `rotate` call can still answer with a pair: the code re-checks `replacedById` at the
  // commit but not `revokedAt`, so after a revocation only a call that had already read the row can.
  lemma RotationCanSucceedIff(s: State, p: Pid)
    requires Inv(s) && IsRotation(s, p) && (s.procs[p].Rotating? ==> s.procs[p].raw in s.everStored)
    ensures CanEndWithPair(s, p, s.procs[p].raw) <==> CanWin(s, p)
  {
    var raw := s.procs[p].raw;
    if CanEndWithPair(s, p, raw) {
      var acts, t :| Run(s, acts, t) && Wins(t, p, raw);
      WinnerCouldWin(s, acts, t, p);
    } else if CanWin(s, p) {
      var acts, t := CanWinWins(s, p);
    }
  }

  // A log-out of user 7 about to revoke the row that a `rotate` has read and checked.
  function LateReader(): State {
    State(1, 0, map[0 := Row(7, 0, 1, None, None)], 1, 1,
          map[0 := Opened(Issued(0)), 1 := Approved(0, 0, 7), 2 := LogoutFound(0)], {0}, 1, {})
  }

  // A session of user 7, opened by call 0 on an empty table.
  function OneSession(): State {
    State(1, 0, map[0 := Row(7, 0, 1, None, None)], 1, 1, map[0 := Opened(Issued(0))], {0}, 1, {})
  }

  // On the empty table, call 0 opening a session.
  function EmptyTable(): State {
    State(1, 0, map[], 0, 0, map[], {}, 0, {})
  }

  lemma OpeningMints(s: State)
    requires s == Put(EmptyTable(), 0, Opening(7))
    ensures Apply(s, Advance(0)) == Put(EmptyTable().(nextToken := 1), 0, OpeningMinted(7, 0, 1))
  {
  }

  lemma OpeningCommits(s: State)
    requires s == Put(EmptyTable().(nextToken := 1), 0, OpeningMinted(7, 0, 1))
    ensures Apply(s, Advance(0)) == OneSession()
  {
  }

  lemma OneSessionIsReachable()
    ensures Reachable(OneSession())
  {
    ReachesSelf(EmptyTable());
    assert Reachable(EmptyTable());
    ReachableStep(EmptyTable(), Begin(0, Opening(7)));
    var s := Put(EmptyTable(), 0, Opening(7));
    ReachableStep(s, Advance(0));
    OpeningMints(s);
    ReachableStep(Apply(s, Advance(0)), Advance(0));
    OpeningCommits(Apply(s, Advance(0)));
  }

  lemma SessionFound(s: State)
    requires s.table == OneSession().table
    ensures Find(s.table, 0) == Some(0)
  {
    assert s.table[0].tokenHash == 0;
  }

  lemma ReachableStep(s: State, a: Action)
    requires Reachable(s) && Enabled(s, a)
    ensures Reachable(Apply(s, a))
  {
    var s0 :| Init(s0) && Reaches(s0, s);
    ReachesStep(s0, s, a);
  }

  lemma ReachableRead(s: State, p: Pid)
    requires Reachable(s) && p in s.procs && OnlyReads(s.procs[p])
    ensures Reachable(Put(s, p, NextRead(s, s.procs[p])))
  {
    ReachableStep(s, Advance(p));
  }

  // Call 1 presents the token and passes the check.
  lemma RotateApproved()
    ensures Reachable(Put(OneSession(), 1, Approved(0, 0, 7)))
  {
    OneSessionIsReachable();
    var s, row := OneSession(), Row(7, 0, 1, None, None);
    var s1, s2, s3 := Put(s, 1, Rotating(0)), Put(s, 1, Checking(0, 0, row)), Put(s, 1, Approved(0, 0, 7));
    ReachableStep(s, Begin(1, Rotating(0)));
    SessionFound(s1);
    ReachableRead(s1, 1);
    assert Put(s1, 1, Checking(0, 0, row)) == s2;
    ReachableRead(s2, 1);
    assert Put(s2, 1, Approved(0, 0, 7)) == s3;
  }

  lemma LateReaderIsReachable()
    ensures Reachable(LateReader())
  {
    RotateApproved();
    var s := Put(OneSession(), 1, Approved(0, 0, 7));
    ReachableStep(s, Begin(2, LoggingOut(0)));
    var s1 := Put(s, 2, LoggingOut(0));
    SessionFound(s1);
    ReachableStep(s1, Advance(2));
    assert Progress(s1, 2) == LateReader();
  }

  lemma RevokesSession(s: State)
    requires s == LateReader()
    ensures Enabled(s, Advance(2))
    ensures var t := Apply(s, Advance(2));
            t.procs == s.procs[2 := LoggedOut] && t.table == map[0 := Row(7, 0, 1, Some(0), None)]
  {
    assert s.procs[2] == LogoutFound(0);
  }

  lemma StillApproved(t: State)
    requires Inv(t) && 1 in t.procs && t.procs[1] == Approved(0, 0, 7) && Unused(t.table, 0)
    ensures CanEndWithPair(t, 1, 0)
  {
    RotationCanSucceedIff(t, 1);
  }

  // So a revocation does not stop every session: from this reachable state the log-out revokes the row, and the
  // `rotate` can end with a pair all the same.
  lemma RevocationMissesReaders()
    ensures Reachable(LateReader()) && Enabled(LateReader(), Advance(2))
    ensures var t := Apply(LateReader(), Advance(2)); t.table[0].revokedAt.Some? && CanEndWithPair(t, 1, 0)
  {
    var s := LateReader();
    LateReaderIsReachable();
    RevokesSession(s);
    ReachableStep(s, Advance(2));
    var t := Apply(s, Advance(2));
    ReachableIsInv(t);
    StillApproved(t);
  }

  // No `rotate` whose read is still to come will get a pair for `raw`.
  ghost predicate Barred(s: State, raw: Token, p: Pid) {
    raw in s.everStored && !Live(s, raw) && (IsRotation(s, p) && s.procs[p].raw == raw ==> !CanWin(s, p))
  }

  lemma RotationBefore(s: State, a: Action, p: Pid)
    requires Enabled(s, a) && IsRotation(Apply(s, a), p)
    ensures p in s.procs ==> IsRotation(s, p) && s.procs[p].raw == Apply(s, a).procs[p].raw
    ensures p !in s.procs ==> Apply(s, a).procs[p].Rotating?
  {
  }

  lemma BarredIsStable(s: State, a: Action, raw: Token, p: Pid)
    requires Inv(s) && Enabled(s, a) && Barred(s, raw, p)
    ensures Barred(Apply(s, a), raw, p)
  {
    var t := Apply(s, a);
    StepIsLater(s, a);
    if Live(t, raw) {
      LiveBefore(s, t, raw);
    }
    if IsRotation(t, p) && t.procs[p].raw == raw && CanWin(t, p) {
      RotationBefore(s, a, p);
      if p in s.procs {
        CanWinBefore(s, a, p);
      }
    }
  }

  lemma {:induction false} BarredForever(s: State, acts: seq<Action>, t: State, raw: Token, p: Pid)
    requires Inv(s) && Run(s, acts, t) && Barred(s, raw, p)
    ensures Barred(t, raw, p)
    decreases |acts|
  {
    if acts != [] {
      BarredIsStable(s, acts[0], raw, p);
      StepKeepsInv(s, acts[0]);
      BarredForever(Apply(s, acts[0]), acts[1..], t, raw, p);
    }
  }

  lemma BarredNeverWins(s: State, acts: seq<Action>, t: State, raw: Token, p: Pid)
    requires Inv(s) && Run(s, acts, t) && Barred(s, raw, p)
    ensures !Wins(t, p, raw)
  {
    BarredForever(s, acts, t, raw, p);
  }

  // A `rotate` on its way to the revocation of `user`.
  predicate Collapses(pc: Proc, raw: Token, user: UserId) {
    || pc == Collapsing(raw, user)
    || (pc.Checking? && pc.raw == raw && pc.seen.userId == user && pc.seen.replacedById.Some?)
  }

  lemma CollapsesOn(s: State, p: Pid, raw: Token, user: UserId)
    requires Enabled(s, Advance(p)) && Collapses(s.procs[p], raw, user) && !s.procs[p].Collapsing?
    ensures p in Progress(s, p).procs && Progress(s, p).procs[p] == Collapsing(raw, user)
  {
  }

  // It answers `Rejected` only by taking that step.
  lemma {:induction false} CollapseTaken(s: State, acts: seq<Action>, t: State, p: Pid, raw: Token, user: UserId)
    returns (before: seq<Action>, u: State, after: seq<Action>)
    requires Run(s, acts, t) && p in s.procs && Collapses(s.procs[p], raw, user)
    requires p in t.procs && t.procs[p] == Rotated(raw, Rejected)
    ensures acts == before + [Advance(p)] + after
    ensures Run(s, before, u) && p in u.procs && u.procs[p] == Collapsing(raw, user)
    ensures Run(Apply(u, Advance(p)), after, t)
    decreases |acts|
  {
    var a := acts[0];
    if a == Advance(p) && s.procs[p].Collapsing? {
      assert acts == [] + [a] + acts[1..];
      return [], s, acts[1..];
    }
    if a == Advance(p) {
      CollapsesOn(s, p, raw, user);
    } else if a == Fail(p) {
      OutcomeIsFinal(Apply(s, a), acts[1..], t, p);
      assert false;
    } else {
      OthersStay(s, a, p);
    }
    var rest: seq<Action>;
    rest, u, after := CollapseTaken(Apply(s, a), acts[1..], t, p, raw, user);
    before := [a] + rest;
    assert before[0] == a && before[1..] == rest;
    assert acts == [a] + acts[1..] == before + [Advance(p)] + after;
  }

  // A `rotate` that reads a replaced row and answers `Rejected` has taken its revocation step, for the owner of the
  // row, somewhere in between, whatever ran beside it.
  lemma ReplayIsNoticed(s: State, p: Pid, id: Id, acts: seq<Action>, t: State)
    returns (before: seq<Action>, u: State, after: seq<Action>)
    requires Inv(s) && p in s.procs && s.procs[p].Rotating?
    requires id in s.table && s.table[id].tokenHash == s.procs[p].raw && s.table[id].replacedById.Some?
    requires Run(Progress(s, p), acts, t) && p in t.procs && t.procs[p] == Rotated(s.procs[p].raw, Rejected)
    ensures acts == before + [Advance(p)] + after && Run(Progress(s, p), before, u)
    ensures p in u.procs && u.procs[p] == Collapsing(s.procs[p].raw, s.table[id].userId)
    ensures Run(Apply(u, Advance(p)), after, t)
  {
    assert Find(s.table, s.procs[p].raw) == Some(id);
    before, u, after := CollapseTaken(Progress(s, p), acts, t, p, s.procs[p].raw, s.table[id].userId);
  }

  // A call reaches `Collapsing` only by seeing its token replaced or by losing the compare-and-set, and
  // the user it then revokes is the owner of every row on the chain of that token, the winner's included.
  lemma CollapseNamesTheFamily(s: State, p: Pid, id: Id)
    requires Inv(s) && p in s.procs && s.procs[p].Collapsing?
    requires id in s.table && s.table[id].tokenHash == s.procs[p].raw
    ensures s.table[id].replacedById.Some? && s.table[id].replacedById.value in s.table
    ensures s.table[s.table[id].replacedById.value].userId == s.procs[p].user
    ensures s.table[Head(s.table, id, s.nextId)].userId == s.procs[p].user
  {
    assert ProcOk(s, s.procs[p]);
  }

  // Revoking a user leaves none of its tokens live.
  lemma RevokedIsDead(s: State, p: Pid, id: Id)
    requires TableOk(s) && p in s.procs && s.procs[p].Collapsing?
    requires id in s.table && s.table[id].userId == s.procs[p].user
    ensures !Live(Progress(s, p), s.table[id].tokenHash)
  {
    var raw, t := s.table[id].tokenHash, Progress(s, p);
    forall i | i in t.table && t.table[i].tokenHash == raw
      ensures t.table[i].revokedAt.Some?
    {
      assert s.table[i].tokenHash == raw;
      assert i == id;
    }
  }

  lemma CollapseBars(s: State, p: Pid, q: Pid, id: Id)
    requires Inv(s) && p in s.procs && s.procs[p].Collapsing?
    requires id in s.table && s.table[id].userId == s.procs[p].user
    requires q in s.procs ==> s.procs[q].Rotating?
    ensures Barred(Apply(s, Advance(p)), s.table[id].tokenHash, q)
  {
    RevokedIsDead(s, p, id);
    if q in s.procs {
      OthersStay(s, Advance(p), q);
    }
  }

  // Replay collapse: once a replayed token has revoked its user, no token of that user stored by then,
  // the race winner's successor included, is ever exchanged by a `rotate` that reads afterwards.
  lemma ReplayCollapse(s: State, p: Pid, acts: seq<Action>, t: State, q: Pid, id: Id)
    requires Inv(s) && p in s.procs && s.procs[p].Collapsing?
    requires Run(Apply(s, Advance(p)), acts, t)
    requires id in s.table && s.table[id].userId == s.procs[p].user
    requires q in s.procs ==> s.procs[q].Rotating?
    ensures !Wins(t, q, s.table[id].tokenHash)
  {
    CollapseBars(s, p, q, id);
    StepKeepsInv(s, Advance(p));
    BarredNeverWins(Apply(s, Advance(p)), acts, t, s.table[id].tokenHash, q);
  }
}
