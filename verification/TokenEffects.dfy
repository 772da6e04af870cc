// What each step of a token call does to the table, row by row, and what a whole call leaves behind
// (src/auth/token/token.service.ts, src/auth/token/refresh-token.repository.ts).
module TokenEffects {
  import opened Options
  import opened RefreshTokens
  import opened TokenRotation
  import opened TokenTheorems

  // ---------- One step ----------

  // The revocation after a replay stamps the user's rows and leaves all others alone.
  lemma CollapseRevokes(s: State, p: Pid)
    requires p in s.procs && s.procs[p].Collapsing?
    ensures RevokesUser(s.table, Progress(s, p).table, s.procs[p].user, s.clock)
    ensures p in Progress(s, p).procs && Progress(s, p).procs[p] == Rotated(s.procs[p].raw, Rejected)
  {
  }

  // Another user's token that a read would let through still passes.
  lemma CollapseSparesOthers(s: State, p: Pid, raw: Token)
    requires TableOk(s) && p in s.procs && s.procs[p].Collapsing? && Live(s, raw)
    requires forall i :: i in s.table && s.table[i].tokenHash == raw ==> s.table[i].userId != s.procs[p].user
    ensures Live(Progress(s, p), raw)
  {
    var i :| i in s.table && s.table[i].tokenHash == raw
      && s.table[i].replacedById.None? && s.table[i].revokedAt.None? && s.table[i].expiresAt > s.clock;
    assert Progress(s, p).table[i] == s.table[i];
  }

  // A log-out stamps the row it found and leaves all others alone.
  lemma LogoutRevokes(s: State, p: Pid)
    requires p in s.procs && s.procs[p].LogoutFound?
    ensures var t, id := Progress(s, p).table, s.procs[p].id;
            && t.Keys == s.table.Keys
            && (forall i :: i in s.table && i != id ==> t[i] == s.table[i])
            && (id in s.table ==> t[id] == s.table[id].(revokedAt := Some(s.clock)))
  {
  }

  lemma LogoutSparesOthers(s: State, p: Pid, raw: Token)
    requires TableOk(s) && p in s.procs && s.procs[p].LogoutFound? && Live(s, raw)
    requires s.procs[p].id in s.table ==> s.table[s.procs[p].id].tokenHash != raw
    ensures Live(Progress(s, p), raw)
  {
    var i :| i in s.table && s.table[i].tokenHash == raw
      && s.table[i].replacedById.None? && s.table[i].revokedAt.None? && s.table[i].expiresAt > s.clock;
    assert Progress(s, p).table[i] == s.table[i];
  }

  // The row of a log-out is the one it names, and only if it was unrevoked.
  lemma LogoutFinds(s: State, p: Pid)
    requires UniqueHashes(s.table) && p in s.procs && s.procs[p].LoggingOut?
    ensures Progress(s, p).table == s.table && p in Progress(s, p).procs
    ensures forall i :: i in s.table && s.table[i].tokenHash == s.procs[p].raw ==>
              Progress(s, p).procs[p] == if s.table[i].revokedAt.None? then LogoutFound(i) else LoggedOut
    ensures (forall i :: i in s.table ==> s.table[i].tokenHash != s.procs[p].raw) ==>
              Progress(s, p).procs[p] == LoggedOut
  {
    var found := Find(s.table, s.procs[p].raw);
    assert found.Some? ==> s.table[found.value].tokenHash == s.procs[p].raw;
  }

  // A won exchange adds the successor, marks the row it replaces, and leaves all others alone.
  lemma ExchangeStores(s: State, p: Pid)
    requires TableOk(s) && p in s.procs && s.procs[p].Minted?
    requires s.procs[p].id in s.table && s.table[s.procs[p].id].replacedById.None?
    ensures var pc, t, n := s.procs[p], Progress(s, p).table, s.nextId;
            && t.Keys == s.table.Keys + {n} && n !in s.table
            && (forall i :: i in s.table && i != pc.id ==> t[i] == s.table[i])
            && t[pc.id] == s.table[pc.id].(replacedById := Some(n))
            && t[n] == Row(pc.user, pc.minted, pc.expiresAt, None, None)
  {
  }

  // A new session adds its row, the user's own, and leaves all others alone.
  lemma OpeningStores(s: State, p: Pid)
    requires TableOk(s) && p in s.procs && s.procs[p].OpeningMinted?
    ensures var pc, t, n := s.procs[p], Progress(s, p).table, s.nextId;
            && t.Keys == s.table.Keys + {n} && n !in s.table
            && (forall i :: i in s.table ==> t[i] == s.table[i])
            && t[n] == Row(pc.user, pc.minted, pc.expiresAt, None, None)
  {
  }

  // All other steps of calls leave the table as it is.
  lemma OthersChangeNothing(s: State, a: Action)
    requires Enabled(s, a)
    requires a.Advance? ==>
               var pc := s.procs[a.p];
               !pc.Collapsing? && !pc.LogoutFound? && !pc.OpeningMinted? && (pc.Minted? ==> !Unused(s.table, pc.id))
    requires !a.Reap?
    ensures Apply(s, a).table == s.table
  {
  }

  // The cron keeps exactly what has not expired before its cutoff, as it is.
  lemma CronKeeps(s: State, cutoff: Time)
    requires cutoff <= s.clock
    ensures var t := Apply(s, Reap(cutoff)).table;
            && (forall i :: i in t <==> i in s.table && s.table[i].expiresAt >= cutoff)
            && (forall i :: i in t ==> t[i] == s.table[i])
  {
  }

  // ---------- Answers ----------

  // The read rejects exactly a token that no row carries.
  lemma ReadRejectsIff(s: State, p: Pid)
    requires p in s.procs && s.procs[p].Rotating?
    ensures p in Progress(s, p).procs
    ensures var pc, next := s.procs[p], Progress(s, p).procs[p];
            if exists i :: i in s.table && s.table[i].tokenHash == pc.raw
            then next.Checking? && next.raw == pc.raw && next.id in s.table && next.seen == s.table[next.id]
                 && next.seen.tokenHash == pc.raw
            else next == Rotated(pc.raw, Rejected)
  {
  }

  // The check goes to the revocation exactly for a replaced row, and rejects, without it, exactly a row that is not
  // replaced and is revoked or has expired.
  lemma CheckAnswers(s: State, p: Pid)
    requires p in s.procs && s.procs[p].Checking?
    ensures p in Progress(s, p).procs
    ensures var pc, next := s.procs[p], Progress(s, p).procs[p];
            && (next == Collapsing(pc.raw, pc.seen.userId) <==> pc.seen.replacedById.Some?)
            && (next == Rotated(pc.raw, Rejected) <==>
                  pc.seen.replacedById.None? && (pc.seen.revokedAt.Some? || pc.seen.expiresAt <= s.clock))
            && (next == Approved(pc.raw, pc.id, pc.seen.userId) <==>
                  pc.seen.replacedById.None? && pc.seen.revokedAt.None? && pc.seen.expiresAt > s.clock)
  {
  }

  // An error is answered as such, and ends the call.
  lemma FailureAnswers(s: State, p: Pid)
    requires Enabled(s, Fail(p))
    ensures p in Apply(s, Fail(p)).procs
    ensures var pc, next := s.procs[p], Apply(s, Fail(p)).procs[p];
            && (IsRotation(s, p) ==> next == Rotated(pc.raw, Failed))
            && (pc.Opening? || pc.OpeningMinted? ==> next == Opened(Failed))
            && (pc.LoggingOut? || pc.LogoutFound? ==> next == LoggedOut)
  {
  }

  // ---------- Whole calls ----------

  // A row that lives for the constant lifetime from a moment between `since` and `now`.
  predicate FreshRow(row: Row, user: UserId, token: Token, ttl: nat, since: Time, now: Time) {
    && row.userId == user && row.tokenHash == token && row.revokedAt.None? && row.replacedById.None?
    && since + ttl <= row.expiresAt <= now + ttl
  }

  // The minted expiry of a call.
  predicate MintedSince(s: State, pc: Proc, since: Time) {
    pc.Minted? || pc.OpeningMinted? ==> since + s.ttl <= pc.expiresAt <= s.clock + s.ttl
  }

  predicate IsOpening(pc: Proc, user: UserId) {
    pc == Opening(user) || (pc.OpeningMinted? && pc.user == user)
  }

  lemma OpeningMoves(s: State, a: Action, p: Pid, user: UserId, since: Time)
    requires Enabled(s, a) && p in s.procs && IsOpening(s.procs[p], user) && MintedSince(s, s.procs[p], since)
    requires since <= s.clock && Later(s, Apply(s, a))
    requires a == Advance(p) ==> !s.procs[p].OpeningMinted?
    ensures p in Apply(s, a).procs
    ensures if a == Fail(p) then Apply(s, a).procs[p] == Opened(Failed)
            else IsOpening(Apply(s, a).procs[p], user) && MintedSince(Apply(s, a), Apply(s, a).procs[p], since)
  {
    if a != Advance(p) && a != Fail(p) {
      OthersStay(s, a, p);
    }
  }

  // A call that opens a session for a user and answers a token has stored, in one step, one row: that user's, for
  // that token, with the whole lifetime from some moment of the call.
  lemma {:induction false} IssueStores(s: State, acts: seq<Action>, t: State, p: Pid, user: UserId,
                                       token: Token, since: Time)
    returns (u: State)
    requires Inv(s) && Run(s, acts, t) && p in s.procs && p in t.procs && t.procs[p] == Opened(Issued(token))
    requires IsOpening(s.procs[p], user) && MintedSince(s, s.procs[p], since) && since <= s.clock
    ensures Reaches(s, u) && Inv(u) && p in u.procs && u.procs[p].OpeningMinted?
    ensures var u1, n := Progress(u, p), u.nextId;
            && Reaches(u1, t) && u1.table.Keys == u.table.Keys + {n} && n !in u.table
            && (forall i :: i in u.table ==> u1.table[i] == u.table[i])
            && FreshRow(u1.table[n], user, token, s.ttl, since, u.clock)
    decreases |acts|
  {
    var a, s1 := acts[0], Apply(s, acts[0]);
    if a == Advance(p) && s.procs[p].OpeningMinted? {
      u := s;
      ReachesSelf(s);
      OpeningStores(s, p);
      OutcomeIsFinal(s1, acts[1..], t, p);
      assert Run(s1, acts[1..], t);
    } else {
      StepKeepsInv(s, a);
      StepIsLater(s, a);
      OpeningMoves(s, a, p, user, since);
      if a == Fail(p) {
        OutcomeIsFinal(s1, acts[1..], t, p);
        assert false;
      }
      u := IssueStores(s1, acts[1..], t, p, user, token, since);
      ReachesBefore(s, a, u);
    }
  }

  lemma ReachesBefore(s: State, a: Action, t: State)
    requires Enabled(s, a) && Reaches(Apply(s, a), t)
    ensures Reaches(s, t)
  {
    var acts :| Run(Apply(s, a), acts, t);
    var all := [a] + acts;
    assert all[0] == a && all[1..] == acts;
    assert Run(s, all, t);
  }

  // A `rotate` past its read of row `id`, which is `user`'s.
  predicate IsExchanging(pc: Proc, raw: Token, id: Id, user: UserId) {
    || (pc.Checking? && pc.raw == raw && pc.id == id && pc.seen.userId == user)
    || pc == Approved(raw, id, user)
    || (pc.Minted? && pc.raw == raw && pc.id == id && pc.user == user)
  }

  predicate NotIssued(pc: Proc) {
    pc.Collapsing? || (pc.Rotated? && !pc.outcome.Issued?)
  }

  lemma ExchangingMoves(s: State, a: Action, p: Pid, raw: Token, id: Id, user: UserId, since: Time)
    requires Enabled(s, a) && p in s.procs && IsExchanging(s.procs[p], raw, id, user)
    requires MintedSince(s, s.procs[p], since) && since <= s.clock && Later(s, Apply(s, a))
    requires a == Advance(p) && s.procs[p].Minted? ==> !Unused(s.table, id)
    ensures p in Apply(s, a).procs
    ensures NotIssued(Apply(s, a).procs[p]) ||
            (IsExchanging(Apply(s, a).procs[p], raw, id, user) && MintedSince(Apply(s, a), Apply(s, a).procs[p], since))
  {
    if a != Advance(p) && a != Fail(p) {
      OthersStay(s, a, p);
    }
  }

  lemma {:induction false} NotIssuedStays(s: State, acts: seq<Action>, t: State, p: Pid)
    requires Run(s, acts, t) && p in s.procs && NotIssued(s.procs[p])
    ensures p in t.procs && NotIssued(t.procs[p])
    decreases |acts|
  {
    if acts != [] {
      if acts[0] != Advance(p) && acts[0] != Fail(p) {
        OthersStay(s, acts[0], p);
      }
      NotIssuedStays(Apply(s, acts[0]), acts[1..], t, p);
    }
  }

  // A `rotate` that answers a token has, in one step, marked the row it had read and stored one row: the same
  // user's, for that token, with the whole lifetime from some moment after the read.
  lemma {:induction false} RotateStores(s: State, acts: seq<Action>, t: State, p: Pid, raw: Token, id: Id, user: UserId,
                                        token: Token, since: Time) returns (u: State)
    requires Inv(s) && Run(s, acts, t) && p in s.procs && p in t.procs && t.procs[p] == Rotated(raw, Issued(token))
    requires IsExchanging(s.procs[p], raw, id, user) && MintedSince(s, s.procs[p], since) && since <= s.clock
    ensures Reaches(s, u) && Inv(u) && p in u.procs && u.procs[p].Minted? && id in u.table
    ensures var u1, n := Progress(u, p), u.nextId;
            && Reaches(u1, t) && u1.table.Keys == u.table.Keys + {n} && n !in u.table
            && (forall i :: i in u.table && i != id ==> u1.table[i] == u.table[i])
            && u.table[id].replacedById.None? && u1.table[id] == u.table[id].(replacedById := Some(n))
            && FreshRow(u1.table[n], user, token, s.ttl, since, u.clock)
    decreases |acts|
  {
    var a, s1 := acts[0], Apply(s, acts[0]);
    if a == Advance(p) && s.procs[p].Minted? && Unused(s.table, id) {
      u := s;
      ReachesSelf(s);
      ExchangeStores(s, p);
      OutcomeIsFinal(s1, acts[1..], t, p);
      assert Run(s1, acts[1..], t);
    } else {
      StepKeepsInv(s, a);
      StepIsLater(s, a);
      ExchangingMoves(s, a, p, raw, id, user, since);
      if NotIssued(s1.procs[p]) {
        NotIssuedStays(s1, acts[1..], t, p);
        assert false;
      }
      u := RotateStores(s1, acts[1..], t, p, raw, id, user, token, since);
      ReachesBefore(s, a, u);
    }
  }

  // A log-out with `raw` never comes to revoke another token's row.
  ghost predicate LogsOut(s: State, pc: Proc, raw: Token) {
    || pc == LoggingOut(raw) || pc == LoggedOut
    || (pc.LogoutFound? && pc.id < s.nextId && (pc.id in s.table ==> s.table[pc.id].tokenHash == raw))
  }

  lemma LogoutMoves(s: State, a: Action, p: Pid, raw: Token)
    requires TableOk(s) && Enabled(s, a) && p in s.procs && LogsOut(s, s.procs[p], raw) && Later(s, Apply(s, a))
    ensures p in Apply(s, a).procs && LogsOut(Apply(s, a), Apply(s, a).procs[p], raw)
  {
    if a != Advance(p) && a != Fail(p) {
      OthersStay(s, a, p);
    } else if a == Advance(p) && s.procs[p].LoggingOut? {
      LogoutFinds(s, p);
    }
  }

  lemma {:induction false} LogoutNamesItsRow(s: State, acts: seq<Action>, t: State, p: Pid, raw: Token)
    requires Inv(s) && Run(s, acts, t) && p in s.procs && LogsOut(s, s.procs[p], raw)
    ensures p in t.procs && LogsOut(t, t.procs[p], raw)
    decreases |acts|
  {
    if acts != [] {
      StepKeepsInv(s, acts[0]);
      StepIsLater(s, acts[0]);
      LogoutMoves(s, acts[0], p, raw);
      LogoutNamesItsRow(Apply(s, acts[0]), acts[1..], t, p, raw);
    }
  }
}
