// Refresh-token rotation as a transition system (src/auth/token/token.service.ts): any number of
// `rotate`, `issueTokens` and `revoke` calls, the expiry cron and the clock, interleaved between any
// two database calls. A committed transaction is one step.
module TokenRotation {
  import opened Options
  import opened RefreshTokens

  type Pid = nat

  datatype Outcome = Issued(token: Token) | Rejected | Failed

  // Where a call stands between two awaits, with the locals it still needs.
  datatype Proc =
    | Rotating(raw: Token)
    | Checking(raw: Token, id: Id, seen: Row)
    | Approved(raw: Token, id: Id, user: UserId)
    | Minted(raw: Token, id: Id, user: UserId, minted: Token, expiresAt: Time)
    | Collapsing(raw: Token, user: UserId)
    | Rotated(raw: Token, outcome: Outcome)
    | Opening(user: UserId)
    | OpeningMinted(user: UserId, minted: Token, expiresAt: Time)
    | Opened(outcome: Outcome)
    | LoggingOut(raw: Token)
    | LogoutFound(id: Id)
    | LoggedOut

  predicate IsCall(pc: Proc) {
    pc.Rotating? || pc.Opening? || pc.LoggingOut?
  }

  predicate Finished(pc: Proc) {
    pc.Rotated? || pc.Opened? || pc.LoggedOut?
  }

  // `everStored`, `issued` and `reaped` are history: the hashes of all rows ever committed, the number
  // of committed `issueTokens` calls, and the unreplaced rows the cron has deleted.
  datatype State = State(
    ttl: nat,
    clock: Time,
    table: Table,
    nextId: Id,
    nextToken: Token,
    procs: map<Pid, Proc>,
    everStored: set<Token>,
    issued: nat,
    reaped: set<Id>)

  datatype Action =
    | Begin(p: Pid, call: Proc)
    | Advance(p: Pid)
    | Fail(p: Pid)
    | Reap(cutoff: Time)
    | Tick(elapsed: nat)

  ghost function Find(t: Table, hash: Token): Option<Id> {
    if exists i :: i in t && t[i].tokenHash == hash
    then var i :| i in t && t[i].tokenHash == hash; Some(i)
    else None
  }

  function Put(s: State, p: Pid, pc: Proc): State {
    s.(procs := s.procs[p := pc])
  }

  function Insert(s: State, user: UserId, minted: Token, expiresAt: Time): State {
    s.(table := s.table[s.nextId := Row(user, minted, expiresAt, None, None)],
       nextId := s.nextId + 1,
       everStored := s.everStored + {minted})
  }

  // The transaction of `rotate`: insert the successor, compare-and-set the old row, roll back on a lost
  // race. The id sequence is not rolled back.
  function CommitRotation(s: State, p: Pid, pc: Proc): State
    requires pc.Minted?
  {
    if Unused(s.table, pc.id) then
      var s1 := Insert(s, pc.user, pc.minted, pc.expiresAt);
      Put(s1.(table := WithReplacement(s1.table, pc.id, s.nextId)), p, Rotated(pc.raw, Issued(pc.minted)))
    else
      Put(s.(nextId := s.nextId + 1), p, Collapsing(pc.raw, pc.user))
  }

  // Calls whose next step reads the table and changes nothing but its own place.
  predicate OnlyReads(pc: Proc) {
    pc.Rotating? || pc.Checking? || pc.LoggingOut?
  }

  ghost function NextRead(s: State, pc: Proc): Proc
    requires OnlyReads(pc)
  {
    match pc
    case Rotating(raw) =>
      (match Find(s.table, raw)
       case None => Rotated(raw, Rejected)
       case Some(i) => Checking(raw, i, s.table[i]))
    case Checking(raw, id, seen) =>
      if seen.replacedById.Some? then Collapsing(raw, seen.userId)
      else if seen.revokedAt.Some? || seen.expiresAt <= s.clock then Rotated(raw, Rejected)
      else Approved(raw, id, seen.userId)
    case LoggingOut(raw) =>
      (match Find(s.table, raw)
       case None => LoggedOut
       case Some(i) => if s.table[i].revokedAt.None? then LogoutFound(i) else LoggedOut)
  }

  // A fresh token and its expiry.
  function Mint(s: State, pc: Proc): Proc
    requires pc.Approved? || pc.Opening?
  {
    if pc.Approved? then Minted(pc.raw, pc.id, pc.user, s.nextToken, s.clock + s.ttl)
    else OpeningMinted(pc.user, s.nextToken, s.clock + s.ttl)
  }

  ghost function Progress(s: State, p: Pid): State
    requires p in s.procs
  {
    var pc := s.procs[p];
    if Finished(pc) then s
    else if OnlyReads(pc) then Put(s, p, NextRead(s, pc))
    else if pc.Approved? || pc.Opening? then Put(s.(nextToken := s.nextToken + 1), p, Mint(s, pc))
    else
      match pc
      case Minted(_, _, _, _, _) => CommitRotation(s, p, pc)
      case OpeningMinted(user, minted, expiresAt) =>
        Put(Insert(s, user, minted, expiresAt).(issued := s.issued + 1), p, Opened(Issued(minted)))
      case Collapsing(raw, user) =>
        Put(s.(table := WithUserRevoked(s.table, user, s.clock)), p, Rotated(raw, Rejected))
      case LogoutFound(id) =>
        Put(if id in s.table then s.(table := s.table[id := s.table[id].(revokedAt := Some(s.clock))]) else s,
            p, LoggedOut)
  }

  // A database error at any call ends it; the transaction in hand, if any, is rolled back.
  function Aborted(pc: Proc): Proc {
    if pc.Opening? || pc.OpeningMinted? || pc.Opened? then Opened(Failed)
    else if pc.LoggingOut? || pc.LogoutFound? || pc.LoggedOut? then LoggedOut
    else Rotated(pc.raw, Failed)
  }

  predicate Enabled(s: State, a: Action) {
    match a
    case Begin(p, call) => p !in s.procs && IsCall(call)
    case Advance(p) => p in s.procs && !Finished(s.procs[p])
    case Fail(p) => p in s.procs && !Finished(s.procs[p])
    case Reap(cutoff) => cutoff <= s.clock
    case Tick(_) => true
  }

  ghost function Apply(s: State, a: Action): State
    requires Enabled(s, a)
  {
    match a
    case Begin(p, call) => Put(s, p, call)
    case Advance(p) => Progress(s, p)
    case Fail(p) => Put(s, p, Aborted(s.procs[p]))
    case Reap(cutoff) =>
      var kept := WithoutExpired(s.table, cutoff);
      s.(table := kept, reaped := s.reaped + (Heads(s.table) - Heads(kept)))
    case Tick(elapsed) => s.(clock := s.clock + elapsed)
  }

  // The unreplaced rows: one per session family that is still stored.
  function Heads(t: Table): set<Id> {
    set i | i in t && t[i].replacedById.None?
  }

  ghost predicate Init(s: State) {
    s.table == map[] && s.procs == map[] && s.everStored == {} && s.issued == 0 && s.reaped == {}
  }

  ghost predicate Run(s: State, acts: seq<Action>, t: State)
    decreases |acts|
  {
    if acts == [] then s == t else Enabled(s, acts[0]) && Run(Apply(s, acts[0]), acts[1..], t)
  }

  // ---------- The inductive invariant ----------

  ghost predicate TableOk(s: State) {
    && UniqueHashes(s.table)
    && (forall t :: t in s.everStored ==> t < s.nextToken)
    && (forall i :: i in s.table ==>
          i < s.nextId && s.table[i].tokenHash in s.everStored && s.table[i].expiresAt <= s.clock + s.ttl)
  }

  // `replacedById` is an injective, id-increasing map between stored rows of one user.
  ghost predicate Chained(t: Table) {
    && (forall i :: i in t && t[i].replacedById.Some? ==>
          var n := t[i].replacedById.value;
          i < n && n in t && t[n].userId == t[i].userId && t[i].expiresAt <= t[n].expiresAt)
    && (forall i, j :: i in t && j in t && t[i].replacedById.Some? && t[i].replacedById == t[j].replacedById ==> i == j)
  }

  // Row `id` is the only one that ever carried the hash of `raw`, and it is `user`'s.
  ghost predicate RowOf(s: State, raw: Token, id: Id, user: UserId) {
    && id < s.nextId
    && raw in s.everStored
    && (id in s.table ==> s.table[id].tokenHash == raw)
    && (forall i :: i in s.table && s.table[i].tokenHash == raw ==> i == id && s.table[i].userId == user)
  }

  ghost predicate Spent(s: State, raw: Token) {
    && raw in s.everStored
    && forall i :: i in s.table && s.table[i].tokenHash == raw ==> s.table[i].replacedById.Some?
  }

  ghost predicate SeenOk(s: State, raw: Token, id: Id, seen: Row) {
    && RowOf(s, raw, id, seen.userId)
    && (id in s.table ==>
          && s.table[id].expiresAt == seen.expiresAt
          && (seen.replacedById.Some? ==> s.table[id].replacedById.Some?)
          && (seen.revokedAt.Some? ==> s.table[id].revokedAt.Some?))
  }

  ghost predicate ProcOk(s: State, pc: Proc) {
    match pc
    case Checking(raw, id, seen) => SeenOk(s, raw, id, seen)
    case Approved(raw, id, user) => RowOf(s, raw, id, user)
    case Minted(raw, id, user, minted, expiresAt) =>
      && RowOf(s, raw, id, user)
      && minted < s.nextToken && minted !in s.everStored
      && expiresAt <= s.clock + s.ttl
      && (id in s.table ==> s.table[id].expiresAt <= expiresAt)
    case Collapsing(raw, user) =>
      && Spent(s, raw)
      && forall i :: i in s.table && s.table[i].tokenHash == raw ==> s.table[i].userId == user
    case Rotated(raw, outcome) => outcome.Issued? ==> Spent(s, raw) && outcome.token in s.everStored
    case OpeningMinted(user, minted, expiresAt) =>
      minted < s.nextToken && minted !in s.everStored && expiresAt <= s.clock + s.ttl
    case LogoutFound(id) => id < s.nextId
    case _ => true
  }

  function FreshOf(pc: Proc): Option<Token> {
    if pc.Minted? || pc.OpeningMinted? then Some(pc.minted) else None
  }

  ghost predicate Wins(s: State, p: Pid, raw: Token) {
    p in s.procs && s.procs[p].Rotated? && s.procs[p].raw == raw && s.procs[p].outcome.Issued?
  }

  ghost predicate ProcsOk(s: State) {
    && (forall p :: p in s.procs ==> ProcOk(s, s.procs[p]))
    && (forall p, q ::
          p in s.procs && q in s.procs && FreshOf(s.procs[p]).Some? && FreshOf(s.procs[p]) == FreshOf(s.procs[q])
          ==> p == q)
  }

  ghost predicate SingleWinners(s: State) {
    forall p, q, raw :: Wins(s, p, raw) && Wins(s, q, raw) ==> p == q
  }

  ghost predicate SessionsConserved(s: State) {
    && (forall i :: i in s.reaped ==> i < s.nextId && i !in s.table)
    && |Heads(s.table)| + |s.reaped| == s.issued
  }

  ghost predicate Inv(s: State) {
    TableOk(s) && Chained(s.table) && ProcsOk(s) && SingleWinners(s) && SessionsConserved(s)
  }

  // ---------- Preservation ----------

  // What every step guarantees to the calls it does not belong to: identities of rows are fixed,
  // replacement and revocation are never undone, ids and hashes are never reused.
  ghost predicate RowGrows(a: Row, b: Row) {
    && a.userId == b.userId && a.tokenHash == b.tokenHash && a.expiresAt == b.expiresAt
    && (a.replacedById.Some? ==> b.replacedById == a.replacedById)
    && (a.revokedAt.Some? ==> b.revokedAt.Some?)
  }

  ghost predicate Later(s: State, t: State) {
    && s.ttl == t.ttl && s.clock <= t.clock && s.nextId <= t.nextId && s.nextToken <= t.nextToken
    && s.everStored <= t.everStored
    && (forall i :: i in t.table && i < s.nextId ==> i in s.table && RowGrows(s.table[i], t.table[i]))
    && (forall i :: i in t.table && s.nextId <= i ==> t.table[i].tokenHash !in s.everStored)
  }

  lemma ProcOkStable(s: State, t: State, pc: Proc)
    requires Later(s, t) && ProcOk(s, pc)
    requires FreshOf(pc).Some? ==> FreshOf(pc).value !in t.everStored
    ensures ProcOk(t, pc)
  {
  }

  lemma CommitIsLater(s: State, p: Pid, pc: Proc)
    requires TableOk(s) && pc.Minted? && ProcOk(s, pc)
    ensures Later(s, CommitRotation(s, p, pc))
  {
  }

  // Tables that differ in `revokedAt` only.
  ghost predicate SameButRevoked(a: Table, b: Table) {
    && a.Keys == b.Keys
    && forall i :: i in a ==> RowGrows(a[i], b[i]) && a[i].replacedById == b[i].replacedById
  }

  lemma RevokingTable(s: State, p: Pid)
    requires p in s.procs && (s.procs[p].Collapsing? || s.procs[p].LogoutFound?)
    ensures SameButRevoked(s.table, Progress(s, p).table)
  {
  }

  lemma ProgressIsLater(s: State, p: Pid)
    requires TableOk(s) && p in s.procs && ProcOk(s, s.procs[p])
    ensures Later(s, Progress(s, p))
  {
    var pc := s.procs[p];
    if pc.Minted? {
      CommitIsLater(s, p, pc);
    } else if pc.Collapsing? || pc.LogoutFound? {
      RevokingTable(s, p);
    } else if !pc.OpeningMinted? {
      assert Progress(s, p).table == s.table;
    }
  }

  lemma StepIsLater(s: State, a: Action)
    requires Inv(s) && Enabled(s, a)
    ensures Later(s, Apply(s, a))
  {
    if a.Advance? {
      assert ProcOk(s, s.procs[a.p]);
      ProgressIsLater(s, a.p);
    }
  }

  // Changing one call's local state keeps every other call's facts.
  lemma ProcsKept(s: State, t: State, p: Pid, pc: Proc)
    requires ProcsOk(s) && Later(s, t) && t.procs == s.procs[p := pc] && ProcOk(t, pc)
    requires FreshOf(pc).Some? ==> FreshOf(pc).value >= s.nextToken
    requires
      || t.everStored == s.everStored
      || (p in s.procs && FreshOf(s.procs[p]).Some? && t.everStored == s.everStored + {FreshOf(s.procs[p]).value})
    ensures ProcsOk(t)
  {
    forall q | q in t.procs
      ensures ProcOk(t, t.procs[q])
    {
      if q != p {
        assert ProcOk(s, s.procs[q]);
        ProcOkStable(s, t, s.procs[q]);
      }
    }
    forall q | q in s.procs && FreshOf(s.procs[q]).Some?
      ensures FreshOf(s.procs[q]).value < s.nextToken
    {
      assert ProcOk(s, s.procs[q]);
    }
  }

  lemma WinnersKept(s: State, t: State, p: Pid, pc: Proc)
    requires SingleWinners(s) && t.procs == s.procs[p := pc]
    requires pc.Rotated? && pc.outcome.Issued? ==> forall q :: !Wins(s, q, pc.raw)
    ensures SingleWinners(t)
  {
    forall q, r, raw | Wins(t, q, raw) && Wins(t, r, raw)
      ensures q == r
    {
      assert q != p ==> Wins(s, q, raw);
      assert r != p ==> Wins(s, r, raw);
    }
  }

  // A step that changes no row and makes no winner.
  lemma QuietStep(s: State, t: State, p: Pid, pc: Proc)
    requires Inv(s) && Later(s, t) && ProcOk(t, pc)
    requires t.procs == s.procs[p := pc] && t.table == s.table && t.everStored == s.everStored
    requires t.issued == s.issued && t.reaped == s.reaped
    requires FreshOf(pc).Some? ==> FreshOf(pc).value >= s.nextToken
    requires !(pc.Rotated? && pc.outcome.Issued?)
    ensures Inv(t)
  {
    ProcsKept(s, t, p, pc);
    WinnersKept(s, t, p, pc);
  }

  lemma ChainExtended(t: Table, id: Id, n: Id, row: Row)
    requires Chained(t) && Unused(t, id) && forall i :: i in t ==> i < n
    requires row.replacedById.None? && row.userId == t[id].userId && t[id].expiresAt <= row.expiresAt
    ensures Chained(WithReplacement(t[n := row], id, n))
  {
  }

  lemma InsertKeepsTable(s: State, user: UserId, minted: Token, expiresAt: Time)
    requires TableOk(s) && minted < s.nextToken && minted !in s.everStored && expiresAt <= s.clock + s.ttl
    ensures TableOk(Insert(s, user, minted, expiresAt))
  {
  }

  // The table a won race leaves.
  lemma WinTable(s: State, p: Pid)
    requires p in s.procs && s.procs[p].Minted? && Unused(s.table, s.procs[p].id)
    ensures var pc := s.procs[p];
            var s1 := Insert(s, pc.user, pc.minted, pc.expiresAt);
            Progress(s, p) ==
            Put(s1.(table := WithReplacement(s1.table, pc.id, s.nextId)), p, Rotated(pc.raw, Issued(pc.minted)))
  {
  }

  lemma ReplacementKeepsTable(s: State, id: Id, n: Id)
    requires TableOk(s)
    ensures TableOk(s.(table := WithReplacement(s.table, id, n)))
  {
  }

  lemma WinKeepsTable(s: State, p: Pid)
    requires TableOk(s) && Chained(s.table)
    requires p in s.procs && s.procs[p].Minted? && ProcOk(s, s.procs[p]) && Unused(s.table, s.procs[p].id)
    ensures var t := Progress(s, p); TableOk(t) && Chained(t.table)
  {
    var pc := s.procs[p];
    WinTable(s, p);
    InsertKeepsTable(s, pc.user, pc.minted, pc.expiresAt);
    ReplacementKeepsTable(Insert(s, pc.user, pc.minted, pc.expiresAt), pc.id, s.nextId);
    ChainExtended(s.table, pc.id, s.nextId, Row(pc.user, pc.minted, pc.expiresAt, None, None));
  }

  lemma WinHeads(t: Table, id: Id, n: Id, row: Row)
    requires Unused(t, id) && n !in t && row.replacedById.None?
    ensures Heads(WithReplacement(t[n := row], id, n)) == Heads(t) - {id} + {n}
    ensures id in Heads(t) && n !in Heads(t)
  {
  }

  lemma WinKeepsSessions(s: State, p: Pid)
    requires TableOk(s) && SessionsConserved(s)
    requires p in s.procs && s.procs[p].Minted? && Unused(s.table, s.procs[p].id)
    ensures SessionsConserved(Progress(s, p))
  {
    var pc := s.procs[p];
    WinTable(s, p);
    WinHeads(s.table, pc.id, s.nextId, Row(pc.user, pc.minted, pc.expiresAt, None, None));
    assert |Heads(s.table) - {pc.id} + {s.nextId}| == |Heads(s.table)|;
  }

  // A token already spent has no unreplaced row left to win with.
  lemma FirstWin(s: State, p: Pid, q: Pid)
    requires ProcsOk(s) && p in s.procs && s.procs[p].Minted? && Wins(s, q, s.procs[p].raw)
    ensures !Unused(s.table, s.procs[p].id)
  {
    assert ProcOk(s, s.procs[p]) && ProcOk(s, s.procs[q]);
  }

  lemma WinKeepsProcs(s: State, p: Pid)
    requires Inv(s) && p in s.procs && s.procs[p].Minted? && Unused(s.table, s.procs[p].id)
    ensures var t := Progress(s, p); ProcsOk(t) && SingleWinners(t)
  {
    var pc, t := s.procs[p], Progress(s, p);
    assert ProcOk(s, pc);
    CommitIsLater(s, p, pc);
    ProcsKept(s, t, p, Rotated(pc.raw, Issued(pc.minted)));
    forall q | Wins(s, q, pc.raw)
      ensures false
    {
      FirstWin(s, p, q);
    }
    WinnersKept(s, t, p, Rotated(pc.raw, Issued(pc.minted)));
  }

  lemma ChainGrown(t: Table, n: Id, row: Row)
    requires Chained(t) && n !in t && row.replacedById.None?
    ensures Chained(t[n := row])
  {
  }

  lemma OpenKeepsSessions(s: State, user: UserId, minted: Token, expiresAt: Time)
    requires TableOk(s) && SessionsConserved(s)
    ensures SessionsConserved(Insert(s, user, minted, expiresAt).(issued := s.issued + 1))
  {
    var t := Insert(s, user, minted, expiresAt);
    assert Heads(t.table) == Heads(s.table) + {s.nextId};
  }

  lemma OpenKeepsInv(s: State, p: Pid)
    requires Inv(s) && p in s.procs && s.procs[p].OpeningMinted?
    ensures Inv(Progress(s, p))
  {
    var pc, t := s.procs[p], Progress(s, p);
    assert ProcOk(s, pc);
    ProgressIsLater(s, p);
    InsertKeepsTable(s, pc.user, pc.minted, pc.expiresAt);
    ChainGrown(s.table, s.nextId, Row(pc.user, pc.minted, pc.expiresAt, None, None));
    OpenKeepsSessions(s, pc.user, pc.minted, pc.expiresAt);
    ProcsKept(s, t, p, Opened(Issued(pc.minted)));
    WinnersKept(s, t, p, Opened(Issued(pc.minted)));
  }

  // Revocation, of one row or of all rows of a user, leaves the chain and the heads alone.
  lemma RevokingKeepsTable(s: State, t: State)
    requires TableOk(s) && Chained(s.table) && SessionsConserved(s)
    requires SameButRevoked(s.table, t.table) && t == s.(table := t.table, procs := t.procs)
    ensures TableOk(t) && Chained(t.table) && SessionsConserved(t)
  {
    assert Heads(t.table) == Heads(s.table);
  }

  lemma ProgressKeepsInv(s: State, p: Pid)
    requires Inv(s) && p in s.procs
    ensures Inv(Progress(s, p))
  {
    var pc, t := s.procs[p], Progress(s, p);
    assert ProcOk(s, pc);
    ProgressIsLater(s, p);
    if Finished(pc) {
    } else if pc.Minted? && Unused(s.table, pc.id) {
      WinKeepsTable(s, p);
      WinKeepsSessions(s, p);
      WinKeepsProcs(s, p);
    } else if pc.OpeningMinted? {
      OpenKeepsInv(s, p);
    } else if pc.Collapsing? || pc.LogoutFound? {
      RevokingTable(s, p);
      RevokingKeepsTable(s, t);
      ProcsKept(s, t, p, t.procs[p]);
      WinnersKept(s, t, p, t.procs[p]);
    } else if pc.Minted? {
      LossKeepsInv(s, p);
    } else {
      QuietProgress(s, p);
    }
  }

  lemma ReadProcOk(s: State, pc: Proc)
    requires TableOk(s) && OnlyReads(pc) && ProcOk(s, pc)
    ensures ProcOk(s, NextRead(s, pc)) && FreshOf(NextRead(s, pc)).None?
    ensures !(NextRead(s, pc).Rotated? && NextRead(s, pc).outcome.Issued?)
  {
  }

  lemma MintProcOk(s: State, pc: Proc)
    requires TableOk(s) && (pc.Approved? || pc.Opening?) && ProcOk(s, pc)
    ensures ProcOk(s.(nextToken := s.nextToken + 1), Mint(s, pc)) && FreshOf(Mint(s, pc)) == Some(s.nextToken)
  {
  }

  // A step that commits nothing.
  lemma QuietProgress(s: State, p: Pid)
    requires Inv(s) && p in s.procs
    requires OnlyReads(s.procs[p]) || s.procs[p].Approved? || s.procs[p].Opening?
    ensures Inv(Progress(s, p))
  {
    var pc, t := s.procs[p], Progress(s, p);
    assert ProcOk(s, pc);
    ProgressIsLater(s, p);
    if OnlyReads(pc) {
      ReadProcOk(s, pc);
      QuietStep(s, t, p, NextRead(s, pc));
    } else {
      MintProcOk(s, pc);
      QuietStep(s, t, p, Mint(s, pc));
    }
  }

  // A lost race: the transaction is rolled back, but for the id it drew.
  lemma LossKeepsInv(s: State, p: Pid)
    requires Inv(s) && p in s.procs && s.procs[p].Minted? && !Unused(s.table, s.procs[p].id)
    ensures Inv(Progress(s, p))
  {
    var pc := s.procs[p];
    assert ProcOk(s, pc);
    ProgressIsLater(s, p);
    QuietStep(s, Progress(s, p), p, Collapsing(pc.raw, pc.user));
  }

  // The cron removes whole prefixes of chains: a successor never expires before its predecessor.
  lemma ReapKeepsChain(t: Table, cutoff: Time)
    requires Chained(t)
    ensures Chained(WithoutExpired(t, cutoff))
  {
  }

  lemma ReapKeepsSessions(s: State, cutoff: Time)
    requires TableOk(s) && SessionsConserved(s) && cutoff <= s.clock
    ensures SessionsConserved(Apply(s, Reap(cutoff)))
  {
    var kept := WithoutExpired(s.table, cutoff);
    var gone := Heads(s.table) - Heads(kept);
    assert Heads(s.table) == Heads(kept) + gone;
    assert s.reaped !! gone;
  }

  // The cron and the clock touch no call's locals.
  lemma BackgroundKeepsProcs(s: State, t: State)
    requires ProcsOk(s) && SingleWinners(s) && Later(s, t) && t.procs == s.procs && t.everStored == s.everStored
    ensures ProcsOk(t) && SingleWinners(t)
  {
    forall p | p in t.procs
      ensures ProcOk(t, t.procs[p])
    {
      assert ProcOk(s, s.procs[p]);
      ProcOkStable(s, t, s.procs[p]);
    }
    forall q, r, raw | Wins(t, q, raw) && Wins(t, r, raw)
      ensures q == r
    {
      assert Wins(s, q, raw) && Wins(s, r, raw);
    }
  }

  lemma AbortedOk(s: State, pc: Proc)
    requires !Finished(pc)
    ensures ProcOk(s, Aborted(pc)) && FreshOf(Aborted(pc)).None?
    ensures !(Aborted(pc).Rotated? && Aborted(pc).outcome.Issued?)
  {
  }

  lemma CallStepKeepsInv(s: State, a: Action)
    requires Inv(s) && Enabled(s, a) && (a.Begin? || a.Fail?) && Later(s, Apply(s, a))
    ensures Inv(Apply(s, a))
  {
    if a.Begin? {
      QuietStep(s, Apply(s, a), a.p, a.call);
    } else {
      AbortedOk(Apply(s, a), s.procs[a.p]);
      QuietStep(s, Apply(s, a), a.p, Aborted(s.procs[a.p]));
    }
  }

  lemma BackgroundKeepsInv(s: State, a: Action)
    requires Inv(s) && Enabled(s, a) && (a.Reap? || a.Tick?) && Later(s, Apply(s, a))
    ensures Inv(Apply(s, a))
  {
    if a.Reap? {
      ReapKeepsChain(s.table, a.cutoff);
      ReapKeepsSessions(s, a.cutoff);
    }
    BackgroundKeepsProcs(s, Apply(s, a));
  }

  lemma StepKeepsInv(s: State, a: Action)
    requires Inv(s) && Enabled(s, a)
    ensures Inv(Apply(s, a))
  {
    StepIsLater(s, a);
    if a.Advance? {
      ProgressKeepsInv(s, a.p);
    } else if a.Begin? || a.Fail? {
      CallStepKeepsInv(s, a);
    } else {
      BackgroundKeepsInv(s, a);
    }
  }
}
