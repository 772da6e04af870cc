// Provider sign-in as a transition system (src/auth/account/account-resolver.service.ts,
// src/auth/account-linking/provider-link.service.ts and pending-provider-link.repository.ts): any number of
// `resolve` and `confirm` calls, registrations, the cleanup and the clock, interleaved between any two SQL
// statements. What a transaction deletes or inserts becomes visible at its commit.
module LinkProtocol {
  import opened Options
  import opened ProviderLinks

  type Pid = nat

  datatype Identity = Identity(key: Key, email: Text, emailVerified: bool)

  // `requestLink` in flight: the identity that asked, the account it would join, and the `now` it read.
  datatype Ask = Ask(identity: Identity, user: UserId, token: Token, now: Time) {
    function Row(): Pending {
      Pending(user, identity.key, token, now + LINK_TTL_MS, now)
    }
  }

  // `confirm` in flight: the token, the `now` it read, and the row it found.
  datatype Claim = Claim(token: Token, now: Time, id: Id, row: Pending)

  datatype Outcome =
    | Account(key: Key, user: UserId)
    | Unverified
    | Issued(id: Id)
    | Cooldown(id: Id)
    | Unavailable
    | Confirmed(claim: Claim)
    | AlreadyConfirmed(claim: Claim)
    | LinkConflict(claim: Claim)
    | BadToken
    | Failed

  datatype Proc =
    | Lookup(identity: Identity)
    | ByEmail(identity: Identity)
    | CreatingAccount(identity: Identity)
    | Requesting(identity: Identity, user: UserId)
    | FindingExisting(ask: Ask)
    | Deleting(ask: Ask)
    | Inserting(ask: Ask, doomed: set<Id>)
    | Rechecking(ask: Ask)
    | Enqueueing(ask: Ask, id: Id)
    | Compensating(ask: Ask, id: Id)
    | Confirming(token: Token)
    | FindingValid(token: Token, now: Time)
    | Claiming(claim: Claim)
    | LookingUp(claim: Claim, claimed: bool)
    | Linking(claim: Claim)
    | Raced(claim: Claim)
    | Done(outcome: Outcome)

  predicate IsCall(pc: Proc) {
    pc.Lookup? || pc.Confirming?
  }

  // Inside `confirm`.
  predicate IsConfirm(pc: Proc) {
    pc.Confirming? || pc.FindingValid? || pc.Claiming? || pc.LookingUp? || pc.Linking? || pc.Raced?
  }

  // How a link came to be.
  datatype Origin = Born(user: UserId) | ByConfirm(p: Pid, claim: Claim)

  // `births`, `asks` and `origins` are history: with which link, if any, an account was created; the request
  // behind every token; how every link came to be.
  datatype State = State(
    clock: Time,
    users: map<Text, UserId>,
    links: LinkTable,
    pending: PendingTable,
    nextUser: UserId,
    nextPending: Id,
    nextToken: Token,
    procs: map<Pid, Proc>,
    births: map<UserId, Option<Key>>,
    asks: map<Token, Ask>,
    origins: map<Key, Origin>)

  // `pick` is the database's choice among equally new rows; it matters to the two newest-first reads only.
  datatype Action =
    | Begin(p: Pid, call: Proc)
    | Advance(p: Pid, pick: Id)
    | Fail(p: Pid)
    | Register(email: Text)
    | Cleanup(cutoff: Time)
    | Tick(elapsed: nat)

  function Put(s: State, p: Pid, pc: Proc): State {
    s.(procs := s.procs[p := pc])
  }

  // ---------- resolve ----------

  function CreateUser(s: State, email: Text, born: Option<Key>): State {
    s.(users := s.users[email := s.nextUser], nextUser := s.nextUser + 1, births := s.births[s.nextUser := born])
  }

  // One transaction for the user and its link; either unique index aborts both.
  function CreateAccount(s: State, p: Pid, identity: Identity): State {
    if identity.email in s.users || identity.key in s.links then
      Put(s.(nextUser := s.nextUser + 1), p, Done(Failed))
    else
      var t := CreateUser(s, identity.email, Some(identity.key));
      Put(t.(links := t.links[identity.key := s.nextUser], origins := t.origins[identity.key := Born(s.nextUser)]),
          p, Done(Account(identity.key, s.nextUser)))
  }

  // ---------- requestLink ----------

  function StartAsk(s: State, p: Pid, identity: Identity, user: UserId): State {
    var ask := Ask(identity, user, s.nextToken, s.clock);
    Put(s.(nextToken := s.nextToken + 1, asks := s.asks[s.nextToken := ask]), p, FindingExisting(ask))
  }

  function AfterCooldown(rows: PendingTable, ask: Ask, pick: Id): Proc
    requires Matching(rows, ask.user, ask.identity.key) != {} ==> pick in rows
  {
    if Matching(rows, ask.user, ask.identity.key) != {}
       && ask.now - rows[pick].createdAt < PENDING_LINK_RESEND_COOLDOWN_MS
    then Done(Cooldown(pick)) else Deleting(ask)
  }

  function CheckCooldown(s: State, p: Pid, ask: Ask, pick: Id): State
    requires Matching(s.pending, ask.user, ask.identity.key) != {} ==> pick in s.pending
  {
    Put(s, p, AfterCooldown(s.pending, ask, pick))
  }

  predicate Blocked(t: PendingTable, doomed: set<Id>, row: Pending) {
    exists i :: i in t && i !in doomed && Clash(t[i], row)
  }

  function CommitIssue(s: State, p: Pid, ask: Ask, doomed: set<Id>): State {
    var t := s.(nextPending := s.nextPending + 1);
    if Blocked(s.pending, doomed, ask.Row()) then Put(t, p, Rechecking(ask))
    else Put(t.(pending := (s.pending - doomed)[s.nextPending := ask.Row()]), p, Enqueueing(ask, s.nextPending))
  }

  function Compensate(s: State, p: Pid, ask: Ask, id: Id): State {
    Put(if id in s.pending && s.pending[id].tokenHash == ask.token then s.(pending := s.pending - {id}) else s,
        p, Done(Unavailable))
  }

  // ---------- confirm ----------

  ghost function FindClaim(t: PendingTable, token: Token, now: Time): Proc {
    match FindClaimable(t, token, now)
    case None => Done(BadToken)
    case Some(i) => Claiming(Claim(token, now, i, t[i]))
  }

  function AfterLookUp(links: LinkTable, claim: Claim, claimed: bool): Proc {
    if claim.row.key in links then
      if links[claim.row.key] == claim.row.userId then Done(AlreadyConfirmed(claim)) else Done(LinkConflict(claim))
    else if claimed then Linking(claim)
    else Done(BadToken)
  }

  // The transaction commits its claim if it ends here with `already-confirmed`, and rolls it back if it throws.
  function LookUpLink(s: State, p: Pid, claim: Claim, claimed: bool): State {
    var pc := AfterLookUp(s.links, claim, claimed);
    Put(if claimed && pc == Done(AlreadyConfirmed(claim)) then s.(pending := s.pending - {claim.id}) else s, p, pc)
  }

  function CommitLink(s: State, p: Pid, claim: Claim): State {
    if claim.row.key in s.links then Put(s, p, Raced(claim))
    else
      Put(s.(links := s.links[claim.row.key := claim.row.userId],
             pending := s.pending - {claim.id},
             origins := s.origins[claim.row.key := ByConfirm(p, claim)]),
          p, Done(Confirmed(claim)))
  }

  function AfterRace(links: LinkTable, claim: Claim): Proc {
    Done(if claim.row.key in links && links[claim.row.key] == claim.row.userId then AlreadyConfirmed(claim)
         else LinkConflict(claim))
  }

  function Reread(s: State, p: Pid, claim: Claim): State {
    Put(s, p, AfterRace(s.links, claim))
  }

  // ---------- steps ----------

  predicate PickOk(s: State, pc: Proc, pick: Id) {
    pc.FindingExisting? || pc.Rechecking? ==>
      Matching(s.pending, pc.ask.user, pc.ask.identity.key) != {} ==>
        IsNewest(s.pending, pc.ask.user, pc.ask.identity.key, pick)
  }

  predicate Enabled(s: State, a: Action) {
    match a
    case Begin(p, call) => p !in s.procs && IsCall(call)
    case Advance(p, pick) => p in s.procs && !s.procs[p].Done? && PickOk(s, s.procs[p], pick)
    case Fail(p) => p in s.procs && !s.procs[p].Done?
    case Register(email) => email !in s.users
    case Cleanup(cutoff) => cutoff <= s.clock
    case Tick(_) => true
  }

  // Calls whose next step reads the tables and changes nothing but its own place.
  predicate OnlyReads(pc: Proc) {
    pc.Lookup? || pc.ByEmail? || pc.FindingExisting? || pc.Deleting? || pc.Rechecking? || pc.Enqueueing?
    || pc.Confirming? || pc.FindingValid? || pc.Claiming? || pc.Raced? || pc.Done?
  }

  ghost function NextRead(s: State, pc: Proc, pick: Id): Proc
    requires OnlyReads(pc) && PickOk(s, pc, pick)
  {
    match pc
    case Lookup(identity) =>
      if identity.key in s.links then Done(Account(identity.key, s.links[identity.key])) else ByEmail(identity)
    case ByEmail(identity) =>
      if identity.email !in s.users then CreatingAccount(identity)
      else if !identity.emailVerified then Done(Unverified)
      else Requesting(identity, s.users[identity.email])
    case FindingExisting(ask) => AfterCooldown(s.pending, ask, pick)
    case Deleting(ask) => Inserting(ask, Matching(s.pending, ask.user, ask.identity.key))
    case Rechecking(ask) =>
      Done(if Matching(s.pending, ask.user, ask.identity.key) != {} then Cooldown(pick) else Failed)
    case Enqueueing(ask, id) => Done(Issued(id))
    case Confirming(token) => FindingValid(token, s.clock)
    case FindingValid(token, now) => FindClaim(s.pending, token, now)
    case Claiming(claim) => LookingUp(claim, Claimable(s.pending, claim.id, claim.token, claim.now))
    case Raced(claim) => AfterRace(s.links, claim)
    case Done(_) => pc
  }

  ghost function Progress(s: State, p: Pid, pick: Id): State
    requires Enabled(s, Advance(p, pick))
  {
    var pc := s.procs[p];
    if OnlyReads(pc) then Put(s, p, NextRead(s, pc, pick))
    else
      match pc
      case CreatingAccount(identity) => CreateAccount(s, p, identity)
      case Requesting(identity, user) => StartAsk(s, p, identity, user)
      case Inserting(ask, doomed) => CommitIssue(s, p, ask, doomed)
      case Compensating(ask, id) => Compensate(s, p, ask, id)
      case LookingUp(claim, claimed) => LookUpLink(s, p, claim, claimed)
      case Linking(claim) => CommitLink(s, p, claim)
  }

  // A failed enqueue is compensated, a failed compensation only logged; any other error rolls back and ends
  // the call.
  function Aborted(pc: Proc): Proc {
    match pc
    case Enqueueing(ask, id) => Compensating(ask, id)
    case Compensating(_, _) => Done(Unavailable)
    case _ => Done(Failed)
  }

  ghost function Apply(s: State, a: Action): State
    requires Enabled(s, a)
  {
    match a
    case Begin(p, call) => Put(s, p, call)
    case Advance(p, pick) => Progress(s, p, pick)
    case Fail(p) => Put(s, p, Aborted(s.procs[p]))
    case Register(email) => CreateUser(s, email, None)
    case Cleanup(cutoff) => s.(pending := Unexpired(s.pending, cutoff))
    case Tick(elapsed) => s.(clock := s.clock + elapsed)
  }

  // The unique index on `tokenHash` leaves the read no choice.
  lemma FoundIs(rows: PendingTable, token: Token, now: Time, i: Id)
    requires UniqueKeys(rows) && Claimable(rows, i, token, now)
    ensures FindClaim(rows, token, now) == Claiming(Claim(token, now, i, rows[i]))
  {
  }

  // ---------- the transactions as updates ----------

  lemma CreatingStep(s: State, p: Pid, pick: Id)
    requires Enabled(s, Advance(p, pick)) && s.procs[p].CreatingAccount?
    ensures Progress(s, p, pick) == CreateAccount(s, p, s.procs[p].identity)
  {
  }

  lemma RequestingStep(s: State, p: Pid, pick: Id)
    requires Enabled(s, Advance(p, pick)) && s.procs[p].Requesting?
    ensures Progress(s, p, pick) == StartAsk(s, p, s.procs[p].identity, s.procs[p].user)
  {
  }

  lemma InsertingStep(s: State, p: Pid, pick: Id)
    requires Enabled(s, Advance(p, pick)) && s.procs[p].Inserting?
    ensures Progress(s, p, pick) == CommitIssue(s, p, s.procs[p].ask, s.procs[p].doomed)
  {
  }

  lemma LookingUpStep(s: State, p: Pid, pick: Id)
    requires Enabled(s, Advance(p, pick)) && s.procs[p].LookingUp?
    ensures Progress(s, p, pick) == LookUpLink(s, p, s.procs[p].claim, s.procs[p].claimed)
  {
  }

  lemma LinkingStep(s: State, p: Pid, pick: Id)
    requires Enabled(s, Advance(p, pick)) && s.procs[p].Linking?
    ensures Progress(s, p, pick) == CommitLink(s, p, s.procs[p].claim)
  {
  }

  lemma IssueAs(s: State, p: Pid, ask: Ask, doomed: set<Id>)
    ensures var next := s.(nextPending := s.nextPending + 1);
            CommitIssue(s, p, ask, doomed) ==
            if Blocked(s.pending, doomed, ask.Row()) then Put(next, p, Rechecking(ask))
            else Put(next.(pending := (s.pending - doomed)[s.nextPending := ask.Row()]),
                     p, Enqueueing(ask, s.nextPending))
  {
  }

  predicate OwnedBy(rows: PendingTable, id: Id, token: Token) {
    id in rows && rows[id].tokenHash == token
  }

  lemma CompensateAs(s: State, p: Pid, ask: Ask, id: Id)
    ensures Compensate(s, p, ask, id) ==
            Put(s.(pending := if OwnedBy(s.pending, id, ask.token) then s.pending - {id} else s.pending),
                p, Done(Unavailable))
  {
  }

  lemma LookUpAs(s: State, p: Pid, claim: Claim, claimed: bool)
    ensures var goes := claimed && LinkedTo(s.links, claim.row.key, claim.row.userId);
            LookUpLink(s, p, claim, claimed) ==
            Put(s.(pending := if goes then s.pending - {claim.id} else s.pending),
                p, AfterLookUp(s.links, claim, claimed))
  {
  }

  ghost predicate Init(s: State) {
    && s.users == map[] && s.links == map[] && s.pending == map[] && s.procs == map[]
    && s.births == map[] && s.asks == map[] && s.origins == map[]
  }

  ghost predicate Run(s: State, acts: seq<Action>, t: State)
    decreases |acts|
  {
    if acts == [] then s == t else Enabled(s, acts[0]) && Run(Apply(s, acts[0]), acts[1..], t)
  }

  // ---------- The inductive invariant ----------

  ghost predicate UsersOk(users: map<Text, UserId>, births: map<UserId, Option<Key>>, nextUser: UserId) {
    && (forall e :: e in users ==> users[e] < nextUser)
    && (forall e, f :: e in users && f in users && users[e] == users[f] ==> e == f)
    && (forall u :: u in births ==> u < nextUser)
  }

  // A request is made only for an identity whose provider verified the very email of the account.
  ghost predicate EntitledTo(users: map<Text, UserId>, identity: Identity, user: UserId) {
    identity.emailVerified && identity.email in users && users[identity.email] == user
  }

  ghost predicate AsksOk(asks: map<Token, Ask>, users: map<Text, UserId>, nextToken: Token) {
    forall k :: k in asks ==> k < nextToken && asks[k].token == k && EntitledTo(users, asks[k].identity, asks[k].user)
  }

  ghost predicate AskOk(asks: map<Token, Ask>, ask: Ask) {
    ask.token in asks && asks[ask.token] == ask
  }

  ghost predicate Asked(asks: map<Token, Ask>, row: Pending) {
    row.tokenHash in asks && row == asks[row.tokenHash].Row()
  }

  ghost predicate PendingOk(pending: PendingTable, asks: map<Token, Ask>, nextPending: Id) {
    && UniqueKeys(pending)
    && forall i :: i in pending ==> i < nextPending && Asked(asks, pending[i])
  }

  ghost predicate ClaimOk(asks: map<Token, Ask>, claim: Claim) {
    Asked(asks, claim.row) && claim.row.tokenHash == claim.token && claim.now < claim.row.expiresAt
  }

  ghost predicate OriginOk(s: State, key: Key) {
    key in s.links && key in s.origins &&
    match s.origins[key]
    case Born(u) => u == s.links[key] && u in s.births && s.births[u] == Some(key)
    case ByConfirm(p, claim) =>
      && ClaimOk(s.asks, claim) && claim.row.key == key && claim.row.userId == s.links[key]
      && p in s.procs && s.procs[p] == Done(Confirmed(claim))
  }

  ghost predicate LinksOk(s: State) {
    s.origins.Keys == s.links.Keys && forall key :: key in s.links ==> OriginOk(s, key)
  }

  ghost predicate LinkedTo(links: LinkTable, key: Key, user: UserId) {
    key in links && links[key] == user
  }

  ghost predicate OutcomeOk(s: State, p: Pid, outcome: Outcome) {
    match outcome
    case Account(key, user) => LinkedTo(s.links, key, user)
    case Confirmed(claim) =>
      && ClaimOk(s.asks, claim) && LinkedTo(s.links, claim.row.key, claim.row.userId)
      && claim.row.key in s.origins && s.origins[claim.row.key] == ByConfirm(p, claim)
    case AlreadyConfirmed(claim) => ClaimOk(s.asks, claim) && LinkedTo(s.links, claim.row.key, claim.row.userId)
    case LinkConflict(claim) =>
      ClaimOk(s.asks, claim) && claim.row.key in s.links && s.links[claim.row.key] != claim.row.userId
    case _ => true
  }

  // The row `id`, if stored, is the one `ask` created.
  ghost predicate OwnRow(pending: PendingTable, nextPending: Id, ask: Ask, id: Id) {
    id < nextPending && (id in pending ==> pending[id] == ask.Row())
  }

  ghost predicate ProcOk(s: State, p: Pid, pc: Proc) {
    match pc
    case Requesting(identity, user) => EntitledTo(s.users, identity, user)
    case FindingExisting(ask) => AskOk(s.asks, ask)
    case Deleting(ask) => AskOk(s.asks, ask)
    case Inserting(ask, _) => AskOk(s.asks, ask)
    case Rechecking(ask) => AskOk(s.asks, ask)
    case Enqueueing(ask, id) => AskOk(s.asks, ask) && OwnRow(s.pending, s.nextPending, ask, id)
    case Compensating(ask, id) => AskOk(s.asks, ask) && OwnRow(s.pending, s.nextPending, ask, id)
    case Claiming(claim) => ClaimOk(s.asks, claim)
    case LookingUp(claim, _) => ClaimOk(s.asks, claim)
    case Linking(claim) => ClaimOk(s.asks, claim)
    case Raced(claim) => ClaimOk(s.asks, claim) && claim.row.key in s.links
    case Done(outcome) => OutcomeOk(s, p, outcome)
    case _ => true
  }

  ghost predicate TablesOk(s: State) {
    && UsersOk(s.users, s.births, s.nextUser)
    && AsksOk(s.asks, s.users, s.nextToken)
    && PendingOk(s.pending, s.asks, s.nextPending)
  }

  ghost predicate ProcsOk(s: State) {
    forall p :: p in s.procs ==> ProcOk(s, p, s.procs[p])
  }

  ghost predicate Inv(s: State) {
    TablesOk(s) && LinksOk(s) && ProcsOk(s)
  }

  // ---------- Preservation ----------

  ghost predicate Extends<K(!new), V(!new)>(m: map<K, V>, n: map<K, V>) {
    forall k :: k in m ==> k in n && n[k] == m[k]
  }

  // Rows never change, and ids are not reused.
  ghost predicate RowsGo(before: PendingTable, next: Id, after: PendingTable) {
    forall i :: i in after && i < next ==> i in before && after[i] == before[i]
  }

  ghost predicate OutcomesStay(before: map<Pid, Proc>, after: map<Pid, Proc>) {
    forall p :: p in before && before[p].Done? ==> p in after && after[p] == before[p]
  }

  // What every step keeps: nothing recorded is changed or removed, except that pending rows may go.
  ghost predicate Later(s: State, t: State) {
    && s.clock <= t.clock && s.nextPending <= t.nextPending
    && Extends(s.users, t.users) && Extends(s.births, t.births) && Extends(s.asks, t.asks)
    && Extends(s.links, t.links) && Extends(s.origins, t.origins)
    && RowsGo(s.pending, s.nextPending, t.pending)
    && OutcomesStay(s.procs, t.procs)
  }

  lemma ProcOkStable(s: State, t: State, p: Pid, pc: Proc)
    requires Later(s, t) && ProcOk(s, p, pc)
    ensures ProcOk(t, p, pc)
  {
  }

  lemma OriginStable(s: State, t: State, key: Key)
    requires Later(s, t) && OriginOk(s, key)
    ensures OriginOk(t, key)
  {
  }

  // Facts about calls and links survive any step.
  lemma CallsStable(s: State, t: State)
    requires Later(s, t) && LinksOk(s) && ProcsOk(s) && t.origins.Keys == t.links.Keys
    ensures forall key :: key in s.links ==> OriginOk(t, key)
    ensures forall p :: p in s.procs ==> ProcOk(t, p, s.procs[p])
  {
    forall key | key in s.links
      ensures OriginOk(t, key)
    {
      OriginStable(s, t, key);
    }
    forall p | p in s.procs
      ensures ProcOk(t, p, s.procs[p])
    {
      ProcOkStable(s, t, p, s.procs[p]);
    }
  }

  lemma Framed(s: State, t: State, p: Pid, pc: Proc)
    requires Later(s, t) && LinksOk(s) && ProcsOk(s) && t.origins.Keys == t.links.Keys
    requires t.procs == s.procs[p := pc] && ProcOk(t, p, pc)
    requires forall key :: key in t.links && key !in s.links ==> OriginOk(t, key)
    ensures LinksOk(t) && ProcsOk(t)
  {
    CallsStable(s, t);
  }

  // A step that changes one call's locals only.
  lemma LocalStep(s: State, p: Pid, pc: Proc)
    requires Inv(s) && (p in s.procs ==> !s.procs[p].Done?) && ProcOk(Put(s, p, pc), p, pc)
    ensures Later(s, Put(s, p, pc)) && Inv(Put(s, p, pc))
  {
    Framed(s, Put(s, p, pc), p, pc);
  }

  lemma UserKeepsTables(s: State, email: Text, born: Option<Key>)
    requires TablesOk(s) && email !in s.users
    ensures var t := CreateUser(s, email, born); TablesOk(t) && Later(s, t)
  {
  }

  lemma CreateUserKeeps(s: State, email: Text, born: Option<Key>)
    requires Inv(s) && email !in s.users
    ensures var t := CreateUser(s, email, born); Later(s, t) && Inv(t)
  {
    UserKeepsTables(s, email, born);
    CallsStable(s, CreateUser(s, email, born));
  }

  lemma AccountCreated(s: State, p: Pid, identity: Identity)
    requires Inv(s) && p in s.procs && !s.procs[p].Done?
    requires identity.email !in s.users && identity.key !in s.links
    ensures Later(s, CreateAccount(s, p, identity)) && Inv(CreateAccount(s, p, identity))
  {
    var t := CreateAccount(s, p, identity);
    UserKeepsTables(s, identity.email, Some(identity.key));
    assert OriginOk(t, identity.key);
    Framed(s, t, p, t.procs[p]);
  }

  lemma CreateAccountKeeps(s: State, p: Pid, identity: Identity)
    requires Inv(s) && p in s.procs && !s.procs[p].Done?
    ensures Later(s, CreateAccount(s, p, identity)) && Inv(CreateAccount(s, p, identity))
  {
    if identity.email in s.users || identity.key in s.links {
      var t := CreateAccount(s, p, identity);
      assert Later(s, t) && TablesOk(t);
      assert t.procs == s.procs[p := Done(Failed)];
      Framed(s, t, p, Done(Failed));
    } else {
      AccountCreated(s, p, identity);
    }
  }

  lemma StartAskKeeps(s: State, p: Pid, identity: Identity, user: UserId)
    requires Inv(s) && p in s.procs && s.procs[p] == Requesting(identity, user)
    ensures Later(s, StartAsk(s, p, identity, user)) && Inv(StartAsk(s, p, identity, user))
  {
    var t := StartAsk(s, p, identity, user);
    assert ProcOk(s, p, s.procs[p]);
    assert Later(s, t);
    assert TablesOk(t);
    assert ProcOk(t, p, t.procs[p]);
    assert t.procs == s.procs[p := t.procs[p]];
    Framed(s, t, p, t.procs[p]);
  }

  // Deleting what matches and refusing to clash keeps the three unique indexes.
  lemma IssueKeepsPending(pending: PendingTable, asks: map<Token, Ask>, next: Id, doomed: set<Id>, row: Pending)
    requires PendingOk(pending, asks, next) && !Blocked(pending, doomed, row) && Asked(asks, row)
    ensures PendingOk((pending - doomed)[next := row], asks, next + 1)
    ensures RowsGo(pending, next, (pending - doomed)[next := row])
  {
  }

  lemma IssuedKeeps(s: State, p: Pid, ask: Ask, doomed: set<Id>)
    requires Inv(s) && p in s.procs && !s.procs[p].Done? && AskOk(s.asks, ask) && !Blocked(s.pending, doomed, ask.Row())
    ensures var t := CommitIssue(s, p, ask, doomed); Later(s, t) && Inv(t)
  {
    IssueAs(s, p, ask, doomed);
    IssueKeepsPending(s.pending, s.asks, s.nextPending, doomed, ask.Row());
    RowInserted(s, p, (s.pending - doomed)[s.nextPending := ask.Row()], ask);
  }

  lemma RowInserted(s: State, p: Pid, rows: PendingTable, ask: Ask)
    requires Inv(s) && p in s.procs && !s.procs[p].Done? && AskOk(s.asks, ask)
    requires PendingOk(rows, s.asks, s.nextPending + 1) && RowsGo(s.pending, s.nextPending, rows)
    requires s.nextPending in rows && rows[s.nextPending] == ask.Row()
    ensures var t := Put(s.(nextPending := s.nextPending + 1, pending := rows), p, Enqueueing(ask, s.nextPending));
            Later(s, t) && Inv(t)
  {
    RowsStep(s, p, rows, s.nextPending + 1, Enqueueing(ask, s.nextPending));
  }

  lemma CommitIssueKeeps(s: State, p: Pid, ask: Ask, doomed: set<Id>)
    requires Inv(s) && p in s.procs && s.procs[p] == Inserting(ask, doomed)
    ensures Later(s, CommitIssue(s, p, ask, doomed)) && Inv(CommitIssue(s, p, ask, doomed))
  {
    assert AskOk(s.asks, ask) by {
      assert ProcOk(s, p, s.procs[p]);
    }
    if Blocked(s.pending, doomed, ask.Row()) {
      BlockedKeeps(s, p, ask);
      assert CommitIssue(s, p, ask, doomed) == Put(s.(nextPending := s.nextPending + 1), p, Rechecking(ask));
    } else {
      IssuedKeeps(s, p, ask, doomed);
    }
  }

  lemma BlockedKeeps(s: State, p: Pid, ask: Ask)
    requires Inv(s) && p in s.procs && !s.procs[p].Done? && AskOk(s.asks, ask)
    ensures var t := Put(s.(nextPending := s.nextPending + 1), p, Rechecking(ask)); Later(s, t) && Inv(t)
  {
    RowsStep(s, p, s.pending, s.nextPending + 1, Rechecking(ask));
  }

  lemma FewerRows(pending: PendingTable, asks: map<Token, Ask>, next: Id, fewer: PendingTable)
    requires PendingOk(pending, asks, next) && Extends(fewer, pending)
    ensures PendingOk(fewer, asks, next) && RowsGo(pending, next, fewer)
  {
  }

  // A step that changes pending rows and one call's locals.
  lemma RowsStep(s: State, p: Pid, rows: PendingTable, next: Id, pc: Proc)
    requires Inv(s) && p in s.procs && !s.procs[p].Done? && s.nextPending <= next
    requires PendingOk(rows, s.asks, next) && RowsGo(s.pending, s.nextPending, rows)
    requires ProcOk(s.(pending := rows, nextPending := next), p, pc)
    ensures var t := s.(pending := rows, nextPending := next, procs := s.procs[p := pc]); Later(s, t) && Inv(t)
  {
    var t := s.(pending := rows, nextPending := next, procs := s.procs[p := pc]);
    assert ProcOk(t, p, pc);
    Framed(s, t, p, pc);
  }

  lemma CleanupKeeps(s: State, cutoff: Time)
    requires Inv(s)
    ensures var t := s.(pending := Unexpired(s.pending, cutoff)); Later(s, t) && Inv(t)
  {
    var t := s.(pending := Unexpired(s.pending, cutoff));
    FewerRows(s.pending, s.asks, s.nextPending, t.pending);
    CallsStable(s, t);
  }

  lemma CompensateKeeps(s: State, p: Pid, ask: Ask, id: Id)
    requires Inv(s) && p in s.procs && s.procs[p] == Compensating(ask, id)
    ensures Later(s, Compensate(s, p, ask, id)) && Inv(Compensate(s, p, ask, id))
  {
    var rows := if OwnedBy(s.pending, id, ask.token) then s.pending - {id} else s.pending;
    CompensateAs(s, p, ask, id);
    FewerKeeps(s, p, rows, Done(Unavailable));
  }

  lemma FewerKeeps(s: State, p: Pid, rows: PendingTable, pc: Proc)
    requires Inv(s) && p in s.procs && !s.procs[p].Done? && Extends(rows, s.pending)
    requires ProcOk(s.(pending := rows), p, pc)
    ensures Later(s, Put(s.(pending := rows), p, pc)) && Inv(Put(s.(pending := rows), p, pc))
  {
    FewerRows(s.pending, s.asks, s.nextPending, rows);
    RowsStep(s, p, rows, s.nextPending, pc);
  }

  lemma LookUpLinkKeeps(s: State, p: Pid, claim: Claim, claimed: bool)
    requires Inv(s) && p in s.procs && s.procs[p] == LookingUp(claim, claimed)
    ensures Later(s, LookUpLink(s, p, claim, claimed)) && Inv(LookUpLink(s, p, claim, claimed))
  {
    assert ProcOk(s, p, s.procs[p]);
    if LinkedTo(s.links, claim.row.key, claim.row.userId) {
      var rows := if claimed then s.pending - {claim.id} else s.pending;
      FewerRows(s.pending, s.asks, s.nextPending, rows);
      RowsStep(s, p, rows, s.nextPending, Done(AlreadyConfirmed(claim)));
    } else if claim.row.key in s.links {
      LocalStep(s, p, Done(LinkConflict(claim)));
    } else {
      LocalStep(s, p, if claimed then Linking(claim) else Done(BadToken));
    }
  }

  lemma LinkCommitted(s: State, p: Pid, claim: Claim)
    requires Inv(s) && p in s.procs && !s.procs[p].Done? && ClaimOk(s.asks, claim) && claim.row.key !in s.links
    ensures Later(s, CommitLink(s, p, claim)) && Inv(CommitLink(s, p, claim))
  {
    var t := CommitLink(s, p, claim);
    FewerRows(s.pending, s.asks, s.nextPending, t.pending);
    assert Later(s, t) && TablesOk(t);
    assert OriginOk(t, claim.row.key);
    assert OutcomeOk(t, p, Confirmed(claim));
    Framed(s, t, p, Done(Confirmed(claim)));
  }

  lemma CommitLinkKeeps(s: State, p: Pid, claim: Claim)
    requires Inv(s) && p in s.procs && s.procs[p] == Linking(claim)
    ensures Later(s, CommitLink(s, p, claim)) && Inv(CommitLink(s, p, claim))
  {
    assert ClaimOk(s.asks, claim) by {
      assert ProcOk(s, p, s.procs[p]);
    }
    if claim.row.key in s.links {
      LocalStep(s, p, Raced(claim));
    } else {
      LinkCommitted(s, p, claim);
    }
  }

  lemma FoundClaimOk(pending: PendingTable, asks: map<Token, Ask>, next: Id, token: Token, now: Time)
    requires PendingOk(pending, asks, next)
    ensures var pc := FindClaim(pending, token, now); pc.Claiming? ==> ClaimOk(asks, pc.claim)
    ensures var pc := FindClaim(pending, token, now); pc.Claiming? || pc == Done(BadToken)
  {
  }

  // What a call has read is true of the tables it has read.
  lemma RequestReadOk(s: State, p: Pid, pick: Id)
    requires ProcsOk(s) && Enabled(s, Advance(p, pick))
    requires s.procs[p].FindingExisting? || s.procs[p].Deleting? || s.procs[p].Rechecking? || s.procs[p].Enqueueing?
    ensures ProcOk(s, p, NextRead(s, s.procs[p], pick))
  {
    assert ProcOk(s, p, s.procs[p]);
  }

  lemma ConfirmReadOk(s: State, p: Pid, pick: Id)
    requires ProcsOk(s) && PendingOk(s.pending, s.asks, s.nextPending) && Enabled(s, Advance(p, pick))
    requires s.procs[p].Confirming? || s.procs[p].FindingValid? || s.procs[p].Claiming? || s.procs[p].Raced?
    ensures ProcOk(s, p, NextRead(s, s.procs[p], pick))
  {
    assert ProcOk(s, p, s.procs[p]);
    if s.procs[p].FindingValid? {
      FoundClaimOk(s.pending, s.asks, s.nextPending, s.procs[p].token, s.procs[p].now);
    }
  }

  lemma ReadKeeps(s: State, p: Pid, pick: Id)
    requires Inv(s) && Enabled(s, Advance(p, pick)) && OnlyReads(s.procs[p])
    ensures Later(s, Progress(s, p, pick)) && Inv(Progress(s, p, pick))
  {
    var pc := s.procs[p];
    if pc.FindingExisting? || pc.Deleting? || pc.Rechecking? || pc.Enqueueing? {
      RequestReadOk(s, p, pick);
    } else if pc.Confirming? || pc.FindingValid? || pc.Claiming? || pc.Raced? {
      ConfirmReadOk(s, p, pick);
    }
    LocalOk(s, p, NextRead(s, pc, pick));
  }

  lemma LocalOk(s: State, p: Pid, pc: Proc)
    requires Inv(s) && (p in s.procs ==> !s.procs[p].Done?) && ProcOk(s, p, pc)
    requires pc.Done? ==> !pc.outcome.Confirmed?
    ensures Later(s, Put(s, p, pc)) && Inv(Put(s, p, pc))
  {
    LocalStep(s, p, pc);
  }

  lemma ProgressKeepsInv(s: State, p: Pid, pick: Id)
    requires Inv(s) && Enabled(s, Advance(p, pick))
    ensures Later(s, Progress(s, p, pick)) && Inv(Progress(s, p, pick))
  {
    if OnlyReads(s.procs[p]) {
      ReadKeeps(s, p, pick);
    } else {
      match s.procs[p]
      case CreatingAccount(identity) => CreateAccountKeeps(s, p, identity);
      case Requesting(identity, user) => StartAskKeeps(s, p, identity, user);
      case Inserting(ask, doomed) => CommitIssueKeeps(s, p, ask, doomed);
      case Compensating(ask, id) => CompensateKeeps(s, p, ask, id);
      case LookingUp(claim, claimed) => LookUpLinkKeeps(s, p, claim, claimed);
      case Linking(claim) => CommitLinkKeeps(s, p, claim);
    }
  }

  lemma StepKeepsInv(s: State, a: Action)
    requires Inv(s) && Enabled(s, a)
    ensures Later(s, Apply(s, a)) && Inv(Apply(s, a))
  {
    match a
    case Begin(p, call) => LocalStep(s, p, call);
    case Advance(p, pick) => ProgressKeepsInv(s, p, pick);
    case Fail(p) =>
      assert ProcOk(s, p, s.procs[p]);
      LocalStep(s, p, Aborted(s.procs[p]));
    case Register(email) => CreateUserKeeps(s, email, None);
    case Cleanup(cutoff) => CleanupKeeps(s, cutoff);
    case Tick(elapsed) => CallsStable(s, Apply(s, a));
  }
}
