// The cooldown under interleaving: which rows an issue removes too early
// (src/auth/account-linking/pending-provider-link.repository.ts).
module LinkCooldown {
  import opened ProviderLinks
  import opened LinkProtocol
  import opened LinkTheorems
  import opened LinkSteps
  import opened LinkPunctual

  // The step commits the request `other` as row `i`.
  predicate CommitsNow(s: State, a: Action, i: Id, other: Ask) {
    && a.Advance? && a.p in s.procs && s.procs[a.p].Inserting? && s.procs[a.p].ask == other
    && !Blocked(s.pending, s.procs[a.p].doomed, other.Row()) && s.nextPending == i
  }

  // Somewhere in the run `other` is committed as row `i`.
  ghost predicate CommitsRow(s: State, acts: seq<Action>, i: Id, other: Ask)
    decreases |acts|
  {
    acts != [] && Enabled(s, acts[0]) &&
    (CommitsNow(s, acts[0], i, other) || CommitsRow(Apply(s, acts[0]), acts[1..], i, other))
  }

  lemma IssuedRow(s: State, p: Pid, ask: Ask, doomed: set<Id>, i: Id)
    requires i !in s.pending && i in CommitIssue(s, p, ask, doomed).pending
    ensures i == s.nextPending && !Blocked(s.pending, doomed, ask.Row())
    ensures CommitIssue(s, p, ask, doomed).pending[i] == ask.Row()
  {
    IssueAs(s, p, ask, doomed);
  }

  lemma InsertedRow(s: State, p: Pid, pick: Id, i: Id)
    requires Enabled(s, Advance(p, pick)) && s.procs[p].Inserting?
    requires i !in s.pending && i in Progress(s, p, pick).pending
    ensures CommitsNow(s, Advance(p, pick), i, s.procs[p].ask)
    ensures Progress(s, p, pick).pending[i] == s.procs[p].ask.Row()
  {
    InsertingStep(s, p, pick);
    IssuedRow(s, p, s.procs[p].ask, s.procs[p].doomed, i);
  }

  lemma NewRow(s: State, a: Action, i: Id) returns (other: Ask)
    requires PendingOk(s.pending, s.asks, s.nextPending) && Enabled(s, a)
    requires s.nextPending <= i && i in Apply(s, a).pending
    ensures CommitsNow(s, a, i, other) && Apply(s, a).pending[i] == other.Row()
  {
    assert i !in s.pending;
    if a.Advance? {
      ProgressFollows(s, a.p, a.pick);
      if s.procs[a.p].Inserting? {
        InsertedRow(s, a.p, a.pick, i);
        other := s.procs[a.p].ask;
      }
    }
  }

  lemma CommittedRow(s: State, a: Action, i: Id, other: Ask)
    requires Enabled(s, a) && CommitsNow(s, a, i, other)
    ensures i < Apply(s, a).nextPending && i in Apply(s, a).pending && Apply(s, a).pending[i] == other.Row()
  {
    InsertingStep(s, a.p, a.pick);
    IssueAs(s, a.p, other, s.procs[a.p].doomed);
  }

  // Every row with a new id was committed in the run.
  lemma {:induction false} RowHasCommit(s: State, acts: seq<Action>, u: State, i: Id) returns (other: Ask)
    requires Inv(s) && Run(s, acts, u) && s.nextPending <= i && i in u.pending
    ensures CommitsRow(s, acts, i, other) && u.pending[i] == other.Row()
    decreases |acts|
  {
    if acts != [] {
      var s1 := Apply(s, acts[0]);
      StepKeepsInv(s, acts[0]);
      RunKeepsInv(s1, acts[1..], u);
      if i < s1.nextPending {
        other := NewRow(s, acts[0], i);
      } else {
        other := RowHasCommit(s1, acts[1..], u, i);
      }
    }
  }

  lemma {:induction false} CommitGivesRow(s: State, acts: seq<Action>, u: State, i: Id, other: Ask)
    requires Inv(s) && Run(s, acts, u) && CommitsRow(s, acts, i, other)
    ensures s.nextPending <= i && (i in u.pending ==> u.pending[i] == other.Row())
    decreases |acts|
  {
    var s1 := Apply(s, acts[0]);
    StepKeepsInv(s, acts[0]);
    if CommitsNow(s, acts[0], i, other) {
      CommittedRow(s, acts[0], i, other);
      RunKeepsInv(s1, acts[1..], u);
    } else {
      CommitGivesRow(s1, acts[1..], u, i, other);
    }
  }

  // ---------- What a commit removes ----------

  // The issue of `p` from its first read, in `s`, over its delete, in `u`, to its commit, in `v`.
  ghost predicate Issues(s: State, p: Pid, ask: Ask, pick: Id, acts: seq<Action>, u: State, more: seq<Action>,
                         v: State) {
    && p in s.procs && s.procs[p] == FindingExisting(ask) && PickOk(s, s.procs[p], pick)
    && CheckCooldown(s, p, ask, pick).procs[p] == Deleting(ask)
    && Run(CheckCooldown(s, p, ask, pick), acts, u) && p in u.procs && u.procs[p] == Deleting(ask)
    && Run(Put(u, p, Inserting(ask, Gone(u, ask))), more, v)
    && p in v.procs && v.procs[p] == Inserting(ask, Gone(u, ask)) && !Blocked(v.pending, Gone(u, ask), ask.Row())
  }

  // What its delete saw.
  function Gone(u: State, ask: Ask): set<Id> {
    Matching(u.pending, ask.user, ask.identity.key)
  }

  ghost predicate Removes(u: State, v: State, p: Pid, ask: Ask, i: Id) {
    i in v.pending && i !in CommitIssue(v, p, ask, Gone(u, ask)).pending
  }

  lemma StepsKeep(s: State, p: Pid, pick: Id, acts: seq<Action>, t: State)
    requires Inv(s) && Enabled(s, Advance(p, pick)) && Run(Progress(s, p, pick), acts, t)
    ensures Inv(Progress(s, p, pick)) && Inv(t)
    ensures RowsGo(Progress(s, p, pick).pending, Progress(s, p, pick).nextPending, t.pending)
  {
    StepKeepsInv(s, Advance(p, pick));
    RunKeepsInv(Progress(s, p, pick), acts, t);
  }

  lemma RemovedWasSeen(s: State, p: Pid, ask: Ask, pick: Id, acts: seq<Action>, u: State, more: seq<Action>,
                       v: State, i: Id)
    requires Inv(s) && Issues(s, p, ask, pick, acts, u, more, v) && Removes(u, v, p, ask, i)
    ensures i in Gone(u, ask) && v.pending[i] == u.pending[i] && Inv(CheckCooldown(s, p, ask, pick))
  {
    IssueAs(v, p, ask, Gone(u, ask));
    assert Progress(s, p, pick) == CheckCooldown(s, p, ask, pick);
    StepsKeep(s, p, pick, acts, u);
    assert Progress(u, p, 0) == Put(u, p, Inserting(ask, Gone(u, ask)));
    StepsKeep(u, p, 0, more, v);
    assert i in u.pending && i < u.nextPending;
  }

  // What was there at the first read is past its cooldown.
  lemma OldIsCool(s: State, p: Pid, ask: Ask, pick: Id, acts: seq<Action>, u: State, i: Id)
    requires Inv(s) && p in s.procs && s.procs[p] == FindingExisting(ask) && PickOk(s, s.procs[p], pick)
    requires CheckCooldown(s, p, ask, pick).procs[p] == Deleting(ask) && Inv(CheckCooldown(s, p, ask, pick))
    requires Run(CheckCooldown(s, p, ask, pick), acts, u) && i in Gone(u, ask) && i < s.nextPending
    ensures ask.now - u.pending[i].createdAt >= 60_000
  {
    RunKeepsInv(CheckCooldown(s, p, ask, pick), acts, u);
    CooldownIff(s, p, ask, pick);
    assert i in s.pending && u.pending[i] == s.pending[i] && i in Matching(s.pending, ask.user, ask.identity.key);
  }

  // An issue removes a row still cooling down for it if and only if, between its first read and its delete, another
  // request committed that row, having looked at the clock less than 60 000 ms before this one did, or later.
  lemma ReplacesCoolingIff(s: State, p: Pid, ask: Ask, pick: Id, acts: seq<Action>, u: State, more: seq<Action>,
                           v: State, i: Id)
    requires Inv(s) && Issues(s, p, ask, pick, acts, u, more, v) && Removes(u, v, p, ask, i)
    ensures ask.now - v.pending[i].createdAt < 60_000 <==>
            exists other ::
              CommitsRow(CheckCooldown(s, p, ask, pick), acts, i, other) && other.now > ask.now - 60_000
  {
    var s1 := CheckCooldown(s, p, ask, pick);
    RemovedWasSeen(s, p, ask, pick, acts, u, more, v, i);
    if i < s.nextPending {
      OldIsCool(s, p, ask, pick, acts, u, i);
      forall other | CommitsRow(s1, acts, i, other)
        ensures false
      {
        CommitGivesRow(s1, acts, u, i, other);
      }
    } else {
      var committed := RowHasCommit(s1, acts, u, i);
      forall other | CommitsRow(s1, acts, i, other)
        ensures other.now == v.pending[i].createdAt
      {
        CommitGivesRow(s1, acts, u, i, other);
      }
    }
  }

  // ---------- Prompt requests ----------

  // Every request that commits does so within 60 000 ms of having looked at the clock.
  ghost predicate Prompt(s: State, acts: seq<Action>)
    decreases |acts|
  {
    acts == [] ||
    (Enabled(s, acts[0]) && PromptNow(s, acts[0]) && Prompt(Apply(s, acts[0]), acts[1..]))
  }

  predicate PromptNow(s: State, a: Action) {
    a.Advance? && a.p in s.procs && s.procs[a.p].Inserting? ==> s.clock - s.procs[a.p].ask.now < 60_000
  }

  lemma {:induction false} PromptCommit(s: State, acts: seq<Action>, u: State, i: Id, other: Ask)
    requires Inv(s) && Run(s, acts, u) && Prompt(s, acts) && CommitsRow(s, acts, i, other)
    ensures other.now > s.clock - 60_000
    decreases |acts|
  {
    if !CommitsNow(s, acts[0], i, other) {
      StepKeepsInv(s, acts[0]);
      PromptCommit(Apply(s, acts[0]), acts[1..], u, i, other);
    }
  }

  // When requests are prompt, an issue removes a row still cooling down for it if and only if the row was committed
  // after its first read.
  lemma PromptReplacesCoolingIff(s: State, p: Pid, ask: Ask, pick: Id, acts: seq<Action>, u: State, more: seq<Action>,
                                 v: State, i: Id)
    requires Inv(s) && Issues(s, p, ask, pick, acts, u, more, v) && Removes(u, v, p, ask, i)
    requires Prompt(CheckCooldown(s, p, ask, pick), acts) && ask.now <= s.clock
    ensures ask.now - v.pending[i].createdAt < 60_000 <==> s.nextPending <= i
  {
    var s1 := CheckCooldown(s, p, ask, pick);
    RemovedWasSeen(s, p, ask, pick, acts, u, more, v, i);
    if i < s.nextPending {
      OldIsCool(s, p, ask, pick, acts, u, i);
    } else {
      var other := RowHasCommit(s1, acts, u, i);
      PromptCommit(s1, acts, u, i, other);
    }
  }

  // A call has always looked at the clock in the past.
  lemma {:induction false} StampsArePast(s: State, acts: seq<Action>, t: State, h: Time)
    requires Inv(s) && StampedSince(s, h) && h <= s.clock && Run(s, acts, t)
    ensures StampedSince(t, h)
    decreases |acts|
  {
    if acts != [] {
      StepKeepsInv(s, acts[0]);
      StampedMove(s, h, acts[0]);
      StampsArePast(Apply(s, acts[0]), acts[1..], t, h);
    }
  }

  lemma AskedInThePast(s0: State, acts: seq<Action>, s: State, p: Pid)
    requires Init(s0) && Run(s0, acts, s) && p in s.procs && s.procs[p].FindingExisting?
    ensures s.procs[p].ask.now <= s.clock
  {
    InitIsInv(s0);
    StampsArePast(s0, acts, s, s0.clock);
    assert Stamp(s.procs[p]).Some?;
  }
}
