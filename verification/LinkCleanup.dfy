// The daily cleanup of pending links is noticed exactly by the calls it catches (ExpiredProviderLinkCleanupService
// and the boundaries of src/auth/account-linking/pending-provider-link.repository.ts), over all interleaved runs.
module LinkCleanup {
  import opened ProviderLinks
  import opened LinkProtocol
  import opened LinkTheorems
  import opened LinkShadow

  // The same run without its cleanups, the database choosing anew among equally new rows.
  ghost predicate Pruned(acts: seq<Action>, bare: seq<Action>)
    decreases |acts|
  {
    if acts == [] then bare == []
    else if acts[0].Cleanup? then Pruned(acts[1..], bare)
    else bare != [] && SameMove(acts[0], bare[0]) && Pruned(acts[1..], bare[1..])
  }

  ghost predicate NeverCaught(s: State, d: State, acts: seq<Action>, bare: seq<Action>)
    decreases |acts|
  {
    if acts == [] then true
    else if acts[0].Cleanup? then Enabled(s, acts[0]) && NeverCaught(Apply(s, acts[0]), d, acts[1..], bare)
    else
      && bare != [] && Enabled(s, acts[0]) && Enabled(d, bare[0]) && !Caught(s, d, acts[0])
      && NeverCaught(Apply(s, acts[0]), Apply(d, bare[0]), acts[1..], bare[1..])
  }

  // ---------- Noticed if and only if caught ----------

  lemma {:induction false} PartedForever(s: State, d: State, acts: seq<Action>, bare: seq<Action>, t: State, e: State,
                                         p: Pid)
    requires Run(s, acts, t) && Run(d, bare, e) && Pruned(acts, bare)
    requires p in s.procs && p in d.procs && Parted(s.procs[p], d.procs[p])
    ensures p in t.procs && p in e.procs && Parted(t.procs[p], e.procs[p])
    decreases |acts|
  {
    if acts != [] {
      if acts[0].Cleanup? {
        PartedForever(Apply(s, acts[0]), d, acts[1..], bare, t, e, p);
      } else {
        PartedStays(s, d, acts[0], bare[0], p);
        PartedForever(Apply(s, acts[0]), Apply(d, bare[0]), acts[1..], bare[1..], t, e, p);
      }
    }
  }

  lemma CaughtIsNoticed(s: State, d: State, h: Time, acts: seq<Action>, bare: seq<Action>, t: State, e: State)
    returns (p: Pid)
    requires Inv(d) && Shadow(s, d, h) && acts != [] && !acts[0].Cleanup?
    requires Run(s, acts, t) && Run(d, bare, e) && Pruned(acts, bare) && Caught(s, d, acts[0])
    ensures p in t.procs && p in e.procs && Parted(t.procs[p], e.procs[p])
  {
    var a, b := acts[0], bare[0];
    p := a.p;
    CaughtParts(s, d, h, p, a.pick, b.pick);
    PartedForever(Apply(s, a), Apply(d, b), acts[1..], bare[1..], t, e, p);
  }

  lemma BothMove(s: State, d: State, h: Time, a: Action, b: Action)
    requires Inv(s) && Inv(d) && Shadow(s, d, h) && !a.Cleanup?
    requires Enabled(s, a) && Enabled(d, b) && SameMove(a, b) && !Caught(s, d, a)
    ensures Inv(Apply(s, a)) && Inv(Apply(d, b)) && Shadow(Apply(s, a), Apply(d, b), h)
  {
    StepKeepsInv(s, a);
    StepKeepsInv(d, b);
    MoveInStep(s, d, h, a, b);
  }

  lemma OneSweeps(s: State, d: State, h: Time, cutoff: Time)
    requires Inv(s) && Shadow(s, d, h) && cutoff <= s.clock
    ensures Inv(Apply(s, Cleanup(cutoff))) && Shadow(Apply(s, Cleanup(cutoff)), d, Max(h, cutoff))
  {
    StepKeepsInv(s, Cleanup(cutoff));
    SweepInStep(s, d, h, cutoff);
  }

  lemma {:induction false} UncaughtInStep(s: State, d: State, h: Time, acts: seq<Action>, bare: seq<Action>,
                                          t: State, e: State) returns (h': Time)
    requires Inv(s) && Inv(d) && Shadow(s, d, h) && NeverCaught(s, d, acts, bare)
    requires Run(s, acts, t) && Run(d, bare, e) && Pruned(acts, bare)
    ensures Shadow(t, e, h')
    decreases |acts|
  {
    h' := h;
    if acts == [] {
    } else if acts[0].Cleanup? {
      OneSweeps(s, d, h, acts[0].cutoff);
      h' := UncaughtInStep(Apply(s, acts[0]), d, Max(h, acts[0].cutoff), acts[1..], bare, t, e);
    } else {
      BothMove(s, d, h, acts[0], bare[0]);
      h' := UncaughtInStep(Apply(s, acts[0]), Apply(d, bare[0]), h, acts[1..], bare[1..], t, e);
    }
  }

  lemma {:induction false} CaughtSomewhere(s: State, d: State, h: Time, acts: seq<Action>, bare: seq<Action>,
                                           t: State, e: State) returns (p: Pid)
    requires Inv(s) && Inv(d) && Shadow(s, d, h) && !NeverCaught(s, d, acts, bare)
    requires Run(s, acts, t) && Run(d, bare, e) && Pruned(acts, bare)
    ensures p in t.procs && p in e.procs && Parted(t.procs[p], e.procs[p])
    decreases |acts|
  {
    if acts[0].Cleanup? {
      OneSweeps(s, d, h, acts[0].cutoff);
      p := CaughtSomewhere(Apply(s, acts[0]), d, Max(h, acts[0].cutoff), acts[1..], bare, t, e);
    } else if Caught(s, d, acts[0]) {
      p := CaughtIsNoticed(s, d, h, acts, bare, t, e);
    } else {
      BothMove(s, d, h, acts[0], bare[0]);
      p := CaughtSomewhere(Apply(s, acts[0]), Apply(d, bare[0]), h, acts[1..], bare[1..], t, e);
    }
  }

  lemma StartInStep(s: State)
    requires Init(s)
    ensures Shadow(s, s, s.clock)
  {
  }

  // Two runs from the same start with the same calls, failures and ticks at the same places, one with cleanups
  // anywhere and one without: all calls stand alike if and only if none is caught.
  lemma CleanupIsNoticedIffCaught(s: State, acts: seq<Action>, t: State, bare: seq<Action>, e: State)
    requires Init(s) && Run(s, acts, t) && Run(s, bare, e) && Pruned(acts, bare)
    ensures SameCalls(t, e) <==> NeverCaught(s, s, acts, bare)
    ensures SameCalls(t, e) ==>
              && t.links == e.links && t.users == e.users
              && Unexpired(t.pending, t.clock) == Unexpired(e.pending, e.clock)
  {
    InitIsInv(s);
    StartInStep(s);
    if NeverCaught(s, s, acts, bare) {
      var h := UncaughtInStep(s, s, s.clock, acts, bare, t, e);
      ShadowAlike(t, e, h);
    } else {
      var p := CaughtSomewhere(s, s, s.clock, acts, bare, t, e);
    }
  }

  lemma ShadowAlike(t: State, e: State, h: Time)
    requires Shadow(t, e, h)
    ensures SameCalls(t, e) && t.links == e.links && t.users == e.users
    ensures Unexpired(t.pending, t.clock) == Unexpired(e.pending, e.clock)
  {
    assert forall i :: i in e.pending && e.pending[i].expiresAt > e.clock ==> i in t.pending;
  }

  // ---------- Who can be caught ----------

  ghost predicate ExpiredBy(rows: PendingTable, i: Id, h: Time) {
    i in rows && rows[i].expiresAt <= h
  }

  // A `confirm` is caught only when its row expired after the `now` it read and by a cutoff; a request at its read
  // only more than 14 minutes after the `now` it read, and at its commit or second read only by the cleanup of an
  // expired row.
  lemma CaughtIsLate(s: State, d: State, h: Time, a: Action)
    requires Inv(d) && Shadow(s, d, h) && Caught(s, d, a)
    ensures var pc := s.procs[a.p];
            && (pc.FindingValid? ==>
                  exists i :: ExpiredBy(d.pending, i, h) && Claimable(d.pending, i, pc.token, pc.now))
            && (pc.LookingUp? ==> pc.claim.now < pc.claim.row.expiresAt <= h)
            && (pc.FindingExisting? ==> s.clock - pc.ask.now > LINK_TTL_MS - PENDING_LINK_RESEND_COOLDOWN_MS)
            && (pc.Inserting? ==> exists i :: ExpiredBy(d.pending, i, h) && Clash(d.pending[i], pc.ask.Row()))
            && (pc.Rechecking? ==> exists i :: ExpiredBy(d.pending, i, h) && Clash(d.pending[i], pc.ask.Row()))
  {
    SamePc(s, d, h, a.p);
    var pc := s.procs[a.p];
    if pc.FindingValid? {
      var i :| Swept(s, d, i) && Claimable(d.pending, i, pc.token, pc.now);
      assert ExpiredBy(d.pending, i, h);
    } else if pc.LookingUp? {
      assert ProcOk(d, a.p, d.procs[a.p]);
    } else if pc.FindingExisting? {
      CoolingLate(s, d, h, pc.ask);
    } else if pc.Inserting? {
      BlockedLate(s, d, h, pc.doomed, d.procs[a.p].doomed, pc.ask.Row());
    } else if pc.Rechecking? {
      RecheckLate(s, d, h, pc.ask);
    }
  }

  // Each row that matters to a request without cleanups matters with them, or has expired.
  lemma CoolingLate(s: State, d: State, h: Time, ask: Ask)
    requires Inv(d) && Shadow(s, d, h) && CoolingDown(d.pending, ask.user, ask.identity.key, ask.now)
    ensures CoolingDown(s.pending, ask.user, ask.identity.key, ask.now)
            || h - ask.now > LINK_TTL_MS - PENDING_LINK_RESEND_COOLDOWN_MS
  {
    var i :| i in Matching(d.pending, ask.user, ask.identity.key)
             && ask.now - d.pending[i].createdAt < PENDING_LINK_RESEND_COOLDOWN_MS;
    assert Asked(d.asks, d.pending[i]);
    assert i in Matching(s.pending, ask.user, ask.identity.key) || ExpiredBy(d.pending, i, h);
  }

  lemma BlockedLate(s: State, d: State, h: Time, x: set<Id>, y: set<Id>, row: Pending)
    requires Shadow(s, d, h) && DoomedShadow(s.pending, s.nextPending, x, y) && Blocked(d.pending, y, row)
    ensures Blocked(s.pending, x, row) || exists i :: ExpiredBy(d.pending, i, h) && i !in y && Clash(d.pending[i], row)
  {
    var i :| i in d.pending && i !in y && Clash(d.pending[i], row);
    if i in s.pending {
      assert i !in x && Clash(s.pending[i], row);
    } else {
      assert ExpiredBy(d.pending, i, h);
    }
  }

  lemma RecheckLate(s: State, d: State, h: Time, ask: Ask)
    requires Shadow(s, d, h) && Matching(d.pending, ask.user, ask.identity.key) != {}
    ensures Matching(s.pending, ask.user, ask.identity.key) != {}
            || exists i :: ExpiredBy(d.pending, i, h) && Clash(d.pending[i], ask.Row())
  {
    var i :| i in Matching(d.pending, ask.user, ask.identity.key);
    if i in s.pending {
      assert i in Matching(s.pending, ask.user, ask.identity.key);
    } else {
      assert ExpiredBy(d.pending, i, h);
    }
  }
}
