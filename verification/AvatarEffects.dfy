// What a whole avatar call has done when it ends, by its answer (src/users/avatar-replacement.service.ts).
module AvatarEffects {
  import opened Avatars

  // ---------- One step ----------

  // A commit writes the image of one user and appends it to that user's history.
  lemma CommitWrites(s: State, p: Pid)
    requires Inv(s) && Enabled(s, Commit(p))
    ensures var pc, t := s.procs[p], Apply(s, Commit(p));
            && t.images.Keys == s.images.Keys && t.committed.Keys == s.committed.Keys
            && t.images[pc.user] == pc.next && t.committed[pc.user] == s.committed[pc.user] + [pc.next]
            && (forall u :: u in s.images && u != pc.user ==>
                  t.images[u] == s.images[u] && t.committed[u] == s.committed[u])
            && t.store == s.store
  {
  }

  lemma OthersWriteNothing(s: State, a: Action)
    requires Enabled(s, a) && !a.Commit?
    ensures Apply(s, a).images == s.images && Apply(s, a).committed == s.committed
  {
  }

  // Only uploads add objects, each its own fresh one; only deletes remove them, each its own.
  lemma StoreChanges(s: State, a: Action)
    requires Enabled(s, a)
    ensures a.Upload? ==> Apply(s, a).store == s.store + {s.nextKey}
    ensures a.Delete? ==> Apply(s, a).store == s.store - {s.procs[a.p].key}
    ensures a.UploadFails? ==>
              Apply(s, a).store == (if a.landed then s.store + {s.nextKey} else s.store)
              && Apply(s, a).logged == s.logged + {s.nextKey}
    ensures a.DeleteFails? ==>
              Apply(s, a).store == (if a.landed then s.store - {s.procs[a.p].key} else s.store)
              && Apply(s, a).logged == s.logged + {s.procs[a.p].key}
    ensures a.Begin? || a.Lock? || a.Commit? || a.Abort? ==>
              Apply(s, a).store == s.store && Apply(s, a).logged == s.logged
  {
  }

  lemma OthersStay(s: State, a: Action, p: Pid)
    requires Enabled(s, a) && p in s.procs && a.p != p
    ensures p in Apply(s, a).procs && Apply(s, a).procs[p] == s.procs[p]
  {
  }

  // ---------- Whole calls ----------

  // What the call commits along the run: for which user, and which image.
  ghost function OwnCommits(s: State, acts: seq<Action>, p: Pid): seq<(UserId, Image)>
    decreases |acts|
  {
    if acts == [] || !Enabled(s, acts[0]) then []
    else
      (if acts[0] == Commit(p) then [(s.procs[p].user, s.procs[p].next)] else [])
      + OwnCommits(Apply(s, acts[0]), acts[1..], p)
  }

  predicate Succeeding(pc: Proc) {
    pc.CleaningPrevious? || pc == Finished(true)
  }

  predicate Failing(pc: Proc) {
    pc.CleaningUpload? || pc == Finished(false)
  }

  lemma EndingMoves(s: State, a: Action, p: Pid)
    requires Enabled(s, a) && p in s.procs && (Succeeding(s.procs[p]) || Failing(s.procs[p]))
    ensures p in Apply(s, a).procs && a != Commit(p)
    ensures Succeeding(s.procs[p]) ==> Succeeding(Apply(s, a).procs[p])
    ensures Failing(s.procs[p]) ==> Failing(Apply(s, a).procs[p])
  {
    if a.p != p {
      OthersStay(s, a, p);
    }
  }

  // After its commit or its rollback a call commits nothing, and its answer is settled.
  lemma {:induction false} EndingCommitsNothing(s: State, acts: seq<Action>, t: State, p: Pid)
    requires Run(s, acts, t) && p in s.procs && (Succeeding(s.procs[p]) || Failing(s.procs[p]))
    ensures p in t.procs && OwnCommits(s, acts, p) == []
    ensures Succeeding(s.procs[p]) ==> Succeeding(t.procs[p])
    ensures Failing(s.procs[p]) ==> Failing(t.procs[p])
    decreases |acts|
  {
    if acts != [] {
      EndingMoves(s, acts[0], p);
      EndingCommitsNothing(Apply(s, acts[0]), acts[1..], t, p);
    }
  }

  lemma WritingMoves(s: State, a: Action, p: Pid)
    requires Enabled(s, a) && p in s.procs && (s.procs[p].Writing? || s.procs[p].Locked?)
    ensures p in Apply(s, a).procs
    ensures var pc, next := s.procs[p], Apply(s, a).procs[p];
            if a == Commit(p) then Succeeding(next)
            else Failing(next) || ((next.Writing? || next.Locked?) && next.user == pc.user && next.next == pc.next)
  {
    if a.p != p {
      OthersStay(s, a, p);
    }
  }

  // A call about to write succeeds if and only if it commits, exactly once: its image, for its user.
  lemma {:induction false} WritingCommits(s: State, acts: seq<Action>, t: State, p: Pid, ok: bool)
    requires Run(s, acts, t) && p in s.procs && (s.procs[p].Writing? || s.procs[p].Locked?)
    requires p in t.procs && t.procs[p] == Finished(ok)
    ensures OwnCommits(s, acts, p) == if ok then [(s.procs[p].user, s.procs[p].next)] else []
    decreases |acts|
  {
    var a, s1 := acts[0], Apply(s, acts[0]);
    WritingMoves(s, a, p);
    if s1.procs[p].Writing? || s1.procs[p].Locked? {
      WritingCommits(s1, acts[1..], t, p, ok);
    } else {
      EndingCommitsNothing(s1, acts[1..], t, p);
    }
  }

  lemma ReplacingMoves(s: State, a: Action, p: Pid)
    requires Enabled(s, a) && p in s.procs && s.procs[p].Replacing?
    ensures p in Apply(s, a).procs && a != Commit(p) && s.nextKey <= Apply(s, a).nextKey
    ensures var pc, next := s.procs[p], Apply(s, a).procs[p];
            next == pc || next == Finished(false) || next == Writing(pc.user, Stored(s.nextKey))
  {
    if a.p != p {
      OthersStay(s, a, p);
    }
  }

  // So does a call that replaces: an object uploaded by it, under a key that was fresh.
  lemma {:induction false} ReplacingCommits(s: State, acts: seq<Action>, t: State, p: Pid, ok: bool)
    returns (key: ObjectKey)
    requires Run(s, acts, t) && p in s.procs && s.procs[p].Replacing? && p in t.procs && t.procs[p] == Finished(ok)
    ensures OwnCommits(s, acts, p) == if ok then [(s.procs[p].user, Stored(key))] else []
    ensures s.nextKey <= key
    decreases |acts|
  {
    var a, s1 := acts[0], Apply(s, acts[0]);
    ReplacingMoves(s, a, p);
    if s1.procs[p].Replacing? {
      key := ReplacingCommits(s1, acts[1..], t, p, ok);
    } else if s1.procs[p].Writing? {
      key := s.nextKey;
      WritingCommits(s1, acts[1..], t, p, ok);
    } else {
      key := s.nextKey;
      EndingCommitsNothing(s1, acts[1..], t, p);
    }
  }

  // ---------- Without faults ----------

  // The steps that fail although nothing stands in the way.
  predicate Faulty(s: State, a: Action) {
    a.UploadFails? || a.DeleteFails? || (a.Abort? && a.p in s.procs && !Excused(s, s.procs[a.p]))
  }

  // A transaction that gives up for a reason: its row stays locked, or there is no such row.
  predicate Excused(s: State, pc: Proc) {
    (pc.Writing? && RowLocked(s, pc.user)) || (pc.Locked? && pc.user !in s.images)
  }

  ghost predicate Smooth(s: State, acts: seq<Action>)
    decreases |acts|
  {
    acts == [] || (Enabled(s, acts[0]) && !Faulty(s, acts[0]) && Smooth(Apply(s, acts[0]), acts[1..]))
  }

  lemma {:induction false} SmoothAppended(s: State, acts: seq<Action>, t: State, more: seq<Action>)
    requires Run(s, acts, t) && Smooth(s, acts) && Smooth(t, more)
    ensures Smooth(s, acts + more)
    decreases |acts|
  {
    if acts == [] {
      assert acts + more == more;
    } else {
      SmoothAppended(Apply(s, acts[0]), acts[1..], t, more);
      assert (acts + more)[0] == acts[0] && (acts + more)[1..] == acts[1..] + more;
    }
  }

  // Reached, if the store and the database are `reliable`, without a fault.
  ghost predicate ReachesBy(s: State, t: State, reliable: bool) {
    exists acts :: Run(s, acts, t) && (reliable ==> Smooth(s, acts))
  }

  lemma ReachesByStep(s: State, t: State, a: Action, reliable: bool)
    requires ReachesBy(s, t, reliable) && Enabled(t, a) && (reliable ==> !Faulty(t, a))
    ensures ReachesBy(s, Apply(t, a), reliable)
  {
    var acts :| Run(s, acts, t) && (reliable ==> Smooth(s, acts));
    assert [a][1..] == [];
    assert Run(t, [a], Apply(t, a));
    RunAppended(s, acts, t, [a], Apply(t, a));
    if reliable {
      assert Smooth(Apply(t, a), [a][1..]);
      SmoothAppended(s, acts, t, [a]);
    }
  }

  lemma ReachesBySelf(s: State, reliable: bool)
    ensures ReachesBy(s, s, reliable)
  {
    assert Run(s, [], s) && Smooth(s, []);
  }

  // Somewhere in the run the call's transaction gives up for a reason.
  ghost predicate GivesUp(s: State, acts: seq<Action>, p: Pid)
    decreases |acts|
  {
    acts != [] && Enabled(s, acts[0]) &&
    ((acts[0] == Abort(p) && Excused(s, s.procs[p])) || GivesUp(Apply(s, acts[0]), acts[1..], p))
  }

  lemma SmoothMoves(s: State, a: Action, p: Pid)
    requires Enabled(s, a) && !Faulty(s, a) && p in s.procs && !Failing(s.procs[p])
    ensures p in Apply(s, a).procs && (Failing(Apply(s, a).procs[p]) ==> a == Abort(p) && Excused(s, s.procs[p]))
  {
    if a.p != p {
      OthersStay(s, a, p);
    }
  }

  // Without faults a call fails only by giving up.
  lemma {:induction false} SmoothFailureGaveUp(s: State, acts: seq<Action>, t: State, p: Pid)
    requires Run(s, acts, t) && Smooth(s, acts) && p in s.procs && !Failing(s.procs[p])
    requires p in t.procs && t.procs[p] == Finished(false)
    ensures GivesUp(s, acts, p)
    decreases |acts|
  {
    SmoothMoves(s, acts[0], p);
    if !Failing(Apply(s, acts[0]).procs[p]) {
      SmoothFailureGaveUp(Apply(s, acts[0]), acts[1..], t, p);
    }
  }

  // Left alone, a call about to write for a user whose row is free writes, cleans up and succeeds.
  lemma AloneSucceeds(s: State, p: Pid, user: UserId, next: Image) returns (t: State)
    requires Inv(s) && p in s.procs && s.procs[p] == Writing(user, next) && user in s.images && !RowLocked(s, user)
    ensures ReachesBy(s, t, true) && p in t.procs && t.procs[p] == Finished(true)
    ensures t.images == s.images[user := next]
    ensures t.store == if s.images[user].Stored? then s.store - {s.images[user].key} else s.store
  {
    var previous := s.images[user];
    var s1 := Put(s, p, Locked(user, next, previous));
    ReachesBySelf(s, true);
    assert Apply(s, Lock(p)) == s1;
    ReachesByStep(s, s, Lock(p), true);
    var s2 := DoCommit(s1, p, user, next, previous);
    assert Apply(s1, Commit(p)) == s2;
    ReachesByStep(s, s1, Commit(p), true);
    t := s2;
    if previous.Stored? {
      t := DoDelete(s2, p, previous.key, true, false);
      assert s2.procs[p] == CleaningPrevious(previous.key) && Apply(s2, Delete(p)) == t;
      ReachesByStep(s, s2, Delete(p), true);
    }
  }

  // What the service promises of a call that began in `start` and ended in `t`.
  ghost predicate CommittedOnly(start: State, t: State, p: Pid, reliable: bool, ok: bool,
                                commits: seq<(UserId, Image)>) {
    exists acts ::
      && Run(start, acts, t) && (reliable ==> Smooth(start, acts))
      && OwnCommits(start, acts, p) == commits
      && (reliable && !ok ==> GivesUp(start, acts, p))
  }

  lemma ClearEnds(start: State, t: State, p: Pid, user: UserId, reliable: bool, ok: bool)
    requires ReachesBy(start, t, reliable) && p in start.procs && start.procs[p] == Writing(user, NoImage)
    requires p in t.procs && t.procs[p] == Finished(ok)
    ensures CommittedOnly(start, t, p, reliable, ok, if ok then [(user, NoImage)] else [])
  {
    var acts :| Run(start, acts, t) && (reliable ==> Smooth(start, acts));
    WritingCommits(start, acts, t, p, ok);
    if reliable && !ok {
      SmoothFailureGaveUp(start, acts, t, p);
    }
  }

  lemma ReplaceEnds(start: State, t: State, p: Pid, user: UserId, reliable: bool, ok: bool) returns (key: ObjectKey)
    requires ReachesBy(start, t, reliable) && p in start.procs && start.procs[p] == Replacing(user)
    requires p in t.procs && t.procs[p] == Finished(ok)
    ensures CommittedOnly(start, t, p, reliable, ok, if ok then [(user, Stored(key))] else []) && start.nextKey <= key
  {
    var acts :| Run(start, acts, t) && (reliable ==> Smooth(start, acts));
    key := ReplacingCommits(start, acts, t, p, ok);
    if reliable && !ok {
      SmoothFailureGaveUp(start, acts, t, p);
    }
  }
}
