// The avatar protocol as a transition system (src/users/avatar-replacement.service.ts): any number of
// `replace` and `clear` calls over an object store and a row-locked column, every external call of which may
// fail, and, failing, may or may not have had its effect on the store.
module Avatars {

  type Pid = nat
  type UserId = nat
  // A storage key; each carries a fresh UUID.
  type ObjectKey = nat

  datatype Image = NoImage | Stored(key: ObjectKey)

  // Where a call stands between two awaits. `next` is the image the call will write.
  datatype Proc =
    | Replacing(user: UserId)
    | Writing(user: UserId, next: Image)
    | Locked(user: UserId, next: Image, previous: Image)
    | CleaningPrevious(key: ObjectKey)
    | CleaningUpload(key: ObjectKey)
    // `ok` is false when the call throws.
    | Finished(ok: bool)

  // `replace`, and `clear`, which has nothing to upload.
  predicate IsCall(pc: Proc) {
    pc.Replacing? || (pc.Writing? && pc.next.NoImage?)
  }

  // `logged` is the set of keys named in an error entry. `attempts` counts the delete calls per key and
  // `committed[u]` is the sequence of images of `u` from the first to the present one; both are history.
  datatype State = State(
    store: set<ObjectKey>,
    images: map<UserId, Image>,
    nextKey: ObjectKey,
    procs: map<Pid, Proc>,
    logged: set<ObjectKey>,
    attempts: map<ObjectKey, nat>,
    committed: map<UserId, seq<Image>>)

  // `landed` says whether a failing storage call had its effect all the same.
  datatype Action =
    | Begin(p: Pid, call: Proc)
    | Upload(p: Pid)
    | UploadFails(p: Pid, landed: bool)
    | Lock(p: Pid)
    | Commit(p: Pid)
    | Abort(p: Pid)
    | Delete(p: Pid)
    | DeleteFails(p: Pid, landed: bool)

  function Put(s: State, p: Pid, pc: Proc): State {
    s.(procs := s.procs[p := pc])
  }

  // What is left to do after the transaction: remove the superseded object after a commit, the new object
  // after a rollback.
  function AfterCommit(previous: Image): Proc {
    if previous.Stored? then CleaningPrevious(previous.key) else Finished(true)
  }

  function AfterRollback(pc: Proc): Proc {
    if (pc.Writing? || pc.Locked?) && pc.next.Stored? then CleaningUpload(pc.next.key) else Finished(false)
  }

  predicate Cleaning(pc: Proc) {
    pc.CleaningPrevious? || pc.CleaningUpload?
  }

  // `SELECT ... FOR UPDATE` of an existing row waits while another transaction holds it.
  predicate RowLocked(s: State, user: UserId) {
    user in s.images && exists p :: p in s.procs && s.procs[p].Locked? && s.procs[p].user == user
  }

  function CurrentImage(s: State, user: UserId): Image {
    if user in s.images then s.images[user] else NoImage
  }

  function Attempts(attempts: map<ObjectKey, nat>, key: ObjectKey): nat {
    if key in attempts then attempts[key] else 0
  }

  predicate Enabled(s: State, a: Action) {
    if a.Begin? then a.p !in s.procs && IsCall(a.call)
    else
      a.p in s.procs &&
      var pc := s.procs[a.p];
      match a
      case Upload(_) => pc.Replacing?
      case UploadFails(_, _) => pc.Replacing?
      case Lock(_) => pc.Writing? && !RowLocked(s, pc.user)
      case Commit(_) => pc.Locked? && pc.user in s.images
      case Abort(_) => pc.Replacing? || pc.Writing? || pc.Locked?
      case Delete(_) => Cleaning(pc)
      case DeleteFails(_, _) => Cleaning(pc)
  }

  function DoUpload(s: State, p: Pid, user: UserId): State {
    Put(s.(store := s.store + {s.nextKey}, nextKey := s.nextKey + 1), p, Writing(user, Stored(s.nextKey)))
  }

  function DoUploadFails(s: State, p: Pid, landed: bool): State {
    Put(s.(store := if landed then s.store + {s.nextKey} else s.store,
           logged := s.logged + {s.nextKey},
           nextKey := s.nextKey + 1), p, Finished(false))
  }

  function DoCommit(s: State, p: Pid, user: UserId, next: Image, previous: Image): State {
    var history := if user in s.committed then s.committed[user] else [];
    Put(s.(images := s.images[user := next], committed := s.committed[user := history + [next]]),
        p, AfterCommit(previous))
  }

  function DoDelete(s: State, p: Pid, key: ObjectKey, gone: bool, fails: bool): State
    requires p in s.procs
  {
    Put(s.(store := if gone then s.store - {key} else s.store,
           logged := if fails then s.logged + {key} else s.logged,
           attempts := s.attempts[key := Attempts(s.attempts, key) + 1]),
        p, Finished(s.procs[p].CleaningPrevious?))
  }

  function Apply(s: State, a: Action): State
    requires Enabled(s, a)
  {
    match a
    case Begin(p, call) => Put(s, p, call)
    case Upload(p) => DoUpload(s, p, s.procs[p].user)
    case UploadFails(p, landed) => DoUploadFails(s, p, landed)
    case Lock(p) => Put(s, p, Locked(s.procs[p].user, s.procs[p].next, CurrentImage(s, s.procs[p].user)))
    case Commit(p) => DoCommit(s, p, s.procs[p].user, s.procs[p].next, s.procs[p].previous)
    case Abort(p) => Put(s, p, AfterRollback(s.procs[p]))
    case Delete(p) => DoDelete(s, p, s.procs[p].key, true, false)
    case DeleteFails(p, landed) => DoDelete(s, p, s.procs[p].key, landed, true)
  }

  // Any avatars to begin with: each user's own object, present, and nothing else.
  ghost predicate Init(s: State) {
    && s.procs == map[] && s.logged == {} && s.attempts == map[]
    && (forall k :: k in s.store <==> Referenced(s.images, k))
    && (forall k :: k in s.store ==> k < s.nextKey)
    && SingleOwner(s.images)
    && s.committed.Keys == s.images.Keys
    && (forall u :: u in s.images ==> s.committed[u] == [s.images[u]])
  }

  ghost predicate Run(s: State, acts: seq<Action>, t: State)
    decreases |acts|
  {
    if acts == [] then s == t else Enabled(s, acts[0]) && Run(Apply(s, acts[0]), acts[1..], t)
  }

  // ---------- Who answers for an object ----------

  ghost predicate Referenced(images: map<UserId, Image>, k: ObjectKey) {
    exists u :: u in images && images[u] == Stored(k)
  }

  // Uploaded by a call that has yet to commit or roll back.
  predicate Carries(pc: Proc, k: ObjectKey) {
    (pc.Writing? || pc.Locked?) && pc.next == Stored(k)
  }

  predicate Awaits(pc: Proc, k: ObjectKey) {
    Cleaning(pc) && pc.key == k
  }

  predicate Holds(s: State, p: Pid, k: ObjectKey) {
    p in s.procs && (Carries(s.procs[p], k) || Awaits(s.procs[p], k))
  }

  ghost predicate Held(s: State, k: ObjectKey) {
    exists p :: Holds(s, p, k)
  }

  ghost predicate SingleOwner(images: map<UserId, Image>) {
    forall u, v :: u in images && v in images && images[u].Stored? && images[u] == images[v] ==> u == v
  }

  // ---------- The inductive invariant ----------

  // The three kinds of ownership exclude one another, none of them is shared, and a key whose deletion was
  // attempted or that is logged has no owner any more.
  ghost predicate OwnershipOk(s: State) {
    && SingleOwner(s.images)
    && (forall p, q, k :: Holds(s, p, k) && Holds(s, q, k) ==> p == q)
    && (forall k: ObjectKey :: Held(s, k) ==>
          !Referenced(s.images, k) && k !in s.logged && Attempts(s.attempts, k) == 0 && k < s.nextKey)
    && (forall k: ObjectKey :: Referenced(s.images, k) ==>
          k !in s.logged && Attempts(s.attempts, k) == 0 && k < s.nextKey)
    && (forall k :: k in s.logged || k in s.attempts ==> k < s.nextKey)
    && (forall k :: Attempts(s.attempts, k) <= 1)
  }

  ghost predicate StoreOk(s: State) {
    && (forall k: ObjectKey :: Referenced(s.images, k) || Held(s, k) ==> k in s.store)
    && (forall k :: k in s.store ==> Referenced(s.images, k) || Held(s, k) || k in s.logged)
  }

  predicate HoldsRow(s: State, p: Pid) {
    p in s.procs && s.procs[p].Locked? && s.procs[p].user in s.images
  }

  // The lock: at most one transaction per existing row, and it has read the image that is still there.
  ghost predicate LocksOk(s: State) {
    && (forall p, q :: HoldsRow(s, p) && HoldsRow(s, q) && s.procs[p].user == s.procs[q].user ==> p == q)
    && (forall p :: HoldsRow(s, p) ==> s.procs[p].previous == s.images[s.procs[p].user])
  }

  // `k` was superseded, and its deletion is attempted or awaits exactly the call that superseded it.
  ghost predicate Disposed(s: State, k: ObjectKey) {
    Attempts(s.attempts, k) == 1 || exists p :: p in s.procs && s.procs[p] == CleaningPrevious(k)
  }

  ghost predicate HistoryOk(s: State) {
    && s.committed.Keys == s.images.Keys
    && (forall u :: u in s.images ==> |s.committed[u]| > 0 && s.committed[u][|s.committed[u]| - 1] == s.images[u])
    && (forall u, i :: u in s.images && 0 <= i < |s.committed[u]| - 1 && s.committed[u][i].Stored? ==>
          Disposed(s, s.committed[u][i].key))
  }

  ghost predicate Inv(s: State) {
    OwnershipOk(s) && StoreOk(s) && LocksOk(s) && HistoryOk(s)
  }

  // ---------- Preservation ----------

  // A call that was not cleaning up leaves what others dispose of.
  lemma DisposedStay(s: State, t: State, p: Pid, pc: Proc)
    requires t.procs == s.procs[p := pc] && t.attempts == s.attempts && (p in s.procs ==> !Cleaning(s.procs[p]))
    ensures forall k: ObjectKey :: Disposed(s, k) ==> Disposed(t, k)
  {
    forall k: ObjectKey | Disposed(s, k)
      ensures Disposed(t, k)
    {
      if Attempts(s.attempts, k) != 1 {
        var q :| q in s.procs && s.procs[q] == CleaningPrevious(k);
        assert q in t.procs && t.procs[q] == CleaningPrevious(k);
      }
    }
  }

  // A step of `p` that hands every object it held to its next state.
  lemma LocalStep(s: State, p: Pid, pc: Proc)
    requires Inv(s) && (p in s.procs ==> !Cleaning(s.procs[p]))
    requires forall k: ObjectKey :: (Carries(pc, k) || Awaits(pc, k)) <==> Holds(s, p, k)
    requires LocksOk(Put(s, p, pc))
    ensures Inv(Put(s, p, pc))
  {
    var t := Put(s, p, pc);
    assert forall q, k: ObjectKey :: Holds(t, q, k) <==> Holds(s, q, k);
    assert forall k: ObjectKey :: Held(t, k) <==> Held(s, k);
    DisposedStay(s, t, p, pc);
  }

  lemma UploadKeepsInv(s: State, p: Pid, user: UserId)
    requires Inv(s) && p in s.procs && s.procs[p] == Replacing(user)
    ensures Inv(DoUpload(s, p, user))
  {
    var t, n := DoUpload(s, p, user), s.nextKey;
    assert forall q, k: ObjectKey :: Holds(t, q, k) <==> Holds(s, q, k) || (q == p && k == n);
    assert Holds(t, p, n);
    assert forall k: ObjectKey :: Held(t, k) <==> Held(s, k) || k == n;
    assert forall q :: HoldsRow(t, q) <==> HoldsRow(s, q);
    assert forall k: ObjectKey :: Disposed(s, k) ==> Disposed(t, k);
  }

  // A call that held nothing and holds nothing.
  lemma HoldersStay(s: State, t: State, p: Pid, pc: Proc)
    requires t.procs == s.procs[p := pc] && p in s.procs && s.procs[p].Replacing? && pc.Finished?
    ensures forall q, k: ObjectKey :: Holds(t, q, k) <==> Holds(s, q, k)
    ensures forall k: ObjectKey :: Held(t, k) <==> Held(s, k)
  {
    assert forall q, k: ObjectKey :: Holds(t, q, k) <==> Holds(s, q, k);
    assert forall k: ObjectKey :: Held(t, k) ==> Held(s, k);
  }

  lemma UploadFailsKeepsInv(s: State, p: Pid, user: UserId, landed: bool)
    requires Inv(s) && p in s.procs && s.procs[p] == Replacing(user)
    ensures Inv(DoUploadFails(s, p, landed))
  {
    var t := DoUploadFails(s, p, landed);
    HoldersStay(s, t, p, Finished(false));
    assert OwnershipOk(t) && StoreOk(t);
    assert LocksOk(t) by {
      assert forall q :: HoldsRow(t, q) <==> HoldsRow(s, q);
    }
    DisposedStay(s, t, p, Finished(false));
  }

  // The row lock makes the image read in the transaction the one the commit supersedes.
  lemma CommitSwapsOwners(s: State, p: Pid, user: UserId, next: Image, previous: Image)
    requires Inv(s) && HoldsRow(s, p) && s.procs[p] == Locked(user, next, previous)
    ensures var t := DoCommit(s, p, user, next, previous);
            && (forall k: ObjectKey :: Referenced(t.images, k) <==>
                  (Referenced(s.images, k) && previous != Stored(k)) || next == Stored(k))
            && (forall q, k: ObjectKey :: Holds(t, q, k) <==>
                  (q != p && Holds(s, q, k)) || (q == p && previous == Stored(k)))
            && (forall k: ObjectKey :: Held(t, k) <==> (Held(s, k) && next != Stored(k)) || previous == Stored(k))
            && (previous.Stored? ==> Referenced(s.images, previous.key))
            && (next.Stored? ==> Holds(s, p, next.key))
  {
    var t := DoCommit(s, p, user, next, previous);
    assert previous == s.images[user];
    forall k: ObjectKey
      ensures Referenced(t.images, k) <==> (Referenced(s.images, k) && previous != Stored(k)) || next == Stored(k)
    {
      if Referenced(s.images, k) && previous != Stored(k) {
        var u :| u in s.images && s.images[u] == Stored(k);
        assert u in t.images && t.images[u] == Stored(k);
      }
      if next == Stored(k) {
        assert user in t.images && t.images[user] == Stored(k);
        assert Holds(s, p, k);
      }
    }
    assert forall q, k: ObjectKey ::
        Holds(t, q, k) <==> (q != p && Holds(s, q, k)) || (q == p && previous == Stored(k));
    forall k: ObjectKey
      ensures Held(t, k) <==> (Held(s, k) && next != Stored(k)) || previous == Stored(k)
    {
      if Held(s, k) && next != Stored(k) {
        var q :| Holds(s, q, k);
        assert Holds(t, q, k);
      }
      if previous == Stored(k) {
        assert Holds(t, p, k);
      }
      if Held(t, k) && previous != Stored(k) {
        var q :| Holds(t, q, k);
        assert Holds(s, q, k) && q != p;
        assert next == Stored(k) ==> Holds(s, p, k);
      }
    }
  }

  lemma CommitKeepsOwnership(s: State, p: Pid, user: UserId, next: Image, previous: Image)
    requires Inv(s) && HoldsRow(s, p) && s.procs[p] == Locked(user, next, previous)
    ensures var t := DoCommit(s, p, user, next, previous); OwnershipOk(t) && StoreOk(t)
  {
    CommitSwapsOwners(s, p, user, next, previous);
    if next.Stored? {
      assert Held(s, next.key);
    }
  }

  lemma CommitKeepsHistory(s: State, p: Pid, user: UserId, next: Image, previous: Image)
    requires LocksOk(s) && HistoryOk(s) && HoldsRow(s, p) && s.procs[p] == Locked(user, next, previous)
    ensures var t := DoCommit(s, p, user, next, previous); LocksOk(t) && HistoryOk(t)
  {
    var t := DoCommit(s, p, user, next, previous);
    CommitKeepsLocks(s, p, user, next, previous);
    CommitKeepsDisposed(s, p, user, next, previous);
    assert t.committed[user] == s.committed[user] + [next];
    forall u, i | u in t.images && 0 <= i < |t.committed[u]| - 1 && t.committed[u][i].Stored?
      ensures Disposed(t, t.committed[u][i].key)
    {
      if u == user && i == |s.committed[user]| - 1 {
        assert t.committed[u][i] == previous;
      } else {
        assert t.committed[u][i] == s.committed[u][i] && Disposed(s, s.committed[u][i].key);
      }
    }
  }

  lemma CommitKeepsLocks(s: State, p: Pid, user: UserId, next: Image, previous: Image)
    requires LocksOk(s) && HoldsRow(s, p) && s.procs[p] == Locked(user, next, previous)
    ensures LocksOk(DoCommit(s, p, user, next, previous))
  {
    var t := DoCommit(s, p, user, next, previous);
    assert forall q :: HoldsRow(t, q) ==> q != p && HoldsRow(s, q);
  }

  lemma CommitKeepsDisposed(s: State, p: Pid, user: UserId, next: Image, previous: Image)
    requires p in s.procs && s.procs[p] == Locked(user, next, previous)
    ensures var t := DoCommit(s, p, user, next, previous);
            && (forall k: ObjectKey :: Disposed(s, k) ==> Disposed(t, k))
            && (previous.Stored? ==> Disposed(t, previous.key))
  {
    var t := DoCommit(s, p, user, next, previous);
    DisposedStay(s, t, p, AfterCommit(previous));
    if previous.Stored? {
      assert p in t.procs && t.procs[p] == CleaningPrevious(previous.key);
    }
  }

  lemma DeleteKeepsOwnership(s: State, p: Pid, gone: bool, fails: bool)
    requires Inv(s) && p in s.procs && Cleaning(s.procs[p]) && (gone || fails)
    ensures var t := DoDelete(s, p, s.procs[p].key, gone, fails); OwnershipOk(t) && StoreOk(t)
  {
    var key := s.procs[p].key;
    var t := DoDelete(s, p, key, gone, fails);
    assert Holds(s, p, key) && Held(s, key);
    assert forall k: ObjectKey :: Attempts(t.attempts, k) == Attempts(s.attempts, k) + if k == key then 1 else 0;
    assert forall q, k: ObjectKey :: Holds(t, q, k) <==> q != p && Holds(s, q, k);
    forall k: ObjectKey
      ensures Held(t, k) <==> Held(s, k) && k != key
    {
      if Held(s, k) && k != key {
        var q :| Holds(s, q, k);
        assert Holds(t, q, k);
      }
    }
  }

  lemma DeleteKeepsHistory(s: State, p: Pid, gone: bool, fails: bool)
    requires Inv(s) && p in s.procs && Cleaning(s.procs[p])
    ensures var t := DoDelete(s, p, s.procs[p].key, gone, fails); LocksOk(t) && HistoryOk(t)
  {
    var key := s.procs[p].key;
    var t := DoDelete(s, p, key, gone, fails);
    assert Holds(s, p, key);
    assert forall q :: HoldsRow(t, q) ==> q != p && HoldsRow(s, q);
    forall k: ObjectKey | Disposed(s, k)
      ensures Disposed(t, k)
    {
      if Attempts(s.attempts, k) != 1 && k != key {
        var q :| q in s.procs && s.procs[q] == CleaningPrevious(k);
        assert q in t.procs && t.procs[q] == CleaningPrevious(k);
      }
    }
  }

  lemma LockKeepsInv(s: State, p: Pid)
    requires Inv(s) && Enabled(s, Lock(p))
    ensures Inv(Apply(s, Lock(p)))
  {
    var pc := s.procs[p];
    var t := Put(s, p, Locked(pc.user, pc.next, CurrentImage(s, pc.user)));
    assert forall q :: HoldsRow(t, q) && q != p ==> HoldsRow(s, q) && s.procs[q].user != pc.user;
    LocalStep(s, p, t.procs[p]);
  }

  lemma AbortKeepsInv(s: State, p: Pid)
    requires Inv(s) && Enabled(s, Abort(p))
    ensures Inv(Apply(s, Abort(p)))
  {
    var t := Put(s, p, AfterRollback(s.procs[p]));
    assert forall q :: HoldsRow(t, q) ==> q != p && HoldsRow(s, q);
    LocalStep(s, p, AfterRollback(s.procs[p]));
  }

  lemma StepKeepsInv(s: State, a: Action)
    requires Inv(s) && Enabled(s, a)
    ensures Inv(Apply(s, a))
  {
    match a
    case Begin(p, call) =>
      assert forall q :: HoldsRow(Put(s, p, call), q) <==> HoldsRow(s, q);
      LocalStep(s, p, call);
    case Upload(p) => UploadKeepsInv(s, p, s.procs[p].user);
    case UploadFails(p, landed) => UploadFailsKeepsInv(s, p, s.procs[p].user, landed);
    case Lock(p) => LockKeepsInv(s, p);
    case Commit(p) =>
      CommitKeepsOwnership(s, p, s.procs[p].user, s.procs[p].next, s.procs[p].previous);
      CommitKeepsHistory(s, p, s.procs[p].user, s.procs[p].next, s.procs[p].previous);
    case Abort(p) => AbortKeepsInv(s, p);
    case Delete(p) =>
      DeleteKeepsOwnership(s, p, true, false);
      DeleteKeepsHistory(s, p, true, false);
    case DeleteFails(p, landed) =>
      DeleteKeepsOwnership(s, p, landed, true);
      DeleteKeepsHistory(s, p, landed, true);
  }

  lemma InitIsInv(s: State)
    requires Init(s)
    ensures Inv(s)
  {
    forall u | u in s.images && s.images[u].Stored?
      ensures Referenced(s.images, s.images[u].key)
    {
    }
  }

  lemma {:induction false} RunKeepsInv(s: State, acts: seq<Action>, t: State)
    requires Inv(s) && Run(s, acts, t)
    ensures Inv(t)
    decreases |acts|
  {
    if acts != [] {
      StepKeepsInv(s, acts[0]);
      RunKeepsInv(Apply(s, acts[0]), acts[1..], t);
    }
  }

  lemma {:induction false} RunAppended(s: State, acts: seq<Action>, t: State, more: seq<Action>, u: State)
    requires Run(s, acts, t) && Run(t, more, u)
    ensures Run(s, acts + more, u)
    decreases |acts|
  {
    if acts == [] {
      assert acts + more == more;
    } else {
      RunAppended(Apply(s, acts[0]), acts[1..], t, more, u);
      assert (acts + more)[0] == acts[0] && (acts + more)[1..] == acts[1..] + more;
    }
  }

  // ---------- Reachable states ----------

  ghost predicate Reaches(s: State, t: State) {
    exists acts :: Run(s, acts, t)
  }

  ghost predicate Reachable(s: State) {
    exists s0 :: Init(s0) && Reaches(s0, s)
  }

  lemma ReachesStep(s: State, t: State, a: Action)
    requires Reaches(s, t) && Enabled(t, a)
    ensures Reaches(s, Apply(t, a))
  {
    var acts :| Run(s, acts, t);
    assert [a][1..] == [];
    assert Run(t, [a], Apply(t, a));
    RunAppended(s, acts, t, [a], Apply(t, a));
  }

  lemma ReachesSelf(s: State)
    ensures Reaches(s, s)
  {
    assert Run(s, [], s);
  }

  lemma ReachableIsInv(s: State)
    requires Reachable(s)
    ensures Inv(s)
  {
    var s0 :| Init(s0) && Reaches(s0, s);
    var acts :| Run(s0, acts, s);
    InitIsInv(s0);
    RunKeepsInv(s0, acts, s);
  }

  // ---------- Main results ----------

  // Every stored object is one user's image, or held by exactly one call that has yet to commit it or to
  // delete it, or named in an error entry, and only one of the three. No key is deleted twice.
  lemma Conservation(s: State, acts: seq<Action>, t: State, k: ObjectKey)
    requires Init(s) && Run(s, acts, t)
    ensures k in t.store ==> Referenced(t.images, k) || Held(t, k) || k in t.logged
    ensures !(Referenced(t.images, k) && Held(t, k)) && !(Referenced(t.images, k) && k in t.logged)
    ensures !(Held(t, k) && k in t.logged)
    ensures forall u, v :: u in t.images && v in t.images && t.images[u] == t.images[v] == Stored(k) ==> u == v
    ensures forall p, q :: Holds(t, p, k) && Holds(t, q, k) ==> p == q
    ensures Attempts(t.attempts, k) <= 1
  {
    InitIsInv(s);
    RunKeepsInv(s, acts, t);
  }

  // No image ever names an object that is not there.
  lemma NoDanglingAvatar(s: State, acts: seq<Action>, t: State, u: UserId)
    requires Init(s) && Run(s, acts, t) && u in t.images && t.images[u].Stored?
    ensures t.images[u].key in t.store
  {
    InitIsInv(s);
    RunKeepsInv(s, acts, t);
    assert Referenced(t.images, t.images[u].key);
  }

  ghost predicate Quiet(s: State) {
    forall p :: p in s.procs ==> s.procs[p].Finished?
  }

  // When every call has ended, what is stored beyond the current images is in the log; each image superseded
  // on the way had exactly one delete attempt, the current one none; and what is superseded and not in the log
  // is gone.
  lemma QuiescentStore(s: State, acts: seq<Action>, t: State)
    requires Init(s) && Run(s, acts, t) && Quiet(t)
    ensures t.committed.Keys == t.images.Keys
    ensures forall k :: k in t.store && k !in t.logged ==> Referenced(t.images, k)
    ensures forall u, i :: u in t.images && 0 <= i < |t.committed[u]| - 1 && t.committed[u][i].Stored? ==>
              var k := t.committed[u][i].key;
              Attempts(t.attempts, k) == 1 && (k !in t.logged ==> k !in t.store)
    ensures forall u :: u in t.images ==>
              |t.committed[u]| > 0 && t.committed[u][|t.committed[u]| - 1] == t.images[u]
    ensures forall u :: u in t.images && t.images[u].Stored? ==> Attempts(t.attempts, t.images[u].key) == 0
  {
    InitIsInv(s);
    RunKeepsInv(s, acts, t);
    forall u | u in t.images && t.images[u].Stored?
      ensures Referenced(t.images, t.images[u].key)
    {
    }
    forall u, i | u in t.images && 0 <= i < |t.committed[u]| - 1 && t.committed[u][i].Stored?
      ensures Attempts(t.attempts, t.committed[u][i].key) == 1
    {
      assert Disposed(t, t.committed[u][i].key);
    }
  }
}
