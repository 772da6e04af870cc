// `AvatarReplacementService` as the code runs it: one call, awaiting the store and the database, while every
// other call goes on (src/users/avatar-replacement.service.ts, src/users/users.repository.ts,
// src/file-storage/file-storage.service.ts).
module AvatarServices {
  import opened Avatars
  import opened AvatarEffects

  // How the set of locked rows changes with one call's state.
  lemma SameLocks(s: State, t: State, p: Pid)
    requires t.images.Keys == s.images.Keys && p in t.procs && t.procs == s.procs[p := t.procs[p]]
    requires !t.procs[p].Locked? && (p in s.procs ==> !s.procs[p].Locked?)
    ensures forall u: UserId :: RowLocked(t, u) <==> RowLocked(s, u)
  {
    forall u: UserId
      ensures RowLocked(t, u) <==> RowLocked(s, u)
    {
      if RowLocked(s, u) {
        var q :| q in s.procs && s.procs[q].Locked? && s.procs[q].user == u;
        assert t.procs[q] == s.procs[q];
      }
    }
  }

  lemma LockTaken(s: State, p: Pid, pc: Proc)
    requires p in s.procs && !s.procs[p].Locked? && pc.Locked?
    ensures forall u: UserId :: RowLocked(Put(s, p, pc), u) <==> RowLocked(s, u) || (u == pc.user && u in s.images)
  {
    var t := Put(s, p, pc);
    forall u: UserId
      ensures RowLocked(t, u) <==> RowLocked(s, u) || (u == pc.user && u in s.images)
    {
      if RowLocked(s, u) {
        var q :| q in s.procs && s.procs[q].Locked? && s.procs[q].user == u;
        assert t.procs[q] == s.procs[q];
      }
      assert t.procs[p] == pc;
    }
  }

  lemma LockReleased(s: State, t: State, p: Pid)
    requires LocksOk(s) && p in s.procs && s.procs[p].Locked?
    requires t.images.Keys == s.images.Keys && p in t.procs && t.procs == s.procs[p := t.procs[p]]
    requires !t.procs[p].Locked?
    ensures forall u: UserId :: RowLocked(t, u) <==> RowLocked(s, u) && u != s.procs[p].user
  {
    forall u: UserId
      ensures RowLocked(t, u) <==> RowLocked(s, u) && u != s.procs[p].user
    {
      if RowLocked(t, u) {
        var q :| q in t.procs && t.procs[q].Locked? && t.procs[q].user == u;
        assert q != p && HoldsRow(s, q);
        assert u == s.procs[p].user ==> HoldsRow(s, p);
      }
      if RowLocked(s, u) && u != s.procs[p].user {
        var q :| q in s.procs && s.procs[q].Locked? && s.procs[q].user == u;
        assert t.procs[q] == s.procs[q];
      }
    }
  }

  class UsersRepository {
    // The `image` column, by user, and the rows a transaction holds.
    var images: map<UserId, Image>
    var locked: set<UserId>

    constructor (users: set<UserId>)
      ensures images == (map u | u in users :: NoImage) && locked == {}
    {
      images := map u | u in users :: NoImage;
      locked := {};
    }

    // `SELECT "image" ... FOR UPDATE`: `ok` is false when the wait for the row ends in a lock timeout. No row
    // reads as no image and locks nothing.
    method LockImage(user: UserId) returns (ok: bool, image: Image)
      modifies this`locked
      ensures ok == (user !in old(locked))
      ensures image == if user in images then images[user] else NoImage
      ensures locked == if ok && user in images then old(locked) + {user} else old(locked)
    {
      ok := user !in locked;
      image := if user in images then images[user] else NoImage;
      if ok && user in images {
        locked := locked + {user};
      }
    }

    // Prisma's `update` throws when there is no such row.
    method Update(user: UserId, image: Image) returns (ok: bool)
      modifies this`images
      ensures ok == (user in old(images))
      ensures images == if ok then old(images)[user := image] else old(images)
    {
      ok := user in images;
      if ok {
        images := images[user := image];
      }
    }

    // The end of a transaction.
    method Release(user: UserId)
      modifies this`locked
      ensures locked == old(locked) - {user}
    {
      locked := locked - {user};
    }
  }

  // The store behind `FileStorageService`, whose failures end in its error log.
  class FileStorage {
    // Whether every call to the store succeeds.
    const reliable: bool
    var objects: set<ObjectKey>
    var logged: set<ObjectKey>

    constructor (reliable: bool)
      ensures objects == {} && logged == {} && this.reliable == reliable
    {
      objects, logged := {}, {};
      this.reliable := reliable;
    }

    method Breaks() returns (broken: bool)
      ensures reliable ==> !broken
    {
      broken := *;
      if reliable {
        broken := false;
      }
    }

    method Upload(key: ObjectKey) returns (ok: bool, ghost landed: bool)
      modifies this
      ensures (ok ==> landed) && (reliable ==> ok)
      ensures objects == if landed then old(objects) + {key} else old(objects)
      ensures logged == if ok then old(logged) else old(logged) + {key}
    {
      var broken := Breaks();
      if !broken {
        objects := objects + {key};
        return true, true;
      }
      logged := logged + {key};
      landed := false;
      ok := false;
      if * {
        objects := objects + {key};
        landed := true;
      }
    }

    method Delete(key: ObjectKey) returns (ok: bool, ghost landed: bool)
      modifies this
      ensures (ok ==> landed) && (reliable ==> ok)
      ensures objects == if landed then old(objects) - {key} else old(objects)
      ensures logged == if ok then old(logged) else old(logged) + {key}
    {
      var broken := Breaks();
      if !broken {
        objects := objects - {key};
        return true, true;
      }
      logged := logged + {key};
      landed := false;
      ok := false;
      if * {
        objects := objects - {key};
        landed := true;
      }
    }
  }

  class AvatarReplacementService {
    const users: UsersRepository
    const storage: FileStorage
    // Whether every call to the store and the database succeeds.
    const reliable: bool
    var nextKey: ObjectKey
    // The whole deployment, this store and this table being part of it.
    ghost var world: State

    ghost predicate Valid()
      reads this, users, storage
    {
      && Reachable(world) && storage.reliable == reliable
      && world.images == users.images && world.store == storage.objects && world.logged == storage.logged
      && world.nextKey == nextKey
      && forall u: UserId :: u in users.locked <==> RowLocked(world, u)
    }

    // Call `p` stands at `pc`, in a world reached from `start`.
    ghost predicate At(start: State, p: Pid, pc: Proc)
      reads this, users, storage
    {
      Valid() && ReachesBy(start, world, reliable) && p in world.procs && world.procs[p] == pc
    }

    constructor (ids: set<UserId>, reliable: bool)
      ensures Valid() && Init(world) && this.reliable == reliable
    {
      nextKey, this.reliable := 0, reliable;
      var repository := new UsersRepository(ids);
      var store := new FileStorage(reliable);
      users, storage := repository, store;
      ghost var images := map u | u in ids :: NoImage;
      world := State({}, images, 0, map[], {}, map[], map u | u in ids :: [NoImage]);
      ReachesSelf(State({}, images, 0, map[], {}, map[], map u | u in ids :: [NoImage]));
    }

    // An await: the caller learns only that some run took place that left its own call alone.
    method Interfere(ghost start: State, ghost p: Pid, ghost pc: Proc)
      requires At(start, p, pc)
      modifies this, users, storage
      ensures At(start, p, pc)
    {
    }

    ghost method Record(start: State, a: Action)
      requires Reachable(world) && ReachesBy(start, world, reliable) && Enabled(world, a)
      requires reliable ==> !Faulty(world, a)
      modifies this`world
      ensures Reachable(world) && ReachesBy(start, world, reliable) && world == Apply(old(world), a)
    {
      ghost var s0 :| Init(s0) && Reaches(s0, world);
      ReachesStep(s0, world, a);
      ReachesByStep(start, world, a, reliable);
      world := Apply(world, a);
    }

    // The call begins; what it does is told from here.
    ghost method Start(p: Pid, call: Proc) returns (start: State)
      requires Valid() && p !in world.procs && IsCall(call)
      modifies this`world
      ensures start == Put(old(world), p, call) && At(start, p, call)
    {
      ghost var before := world;
      ghost var s0 :| Init(s0) && Reaches(s0, world);
      ReachesStep(s0, world, Begin(p, call));
      world := Put(world, p, call);
      start := world;
      ReachesBySelf(start, reliable);
      SameLocks(before, world, p);
    }

    // Whether the next call fails.
    method Breaks() returns (broken: bool)
      ensures reliable ==> !broken
    {
      broken := *;
      if reliable {
        broken := false;
      }
    }

    method Replace(ghost p: Pid, user: UserId) returns (ok: bool, ghost key: ObjectKey)
      requires Valid() && p !in world.procs
      modifies this, users, storage
      ensures At(Put(old(world), p, Replacing(user)), p, Finished(ok)) && old(nextKey) <= key
      ensures CommittedOnly(Put(old(world), p, Replacing(user)), world, p, reliable, ok,
                            if ok then [(user, Stored(key))] else [])
    {
      ghost var start := Start(p, Replacing(user));
      ok := ReplaceImage(start, p, user);
      key := ReplaceEnds(start, world, p, user, reliable, ok);
    }

    method ReplaceImage(ghost start: State, ghost p: Pid, user: UserId) returns (ok: bool)
      requires At(start, p, Replacing(user))
      modifies this, users, storage
      ensures At(start, p, Finished(ok))
    {
      Interfere(start, p, Replacing(user));
      var broken := Breaks();
      if broken {
        // The image could not be processed.
        RollBack(start, p, Replacing(user));
        return false;
      }
      var uploaded, uploadedKey := UploadNew(start, p, user);
      if !uploaded {
        return false;
      }
      Interfere(start, p, Writing(user, Stored(uploadedKey)));
      var previous: Image;
      ok, previous := AtomicUpdateAvatar(start, p, user, Stored(uploadedKey));
      if !ok {
        CleanUp(start, p, uploadedKey, CleaningUpload(uploadedKey));
      } else if previous.Stored? {
        CleanUp(start, p, previous.key, CleaningPrevious(previous.key));
      }
    }

    method Clear(ghost p: Pid, user: UserId) returns (ok: bool)
      requires Valid() && p !in world.procs
      modifies this, users, storage
      ensures At(Put(old(world), p, Writing(user, NoImage)), p, Finished(ok))
      ensures CommittedOnly(Put(old(world), p, Writing(user, NoImage)), world, p, reliable, ok,
                            if ok then [(user, NoImage)] else [])
    {
      ghost var start := Start(p, Writing(user, NoImage));
      Interfere(start, p, Writing(user, NoImage));
      var previous: Image;
      ok, previous := AtomicUpdateAvatar(start, p, user, NoImage);
      if ok && previous.Stored? {
        CleanUp(start, p, previous.key, CleaningPrevious(previous.key));
      }
      ClearEnds(start, world, p, user, reliable, ok);
    }

    method UploadNew(ghost start: State, ghost p: Pid, user: UserId) returns (ok: bool, key: ObjectKey)
      requires At(start, p, Replacing(user))
      modifies this, storage
      ensures At(start, p, if ok then Writing(user, Stored(key)) else Finished(false))
    {
      key := nextKey;
      nextKey := nextKey + 1;
      ghost var landed: bool;
      ok, landed := storage.Upload(key);
      if ok {
        Record(start, Upload(p));
      } else {
        Record(start, UploadFails(p, landed));
      }
      SameLocks(old(world), world, p);
    }

    // The transaction: lock and read, then write and commit, or roll back.
    method AtomicUpdateAvatar(ghost start: State, ghost p: Pid, user: UserId, next: Image)
      returns (ok: bool, previous: Image)
      requires At(start, p, Writing(user, next))
      modifies this, users, storage
      ensures At(start, p, if ok then AfterCommit(previous) else AfterRollback(Writing(user, next)))
    {
      var waited: bool;
      waited, previous := LockRow(start, p, user, next);
      if !waited {
        return false, NoImage;
      }
      Interfere(start, p, Locked(user, next, previous));
      var broken := Breaks();
      if broken {
        RollBackRow(start, p, user, next, previous);
        return false, previous;
      }
      ok := CommitRow(start, p, user, next, previous);
    }

    method LockRow(ghost start: State, ghost p: Pid, user: UserId, next: Image) returns (ok: bool, previous: Image)
      requires At(start, p, Writing(user, next))
      modifies this`world, users`locked
      ensures At(start, p, if ok then Locked(user, next, previous) else AfterRollback(Writing(user, next)))
    {
      ok, previous := users.LockImage(user);
      if ok {
        Record(start, Lock(p));
        LockTaken(old(world), p, Locked(user, next, previous));
      } else {
        RollBack(start, p, Writing(user, next));
      }
    }

    // An error before the row is locked.
    ghost method RollBack(start: State, p: Pid, pc: Proc)
      requires At(start, p, pc) && (pc.Replacing? || pc.Writing?)
      requires reliable ==> pc.Writing? && RowLocked(world, pc.user)
      modifies this`world
      ensures At(start, p, AfterRollback(pc))
    {
      Record(start, Abort(p));
      SameLocks(old(world), world, p);
    }

    // An error after it: the image is as it was.
    method RollBackRow(ghost start: State, ghost p: Pid, user: UserId, ghost next: Image, ghost previous: Image)
      requires At(start, p, Locked(user, next, previous))
      requires reliable ==> user !in users.images
      modifies this`world, users`locked
      ensures At(start, p, AfterRollback(Writing(user, next)))
    {
      ReachableIsInv(world);
      users.Release(user);
      Record(start, Abort(p));
      LockReleased(old(world), world, p);
    }

    method CommitRow(ghost start: State, ghost p: Pid, user: UserId, next: Image, previous: Image) returns (ok: bool)
      requires At(start, p, Locked(user, next, previous))
      modifies this`world, users
      ensures At(start, p, if ok then AfterCommit(previous) else AfterRollback(Writing(user, next)))
      ensures ok == (user in old(users.images)) && (ok ==> old(users.images)[user] == previous)
      ensures users.images == if ok then old(users.images)[user := next] else old(users.images)
    {
      if user !in users.images {
        RollBackRow(start, p, user, next, previous);
        return false;
      }
      assert LocksOk(world) && HistoryOk(world) by {
        ReachableIsInv(world);
      }
      ok := users.Update(user, next);
      users.Release(user);
      Record(start, Commit(p));
      assert world == DoCommit(old(world), p, user, next, previous);
      LockReleased(old(world), world, p);
    }

    // Best effort: a failure is only logged.
    method CleanUp(ghost start: State, ghost p: Pid, key: ObjectKey, ghost pc: Proc)
      requires At(start, p, pc) && Cleaning(pc) && pc.key == key
      modifies this, users, storage
      ensures At(start, p, Finished(pc.CleaningPrevious?))
    {
      Interfere(start, p, pc);
      DeleteObject(start, p, key, pc);
    }

    method DeleteObject(ghost start: State, ghost p: Pid, key: ObjectKey, ghost pc: Proc)
      requires At(start, p, pc) && Cleaning(pc) && pc.key == key
      modifies this`world, storage
      ensures At(start, p, Finished(pc.CleaningPrevious?))
    {
      ghost var landed: bool;
      var ok: bool;
      ok, landed := storage.Delete(key);
      if ok {
        Record(start, Delete(p));
      } else {
        Record(start, DeleteFails(p, landed));
      }
      assert world == DoDelete(old(world), p, key, landed, !ok);
      SameLocks(old(world), world, p);
    }
  }
}
