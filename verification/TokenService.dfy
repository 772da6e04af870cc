// `TokenService` as the code runs it: one call, awaiting the database, while every other call, the cron
// and the clock go on (src/auth/token/token.service.ts).
module TokenServices {
  import opened Options
  import opened RefreshTokens
  import opened TokenRotation
  import opened TokenTheorems

  class TokenService {
    const ttl: nat
    const tokens: RefreshTokenRepository
    // Whether every call to the database succeeds.
    const reliable: bool
    var clock: Time
    var nextToken: Token
    // The whole deployment, this service's tables and clock being part of it.
    ghost var world: State

    ghost predicate Valid()
      reads this, tokens
    {
      && tokens.Valid() && Reachable(world)
      && world.table == tokens.rows && world.nextId == tokens.nextId
      && world.ttl == ttl && world.clock == clock && world.nextToken == nextToken
    }

    constructor (ttl: nat, clock: Time, reliable: bool)
      ensures Valid() && Init(world) && fresh(tokens) && this.ttl == ttl && this.reliable == reliable
    {
      this.ttl, this.clock, this.nextToken, this.reliable := ttl, clock, 0, reliable;
      var repository := new RefreshTokenRepository();
      tokens := repository;
      world := State(ttl, clock, map[], 0, 0, map[], {}, 0, {});
      ReachesSelf(State(ttl, clock, map[], 0, 0, map[], {}, 0, {}));
    }

    // Call `p` stands at `pc`, in a world reached from `start`.
    ghost predicate At(start: State, p: Pid, pc: Proc)
      reads this, tokens
    {
      Valid() && ReachesBy(start, world, reliable) && p in world.procs && world.procs[p] == pc
    }

    // An await: the caller learns only that some run took place that left its own call alone.
    method Interfere(ghost start: State, ghost p: Pid, ghost pc: Proc)
      requires At(start, p, pc)
      modifies this, tokens
      ensures At(start, p, pc)
    {
    }

    ghost method Record(start: State, a: Action)
      requires Reachable(world) && ReachesBy(start, world, reliable) && Enabled(world, a) && (reliable ==> !a.Fail?)
      modifies this`world
      ensures Reachable(world) && ReachesBy(start, world, reliable) && world == Apply(old(world), a)
    {
      ghost var s0 :| Init(s0) && Reaches(s0, world);
      ReachesStep(s0, world, a);
      ReachesByStep(start, world, a, reliable);
      world := Apply(world, a);
    }

    // The call begins; what it does is told from here.
    ghost method Start(p: Pid, call: Proc) returns (start: State)
      requires Valid() && p !in world.procs && IsCall(call)
      modifies this`world
      ensures start == Put(old(world), p, call) && At(start, p, call)
    {
      ReachableStep(world, Begin(p, call));
      world := Put(world, p, call);
      start := world;
      ReachesBySelf(start, reliable);
    }

    // Whether the next call to the database fails.
    method Breaks() returns (broken: bool)
      ensures reliable ==> !broken
    {
      broken := *;
      if reliable {
        broken := false;
      }
    }

    // A database error ends the call.
    ghost method Abort(start: State, p: Pid, pc: Proc)
      requires At(start, p, pc) && !Finished(pc) && !reliable
      modifies this`world
      ensures At(start, p, Aborted(pc))
    {
      Record(start, Fail(p));
    }

    // The pair of `createTokenPair`: 32 fresh random bytes and the expiry.
    method Mint(ghost start: State, ghost p: Pid, ghost pc: Proc) returns (minted: Token, expiresAt: Time)
      requires At(start, p, pc) && (pc.Approved? || pc.Opening?)
      modifies this
      ensures At(start, p, if pc.Approved? then Minted(pc.raw, pc.id, pc.user, minted, expiresAt)
                           else OpeningMinted(pc.user, minted, expiresAt))
      ensures minted == old(nextToken) && nextToken > minted && expiresAt == old(clock) + ttl
    {
      minted, expiresAt := nextToken, clock + ttl;
      nextToken := nextToken + 1;
      Record(start, Advance(p));
    }

    method IssueTokens(ghost p: Pid, user: UserId) returns (r: Outcome)
      requires Valid() && p !in world.procs
      modifies this, tokens
      ensures At(Put(old(world), p, Opening(user)), p, Opened(r))
      ensures reliable ==> r.Issued?
    {
      ghost var start := Start(p, Opening(user));
      var minted, expiresAt := Mint(start, p, Opening(user));
      Interfere(start, p, OpeningMinted(user, minted, expiresAt));
      var broken := Breaks();
      if broken {
        Abort(start, p, OpeningMinted(user, minted, expiresAt));
        return Failed;
      }
      CommitOpening(start, p, user, minted, expiresAt);
      return Issued(minted);
    }

    method CommitOpening(ghost start: State, ghost p: Pid, user: UserId, minted: Token, expiresAt: Time)
      requires At(start, p, OpeningMinted(user, minted, expiresAt))
      modifies this`world, tokens
      ensures At(start, p, Opened(Issued(minted)))
      ensures tokens.rows == old(tokens.rows)[old(tokens.nextId) := Row(user, minted, expiresAt, None, None)]
    {
      assert ProcOk(world, world.procs[p]) && TableOk(world) by {
        ReachableIsInv(world);
      }
      var _ := tokens.Create(user, minted, expiresAt);
      Record(start, Advance(p));
    }

    method Rotate(ghost p: Pid, raw: Token) returns (r: Outcome)
      requires Valid() && p !in world.procs
      modifies this, tokens
      ensures At(Put(old(world), p, Rotating(raw)), p, Rotated(raw, r))
      ensures reliable ==> r != Failed
    {
      ghost var start := Start(p, Rotating(raw));
      Interfere(start, p, Rotating(raw));
      var broken := Breaks();
      if broken {
        Abort(start, p, Rotating(raw));
        return Failed;
      }
      var stored := Read(start, p, raw);
      if stored.None? {
        return Rejected;
      }
      var (id, row) := stored.value;
      Interfere(start, p, Checking(raw, id, row));
      if row.replacedById.Some? {
        Check(start, p, raw, id, row);
        ghost var before;
        r, before := Collapse(start, p, raw, row.userId);
        return;
      }
      if row.revokedAt.Some? || row.expiresAt <= clock {
        Check(start, p, raw, id, row);
        return Rejected;
      }
      Check(start, p, raw, id, row);
      r := ReplaceRow(start, p, raw, id, row.userId);
    }

    method ReplaceRow(ghost start: State, ghost p: Pid, raw: Token, id: Id, user: UserId) returns (r: Outcome)
      requires At(start, p, Approved(raw, id, user))
      modifies this, tokens
      ensures At(start, p, Rotated(raw, r))
      ensures reliable ==> r != Failed
    {
      Interfere(start, p, Approved(raw, id, user));
      var minted, expiresAt := Mint(start, p, Approved(raw, id, user));
      Interfere(start, p, Minted(raw, id, user, minted, expiresAt));
      var broken := Breaks();
      if broken {
        Abort(start, p, Minted(raw, id, user, minted, expiresAt));
        return Failed;
      }
      var marked := Exchange(start, p, raw, id, user, minted, expiresAt);
      if marked {
        return Issued(minted);
      }
      ghost var before;
      r, before := Collapse(start, p, raw, user);
    }

    method Read(ghost start: State, ghost p: Pid, raw: Token) returns (stored: Option<(Id, Row)>)
      requires At(start, p, Rotating(raw))
      modifies this`world
      ensures At(start, p, if stored.None? then Rotated(raw, Rejected)
                           else Checking(raw, stored.value.0, stored.value.1))
    {
      stored := tokens.FindByHash(raw);
      Record(start, Advance(p));
    }

    ghost method Check(start: State, p: Pid, raw: Token, id: Id, row: Row)
      requires At(start, p, Checking(raw, id, row))
      modifies this`world
      ensures At(start, p, if row.replacedById.Some? then Collapsing(raw, row.userId)
                           else if row.revokedAt.Some? || row.expiresAt <= clock then Rotated(raw, Rejected)
                           else Approved(raw, id, row.userId))
    {
      Record(start, Advance(p));
    }

    // The transaction: on a lost compare-and-set the rows, but not the id sequence, are rolled back.
    method Exchange(ghost start: State, ghost p: Pid, ghost raw: Token, id: Id, user: UserId, minted: Token,
                    expiresAt: Time)
      returns (marked: bool)
      requires At(start, p, Minted(raw, id, user, minted, expiresAt))
      modifies this`world, tokens
      ensures At(start, p, if marked then Rotated(raw, Issued(minted)) else Collapsing(raw, user))
      ensures marked == Unused(old(tokens.rows), id)
      ensures var successor := old(tokens.nextId);
              tokens.rows ==
              if marked then
                WithReplacement(old(tokens.rows)[successor := Row(user, minted, expiresAt, None, None)], id, successor)
              else old(tokens.rows)
    {
      assert ProcOk(world, world.procs[p]) && TableOk(world) by {
        ReachableIsInv(world);
      }
      var before := tokens.rows;
      var successor := tokens.Create(user, minted, expiresAt);
      marked := tokens.MarkAsUsed(id, successor);
      if !marked {
        tokens.rows := before;
      }
      Record(start, Advance(p));
    }

    // `before` is the table at the revocation.
    method Collapse(ghost start: State, ghost p: Pid, raw: Token, user: UserId)
      returns (r: Outcome, ghost before: Table)
      requires At(start, p, Collapsing(raw, user))
      modifies this, tokens
      ensures At(start, p, Rotated(raw, r)) && !r.Issued? && (reliable ==> r == Rejected)
      ensures r == Rejected ==> RevokesUser(before, tokens.rows, user, clock)
      ensures r != Rejected ==> tokens.rows == before
    {
      Interfere(start, p, Collapsing(raw, user));
      before := tokens.rows;
      var broken := Breaks();
      if broken {
        Abort(start, p, Collapsing(raw, user));
        return Failed, before;
      }
      RevokeUser(start, p, raw, user);
      return Rejected, before;
    }

    method RevokeUser(ghost start: State, ghost p: Pid, ghost raw: Token, user: UserId)
      requires At(start, p, Collapsing(raw, user))
      modifies this`world, tokens`rows
      ensures At(start, p, Rotated(raw, Rejected)) && RevokesUser(old(tokens.rows), tokens.rows, user, clock)
    {
      tokens.RevokeAllForUser(user, clock);
      Record(start, Advance(p));
    }

    method Revoke(ghost p: Pid, raw: Token)
      requires Valid() && p !in world.procs
      modifies this, tokens
      ensures At(Put(old(world), p, LoggingOut(raw)), p, LoggedOut)
    {
      ghost var start := Start(p, LoggingOut(raw));
      Interfere(start, p, LoggingOut(raw));
      var broken := Breaks();
      if broken {
        Abort(start, p, LoggingOut(raw));
        return;
      }
      var stored := FindForLogout(start, p, raw);
      if stored.Some? {
        Interfere(start, p, LogoutFound(stored.value));
        var broken := Breaks();
        if broken {
          Abort(start, p, LogoutFound(stored.value));
          return;
        }
        RevokeRow(start, p, stored.value);
      }
    }

    method FindForLogout(ghost start: State, ghost p: Pid, raw: Token) returns (found: Option<Id>)
      requires At(start, p, LoggingOut(raw))
      modifies this`world
      ensures At(start, p, if found.Some? then LogoutFound(found.value) else LoggedOut)
    {
      var stored := tokens.FindByHash(raw);
      found := if stored.Some? && stored.value.1.revokedAt.None? then Some(stored.value.0) else None;
      Record(start, Advance(p));
    }

    method RevokeRow(ghost start: State, ghost p: Pid, id: Id)
      requires At(start, p, LogoutFound(id))
      modifies this`world, tokens`rows
      ensures At(start, p, LoggedOut)
      ensures forall i :: i in old(tokens.rows) && i != id ==> i in tokens.rows && tokens.rows[i] == old(tokens.rows)[i]
      ensures tokens.rows.Keys == old(tokens.rows).Keys
      ensures id in tokens.rows ==> tokens.rows[id] == old(tokens.rows)[id].(revokedAt := Some(clock))
    {
      var _ := tokens.RevokeById(id, clock);
      Record(start, Advance(p));
    }

    // The cron: `cutoff` is the time it read before the delete ran.
    method RemoveExpiredTokens(cutoff: Time) returns (deleted: nat)
      requires Valid() && cutoff <= clock
      modifies this`world, tokens`rows
      ensures Valid() && ReachesBy(old(world), world, reliable) && world.procs == old(world.procs)
      ensures forall i :: i in tokens.rows <==> i in old(tokens.rows) && old(tokens.rows)[i].expiresAt >= cutoff
      ensures forall i :: i in tokens.rows ==> tokens.rows[i] == old(tokens.rows)[i]
      ensures deleted == |old(tokens.rows)| - |tokens.rows|
    {
      ghost var start := world;
      ReachesBySelf(start, reliable);
      deleted := tokens.DeleteExpired(cutoff);
      Record(start, Reap(cutoff));
    }
  }
}
