// The refresh-token table and the single SQL statements that read or change it
// (src/auth/token/refresh-token.repository.ts).
module RefreshTokens {
  import opened Options
  import opened Cardinality

  type Id = nat
  type UserId = nat
  // A raw token and its SHA-256 hash are identified: hashing is taken to be injective.
  type Token = nat
  type Time = int

  datatype Row = Row(
    userId: UserId,
    tokenHash: Token,
    expiresAt: Time,
    revokedAt: Option<Time>,
    replacedById: Option<Id>)

  type Table = map<Id, Row>

  // The unique index on `tokenHash`.
  ghost predicate UniqueHashes(t: Table) {
    forall i, j :: i in t && j in t && t[i].tokenHash == t[j].tokenHash ==> i == j
  }

  predicate Unused(t: Table, id: Id) {
    id in t && t[id].replacedById.None?
  }

  function WithReplacement(t: Table, id: Id, successor: Id): Table {
    if Unused(t, id) then t[id := t[id].(replacedById := Some(successor))] else t
  }

  function WithUserRevoked(t: Table, user: UserId, now: Time): Table {
    map i | i in t ::
      if t[i].userId == user && t[i].revokedAt.None? then t[i].(revokedAt := Some(now)) else t[i]
  }

  function WithoutExpired(t: Table, now: Time): Table {
    map i | i in t && !(t[i].expiresAt < now) :: t[i]
  }

  // What a revocation of all sessions of a user does: their unrevoked rows are stamped, and nothing else changes.
  ghost predicate RevokesUser(before: Table, after: Table, user: UserId, now: Time) {
    && after.Keys == before.Keys
    && (forall i :: i in before && before[i].userId != user ==> after[i] == before[i])
    && (forall i :: i in before && before[i].revokedAt.Some? ==> after[i] == before[i])
    && (forall i :: i in before && before[i].userId == user && before[i].revokedAt.None? ==>
          after[i] == before[i].(revokedAt := Some(now)))
  }

  class RefreshTokenRepository {
    var rows: Table
    var nextId: Id

    ghost predicate Valid()
      reads this
    {
      && UniqueHashes(rows)
      && forall i :: i in rows ==> i < nextId
    }

    constructor ()
      ensures Valid() && rows == map[] && nextId == 0
    {
      rows, nextId := map[], 0;
    }

    // The hash of 32 fresh random bytes never meets the unique index.
    method Create(userId: UserId, tokenHash: Token, expiresAt: Time) returns (id: Id)
      requires Valid()
      requires forall i :: i in rows ==> rows[i].tokenHash != tokenHash
      modifies this
      ensures Valid()
      ensures id == old(nextId) && nextId == id + 1
      ensures rows == old(rows)[id := Row(userId, tokenHash, expiresAt, None, None)]
    {
      id := nextId;
      rows := rows[id := Row(userId, tokenHash, expiresAt, None, None)];
      nextId := nextId + 1;
    }

    method FindByHash(tokenHash: Token) returns (found: Option<(Id, Row)>)
      requires Valid()
      ensures found.Some? ==>
                found.value.0 in rows && rows[found.value.0] == found.value.1 && found.value.1.tokenHash == tokenHash
      ensures found.None? ==> forall i :: i in rows ==> rows[i].tokenHash != tokenHash
    {
      if i :| i in rows && rows[i].tokenHash == tokenHash {
        return Some((i, rows[i]));
      }
      return None;
    }

    // The compare-and-set behind rotation: it does not look at `revokedAt`.
    method MarkAsUsed(id: Id, replacedById: Id) returns (marked: bool)
      requires Valid()
      modifies this`rows
      ensures Valid()
      ensures marked == Unused(old(rows), id)
      ensures rows == WithReplacement(old(rows), id, replacedById)
      ensures rows == if marked then old(rows)[id := old(rows)[id].(replacedById := Some(replacedById))] else old(rows)
    {
      marked := id in rows && rows[id].replacedById.None?;
      if marked {
        rows := rows[id := rows[id].(replacedById := Some(replacedById))];
      }
    }

    // Prisma's `update` throws when no row has the id.
    method RevokeById(id: Id, now: Time) returns (ok: bool)
      requires Valid()
      modifies this`rows
      ensures Valid()
      ensures ok == (id in old(rows))
      ensures rows == if ok then old(rows)[id := old(rows)[id].(revokedAt := Some(now))] else old(rows)
    {
      ok := id in rows;
      if ok {
        rows := rows[id := rows[id].(revokedAt := Some(now))];
      }
    }

    method RevokeAllForUser(userId: UserId, now: Time)
      requires Valid()
      modifies this`rows
      ensures Valid()
      ensures rows == WithUserRevoked(old(rows), userId, now)
      ensures RevokesUser(old(rows), rows, userId, now)
    {
      rows := map i | i in rows ::
        if rows[i].userId == userId && rows[i].revokedAt.None? then rows[i].(revokedAt := Some(now)) else rows[i];
    }

    method DeleteExpired(now: Time) returns (count: nat)
      requires Valid()
      modifies this`rows
      ensures Valid()
      ensures rows == WithoutExpired(old(rows), now)
      ensures forall i :: i in rows <==> i in old(rows) && old(rows)[i].expiresAt >= now
      ensures forall i :: i in rows ==> rows[i] == old(rows)[i]
      ensures count == |old(rows)| - |rows|
    {
      var kept := map i | i in rows && !(rows[i].expiresAt < now) :: rows[i];
      assert kept.Keys <= rows.Keys;
      CardinalityMonotone(kept.Keys, rows.Keys);
      count := |rows| - |kept|;
      rows := kept;
    }
  }
}
