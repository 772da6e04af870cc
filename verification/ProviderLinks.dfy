// The tables behind provider sign-in and the single SQL statements that read or change them
// (src/auth/account-linking/pending-provider-link.repository.ts, src/auth/account/auth-provider.repository.ts,
// src/auth/account/account-user.repository.ts).
module ProviderLinks {
  import opened Options

  type Id = nat
  type UserId = nat
  // A raw token and its SHA-256 hash are identified: hashing is taken to be injective.
  type Token = nat
  type Time = int
  type Text(==,!new)

  const LINK_TTL_MS: int := 15 * 60 * 1000
  const PENDING_LINK_RESEND_COOLDOWN_MS: int := 60 * 1000

  datatype Key = Key(provider: Text, account: Text)

  datatype Pending = Pending(userId: UserId, key: Key, tokenHash: Token, expiresAt: Time, createdAt: Time)

  type PendingTable = map<Id, Pending>
  // The unique index on (provider, providerAccountId) makes the link table a map.
  type LinkTable = map<Key, UserId>

  // The OR of the two composite keys.
  predicate Matches(r: Pending, user: UserId, key: Key) {
    r.key == key || (r.userId == user && r.key.provider == key.provider)
  }

  function Matching(t: PendingTable, user: UserId, key: Key): set<Id> {
    set i | i in t && Matches(t[i], user, key)
  }

  // Two rows that one of the three unique indexes keeps apart.
  predicate Clash(a: Pending, b: Pending) {
    Matches(a, b.userId, b.key) || a.tokenHash == b.tokenHash
  }

  ghost predicate UniqueKeys(t: PendingTable) {
    forall i, j :: i in t && j in t && Clash(t[i], t[j]) ==> i == j
  }

  predicate IsNewest(t: PendingTable, user: UserId, key: Key, i: Id) {
    i in Matching(t, user, key) && forall j :: j in Matching(t, user, key) ==> t[j].createdAt <= t[i].createdAt
  }

  // A matching row is younger than the cooldown.
  predicate CoolingDown(t: PendingTable, user: UserId, key: Key, now: Time) {
    exists i :: i in Matching(t, user, key) && now - t[i].createdAt < PENDING_LINK_RESEND_COOLDOWN_MS
  }

  lemma NewestExists(t: PendingTable, user: UserId, key: Key, ids: set<Id>) returns (i: Id)
    requires ids != {} && ids <= t.Keys
    ensures i in ids && forall j :: j in ids ==> t[j].createdAt <= t[i].createdAt
    decreases |ids|
  {
    i :| i in ids;
    if ids != {i} {
      assert (ids - {i}) + {i} == ids;
      var k := NewestExists(t, user, key, ids - {i});
      if t[i].createdAt < t[k].createdAt {
        i := k;
      }
    }
  }

  // At most one row per composite key, so at most two rows match.
  lemma AtMostTwoMatch(t: PendingTable, user: UserId, key: Key)
    requires UniqueKeys(t)
    ensures |Matching(t, user, key)| <= 2
  {
    var byKey := set i | i in t && t[i].key == key;
    var byUser := set i | i in t && t[i].userId == user && t[i].key.provider == key.provider;
    assert Matching(t, user, key) == byKey + byUser;
    AtMostOne(byKey);
    AtMostOne(byUser);
  }

  lemma AtMostOne(ids: set<Id>)
    requires forall i, j :: i in ids && j in ids ==> i == j
    ensures |ids| <= 1
  {
    if ids != {} {
      var i :| i in ids;
      assert ids == {i};
    }
  }

  class PendingProviderLinkRepository {
    var rows: PendingTable
    var nextId: Id

    ghost predicate Valid()
      reads this
    {
      UniqueKeys(rows) && forall i :: i in rows ==> i < nextId
    }

    constructor ()
      ensures Valid() && rows == map[] && nextId == 0
    {
      rows, nextId := map[], 0;
    }

    // Newest first; ties are broken by the database.
    method FindExisting(user: UserId, key: Key) returns (found: Option<Id>)
      ensures found.Some? ==> IsNewest(rows, user, key, found.value)
      ensures found.None? ==> Matching(rows, user, key) == {}
    {
      var ids := Matching(rows, user, key);
      if ids == {} {
        return None;
      }
      ghost var newest := NewestExists(rows, user, key, ids);
      var i :| i in ids && IsNewest(rows, user, key, i);
      return Some(i);
    }

    // The commit of the issue transaction: the rows its `deleteMany` saw go, the new row comes, unless a
    // row committed meanwhile holds one of its unique keys. The id is drawn either way.
    method ReplaceRows(doomed: set<Id>, row: Pending) returns (created: Option<Id>)
      requires Valid()
      modifies this
      ensures Valid()
      ensures created.None? <==> exists i :: i in old(rows) && i !in doomed && Clash(old(rows)[i], row)
      ensures created.None? ==> rows == old(rows)
      ensures created.Some? ==> created.value == old(nextId) && rows == (old(rows) - doomed)[old(nextId) := row]
      ensures nextId == old(nextId) + 1
    {
      if i :| i in rows && i !in doomed && Clash(rows[i], row) {
        nextId := nextId + 1;
        return None;
      }
      created := Some(nextId);
      rows := (rows - doomed)[nextId := row];
      nextId := nextId + 1;
    }

    method FindValid(tokenHash: Token, now: Time) returns (found: Option<(Id, Pending)>)
      ensures found.Some? ==>
                && found.value.0 in rows && rows[found.value.0] == found.value.1
                && found.value.1.tokenHash == tokenHash && found.value.1.expiresAt > now
      ensures found.None? ==> forall i :: i in rows && rows[i].tokenHash == tokenHash ==> rows[i].expiresAt <= now
    {
      if i :| i in rows && rows[i].tokenHash == tokenHash && rows[i].expiresAt > now {
        return Some((i, rows[i]));
      }
      return None;
    }

    method DeleteIfCurrent(id: Id, tokenHash: Token) returns (deleted: bool)
      requires Valid()
      modifies this`rows
      ensures Valid()
      ensures deleted == (id in old(rows) && old(rows)[id].tokenHash == tokenHash)
      ensures rows == if deleted then old(rows) - {id} else old(rows)
    {
      deleted := id in rows && rows[id].tokenHash == tokenHash;
      if deleted {
        rows := rows - {id};
      }
    }

    method DeleteExpired(now: Time)
      requires Valid()
      modifies this`rows
      ensures Valid()
      ensures rows == Unexpired(old(rows), now)
    {
      rows := map i | i in rows && !(rows[i].expiresAt <= now) :: rows[i];
    }
  }

  predicate Claimable(t: PendingTable, id: Id, tokenHash: Token, now: Time) {
    id in t && t[id].tokenHash == tokenHash && t[id].expiresAt > now
  }

  // The row `findValid` returns; the unique index on `tokenHash` leaves the database no choice.
  ghost function FindClaimable(t: PendingTable, token: Token, now: Time): Option<Id> {
    if i :| Claimable(t, i, token, now) then Some(i) else None
  }

  function Unexpired(t: PendingTable, now: Time): PendingTable {
    map i | i in t && t[i].expiresAt > now :: t[i]
  }

  class AuthProviderRepository {
    var links: LinkTable

    constructor ()
      ensures links == map[]
    {
      links := map[];
    }

    method FindAccountByProvider(key: Key) returns (user: Option<UserId>)
      ensures user == if key in links then Some(links[key]) else None
    {
      user := if key in links then Some(links[key]) else None;
    }

    // `false` stands for the unique-constraint violation P2002: a link is never overwritten.
    method Create(user: UserId, key: Key) returns (ok: bool)
      modifies this
      ensures ok == (key !in old(links))
      ensures links == if ok then old(links)[key := user] else old(links)
    {
      ok := key !in links;
      if ok {
        links := links[key := user];
      }
    }
  }

  class AccountUserRepository {
    // By email, which is unique.
    var users: map<Text, UserId>
    var nextId: UserId

    constructor ()
      ensures users == map[] && nextId == 0
    {
      users, nextId := map[], 0;
    }

    method FindIdByEmail(email: Text) returns (user: Option<UserId>)
      ensures user == if email in users then Some(users[email]) else None
    {
      user := if email in users then Some(users[email]) else None;
    }

    method CreatePasswordless(email: Text) returns (user: Option<UserId>)
      modifies this
      ensures user.None? <==> email in old(users)
      ensures user.None? ==> users == old(users)
      ensures user.Some? ==> user.value == old(nextId) && users == old(users)[email := user.value]
      ensures nextId == old(nextId) + 1
    {
      user := if email in users then None else Some(nextId);
      if user.Some? {
        users := users[email := nextId];
      }
      nextId := nextId + 1;
    }
  }
}
