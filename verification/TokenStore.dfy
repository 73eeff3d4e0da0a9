/** The refresh-token table and its repository operations. Each statement or transaction is one atomic step that
    either takes effect or fails leaving the tables as they were. */
module TokenStore {
  import opened Types

  /** A row of refresh_tokens, keyed by its unique token hash. */
  datatype Row = Row(userId: int, expiresAt: int, revokedAt: Option<int>)

  /** The users table (id to Firebase UID) and the token table, whose user ids reference it. */
  datatype Tables = Tables(users: map<int, string>, tokens: map<string, Row>)

  datatype Failure = NotFound | DbError

  datatype Reply<+T> = Done(value: T) | Failed(failure: Failure)

  /** Where a transaction may be struck by a database failure. */
  datatype Fault = NoFault | BeginFails | UpdateFails | InsertFails | CommitFails

  // ---------------------------------------------------------------- reference definition

  predicate Active(db: Tables, hash: string, now: int) {
    hash in db.tokens && db.tokens[hash].revokedAt.None? && db.tokens[hash].expiresAt > now
  }

  function Lookup(db: Tables, hash: string, now: int): Reply<int> {
    if Active(db, hash, now) then Done(db.tokens[hash].userId) else Failed(NotFound)
  }

  /** The unique constraint on hashes and the foreign key on users. */
  predicate CanInsert(db: Tables, hash: string, userId: int) {
    hash !in db.tokens && userId in db.users
  }

  function Insert(db: Tables, hash: string, userId: int, expiresAt: int): Tables {
    db.(tokens := db.tokens[hash := Row(userId, expiresAt, None)])
  }

  function Revoke(db: Tables, hash: string, now: int): Tables {
    if hash in db.tokens && db.tokens[hash].revokedAt.None?
    then db.(tokens := db.tokens[hash := db.tokens[hash].(revokedAt := Some(now))])
    else db
  }

  function WithoutExpired(db: Tables, now: int): Tables {
    db.(tokens := map h | h in db.tokens && db.tokens[h].expiresAt >= now :: db.tokens[h])
  }

  /** Deleting a user takes the user's tokens along. */
  function WithoutUser(db: Tables, userId: int): Tables {
    Tables(db.users - {userId}, map h | h in db.tokens && db.tokens[h].userId != userId :: db.tokens[h])
  }

  /** Revoke the old row and insert the new one, or change nothing. */
  function Rotated(db: Tables, oldHash: string, newHash: string, userId: int, expiresAt: int, now: int)
    : (Tables, Reply<int>)
  {
    if !Active(db, oldHash, now) then (db, Failed(NotFound))
    else if !CanInsert(Revoke(db, oldHash, now), newHash, userId) then (db, Failed(DbError))
    else (Insert(Revoke(db, oldHash, now), newHash, userId, expiresAt), Done(db.tokens[oldHash].userId))
  }

  // ---------------------------------------------------------------- the repository

  class Database {
    var db: Tables

    constructor (db: Tables)
      ensures this.db == db
    {
      this.db := db;
    }

    method Create(hash: string, userId: int, expiresAt: int, fails: bool) returns (r: Reply<()>)
      modifies this
      ensures if fails || !CanInsert(old(db), hash, userId) then r == Failed(DbError) && db == old(db)
              else r == Done(()) && db == Insert(old(db), hash, userId, expiresAt)
      ensures r.Done? ==>
                && hash !in old(db).tokens && userId in old(db).users && db.users == old(db).users
                && db.tokens == old(db).tokens[hash := Row(userId, expiresAt, None)]
    {
      if fails || hash in db.tokens || userId !in db.users {
        return Failed(DbError);
      }
      db := db.(tokens := db.tokens[hash := Row(userId, expiresAt, None)]);
      return Done(());
    }

    method LookupActiveUserID(hash: string, now: int, fails: bool) returns (r: Reply<int>)
      ensures r == if fails then Failed(DbError) else Lookup(db, hash, now)
    {
      if fails {
        return Failed(DbError);
      }
      if hash !in db.tokens || db.tokens[hash].revokedAt.Some? || db.tokens[hash].expiresAt <= now {
        return Failed(NotFound);
      }
      return Done(db.tokens[hash].userId);
    }

    method FindByID(userId: int, fails: bool) returns (r: Reply<string>)
      ensures r == if fails then Failed(DbError)
                   else if userId in db.users then Done(db.users[userId])
                   else Failed(NotFound)
    {
      if fails {
        return Failed(DbError);
      }
      if userId !in db.users {
        return Failed(NotFound);
      }
      return Done(db.users[userId]);
    }

    /** One transaction: every failure after the first statement rolls back to the tables it began with. */
    method RotateRefreshToken(oldHash: string, newHash: string, userId: int, expiresAt: int, now: int, fault: Fault)
      returns (r: Reply<int>)
      modifies this
      ensures fault == NoFault ==> (db, r) == Rotated(old(db), oldHash, newHash, userId, expiresAt, now)
      ensures fault in {BeginFails, UpdateFails} ==> db == old(db) && r == Failed(DbError)
      ensures fault in {InsertFails, CommitFails} ==>
                db == old(db) && r == Failed(if Active(old(db), oldHash, now) then DbError else NotFound)
    {
      if fault == BeginFails {
        return Failed(DbError);
      }
      var before := db;
      if fault == UpdateFails {
        return Failed(DbError);
      }
      if oldHash !in db.tokens || db.tokens[oldHash].revokedAt.Some? || db.tokens[oldHash].expiresAt <= now {
        return Failed(NotFound);
      }
      var consumed := db.tokens[oldHash].userId;
      db := db.(tokens := db.tokens[oldHash := db.tokens[oldHash].(revokedAt := Some(now))]);
      if fault == InsertFails || newHash in db.tokens || userId !in db.users {
        db := before;
        return Failed(DbError);
      }
      db := db.(tokens := db.tokens[newHash := Row(userId, expiresAt, None)]);
      if fault == CommitFails {
        db := before;
        return Failed(DbError);
      }
      return Done(consumed);
    }

    method RevokeByHash(hash: string, now: int, fails: bool) returns (r: Reply<()>)
      modifies this
      ensures if fails then r == Failed(DbError) && db == old(db) else r == Done(()) && db == Revoke(old(db), hash, now)
      ensures !fails ==>
                && db.tokens.Keys == old(db).tokens.Keys && db.users == old(db).users
                && (forall h :: h in db.tokens && h != hash ==> db.tokens[h] == old(db).tokens[h])
                && (hash in db.tokens ==>
                      var before, after := old(db).tokens[hash], db.tokens[hash];
                      after == Row(before.userId, before.expiresAt,
                                   if before.revokedAt.Some? then before.revokedAt else Some(now)))
    {
      if fails {
        return Failed(DbError);
      }
      if hash in db.tokens && db.tokens[hash].revokedAt.None? {
        db := db.(tokens := db.tokens[hash := db.tokens[hash].(revokedAt := Some(now))]);
      }
      return Done(());
    }

    method DeleteExpired(now: int, fails: bool) returns (r: Reply<nat>)
      modifies this
      ensures fails ==> r == Failed(DbError) && db == old(db)
      ensures !fails ==> db == WithoutExpired(old(db), now) && r == Done(|old(db).tokens| - |db.tokens|)
      ensures !fails ==>
                && db.users == old(db).users
                && (forall h :: h in db.tokens <==> h in old(db).tokens && now <= old(db).tokens[h].expiresAt)
                && (forall h :: h in db.tokens ==> db.tokens[h] == old(db).tokens[h])
    {
      if fails {
        return Failed(DbError);
      }
      var expired := set h | h in db.tokens && db.tokens[h].expiresAt < now;
      var count := |expired|;
      RemoveCounts(db.tokens, expired);
      assert db.tokens - expired == WithoutExpired(db, now).tokens;
      db := db.(tokens := db.tokens - expired);
      return Done(count);
    }
  }

  lemma RemoveCounts<K, V>(m: map<K, V>, ks: set<K>)
    requires ks <= m.Keys
    ensures |m - ks| == |m| - |ks|
  {
    assert (m - ks).Keys == m.Keys - ks;
    assert |m.Keys - ks| == |m.Keys| - |ks|;
  }

  // ---------------------------------------------------------------- single steps

  /** A sweep never changes the answer to any lookup, now or later. */
  lemma CleanupKeepsLookups(db: Tables, swept: int, hash: string, now: int)
    requires swept <= now
    ensures Lookup(WithoutExpired(db, swept), hash, now) == Lookup(db, hash, now)
  {
  }

  /** With a user go exactly the user's tokens. */
  lemma UserTakesTokens(db: Tables, userId: int)
    ensures var db' := WithoutUser(db, userId);
            && (forall u :: u in db'.users <==> u in db.users && u != userId)
            && (forall u :: u in db'.users ==> db'.users[u] == db.users[u])
            && (forall h :: h in db'.tokens <==> h in db.tokens && db.tokens[h].userId != userId)
            && (forall h :: h in db'.tokens ==> db'.tokens[h] == db.tokens[h])
  {
  }

  /** A rotation swaps one active token for another: the old one is dead, the new one stands for the caller's user
      until it expires, and every other row is untouched. */
  lemma RotationSwaps(db: Tables, oldHash: string, newHash: string, userId: int, expiresAt: int, now: int, t: int)
    requires Rotated(db, oldHash, newHash, userId, expiresAt, now).1.Done?
    ensures var db' := Rotated(db, oldHash, newHash, userId, expiresAt, now).0;
            && !Active(db', oldHash, t)
            && Lookup(db', newHash, t) == (if t < expiresAt then Done(userId) else Failed(NotFound))
            && forall h :: h != oldHash && h != newHash ==> Lookup(db', h, t) == Lookup(db, h, t)
  {
  }
}
