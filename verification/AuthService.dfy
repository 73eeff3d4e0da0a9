/** Session refresh and logout as sequences of repository calls. Random tokens, clock readings, signing and failures
    of the environment are inputs. */
module AuthService {
  import opened Types
  import opened TokenStore

  datatype Environment = Development | Test | Staging | Production

  datatype ServiceError = InvalidRequest | RefreshTokenInvalid | Internal

  datatype Session = Granted(userId: int, refreshToken: string) | Refused(error: ServiceError)

  const REFRESH_TOKEN_LEN := 43

  predicate IsTokenChar(c: char) {
    'A' <= c <= 'Z' || 'a' <= c <= 'z' || '0' <= c <= '9' || c == '_' || c == '-'
  }

  predicate IsValidRefreshTokenFormat(token: string) {
    |token| == REFRESH_TOKEN_LEN && forall i :: 0 <= i < |token| ==> IsTokenChar(token[i])
  }

  /** Thirty days. */
  const REFRESH_TTL := 30 * 24 * HOUR

  /** What the environment does during one refresh: database and service clock readings, failures, the new random
      token (none when the entropy source fails), and whether signing the access token fails. */
  datatype World = World(lookupAt: int, lookupFails: bool, findFails: bool, newToken: Option<string>,
                         mintedAt: int, rotateAt: int, rotateFault: Fault, signFails: bool)

  predicate Allows(allowedUIDs: seq<string>, env: Environment, uid: string) {
    uid in allowedUIDs || (|allowedUIDs| == 0 && env in {Development, Test})
  }

  // ---------------------------------------------------------------- what can stop a refresh

  /** A row with this digest that is neither revoked nor expired. */
  ghost predicate Usable(db: Tables, hash: string, now: int) {
    hash in db.tokens && db.tokens[hash].revokedAt == None && now < db.tokens[hash].expiresAt
  }

  /** The row's user still exists and is let in: by being on the list, whoever else held a session before, or, without
      a list, by the environment. */
  ghost predicate Welcome(db: Tables, hash: string, allowedUIDs: seq<string>, env: Environment)
    requires hash in db.tokens
  {
    var user := db.tokens[hash].userId;
    && user in db.users
    && if |allowedUIDs| == 0 then env == Development || env == Test
       else exists k :: 0 <= k < |allowedUIDs| && allowedUIDs[k] == db.users[user]
  }

  /** The token itself is at fault: not usable when it is looked up, its user gone or not let in, or not usable any more
      when it is rotated; and no fault of the system came first. */
  ghost predicate TokenAtFault(db: Tables, hash: string, allowedUIDs: seq<string>, env: Environment, w: World) {
    !w.lookupFails &&
    (!Usable(db, hash, w.lookupAt) ||
     (!w.findFails &&
      (!Welcome(db, hash, allowedUIDs, env) ||
       (w.newToken.Some? && w.rotateFault != BeginFails && w.rotateFault != UpdateFails &&
        !Usable(db, hash, w.rotateAt)))))
  }

  /** The system is at fault: the lookup, the user query, the entropy source, the transaction at any of its statements,
      a new digest already stored, or the signing; and the token was not refused before. */
  ghost predicate SystemAtFault(db: Tables, hash: string, allowedUIDs: seq<string>, env: Environment, w: World,
                                newHash: string)
  {
    w.lookupFails ||
    (Usable(db, hash, w.lookupAt) &&
     (w.findFails ||
      (Welcome(db, hash, allowedUIDs, env) &&
       (w.newToken == None || w.rotateFault == BeginFails || w.rotateFault == UpdateFails ||
        (Usable(db, hash, w.rotateAt) &&
         (w.rotateFault == InsertFails || w.rotateFault == CommitFails || newHash in db.tokens || w.signFails))))))
  }

  function NewHash(digest: string -> string, w: World): string {
    if w.newToken.Some? then digest(w.newToken.value) else ""
  }

  class Service {
    const database: Database
    const digest: string -> string
    const allowedUIDs: seq<string>
    const env: Environment

    constructor (database: Database, digest: string -> string, allowedUIDs: seq<string>, env: Environment)
      ensures this.database == database && this.digest == digest && this.allowedUIDs == allowedUIDs && this.env == env
    {
      this.database, this.digest, this.allowedUIDs, this.env := database, digest, allowedUIDs, env;
    }

    method AllowlistAllows(uid: string) returns (ok: bool)
      ensures ok == Allows(allowedUIDs, env, uid)
    {
      if |allowedUIDs| == 0 {
        return env == Development || env == Test;
      }
      for i := 0 to |allowedUIDs|
        invariant uid !in allowedUIDs[..i]
      {
        if allowedUIDs[i] == uid {
          return true;
        }
      }
      assert allowedUIDs[..|allowedUIDs|] == allowedUIDs;
      return false;
    }

    /** The error order of a refresh: malformed, unknown or spent, database trouble, user gone, not allowed. */
    method RefreshSession(token: string, w: World) returns (r: Session)
      modifies database
      ensures !IsValidRefreshTokenFormat(token) ==> r == Refused(InvalidRequest) && database.db == old(database.db)
      ensures IsValidRefreshTokenFormat(token) ==>
                (database.db, r) == Refresh(old(database.db), digest, allowedUIDs, env, token, w)
      ensures IsValidRefreshTokenFormat(token) ==>
                && (r == Refused(RefreshTokenInvalid) <==>
                      TokenAtFault(old(database.db), digest(token), allowedUIDs, env, w))
                && (r == Refused(Internal) <==>
                      SystemAtFault(old(database.db), digest(token), allowedUIDs, env, w, NewHash(digest, w)))
                && r != Refused(InvalidRequest)
    {
      RefreshBlames(database.db, digest, allowedUIDs, env, token, w);
      if !IsValidRefreshTokenFormat(token) {
        return Refused(InvalidRequest);
      }
      var hash := digest(token);
      var found := database.LookupActiveUserID(hash, w.lookupAt, w.lookupFails);
      if found == Failed(NotFound) {
        return Refused(RefreshTokenInvalid);
      }
      if found.Failed? {
        return Refused(Internal);
      }
      var userId := found.value;
      var user := database.FindByID(userId, w.findFails);
      if user == Failed(NotFound) {
        return Refused(RefreshTokenInvalid);
      }
      if user.Failed? {
        return Refused(Internal);
      }
      var allowed := AllowlistAllows(user.value);
      if !allowed {
        return Refused(RefreshTokenInvalid);
      }
      if w.newToken.None? {
        return Refused(Internal);
      }
      var rotated := database.RotateRefreshToken(hash, digest(w.newToken.value), userId, w.mintedAt + REFRESH_TTL,
                                                 w.rotateAt, w.rotateFault);
      if rotated == Failed(NotFound) {
        return Refused(RefreshTokenInvalid);
      }
      if rotated.Failed? {
        return Refused(Internal);
      }
      if w.signFails {
        return Refused(Internal);
      }
      return Granted(userId, w.newToken.value);
    }

    /** A login's last step: sign, draw a token, store its digest. Nothing is stored unless every step succeeds. */
    method MintSession(userId: int, newToken: Option<string>, mintedAt: int, createFails: bool, signFails: bool)
      returns (r: Session)
      modifies database
      ensures r.Granted? <==> !signFails && !createFails && newToken.Some?
                              && CanInsert(old(database.db), digest(newToken.value), userId)
      ensures r.Granted? ==>
                && r == Granted(userId, newToken.value)
                && database.db == Insert(old(database.db), digest(newToken.value), userId, mintedAt + REFRESH_TTL)
      ensures r.Refused? ==> r == Refused(Internal) && database.db == old(database.db)
    {
      if signFails || newToken.None? {
        return Refused(Internal);
      }
      var created := database.Create(digest(newToken.value), userId, mintedAt + REFRESH_TTL, createFails);
      if created.Failed? {
        return Refused(Internal);
      }
      return Granted(userId, newToken.value);
    }

    method Logout(token: string, now: int, fails: bool) returns (error: Option<ServiceError>)
      modifies database
      ensures !IsValidRefreshTokenFormat(token) ==> error == Some(InvalidRequest) && database.db == old(database.db)
      ensures IsValidRefreshTokenFormat(token) && !fails ==>
                error == None && database.db == Revoke(old(database.db), digest(token), now)
      ensures IsValidRefreshTokenFormat(token) && fails ==> error == Some(Internal) && database.db == old(database.db)
    {
      if !IsValidRefreshTokenFormat(token) {
        return Some(InvalidRequest);
      }
      var revoked := database.RevokeByHash(digest(token), now, fails);
      return if revoked.Failed? then Some(Internal) else None;
    }
  }

  // ---------------------------------------------------------------- reference definition

  /** The outcome of a refresh of a well-formed token that nothing else interferes with. */
  function Refresh(db: Tables, digest: string -> string, allowedUIDs: seq<string>, env: Environment, token: string,
                   w: World)
    : (Tables, Session)
  {
    var hash := digest(token);
    if w.lookupFails then (db, Refused(Internal))
    else if !Active(db, hash, w.lookupAt) then (db, Refused(RefreshTokenInvalid))
    else if w.findFails then (db, Refused(Internal))
    else
      var userId := db.tokens[hash].userId;
      if userId !in db.users || !Allows(allowedUIDs, env, db.users[userId]) then (db, Refused(RefreshTokenInvalid))
      else if w.newToken.None? || w.rotateFault in {BeginFails, UpdateFails} then (db, Refused(Internal))
      else if !Active(db, hash, w.rotateAt) then (db, Refused(RefreshTokenInvalid))
      else
        var (db', reply) := Rotated(db, hash, digest(w.newToken.value), userId, w.mintedAt + REFRESH_TTL, w.rotateAt);
        if reply.Failed? || w.rotateFault != NoFault then (db, Refused(Internal))
        else if w.signFails then (db', Refused(Internal))
        else (db', Granted(userId, w.newToken.value))
  }

  lemma AllowsIs(allowedUIDs: seq<string>, env: Environment, uid: string)
    ensures Allows(allowedUIDs, env, uid) <==>
            if |allowedUIDs| == 0 then env == Development || env == Test
            else exists k :: 0 <= k < |allowedUIDs| && allowedUIDs[k] == uid
  {
  }

  /** Whom a refresh blames: the token exactly when it is at fault first, the system exactly when it is; and it is
      granted exactly when nothing is at fault. */
  lemma RefreshBlames(db: Tables, digest: string -> string, allowedUIDs: seq<string>, env: Environment, token: string,
                      w: World)
    ensures var r := Refresh(db, digest, allowedUIDs, env, token, w).1;
            var token, system := TokenAtFault(db, digest(token), allowedUIDs, env, w),
                                 SystemAtFault(db, digest(token), allowedUIDs, env, w, NewHash(digest, w));
            && (r == Refused(RefreshTokenInvalid) <==> token)
            && (r == Refused(Internal) <==> system)
            && (r.Granted? <==> !token && !system)
  {
    var hash := digest(token);
    if hash in db.tokens && db.tokens[hash].userId in db.users {
      AllowsIs(allowedUIDs, env, db.users[db.tokens[hash].userId]);
    }
  }

  /** A user taken off a non-empty list gets nothing, however good the token. */
  lemma OffTheListIsRefused(db: Tables, digest: string -> string, allowedUIDs: seq<string>, env: Environment,
                            token: string, w: World)
    requires var hash := digest(token);
             && Usable(db, hash, w.lookupAt) && db.tokens[hash].userId in db.users
             && |allowedUIDs| > 0 && db.users[db.tokens[hash].userId] !in allowedUIDs
    requires !w.lookupFails && !w.findFails
    ensures Refresh(db, digest, allowedUIDs, env, token, w) == (db, Refused(RefreshTokenInvalid))
  {
    RefreshBlames(db, digest, allowedUIDs, env, token, w);
  }

  /** What a granted refresh writes: the presented row is revoked at the time of the rotation, the new row is the same
      user's for thirty days, and nothing else changes. */
  lemma GrantWrites(db: Tables, digest: string -> string, allowedUIDs: seq<string>, env: Environment, token: string,
                    w: World)
    ensures var (db', r) := Refresh(db, digest, allowedUIDs, env, token, w);
            r.Granted? ==>
              var spent, minted := digest(token), digest(r.refreshToken);
              && w.newToken == Some(r.refreshToken) && spent in db.tokens && minted !in db.tokens
              && r.userId == db.tokens[spent].userId && db'.users == db.users
              && db'.tokens == db.tokens[spent := Row(r.userId, db.tokens[spent].expiresAt, Some(w.rotateAt))]
                                        [minted := Row(r.userId, w.mintedAt + 2_592_000 * 1_000_000_000, None)]
  {
  }

  /** A granted refresh spends the presented token and leaves exactly one successor for the same, allowed user;
      presenting the spent token again is refused. A refused refresh changes nothing, unless only the signing of the
      access token failed, in which case the presented token is spent all the same. */
  lemma RefreshSpendsExactlyOnce(db: Tables, digest: string -> string, allowedUIDs: seq<string>, env: Environment,
                                 token: string, w: World, again: World)
    ensures var (db', r) := Refresh(db, digest, allowedUIDs, env, token, w);
            && (r.Granted? ==>
                  && Lookup(db, digest(token), w.rotateAt) == Done(r.userId)
                  && r.userId in db.users && Allows(allowedUIDs, env, db.users[r.userId])
                  && db'.tokens.Keys == db.tokens.Keys + {digest(r.refreshToken)}
                  && digest(r.refreshToken) !in db.tokens
                  && db'.tokens[digest(r.refreshToken)] == Row(r.userId, w.mintedAt + REFRESH_TTL, None)
                  && (!again.lookupFails ==>
                        Refresh(db', digest, allowedUIDs, env, token, again) == (db', Refused(RefreshTokenInvalid))))
            && (r.Refused? && db' != db ==> w.signFails && !Active(db', digest(token), again.lookupAt))
  {
  }
}
