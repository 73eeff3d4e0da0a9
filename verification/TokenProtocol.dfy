/** Every interleaving of logins, refreshes, logouts, user deletions, cleanups and the passing of time over one token
    table. A refresh is three separate steps (look up, check the user, rotate), so any number of refreshes can be under
    way at once. A database failure during a refresh is an abandoned session; one during any other step is no step. */
module TokenProtocol {
  import opened Types
  import opened TokenStore
  import AuthService

  /** A refresh between its steps: the digest it presented and the user the lookup named. */
  datatype Session = LookedUp(hash: string, userId: int) | Cleared(hash: string, userId: int)

  /** A committed rotation: the user the consumed row belonged to, and the user the new row was given to. */
  datatype Rotation = Rotation(oldHash: string, newHash: string, consumed: int, granted: int)

  /** The tables, the clock, the refreshes under way, and the history: the login each digest descends from, the users
      of the logins in order, and the rotations so far. */
  datatype State = State(db: Tables, now: int, sessions: map<int, Session>,
                         root: map<string, nat>, logins: seq<int>, rotations: seq<Rotation>)

  datatype Action =
    | SaveUser(userId: int, uid: string)
    | DeleteUser(userId: int)
    | Login(userId: int, hash: string, expiresAt: int)
    | Begin(session: int, hash: string)
    | Check(session: int)
    | Rotate(session: int, newHash: string, expiresAt: int)
    | Abandon(session: int)
    | Logout(hash: string)
    | Cleanup
    | Tick(elapsed: nat)

  const INIT := State(Tables(map[], map[]), 0, map[], map[], [], [])

  function AfterLogin(s: State, userId: int, hash: string, expiresAt: int): State {
    if CanInsert(s.db, hash, userId)
    then s.(db := Insert(s.db, hash, userId, expiresAt), root := s.root[hash := |s.logins|],
              logins := s.logins + [userId])
    else s
  }

  function AfterBegin(s: State, id: int, hash: string): State {
    var found := Lookup(s.db, hash, s.now);
    if id in s.sessions || found.Failed? then s
    else s.(sessions := s.sessions[id := LookedUp(hash, found.value)])
  }

  function AfterCheck(s: State, id: int, allowed: string -> bool): State {
    if id !in s.sessions || s.sessions[id].Cleared? then s
    else
      var ses := s.sessions[id];
      if ses.userId in s.db.users && allowed(s.db.users[ses.userId])
      then s.(sessions := s.sessions[id := Cleared(ses.hash, ses.userId)])
      else s.(sessions := s.sessions - {id})
  }

  function AfterRotate(s: State, id: int, newHash: string, expiresAt: int): State {
    if id !in s.sessions || s.sessions[id].LookedUp? then s
    else
      var ses := s.sessions[id];
      var (db', reply) := Rotated(s.db, ses.hash, newHash, ses.userId, expiresAt, s.now);
      if reply.Failed? then s.(sessions := s.sessions - {id})
      else s.(db := db', sessions := s.sessions - {id},
              root := if ses.hash in s.root then s.root[newHash := s.root[ses.hash]] else s.root,
              rotations := s.rotations + [Rotation(ses.hash, newHash, reply.value, ses.userId)])
  }

  function Step(s: State, a: Action, allowed: string -> bool): State {
    match a
    case SaveUser(userId, uid) => s.(db := s.db.(users := s.db.users[userId := uid]))
    case DeleteUser(userId) => s.(db := WithoutUser(s.db, userId))
    case Login(userId, hash, expiresAt) => AfterLogin(s, userId, hash, expiresAt)
    case Begin(id, hash) => AfterBegin(s, id, hash)
    case Check(id) => AfterCheck(s, id, allowed)
    case Rotate(id, newHash, expiresAt) => AfterRotate(s, id, newHash, expiresAt)
    case Abandon(id) => s.(sessions := s.sessions - {id})
    case Logout(hash) => s.(db := Revoke(s.db, hash, s.now))
    case Cleanup => s.(db := WithoutExpired(s.db, s.now))
    case Tick(elapsed) => s.(now := s.now + elapsed)
  }

  /** The state after the first n actions. */
  function Exec(actions: seq<Action>, allowed: string -> bool, n: nat): State
    requires n <= |actions|
  {
    if n == 0 then INIT else Step(Exec(actions, allowed, n - 1), actions[n - 1], allowed)
  }

  /** What randomness is trusted for: a newly drawn digest is not that of a row already deleted. One that is still
      stored needs no trust, the unique constraint refuses it. */
  predicate FreshAt(s: State, a: Action) {
    && (a.Login? ==> a.hash !in s.root || a.hash in s.db.tokens)
    && (a.Rotate? ==> a.newHash !in s.root || a.newHash in s.db.tokens)
  }

  predicate Fresh(actions: seq<Action>, allowed: string -> bool, n: nat)
    requires n <= |actions|
  {
    n == 0 || (Fresh(actions, allowed, n - 1) && FreshAt(Exec(actions, allowed, n - 1), actions[n - 1]))
  }

  // ---------------------------------------------------------------- the invariant

  /** Every digest in use descends from a recorded login. */
  predicate Rooted(s: State) {
    && (forall h :: h in s.db.tokens ==> h in s.root)
    && (forall h :: h in s.root ==> s.root[h] < |s.logins|)
    && (forall id :: id in s.sessions ==> s.sessions[id].hash in s.root)
  }

  /** Rows and sessions belong to the user whose login began the chain. */
  predicate Owned(s: State)
    requires Rooted(s)
  {
    && (forall h :: h in s.db.tokens ==> s.db.tokens[h].userId == s.logins[s.root[h]])
    && (forall id :: id in s.sessions ==> s.sessions[id].userId == s.logins[s.root[s.sessions[id].hash]])
  }

  predicate Unrevoked(db: Tables, h: string) {
    h in db.tokens && db.tokens[h].revokedAt.None?
  }

  /** At most one unrevoked row in each login chain. */
  ghost predicate OneLive(s: State)
    requires Rooted(s)
  {
    forall g, h :: Unrevoked(s.db, g) && Unrevoked(s.db, h) && s.root[g] == s.root[h] ==> g == h
  }

  /** A rotation stays within one chain and one user, and its old digest is unrevoked no more. */
  predicate Lawful(s: State, r: Rotation)
    requires Rooted(s)
  {
    && r.oldHash in s.root && r.newHash in s.root && s.root[r.newHash] == s.root[r.oldHash]
    && r.consumed == r.granted == s.logins[s.root[r.oldHash]]
    && !Unrevoked(s.db, r.oldHash)
  }

  predicate Spent(s: State)
    requires Rooted(s)
  {
    && (forall i :: 0 <= i < |s.rotations| ==> Lawful(s, s.rotations[i]))
    && (forall i, j :: 0 <= i < j < |s.rotations| ==> s.rotations[i].oldHash != s.rotations[j].oldHash)
  }

  ghost predicate Sound(s: State) {
    Rooted(s) && Owned(s) && OneLive(s) && Spent(s)
  }

  /** What no step but a login or a rotation does: add rows, revive rows, or touch the history. */
  predicate Shrinks(s: State, t: State) {
    && t.root == s.root && t.logins == s.logins && t.rotations == s.rotations && s.now <= t.now
    && (forall h :: h in t.db.tokens ==>
          && h in s.db.tokens && t.db.tokens[h].userId == s.db.tokens[h].userId
          && t.db.tokens[h].expiresAt == s.db.tokens[h].expiresAt
          && (t.db.tokens[h].revokedAt.None? ==> s.db.tokens[h].revokedAt.None?))
  }

  predicate SessionsKept(s: State, t: State) {
    forall id :: id in t.sessions ==>
      id in s.sessions && t.sessions[id].hash == s.sessions[id].hash && t.sessions[id].userId == s.sessions[id].userId
  }

  lemma ShrinkingStep(s: State, a: Action, allowed: string -> bool)
    requires !a.Login? && !a.Rotate?
    ensures Shrinks(s, Step(s, a, allowed))
    ensures !a.Begin? ==> SessionsKept(s, Step(s, a, allowed))
  {
  }

  lemma ShrinkingKeepsRows(s: State, t: State)
    requires Sound(s) && Shrinks(s, t) && Rooted(t)
    ensures OneLive(t) && Spent(t)
  {
    forall g, h | Unrevoked(t.db, g) && Unrevoked(t.db, h) && t.root[g] == t.root[h] ensures g == h {
      assert Unrevoked(s.db, g) && Unrevoked(s.db, h);
    }
    forall i | 0 <= i < |t.rotations| ensures Lawful(t, t.rotations[i]) {
      assert Lawful(s, s.rotations[i]);
    }
  }

  lemma ShrinkingKeepsSound(s: State, t: State)
    requires Sound(s) && Shrinks(s, t) && SessionsKept(s, t)
    ensures Sound(t)
  {
    ShrinkingKeepsRows(s, t);
  }

  lemma BeginKeepsSound(s: State, id: int, hash: string)
    requires Sound(s)
    ensures Sound(AfterBegin(s, id, hash))
  {
    var t := AfterBegin(s, id, hash);
    ShrinkingKeepsRows(s, t);
  }

  lemma LoginKeepsSound(s: State, userId: int, hash: string, expiresAt: int)
    requires Sound(s) && (hash !in s.root || hash in s.db.tokens)
    ensures Sound(AfterLogin(s, userId, hash, expiresAt))
  {
    var t := AfterLogin(s, userId, hash, expiresAt);
    if CanInsert(s.db, hash, userId) {
      forall g, h | Unrevoked(t.db, g) && Unrevoked(t.db, h) && t.root[g] == t.root[h] ensures g == h {
        assert g != hash ==> Unrevoked(s.db, g);
        assert h != hash ==> Unrevoked(s.db, h);
      }
      forall i | 0 <= i < |t.rotations| ensures Lawful(t, t.rotations[i]) {
        assert Lawful(s, s.rotations[i]);
      }
    }
  }

  /** The only step that both revokes and inserts. */
  predicate Swaps(s: State, t: State, r: Rotation) {
    && Active(s.db, r.oldHash, s.now) && r.oldHash in s.root && r.newHash !in s.root && r.newHash !in s.db.tokens
    && r.consumed == s.db.tokens[r.oldHash].userId
    && t.root == s.root[r.newHash := s.root[r.oldHash]] && t.logins == s.logins && t.rotations == s.rotations + [r]
    && t.now == s.now && t.db.users == s.db.users
    && t.db.tokens.Keys == s.db.tokens.Keys + {r.newHash}
    && (forall h :: h in s.db.tokens && h != r.oldHash ==> t.db.tokens[h] == s.db.tokens[h])
    && t.db.tokens[r.oldHash] == s.db.tokens[r.oldHash].(revokedAt := Some(s.now))
    && t.db.tokens[r.newHash].userId == r.granted && t.db.tokens[r.newHash].revokedAt.None?
  }

  lemma RotateStep(s: State, id: int, newHash: string, expiresAt: int) returns (r: Rotation)
    requires Sound(s) && (newHash !in s.root || newHash in s.db.tokens)
    ensures var t := AfterRotate(s, id, newHash, expiresAt);
            && SessionsKept(s, t)
            && (Shrinks(s, t) ||
                (Swaps(s, t, r) && r.granted == r.consumed && t.db.tokens[newHash].expiresAt == expiresAt))
  {
    r := Rotation(newHash, newHash, 0, 0);
    if id in s.sessions && s.sessions[id].Cleared? {
      var ses := s.sessions[id];
      var (db', reply) := Rotated(s.db, ses.hash, newHash, ses.userId, expiresAt, s.now);
      if reply.Done? {
        r := Rotation(ses.hash, newHash, reply.value, ses.userId);
        assert s.db.tokens[ses.hash].userId == s.logins[s.root[ses.hash]];
      }
    }
  }

  lemma SwapKeepsOwned(s: State, t: State, r: Rotation)
    requires Sound(s) && Swaps(s, t, r) && r.granted == r.consumed && SessionsKept(s, t)
    ensures Rooted(t) && Owned(t)
  {
    assert s.db.tokens[r.oldHash].userId == s.logins[s.root[r.oldHash]];
  }

  lemma SwapKeepsOneLive(s: State, t: State, r: Rotation)
    requires Sound(s) && Swaps(s, t, r) && Rooted(t)
    ensures OneLive(t)
  {
    assert Unrevoked(s.db, r.oldHash);
    forall g, h | Unrevoked(t.db, g) && Unrevoked(t.db, h) && t.root[g] == t.root[h] ensures g == h {
      assert g != r.newHash ==> Unrevoked(s.db, g);
      assert h != r.newHash ==> Unrevoked(s.db, h);
    }
  }

  lemma SwapKeepsSpent(s: State, t: State, r: Rotation)
    requires Sound(s) && Swaps(s, t, r) && r.granted == r.consumed && Rooted(t)
    ensures Spent(t)
  {
    assert Unrevoked(s.db, r.oldHash);
    assert s.db.tokens[r.oldHash].userId == s.logins[s.root[r.oldHash]];
    forall i | 0 <= i < |t.rotations| ensures Lawful(t, t.rotations[i]) {
      if i < |s.rotations| {
        assert Lawful(s, s.rotations[i]);
      }
    }
    forall i, j | 0 <= i < j < |t.rotations| ensures t.rotations[i].oldHash != t.rotations[j].oldHash {
      assert Lawful(s, s.rotations[i]);
    }
  }

  lemma StepKeepsSound(s: State, a: Action, allowed: string -> bool)
    requires Sound(s) && FreshAt(s, a)
    ensures Sound(Step(s, a, allowed))
  {
    var t := Step(s, a, allowed);
    match a {
      case Login(userId, hash, expiresAt) => LoginKeepsSound(s, userId, hash, expiresAt);
      case Begin(id, hash) => BeginKeepsSound(s, id, hash);
      case Rotate(id, newHash, expiresAt) =>
        var r := RotateStep(s, id, newHash, expiresAt);
        if Shrinks(s, t) {
          ShrinkingKeepsSound(s, t);
        } else {
          SwapKeepsOwned(s, t, r);
          SwapKeepsOneLive(s, t, r);
          SwapKeepsSpent(s, t, r);
        }
      case _ =>
        ShrinkingStep(s, a, allowed);
        ShrinkingKeepsSound(s, t);
    }
  }

  lemma {:induction false} AlwaysSound(actions: seq<Action>, allowed: string -> bool, n: nat)
    requires n <= |actions| && Fresh(actions, allowed, n)
    ensures Sound(Exec(actions, allowed, n))
  {
    if n > 0 {
      AlwaysSound(actions, allowed, n - 1);
      StepKeepsSound(Exec(actions, allowed, n - 1), actions[n - 1], allowed);
    }
  }

  // ---------------------------------------------------------------- safety of every run

  /** However refreshes interleave, no token is ever exchanged twice. */
  lemma EachTokenRotatesOnce(actions: seq<Action>, allowed: string -> bool, n: nat, i: nat, j: nat)
    requires n <= |actions| && Fresh(actions, allowed, n)
    requires i < j < |Exec(actions, allowed, n).rotations|
    ensures Exec(actions, allowed, n).rotations[i].oldHash != Exec(actions, allowed, n).rotations[j].oldHash
  {
    AlwaysSound(actions, allowed, n);
  }

  /** Two usable tokens of one login are one token. */
  lemma OneUsableTokenPerLogin(actions: seq<Action>, allowed: string -> bool, n: nat, g: string, h: string)
    requires n <= |actions| && Fresh(actions, allowed, n)
    requires var s := Exec(actions, allowed, n);
             Active(s.db, g, s.now) && Active(s.db, h, s.now) && g in s.root && h in s.root && s.root[g] == s.root[h]
    ensures g == h
  {
    AlwaysSound(actions, allowed, n);
    var s := Exec(actions, allowed, n);
    assert Unrevoked(s.db, g) && Unrevoked(s.db, h);
  }

  /** Every stored token belongs to the user whose login its chain began with. */
  lemma TokensKeepTheirUser(actions: seq<Action>, allowed: string -> bool, n: nat, h: string)
    requires n <= |actions| && Fresh(actions, allowed, n)
    requires h in Exec(actions, allowed, n).db.tokens
    ensures var s := Exec(actions, allowed, n);
            h in s.root && s.root[h] < |s.logins| && s.db.tokens[h].userId == s.logins[s.root[h]]
  {
    AlwaysSound(actions, allowed, n);
  }

  /** A rotation hands the new token to the owner of the consumed one, though the service inserts the user an earlier
      lookup named and ignores the one the rotation returns. */
  lemma RotationKeepsUser(actions: seq<Action>, allowed: string -> bool, n: nat, i: nat)
    requires n <= |actions| && Fresh(actions, allowed, n)
    requires i < |Exec(actions, allowed, n).rotations|
    ensures var s := Exec(actions, allowed, n);
            var r := s.rotations[i];
            && r.consumed == r.granted
            && r.oldHash in s.root && r.newHash in s.root && s.root[r.newHash] == s.root[r.oldHash]
            && !Active(s.db, r.oldHash, s.now)
  {
    AlwaysSound(actions, allowed, n);
    assert Lawful(Exec(actions, allowed, n), Exec(actions, allowed, n).rotations[i]);
  }

  // ---------------------------------------------------------------- what is over stays over

  predicate Usable(s: State, h: string) {
    Active(s.db, h, s.now)
  }

  predicate Dead(s: State, h: string) {
    h in s.root && !Usable(s, h)
  }

  ghost predicate ChainLive(s: State, c: nat) {
    exists h :: Usable(s, h) && h in s.root && s.root[h] == c
  }

  /** What any step may do to the usable tokens: a token not yet drawn may become usable, under a new login or a login
      that had a usable token; no other token may. */
  ghost predicate Ages(s: State, t: State) {
    && |s.logins| <= |t.logins|
    && (forall h :: h in s.root ==> h in t.root && t.root[h] == s.root[h])
    && (forall h :: Dead(s, h) ==> Dead(t, h))
    && (forall c: nat :: c < |s.logins| && ChainLive(t, c) ==> ChainLive(s, c))
  }

  lemma ShrinkingAges(s: State, t: State)
    requires Sound(s) && Shrinks(s, t)
    ensures Ages(s, t)
  {
    forall h | Usable(t, h) ensures Usable(s, h) {
    }
    forall c: nat | c < |s.logins| && ChainLive(t, c) ensures ChainLive(s, c) {
      var h :| Usable(t, h) && h in t.root && t.root[h] == c;
      assert Usable(s, h);
    }
  }

  lemma LoginAges(s: State, userId: int, hash: string, expiresAt: int)
    requires Sound(s) && (hash !in s.root || hash in s.db.tokens)
    ensures Ages(s, AfterLogin(s, userId, hash, expiresAt))
  {
    var t := AfterLogin(s, userId, hash, expiresAt);
    forall h | Usable(t, h) && h != hash ensures Usable(s, h) {
    }
    forall c: nat | c < |s.logins| && ChainLive(t, c) ensures ChainLive(s, c) {
      var h :| Usable(t, h) && h in t.root && t.root[h] == c;
      assert Usable(s, h);
    }
  }

  lemma SwapAges(s: State, t: State, r: Rotation)
    requires Sound(s) && Swaps(s, t, r)
    ensures Ages(s, t)
  {
    forall h | Usable(t, h) && h != r.newHash ensures Usable(s, h) {
    }
    forall c: nat | c < |s.logins| && ChainLive(t, c) ensures ChainLive(s, c) {
      var h :| Usable(t, h) && h in t.root && t.root[h] == c;
      var g := if h == r.newHash then r.oldHash else h;
      assert Usable(s, g) && s.root[g] == c;
    }
  }

  lemma StepAges(s: State, a: Action, allowed: string -> bool)
    requires Sound(s) && FreshAt(s, a)
    ensures Ages(s, Step(s, a, allowed))
  {
    match a {
      case Login(userId, hash, expiresAt) => LoginAges(s, userId, hash, expiresAt);
      case Rotate(id, newHash, expiresAt) =>
        var t := AfterRotate(s, id, newHash, expiresAt);
        var r := RotateStep(s, id, newHash, expiresAt);
        if Shrinks(s, t) {
          ShrinkingAges(s, t);
        } else {
          SwapAges(s, t, r);
        }
      case _ =>
        ShrinkingStep(s, a, allowed);
        ShrinkingAges(s, Step(s, a, allowed));
    }
  }

  lemma AgesComposes(s: State, t: State, u: State)
    requires Ages(s, t) && Ages(t, u)
    ensures Ages(s, u)
  {
  }

  lemma {:induction false} RunAges(actions: seq<Action>, allowed: string -> bool, m: nat, n: nat)
    requires m <= n <= |actions| && Fresh(actions, allowed, n)
    ensures Ages(Exec(actions, allowed, m), Exec(actions, allowed, n))
    decreases n
  {
    if m < n {
      RunAges(actions, allowed, m, n - 1);
      AlwaysSound(actions, allowed, n - 1);
      StepAges(Exec(actions, allowed, n - 1), actions[n - 1], allowed);
      AgesComposes(Exec(actions, allowed, m), Exec(actions, allowed, n - 1), Exec(actions, allowed, n));
    }
  }

  /** A token once spent, revoked, expired or deleted is refused at every later moment. */
  lemma DeadTokensStayDead(actions: seq<Action>, allowed: string -> bool, m: nat, n: nat, h: string)
    requires m <= n <= |actions| && Fresh(actions, allowed, n)
    requires var s := Exec(actions, allowed, m);
             h in s.root && Lookup(s.db, h, s.now) == Failed(NotFound)
    ensures var s := Exec(actions, allowed, n);
            Lookup(s.db, h, s.now) == Failed(NotFound)
  {
    RunAges(actions, allowed, m, n);
    assert Dead(Exec(actions, allowed, m), h);
  }

  // ---------------------------------------------------------------- what can end a usable token

  /** The step exchanges the token, logs out with it, deletes its user, or takes the clock to its expiry. */
  ghost predicate Ends(s: State, a: Action, allowed: string -> bool, h: string)
    requires h in s.db.tokens
  {
    match a
    case Rotate(id, newHash, expiresAt) =>
      && id in s.sessions && s.sessions[id].Cleared? && s.sessions[id].hash == h
      && |Step(s, a, allowed).rotations| == |s.rotations| + 1
    case Logout(hash) => hash == h
    case DeleteUser(userId) => userId == s.db.tokens[h].userId
    case Tick(elapsed) => s.now + elapsed >= s.db.tokens[h].expiresAt
    case _ => false
  }

  /** One step makes a usable token unusable exactly when it ends it in one of these ways. */
  lemma EndsExactlyWhen(s: State, a: Action, allowed: string -> bool, h: string)
    requires Usable(s, h)
    ensures !Usable(Step(s, a, allowed), h) <==> Ends(s, a, allowed, h)
  {
  }

  ghost predicate EndedAt(actions: seq<Action>, allowed: string -> bool, h: string, i: nat)
    requires i < |actions|
  {
    var s := Exec(actions, allowed, i);
    Usable(s, h) && Ends(s, actions[i], allowed, h)
  }

  /** In every run, a token usable at one moment and not at a later one was ended in between, in one of these ways. */
  lemma {:induction false} SomethingEndedIt(actions: seq<Action>, allowed: string -> bool, h: string, m: nat, n: nat)
    returns (i: nat)
    requires m < n <= |actions|
    requires Usable(Exec(actions, allowed, m), h) && !Usable(Exec(actions, allowed, n), h)
    ensures m <= i < n && EndedAt(actions, allowed, h, i)
    decreases n
  {
    if Usable(Exec(actions, allowed, n - 1), h) {
      i := n - 1;
      EndsExactlyWhen(Exec(actions, allowed, i), actions[i], allowed, h);
    } else {
      i := SomethingEndedIt(actions, allowed, h, m, n - 1);
    }
  }

  // ---------------------------------------------------------------- logging out

  /** A logout ends the whole login exactly when its token is the login's unrevoked one; logging out with a token that
      has been rotated leaves the successor usable. */
  lemma LogoutEndsLogin(s: State, h: string, allowed: string -> bool)
    requires Sound(s) && h in s.root
    ensures ChainLive(Step(s, Logout(h), allowed), s.root[h]) <==> ChainLive(s, s.root[h]) && !Unrevoked(s.db, h)
  {
    var t := Step(s, Logout(h), allowed);
    forall g | Usable(t, g) ensures Usable(s, g) && g != h {
    }
    forall g | Usable(s, g) && g != h ensures Usable(t, g) && Unrevoked(s.db, g) {
    }
  }

  lemma EndedStaysEnded(s: State, t: State, u: State, h: string)
    requires Sound(s) && Unrevoked(s.db, h) && t == s.(db := Revoke(s.db, h, s.now)) && Ages(t, u)
    ensures h in s.root && !ChainLive(u, s.root[h])
  {
    LogoutEndsLogin(s, h, uid => true);
  }

  lemma NextAges(actions: seq<Action>, allowed: string -> bool, m: nat, n: nat) returns (s: State, t: State, u: State)
    requires m < n <= |actions| && Fresh(actions, allowed, n)
    ensures s == Exec(actions, allowed, m) && u == Exec(actions, allowed, n) && t == Step(s, actions[m], allowed)
    ensures Sound(s) && Ages(t, u)
  {
    s, u := Exec(actions, allowed, m), Exec(actions, allowed, n);
    t := Exec(actions, allowed, m + 1);
    FreshPrefix(actions, allowed, m, n);
    AlwaysSound(actions, allowed, m);
    RunAges(actions, allowed, m + 1, n);
  }

  /** ... and once ended, a login never comes back, whatever refreshes were under way. */
  lemma LoggedOutForGood(actions: seq<Action>, allowed: string -> bool, m: nat, n: nat)
    requires m < n <= |actions| && Fresh(actions, allowed, n) && actions[m].Logout?
    requires Unrevoked(Exec(actions, allowed, m).db, actions[m].hash)
    ensures var s := Exec(actions, allowed, m);
            actions[m].hash in s.root && !ChainLive(Exec(actions, allowed, n), s.root[actions[m].hash])
  {
    var s, t, u := NextAges(actions, allowed, m, n);
    EndedStaysEnded(s, t, u, actions[m].hash);
  }

  lemma {:induction false} FreshPrefix(actions: seq<Action>, allowed: string -> bool, m: nat, n: nat)
    requires m <= n <= |actions| && Fresh(actions, allowed, n)
    ensures Fresh(actions, allowed, m)
    decreases n
  {
    if m < n {
      FreshPrefix(actions, allowed, m, n - 1);
    }
  }

  // ---------------------------------------------------------------- cleanup is invisible

  function Uncleaned(a: Action): Action {
    if a.Cleanup? then Tick(0) else a
  }

  predicate SameButCleanups(actions: seq<Action>, kept: seq<Action>) {
    |kept| == |actions| && forall i :: 0 <= i < |actions| ==> kept[i] == Uncleaned(actions[i])
  }

  /** t is s without some rows that had expired. */
  predicate Thins(s: State, t: State) {
    && t == s.(db := t.db) && t.db.users == s.db.users
    && (forall h :: h in s.db.tokens ==> h in s.root)
    && (forall h :: h in t.db.tokens ==> h in s.db.tokens && t.db.tokens[h] == s.db.tokens[h])
    && (forall h :: h in s.db.tokens && h !in t.db.tokens ==> s.db.tokens[h].expiresAt < s.now)
  }

  lemma ThinningKeepsAnswers(s: State, t: State, hash: string)
    requires Thins(s, t)
    ensures Lookup(t.db, hash, t.now) == Lookup(s.db, hash, s.now)
    ensures (hash !in t.root || hash in t.db.tokens) ==> (hash in s.db.tokens <==> hash in t.db.tokens)
  {
  }

  lemma RotateThins(s: State, t: State, id: int, newHash: string, expiresAt: int)
    requires Thins(s, t) && (newHash !in t.root || newHash in t.db.tokens)
    ensures Thins(AfterRotate(s, id, newHash, expiresAt), AfterRotate(t, id, newHash, expiresAt))
  {
    ThinningKeepsAnswers(s, t, newHash);
    if id in s.sessions && s.sessions[id].Cleared? {
      ThinningKeepsAnswers(s, t, s.sessions[id].hash);
    }
  }

  lemma LoginThins(s: State, t: State, userId: int, hash: string, expiresAt: int)
    requires Thins(s, t) && (hash !in t.root || hash in t.db.tokens)
    ensures Thins(AfterLogin(s, userId, hash, expiresAt), AfterLogin(t, userId, hash, expiresAt))
  {
    ThinningKeepsAnswers(s, t, hash);
  }

  lemma BeginThins(s: State, t: State, id: int, hash: string)
    requires Thins(s, t)
    ensures Thins(AfterBegin(s, id, hash), AfterBegin(t, id, hash))
  {
    ThinningKeepsAnswers(s, t, hash);
  }

  lemma StepThins(s: State, t: State, a: Action, allowed: string -> bool)
    requires Thins(s, t) && FreshAt(t, a)
    ensures Thins(Step(s, Uncleaned(a), allowed), Step(t, a, allowed))
  {
    match a {
      case Login(userId, hash, expiresAt) => LoginThins(s, t, userId, hash, expiresAt);
      case Begin(id, hash) => BeginThins(s, t, id, hash);
      case Rotate(id, newHash, expiresAt) => RotateThins(s, t, id, newHash, expiresAt);
      case _ =>
    }
  }

  lemma {:induction false} RunThins(actions: seq<Action>, kept: seq<Action>, allowed: string -> bool, n: nat)
    requires n <= |actions| && SameButCleanups(actions, kept) && Fresh(actions, allowed, n)
    ensures Thins(Exec(kept, allowed, n), Exec(actions, allowed, n))
  {
    if n > 0 {
      RunThins(actions, kept, allowed, n - 1);
      StepThins(Exec(kept, allowed, n - 1), Exec(actions, allowed, n - 1), actions[n - 1], allowed);
    }
  }

  /** Erase every cleanup from a run: all refreshes proceed and all lookups answer as before. */
  lemma CleanupIsInvisible(actions: seq<Action>, kept: seq<Action>, allowed: string -> bool, n: nat, hash: string)
    requires n <= |actions| && SameButCleanups(actions, kept) && Fresh(actions, allowed, n)
    ensures var s, t := Exec(kept, allowed, n), Exec(actions, allowed, n);
            && t.sessions == s.sessions && t.rotations == s.rotations && t.root == s.root && t.now == s.now
            && Lookup(t.db, hash, t.now) == Lookup(s.db, hash, s.now)
  {
    RunThins(actions, kept, allowed, n);
    ThinningKeepsAnswers(Exec(kept, allowed, n), Exec(actions, allowed, n), hash);
  }

  // ---------------------------------------------------------------- the steps are the service's

  /** The steps a refresh takes in a given world: a failing lookup never begins, any later failure abandons. */
  function Look(id: int, hash: string, w: AuthService.World): Action {
    if w.lookupFails then Tick(0) else Begin(id, hash)
  }

  function Clear(id: int, w: AuthService.World): Action {
    if w.findFails then Abandon(id) else Check(id)
  }

  function Exchange(id: int, digest: string -> string, w: AuthService.World): Action {
    if w.newToken.None? || w.rotateFault != NoFault then Abandon(id)
    else Rotate(id, digest(w.newToken.value), w.mintedAt + AuthService.REFRESH_TTL)
  }

  /** Token and user pass the checks before the rotation. */
  predicate Passes(db: Tables, hash: string, now: int, w: AuthService.World, allowed: string -> bool) {
    && !w.lookupFails && !w.findFails && Active(db, hash, now)
    && db.tokens[hash].userId in db.users && allowed(db.users[db.tokens[hash].userId])
  }

  /** The first two steps leave a cleared session exactly when token and user pass, and change nothing else. */
  lemma LookThenClear(s: State, id: int, hash: string, w: AuthService.World, allowed: string -> bool)
    requires id !in s.sessions
    ensures var t := Step(Step(s, Look(id, hash, w), allowed), Clear(id, w), allowed);
            && t == s.(sessions := t.sessions) && t.sessions - {id} == s.sessions
            && (if Passes(s.db, hash, s.now, w, allowed)
                then id in t.sessions && t.sessions[id] == Cleared(hash, s.db.tokens[hash].userId)
                else id !in t.sessions)
  {
  }

  predicate Exchanges(w: AuthService.World) {
    w.newToken.Some? && w.rotateFault == NoFault
  }

  function Exchanged(db: Tables, hash: string, userId: int, digest: string -> string, w: AuthService.World, now: int)
    : (Tables, Reply<int>)
    requires Exchanges(w)
  {
    Rotated(db, hash, digest(w.newToken.value), userId, w.mintedAt + AuthService.REFRESH_TTL, now)
  }

  /** What the last two steps do to a cleared session. */
  lemma WaitThenExchange(t: State, id: int, hash: string, userId: int, digest: string -> string, w: AuthService.World,
                         elapsed: nat, allowed: string -> bool)
    requires id in t.sessions && t.sessions[id] == Cleared(hash, userId)
    ensures var u := Step(Step(t, Tick(elapsed), allowed), Exchange(id, digest, w), allowed);
            && u.sessions == t.sessions - {id}
            && (if Exchanges(w) then
                  var (db', reply) := Exchanged(t.db, hash, userId, digest, w, t.now + elapsed);
                  u.db == db' && |u.rotations| == |t.rotations| + if reply.Done? then 1 else 0
                else u.db == t.db && u.rotations == t.rotations)
  {
  }

  lemma WaitWithoutSession(t: State, id: int, digest: string -> string, w: AuthService.World, elapsed: nat,
                           allowed: string -> bool)
    requires id !in t.sessions
    ensures var u := Step(Step(t, Tick(elapsed), allowed), Exchange(id, digest, w), allowed);
            u.db == t.db && u.sessions == t.sessions && u.rotations == t.rotations
  {
    assert t.sessions - {id} == t.sessions;
  }

  /** The service's refresh in the same terms. */
  lemma RefreshIsExchange(db: Tables, digest: string -> string, allowedUIDs: seq<string>, env: AuthService.Environment,
                          token: string, w: AuthService.World, allowed: string -> bool)
    requires forall uid :: allowed(uid) == AuthService.Allows(allowedUIDs, env, uid)
    ensures var hash, (db', r) := digest(token), AuthService.Refresh(db, digest, allowedUIDs, env, token, w);
            if Passes(db, hash, w.lookupAt, w, allowed) && Exchanges(w) then
              var (db2, reply) := Exchanged(db, hash, db.tokens[hash].userId, digest, w, w.rotateAt);
              db' == db2 && (r.Granted? <==> reply.Done? && !w.signFails)
            else db' == db && r.Refused?
  {
  }

  /** The steps of a refresh, run with nothing but time between them, do to the tables what the service's refresh
      does, in every world: with any database failure, without entropy, with signing failing. */
  lemma UninterruptedRefresh(s: State, id: int, digest: string -> string, allowedUIDs: seq<string>,
                             env: AuthService.Environment, token: string, w: AuthService.World, allowed: string -> bool)
    requires id !in s.sessions && w.lookupAt == s.now <= w.rotateAt
    requires forall uid :: allowed(uid) == AuthService.Allows(allowedUIDs, env, uid)
    ensures var (db', r) := AuthService.Refresh(s.db, digest, allowedUIDs, env, token, w);
            var cleared := Step(Step(s, Look(id, digest(token), w), allowed), Clear(id, w), allowed);
            var t := Step(Step(cleared, Tick(w.rotateAt - s.now), allowed), Exchange(id, digest, w), allowed);
            && t.db == db' && t.sessions == s.sessions
            && (r.Granted? <==> |t.rotations| == |s.rotations| + 1 && !w.signFails)
  {
    var hash, elapsed := digest(token), w.rotateAt - s.now;
    var cleared := Step(Step(s, Look(id, hash, w), allowed), Clear(id, w), allowed);
    RefreshIsExchange(s.db, digest, allowedUIDs, env, token, w, allowed);
    LookThenClear(s, id, hash, w, allowed);
    if Passes(s.db, hash, s.now, w, allowed) {
      WaitThenExchange(cleared, id, hash, s.db.tokens[hash].userId, digest, w, elapsed, allowed);
    } else {
      WaitWithoutSession(cleared, id, digest, w, elapsed, allowed);
    }
  }
}
