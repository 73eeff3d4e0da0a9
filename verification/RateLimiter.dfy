/** The per-(route, ip) fixed-window rate limiter and its eviction sweep. The clock is a parameter; each operation
    is one atomic step, as the mutex makes it. */
module RateLimiter {
  import opened Types

  const WINDOW: int := MINUTE

  datatype Key = Key(route: string, ip: string)

  datatype Entry = Entry(windowStart: int, count: int, lastSeen: int)

  type Entries = map<Key, Entry>

  // ---------------------------------------------------------------- reference definition

  /** The entry with its window rolled over if it has expired. */
  function RolledOver(e: Entry, now: int): Entry {
    if now - e.windowStart >= WINDOW then Entry(now, 0, e.lastSeen) else e
  }

  function AllowStep(m: Entries, key: Key, now: int, rpm: int): (Entries, bool) {
    if key !in m then (m[key := Entry(now, 1, now)], true)
    else
      var e := RolledOver(m[key], now);
      if e.count >= rpm then (m[key := e], false)
      else (m[key := Entry(e.windowStart, e.count + 1, now)], true)
  }

  function EvictStep(m: Entries, now: int, ttl: int): Entries {
    map k | k in m && now - m[k].lastSeen <= ttl :: m[k]
  }

  // ---------------------------------------------------------------- the limiter

  class IpRateLimiter {
    var entries: Entries

    constructor ()
      ensures entries == map[]
    {
      entries := map[];
    }

    method Allow(now: int, route: string, ip: string, rpm: int) returns (ok: bool)
      modifies this
      ensures (entries, ok) == AllowStep(old(entries), Key(route, ip), now, rpm)
    {
      var key := Key(route, ip);
      if key !in entries {
        entries := entries[key := Entry(now, 1, now)];
        return true;
      }
      var e := entries[key];
      if now - e.windowStart >= WINDOW {
        e := e.(windowStart := now);
        e := e.(count := 0);
        entries := entries[key := e];
      }
      assert entries == old(entries)[key := e];
      if e.count >= rpm {
        return false;
      }
      e := e.(count := e.count + 1);
      e := e.(lastSeen := now);
      entries := entries[key := e];
      assert entries == old(entries)[key := e];
      return true;
    }

    method EvictStale(now: int, ttl: int)
      modifies this
      ensures entries == EvictStep(old(entries), now, ttl)
      ensures forall k :: k in entries <==> k in old(entries) && now - old(entries)[k].lastSeen <= ttl
      ensures forall k :: k in entries ==> entries[k] == old(entries)[k]
    {
      var pending := entries.Keys;
      while pending != {}
        invariant pending <= entries.Keys <= old(entries).Keys
        invariant forall k :: k in entries ==> entries[k] == old(entries)[k]
        invariant forall k :: k in old(entries) && k !in pending ==>
                    (k in entries <==> now - old(entries)[k].lastSeen <= ttl)
        decreases pending
      {
        var k :| k in pending;
        if now - entries[k].lastSeen > ttl {
          entries := entries - {k};
        }
        pending := pending - {k};
      }
    }
  }

  /** A window lasts a minute of sixty thousand million ticks: a key that has used up its budget is let through again
      exactly when its window began that long ago, and then with a whole budget. */
  lemma WindowIsAMinute(m: Entries, key: Key, now: int, rpm: int)
    requires key in m && m[key].count >= rpm >= 1
    ensures var (m', ok) := AllowStep(m, key, now, rpm);
            && (ok <==> now - m[key].windowStart >= 60_000_000_000)
            && (ok ==> m'[key] == Entry(now, 1, now))
            && (!ok ==> m'[key] == m[key])
            && m'.Keys == m.Keys && forall k :: k in m && k != key ==> m'[k] == m[k]
  {
  }

  // ---------------------------------------------------------------- runs

  datatype Call = Allow(now: int, key: Key, rpm: int) | Evict(now: int, ttl: int)

  datatype Grant = Grant(key: Key, at: int)

  /** The table, the decisions in order, and the requests that were let through. */
  datatype Outcome = Outcome(entries: Entries, decisions: seq<bool>, grants: seq<Grant>)

  function Step(o: Outcome, c: Call, evicting: bool): Outcome {
    match c
    case Allow(now, key, rpm) =>
      var (m, ok) := AllowStep(o.entries, key, now, rpm);
      Outcome(m, o.decisions + [ok], if ok then o.grants + [Grant(key, now)] else o.grants)
    case Evict(now, ttl) =>
      if evicting then Outcome(EvictStep(o.entries, now, ttl), o.decisions, o.grants) else o
  }

  /** The first `n` calls on an empty limiter; one that is not evicting ignores the sweeps. */
  function Exec(calls: seq<Call>, evicting: bool, n: nat): Outcome
    requires n <= |calls|
  {
    if n == 0 then Outcome(map[], [], []) else Step(Exec(calls, evicting, n - 1), calls[n - 1], evicting)
  }

  ghost predicate ClockMonotone(calls: seq<Call>) {
    forall i, j :: 0 <= i < j < |calls| ==> calls[i].now <= calls[j].now
  }

  /** Every budget admits something, and no sweep removes an entry before its window could have expired. */
  ghost predicate Sensible(calls: seq<Call>) {
    forall i :: 0 <= i < |calls| ==> if calls[i].Allow? then calls[i].rpm >= 1 else calls[i].ttl >= WINDOW - 1
  }

  // ---------------------------------------------------------------- eviction is invisible

  /** The evicting table agrees with the complete one; what is missing has expired by time t. */
  ghost predicate Mirrors(m: Entries, full: Entries, t: int) {
    && (forall k :: k in m ==> k in full && m[k] == full[k])
    && (forall k :: k in full && k !in m ==> t - full[k].windowStart >= WINDOW)
    && (forall k :: k in full ==> full[k].windowStart <= full[k].lastSeen)
  }

  lemma AllowMirrors(m: Entries, full: Entries, t: int, key: Key, now: int, rpm: int)
    requires Mirrors(m, full, t) && t <= now && rpm >= 1 && (key in full ==> full[key].windowStart <= now)
    ensures AllowStep(m, key, now, rpm).1 == AllowStep(full, key, now, rpm).1
    ensures Mirrors(AllowStep(m, key, now, rpm).0, AllowStep(full, key, now, rpm).0, now)
  {
  }

  lemma EvictMirrors(m: Entries, full: Entries, t: int, now: int, ttl: int)
    requires Mirrors(m, full, t) && t <= now && ttl >= WINDOW - 1
    ensures Mirrors(EvictStep(m, now, ttl), full, now)
  {
  }

  ghost predicate StartedBy(full: Entries, t: int) {
    forall k :: k in full ==> full[k].windowStart <= t
  }

  lemma {:induction false} RunsMirror(calls: seq<Call>, n: nat)
    requires n <= |calls| && ClockMonotone(calls) && Sensible(calls)
    ensures var o, full := Exec(calls, true, n), Exec(calls, false, n);
            && o.decisions == full.decisions && o.grants == full.grants
            && (n > 0 ==>
                  Mirrors(o.entries, full.entries, calls[n - 1].now) && StartedBy(full.entries, calls[n - 1].now))
  {
    if n > 0 {
      RunsMirror(calls, n - 1);
      var o, full, c := Exec(calls, true, n - 1), Exec(calls, false, n - 1), calls[n - 1];
      var t := if n == 1 then c.now else calls[n - 2].now;
      assert Mirrors(o.entries, full.entries, t) && StartedBy(full.entries, t) && t <= c.now;
      if c.Allow? {
        AllowMirrors(o.entries, full.entries, t, c.key, c.now, c.rpm);
      } else {
        EvictMirrors(o.entries, full.entries, t, c.now, c.ttl);
      }
    }
  }

  /** Eviction never shows: with a monotone clock, budgets of at least one and a time-to-live of at least a window
      (less one tick), the limiter decides every request as one that never evicts. */
  lemma EvictionIsInvisible(calls: seq<Call>)
    requires ClockMonotone(calls) && Sensible(calls)
    ensures Exec(calls, true, |calls|).decisions == Exec(calls, false, |calls|).decisions
  {
    RunsMirror(calls, |calls|);
  }

  /** All requests use one budget and all sweeps one time-to-live. */
  ghost predicate Uses(calls: seq<Call>, rpm: int, ttl: int) {
    && ClockMonotone(calls)
    && forall i :: 0 <= i < |calls| ==> if calls[i].Allow? then calls[i].rpm == rpm else calls[i].ttl == ttl
  }

  ghost predicate Invisible(calls: seq<Call>) {
    Exec(calls, true, |calls|).decisions == Exec(calls, false, |calls|).decisions
  }

  function Burst(key: Key, rpm: int, ttl: int, size: nat, later: int): seq<Call> {
    seq(size, _ => Allow(0, key, rpm)) + [Evict(later, ttl), Allow(later, key, rpm)]
  }

  lemma {:induction false} BurstFills(key: Key, rpm: int, ttl: int, size: nat, later: int, evicting: bool, n: nat)
    requires n <= size && (n <= rpm || n <= 1)
    ensures var o := Exec(Burst(key, rpm, ttl, size, later), evicting, n);
            o.decisions == seq(n, _ => true) && o.entries == if n == 0 then map[] else map[key := Entry(0, n, 0)]
  {
    if n > 0 {
      BurstFills(key, rpm, ttl, size, later, evicting, n - 1);
      assert seq(n, _ => true) == seq(n - 1, _ => true) + [true];
    }
  }

  /** Otherwise a sweep can show: a full bucket is forgotten and one more request gets through. */
  lemma EvictionCanShow(key: Key, rpm: int, ttl: int) returns (calls: seq<Call>)
    requires !(rpm >= 1 && ttl >= WINDOW - 1)
    ensures Uses(calls, rpm, ttl) && !Invisible(calls)
  {
    var size, later := if rpm <= 0 then 1 else rpm, if ttl < 0 then 0 else ttl + 1;
    calls := Burst(key, rpm, ttl, size, later);
    BurstFills(key, rpm, ttl, size, later, true, size);
    BurstFills(key, rpm, ttl, size, later, false, size);
    assert calls[size] == Evict(later, ttl) && calls[size + 1] == Allow(later, key, rpm) && |calls| == size + 2;
    SweepShows(calls, key, rpm, ttl, size, later);
  }

  lemma SweepShows(calls: seq<Call>, key: Key, rpm: int, ttl: int, size: nat, later: int)
    requires |calls| == size + 2 && calls[size] == Evict(later, ttl) && calls[size + 1] == Allow(later, key, rpm)
    requires later > ttl && (rpm <= 0 || (size == rpm && later < WINDOW))
    requires forall evicting :: var o := Exec(calls, evicting, size);
               |o.decisions| == size && o.entries == map[key := Entry(0, size, 0)]
    ensures !Invisible(calls)
  {
    var o, o' := Exec(calls, true, size), Exec(calls, false, size);
    assert EvictStep(o.entries, later, ttl) == map[];
    assert Exec(calls, true, size + 1) == Outcome(map[], o.decisions, o.grants) && Exec(calls, false, size + 1) == o';
    assert !AllowStep(o'.entries, key, later, rpm).1;
    assert Exec(calls, true, size + 2).decisions[size] && !Exec(calls, false, size + 2).decisions[size];
  }

  /** Exactly when eviction is safe: for given settings no run ever shows a sweep if and only if the budget is at
      least one and the time-to-live at least one tick short of a window. */
  lemma EvictionSafeExactlyWhen(rpm: int, ttl: int)
    ensures (forall calls :: Uses(calls, rpm, ttl) ==> Invisible(calls)) <==> rpm >= 1 && ttl >= WINDOW - 1
  {
    if rpm >= 1 && ttl >= WINDOW - 1 {
      forall calls | Uses(calls, rpm, ttl) ensures Invisible(calls) {
        EvictionIsInvisible(calls);
      }
    } else {
      var calls := EvictionCanShow(Key("", ""), rpm, ttl);
    }
  }

  // ---------------------------------------------------------------- what lastSeen records

  /** The time of the last request of a key among the first n that were let through. */
  function LastGrant(grants: seq<Grant>, key: Key, n: nat): Option<int>
    requires n <= |grants|
  {
    if n == 0 then None else if grants[n - 1].key == key then Some(grants[n - 1].at) else LastGrant(grants, key, n - 1)
  }

  lemma {:induction false} LastGrantOfPrefix(grants: seq<Grant>, g: Grant, key: Key, n: nat)
    requires n <= |grants|
    ensures LastGrant(grants + [g], key, n) == LastGrant(grants, key, n)
  {
    if n > 0 { LastGrantOfPrefix(grants, g, key, n - 1); }
  }

  ghost predicate SeenIsGranted(o: Outcome, key: Key) {
    key in o.entries ==> LastGrant(o.grants, key, |o.grants|) == Some(o.entries[key].lastSeen)
  }

  lemma StepSeesGrants(o: Outcome, c: Call, key: Key, evicting: bool)
    requires SeenIsGranted(o, key)
    ensures SeenIsGranted(Step(o, c, evicting), key)
  {
    if c.Allow? { LastGrantOfPrefix(o.grants, Grant(c.key, c.now), key, |o.grants|); }
  }

  /** In every run an entry's `lastSeen` is the time of the key's last granted request, whatever was rejected since. */
  lemma {:induction false} LastSeenIsLastGrant(calls: seq<Call>, key: Key, evicting: bool, n: nat)
    requires n <= |calls|
    ensures SeenIsGranted(Exec(calls, evicting, n), key)
  {
    if n > 0 {
      LastSeenIsLastGrant(calls, key, evicting, n - 1);
      StepSeesGrants(Exec(calls, evicting, n - 1), calls[n - 1], key, evicting);
    }
  }

  /** So a request is recorded exactly when it is granted, or when one granted before came at the same time. */
  lemma RecordedExactlyWhen(calls: seq<Call>, n: nat)
    requires n < |calls| && calls[n].Allow?
    ensures var c, o, next := calls[n], Exec(calls, true, n), Exec(calls, true, n + 1);
            && c.key in next.entries && next.decisions == o.decisions + [AllowStep(o.entries, c.key, c.now, c.rpm).1]
            && (next.entries[c.key].lastSeen == c.now <==>
                  next.decisions[|o.decisions|] || LastGrant(o.grants, c.key, |o.grants|) == Some(c.now))
  {
    LastSeenIsLastGrant(calls, calls[n].key, true, n);
  }

  /** A budget of one, a request at 0 and a rejected one at 1: the entry still says 0. */
  lemma RejectionLeavesLastSeen(key: Key)
    ensures var o := Exec([Allow(0, key, 1), Allow(1, key, 1)], true, 2);
            o.decisions == [true, false] && key in o.entries && o.entries[key].lastSeen == 0
  {
    var calls := [Allow(0, key, 1), Allow(1, key, 1)];
    assert Exec(calls, true, 0) == Outcome(map[], [], []);
    assert Exec(calls, true, 1) == Outcome(map[key := Entry(0, 1, 0)], [true], [Grant(key, 0)]);
  }

  // ---------------------------------------------------------------- a flood keeps its entry alive

  /** Call r is a request of the key. */
  predicate Requests(calls: seq<Call>, key: Key, r: nat) {
    r < |calls| && calls[r].Allow? && calls[r].key == key
  }

  /** Call r is a request of the key that sweep j finds recent: a window more recent than the time-to-live. */
  predicate RecentFor(calls: seq<Call>, key: Key, r: nat, j: nat)
    requires j < |calls| && calls[j].Evict?
  {
    r < j && Requests(calls, key, r) && calls[j].now - calls[r].now <= calls[j].ttl - WINDOW
  }

  /** Once the key has been requested, every sweep finds a recent request of it. */
  ghost predicate Floods(calls: seq<Call>, key: Key) {
    forall j :: 0 <= j < |calls| && calls[j].Evict? && (exists i :: 0 <= i < j && Requests(calls, key, i)) ==>
      exists r :: RecentFor(calls, key, r, j)
  }

  /** The entry of a requested key is never missing. */
  ghost predicate NeverSwept(calls: seq<Call>, key: Key) {
    forall i, n :: 0 <= i < n <= |calls| && Requests(calls, key, i) ==> key in Exec(calls, true, n).entries
  }

  /** Fresh at time t: within a window of t, granted or not, a request of the key has been recorded. */
  ghost predicate FreshAt(m: Entries, key: Key, t: int) {
    key in m && t - m[key].lastSeen < WINDOW && m[key].windowStart <= m[key].lastSeen
  }

  /** Windows start no later than the last recorded request, which is no later than t. */
  ghost predicate SeenBy(m: Entries, t: int) {
    forall k :: k in m ==> m[k].windowStart <= m[k].lastSeen <= t
  }

  ghost predicate BudgetsAdmit(calls: seq<Call>) {
    forall i :: 0 <= i < |calls| && calls[i].Allow? ==> calls[i].rpm >= 1
  }

  lemma AllowSeen(m: Entries, key: Key, t: int, now: int, rpm: int)
    requires rpm >= 1 && SeenBy(m, t) && t <= now
    ensures SeenBy(AllowStep(m, key, now, rpm).0, now) && FreshAt(AllowStep(m, key, now, rpm).0, key, now)
  {
    if key in m { assert m[key].windowStart <= m[key].lastSeen <= t; }
  }

  lemma {:induction false} AlwaysSeenBy(calls: seq<Call>, n: nat)
    requires n <= |calls| && ClockMonotone(calls) && BudgetsAdmit(calls)
    ensures n == 0 ==> Exec(calls, true, n).entries == map[]
    ensures n > 0 ==> SeenBy(Exec(calls, true, n).entries, calls[n - 1].now)
  {
    if n > 0 {
      AlwaysSeenBy(calls, n - 1);
      var m, c := Exec(calls, true, n - 1).entries, calls[n - 1];
      var t := if n == 1 then c.now else calls[n - 2].now;
      assert SeenBy(m, t) && t <= c.now;
      if c.Allow? { AllowSeen(m, c.key, t, c.now, c.rpm); }
    }
  }

  /** With budgets of at least one, any request, granted or not, leaves its entry seen within the last window. */
  lemma RequestIsFresh(calls: seq<Call>, key: Key, r: nat)
    requires Requests(calls, key, r) && ClockMonotone(calls) && BudgetsAdmit(calls)
    ensures FreshAt(Exec(calls, true, r + 1).entries, key, calls[r].now)
  {
    AlwaysSeenBy(calls, r);
    var m, c := Exec(calls, true, r).entries, calls[r];
    AllowSeen(m, key, if r == 0 then c.now else calls[r - 1].now, c.now, c.rpm);
  }

  lemma EvictKeepsFresh(m: Entries, key: Key, t: int, recent: int, now: int, ttl: int)
    requires FreshAt(m, key, t) && FreshAt(m, key, recent) && now - recent <= ttl - WINDOW
    ensures FreshAt(EvictStep(m, now, ttl), key, t)
  {
  }

  lemma ElsewhereKeepsFresh(m: Entries, key: Key, t: int, other: Key, now: int, rpm: int)
    requires FreshAt(m, key, t) && other != key
    ensures FreshAt(AllowStep(m, other, now, rpm).0, key, t)
  {
  }

  /** After request r of a flood, the entry stays at least as fresh as that request left it. */
  lemma {:induction false} FloodStaysFresh(calls: seq<Call>, key: Key, r: nat, n: nat)
    requires Requests(calls, key, r) && r < n <= |calls|
    requires ClockMonotone(calls) && BudgetsAdmit(calls) && Floods(calls, key)
    ensures FreshAt(Exec(calls, true, n).entries, key, calls[r].now)
    decreases n
  {
    var c, m := calls[n - 1], Exec(calls, true, n - 1).entries;
    if Requests(calls, key, n - 1) {
      RequestIsFresh(calls, key, n - 1);
      assert calls[r].now <= c.now;
    } else {
      FloodStaysFresh(calls, key, r, n - 1);
      if c.Evict? {
        var recent := RecentRequest(calls, key, r, n - 1);
        FloodStaysFresh(calls, key, recent, n - 1);
        EvictKeepsFresh(m, key, calls[r].now, calls[recent].now, c.now, c.ttl);
      } else {
        ElsewhereKeepsFresh(m, key, calls[r].now, c.key, c.now, c.rpm);
      }
    }
  }

  lemma RecentRequest(calls: seq<Call>, key: Key, i: nat, j: nat) returns (r: nat)
    requires ClockMonotone(calls) && Floods(calls, key)
    requires i < j < |calls| && Requests(calls, key, i) && calls[j].Evict?
    ensures RecentFor(calls, key, r, j)
  {
    r :| RecentFor(calls, key, r, j);
  }

  lemma FloodIsNeverSwept(calls: seq<Call>, key: Key)
    requires ClockMonotone(calls) && BudgetsAdmit(calls) && Floods(calls, key)
    ensures NeverSwept(calls, key)
  {
    forall i, n | 0 <= i < n <= |calls| && Requests(calls, key, i) ensures key in Exec(calls, true, n).entries {
      FloodStaysFresh(calls, key, i, n);
    }
  }

  /** Without any budget only the first request is recorded, and a flood does not save the entry. */
  lemma FloodCanBeSwept(key: Key, rpm: int, ttl: int) returns (calls: seq<Call>)
    requires rpm <= 0 && ttl >= WINDOW
    ensures Uses(calls, rpm, ttl) && Floods(calls, key) && !NeverSwept(calls, key)
  {
    var later := ttl + 1;
    calls := [Allow(0, key, rpm), Allow(later, key, rpm), Evict(later, ttl)];
    assert RecentFor(calls, key, 1, 2);
    assert Exec(calls, true, 0) == Outcome(map[], [], []);
    assert Exec(calls, true, 1) == Outcome(map[key := Entry(0, 1, 0)], [true], [Grant(key, 0)]);
    assert Exec(calls, true, 2).entries == map[key := Entry(later, 0, 0)];
    assert key !in Exec(calls, true, 3).entries;
  }

  /** Exactly when a flood keeps its entry alive for ever, rejected requests notwithstanding: for sweeps that wait at
      least a window, if and only if the budget is at least one. */
  lemma FloodSurvivesExactlyWhen(rpm: int, ttl: int)
    requires ttl >= WINDOW
    ensures (forall calls, key :: Uses(calls, rpm, ttl) && Floods(calls, key) ==> NeverSwept(calls, key)) <==> rpm >= 1
  {
    if rpm >= 1 {
      forall calls, key | Uses(calls, rpm, ttl) && Floods(calls, key) ensures NeverSwept(calls, key) {
        FloodIsNeverSwept(calls, key);
      }
    } else {
      var calls := FloodCanBeSwept(Key("", ""), rpm, ttl);
    }
  }

  /** A budget of one and sweeps that wait a window: four requests, of which the second and fourth are rejected, and a
      sweep that finds the entry because the third was not. With the first request alone it would be gone. */
  lemma FloodWithRejections(key: Key) returns (calls: seq<Call>)
    ensures Uses(calls, 1, WINDOW) && Floods(calls, key) && |calls| == 5 && calls[4].Evict?
    ensures Exec(calls, true, 5).decisions == [true, false, true, false] && key in Exec(calls, true, 5).entries
    ensures key !in Exec([calls[0], calls[4]], true, 2).entries
  {
    calls := [Allow(0, key, 1), Allow(1, key, 1), Allow(WINDOW, key, 1), Allow(WINDOW + 1, key, 1),
              Evict(WINDOW + 1, WINDOW)];
    assert RecentFor(calls, key, 3, 4);
    assert Exec(calls, true, 0) == Outcome(map[], [], []);
    assert Exec(calls, true, 1).entries == map[key := Entry(0, 1, 0)];
    assert Exec(calls, true, 2).entries == map[key := Entry(0, 1, 0)];
    assert Exec(calls, true, 3).entries == map[key := Entry(WINDOW, 1, WINDOW)];
    assert Exec(calls, true, 4).entries == map[key := Entry(WINDOW, 1, WINDOW)];
    assert Exec(calls, true, 4).decisions == [true, false, true, false];
    FirstAloneIsSwept(key, calls[4]);
  }

  lemma FirstAloneIsSwept(key: Key, sweep: Call)
    requires sweep == Evict(WINDOW + 1, WINDOW)
    ensures key !in Exec([Allow(0, key, 1), sweep], true, 2).entries
  {
    var calls := [Allow(0, key, 1), sweep];
    assert Exec(calls, true, 0) == Outcome(map[], [], []);
    assert Exec(calls, true, 1).entries == map[key := Entry(0, 1, 0)];
  }

  // ---------------------------------------------------------------- who is never rejected

  /** Requests of a key at or after time a, among the first n calls. */
  function RequestsFrom(calls: seq<Call>, key: Key, a: int, n: nat): nat
    requires n <= |calls|
  {
    if n == 0 then 0
    else RequestsFrom(calls, key, a, n - 1) + if Requests(calls, key, n - 1) && calls[n - 1].now >= a then 1 else 0
  }

  /** Requests of a key in the interval [a, b). */
  function RequestsIn(calls: seq<Call>, key: Key, a: int, b: int, n: nat): nat
    requires n <= |calls|
  {
    if n == 0 then 0
    else RequestsIn(calls, key, a, b, n - 1) + if Requests(calls, key, n - 1) && a <= calls[n - 1].now < b then 1 else 0
  }

  function RequestsWithin(calls: seq<Call>, key: Key, a: int): nat {
    RequestsIn(calls, key, a, a + WINDOW, |calls|)
  }

  /** The key never makes more than rpm requests within a window length, all with that budget. */
  ghost predicate Moderate(calls: seq<Call>, key: Key, rpm: int) {
    && (forall a :: RequestsWithin(calls, key, a) <= rpm)
    && forall i :: 0 <= i < |calls| && Requests(calls, key, i) ==> calls[i].rpm == rpm
  }

  lemma {:induction false} RequestsInPrefix(calls: seq<Call>, key: Key, a: int, b: int, n: nat, k: nat)
    requires n <= k <= |calls|
    ensures RequestsIn(calls, key, a, b, n) <= RequestsIn(calls, key, a, b, k)
    decreases k
  {
    if n < k { RequestsInPrefix(calls, key, a, b, n, k - 1); }
  }

  lemma {:induction false} FromIsIn(calls: seq<Call>, key: Key, a: int, b: int, n: nat)
    requires n <= |calls| && forall i :: 0 <= i < n ==> calls[i].now < b
    ensures RequestsFrom(calls, key, a, n) == RequestsIn(calls, key, a, b, n)
  {
    if n > 0 { FromIsIn(calls, key, a, b, n - 1); }
  }

  /** The counter never exceeds the key's requests since its window began, by time t. */
  ghost predicate CountedSince(calls: seq<Call>, m: Entries, key: Key, n: nat, t: int)
    requires n <= |calls|
  {
    key in m ==> m[key].windowStart <= t && m[key].count <= RequestsFrom(calls, key, m[key].windowStart, n)
  }

  lemma StepCounted(calls: seq<Call>, m: Entries, key: Key, n: nat, t: int)
    requires n < |calls| && CountedSince(calls, m, key, n, t) && t <= calls[n].now
    ensures var c := calls[n];
            var next := if c.Allow? then AllowStep(m, c.key, c.now, c.rpm).0 else EvictStep(m, c.now, c.ttl);
            CountedSince(calls, next, key, n + 1, c.now)
  {
    var c := calls[n];
    if Requests(calls, key, n) {
      assert RequestsFrom(calls, key, c.now, n + 1) >= 1;
      assert key in m ==> RequestsFrom(calls, key, m[key].windowStart, n + 1) ==
                          RequestsFrom(calls, key, m[key].windowStart, n) + 1;
    }
  }

  lemma {:induction false} AlwaysCountedSince(calls: seq<Call>, key: Key, n: nat)
    requires n <= |calls| && ClockMonotone(calls)
    ensures CountedSince(calls, Exec(calls, true, n).entries, key, n, if n == 0 then 0 else calls[n - 1].now)
  {
    if n > 0 {
      AlwaysCountedSince(calls, key, n - 1);
      assert n == 1 ==> Exec(calls, true, 0).entries == map[];
      StepCounted(calls, Exec(calls, true, n - 1).entries, key, n - 1,
                  if n == 1 then calls[0].now else calls[n - 2].now);
    }
  }

  ghost predicate Granted(calls: seq<Call>, i: nat)
    requires i < |calls|
  {
    Exec(calls, true, i + 1).decisions == Exec(calls, true, i).decisions + [true]
  }

  /** Request i itself falls into the interval that starts with it, so a moderate key's budget is at least one. */
  lemma MakesOne(calls: seq<Call>, key: Key, i: nat)
    requires Requests(calls, key, i)
    ensures RequestsWithin(calls, key, calls[i].now) >= 1
  {
    RequestsInPrefix(calls, key, calls[i].now, calls[i].now + WINDOW, i + 1, |calls|);
  }

  /** Whatever the sweeps and the other keys do, a key that makes at most rpm requests in every interval of one window
      length is never rejected. */
  lemma ModerateIsNeverRejected(calls: seq<Call>, key: Key, rpm: int, i: nat)
    requires ClockMonotone(calls) && Moderate(calls, key, rpm) && Requests(calls, key, i)
    ensures Granted(calls, i)
  {
    var m, c := Exec(calls, true, i).entries, calls[i];
    AlwaysCountedSince(calls, key, i);
    if key in m && c.now - m[key].windowStart < WINDOW {
      var a := m[key].windowStart;
      assert a <= c.now by { assert i > 0 ==> calls[i - 1].now <= c.now; }
      forall k | 0 <= k < i + 1 ensures calls[k].now < a + WINDOW {
        assert calls[k].now <= c.now;
      }
      FromIsIn(calls, key, a, a + WINDOW, i + 1);
      RequestsInPrefix(calls, key, a, a + WINDOW, i + 1, |calls|);
      assert RequestsWithin(calls, key, a) <= rpm;
      assert RequestsFrom(calls, key, a, i + 1) == RequestsFrom(calls, key, a, i) + 1;
      assert m[key].count < rpm;
    } else {
      MakesOne(calls, key, i);
      assert RequestsWithin(calls, key, c.now) <= rpm;
    }
  }

  // ---------------------------------------------------------------- the rolling bound

  /** Grants to a key at or after time a, among the first n. */
  function CountFrom(grants: seq<Grant>, key: Key, a: int, n: nat): nat
    requires n <= |grants|
  {
    if n == 0 then 0
    else CountFrom(grants, key, a, n - 1) + if grants[n - 1].key == key && grants[n - 1].at >= a then 1 else 0
  }

  /** Grants to a key in the interval [a, b). */
  function CountIn(grants: seq<Grant>, key: Key, a: int, b: int, n: nat): nat
    requires n <= |grants|
  {
    if n == 0 then 0
    else CountIn(grants, key, a, b, n - 1) + if grants[n - 1].key == key && a <= grants[n - 1].at < b then 1 else 0
  }

  lemma {:induction false} CountSplits(grants: seq<Grant>, key: Key, a: int, b: int, n: nat)
    requires n <= |grants| && a <= b
    ensures CountFrom(grants, key, a, n) == CountIn(grants, key, a, b, n) + CountFrom(grants, key, b, n)
  {
    if n > 0 { CountSplits(grants, key, a, b, n - 1); }
  }

  lemma {:induction false} CountOfPrefix(grants: seq<Grant>, g: Grant, key: Key, a: int, n: nat)
    requires n <= |grants|
    ensures CountFrom(grants + [g], key, a, n) == CountFrom(grants, key, a, n)
  {
    if n > 0 { CountOfPrefix(grants, g, key, a, n - 1); }
  }

  lemma {:induction false} NoneFrom(grants: seq<Grant>, key: Key, a: int, n: nat)
    requires n <= |grants| && forall i :: 0 <= i < n && grants[i].key == key ==> grants[i].at < a
    ensures CountFrom(grants, key, a, n) == 0
  {
    if n > 0 { NoneFrom(grants, key, a, n - 1); }
  }

  function Total(grants: seq<Grant>, key: Key, a: int): nat { CountFrom(grants, key, a, |grants|) }

  lemma TotalPush(grants: seq<Grant>, g: Grant, key: Key, a: int)
    ensures Total(grants + [g], key, a) == Total(grants, key, a) + if g.key == key && g.at >= a then 1 else 0
  {
    CountOfPrefix(grants, g, key, a, |grants|);
  }

  lemma TotalFalls(grants: seq<Grant>, key: Key, a: int, b: int)
    requires a <= b
    ensures Total(grants, key, a) >= Total(grants, key, b)
  {
    CountSplits(grants, key, a, b, |grants|);
  }

  /** The current window of a key has let exactly `count` requests through, the first of them at its start; the
      window before it can reach into an interval ending at the current start with all but its first request. */
  ghost predicate Accounted(grants: seq<Grant>, key: Key, e: Entry, rpm: int) {
    && 1 <= e.count <= rpm
    && (forall i :: 0 <= i < |grants| && grants[i].key == key ==> grants[i].at < e.windowStart + WINDOW)
    && Total(grants, key, e.windowStart) == e.count
    && Total(grants, key, e.windowStart + 1) <= e.count - 1
    && (forall a :: e.windowStart - WINDOW < a ==> Total(grants, key, a) - Total(grants, key, e.windowStart) <= rpm - 1)
    && (forall a :: Total(grants, key, a) - Total(grants, key, a + WINDOW) <= 2 * rpm - 1)
  }

  lemma GrantInWindow(grants: seq<Grant>, key: Key, e: Entry, now: int, rpm: int)
    requires Accounted(grants, key, e, rpm) && e.count < rpm && e.windowStart <= now < e.windowStart + WINDOW
    ensures Accounted(grants + [Grant(key, now)], key, Entry(e.windowStart, e.count + 1, now), rpm)
  {
    var ws, g, grants' := e.windowStart, Grant(key, now), grants + [Grant(key, now)];
    TotalPush(grants, g, key, ws);
    TotalPush(grants, g, key, ws + 1);
    forall a | ws - WINDOW < a ensures Total(grants', key, a) - Total(grants', key, ws) <= rpm - 1 {
      TotalPush(grants, g, key, a);
    }
    forall a ensures Total(grants', key, a) - Total(grants', key, a + WINDOW) <= 2 * rpm - 1 {
      TotalPush(grants, g, key, a);
      TotalPush(grants, g, key, a + WINDOW);
      if ws < a { TotalFalls(grants, key, ws + 1, a); }
    }
  }

  lemma GrantOpensWindow(grants: seq<Grant>, key: Key, e: Entry, now: int, rpm: int)
    requires Accounted(grants, key, e, rpm) && now >= e.windowStart + WINDOW
    ensures Accounted(grants + [Grant(key, now)], key, Entry(now, 1, now), rpm)
  {
    var g, grants' := Grant(key, now), grants + [Grant(key, now)];
    NoneFrom(grants, key, now, |grants|);
    NoneFrom(grants, key, now + 1, |grants|);
    TotalPush(grants, g, key, now);
    TotalPush(grants, g, key, now + 1);
    forall a | now - WINDOW < a ensures Total(grants', key, a) - Total(grants', key, now) <= rpm - 1 {
      TotalPush(grants, g, key, a);
      TotalFalls(grants, key, e.windowStart + 1, a);
    }
    forall a ensures Total(grants', key, a) - Total(grants', key, a + WINDOW) <= 2 * rpm - 1 {
      TotalPush(grants, g, key, a);
      TotalPush(grants, g, key, a + WINDOW);
      if now - WINDOW < a { TotalFalls(grants, key, e.windowStart + 1, a); }
    }
  }

  lemma FirstGrant(grants: seq<Grant>, key: Key, now: int, rpm: int)
    requires rpm >= 1 && forall i :: 0 <= i < |grants| ==> grants[i].key != key
    ensures Accounted(grants + [Grant(key, now)], key, Entry(now, 1, now), rpm)
  {
    var g, grants' := Grant(key, now), grants + [Grant(key, now)];
    forall a ensures Total(grants', key, a) == if now >= a then 1 else 0 {
      NoneFrom(grants, key, a, |grants|);
      TotalPush(grants, g, key, a);
    }
  }

  lemma GrantElsewhere(grants: seq<Grant>, g: Grant, key: Key, e: Entry, rpm: int)
    requires Accounted(grants, key, e, rpm) && g.key != key
    ensures Accounted(grants + [g], key, e, rpm)
  {
    forall a ensures Total(grants + [g], key, a) == Total(grants, key, a) {
      TotalPush(grants, g, key, a);
    }
  }

  /** The last entry of a key accounts for its grants: it is in the table, or it was swept out after its window. */
  ghost predicate Tracked(o: Outcome, key: Key, rpm: int, t: int, last: Option<Entry>) {
    match last
    case None => key !in o.entries && forall i :: 0 <= i < |o.grants| ==> o.grants[i].key != key
    case Some(e) =>
      && Accounted(o.grants, key, e, rpm) && e.windowStart <= e.lastSeen && e.windowStart <= t
      && if key in o.entries then o.entries[key] == e else t - e.windowStart >= WINDOW
  }

  lemma AllowTracked(o: Outcome, key: Key, now: int, rpm: int, t: int, last: Option<Entry>)
    returns (next: Option<Entry>)
    requires Tracked(o, key, rpm, t, last) && t <= now && rpm >= 1
    ensures Tracked(Step(o, Allow(now, key, rpm), true), key, rpm, now, next)
  {
    next := Some(Entry(now, 1, now));
    match last {
      case None => FirstGrant(o.grants, key, now, rpm);
      case Some(e) =>
        if now - e.windowStart >= WINDOW {
          GrantOpensWindow(o.grants, key, e, now, rpm);
        } else if e.count < rpm {
          GrantInWindow(o.grants, key, e, now, rpm);
          next := Some(Entry(e.windowStart, e.count + 1, now));
        } else {
          next := last;
        }
    }
  }

  lemma ElsewhereTracked(o: Outcome, c: Call, key: Key, rpm: int, t: int, last: Option<Entry>)
    requires Tracked(o, key, rpm, t, last) && t <= c.now && c.Allow? && c.key != key
    ensures Tracked(Step(o, c, true), key, rpm, c.now, last)
  {
    if last.Some? { GrantElsewhere(o.grants, Grant(c.key, c.now), key, last.value, rpm); }
  }

  lemma EvictTracked(o: Outcome, c: Call, key: Key, rpm: int, t: int, last: Option<Entry>)
    requires Tracked(o, key, rpm, t, last) && t <= c.now && c.Evict? && c.ttl >= WINDOW - 1
    ensures Tracked(Step(o, c, true), key, rpm, c.now, last)
  {
  }

  /** The requests of one key use one budget, and no sweep removes an entry before its window could have expired. */
  ghost predicate SensibleFor(calls: seq<Call>, key: Key, rpm: int) {
    forall i :: 0 <= i < |calls| ==>
      if calls[i].Allow? then calls[i].key == key ==> calls[i].rpm == rpm else calls[i].ttl >= WINDOW - 1
  }

  lemma {:induction false} RunTracked(calls: seq<Call>, key: Key, rpm: int, n: nat) returns (last: Option<Entry>)
    requires n <= |calls| && ClockMonotone(calls) && SensibleFor(calls, key, rpm) && rpm >= 1
    ensures Tracked(Exec(calls, true, n), key, rpm, if n == 0 then 0 else calls[n - 1].now, last)
  {
    if n == 0 { return None; }
    last := RunTracked(calls, key, rpm, n - 1);
    var o, c := Exec(calls, true, n - 1), calls[n - 1];
    assert n == 1 ==> o == Outcome(map[], [], []);
    var t := if n == 1 then c.now else calls[n - 2].now;
    assert Tracked(o, key, rpm, t, last);
    if c.Evict? {
      EvictTracked(o, c, key, rpm, t, last);
    } else if c.key == key {
      last := AllowTracked(o, key, c.now, rpm, t, last);
    } else {
      ElsewhereTracked(o, c, key, rpm, t, last);
    }
  }

  /** Grants to a key in the window-length interval from time a. */
  function InWindow(grants: seq<Grant>, key: Key, a: int): nat {
    CountIn(grants, key, a, a + WINDOW, |grants|)
  }

  /** The rolling bound: no interval of one window length ever contains 2 * rpm granted requests of one key,
      although the window is fixed, not rolling, and sweeps happen. Budgets of other keys do not matter. */
  lemma RollingBound(calls: seq<Call>, key: Key, rpm: int, a: int)
    requires ClockMonotone(calls) && SensibleFor(calls, key, rpm) && rpm >= 1
    ensures InWindow(Exec(calls, true, |calls|).grants, key, a) <= 2 * rpm - 1
  {
    var last := RunTracked(calls, key, rpm, |calls|);
    var grants := Exec(calls, true, |calls|).grants;
    CountSplits(grants, key, a, a + WINDOW, |grants|);
    if last.Some? {
      assert Total(grants, key, a) - Total(grants, key, a + WINDOW) <= 2 * rpm - 1;
    } else {
      NoneFrom(grants, key, a, |grants|);
    }
  }

  // ---------------------------------------------------------------- the bound is reached

  /** One request opens a window, rpm - 1 come at its very end and rpm more as soon as it is over. */
  function Surge(key: Key, rpm: nat): seq<Call> {
    seq(2 * rpm, i => Allow(if i == 0 then 0 else if i < rpm then WINDOW - 1 else WINDOW, key, rpm))
  }

  lemma {:induction false} SurgeGranted(key: Key, rpm: nat, n: nat)
    requires rpm >= 1 && n <= 2 * rpm
    ensures var o := Exec(Surge(key, rpm), true, n);
            && |o.grants| == n && (forall i :: 0 <= i < n ==> o.grants[i] == Grant(key, Surge(key, rpm)[i].now))
            && (n > 0 ==> key in o.entries && o.entries[key].windowStart == (if n <= rpm then 0 else WINDOW)
                          && o.entries[key].count == if n <= rpm then n else n - rpm)
  {
    if n > 0 { SurgeGranted(key, rpm, n - 1); }
  }

  lemma {:induction false} SurgeCount(grants: seq<Grant>, key: Key, rpm: nat, n: nat)
    requires rpm >= 1 && n <= |grants| == 2 * rpm
    requires forall i :: 0 <= i < |grants| ==> grants[i] == Grant(key, Surge(key, rpm)[i].now)
    ensures CountIn(grants, key, WINDOW - 1, 2 * WINDOW - 1, n) == if n == 0 then 0 else n - 1
  {
    if n > 0 { SurgeCount(grants, key, rpm, n - 1); }
  }

  /** For every budget some run reaches the bound. */
  lemma RollingBoundIsTight(key: Key, rpm: nat)
    requires rpm >= 1
    ensures ClockMonotone(Surge(key, rpm)) && SensibleFor(Surge(key, rpm), key, rpm)
    ensures InWindow(Exec(Surge(key, rpm), true, 2 * rpm).grants, key, WINDOW - 1) == 2 * rpm - 1
  {
    SurgeGranted(key, rpm, 2 * rpm);
    SurgeCount(Exec(Surge(key, rpm), true, 2 * rpm).grants, key, rpm, 2 * rpm);
  }

  // ---------------------------------------------------------------- when the window does roll

  /** No interval of one window length contains more granted requests of any key than the budget. */
  ghost predicate Rolls(calls: seq<Call>, rpm: int) {
    forall key, a :: InWindow(Exec(calls, true, |calls|).grants, key, a) <= rpm
  }

  lemma FirstIsGranted(key: Key, rpm: int)
    ensures Exec([Allow(0, key, rpm)], true, 1).grants == [Grant(key, 0)]
    ensures InWindow([Grant(key, 0)], key, 0) == 1
  {
    assert Exec([Allow(0, key, rpm)], true, 0).entries == map[];
    assert CountIn([Grant(key, 0)], key, 0, WINDOW, 0) == 0;
  }

  lemma SweptTwice(key: Key, ttl: int, later: nat)
    requires ttl < later < WINDOW
    ensures var grants := Exec(Burst(key, 1, ttl, 1, later), true, 3).grants;
            grants == [Grant(key, 0), Grant(key, later)] && InWindow(grants, key, 0) == 2
  {
    var calls := Burst(key, 1, ttl, 1, later);
    assert calls == [Allow(0, key, 1), Evict(later, ttl), Allow(later, key, 1)];
    assert Exec(calls, true, 1) == Outcome(map[key := Entry(0, 1, 0)], [true], [Grant(key, 0)]);
    assert Exec(calls, true, 2) == Outcome(map[], [true], [Grant(key, 0)]);
    TwoInWindow([Grant(key, 0), Grant(key, later)], key);
  }

  lemma TwoInWindow(grants: seq<Grant>, key: Key)
    requires |grants| == 2 && forall i :: 0 <= i < 2 ==> grants[i].key == key && 0 <= grants[i].at < WINDOW
    ensures InWindow(grants, key, 0) == 2
  {
    assert CountIn(grants, key, 0, WINDOW, 0) == 0;
    assert CountIn(grants, key, 0, WINDOW, 1) == 1;
  }

  /** A budget below one still admits the first request, a larger one can be nearly doubled, and with a short
      time-to-live a sweep forgets the one request a budget of one allows. */
  lemma WindowCanOverflow(key: Key, rpm: int, ttl: int) returns (calls: seq<Call>)
    requires !(rpm == 1 && ttl >= WINDOW - 1)
    ensures Uses(calls, rpm, ttl) && !Rolls(calls, rpm)
  {
    if rpm <= 0 {
      calls := [Allow(0, key, rpm)];
      FirstIsGranted(key, rpm);
      assert InWindow(Exec(calls, true, |calls|).grants, key, 0) == 1;
    } else if rpm >= 2 {
      calls := Surge(key, rpm);
      RollingBoundIsTight(key, rpm);
      assert InWindow(Exec(calls, true, |calls|).grants, key, WINDOW - 1) == 2 * rpm - 1;
    } else {
      var later := if ttl < 0 then 0 else ttl + 1;
      calls := Burst(key, 1, ttl, 1, later);
      SweptTwice(key, ttl, later);
      assert InWindow(Exec(calls, true, |calls|).grants, key, 0) == 2;
    }
  }

  lemma BudgetOfOneRolls(calls: seq<Call>, ttl: int)
    requires Uses(calls, 1, ttl) && ttl >= WINDOW - 1
    ensures Rolls(calls, 1)
  {
    forall key, a ensures InWindow(Exec(calls, true, |calls|).grants, key, a) <= 1 {
      RollingBound(calls, key, 1, a);
    }
  }

  /** Exactly when the fixed window is as good as a rolling one: for given settings no run ever grants more than the
      budget within a window length if and only if the budget is one and sweeps wait for a window. */
  lemma RollsExactlyWhen(rpm: int, ttl: int)
    ensures (forall calls :: Uses(calls, rpm, ttl) ==> Rolls(calls, rpm)) <==> rpm == 1 && ttl >= WINDOW - 1
  {
    if rpm == 1 && ttl >= WINDOW - 1 {
      forall calls | Uses(calls, rpm, ttl) ensures Rolls(calls, rpm) {
        BudgetOfOneRolls(calls, ttl);
      }
    } else {
      var calls := WindowCanOverflow(Key("", ""), rpm, ttl);
    }
  }
}
