/** The sliding-window limiter: timestamps for each bucket, and a sweep that forgets quiet buckets. */
module RateLimiter {
  import opened Prelude

  /** A bucket's window in milliseconds and how many attempts it admits in one. */
  datatype Limit = Limit(window: nat, max: nat)

  /** The families of buckets that share the store; each family has one limit. */
  datatype Key = Attempt(name: string) | LoginIp(ip: string) | LoginUser(user: string) | Task(userId: string) | Workspace(userId: string)

  datatype Config = Config(attempt: Limit, loginIp: Limit, loginUser: Limit, task: Limit, workspace: Limit)

  function LimitOf(c: Config, k: Key): Limit {
    match k
    case Attempt(_) => c.attempt
    case LoginIp(_) => c.loginIp
    case LoginUser(_) => c.loginUser
    case Task(_) => c.task
    case Workspace(_) => c.workspace
  }

  /** The longest of the windows. */
  function SweepInterval(c: Config): int { Max(c.attempt.window, Max(c.task.window, c.workspace.window)) }

  /** Every limit admits something, and the login buckets share the window of the plain ones. */
  predicate Sensible(c: Config) {
    && c.attempt.max >= 1 && c.loginIp.max >= 1 && c.loginUser.max >= 1 && c.task.max >= 1 && c.workspace.max >= 1
    && c.loginIp.window == c.loginUser.window == c.attempt.window
  }

  lemma {:induction false} LimitsAreSwept(c: Config, k: Key)
    requires Sensible(c)
    ensures LimitOf(c, k).max >= 1 && LimitOf(c, k).window <= SweepInterval(c)
  {}

  datatype Answer = Admitted | Limited(retryAfter: int)

  /** `attempts.filter((t) => now - t < windowMs)` */
  function Within(attempts: seq<int>, now: int, window: nat): seq<int> {
    if attempts == [] then [] else
    var t := attempts[|attempts| - 1];
    Within(attempts[..|attempts| - 1], now, window) + if now - t < window then [t] else []
  }

  /** What a bucket answers when nothing it ever admitted has been forgotten. */
  function Decide(log: seq<int>, now: int, limit: Limit): Answer
    requires limit.max >= 1
  {
    var attempts := Within(log, now, limit.window);
    if |attempts| >= limit.max then Limited(limit.window - (now - attempts[0])) else Admitted
  }

  function Logged(log: seq<int>, now: int, limit: Limit): seq<int>
    requires limit.max >= 1
  {
    if Decide(log, now, limit).Admitted? then log + [now] else log
  }

  ghost predicate Sorted(s: seq<int>) { forall i, j :: 0 <= i <= j < |s| ==> s[i] <= s[j] }

  /** Any `max + 1` admitted attempts take a window or more. */
  ghost predicate Spread(log: seq<int>, limit: Limit) {
    forall i, j :: 0 <= i && i + limit.max <= j < |log| ==> log[j] - log[i] >= limit.window
  }

  // ---- Filtering a sorted log drops a prefix ----

  ghost function Expired(s: seq<int>, now: int, window: nat): nat {
    if s == [] then 0
    else Expired(s[..|s| - 1], now, window) + if now - s[|s| - 1] < window then 0 else 1
  }

  lemma {:induction false} WithinDropsPrefix(s: seq<int>, now: int, window: nat)
    requires Sorted(s)
    ensures var n := Expired(s, now, window);
      n <= |s| && Within(s, now, window) == s[n..]
      && (forall i :: 0 <= i < n ==> now - s[i] >= window)
      && (forall i :: n <= i < |s| ==> now - s[i] < window)
  {
    if s != [] {
      var most := s[..|s| - 1];
      WithinDropsPrefix(most, now, window);
      assert forall i :: 0 <= i < |most| ==> most[i] == s[i];
      var n := Expired(most, now, window);
      if now - s[|s| - 1] >= window {
        assert now - s[|s| - 1] >= window && forall i :: 0 <= i < |most| ==> most[i] <= s[|s| - 1];
        assert n == |most|;
      }
    }
  }

  lemma {:induction false} WithinSplits(a: seq<int>, b: seq<int>, now: int, window: nat)
    ensures Within(a + b, now, window) == Within(a, now, window) + Within(b, now, window)
  {
    if b == [] {
      assert a + b == a;
    } else {
      assert (a + b)[..|a + b| - 1] == a + b[..|b| - 1];
      WithinSplits(a, b[..|b| - 1], now, window);
    }
  }

  lemma {:induction false} NoneWithin(s: seq<int>, now: int, window: nat)
    requires forall i :: 0 <= i < |s| ==> now - s[i] >= window
    ensures Within(s, now, window) == []
  {
    if s != [] { NoneWithin(s[..|s| - 1], now, window); }
  }

  /** What is stored of a log: all but a prefix that had expired by `last`. */
  ghost predicate Remembers(s: seq<int>, log: seq<int>, last: int, limit: Limit) {
    && Sorted(log) && Spread(log, limit) && (forall i :: 0 <= i < |log| ==> log[i] <= last)
    && |s| <= |log| && s == log[|log| - |s|..]
    && forall i :: 0 <= i < |log| - |s| ==> last - log[i] >= limit.window
  }

  lemma {:induction false} RemembersLater(s: seq<int>, log: seq<int>, last: int, limit: Limit, now: int)
    requires Remembers(s, log, last, limit) && last <= now
    ensures Remembers(s, log, now, limit)
  {}

  /** Forgetting entries that have expired is never noticed again. */
  lemma {:induction false} ForgettingIsHarmless(s: seq<int>, log: seq<int>, last: int, limit: Limit, now: int)
    requires Remembers(s, log, last, limit) && last <= now
    ensures Within(s, now, limit.window) == Within(log, now, limit.window)
  {
    var gone := log[..|log| - |s|];
    assert log == gone + s;
    assert forall i :: 0 <= i < |gone| ==> gone[i] == log[i];
    NoneWithin(gone, now, limit.window);
    WithinSplits(gone, s, now, limit.window);
  }

  lemma {:induction false} CheckRemembers(s: seq<int>, log: seq<int>, now: int, limit: Limit)
    requires limit.max >= 1 && Remembers(s, log, now, limit)
    ensures Remembers(Within(log, now, limit.window), log, now, limit)
    ensures Decide(log, now, limit).Admitted? ==> Remembers(Within(log, now, limit.window) + [now], log + [now], now, limit)
  {
    WithinDropsPrefix(log, now, limit.window);
    if Decide(log, now, limit).Admitted? { SpreadGrows(log, now, limit); }
  }

  lemma {:induction false} SweepRemembers(s: seq<int>, log: seq<int>, now: int, limit: Limit)
    requires Remembers(s, log, now, limit) && now - MostRecent(s) >= limit.window
    ensures Remembers([], log, now, limit)
  {}

  /** `attempts[attempts.length - 1] ?? 0` */
  function MostRecent(attempts: seq<int>): int { if attempts == [] then 0 else attempts[|attempts| - 1] }

  function Lookup(m: map<Key, seq<int>>, k: Key): seq<int> { if k in m then m[k] else [] }

  /** Any key: named so that a statement about every bucket is used for one at a time. */
  predicate Bucket(k: Key) { true }

  /** Every bucket's stored attempts against its log. */
  ghost predicate AllRemember(c: Config, store: map<Key, seq<int>>, logs: map<Key, seq<int>>, last: int) {
    forall k {:trigger Bucket(k)} :: Bucket(k) ==> Remembers(Lookup(store, k), Lookup(logs, k), last, LimitOf(c, k))
  }

  lemma {:induction false} AllLater(c: Config, store: map<Key, seq<int>>, logs: map<Key, seq<int>>, last: int, now: int)
    requires AllRemember(c, store, logs, last) && last <= now
    ensures AllRemember(c, store, logs, now)
  {
    forall k ensures Remembers(Lookup(store, k), Lookup(logs, k), now, LimitOf(c, k)) {
      BucketRemembers(c, store, logs, last, k);
      RemembersLater(Lookup(store, k), Lookup(logs, k), last, LimitOf(c, k), now);
    }
  }

  lemma {:induction false} BucketRemembers(c: Config, store: map<Key, seq<int>>, logs: map<Key, seq<int>>, last: int, k: Key)
    requires AllRemember(c, store, logs, last)
    ensures Remembers(Lookup(store, k), Lookup(logs, k), last, LimitOf(c, k))
  {
    assert Bucket(k);
  }

  ghost predicate SameBut(m: map<Key, seq<int>>, n: map<Key, seq<int>>, key: Key) {
    forall k :: k != key ==> Lookup(n, k) == Lookup(m, k)
  }

  lemma {:induction false} OneChanges(c: Config, store: map<Key, seq<int>>, logs: map<Key, seq<int>>, last: int,
                   key: Key, store': map<Key, seq<int>>, logs': map<Key, seq<int>>)
    requires AllRemember(c, store, logs, last)
    requires SameBut(store, store', key) && SameBut(logs, logs', key)
    requires Remembers(Lookup(store', key), Lookup(logs', key), last, LimitOf(c, key))
    ensures AllRemember(c, store', logs', last)
  {
    forall k ensures Remembers(Lookup(store', k), Lookup(logs', k), last, LimitOf(c, k)) {
      if k != key { BucketRemembers(c, store, logs, last, k); }
    }
  }

  /** One check of one bucket. */
  lemma {:induction false} CheckBucket(s: seq<int>, log: seq<int>, last: int, limit: Limit, now: int, s': seq<int>, log': seq<int>)
    requires Remembers(s, log, last, limit) && last <= now && limit.max >= 1
    requires log' == Logged(log, now, limit)
    requires s' == Within(s, now, limit.window) + if Decide(log, now, limit).Admitted? then [now] else []
    ensures Within(s, now, limit.window) == Within(log, now, limit.window)
    ensures Remembers(s', log', now, limit)
  {
    ForgettingIsHarmless(s, log, last, limit, now);
    RemembersLater(s, log, last, limit, now);
    CheckRemembers(s, log, now, limit);
    assert s' == if Decide(log, now, limit).Admitted? then Within(log, now, limit.window) + [now] else Within(log, now, limit.window);
  }

  lemma {:induction false} CheckKeepsAll(c: Config, store: map<Key, seq<int>>, logs: map<Key, seq<int>>, last: int,
                      key: Key, now: int, limit: Limit, log: seq<int>, s: seq<int>,
                      store': map<Key, seq<int>>, logs': map<Key, seq<int>>)
    requires AllRemember(c, store, logs, last) && last <= now
    requires limit == LimitOf(c, key) && limit.max >= 1 && log == Lookup(logs, key) && s == Lookup(store, key)
    requires SameBut(store, store', key) && SameBut(logs, logs', key)
    requires Lookup(logs', key) == Logged(log, now, limit)
    requires Lookup(store', key) == Within(s, now, limit.window) + if Decide(log, now, limit).Admitted? then [now] else []
    ensures AllRemember(c, store', logs', now)
  {
    BucketRemembers(c, store, logs, last, key);
    CheckBucket(s, log, last, limit, now, Lookup(store', key), Lookup(logs', key));
    AllLater(c, store, logs, last, now);
    OneChanges(c, store, logs, now, key, store', logs');
  }

  lemma {:induction false} UpdateSameBut(m: map<Key, seq<int>>, key: Key, v: seq<int>)
    ensures SameBut(m, m[key := v], key) && Lookup(m[key := v], key) == v
  {}

  /** What one check leaves stored for its bucket. */
  function StoredAfter(s: seq<int>, now: int, limit: Limit): seq<int> {
    var attempts := Within(s, now, limit.window);
    if |attempts| >= limit.max then attempts else attempts + [now]
  }

  lemma {:induction false} CheckKeepsValid(c: Config, store: map<Key, seq<int>>, logs: map<Key, seq<int>>, last: int,
                        key: Key, now: int, limit: Limit)
    requires AllRemember(c, store, logs, last) && last <= now && limit == LimitOf(c, key) && limit.max >= 1
    ensures Within(Lookup(store, key), now, limit.window) == Within(Lookup(logs, key), now, limit.window)
    ensures AllRemember(c, store[key := StoredAfter(Lookup(store, key), now, limit)],
                        logs[key := Logged(Lookup(logs, key), now, limit)], now)
  {
    var s, log := Lookup(store, key), Lookup(logs, key);
    SameAnswer(c, store, logs, last, key, now);
    UpdateSameBut(store, key, StoredAfter(s, now, limit));
    UpdateSameBut(logs, key, Logged(log, now, limit));
    assert Within(s, now, limit.window) + [] == Within(s, now, limit.window);
    CheckKeepsAll(c, store, logs, last, key, now, limit, log, s,
                  store[key := StoredAfter(s, now, limit)], logs[key := Logged(log, now, limit)]);
  }

  lemma {:induction false} SameAnswer(c: Config, store: map<Key, seq<int>>, logs: map<Key, seq<int>>, last: int, key: Key, now: int)
    requires AllRemember(c, store, logs, last) && last <= now
    ensures Within(Lookup(store, key), now, LimitOf(c, key).window) == Within(Lookup(logs, key), now, LimitOf(c, key).window)
  {
    BucketRemembers(c, store, logs, last, key);
    ForgettingIsHarmless(Lookup(store, key), Lookup(logs, key), last, LimitOf(c, key), now);
  }

  lemma {:induction false} SweepKeepsValid(c: Config, store: map<Key, seq<int>>, logs: map<Key, seq<int>>, now: int, key: Key)
    requires Sensible(c) && AllRemember(c, store, logs, now)
    requires key in store && now - MostRecent(store[key]) >= SweepInterval(c)
    ensures AllRemember(c, store - {key}, logs, now)
  {
    LimitsAreSwept(c, key);
    BucketRemembers(c, store, logs, now, key);
    SweepRemembers(store[key], Lookup(logs, key), now, LimitOf(c, key));
    OneChanges(c, store, logs, now, key, store - {key}, logs);
  }

  class Limiter {
    const config: Config
    var store: map<Key, seq<int>>
    /** The latest time seen, and every attempt ever admitted to each bucket. */
    ghost var last: int
    ghost var logs: map<Key, seq<int>>

    constructor (config: Config)
      requires Sensible(config)
      ensures Valid() && this.config == config && logs == map[]
    {
      this.config := config;
      store, logs, last := map[], map[], 0;
    }

    ghost predicate Valid()
      reads this
    {
      Sensible(config) && AllRemember(config, store, logs, last)
    }

    /** `checkRateLimitWithConfig` */
    method Check(key: Key, now: int) returns (r: Answer)
      requires Valid() && last <= now
      modifies this
      ensures Valid() && last == now
      ensures r == Decide(Lookup(old(logs), key), now, LimitOf(config, key))
      ensures logs == old(logs)[key := Logged(Lookup(old(logs), key), now, LimitOf(config, key))]
    {
      var limit := LimitOf(config, key);
      LimitsAreSwept(config, key);
      CheckKeepsValid(config, store, logs, last, key, now, limit);
      var attempts := Within(Lookup(store, key), now, limit.window);
      if |attempts| >= limit.max {
        r := Limited(limit.window - (now - attempts[0]));
        store := store[key := attempts];
      } else {
        r := Admitted;
        store := store[key := attempts + [now]];
      }
      assert store == old(store)[key := StoredAfter(Lookup(old(store), key), now, limit)];
      logs := logs[key := Logged(Lookup(logs, key), now, limit)];
      last := now;
    }

    /** Forgets the buckets that have been quiet for the longest window. The logs stay as they are, and it is
        the logs alone that decide later answers. */
    method Sweep(now: int)
      requires Valid() && last <= now
      modifies this
      ensures Valid() && last == now && logs == old(logs)
    {
      AllLater(config, store, logs, last, now);
      last := now;
      var keys := store.Keys;
      while keys != {}
        invariant Valid() && last == now && logs == old(logs)
        invariant keys <= store.Keys
        decreases |keys|
      {
        var key :| key in keys;
        keys := keys - {key};
        if now - MostRecent(store[key]) >= SweepInterval(config) {
          SweepKeepsValid(config, store, logs, now, key);
          store := store - {key};
        }
      }
    }
  }

  // ---- What a log looks like ----

  lemma {:induction false} SpreadGrows(log: seq<int>, now: int, limit: Limit)
    requires limit.max >= 1 && Sorted(log) && Spread(log, limit) && Decide(log, now, limit).Admitted?
    ensures Spread(log + [now], limit)
  {
    WithinDropsPrefix(log, now, limit.window);
  }

  ghost function CountIn(log: seq<int>, from: int, to: int): nat {
    if log == [] then 0
    else CountIn(log[..|log| - 1], from, to) + if from <= log[|log| - 1] < to then 1 else 0
  }

  ghost function Below(log: seq<int>, x: int): nat {
    if log == [] then 0 else Below(log[..|log| - 1], x) + if log[|log| - 1] < x then 1 else 0
  }

  lemma {:induction false} AllBelow(log: seq<int>, x: int)
    requires forall i :: 0 <= i < |log| ==> log[i] < x
    ensures Below(log, x) == |log|
  {
    if log != [] { AllBelow(log[..|log| - 1], x); }
  }

  lemma {:induction false} BelowSplits(log: seq<int>, x: int)
    requires Sorted(log)
    ensures Below(log, x) <= |log|
    ensures forall i :: 0 <= i < |log| ==> (log[i] < x <==> i < Below(log, x))
  {
    if log != [] {
      var most := log[..|log| - 1];
      assert forall i :: 0 <= i < |most| ==> most[i] == log[i];
      BelowSplits(most, x);
      if log[|log| - 1] < x {
        AllBelow(most, x);
      }
    }
  }

  lemma {:induction false} CountIsDifference(log: seq<int>, from: int, to: int)
    requires from <= to
    ensures CountIn(log, from, to) == Below(log, to) - Below(log, from)
  {
    if log != [] { CountIsDifference(log[..|log| - 1], from, to); }
  }

  /** Every interval as long as the window admits at most `max` attempts. */
  lemma {:induction false} WindowCap(log: seq<int>, limit: Limit, from: int)
    requires Sorted(log) && Spread(log, limit)
    ensures CountIn(log, from, from + limit.window) <= limit.max
  {
    var to := from + limit.window;
    CountIsDifference(log, from, to);
    BelowSplits(log, from);
    BelowSplits(log, to);
    if Below(log, to) > Below(log, from) {
      var i, j := Below(log, from), Below(log, to) - 1;
      assert log[i] >= from && log[j] < to;
    }
  }

  /** A refused attempt is told exactly how long to wait: more than nothing, at most a window; any sooner it is
      refused again, and then it is admitted, if the bucket admits nothing else meanwhile. */
  lemma {:induction false} RetryAfterIsTight(log: seq<int>, now: int, limit: Limit)
    requires limit.max >= 1 && Sorted(log) && Spread(log, limit) && (forall i :: 0 <= i < |log| ==> log[i] <= now)
    requires Decide(log, now, limit).Limited?
    ensures var wait := Decide(log, now, limit).retryAfter;
      && 0 < wait <= limit.window
      && (forall t :: now <= t < now + wait ==> Decide(log, t, limit).Limited?)
      && Decide(log, now + wait, limit).Admitted?
  {
    WithinDropsPrefix(log, now, limit.window);
    var n := Expired(log, now, limit.window);
    var wait := Decide(log, now, limit).retryAfter;
    assert wait == limit.window - (now - log[n]);
    assert log[|log| - 1] <= now;
    assert |log| - n == limit.max;
    forall t | now <= t < now + wait ensures Decide(log, t, limit).Limited? {
      WithinDropsPrefix(log, t, limit.window);
      assert t - log[n] < limit.window;
    }
    WithinDropsPrefix(log, now + wait, limit.window);
    assert now + wait - log[n] == limit.window;
  }

  /** So it is for every bucket of a limiter in use, whenever it was swept. */
  lemma {:induction false} EveryBucketCapped(l: Limiter, key: Key, from: int)
    requires l.Valid()
    ensures var limit := LimitOf(l.config, key); CountIn(Lookup(l.logs, key), from, from + limit.window) <= limit.max
  {
    BucketRemembers(l.config, l.store, l.logs, l.last, key);
    WindowCap(Lookup(l.logs, key), LimitOf(l.config, key), from);
  }
}
