/** The in-process cache: least-recently-used eviction over a Map's insertion order, with a time to live. */
module MemoryCache {
  import opened Prelude
  import opened InsertionMap

  datatype Entry = Entry(v: string, exp: int)

  type Store = Assoc<string, Entry>

  /** One call on the cache. */
  datatype Op =
    | Get(key: string)
    | Set(key: string, value: string, ttlSeconds: int)
    | Clear(prefix: string)

  /** A call and the clock reading it sees. */
  datatype Event = Event(op: Op, now: int)

  function KeysWith(s: Store, prefix: string): set<string> {
    set k | k in Keys(s) && prefix <= k
  }

  /** The newest `cap` pairs. */
  function Newest(s: Store, cap: nat): Store {
    if |s| <= cap then s else s[|s| - cap..]
  }

  /** What one call does to the stored pairs. */
  function Next(s: Store, cap: nat, e: Event): Store {
    match e.op
    case Get(key) =>
      (match Find(s, key)
       case None => s
       case Some(x) => if x.exp <= e.now then Delete(s, key) else Delete(s, key) + [Pair(key, x)])
    case Set(key, value, ttl) =>
      Newest(Delete(s, key) + [Pair(key, Entry(value, e.now + ttl * 1000))], cap)
    case Clear(prefix) => Restrict(s, Keys(s) - KeysWith(s, prefix))
  }

  /** What a `get` answers; the other calls answer nothing. */
  function Answer(s: Store, e: Event): Option<string> {
    match e.op
    case Get(key) =>
      (match Find(s, key)
       case None => None
       case Some(x) => if x.exp <= e.now then None else Some(x.v))
    case _ => None
  }

  function Run(s: Store, cap: nat, trace: seq<Event>): Store
    decreases trace
  {
    if trace == [] then s else Run(Next(s, cap, trace[0]), cap, trace[1..])
  }

  function Answers(s: Store, cap: nat, trace: seq<Event>): seq<Option<string>>
    decreases trace
  {
    if trace == [] then [] else [Answer(s, trace[0])] + Answers(Next(s, cap, trace[0]), cap, trace[1..])
  }

  /** Wherever the first list has a value, the second has the same one. */
  ghost predicate HitsAgree(xs: seq<Option<string>>, ys: seq<Option<string>>) {
    |xs| == |ys| && forall i :: 0 <= i < |xs| && xs[i].Some? ==> ys[i] == xs[i]
  }

  class MemoryBackend {
    var m: Store
    const maxEntries: nat

    ghost predicate Valid() reads this {
      Unique(m) && |m| <= maxEntries
    }

    constructor (maxEntries: nat)
      ensures Valid() && m == [] && this.maxEntries == maxEntries
    {
      this.maxEntries := maxEntries;
      m := [];
    }

    method GetValue(key: string, now: int) returns (r: Option<string>)
      requires Valid()
      modifies this`m
      ensures Valid()
      ensures m == Next(old(m), maxEntries, Event(Get(key), now))
      ensures r == Answer(old(m), Event(Get(key), now))
    {
      StepKeepsShape(m, maxEntries, Event(Get(key), now));
      var e := Find(m, key);
      if e.None? { return None; }
      if e.value.exp <= now {
        m := Delete(m, key);
        return None;
      }
      MoveToEnd(m, key, e.value);
      m := Delete(m, key);
      m := Put(m, key, e.value);
      return Some(e.value.v);
    }

    method SetValue(key: string, value: string, ttlSeconds: int, now: int) returns (stored: bool)
      requires Valid()
      modifies this`m
      ensures Valid() && stored
      ensures m == Next(old(m), maxEntries, Event(Set(key, value, ttlSeconds), now))
    {
      ghost var e := Event(Set(key, value, ttlSeconds), now);
      StepKeepsShape(m, maxEntries, e);
      MoveToEnd(m, key, Entry(value, now + ttlSeconds * 1000));
      m := Delete(m, key);
      m := Put(m, key, Entry(value, now + ttlSeconds * 1000));
      EvictOldest();
      return true;
    }

    /** The loop at the end of `set`: the first key in insertion order is the least recently used one. */
    method EvictOldest()
      requires Unique(m)
      modifies this`m
      ensures m == Newest(old(m), maxEntries)
    {
      ghost var full := m;
      while |m| > maxEntries
        invariant Unique(m) && Newest(m, maxEntries) == Newest(full, maxEntries)
      {
        OldestOut(m, m[0].key);
        m := Delete(m, m[0].key);
      }
    }

    method ClearPrefix(prefix: string) returns (n: nat)
      requires Valid()
      modifies this`m
      ensures Valid()
      ensures m == Next(old(m), maxEntries, Event(Clear(prefix), 0))
      ensures n == |old(m)| - |m|
    {
      StepKeepsShape(m, maxEntries, Event(Clear(prefix), 0));
      var keys := m;
      n := 0;
      RestrictAll(m, Keys(keys));
      UnderEnds(keys, prefix);
      for i := 0 to |keys|
        invariant Unique(m) && m == Restrict(keys, Keys(keys) - Under(keys, prefix, i))
        invariant n == |keys| - |m|
      {
        var k := keys[i].key;
        UnderMore(keys, prefix, i);
        if prefix <= k {
          DropOne(keys, Under(keys, prefix, i), m, k);
          m := Delete(m, k);
          n := n + 1;
        }
      }
    }
  }

  /** The keys with the prefix among the first `n`. */
  ghost function Under(keys: Store, prefix: string, n: nat): set<string>
    requires n <= |keys|
  {
    set j | 0 <= j < n && prefix <= keys[j].key :: keys[j].key
  }

  lemma {:induction false} UnderMore(keys: Store, prefix: string, n: nat)
    requires Unique(keys) && n < |keys|
    ensures keys[n].key !in Under(keys, prefix, n) && keys[n].key in Keys(keys)
    ensures Under(keys, prefix, n + 1)
      == if prefix <= keys[n].key then Under(keys, prefix, n) + {keys[n].key} else Under(keys, prefix, n)
  {}

  lemma {:induction false} UnderEnds(keys: Store, prefix: string)
    ensures Under(keys, prefix, 0) == {} && Under(keys, prefix, |keys|) == KeysWith(keys, prefix)
    ensures Keys(keys) - Under(keys, prefix, 0) == Keys(keys)
  {}

  /** One more key under the prefix is deleted. */
  lemma {:induction false} DropOne(keys: Store, drop: set<string>, m: Store, k: string)
    requires Unique(keys) && m == Restrict(keys, Keys(keys) - drop) && k in Keys(keys) && k !in drop
    ensures Unique(Delete(m, k)) && |Delete(m, k)| == |m| - 1
    ensures Delete(m, k) == Restrict(keys, Keys(keys) - (drop + {k}))
  {
    RestrictMembers(keys, Keys(keys) - drop);
    DeleteSize(m, k);
    RestrictTwice(keys, Keys(keys) - drop, Keys(m) - {k});
    assert Keys(m) == Keys(keys) - drop;
    assert (Keys(keys) - drop) * (Keys(m) - {k}) == Keys(keys) - (drop + {k});
    RestrictMembers(m, Keys(m) - {k});
  }

  lemma {:induction false} OldestOut(m: Store, k: string)
    requires Unique(m) && m != [] && m[0].key == k
    ensures Delete(m, k) == m[1..]
  {
    assert m == [m[0]] + m[1..];
    KeysSplit([m[0]], m[1..]);
    RestrictAll(m[1..], Keys(m) - {k});
  }

  lemma {:induction false} StepKeepsShape(s: Store, cap: nat, e: Event)
    requires Unique(s) && |s| <= cap
    ensures Unique(Next(s, cap, e)) && |Next(s, cap, e)| <= cap
  {
    match e.op
    case Get(key) =>
      RestrictMembers(s, Keys(s) - {key});
      FindMeaning(s, key);
      if Find(s, key).Some? {
        MoveToEnd(s, key, Find(s, key).value);
        DeleteSize(s, key);
      }
    case Set(key, value, ttl) =>
      MoveToEnd(s, key, Entry(value, e.now + ttl * 1000));
    case Clear(prefix) =>
      RestrictMembers(s, Keys(s) - KeysWith(s, prefix));
  }

  /** Never more than `cap` pairs, never two for one key, whatever is called and when. */
  lemma {:induction false} SizeNeverExceedsCap(s: Store, cap: nat, trace: seq<Event>)
    requires Unique(s) && |s| <= cap
    ensures Unique(Run(s, cap, trace)) && |Run(s, cap, trace)| <= cap
    decreases trace
  {
    if trace != [] {
      StepKeepsShape(s, cap, trace[0]);
      SizeNeverExceedsCap(Next(s, cap, trace[0]), cap, trace[1..]);
    }
  }

  // ---- A larger cache contains a smaller one ----

  /** `small` is `large` with some keys left out, nothing reordered, no value changed, and no more keys
      missing than the difference of the two caps. */
  ghost predicate Included(small: Store, n: nat, large: Store, N: nat) {
    && Unique(large) && |large| <= N
    && small == Restrict(large, Keys(small))
    && |small| <= n
    && |large| - |small| <= N - n
  }

  lemma {:induction false} IncludedKeys(small: Store, large: Store)
    requires Unique(large) && small == Restrict(large, Keys(small))
    ensures Unique(small) && Keys(small) <= Keys(large)
  {
    RestrictMembers(large, Keys(small));
  }

  /** Dropping the same keys on both sides. */
  lemma {:induction false} BothRestrict(small: Store, large: Store, keep: set<string>)
    requires Unique(large) && small == Restrict(large, Keys(small))
    ensures var s, l := Restrict(small, keep), Restrict(large, keep);
      Unique(l) && s == Restrict(l, Keys(s)) && |s| <= |small| && |l| <= |large|
  {
    IncludedKeys(small, large);
    RestrictMembers(small, keep);
    RestrictMembers(large, keep);
    RestrictTwice(large, Keys(small), keep);
    RestrictTwice(large, keep, Keys(small) * keep);
    assert Keys(small) * keep == keep * (Keys(small) * keep);
  }

  /** What is missing from the small side never grows under a common restriction. */
  lemma {:induction false} MissingShrinks(large: Store, have: set<string>, keep: set<string>)
    ensures |Restrict(large, keep)| - |Restrict(Restrict(large, keep), have)| <= |large| - |Restrict(large, have)|
  {
    if large != [] {
      MissingShrinks(large[1..], have, keep);
    }
  }

  lemma {:induction false} DeletePair(small: Store, n: nat, large: Store, N: nat, keep: set<string>)
    requires Included(small, n, large, N)
    ensures Included(Restrict(small, keep), n, Restrict(large, keep), N)
  {
    IncludedKeys(small, large);
    BothRestrict(small, large, keep);
    MissingShrinks(large, Keys(small), keep);
    RestrictTwice(large, Keys(small), keep);
    RestrictTwice(large, keep, Keys(small));
    assert Keys(small) * keep == keep * Keys(small);
  }

  lemma {:induction false} SameDelete(small: Store, large: Store, k: string)
    requires Unique(large) && small == Restrict(large, Keys(small))
    ensures Restrict(small, Keys(large) - {k}) == Delete(small, k)
  {
    IncludedKeys(small, large);
    RestrictAgrees(small, Keys(large) - {k}, Keys(small) - {k});
  }

  /** Appending the same new pair on both sides. */
  lemma {:induction false} BothAppend(small: Store, large: Store, p: Pair<string, Entry>)
    requires Unique(large) && small == Restrict(large, Keys(small)) && p.key !in Keys(large)
    ensures Unique(large + [p]) && small + [p] == Restrict(large + [p], Keys(small + [p]))
  {
    IncludedKeys(small, large);
    KeysSplit(small, [p]);
    RestrictAppend(large, [p], Keys(small + [p]));
    RestrictAgrees(large, Keys(small + [p]), Keys(small));
    assert [p][0].key in Keys([p]);
    assert forall i :: 0 <= i < |large| ==> large[i].key in Keys(large);
  }

  /** A `get`, `set` or prefix clear at any time keeps the inclusion, and a hit in the small cache is the
      same hit in the large one. */
  lemma {:induction false} InclusionStep(small: Store, n: nat, large: Store, N: nat, e: Event)
    requires n <= N && Included(small, n, large, N)
    ensures Included(Next(small, n, e), n, Next(large, N, e), N)
    ensures Answer(small, e).Some? ==> Answer(large, e) == Answer(small, e)
  {
    match e.op
    case Get(_) => InclusionGet(small, n, large, N, e);
    case Set(_, _, _) => InclusionSet(small, n, large, N, e);
    case Clear(_) => InclusionClear(small, n, large, N, e);
  }

  lemma {:induction false} InclusionClear(small: Store, n: nat, large: Store, N: nat, e: Event)
    requires e.op.Clear? && Included(small, n, large, N)
    ensures Included(Next(small, n, e), n, Next(large, N, e), N) && Answer(small, e).None?
  {
    var prefix := e.op.prefix;
    IncludedKeys(small, large);
    var keep := Keys(large) - KeysWith(large, prefix);
    DeletePair(small, n, large, N, keep);
    assert Keys(small) * keep == Keys(small) * (Keys(small) - KeysWith(small, prefix));
    RestrictAgrees(small, keep, Keys(small) - KeysWith(small, prefix));
  }

  lemma {:induction false} InclusionGet(small: Store, n: nat, large: Store, N: nat, e: Event)
    requires n <= N && Included(small, n, large, N) && e.op.Get?
    ensures Included(Next(small, n, e), n, Next(large, N, e), N)
    ensures Answer(small, e).Some? ==> Answer(large, e) == Answer(small, e)
  {
    var key := e.op.key;
    IncludedKeys(small, large);
    FindMeaning(small, key);
    FindMeaning(large, key);
    DeletePair(small, n, large, N, Keys(large) - {key});
    SameDelete(small, large, key);
    if key in Keys(small) {
      FindRestrict(large, Keys(small), key);
      var x := Find(large, key).value;
      RestrictMembers(large, Keys(large) - {key});
      BothAppend(Delete(small, key), Delete(large, key), Pair(key, x));
      DeleteSize(small, key);
      DeleteSize(large, key);
    } else if key in Keys(large) {
      RestrictAll(small, Keys(small) - {key});
      assert Keys(small) - {key} == Keys(small);
      DeleteSize(large, key);
      MoveToEnd(large, key, Find(large, key).value);
      var d := Delete(large, key);
      var p := Pair(key, Find(large, key).value);
      RestrictAppend(d, [p], Keys(small));
      RestrictMembers(large, Keys(large) - {key});
      assert Restrict([p], Keys(small)) == [];
    }
  }

  lemma {:induction false} InclusionSet(small: Store, n: nat, large: Store, N: nat, e: Event)
    requires n <= N && Included(small, n, large, N) && e.op.Set?
    ensures Included(Next(small, n, e), n, Next(large, N, e), N) && Answer(small, e).None?
  {
    var p := Pair(e.op.key, Entry(e.op.value, e.now + e.op.ttlSeconds * 1000));
    var s, l := Delete(small, p.key) + [p], Delete(large, p.key) + [p];
    SetIncluded(small, n, large, N, p, s, l);
    EvictIncluded(n, N, s, l);
  }

  /** Before eviction. */
  lemma {:induction false} SetIncluded(small: Store, n: nat, large: Store, N: nat, p: Pair<string, Entry>, s: Store, l: Store)
    requires n <= N && Included(small, n, large, N) && s == Delete(small, p.key) + [p] && l == Delete(large, p.key) + [p]
    ensures Unique(l) && s == Restrict(l, Keys(s)) && |l| <= N + 1 && |s| <= n + 1 && |l| - |s| <= N - n
  {
    IncludedKeys(small, large);
    DeletePair(small, n, large, N, Keys(large) - {p.key});
    SameDelete(small, large, p.key);
    RestrictMembers(large, Keys(large) - {p.key});
    BothAppend(Delete(small, p.key), Delete(large, p.key), p);
    DeleteSize(small, p.key);
    DeleteSize(large, p.key);
  }

  lemma {:induction false} EvictIncluded(n: nat, N: nat, s: Store, l: Store)
    requires n <= N && Unique(l) && s == Restrict(l, Keys(s)) && |l| <= N + 1 && |s| <= n + 1 && |l| - |s| <= N - n
    requires s != [] && l != []
    ensures Included(Newest(s, n), n, Newest(l, N), N)
  {
    IncludedKeys(s, l);
    if |l| > N {
      DropOldest(s, l);
      assert |s| > n;
    } else if |s| > n {
      DropSmall(s, l);
    }
  }

  lemma {:induction false} DropOldest(s: Store, l: Store)
    requires Unique(l) && s == Restrict(l, Keys(s)) && s != [] && l != []
    ensures s[1..] == Restrict(l[1..], Keys(s[1..])) && Unique(l[1..])
  {
    IncludedKeys(s, l);
    DropSmall(s, l);
    assert l == [l[0]] + l[1..];
    assert l[0].key !in Keys(s[1..]) by {
      assert s == [s[0]] + s[1..];
      if l[0].key in Keys(s) {
        assert s[0] == l[0];
      } else {
        KeysSplit([s[0]], s[1..]);
      }
    }
  }

  /** Only the small one full. */
  lemma {:induction false} DropSmall(s: Store, l: Store)
    requires Unique(l) && s == Restrict(l, Keys(s)) && s != []
    ensures s[1..] == Restrict(l, Keys(s[1..]))
  {
    IncludedKeys(s, l);
    assert s == [s[0]] + s[1..];
    KeysSplit([s[0]], s[1..]);
    assert Keys([s[0]]) == {s[0].key};
    assert s[0].key !in Keys(s[1..]);
    assert Keys(s) * Keys(s[1..]) == Keys(s[1..]);
    RestrictTwice(l, Keys(s), Keys(s[1..]));
    RestrictAll(s[1..], Keys(s[1..]));
  }

  /** LRU inclusion: the same trace on two caches, whatever expires, is cleared or is read only in one. */
  lemma {:induction false} LruInclusion(small: Store, n: nat, large: Store, N: nat, trace: seq<Event>)
    requires n <= N && Included(small, n, large, N)
    ensures Included(Run(small, n, trace), n, Run(large, N, trace), N)
    ensures |Answers(small, n, trace)| == |trace|
    ensures HitsAgree(Answers(small, n, trace), Answers(large, N, trace))
    decreases trace
  {
    if trace != [] {
      InclusionStep(small, n, large, N, trace[0]);
      LruInclusion(Next(small, n, trace[0]), n, Next(large, N, trace[0]), N, trace[1..]);
    }
  }

  /** From empty caches no hypothesis is left. */
  lemma {:induction false} LruInclusionFromEmpty(n: nat, N: nat, trace: seq<Event>)
    requires n <= N
    ensures Included(Run([], n, trace), n, Run([], N, trace), N)
    ensures |Answers([], n, trace)| == |trace|
    ensures HitsAgree(Answers([], n, trace), Answers([], N, trace))
  {
    LruInclusion([], n, [], N, trace);
  }

  // ---- The unbounded map it stands for ----

  /** An unbounded map with a time to live: nothing is evicted, and expiry only hides entries. */
  function RefNext(r: map<string, Entry>, e: Event): map<string, Entry> {
    match e.op
    case Get(_) => r
    case Set(key, value, ttl) => r[key := Entry(value, e.now + ttl * 1000)]
    case Clear(prefix) => map k | k in r && !(prefix <= k) :: r[k]
  }

  function RefAnswer(r: map<string, Entry>, e: Event): Option<string> {
    if e.op.Get? && e.op.key in r && r[e.op.key].exp > e.now then Some(r[e.op.key].v) else None
  }

  function RefAnswers(r: map<string, Entry>, trace: seq<Event>): seq<Option<string>>
    decreases trace
  {
    if trace == [] then [] else [RefAnswer(r, trace[0])] + RefAnswers(RefNext(r, trace[0]), trace[1..])
  }

  ghost predicate HoldsOnly(s: Store, r: map<string, Entry>) {
    Unique(s) && forall i :: 0 <= i < |s| ==> Held(r, s[i])
  }

  lemma {:induction false} RestrictHoldsOnly(s: Store, keep: set<string>)
    ensures forall i :: 0 <= i < |Restrict(s, keep)| ==> Restrict(s, keep)[i].key in keep && Restrict(s, keep)[i] in s
  {
    if s != [] {
      RestrictHoldsOnly(s[1..], keep);
    }
  }

  lemma {:induction false} GetHoldsOnly(s: Store, cap: nat, r: map<string, Entry>, key: string, now: int)
    requires |s| <= cap && HoldsOnly(s, r)
    ensures var e := Event(Get(key), now);
      HoldsOnly(Next(s, cap, e), r) && (Answer(s, e).Some? ==> RefAnswer(r, e) == Answer(s, e))
  {
    StepKeepsShape(s, cap, Event(Get(key), now));
    FindMeaning(s, key);
    RestrictHoldsOnly(s, Keys(s) - {key});
  }

  predicate Held(r: map<string, Entry>, p: Pair<string, Entry>) { p.key in r && r[p.key] == p.value }

  lemma {:induction false} SetHoldsOnly(s: Store, cap: nat, r: map<string, Entry>, key: string, x: Entry, next: Store)
    requires HoldsOnly(s, r) && Unique(next) && next == Newest(Delete(s, key) + [Pair(key, x)], cap)
    ensures HoldsOnly(next, r[key := x])
  {
    RestrictHoldsOnly(s, Keys(s) - {key});
    var kept := Delete(s, key);
    var all := kept + [Pair(key, x)];
    forall i | 0 <= i < |next| ensures Held(r[key := x], next[i]) {
      var k := i + |all| - |next|;
      assert next[i] == all[k];
      if k < |kept| { assert kept[k] in s && Held(r, kept[k]); }
    }
    assert forall i :: 0 <= i < |next| ==> Held(r[key := x], next[i]);
  }

  lemma {:induction false} ClearHoldsOnly(s: Store, r: map<string, Entry>, prefix: string, next: Store)
    requires HoldsOnly(s, r) && Unique(next) && next == Restrict(s, Keys(s) - KeysWith(s, prefix))
    ensures HoldsOnly(next, map k | k in r && !(prefix <= k) :: r[k])
  {
    RestrictHoldsOnly(s, Keys(s) - KeysWith(s, prefix));
  }

  lemma {:induction false} StepHoldsOnly(s: Store, cap: nat, r: map<string, Entry>, e: Event)
    requires |s| <= cap && HoldsOnly(s, r)
    ensures HoldsOnly(Next(s, cap, e), RefNext(r, e))
    ensures Answer(s, e).Some? ==> RefAnswer(r, e) == Answer(s, e)
  {
    StepKeepsShape(s, cap, e);
    match e.op
    case Get(key) => GetHoldsOnly(s, cap, r, key, e.now);
    case Set(key, value, ttl) => SetHoldsOnly(s, cap, r, key, Entry(value, e.now + ttl * 1000), Next(s, cap, e));
    case Clear(prefix) => ClearHoldsOnly(s, r, prefix, Next(s, cap, e));
  }

  /** Whatever the cache returns is the last value set for that key, not cleared and not expired. */
  lemma {:induction false} HitsAreFresh(s: Store, cap: nat, r: map<string, Entry>, trace: seq<Event>)
    requires |s| <= cap && HoldsOnly(s, r)
    ensures |Answers(s, cap, trace)| == |trace|
    ensures HitsAgree(Answers(s, cap, trace), RefAnswers(r, trace))
    decreases trace
  {
    if trace != [] {
      var e := trace[0];
      StepKeepsShape(s, cap, e);
      StepHoldsOnly(s, cap, r, e);
      HitsAreFresh(Next(s, cap, e), cap, RefNext(r, e), trace[1..]);
    }
  }

  // ---- What is kept ----

  function TouchedBy(e: Event, k: string): set<string> {
    if e.op.Clear? then {} else {e.op.key} - {k}
  }

  /** The keys other than `k` that a trace reads or sets. */
  function Touched(trace: seq<Event>, k: string): set<string> {
    if trace == [] then {} else TouchedBy(trace[0], k) + Touched(trace[1..], k)
  }

  /** Nothing in the trace sets `k`, clears it, or runs at or after its expiry. */
  ghost predicate LeavesAlone(trace: seq<Event>, k: string, exp: int) {
    forall i :: 0 <= i < |trace| ==>
      && trace[i].now < exp
      && (trace[i].op.Set? ==> trace[i].op.key != k)
      && (trace[i].op.Clear? ==> !(trace[i].op.prefix <= k))
  }

  /** `k` is stored with `x`, and every newer key is in `seen`. */
  ghost predicate Behind(s: Store, k: string, x: Entry, seen: set<string>) {
    exists p :: 0 <= p < |s| && s[p] == Pair(k, x) && Keys(s[p + 1..]) <= seen
  }

  lemma {:induction false} BehindSplit(s: Store, k: string, x: Entry, seen: set<string>) returns (a: Store, b: Store)
    requires Behind(s, k, x, seen)
    ensures s == a + [Pair(k, x)] + b && Keys(b) <= seen
  {
    var p :| 0 <= p < |s| && s[p] == Pair(k, x) && Keys(s[p + 1..]) <= seen;
    a, b := s[..p], s[p + 1..];
  }

  lemma {:induction false} BehindJoin(s: Store, k: string, x: Entry, seen: set<string>, a: Store, b: Store)
    requires s == a + [Pair(k, x)] + b && Keys(b) <= seen
    ensures Behind(s, k, x, seen)
  {
    assert s[|a| + 1..] == b;
    assert s[|a|] == Pair(k, x);
  }

  lemma {:induction false} BehindRestrict(s: Store, k: string, x: Entry, seen: set<string>, keep: set<string>)
    requires Unique(s) && Behind(s, k, x, seen) && k in keep
    ensures Behind(Restrict(s, keep), k, x, seen)
  {
    var a, b := BehindSplit(s, k, x, seen);
    RestrictAppend(a + [Pair(k, x)], b, keep);
    RestrictAppend(a, [Pair(k, x)], keep);
    assert Unique(b) by {
      assert forall i :: 0 <= i < |b| ==> b[i] == s[|a| + 1 + i];
    }
    RestrictMembers(b, keep);
    BehindJoin(Restrict(s, keep), k, x, seen, Restrict(a, keep), Restrict(b, keep));
  }

  lemma {:induction false} BehindAppend(s: Store, k: string, x: Entry, seen: set<string>, p: Pair<string, Entry>)
    requires Behind(s, k, x, seen)
    ensures Behind(s + [p], k, x, seen + {p.key})
  {
    var a, b := BehindSplit(s, k, x, seen);
    KeysSplit(b, [p]);
    BehindJoin(s + [p], k, x, seen + {p.key}, a, b + [p]);
  }

  lemma {:induction false} UniqueSize(s: Store)
    requires Unique(s)
    ensures |Keys(s)| == |s|
  {
    if s != [] {
      assert s == [s[0]] + s[1..];
      KeysSplit([s[0]], s[1..]);
      assert Keys([s[0]]) == {s[0].key};
      assert s[0].key !in Keys(s[1..]);
      UniqueSize(s[1..]);
    }
  }

  lemma {:induction false} SubsetSize<T>(a: set<T>, b: set<T>)
    requires a <= b
    ensures |a| <= |b|
  {
    assert b == a + (b - a);
  }

  /** Eviction takes the oldest pairs, so it cannot reach `k` while fewer than `cap` keys are newer. */
  lemma {:induction false} BehindNewest(s: Store, k: string, x: Entry, seen: set<string>, cap: nat)
    requires Unique(s) && Behind(s, k, x, seen) && |seen| < cap
    ensures Behind(Newest(s, cap), k, x, seen)
  {
    if |s| > cap {
      var a, b := BehindSplit(s, k, x, seen);
      assert Unique(b) by {
        assert forall i :: 0 <= i < |b| ==> b[i] == s[|a| + 1 + i];
      }
      UniqueSize(b);
      SubsetSize(Keys(b), seen);
      var d := |s| - cap;
      assert s[d..] == a[d..] + [Pair(k, x)] + b;
      BehindJoin(s[d..], k, x, seen, a[d..], b);
    }
  }

  lemma {:induction false} BehindFound(s: Store, k: string, x: Entry, seen: set<string>)
    requires Unique(s) && Behind(s, k, x, seen)
    ensures Find(s, k) == Some(x)
  {
    var p :| 0 <= p < |s| && s[p] == Pair(k, x) && Keys(s[p + 1..]) <= seen;
    FindMeaning(s, k);
  }

  lemma {:induction false} RetainedGet(s: Store, cap: nat, k: string, x: Entry, seen: set<string>, key: string, now: int)
    requires Unique(s) && |s| <= cap && Behind(s, k, x, seen) && now < x.exp
    ensures Behind(Next(s, cap, Event(Get(key), now)), k, x, seen + ({key} - {k}))
  {
    BehindFound(s, k, x, seen);
    if key == k {
      assert Delete(s, k) + [Pair(k, x)] == Delete(s, k) + [Pair(k, x)] + [];
      BehindJoin(Delete(s, k) + [Pair(k, x)], k, x, seen + ({key} - {k}), Delete(s, k), []);
    } else {
      FindMeaning(s, k);
      BehindRestrict(s, k, x, seen, Keys(s) - {key});
      BehindMore(s, k, x, seen, seen + ({key} - {k}));
      BehindMore(Delete(s, key), k, x, seen, seen + ({key} - {k}));
      if Find(s, key).Some? {
        BehindAppend(Delete(s, key), k, x, seen, Pair(key, Find(s, key).value));
        assert seen + {key} == seen + ({key} - {k});
      }
    }
  }

  lemma {:induction false} RetainedSet(s: Store, cap: nat, k: string, x: Entry, seen: set<string>, p: Pair<string, Entry>)
    requires Unique(s) && |s| <= cap && Behind(s, k, x, seen)
    requires p.key != k && |seen + {p.key}| < cap
    ensures Behind(Newest(Delete(s, p.key) + [p], cap), k, x, seen + {p.key})
  {
    BehindFound(s, k, x, seen);
    FindMeaning(s, k);
    BehindRestrict(s, k, x, seen, Keys(s) - {p.key});
    BehindAppend(Delete(s, p.key), k, x, seen, p);
    MoveToEnd(s, p.key, p.value);
    BehindNewest(Delete(s, p.key) + [p], k, x, seen + {p.key}, cap);
  }

  lemma {:induction false} RetainedClear(s: Store, k: string, x: Entry, seen: set<string>, prefix: string)
    requires Unique(s) && Behind(s, k, x, seen) && !(prefix <= k)
    ensures Behind(Restrict(s, Keys(s) - KeysWith(s, prefix)), k, x, seen + {})
  {
    BehindFound(s, k, x, seen);
    FindMeaning(s, k);
    BehindRestrict(s, k, x, seen, Keys(s) - KeysWith(s, prefix));
    assert seen + {} == seen;
  }

  lemma {:induction false} RetainedStep(s: Store, cap: nat, k: string, x: Entry, seen: set<string>, e: Event)
    requires Unique(s) && |s| <= cap && Behind(s, k, x, seen) && LeavesAlone([e], k, x.exp)
    requires |seen + TouchedBy(e, k)| < cap
    ensures Behind(Next(s, cap, e), k, x, seen + TouchedBy(e, k))
  {
    assert [e][0] == e;
    match e.op
    case Clear(prefix) => RetainedClear(s, k, x, seen, prefix);
    case Get(key) => RetainedGet(s, cap, k, x, seen, key, e.now);
    case Set(key, value, ttl) =>
      assert {key} - {k} == {key};
      RetainedSet(s, cap, k, x, seen, Pair(key, Entry(value, e.now + ttl * 1000)));
  }

  lemma {:induction false} BehindMore(s: Store, k: string, x: Entry, seen: set<string>, more: set<string>)
    requires Behind(s, k, x, seen) && seen <= more
    ensures Behind(s, k, x, more)
  {
    var a, b := BehindSplit(s, k, x, seen);
    BehindJoin(s, k, x, more, a, b);
  }

  /** A live key that nobody sets or clears is still answered after any trace that touches fewer than
      `cap` other keys. */
  lemma {:induction false} Retained(s: Store, cap: nat, k: string, x: Entry, seen: set<string>, trace: seq<Event>, now: int)
    requires Unique(s) && |s| <= cap && Behind(s, k, x, seen)
    requires LeavesAlone(trace, k, x.exp) && now < x.exp
    requires |seen + Touched(trace, k)| < cap
    ensures Answer(Run(s, cap, trace), Event(Get(k), now)) == Some(x.v)
    decreases trace
  {
    if trace == [] {
      BehindFound(s, k, x, seen);
    } else {
      var e := trace[0];
      var more := seen + TouchedBy(e, k);
      assert more + Touched(trace[1..], k) == seen + Touched(trace, k);
      SubsetSize(more, seen + Touched(trace, k));
      RetainedStep(s, cap, k, x, seen, e);
      StepKeepsShape(s, cap, e);
      Retained(Next(s, cap, e), cap, k, x, more, trace[1..], now);
    }
  }

  /** A value just set is returned after any trace that neither sets, clears nor outlives it and touches
      fewer than `cap` other keys. */
  lemma {:induction false} SetThenGet(s: Store, cap: nat, k: string, v: string, ttl: int, at: int, trace: seq<Event>, now: int)
    requires Unique(s) && |s| <= cap
    requires LeavesAlone(trace, k, at + ttl * 1000) && now < at + ttl * 1000
    requires |Touched(trace, k)| < cap
    ensures Answer(Run(Next(s, cap, Event(Set(k, v, ttl), at)), cap, trace), Event(Get(k), now)) == Some(v)
  {
    var x := Entry(v, at + ttl * 1000);
    var e := Event(Set(k, v, ttl), at);
    StepKeepsShape(s, cap, e);
    JustSet(s, cap, k, x);
    assert {} + Touched(trace, k) == Touched(trace, k);
    Retained(Next(s, cap, e), cap, k, x, {}, trace, now);
  }

  lemma {:induction false} JustSet(s: Store, cap: nat, k: string, x: Entry)
    requires Unique(s) && cap > 0
    ensures Behind(Newest(Delete(s, k) + [Pair(k, x)], cap), k, x, {})
  {
    var full := Delete(s, k) + [Pair(k, x)];
    assert full == Delete(s, k) + [Pair(k, x)] + [];
    BehindJoin(full, k, x, {}, Delete(s, k), []);
    MoveToEnd(s, k, x);
    BehindNewest(full, k, x, {}, cap);
  }
}
