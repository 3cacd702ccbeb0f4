/** A JavaScript `Map`: pairs in insertion order, at most one pair for each key. */
module InsertionMap {
  import opened Prelude

  datatype Pair<K, V> = Pair(key: K, value: V)

  type Assoc<K, V> = seq<Pair<K, V>>

  function Keys<K(==), V>(m: Assoc<K, V>): set<K> {
    set i | 0 <= i < |m| :: m[i].key
  }

  ghost predicate Unique<K, V>(m: Assoc<K, V>) {
    forall i, j :: 0 <= i < j < |m| ==> m[i].key != m[j].key
  }

  /** The pairs whose keys lie in `keep`, in their old order. */
  function Restrict<K(==), V>(m: Assoc<K, V>, keep: set<K>): Assoc<K, V> {
    if m == [] then []
    else if m[0].key in keep then [m[0]] + Restrict(m[1..], keep)
    else Restrict(m[1..], keep)
  }

  /** `m.delete(k)` */
  function Delete<K(==), V>(m: Assoc<K, V>, k: K): Assoc<K, V> {
    Restrict(m, Keys(m) - {k})
  }

  /** `m.get(k)` */
  function Find<K(==), V>(m: Assoc<K, V>, k: K): Option<V> {
    if m == [] then None else if m[0].key == k then Some(m[0].value) else Find(m[1..], k)
  }

  /** `m.set(k, v)`: an existing key keeps its place, a new one goes last. */
  function Put<K(==), V>(m: Assoc<K, V>, k: K, v: V): Assoc<K, V> {
    if m == [] then [Pair(k, v)]
    else if m[0].key == k then [Pair(k, v)] + m[1..]
    else [m[0]] + Put(m[1..], k, v)
  }

  lemma {:induction false} KeysSplit<K, V>(a: Assoc<K, V>, b: Assoc<K, V>)
    ensures Keys(a + b) == Keys(a) + Keys(b)
  {
    forall k | k in Keys(a) + Keys(b) ensures k in Keys(a + b) {
      if k in Keys(a) {
        var i :| 0 <= i < |a| && a[i].key == k;
        assert (a + b)[i].key == k;
      } else {
        var i :| 0 <= i < |b| && b[i].key == k;
        assert (a + b)[|a| + i].key == k;
      }
    }
  }

  lemma {:induction false} RestrictAppend<K, V>(a: Assoc<K, V>, b: Assoc<K, V>, keep: set<K>)
    ensures Restrict(a + b, keep) == Restrict(a, keep) + Restrict(b, keep)
  {
    if a == [] {
      assert a + b == b;
    } else {
      assert (a + b)[1..] == a[1..] + b;
      RestrictAppend(a[1..], b, keep);
    }
  }

  lemma {:induction false} RestrictMembers<K, V>(m: Assoc<K, V>, keep: set<K>)
    requires Unique(m)
    ensures Unique(Restrict(m, keep)) && Keys(Restrict(m, keep)) == Keys(m) * keep
    ensures |Restrict(m, keep)| <= |m|
  {
    if m != [] {
      assert m == [m[0]] + m[1..];
      KeysSplit([m[0]], m[1..]);
      RestrictMembers(m[1..], keep);
      var rest := Restrict(m[1..], keep);
      KeysSplit([m[0]], rest);
      assert m[0].key !in Keys(m[1..]);
      if m[0].key in keep {
        assert forall i :: 0 <= i < |rest| ==> rest[i].key in Keys(rest);
        assert Keys([m[0]]) == {m[0].key};
      }
    }
  }

  lemma {:induction false} RestrictTwice<K, V>(m: Assoc<K, V>, a: set<K>, b: set<K>)
    ensures Restrict(Restrict(m, a), b) == Restrict(m, a * b)
  {
    if m != [] {
      RestrictTwice(m[1..], a, b);
    }
  }

  lemma {:induction false} RestrictAgrees<K, V>(m: Assoc<K, V>, a: set<K>, b: set<K>)
    requires Keys(m) * a == Keys(m) * b
    ensures Restrict(m, a) == Restrict(m, b)
  {
    if m != [] {
      assert m == [m[0]] + m[1..];
      KeysSplit([m[0]], m[1..]);
      assert m[0].key in Keys([m[0]]);
      forall k | k in Keys(m[1..]) ensures k in a <==> k in b {
        assert k in Keys(m);
        assert k in Keys(m) * a <==> k in Keys(m) * b;
      }
      assert m[0].key in Keys(m);
      assert m[0].key in Keys(m) * a <==> m[0].key in Keys(m) * b;
      RestrictAgrees(m[1..], a, b);
    }
  }

  lemma {:induction false} RestrictAll<K, V>(m: Assoc<K, V>, keep: set<K>)
    requires Keys(m) <= keep
    ensures Restrict(m, keep) == m
  {
    if m != [] {
      assert m == [m[0]] + m[1..];
      KeysSplit([m[0]], m[1..]);
      assert m[0].key in Keys([m[0]]);
      RestrictAll(m[1..], keep);
    }
  }

  lemma {:induction false} FindMeaning<K, V>(m: Assoc<K, V>, k: K)
    requires Unique(m)
    ensures Find(m, k).Some? <==> k in Keys(m)
    ensures forall i :: 0 <= i < |m| && m[i].key == k ==> Find(m, k) == Some(m[i].value)
  {
    if m != [] {
      assert m == [m[0]] + m[1..];
      KeysSplit([m[0]], m[1..]);
      assert Keys([m[0]]) == {m[0].key};
      FindMeaning(m[1..], k);
      forall i | 0 <= i < |m| && m[i].key == k ensures Find(m, k) == Some(m[i].value) {
        if i > 0 {
          assert m[1..][i - 1] == m[i];
        }
      }
    }
  }

  lemma {:induction false} FindRestrict<K, V>(m: Assoc<K, V>, keep: set<K>, k: K)
    requires k in keep
    ensures Find(Restrict(m, keep), k) == Find(m, k)
  {
    if m != [] {
      FindRestrict(m[1..], keep, k);
    }
  }

  /** Deleting a key that is stored takes away exactly one pair. */
  lemma {:induction false} DeleteSize<K, V>(m: Assoc<K, V>, k: K)
    requires Unique(m)
    ensures |Delete(m, k)| == |m| - (if k in Keys(m) then 1 else 0)
  {
    if m != [] {
      assert m == [m[0]] + m[1..];
      KeysSplit([m[0]], m[1..]);
      assert Keys([m[0]]) == {m[0].key};
      assert m[0].key !in Keys(m[1..]);
      DeleteSize(m[1..], k);
      RestrictAgrees(m[1..], Keys(m) - {k}, Keys(m[1..]) - {k});
    }
  }

  /** Deleting and appending again: the key moves to the end. */
  lemma {:induction false} MoveToEnd<K, V>(m: Assoc<K, V>, k: K, v: V)
    requires Unique(m)
    ensures Put(Delete(m, k), k, v) == Delete(m, k) + [Pair(k, v)]
    ensures Unique(Delete(m, k) + [Pair(k, v)])
    ensures Keys(Delete(m, k) + [Pair(k, v)]) == Keys(m) + {k}
  {
    RestrictMembers(m, Keys(m) - {k});
    var d := Delete(m, k);
    PutNew(d, k, v);
    KeysSplit(d, [Pair(k, v)]);
    assert [Pair(k, v)][0].key == k;
    assert forall i :: 0 <= i < |d| ==> d[i].key in Keys(d);
  }

  lemma {:induction false} PutNew<K, V>(m: Assoc<K, V>, k: K, v: V)
    requires k !in Keys(m)
    ensures Put(m, k, v) == m + [Pair(k, v)]
  {
    if m != [] {
      assert m == [m[0]] + m[1..];
      KeysSplit([m[0]], m[1..]);
      assert m[0].key in Keys(m);
      PutNew(m[1..], k, v);
    }
  }

  /** A `set` changes what one key holds and nothing else. */
  lemma {:induction false} PutFinds<K, V>(m: Assoc<K, V>, k: K, v: V, other: K)
    ensures Find(Put(m, k, v), other) == if other == k then Some(v) else Find(m, other)
  {
    if m != [] {
      PutFinds(m[1..], k, v, other);
    }
  }

  lemma {:induction false} PutUnique<K, V>(m: Assoc<K, V>, k: K, v: V)
    requires Unique(m)
    ensures Unique(Put(m, k, v)) && Keys(Put(m, k, v)) == Keys(m) + {k}
  {
    KeysOne(Pair(k, v));
    if m != [] {
      var first, rest := m[0], m[1..];
      assert m == [first] + rest;
      FirstIsNew(first, rest);
      if first.key == k {
        NewFirst(Pair(k, v), rest);
      } else {
        PutUnique(rest, k, v);
        NewFirst(first, Put(rest, k, v));
      }
    }
  }

  lemma {:induction false} KeysOne<K, V>(p: Pair<K, V>)
    ensures Keys([p]) == {p.key}
  {
    assert [p][0].key == p.key;
  }

  lemma {:induction false} FirstIsNew<K, V>(p: Pair<K, V>, rest: Assoc<K, V>)
    requires Unique([p] + rest)
    ensures Unique(rest) && p.key !in Keys(rest) && Keys([p] + rest) == {p.key} + Keys(rest)
  {
    var m := [p] + rest;
    KeysSplit([p], rest);
    KeysOne(p);
    forall i, j | 0 <= i < j < |rest| ensures rest[i].key != rest[j].key {
      assert m[i + 1] == rest[i] && m[j + 1] == rest[j];
    }
    forall i | 0 <= i < |rest| ensures rest[i].key != p.key {
      assert m[0] == p && m[i + 1] == rest[i];
    }
  }

  lemma {:induction false} NewFirst<K, V>(p: Pair<K, V>, rest: Assoc<K, V>)
    requires Unique(rest) && p.key !in Keys(rest)
    ensures Unique([p] + rest) && Keys([p] + rest) == {p.key} + Keys(rest)
  {
    KeysSplit([p], rest);
    KeysOne(p);
    forall i | 0 <= i < |rest| ensures rest[i].key in Keys(rest) {}
  }
}
