/** Small shared vocabulary. */
module Prelude {
  datatype Option<+T> = None | Some(value: T)

  function Max(a: int, b: int): int { if a < b then b else a }

  function Min(a: int, b: int): int { if a < b then a else b }
}

/** `forall n: nat :: Shown(n) ==> P` says the same as `P`. A predicate written so is passed on whole, and taken apart
    only in proofs that mention `Shown`. */
module Hiding {
  predicate Shown(n: nat) { true }
}

/** Facts about sequences in a form the solver can take in one step. */
module Sequences {
  /** `findIndex`: the first position where it holds; the length when there is none. */
  function FindIndex<T>(xs: seq<T>, holds: T -> bool): (i: nat)
    ensures i <= |xs|
    ensures i < |xs| ==> holds(xs[i])
    ensures forall k :: 0 <= k < i ==> !holds(xs[k])
  {
    if xs == [] || holds(xs[0]) then 0 else 1 + FindIndex(xs[1..], holds)
  }

  lemma {:induction false} Assoc<T>(a: seq<T>, b: seq<T>, c: seq<T>)
    ensures a + b + c == a + (b + c)
  {}

  lemma {:induction false} Push<T>(s: seq<T>, x: T)
    ensures (s + [x])[..|s|] == s && (s + [x])[|s|] == x
  {}

  lemma {:induction false} Front<T>(s: seq<T>)
    requires s != []
    ensures s == s[..|s| - 1] + [s[|s| - 1]]
  {}
}

/** Facts about products and quotients that the solver needs spelled out. */
module Arithmetic {
  lemma {:induction false} MulMonotone(k: nat, a: int, b: int)
    requires a <= b
    ensures k * a <= k * b
  {
    var d := b - a;
    assert k * b == k * (a + d) == k * a + k * d;
    assert k * d >= 0;
  }

  lemma {:induction false} DivMonotone(a: int, b: int, d: int)
    requires d > 0 && a <= b
    ensures a / d <= b / d
  {
    var p, q := a / d, b / d;
    var k: nat := d;
    assert p * d <= a && b < q * d + d;
    assert k * (q + 1) == q * d + d && k * p == p * d;
    if p > q { MulMonotone(k, q + 1, p); }
  }

  lemma {:induction false} DivStep(a: int, d: int)
    requires d > 0
    ensures (a + d) / d == a / d + 1
  {
    DivUnique(a + d, d, a / d + 1, a % d);
  }

  lemma {:induction false} DivUnique(a: int, d: int, q: int, r: int)
    requires d > 0 && 0 <= r < d && a == q * d + r
    ensures a / d == q && a % d == r
  {
    var p := a / d;
    assert a == p * d + a % d;
    assert d * (p + 1) == p * d + d && d * q == q * d;
    assert d * (q + 1) == q * d + d && d * p == p * d;
    if p < q { MulMonotone(d, p + 1, q); }
    if q < p { MulMonotone(d, q + 1, p); }
  }
}
