/** The edit distance behind fuzzy matching, and the two-row loop that computes it. */
module EditDistance {
  import JsonText
  import opened Prelude

  /** Texts are compared by their UTF-16 code units. */
  type Unit = JsonText.Unit

  type Text = seq<Unit>

  function Init(s: Text): Text requires s != [] { s[..|s| - 1] }

  function Last(s: Text): Unit requires s != [] { s[|s| - 1] }

  function Cost(c: Unit, d: Unit): nat { if c == d then 0 else 1 }

  /** One edit more than either of the first two, or the third. */
  function Best(p: nat, q: nat, r: nat): nat { Min(Min(p + 1, q + 1), r) }

  function Dist(a: Text, b: Text): nat
    decreases |a| + |b|
  {
    if a == [] then |b|
    else if b == [] then |a|
    else Best(Dist(Init(a), b), Dist(a, Init(b)), Dist(Init(a), Init(b)) + Cost(Last(a), Last(b)))
  }

  // ---- Edit scripts ----

  datatype Edit = Keep(c: Unit) | Replace(from: Unit, to: Unit) | Remove(c: Unit) | Add(c: Unit)

  function Before(e: Edit): Text {
    match e case Keep(c) => [c] case Replace(c, _) => [c] case Remove(c) => [c] case Add(_) => []
  }

  function After(e: Edit): Text {
    match e case Keep(c) => [c] case Replace(_, d) => [d] case Remove(_) => [] case Add(d) => [d]
  }

  /** The text a script starts from. */
  function Source(script: seq<Edit>): Text {
    if script == [] then [] else Source(script[..|script| - 1]) + Before(script[|script| - 1])
  }

  /** The text a script ends with. */
  function Target(script: seq<Edit>): Text {
    if script == [] then [] else Target(script[..|script| - 1]) + After(script[|script| - 1])
  }

  /** Keeping a unit is free, every other edit costs one. */
  function Price(script: seq<Edit>): nat {
    if script == [] then 0
    else Price(script[..|script| - 1]) + if script[|script| - 1].Keep? then 0 else 1
  }

  lemma {:induction false} Extend(s: seq<Edit>, e: Edit)
    ensures Source(s + [e]) == Source(s) + Before(e)
    ensures Target(s + [e]) == Target(s) + After(e)
    ensures Price(s + [e]) == Price(s) + if e.Keep? then 0 else 1
  {
    assert (s + [e])[..|s|] == s;
  }

  /** A cheapest script exists. */
  lemma {:induction false} CheapestScript(a: Text, b: Text) returns (s: seq<Edit>)
    ensures Source(s) == a && Target(s) == b && Price(s) == Dist(a, b)
    decreases |a| + |b|
  {
    assert a != [] ==> a == Init(a) + [Last(a)];
    assert b != [] ==> b == Init(b) + [Last(b)];
    var e: Edit;
    if a == [] && b == [] {
      return [];
    } else if b == [] || (a != [] && Dist(a, b) == Dist(Init(a), b) + 1) {
      s := CheapestScript(Init(a), b); e := Remove(Last(a));
    } else if a == [] || Dist(a, b) == Dist(a, Init(b)) + 1 {
      s := CheapestScript(a, Init(b)); e := Add(Last(b));
    } else {
      s := CheapestScript(Init(a), Init(b));
      e := if Last(a) == Last(b) then Keep(Last(a)) else Replace(Last(a), Last(b));
    }
    Extend(s, e);
    s := s + [e];
  }

  lemma {:induction false} GrowLeft(a: Text, b: Text, c: Unit)
    ensures Dist(a + [c], b) <= Dist(a, b) + 1
  {
    assert Init(a + [c]) == a;
    if a == [] && b != [] {
      DistOne(c, b);
    }
  }

  lemma {:induction false} GrowRight(a: Text, b: Text, d: Unit)
    ensures Dist(a, b + [d]) <= Dist(a, b) + 1
  {
    assert Init(b + [d]) == b;
  }

  lemma {:induction false} GrowBoth(a: Text, b: Text, c: Unit, d: Unit)
    ensures Dist(a + [c], b + [d]) <= Dist(a, b) + Cost(c, d)
  {
    assert Init(a + [c]) == a && Init(b + [d]) == b;
  }

  lemma {:induction false} DistOne(c: Unit, b: Text)
    ensures Dist([c], b) <= |b| + 1
  {
    if b != [] { assert Init([c]) == []; }
  }

  /** No script from `Source` to `Target` is cheaper than the distance. */
  lemma {:induction false} NoCheaperScript(script: seq<Edit>)
    ensures Dist(Source(script), Target(script)) <= Price(script)
  {
    if script != [] {
      var rest, e := script[..|script| - 1], script[|script| - 1];
      NoCheaperScript(rest);
      var a, b := Source(rest), Target(rest);
      match e
      case Keep(c) => GrowBoth(a, b, c, c);
      case Replace(c, d) => GrowBoth(a, b, c, d);
      case Remove(c) => GrowLeft(a, b, c); assert b + [] == b;
      case Add(d) => GrowRight(a, b, d); assert a + [] == a;
    }
  }

  /** The distance is the least price of any script from `a` to `b`. */
  lemma {:induction false} DistIsLeastPrice(a: Text, b: Text)
    ensures exists s :: Source(s) == a && Target(s) == b && Price(s) == Dist(a, b)
    ensures forall s :: Source(s) == a && Target(s) == b ==> Dist(a, b) <= Price(s)
  {
    var s0 := CheapestScript(a, b);
    forall s | Source(s) == a && Target(s) == b ensures Dist(a, b) <= Price(s) {
      NoCheaperScript(s);
    }
  }

  // ---- It is a metric ----

  lemma {:induction false} Symmetric(a: Text, b: Text)
    ensures Dist(a, b) == Dist(b, a)
    decreases |a| + |b|
  {
    if a != [] && b != [] {
      Symmetric(Init(a), b);
      Symmetric(a, Init(b));
      Symmetric(Init(a), Init(b));
    }
  }

  lemma {:induction false} ZeroMeansEqual(a: Text, b: Text)
    ensures Dist(a, b) == 0 <==> a == b
    decreases |a| + |b|
  {
    if a != [] && b != [] {
      ZeroMeansEqual(Init(a), Init(b));
      assert a == Init(a) + [Last(a)] && b == Init(b) + [Last(b)];
    }
  }

  lemma {:induction false} AtMostLonger(a: Text, b: Text)
    ensures Dist(a, b) <= Max(|a|, |b|)
    decreases |a| + |b|
  {
    if a != [] && b != [] {
      AtMostLonger(Init(a), Init(b));
    }
  }

  lemma {:induction false} Triangle(a: Text, b: Text, c: Text)
    ensures Dist(a, c) <= Dist(a, b) + Dist(b, c)
    decreases |a| + |b| + |c|
  {
    if b == [] {
      SumBound(a, c);
    } else if a == [] {
      LengthGap(b, c);
    } else if c == [] {
      LengthGap(b, a);
      Symmetric(a, b);
    } else {
      Triangle(Init(a), b, c);
      Triangle(a, b, Init(c));
      Triangle(a, Init(b), c);
      Triangle(Init(a), Init(b), c);
      Triangle(a, Init(b), Init(c));
      Triangle(Init(a), Init(b), Init(c));
    }
  }

  lemma {:induction false} SumBound(a: Text, c: Text)
    ensures Dist(a, c) <= |a| + |c|
    decreases |a| + |c|
  {
    if a != [] && c != [] { SumBound(Init(a), c); }
  }

  lemma {:induction false} LengthGap(b: Text, c: Text)
    ensures |c| <= |b| + Dist(b, c)
    decreases |b| + |c|
  {
    if b != [] && c != [] {
      LengthGap(Init(b), c);
      LengthGap(b, Init(c));
      LengthGap(Init(b), Init(c));
    }
  }

  // ---- Similarity ----

  /** One minus the distance as a share of the longer text; two empty texts are alike. */
  function Similarity(a: Text, b: Text): real {
    if a == [] && b == [] then 1.0 else 1.0 - Dist(a, b) as real / Max(|a|, |b|) as real
  }

  lemma {:induction false} SimilarityLaws(a: Text, b: Text)
    ensures Similarity(a, b) == Similarity(b, a)
    ensures 0.0 <= Similarity(a, b) <= 1.0
    ensures Similarity(a, b) == 1.0 <==> a == b
  {
    Symmetric(a, b);
    ZeroMeansEqual(a, b);
    AtMostLonger(a, b);
    if !(a == [] && b == []) {
      ShareBounds(Dist(a, b), Max(|a|, |b|));
    }
  }

  lemma {:induction false} ShareBounds(d: nat, n: nat)
    requires n > 0 && d <= n
    ensures 0.0 <= d as real / n as real <= 1.0
    ensures d as real / n as real == 0.0 <==> d == 0
  {
    var q := d as real / n as real;
    assert q * n as real == d as real;
    ProductBounds(q, n as real);
  }

  lemma {:induction false} ProductBounds(q: real, n: real)
    requires n > 0.0 && 0.0 <= q * n <= n
    ensures 0.0 <= q <= 1.0
  {
    assert (q - 1.0) * n == q * n - n;
  }

  /** The table: the distance between the first `i` units of `x` and the first `j` of `y`. */
  function Cell(x: Text, y: Text, i: nat, j: nat): nat
    requires i <= |x| && j <= |y|
  {
    if i == 0 then j
    else if j == 0 then i
    else Best(Cell(x, y, i - 1, j), Cell(x, y, i, j - 1), Cell(x, y, i - 1, j - 1) + Cost(x[i - 1], y[j - 1]))
  }

  lemma {:induction false} CellIsDist(x: Text, y: Text, i: nat, j: nat)
    requires i <= |x| && j <= |y|
    ensures Cell(x, y, i, j) == Dist(x[..i], y[..j])
  {
    if i > 0 && j > 0 {
      CellIsDist(x, y, i - 1, j);
      CellIsDist(x, y, i, j - 1);
      CellIsDist(x, y, i - 1, j - 1);
      CellStep(x, y, i, j, x[..i], y[..j], x[..i - 1], y[..j - 1]);
    }
  }

  lemma {:induction false} CellStep(x: Text, y: Text, i: nat, j: nat, a: Text, b: Text, c: Text, d: Text)
    requires 0 < i <= |x| && 0 < j <= |y| && a == x[..i] && b == y[..j] && c == x[..i - 1] && d == y[..j - 1]
    requires Cell(x, y, i - 1, j) == Dist(c, b) && Cell(x, y, i, j - 1) == Dist(a, d) && Cell(x, y, i - 1, j - 1) == Dist(c, d)
    ensures Cell(x, y, i, j) == Dist(a, b)
  {
    TakeInit(x, i);
    TakeInit(y, j);
    DistStep(a, b, c, d, x[i - 1], y[j - 1]);
  }

  lemma {:induction false} DistStep(a: Text, b: Text, c: Text, d: Text, u: Unit, v: Unit)
    requires a != [] && b != [] && Init(a) == c && Init(b) == d && Last(a) == u && Last(b) == v
    ensures Dist(a, b) == Best(Dist(c, b), Dist(a, d), Dist(c, d) + Cost(u, v))
  {}

  lemma {:induction false} TakeInit(x: Text, i: nat)
    requires 0 < i <= |x|
    ensures Init(x[..i]) == x[..i - 1] && Last(x[..i]) == x[i - 1]
  {}

  /** `row` is the beginning of row `i` of the table. */
  ghost predicate IsRow(row: seq<int>, x: Text, i: nat, y: Text) {
    i <= |x| && |row| <= |y| + 1 && forall j :: 0 <= j < |row| ==> row[j] == Cell(x, y, i, j)
  }

  lemma {:induction false} NextCell(above: seq<int>, row: seq<int>, x: Text, i: nat, y: Text, j: nat)
    requires 1 <= i && IsRow(above, x, i - 1, y) && |above| == |y| + 1
    requires 1 <= j <= |y| && IsRow(row, x, i, y) && |row| == j
    ensures var cell := Min(Min(above[j] + 1, row[j - 1] + 1), above[j - 1] + Cost(x[i - 1], y[j - 1]));
      IsRow(row + [cell], x, i, y)
  {}

  /** The dynamic program over two rows: the row above and the one being filled, swapped after each unit. */
  method TwoRowDistance(x: Text, y: Text) returns (distance: int)
    ensures distance == Dist(x, y)
  {
    var m, n := |x|, |y|;
    var prevRow: seq<int> := [];
    var currRow: seq<int> := [];
    var k := 0;
    while k <= n
      invariant |prevRow| == k <= n + 1 && IsRow(prevRow, x, 0, y)
    {
      prevRow := prevRow + [k];
      k := k + 1;
    }
    for i := 1 to m + 1
      invariant |prevRow| == n + 1 && IsRow(prevRow, x, i - 1, y)
    {
      currRow := [i];
      for j := 1 to n + 1
        invariant |currRow| == j && IsRow(currRow, x, i, y)
      {
        NextCell(prevRow, currRow, x, i, y, j);
        var cost := if x[i - 1] == y[j - 1] then 0 else 1;
        currRow := currRow + [Min(Min(prevRow[j] + 1, currRow[j - 1] + 1), prevRow[j - 1] + cost)];
      }
      prevRow := currRow;
    }
    CellIsDist(x, y, m, n);
    assert x[..m] == x && y[..n] == y;
    return prevRow[n];
  }

  /** The shorter text is laid along the row, so the arguments may be swapped first. */
  method LevenshteinSimilarity(a: Text, b: Text) returns (r: real)
    ensures r == Similarity(a, b)
  {
    SimilarityLaws(a, b);
    if a == b { return 1.0; }
    if |a| == 0 || |b| == 0 { return 0.0; }
    var x, y := a, b;
    if |a| < |b| {
      x, y := b, a;
    }
    Symmetric(a, b);
    var distance := TwoRowDistance(x, y);
    return 1.0 - distance as real / Max(|x|, |y|) as real;
  }
}
