/** Calls whose arguments were probably cut off are withheld. */
module TruncationGuard {
  import opened Prelude
  import opened Conversation

  /** What the model sends back; `finish` is its finish reason. */
  datatype Response = Response(content: string, calls: seq<Call>, reasoning: Option<string>, finish: string)

  predicate LargePayload(name: string) { name == "write_edit_tool" }

  predicate Withheld(r: Response, i: nat)
    requires i < |r.calls|
  {
    r.finish == "length" && LargePayload(r.calls[i].name)
  }

  /** The positions before `n` that are withheld, or those that are not. */
  function Positions(r: Response, withheld: bool, n: nat): seq<nat>
    requires n <= |r.calls|
  {
    if n == 0 then []
    else if Withheld(r, n - 1) == withheld then Positions(r, withheld, n - 1) + [n - 1]
    else Positions(r, withheld, n - 1)
  }

  /** Calls are named by their place in the response, since the loop passes on the call objects themselves. */
  method CheckForTruncatedToolCalls(r: Response) returns (safe: seq<nat>, blocked: seq<nat>)
    ensures safe == Positions(r, false, |r.calls|) && blocked == Positions(r, true, |r.calls|)
  {
    safe, blocked := [], [];
    if r.finish != "length" {
      for i := 0 to |r.calls|
        invariant safe == Positions(r, false, i) && Positions(r, true, i) == []
      {
        safe := safe + [i];
      }
      return;
    }
    for i := 0 to |r.calls|
      invariant safe == Positions(r, false, i) && blocked == Positions(r, true, i)
    {
      if LargePayload(r.calls[i].name) {
        blocked := blocked + [i];
      } else {
        safe := safe + [i];
      }
    }
  }

  ghost predicate Ascending(p: seq<nat>) { forall i, j :: 0 <= i < j < |p| ==> p[i] < p[j] }

  /** Each call is on exactly one side, and both sides keep the order of the response. */
  lemma {:induction false} GuardPartitions(r: Response, withheld: bool, n: nat)
    requires n <= |r.calls|
    ensures forall i :: i in Positions(r, withheld, n) <==> 0 <= i < n && Withheld(r, i) == withheld
    ensures Ascending(Positions(r, withheld, n))
    ensures |Positions(r, withheld, n)| + |Positions(r, !withheld, n)| == n
  {
    if n > 0 {
      GuardPartitions(r, withheld, n - 1);
      var p := Positions(r, withheld, n - 1);
      assert forall i :: 0 <= i < |p| ==> p[i] in p;
    }
  }

  function IdAt(calls: seq<Call>, i: nat): string { if i < |calls| then calls[i].id else "" }

  function IdsAt(calls: seq<Call>, p: seq<nat>): (r: seq<string>)
    ensures |r| == |p| && forall i :: 0 <= i < |p| ==> r[i] == IdAt(calls, p[i])
  {
    if p == [] then [] else [IdAt(calls, p[0])] + IdsAt(calls, p[1..])
  }

  /** `c` interleaves `a` and `b`. */
  ghost predicate Shuffles(a: seq<string>, b: seq<string>, c: seq<string>)
    decreases c
  {
    if c == [] then a == [] && b == [] else
    var x, rest := c[|c| - 1], c[..|c| - 1];
    || (a != [] && a[|a| - 1] == x && Shuffles(a[..|a| - 1], b, rest))
    || (b != [] && b[|b| - 1] == x && Shuffles(a, b[..|b| - 1], rest))
  }

  lemma {:induction false} ShuffleMore(a: seq<string>, b: seq<string>, c: seq<string>, x: string)
    requires Shuffles(a, b, c)
    ensures Shuffles(a + [x], b, c + [x]) && Shuffles(a, b + [x], c + [x])
  {
    assert (a + [x])[..|a|] == a && (b + [x])[..|b|] == b && (c + [x])[..|c|] == c;
  }

  lemma {:induction false} AddOne(a: seq<string>, b: seq<string>, c: seq<string>, x: string)
    requires multiset(a + b) == multiset(c)
    ensures multiset(a + [x] + b) == multiset(c + [x])
    ensures multiset(a + (b + [x])) == multiset(c + [x])
  {
    assert multiset(a + [x] + b) == multiset(a) + multiset{x} + multiset(b);
    assert multiset(a + (b + [x])) == multiset(a) + multiset(b) + multiset{x};
    assert multiset(a + b) == multiset(a) + multiset(b);
  }

  lemma {:induction false} LastOfLeft(a: seq<string>, b: seq<string>, c: seq<string>)
    requires a != [] && c != [] && a[|a| - 1] == c[|c| - 1]
    requires multiset(a[..|a| - 1] + b) == multiset(c[..|c| - 1])
    ensures multiset(a + b) == multiset(c)
  {
    assert a == a[..|a| - 1] + [c[|c| - 1]] && c == c[..|c| - 1] + [c[|c| - 1]];
    AddOne(a[..|a| - 1], b, c[..|c| - 1], c[|c| - 1]);
  }

  lemma {:induction false} LastOfRight(a: seq<string>, b: seq<string>, c: seq<string>)
    requires b != [] && c != [] && b[|b| - 1] == c[|c| - 1]
    requires multiset(a + b[..|b| - 1]) == multiset(c[..|c| - 1])
    ensures multiset(a + b) == multiset(c)
  {
    assert b == b[..|b| - 1] + [c[|c| - 1]] && c == c[..|c| - 1] + [c[|c| - 1]];
    AddOne(a, b[..|b| - 1], c[..|c| - 1], c[|c| - 1]);
  }

  lemma {:induction false} ShuffleCounts(a: seq<string>, b: seq<string>, c: seq<string>)
    requires Shuffles(a, b, c)
    ensures multiset(a + b) == multiset(c)
    decreases c
  {
    if c == [] {
    } else if a != [] && a[|a| - 1] == c[|c| - 1] && Shuffles(a[..|a| - 1], b, c[..|c| - 1]) {
      ShuffleCounts(a[..|a| - 1], b, c[..|c| - 1]);
      LastOfLeft(a, b, c);
    } else {
      ShuffleCounts(a, b[..|b| - 1], c[..|c| - 1]);
      LastOfRight(a, b, c);
    }
  }

  lemma {:induction false} IdsAtPush(calls: seq<Call>, p: seq<nat>, i: nat)
    ensures IdsAt(calls, p + [i]) == IdsAt(calls, p) + [IdAt(calls, i)]
  {}

  lemma {:induction false} IdsPush(calls: seq<Call>, n: nat)
    requires n < |calls|
    ensures Ids(calls[..n + 1]) == Ids(calls[..n]) + [calls[n].id]
  {}

  lemma {:induction false} CountBoth(r: Response, n: nat)
    requires n <= |r.calls|
    ensures Shuffles(IdsAt(r.calls, Positions(r, true, n)), IdsAt(r.calls, Positions(r, false, n)), Ids(r.calls[..n]))
  {
    if n > 0 {
      CountBoth(r, n - 1);
      CountNext(r, n, Positions(r, true, n - 1), Positions(r, false, n - 1), Ids(r.calls[..n - 1]));
    }
  }

  lemma {:induction false} CountNext(r: Response, n: nat, b: seq<nat>, s: seq<nat>, ids: seq<string>)
    requires 0 < n <= |r.calls| && Shuffles(IdsAt(r.calls, b), IdsAt(r.calls, s), ids)
    requires b == Positions(r, true, n - 1) && s == Positions(r, false, n - 1) && ids == Ids(r.calls[..n - 1])
    ensures Shuffles(IdsAt(r.calls, Positions(r, true, n)), IdsAt(r.calls, Positions(r, false, n)), Ids(r.calls[..n]))
  {
    var x := r.calls[n - 1].id;
    IdsPush(r.calls, n - 1);
    IdsAtPush(r.calls, b, n - 1);
    IdsAtPush(r.calls, s, n - 1);
    ShuffleMore(IdsAt(r.calls, b), IdsAt(r.calls, s), ids, x);
    assert Positions(r, true, n) == if Withheld(r, n - 1) then b + [n - 1] else b;
    assert Positions(r, false, n) == if Withheld(r, n - 1) then s else s + [n - 1];
  }

  /** Withheld calls first and then the others, every id of the response comes up once for each call. */
  lemma {:induction false} EveryCallOnce(r: Response)
    ensures var n := |r.calls|;
      OneForEach(IdsAt(r.calls, Positions(r, true, n)) + IdsAt(r.calls, Positions(r, false, n)), Ids(r.calls))
  {
    var n := |r.calls|;
    CountBoth(r, n);
    assert r.calls[..n] == r.calls;
    var a, b := IdsAt(r.calls, Positions(r, true, n)), IdsAt(r.calls, Positions(r, false, n));
    ShuffleCounts(a, b, Ids(r.calls));
    OneForEachMeans(a + b, Ids(r.calls));
  }
}
