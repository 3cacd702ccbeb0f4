/** Repeated reasoning: three matching passes, ordered by severity. */
module ReasonDedup {
  import opened Prelude
  import opened EditDistance
  import Sequences

  /** The host's text functions. */
  datatype Rules = Rules(trim: Text -> Text, lower: Text -> Text)

  datatype Options = Options(fuzzyThreshold: real, shortStringMinLength: int, caseInsensitive: bool, fuzzy: bool)

  const DEFAULTS := Options(0.85, 20, true, true)

  datatype Match = Exact | CaseInsensitive | Fuzzy

  datatype Violation = Violation(
    reason: Text, originalIndex: nat, duplicateIndex: nat, kind: Match, similarity: real, penalty: nat)

  function Penalty(kind: Match): nat {
    match kind case Exact => 25 case CaseInsensitive => 20 case Fuzzy => 15
  }

  function Severity(kind: Match): nat {
    match kind case Exact => 0 case CaseInsensitive => 1 case Fuzzy => 2
  }

  /** The strongest way two trimmed reasons match, if any. */
  function Matches(t: Rules, o: Options, latest: Text, prev: Text): Option<Match> {
    if prev == [] then None
    else if latest == prev then Some(Exact)
    else if o.caseInsensitive && t.lower(latest) == t.lower(prev) then Some(CaseInsensitive)
    else if o.fuzzy && |latest| >= o.shortStringMinLength && |prev| >= o.shortStringMinLength
      && Similarity(latest, prev) >= o.fuzzyThreshold then Some(Fuzzy)
    else None
  }

  function Report(t: Rules, latest: Text, previous: seq<Text>, i: nat, kind: Match): Violation
    requires i < |previous|
  {
    var similarity := if kind.Fuzzy? then Similarity(latest, t.trim(previous[i])) else 1.0;
    Violation(latest[..Min(|latest|, 200)], i, |previous|, kind, similarity, Penalty(kind))
  }

  /** The violations among the first `n` earlier reasons, oldest first. */
  function Found(t: Rules, o: Options, previous: seq<Text>, latest: Text, n: nat): seq<Violation>
    requires n <= |previous|
  {
    if n == 0 then [] else
    var rest := Found(t, o, previous, latest, n - 1);
    match Matches(t, o, latest, t.trim(previous[n - 1]))
    case None => rest
    case Some(kind) => rest + [Report(t, latest, previous, n - 1, kind)]
  }

  function OfKind(vs: seq<Violation>, kind: Match): seq<Violation> {
    if vs == [] then []
    else if vs[|vs| - 1].kind == kind then OfKind(vs[..|vs| - 1], kind) + [vs[|vs| - 1]]
    else OfKind(vs[..|vs| - 1], kind)
  }

  /** A stable sort by severity: each kind in its old order. */
  function BySeverity(vs: seq<Violation>): seq<Violation> {
    OfKind(vs, Exact) + OfKind(vs, CaseInsensitive) + OfKind(vs, Fuzzy)
  }

  /** Where a stable sort puts one more element of a kind. */
  function Home(done: seq<Violation>, kind: Match): nat {
    match kind
    case Exact => |OfKind(done, Exact)|
    case CaseInsensitive => |OfKind(done, Exact)| + |OfKind(done, CaseInsensitive)|
    case Fuzzy => |BySeverity(done)|
  }

  lemma {:induction false} HomeSplits(done: seq<Violation>, v: Violation)
    ensures var s, h := BySeverity(done), Home(done, v.kind);
      && h <= |s|
      && BySeverity(done + [v]) == s[..h] + [v] + s[h..]
      && (forall i :: 0 <= i < h ==> Severity(s[i].kind) <= Severity(v.kind))
      && (forall i :: h <= i < |s| ==> Severity(s[i].kind) > Severity(v.kind))
  {
    KindsApart(done);
    assert (done + [v])[..|done|] == done;
    var e, c, f := OfKind(done, Exact), OfKind(done, CaseInsensitive), OfKind(done, Fuzzy);
    Thirds(e, c, f);
    match v.kind
    case Exact => Splice(e, c + f, v);
    case CaseInsensitive => Splice(e + c, f, v);
    case Fuzzy =>
  }

  lemma {:induction false} Thirds(e: seq<Violation>, c: seq<Violation>, f: seq<Violation>)
    ensures forall x: Violation :: e + [x] + c + f == e + [x] + (c + f)
    ensures forall x: Violation :: e + (c + [x]) + f == e + c + [x] + f
    ensures e + c + f == e + (c + f)
  {
    forall x: Violation ensures e + [x] + c + f == e + [x] + (c + f) { Sequences.Assoc(e + [x], c, f); }
    forall x: Violation ensures e + (c + [x]) + f == e + c + [x] + f { Sequences.Assoc(e, c, [x]); }
  }

  lemma {:induction false} Splice(a: seq<Violation>, b: seq<Violation>, v: Violation)
    ensures a + [v] + b == (a + b)[..|a|] + [v] + (a + b)[|a|..]
  {
    assert (a + b)[..|a|] == a && (a + b)[|a|..] == b;
  }

  /** `v` goes behind everything at least as severe. */
  method Insert(sorted: seq<Violation>, v: Violation, ghost done: seq<Violation>) returns (r: seq<Violation>)
    requires sorted == BySeverity(done)
    ensures r == BySeverity(done + [v])
  {
    HomeSplits(done, v);
    var at := |sorted|;
    while at > 0 && Severity(sorted[at - 1].kind) > Severity(v.kind)
      invariant Home(done, v.kind) <= at <= |sorted|
    {
      at := at - 1;
    }
    return sorted[..at] + [v] + sorted[at..];
  }

  lemma {:induction false} KindsApart(vs: seq<Violation>)
    ensures forall k, i :: 0 <= i < |OfKind(vs, k)| ==> OfKind(vs, k)[i].kind == k
  {
    if vs != [] { KindsApart(vs[..|vs| - 1]); }
  }

  method CheckDuplicateReason(t: Rules, previousReasons: seq<Text>, newReason: Text, o: Options)
    returns (violations: seq<Violation>)
    ensures violations ==
      if t.trim(newReason) == [] then []
      else BySeverity(Found(t, o, previousReasons, t.trim(newReason), |previousReasons|))
  {
    var trimmedNew := t.trim(newReason);
    if trimmedNew == [] { return []; }
    violations := [];
    for i := 0 to |previousReasons|
      invariant violations == Found(t, o, previousReasons, trimmedNew, i)
    {
      var prev := t.trim(previousReasons[i]);
      if prev == [] { continue; }
      if trimmedNew == prev {
        violations := violations + [Report(t, trimmedNew, previousReasons, i, Exact)];
        continue;
      }
      if o.caseInsensitive && t.lower(trimmedNew) == t.lower(prev) {
        violations := violations + [Report(t, trimmedNew, previousReasons, i, CaseInsensitive)];
        continue;
      }
      if o.fuzzy {
        if |trimmedNew| < o.shortStringMinLength || |prev| < o.shortStringMinLength { continue; }
        var similarity := LevenshteinSimilarity(trimmedNew, prev);
        if similarity >= o.fuzzyThreshold {
          violations := violations + [Report(t, trimmedNew, previousReasons, i, Fuzzy)];
        }
      }
    }
    var sorted: seq<Violation> := [];
    for i := 0 to |violations|
      invariant sorted == BySeverity(violations[..i])
    {
      assert violations[..i + 1] == violations[..i] + [violations[i]];
      sorted := Insert(sorted, violations[i], violations[..i]);
    }
    assert violations[..|violations|] == violations;
    return sorted;
  }

  function MaxDuplicatePenalty(violations: seq<Violation>): int {
    if violations == [] then 0 else Max(violations[0].penalty, MaxDuplicatePenalty(violations[1..]))
  }

  // ---- What the list says ----

  lemma {:induction false} FoundCovers(t: Rules, o: Options, previous: seq<Text>, latest: Text, n: nat)
    requires n <= |previous|
    ensures forall v :: v in Found(t, o, previous, latest, n) <==>
      exists i :: 0 <= i < n && Matches(t, o, latest, t.trim(previous[i])).Some?
        && v == Report(t, latest, previous, i, Matches(t, o, latest, t.trim(previous[i])).value)
  {
    if n > 0 { FoundCovers(t, o, previous, latest, n - 1); }
  }

  lemma {:induction false} SortKeepsMembers(vs: seq<Violation>)
    ensures multiset(BySeverity(vs)) == multiset(vs)
  {
    if vs != [] {
      var rest, v := vs[..|vs| - 1], vs[|vs| - 1];
      assert vs == rest + [v];
      SortKeepsMembers(rest);
    }
  }

  lemma {:induction false} SortSameMembers(vs: seq<Violation>, v: Violation)
    ensures v in BySeverity(vs) <==> v in vs
  {
    SortKeepsMembers(vs);
    assert v in multiset(BySeverity(vs)) <==> v in multiset(vs);
  }

  lemma {:induction false} SortIsSorted(vs: seq<Violation>)
    ensures forall i, j :: 0 <= i < j < |BySeverity(vs)| ==>
      Severity(BySeverity(vs)[i].kind) <= Severity(BySeverity(vs)[j].kind)
  {
    KindsApart(vs);
  }

  lemma {:induction false} WorstPenaltyIs(vs: seq<Violation>, p: nat)
    requires forall v :: v in vs ==> v.penalty <= p
    requires exists v :: v in vs && v.penalty == p
    ensures MaxDuplicatePenalty(vs) == p
  {
    if forall v :: v in vs[1..] ==> v.penalty != p {
      AllBelow(vs[1..], p);
    } else {
      WorstPenaltyIs(vs[1..], p);
    }
  }

  lemma {:induction false} AllBelow(vs: seq<Violation>, p: nat)
    requires forall v :: v in vs ==> v.penalty <= p
    ensures 0 <= MaxDuplicatePenalty(vs) <= p
  {
    if vs != [] { AllBelow(vs[1..], p); }
  }

  ghost predicate Hit(t: Rules, o: Options, previous: seq<Text>, latest: Text, kind: Match) {
    exists i :: 0 <= i < |previous| && Matches(t, o, latest, t.trim(previous[i])) == Some(kind)
  }

  /** The penalty is decided by the strongest match against any earlier reason, so the order of the earlier
      reasons and the number of weaker matches do not matter. */
  lemma {:induction false} PenaltyIsStrongestMatch(t: Rules, o: Options, previous: seq<Text>, latest: Text)
    ensures var vs := BySeverity(Found(t, o, previous, latest, |previous|));
      MaxDuplicatePenalty(vs) ==
        if Hit(t, o, previous, latest, Exact) then 25
        else if Hit(t, o, previous, latest, CaseInsensitive) then 20
        else if Hit(t, o, previous, latest, Fuzzy) then 15
        else 0
    ensures var vs := BySeverity(Found(t, o, previous, latest, |previous|));
      vs != [] ==> MaxDuplicatePenalty(vs) == vs[0].penalty
  {
    var found := Found(t, o, previous, latest, |previous|);
    var vs := BySeverity(found);
    FoundCovers(t, o, previous, latest, |previous|);
    SortIsSorted(found);
    forall v ensures v in vs <==> v in found { SortSameMembers(found, v); }
    forall k: Match ensures Hit(t, o, previous, latest, k) <==> exists v :: v in vs && v.kind == k {
      if Hit(t, o, previous, latest, k) {
        var i :| 0 <= i < |previous| && Matches(t, o, latest, t.trim(previous[i])) == Some(k);
        assert Report(t, latest, previous, i, k) in vs;
      }
    }
    FirstIsWorst(vs);
  }

  lemma {:induction false} FirstIsWorst(vs: seq<Violation>)
    requires forall i, j :: 0 <= i < j < |vs| ==> Severity(vs[i].kind) <= Severity(vs[j].kind)
    requires forall v :: v in vs ==> v.penalty == Penalty(v.kind)
    ensures vs != [] ==> MaxDuplicatePenalty(vs) == vs[0].penalty
    ensures vs != [] ==> forall v :: v in vs ==> Severity(vs[0].kind) <= Severity(v.kind)
  {
    if vs != [] {
      assert vs[0] in vs;
      WorstPenaltyIs(vs, vs[0].penalty);
    }
  }

  /** `previousReasons.slice(-windowSize)`: zero means all of them, since -0 is 0. */
  function Recent(previous: seq<Text>, windowSize: int): seq<Text> {
    if windowSize > 0 then previous[Max(0, |previous| - windowSize)..]
    else previous[Min(|previous|, -windowSize)..]
  }

  method CheckDuplicateReasonRolling(t: Rules, previousReasons: seq<Text>, newReason: Text, windowSize: int, o: Options)
    returns (violations: seq<Violation>)
    ensures violations == var recent := Recent(previousReasons, windowSize);
      if t.trim(newReason) == [] then [] else BySeverity(Found(t, o, recent, t.trim(newReason), |recent|))
  {
    violations := CheckDuplicateReason(t, Recent(previousReasons, windowSize), newReason, o);
  }

  /** A window of zero, unlike every positive one, does not narrow the check at all. */
  lemma {:induction false} WindowSizes(previous: seq<Text>, windowSize: int)
    requires windowSize >= 0
    ensures windowSize == 0 ==> Recent(previous, windowSize) == previous
    ensures windowSize > 0 ==> |Recent(previous, windowSize)| == Min(windowSize, |previous|)
    ensures Recent(previous, windowSize) == previous[|previous| - |Recent(previous, windowSize)|..]
  {}
}
