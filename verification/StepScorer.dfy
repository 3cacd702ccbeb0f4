/** The score of each finished step, and the rolling health the loop watches. */
module StepScorer {
  import opened Prelude
  import opened JsonText
  import opened CanonicalJson
  import opened DuplicateActions
  import Arithmetic
  import ReasonDedup

  datatype Step = Step(tool: Text, args: Json, observation: Json, isError: bool, thought: Option<Text>)

  const WRITE_EDIT: Text := Ascii("write_edit_tool")
  const RUN_COMMAND: Text := Ascii("run_command_tool")

  function CallOf(s: Step): Call { Call(s.tool, s.args, s.observation) }

  /** `JSON.stringify(x)` */
  function JsonStringify(x: Json): Option<Text> { if x.Undefined? then None else Some(Stringify(x)) }

  predicate SameArgs(a: Json, b: Json) { JsonStringify(a) == JsonStringify(b) }

  /** The test for a repeated action: a report for this tool whose arguments print alike, field order included. */
  predicate Repeats(history: seq<Call>, s: Step) {
    exists v :: v in Flagged(history) && v.tool == s.tool && SameArgs(v.args, s.args)
  }

  function ReasonPenalty(host: ReasonDedup.Rules, earlier: seq<Text>, thought: Option<Text>): int {
    if thought.None? || thought.value == [] || earlier == [] then 0 else
    var recent := ReasonDedup.Recent(earlier, 5);
    if host.trim(thought.value) == [] then 0 else
    ReasonDedup.MaxDuplicatePenalty(ReasonDedup.BySeverity(
      ReasonDedup.Found(host, ReasonDedup.DEFAULTS, recent, host.trim(thought.value), |recent|)))
  }

  function Points(s: Step, repeated: bool, penalty: int): int {
    var raw := 70 + (if s.isError then -45 else 10) - (if repeated then 35 else 0) - penalty
      + (if !s.isError && (s.tool == WRITE_EDIT || s.tool == RUN_COMMAND) then 10 else 0);
    Max(0, Min(100, raw))
  }

  method ThoughtPenalty(host: ReasonDedup.Rules, earlier: seq<Text>, thought: Option<Text>) returns (penalty: int)
    ensures penalty == ReasonPenalty(host, earlier, thought)
  {
    penalty := 0;
    if thought.Some? && thought.value != [] && |earlier| > 0 {
      var violations := ReasonDedup.CheckDuplicateReasonRolling(host, earlier, thought.value, 5, ReasonDedup.DEFAULTS);
      if |violations| > 0 {
        penalty := ReasonDedup.MaxDuplicatePenalty(violations);
      }
    }
  }

  class HealthState {
    var scores: seq<int>
    var callHistory: seq<Call>
    var iterationReasons: seq<Text>

    constructor ()
      ensures scores == [] && callHistory == [] && iterationReasons == []
      ensures Valid()
    {
      scores, callHistory, iterationReasons := [], [], [];
    }

    /** One score, one call and one reason for each step; every score in range. */
    ghost predicate Valid()
      reads this
    {
      && |scores| == |callHistory| == |iterationReasons|
      && forall i :: 0 <= i < |scores| ==> 0 <= scores[i] <= 90
    }

    method ScoreStep(host: ReasonDedup.Rules, s: Step) returns (score: int)
      requires Valid()
      modifies this
      ensures Valid()
      ensures callHistory == old(callHistory) + [CallOf(s)]
      ensures scores == old(scores) + [score]
      ensures iterationReasons == old(iterationReasons) + [if s.thought.Some? then s.thought.value else []]
      ensures score == Points(s, Repeats(callHistory, s), ReasonPenalty(host, old(iterationReasons), s.thought))
    {
      callHistory := callHistory + [CallOf(s)];
      score := 70;
      if s.isError { score := score - 45; } else { score := score + 10; }
      var violations := FindDuplicateActions(callHistory);
      var isDuplicate := exists v :: v in violations && v.tool == s.tool && SameArgs(v.args, s.args);
      if isDuplicate { score := score - 35; }
      var penalty := ThoughtPenalty(host, iterationReasons, s.thought);
      PenaltyRange(host, iterationReasons, s.thought);
      score := score - penalty;
      iterationReasons := iterationReasons + [if s.thought.Some? then s.thought.value else []];
      if !s.isError && (s.tool == WRITE_EDIT || s.tool == RUN_COMMAND) { score := score + 10; }
      score := Max(0, Min(100, score));
      scores := scores + [score];
    }

    /** `Math.round` of the mean of the last `window` scores. */
    method RollingHealth(window: nat) returns (health: int)
      requires Valid()
      ensures health == Health(scores, window)
    {
      if |scores| == 0 { return 100; }
      var recent := LastScores(scores, window);
      var sum := 0;
      for i := 0 to |recent|
        invariant sum == Total(recent, i)
      {
        sum := sum + recent[i];
      }
      return (2 * sum + |recent|) / (2 * |recent|);
    }
  }

  /** `scores.slice(-window)` */
  function LastScores(scores: seq<int>, window: nat): seq<int> {
    if window == 0 || window >= |scores| then scores else scores[|scores| - window..]
  }

  function Total(xs: seq<int>, n: nat): int
    requires n <= |xs|
  {
    if n == 0 then 0 else Total(xs, n - 1) + xs[n - 1]
  }

  function Health(scores: seq<int>, window: nat): int {
    if scores == [] then 100 else
    var recent := LastScores(scores, window);
    (2 * Total(recent, |recent|) + |recent|) / (2 * |recent|)
  }

  // ---- Scores ----

  lemma {:induction false} PenaltyRange(host: ReasonDedup.Rules, earlier: seq<Text>, thought: Option<Text>)
    ensures 0 <= ReasonPenalty(host, earlier, thought) <= 25
  {
    if thought.Some? {
      ReasonDedup.PenaltyIsStrongestMatch(host, ReasonDedup.DEFAULTS, ReasonDedup.Recent(earlier, 5), host.trim(thought.value));
    }
  }

  /** The penalties are graded: an error outweighs a repeat, and a clean step stays above the nudge line of 40. */
  lemma {:induction false} ScoreBands(s: Step, repeated: bool, penalty: int)
    requires 0 <= penalty <= 25
    ensures 0 <= Points(s, repeated, penalty) <= 90
    ensures s.isError ==> Points(s, repeated, penalty) <= 25
    ensures s.isError && repeated ==> Points(s, repeated, penalty) == 0
    ensures !s.isError && repeated ==> 20 <= Points(s, repeated, penalty) <= 55
    ensures !s.isError && !repeated ==> Points(s, repeated, penalty) >= 55
  {}

  lemma {:induction false} TotalBounds(xs: seq<int>, n: nat, lo: int, hi: int)
    requires n <= |xs| && forall i :: 0 <= i < n ==> lo <= xs[i] <= hi
    ensures lo * n <= Total(xs, n) <= hi * n
  {
    if n > 0 { TotalBounds(xs, n - 1, lo, hi); }
  }

  /** The rolling health is the mean rounded to the nearest integer, halves up. */
  lemma {:induction false} HealthIsRoundedMean(scores: seq<int>, window: nat)
    requires scores != []
    ensures var recent := LastScores(scores, window);
      2 * Total(recent, |recent|) - |recent| < 2 * |recent| * Health(scores, window) <= 2 * Total(recent, |recent|) + |recent|
  {
    var recent := LastScores(scores, window);
    var a, d := 2 * Total(recent, |recent|) + |recent|, 2 * |recent|;
    assert a == d * (a / d) + a % d;
  }

  /** It lies between the least and the greatest of the recent scores. */
  lemma {:induction false} HealthBounds(scores: seq<int>, window: nat, lo: int, hi: int)
    requires scores != []
    requires forall i :: 0 <= i < |LastScores(scores, window)| ==> lo <= LastScores(scores, window)[i] <= hi
    ensures lo <= Health(scores, window) <= hi
  {
    var recent := LastScores(scores, window);
    TotalBounds(recent, |recent|, lo, hi);
    HealthIsRoundedMean(scores, window);
    var n, h := |recent|, Health(scores, window);
    assert 2 * n * h == 2 * (n * h) && lo * n == n * lo && hi * n == n * hi;
    assert n * (h + 1) == n * h + n && n * (h - 1) == n * h - n;
    if h < lo { Arithmetic.MulMonotone(n, h + 1, lo); }
    if h > hi { Arithmetic.MulMonotone(n, hi, h - 1); }
  }

  // ---- Who is penalised ----

  ghost predicate PlainCalls(calls: seq<Call>) {
    AllClean(calls) && forall c :: c in calls ==> Plain(c.args)
  }

  ghost predicate FirstOf(calls: seq<Call>, i: nat, c: Call) {
    i < |calls| && SameAction(calls[i], c) && Occurrences(calls, i, c) == 0
  }

  lemma {:induction false} SameTextSameAction(c: Call, d: Call)
    requires Clean(c) && Clean(d) && Plain(c.args) && Plain(d.args)
    requires c.tool == d.tool && SameArgs(c.args, d.args)
    ensures SameAction(c, d)
  {
    StringifyRefinesStable(c.args, d.args);
    KeysAgree(c, d);
  }

  lemma {:induction false} OccursBefore(calls: seq<Call>, i: nat, n: nat, c: Call)
    requires i < n <= |calls| && SameAction(calls[i], c)
    ensures Occurrences(calls, n, c) > 0
  {
    if i < n - 1 { OccursBefore(calls, i, n - 1, c); }
  }

  lemma {:induction false} FirstIsUnique(calls: seq<Call>, i: nat, j: nat, c: Call)
    requires FirstOf(calls, i, c) && FirstOf(calls, j, c)
    ensures i == j
  {
    if i < j { OccursBefore(calls, i, j, c); }
    if j < i { OccursBefore(calls, j, i, c); }
  }

  /** A report about an action names the action's first call. */
  lemma {:induction false} ReportIsFirst(calls: seq<Call>, v: Violation, c: Call) returns (i: nat)
    requires AllClean(calls) && Clean(c) && v in Flagged(calls) && About(v, c)
    ensures FirstOf(calls, i, c) && v.tool == calls[i].tool && v.args == calls[i].args
  {
    ReportNamesFirst(calls, v);
    i :| 0 <= i < |calls| && Describes(v, calls, i);
    var d := calls[i];
    assert d in calls;
    KeysAgree(d, c);
    ChosenCounts(calls, i, d);
    ChosenCounts(calls, i, c);
  }

  /** A step is penalised exactly when its own action is flagged and the action's first call printed its fields
      in the same order as this step. */
  lemma {:induction false} PenalisedExactly(earlier: seq<Call>, s: Step)
    requires PlainCalls(earlier + [CallOf(s)])
    ensures var history := earlier + [CallOf(s)];
      Repeats(history, s) <==>
        Flags(history, CallOf(s))
        && exists i: nat :: FirstOf(history, i, CallOf(s)) && SameArgs(history[i].args, s.args)
  {
    var history, c := earlier + [CallOf(s)], CallOf(s);
    assert c == history[|earlier|];
    if v :| v in Flagged(history) && v.tool == s.tool && SameArgs(v.args, s.args) {
      ReportNamesFirst(history, v);
      var k :| 0 <= k < |history| && Describes(v, history, k);
      assert history[k] in history;
      SameTextSameAction(history[k], c);
      assert About(v, c);
      var i := ReportIsFirst(history, v, c);
    }
    if Flags(history, c) {
      var v :| v in Flagged(history) && About(v, c);
      var j := ReportIsFirst(history, v, c);
      if i: nat :| FirstOf(history, i, c) && SameArgs(history[i].args, s.args) {
        FirstIsUnique(history, i, j, c);
        assert v.tool == s.tool;
      }
    }
  }

  /** After two different observations of an action, no step of it is ever penalised again. */
  lemma {:induction false} NeverPenalisedAgain(earlier: seq<Call>, s: Step, d: Call, e: Call)
    requires PlainCalls(earlier + [CallOf(s)]) && d in earlier && e in earlier
    requires SameAction(e, d) && !SameAnswer(d, e) && SameAction(d, CallOf(s))
    ensures !Repeats(earlier + [CallOf(s)], s)
  {
    var history := earlier + [CallOf(s)];
    assert d in history && e in history && CallOf(s) in history;
    PenalisedExactly(earlier, s);
    KeysAgree(d, CallOf(s));
    KeysAgree(e, d);
    KeysAgree(e, CallOf(s));
    FlaggedExactly(history, CallOf(s));
  }

  lemma {:induction false} PairFlagged(d: Call, c: Call)
    requires Clean(d) && Clean(c) && SameAction(d, c) && d.observation == c.observation
    ensures Flags([d, c], c)
  {
    var history := [d, c];
    KeysAgree(c, c);
    assert Occurrences(history, 1, c) == 1;
    assert Occurrences(history, 2, c) == 2;
    forall e, f | e in history && f in history ensures SameAnswer(e, f) { AnswersAgree(e, f); }
    FlaggedExactly(history, c);
  }

  lemma {:induction false} FirstTextDecides(d: Call, s: Step)
    requires PlainCalls([d] + [CallOf(s)]) && SameAction(d, CallOf(s)) && !SameArgs(d.args, s.args)
    ensures !Repeats([d] + [CallOf(s)], s)
  {
    var history, c := [d] + [CallOf(s)], CallOf(s);
    PenalisedExactly([d], s);
    assert FirstOf(history, 0, c);
    forall i: nat | FirstOf(history, i, c) ensures !SameArgs(history[i].args, s.args) {
      FirstIsUnique(history, 0, i, c);
    }
  }

  lemma {:induction false} ReorderedAlike(k: Text, l: Text, x: Json, y: Json)
    requires Plain(x) && Plain(y)
    ensures Alike(StableTree(Obj([Entry(k, x), Entry(l, y)])), StableTree(Obj([Entry(l, y), Entry(k, x)])))
  {
    var a, b := Obj([Entry(k, x), Entry(l, y)]), Obj([Entry(l, y), Entry(k, x)]);
    PlainStable(a);
    PlainStable(b);
    SharedAlike(a.fields, b.fields);
  }

  lemma {:induction false} PairIsPlain(k: Text, l: Text, x: Json, y: Json)
    requires k != l && WellFormed(x) && WellFormed(y) && Plain(x) && Plain(y)
    ensures WellFormed(Obj([Entry(k, x), Entry(l, y)])) && Plain(Obj([Entry(k, x), Entry(l, y)]))
  {}

  lemma {:induction false} DifferentTextEscapes(d: Call, s: Step)
    requires Clean(d) && Clean(CallOf(s)) && Plain(d.args) && Plain(s.args)
    requires SameAction(d, CallOf(s)) && d.observation == s.observation && !SameArgs(d.args, s.args)
    ensures Flags([d, CallOf(s)], CallOf(s)) && !Repeats([d, CallOf(s)], s)
  {
    assert [d] + [CallOf(s)] == [d, CallOf(s)];
    PairFlagged(d, CallOf(s));
    FirstTextDecides(d, s);
  }

  /** Fields in another order: the action is flagged, the step that repeated it is not penalised. */
  lemma {:induction false} ReorderedRepeatEscapes(k: Text, l: Text, x: Json, y: Json, first: Call, s: Step)
    requires k != l && WellFormed(x) && WellFormed(y) && Plain(x) && Plain(y)
    requires first.args == Obj([Entry(k, x), Entry(l, y)]) && s.args == Obj([Entry(l, y), Entry(k, x)])
    requires first.tool == s.tool && first.observation == s.observation && WellFormed(s.observation)
    ensures Flags([first, CallOf(s)], CallOf(s)) && !Repeats([first, CallOf(s)], s)
  {
    PairIsPlain(k, l, x, y);
    PairIsPlain(l, k, y, x);
    ReorderedAlike(k, l, x, y);
    DifferentOrderDifferentText(k, l, x, y);
    DifferentTextEscapes(first, s);
  }

  lemma {:induction false} DifferentOrderDifferentText(k: Text, l: Text, x: Json, y: Json)
    requires k != l && WellFormed(x) && WellFormed(y) && Plain(x) && Plain(y)
    ensures Stringify(Obj([Entry(k, x), Entry(l, y)])) != Stringify(Obj([Entry(l, y), Entry(k, x)]))
  {
    var a, b := Obj([Entry(k, x), Entry(l, y)]), Obj([Entry(l, y), Entry(k, x)]);
    TreeIsReadable(a);
    TreeIsReadable(b);
    assert FieldsOf(a.fields)[0].key == k && FieldsOf(b.fields)[0].key == l;
    assert TreeOf(a) != TreeOf(b);
    if Stringify(a) == Stringify(b) {
      PrintedInjective(TreeOf(a), TreeOf(b), [], []);
    }
  }
}
