/** Which tool calls were repeated without learning anything. */
module DuplicateActions {
  import opened Prelude
  import opened InsertionMap
  import opened JsonText
  import opened CanonicalJson
  import opened Lexing
  import Sequences

  datatype Call = Call(tool: Text, args: Json, observation: Json)

  datatype Violation = Violation(tool: Text, args: Json, occurrences: nat)

  type Groups = Assoc<Text, seq<Call>>

  function KeyOf(c: Call): Text { c.tool + [COLON, COLON] + InTemplate(StableStringify(c.args)) }

  /** The group after the first `n` calls. */
  function Grouped(calls: seq<Call>, n: nat): Groups
    requires n <= |calls|
  {
    if n == 0 then [] else
    var groups, call := Grouped(calls, n - 1), calls[n - 1];
    var list := Find(groups, KeyOf(call));
    Put(groups, KeyOf(call), (if list.Some? then list.value else []) + [call])
  }

  /** Two calls or more, and every observation prints like the first. */
  predicate Futile(group: seq<Call>) {
    |group| >= 2
    && forall i :: 0 <= i < |group| ==> StableStringify(group[i].observation) == StableStringify(group[0].observation)
  }

  function Reports(groups: Groups, n: nat): seq<Violation>
    requires n <= |groups|
  {
    if n == 0 then [] else
    var group := groups[n - 1].value;
    Reports(groups, n - 1) + if Futile(group) then [Violation(group[0].tool, group[0].args, |group|)] else []
  }

  function Flagged(calls: seq<Call>): seq<Violation> {
    var groups := Grouped(calls, |calls|);
    Reports(groups, |groups|)
  }

  method FindDuplicateActions(calls: seq<Call>) returns (violations: seq<Violation>)
    ensures violations == Flagged(calls)
  {
    var groups: Groups := [];
    for i := 0 to |calls|
      invariant groups == Grouped(calls, i)
    {
      var key := KeyOf(calls[i]);
      var list := Find(groups, key);
      groups := Put(groups, key, (if list.Some? then list.value else []) + [calls[i]]);
    }
    violations := [];
    for i := 0 to |groups|
      invariant violations == Reports(groups, i)
    {
      var group := groups[i].value;
      if |group| < 2 { continue; }
      var allIdentical := true;
      for j := 0 to |group|
        invariant allIdentical <==>
          forall k :: 0 <= k < j ==> StableStringify(group[k].observation) == StableStringify(group[0].observation)
      {
        allIdentical := allIdentical && StableStringify(group[j].observation) == StableStringify(group[0].observation);
      }
      if allIdentical {
        violations := violations + [Violation(group[0].tool, group[0].args, |group|)];
      }
    }
  }

  // ---- What the groups are ----

  /** The calls among the first `n` with a key, in order. */
  function Chosen(calls: seq<Call>, n: nat, key: Text): seq<Call>
    requires n <= |calls|
  {
    if n == 0 then []
    else Chosen(calls, n - 1, key) + if KeyOf(calls[n - 1]) == key then [calls[n - 1]] else []
  }

  lemma {:induction false} GroupedIs(calls: seq<Call>, n: nat, key: Text)
    requires n <= |calls|
    ensures Find(Grouped(calls, n), key)
      == if Chosen(calls, n, key) == [] then None else Some(Chosen(calls, n, key))
  {
    if n > 0 {
      GroupedIs(calls, n - 1, key);
      var groups, call := Grouped(calls, n - 1), calls[n - 1];
      var list := Find(groups, KeyOf(call));
      PutFinds(groups, KeyOf(call), (if list.Some? then list.value else []) + [call], key);
      var before := Chosen(calls, n - 1, key);
      assert before + [] == before && Chosen(calls, n, key) == before + (if KeyOf(call) == key then [call] else []);
    }
  }

  lemma {:induction false} GroupedUnique(calls: seq<Call>, n: nat)
    requires n <= |calls|
    ensures Unique(Grouped(calls, n))
  {
    if n > 0 {
      GroupedUnique(calls, n - 1);
      var key := KeyOf(calls[n - 1]);
      var list := Find(Grouped(calls, n), key);
      var before := Find(Grouped(calls, n - 1), key);
      PutUnique(Grouped(calls, n - 1), key, (if before.Some? then before.value else []) + [calls[n - 1]]);
    }
  }

  lemma {:induction false} ReportsAre(groups: Groups, n: nat)
    requires n <= |groups|
    ensures forall v :: v in Reports(groups, n) <==>
      exists i :: 0 <= i < n && Futile(groups[i].value) && v == Verdict(groups[i].value)
  {
    if n > 0 { ReportsAre(groups, n - 1); }
  }

  function Verdict(group: seq<Call>): Violation
    requires Futile(group)
  {
    Violation(group[0].tool, group[0].args, |group|)
  }

  /** A key is reported when its calls are futile. */
  lemma {:induction false} ReportedKeys(calls: seq<Call>, v: Violation)
    ensures v in Flagged(calls) <==>
      exists key :: Futile(Chosen(calls, |calls|, key)) && v == Verdict(Chosen(calls, |calls|, key))
  {
    var groups := Grouped(calls, |calls|);
    GroupedUnique(calls, |calls|);
    ReportsAre(groups, |groups|);
    if v in Flagged(calls) {
      var i :| 0 <= i < |groups| && Futile(groups[i].value) && v == Verdict(groups[i].value);
      FindMeaning(groups, groups[i].key);
      GroupedIs(calls, |calls|, groups[i].key);
      assert Futile(Chosen(calls, |calls|, groups[i].key));
    }
    if key :| Futile(Chosen(calls, |calls|, key)) && v == Verdict(Chosen(calls, |calls|, key)) {
      GroupedIs(calls, |calls|, key);
      FindMeaning(groups, key);
      var i :| 0 <= i < |groups| && groups[i].key == key;
      assert groups[i].value == Chosen(calls, |calls|, key);
    }
  }

  // ---- Keys and printed observations tell apart what they should ----

  ghost predicate Clean(c: Call) {
    WellFormed(c.args) && WellFormed(c.observation)
  }

  /** The same tool with arguments that differ at most in the order of fields. */
  ghost predicate SameAction(c: Call, d: Call) {
    c.tool == d.tool && Alike(StableTree(c.args), StableTree(d.args))
  }

  ghost predicate SameAnswer(c: Call, d: Call) {
    Alike(StableTree(c.observation), StableTree(d.observation))
  }

  lemma {:induction false} StableTextPasses(x: Json)
    requires WellFormed(x)
    ensures Passes(InTemplate(StableStringify(x)))
  {
    StableText(x);
    StableReadable(x);
    OrderedReadable(false, StableTree(x));
    PrintedPasses(Ordered(false, StableTree(x)));
  }

  /** Two calls have the same key exactly when they are the same action, whatever the tools are called. */
  lemma {:induction false} KeysAgree(c: Call, d: Call)
    requires Clean(c) && Clean(d)
    ensures KeyOf(c) == KeyOf(d) <==> SameAction(c, d)
  {
    var x, y := InTemplate(StableStringify(c.args)), InTemplate(StableStringify(d.args));
    StableForm(c.args, d.args);
    if KeyOf(c) == KeyOf(d) {
      Sequences.Assoc(c.tool, [COLON, COLON], x);
      Sequences.Assoc(d.tool, [COLON, COLON], y);
      StableTextPasses(c.args);
      StableTextPasses(d.args);
      ColonsSplitOnce(c.tool, x, d.tool, y);
    }
  }

  lemma {:induction false} AnswersAgree(c: Call, d: Call)
    requires Clean(c) && Clean(d)
    ensures StableStringify(c.observation) == StableStringify(d.observation) <==> SameAnswer(c, d)
  {
    StableForm(c.observation, d.observation);
    OnlyUndefinedPrintsSo(c.observation);
    OnlyUndefinedPrintsSo(d.observation);
  }

  lemma {:induction false} OnlyUndefinedPrintsSo(x: Json)
    requires WellFormed(x)
    ensures x.Undefined? <==> InTemplate(StableStringify(x)) == UNDEFINED
    ensures x.Undefined? <==> StableStringify(x).None?
  {
    StableForm(x, Undefined);
    match x
    case Num(w) => assert w[0] != UNDEFINED[0];
    case Null => assert NULL[0] != UNDEFINED[0];
    case Bool(b) => assert BoolWord(b)[0] != UNDEFINED[0];
    case _ =>
  }

  // ---- What is flagged ----

  ghost function Occurrences(calls: seq<Call>, n: nat, c: Call): nat
    requires n <= |calls|
  {
    if n == 0 then 0 else Occurrences(calls, n - 1, c) + if SameAction(calls[n - 1], c) then 1 else 0
  }

  ghost predicate OneAnswer(calls: seq<Call>, c: Call) {
    forall d, e :: d in calls && e in calls && SameAction(d, c) && SameAction(e, c) ==> SameAnswer(d, e)
  }

  ghost predicate AllClean(calls: seq<Call>) { forall d :: d in calls ==> Clean(d) }

  ghost predicate About(v: Violation, c: Call) {
    v.tool == c.tool && Alike(StableTree(v.args), StableTree(c.args))
  }

  ghost predicate Flags(calls: seq<Call>, c: Call) {
    exists v :: v in Flagged(calls) && About(v, c)
  }

  lemma {:induction false} ChosenMembers(calls: seq<Call>, n: nat, key: Text)
    requires n <= |calls|
    ensures forall d :: d in Chosen(calls, n, key) <==> d in calls[..n] && KeyOf(d) == key
  {
    if n > 0 {
      ChosenMembers(calls, n - 1, key);
      var last := calls[n - 1];
      assert calls[..n] == calls[..n - 1] + [last];
      assert forall d :: d in Chosen(calls, n, key) <==> d in Chosen(calls, n - 1, key) || (d == last && KeyOf(last) == key);
    }
  }

  lemma {:induction false} ChosenCounts(calls: seq<Call>, n: nat, c: Call)
    requires n <= |calls| && AllClean(calls) && Clean(c)
    ensures |Chosen(calls, n, KeyOf(c))| == Occurrences(calls, n, c)
  {
    if n > 0 {
      assert calls[n - 1] in calls;
      ChosenCounts(calls, n - 1, c);
      KeysAgree(calls[n - 1], c);
    }
  }

  lemma {:induction false} FutileMeans(calls: seq<Call>, c: Call)
    requires AllClean(calls) && Clean(c)
    ensures Futile(Chosen(calls, |calls|, KeyOf(c))) <==> Occurrences(calls, |calls|, c) >= 2 && OneAnswer(calls, c)
  {
    var group := Chosen(calls, |calls|, KeyOf(c));
    ChosenCounts(calls, |calls|, c);
    assert calls[..|calls|] == calls;
    ChosenMembers(calls, |calls|, KeyOf(c));
    forall d | d in calls ensures d in group <==> SameAction(d, c) { KeysAgree(d, c); }
    forall d, e | d in group && e in group
      ensures StableStringify(d.observation) == StableStringify(e.observation) <==> SameAnswer(d, e)
    {
      AnswersAgree(d, e);
    }
    if OneAnswer(calls, c) {
      forall i | 0 <= i < |group| ensures SameAnswer(group[i], group[0]) {
        assert group[i] in group && group[0] in group;
      }
    }
    if Futile(group) {
      forall d, e | d in calls && e in calls && SameAction(d, c) && SameAction(e, c) ensures SameAnswer(d, e) {
        var i :| 0 <= i < |group| && group[i] == d;
        var j :| 0 <= j < |group| && group[j] == e;
      }
    }
  }

  lemma {:induction false} FlagsIsFutile(calls: seq<Call>, c: Call)
    requires AllClean(calls) && Clean(c)
    ensures Flags(calls, c) <==> Futile(Chosen(calls, |calls|, KeyOf(c)))
  {
    var n := |calls|;
    assert calls[..n] == calls;
    if v :| v in Flagged(calls) && About(v, c) {
      ReportedKeys(calls, v);
      var key :| Futile(Chosen(calls, n, key)) && v == Verdict(Chosen(calls, n, key));
      var first := Chosen(calls, n, key)[0];
      ChosenMembers(calls, n, key);
      assert first in Chosen(calls, n, key);
      KeysAgree(first, c);
    }
    if Futile(Chosen(calls, n, KeyOf(c))) {
      var group := Chosen(calls, n, KeyOf(c));
      ReportedKeys(calls, Verdict(group));
      ChosenMembers(calls, n, KeyOf(c));
      assert group[0] in group;
      KeysAgree(group[0], c);
      assert About(Verdict(group), c);
    }
  }

  /** An action is flagged exactly when it occurs twice or more and all its observations agree. */
  lemma {:induction false} FlaggedExactly(calls: seq<Call>, c: Call)
    requires AllClean(calls) && Clean(c)
    ensures Flags(calls, c) <==> Occurrences(calls, |calls|, c) >= 2 && OneAnswer(calls, c)
  {
    FlagsIsFutile(calls, c);
    FutileMeans(calls, c);
  }

  /** Once an action has given two different observations, no longer history flags it. */
  lemma {:induction false} NeverFlaggedAgain(calls: seq<Call>, later: seq<Call>, d: Call, e: Call)
    requires AllClean(calls) && AllClean(later) && d in calls && e in calls
    requires SameAction(e, d) && !SameAnswer(d, e)
    ensures !Flags(calls + later, d)
  {
    var all := calls + later;
    assert SameAction(d, d) by { KeysAgree(d, d); }
    assert d in all && e in all;
    FlaggedExactly(all, d);
  }

  ghost predicate Describes(v: Violation, calls: seq<Call>, i: nat)
    requires i < |calls|
  {
    && v.tool == calls[i].tool && v.args == calls[i].args
    && v.occurrences == Occurrences(calls, |calls|, calls[i])
    && Occurrences(calls, i, calls[i]) == 0
  }

  /** Each report names the first call of its action and counts all of them. */
  lemma {:induction false} ReportNamesFirst(calls: seq<Call>, v: Violation)
    requires AllClean(calls) && v in Flagged(calls)
    ensures exists i :: 0 <= i < |calls| && Describes(v, calls, i)
  {
    ReportedKeys(calls, v);
    var key :| Futile(Chosen(calls, |calls|, key)) && v == Verdict(Chosen(calls, |calls|, key));
    var i := FirstChosen(calls, |calls|, key);
    FirstDescribes(calls, key, i, v, Chosen(calls, |calls|, key));
  }

  lemma {:induction false} FirstDescribes(calls: seq<Call>, key: Text, i: nat, v: Violation, group: seq<Call>)
    requires AllClean(calls) && i < |calls| && KeyOf(calls[i]) == key && Chosen(calls, i, key) == []
    requires group == Chosen(calls, |calls|, key) && group != [] && group[0] == calls[i]
    requires v == Violation(group[0].tool, group[0].args, |group|)
    ensures Describes(v, calls, i)
  {
    assert calls[i] in calls;
    ChosenCounts(calls, |calls|, calls[i]);
    ChosenCounts(calls, i, calls[i]);
  }

  lemma {:induction false} FirstChosen(calls: seq<Call>, n: nat, key: Text) returns (i: nat)
    requires n <= |calls| && Chosen(calls, n, key) != []
    ensures i < n && Chosen(calls, n, key)[0] == calls[i] && KeyOf(calls[i]) == key && Chosen(calls, i, key) == []
  {
    i := n - 1;
    if Chosen(calls, i, key) == [] {
      ChosenLast(calls, n, key);
    } else {
      var before := Chosen(calls, i, key);
      assert Chosen(calls, n, key)[0] == before[0];
      i := FirstChosen(calls, i, key);
    }
  }

  lemma {:induction false} ChosenLast(calls: seq<Call>, n: nat, key: Text)
    requires 0 < n <= |calls| && Chosen(calls, n, key) != [] && Chosen(calls, n - 1, key) == []
    ensures KeyOf(calls[n - 1]) == key && Chosen(calls, n, key) == [calls[n - 1]]
  {}

  // ---- No action is reported twice ----

  function ReportKey(v: Violation): Text { KeyOf(Call(v.tool, v.args, Null)) }

  /** Report `i` comes from the group at `SourceOf(groups, n, i)`. */
  function SourceOf(groups: Groups, n: nat, i: nat): (p: nat)
    requires n <= |groups| && i < |Reports(groups, n)|
    ensures p < n && Futile(groups[p].value) && Reports(groups, n)[i] == Verdict(groups[p].value)
  {
    if i < |Reports(groups, n - 1)| then SourceOf(groups, n - 1, i) else n - 1
  }

  lemma {:induction false} SourcesDiffer(groups: Groups, n: nat, i: nat, j: nat)
    requires n <= |groups| && i < j < |Reports(groups, n)|
    ensures SourceOf(groups, n, i) < SourceOf(groups, n, j)
  {
    if j < |Reports(groups, n - 1)| { SourcesDiffer(groups, n - 1, i, j); }
  }

  lemma {:induction false} GroupHead(calls: seq<Call>, groups: Groups, p: nat)
    requires groups == Grouped(calls, |calls|) && p < |groups| && groups[p].value != []
    ensures groups[p].value[0] in calls && KeyOf(groups[p].value[0]) == groups[p].key
  {
    GroupedUnique(calls, |calls|);
    var key := groups[p].key;
    FindMeaning(groups, key);
    GroupedIs(calls, |calls|, key);
    ChosenMembers(calls, |calls|, key);
    assert groups[p].value[0] in groups[p].value;
  }

  lemma {:induction false} SourceHasKey(calls: seq<Call>, groups: Groups, i: nat, p: nat)
    requires groups == Grouped(calls, |calls|) && i < |Flagged(calls)| && p == SourceOf(groups, |groups|, i)
    requires AllClean(calls)
    ensures ReportKey(Flagged(calls)[i]) == groups[p].key && WellFormed(Flagged(calls)[i].args)
  {
    GroupHead(calls, groups, p);
    assert Clean(groups[p].value[0]);
  }

  lemma {:induction false} OneReportEach(calls: seq<Call>, i: nat, j: nat)
    requires AllClean(calls) && i < j < |Flagged(calls)|
    ensures var v, w := Flagged(calls)[i], Flagged(calls)[j];
      v.tool != w.tool || !Alike(StableTree(v.args), StableTree(w.args))
  {
    var groups := Grouped(calls, |calls|);
    var p, q := SourceOf(groups, |groups|, i), SourceOf(groups, |groups|, j);
    SourceHasKey(calls, groups, i, p);
    SourceHasKey(calls, groups, j, q);
    SourcesDiffer(groups, |groups|, i, j);
    GroupedUnique(calls, |calls|);
    var v, w := Flagged(calls)[i], Flagged(calls)[j];
    KeysAgree(Call(v.tool, v.args, Null), Call(w.tool, w.args, Null));
  }
}
