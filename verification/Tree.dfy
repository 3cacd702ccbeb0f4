/** Instances started by other instances: subagents and phases. */
module Tree {
  import opened Prelude
  import opened Conversation
  import opened Accounting
  import opened TruncationGuard
  import opened Compaction
  import opened Rounds
  import opened AgentWorld
  import opened Settings
  import opened Prompts
  import opened Subagents
  import opened Services
  import opened LoopTrace
  import opened Ledger
  import opened Hiding
  import Sequences

  /** What starting some instances adds to a record. */
  function Begun(kids: seq<Kid>): Record { NEW.(started := kids) }

  /** A child that has run, and what its parent has done by starting it. */
  lemma {:induction false} KidMade(e: Env, o: Options, p: Options, id: nat, s: Snap, child: Snap, k: Kid)
    requires id < |s.logs| && k.id == |s.logs| && k.single == p.singlePhase && (p == o || p == o.(singlePhase := true))
    requires Done(e, p, k.id, Born(s), child, k.trace.sent, k.answer.Some?)
    requires Ended(JobOf(e, p, k.task, k.suppress), k.trace, k.answer) && Frugal(k.trace.sent)
    requires SelfChecked(e, p, [], None, k.trace.rounds, k.trace.served)
    requires Nudges(k.trace.rounds) <= (Max(1, p.maxIterations) + 2) / 3
    ensures Done(e, o, id, s, Absorbing(s, child, id, k), Started(k), k.answer.Some?)
    ensures Alone(Born(s), child, k.trace.sent) ==> s.budget - child.budget <= Size(k.trace.sent)
    ensures id < |child.logs|
  {
    EndedWithin(JobOf(e, p, k.task, k.suppress), k.trace, k.answer);
    DoneParts(e, p, k.id, Born(s), child, k.trace.sent, k.answer.Some?);
    ThenNew(k.trace.sent);
    assert Born(s).logs[k.id] == NEW && p == o.(singlePhase := k.single);
    ChildDone(e, o, p, id, s, child, k);
    if Alone(Born(s), child, k.trace.sent) { AloneMeans(Born(s), child, k.trace.sent); }
  }

  // ---- Turns ----

  /** What the calls of a response up to the `k`th have done. Passed on whole. */
  ghost predicate Turning(e: Env, o: Options, id: nat, a: Snap, b: Snap, d: Record, r: Response, k: nat, ok: bool) {
    forall n: nat :: Shown(n) ==>
      Done(e, o, id, a, b, d, ok) && Side(d) && FrugalTo(d, r, k) && (NoChildren(e) ==> Alone(a, b, d))
  }

  lemma {:induction false} TurnStarts(e: Env, o: Options, id: nat, a: Snap, r: Response)
    requires id < |a.logs|
    ensures Turning(e, o, id, a, a, NEW, r, 0, true)
  {
    NothingDone(e, o, id, a);
    FrugalStart(r);
  }

  lemma {:induction false} OneMoreCall(e: Env, o: Options, id: nat, a: Snap, b: Snap, c: Snap, d: Record, f: Record, r: Response, k: nat, pos: nat, ok: bool)
    requires Turning(e, o, id, a, b, d, r, k, true) && Done(e, o, id, b, c, f, ok) && Side(f) && (NoChildren(e) ==> Alone(b, c, f))
    requires k < |Safe(r)| && pos == Safe(r)[k] && pos < |r.calls|
    requires |f.started| <= if r.calls[pos].name == "subagent_tool" then 2 else 0
    ensures Turning(e, o, id, a, c, Then(d, f), r, k + 1, ok)
    ensures Then(d, f).partial == [] <==> d.partial == [] && f.partial == []
  {
    assert Shown(0);
    DoneOn(e, o, id, a, b, c, d, f, ok);
    SideThen(d, f);
    FrugalCall(d, f, r, k, pos);
  }

  lemma {:induction false} TurnMeans(e: Env, o: Options, id: nat, a: Snap, b: Snap, d: Record, r: Response, k: nat, ok: bool)
    requires Turning(e, o, id, a, b, d, r, k, ok)
    ensures Done(e, o, id, a, b, d, ok) && Side(d) && (NoChildren(e) ==> Alone(a, b, d)) && |d.started| <= 2 * DelegatedIn(r)
  {
    assert Shown(0);
    FrugalEnd(d, r, k);
  }

  /** A turn under way: the history, what was served and what was done, after the calls that gave `contents`. Passed on
      whole. */
  ghost predicate Midturn(j: Job, id: nat, a: Snap, b: Snap, h: History, r: Response, contents: seq<string>, ss: seq<Served>, g: History) {
    forall n: nat :: Shown(n) ==> TurnSoFar(j, id, a, b, h, r, contents, ss, g)
  }

  ghost predicate TurnSoFar(j: Job, id: nat, a: Snap, b: Snap, h: History, r: Response, contents: seq<string>, ss: seq<Served>, g: History) {
    var o := Opened(j.env.codec, h, r);
    && |ss| == |contents| <= |Safe(r)| && AreCalls(o, |h|, Safe(r)) && o[|h|].calls == r.calls
    && Dispatched(j.env.codec, j.opts.fullContextToken, o, |h|, Safe(r), contents, g)
    && ResponseServed(j, h, r, contents, ss)
    && Turning(j.env, j.opts, id, a, b, Sides(ss), r, |contents|, true)
  }

  /** A turn over, or cut short: what it did and how its calls were served. */
  ghost predicate TurnOver(j: Job, id: nat, a: Snap, b: Snap, h: History, r: Response, contents: seq<string>, ss: seq<Served>, ok: bool) {
    && Done(j.env, j.opts, id, a, b, Sides(ss), ok) && Side(Sides(ss)) && (NoChildren(j.env) ==> Alone(a, b, Sides(ss)))
    && ResponseServed(j, h, r, contents, ss) && |Sides(ss).started| <= 2 * DelegatedIn(r)
  }

  lemma {:induction false} TurnBegins(j: Job, id: nat, a: Snap, h: History, r: Response)
    requires Sound(j.env.codec) && id < |a.logs|
    ensures Midturn(j, id, a, a, h, r, [], [], Opened(j.env.codec, h, r)) && Sides([]) == NEW
  {
    OpenedCalls(j.env.codec, h, r);
    NothingServed(j, Opened(j.env.codec, h, r), |h|, Safe(r));
    TurnStarts(j.env, j.opts, id, a, r);
    StartDispatch(j.env.codec, j.opts.fullContextToken, Opened(j.env.codec, h, r), |h|, Safe(r));
  }

  /** The next call is there, under the name the model gave it. */
  lemma {:induction false} TurnGoesOn(j: Job, id: nat, a: Snap, b: Snap, h: History, r: Response, contents: seq<string>, ss: seq<Served>, g: History, pos: nat)
    requires Midturn(j, id, a, b, h, r, contents, ss, g) && |contents| < |Safe(r)| && pos == Safe(r)[|contents|]
    ensures pos < |r.calls| && IsCall(g, |h|, pos) && g[|h|].calls[pos].name == r.calls[pos].name
  {
    assert Shown(0);
    PositionsInRange(r);
    DispatchedCall(j.env.codec, j.opts.fullContextToken, Opened(j.env.codec, h, r), |h|, Safe(r), contents, g);
  }

  /** One more call, in the record, among those served, and in the history unless it threw. */
  lemma {:induction false} CallAdded(j: Job, id: nat, a: Snap, b: Snap, c: Snap, h: History, r: Response, pos: nat,
                                     was: seq<string>, before: seq<Served>, g: History, g': History,
                                     s: Served, ok: bool, content: string, contents: seq<string>, ss: seq<Served>)
    requires Midturn(j, id, a, b, h, r, was, before, g) && |was| < |Safe(r)| && pos == Safe(r)[|was|] < |r.calls|
    requires Done(j.env, j.opts, id, b, c, SideOf(s), ok) && Side(SideOf(s)) && (NoChildren(j.env) ==> Alone(b, c, SideOf(s)))
    requires |SideOf(s).started| <= if r.calls[pos].name == "subagent_tool" then 2 else 0
    requires CallServed(j.env, j.opts, j.task, g, |h|, pos, s, if ok then Some(content) else None)
    requires IsCall(g, |h|, pos) && (ok ==> g' == Step(j.env.codec, j.opts.fullContextToken, g, |h|, pos, content))
    requires contents == (if ok then was + [content] else was) && ss == before + [s]
    ensures ok ==> Midturn(j, id, a, c, h, r, contents, ss, g')
    ensures !ok ==> TurnOver(j, id, a, c, h, r, contents, ss, false)
    ensures Sides(ss).partial == [] <==> Sides(before).partial == [] && SideOf(s).partial == []
  {
    TurnParts(j, id, a, b, h, r, was, before, g);
    var o := Opened(j.env.codec, h, r);
    SidesPush(before, s);
    OneMoreCall(j.env, j.opts, id, a, b, c, Sides(before), SideOf(s), r, |was|, pos, ok);
    OneMoreServed(j, o, |h|, Safe(r), was, before, g, s, ok, content, contents);
    if ok {
      DispatchedMore(j.env.codec, j.opts.fullContextToken, o, |h|, Safe(r), was, g, content, g');
      PartsOfTurn(j, id, a, c, h, r, contents, ss, g');
    } else {
      TurnMeans(j.env, j.opts, id, a, c, Sides(ss), r, |was| + 1, false);
    }
  }

  lemma {:induction false} TurnParts(j: Job, id: nat, a: Snap, b: Snap, h: History, r: Response, contents: seq<string>, ss: seq<Served>, g: History)
    requires Midturn(j, id, a, b, h, r, contents, ss, g)
    ensures TurnSoFar(j, id, a, b, h, r, contents, ss, g)
  {
    assert Shown(0);
  }

  lemma {:induction false} PartsOfTurn(j: Job, id: nat, a: Snap, b: Snap, h: History, r: Response, contents: seq<string>, ss: seq<Served>, g: History)
    requires TurnSoFar(j, id, a, b, h, r, contents, ss, g)
    ensures Midturn(j, id, a, b, h, r, contents, ss, g)
  {}

  lemma {:induction false} TurnEnds(j: Job, id: nat, a: Snap, b: Snap, h: History, r: Response, contents: seq<string>, ss: seq<Served>, g: History)
    requires Midturn(j, id, a, b, h, r, contents, ss, g) && |contents| == |Safe(r)|
    ensures TurnOver(j, id, a, b, h, r, contents, ss, true) && |ss| == |contents|
    ensures Plays(j.env.codec, j.opts.fullContextToken, h, Round(r, contents, []), g)
  {
    TurnParts(j, id, a, b, h, r, contents, ss, g);
    TurnMeans(j.env, j.opts, id, a, b, Sides(ss), r, |contents|, true);
    DispatchEnds(j.env.codec, j.opts.fullContextToken, h, r, contents, g);
  }

  // ---- Subagents ----

  /** Whether a stopped subagent is continued, and the record of having asked. */
  predicate Consulted(o: Options, asked: Record, yes: bool) {
    asked == (if NeverAsks(o) then NEW else Asked(Child, yes)) && (NeverAsks(o) ==> yes)
  }

  lemma {:induction false} ConsultedMeans(o: Options, asked: Record, yes: bool)
    requires Consulted(o, asked, yes)
    ensures Side(asked) && OnlyAsked(asked) && asked.partial == [] && (NeverAsks(o) ==> asked.children == [])
    ensures WentOn(o, asked) <==> yes
    ensures Then(asked, NEW) == asked
  {
    ThenNew(asked);
    if !NeverAsks(o) { assert asked.children == [yes]; }
  }

  /** A report on a subagent that is not continued. */
  lemma {:induction false} ReportAdds(o: Options, asked: Record, x: Exchange)
    requires Consulted(o, asked, false)
    ensures var d := Then(asked, Sent(Partial, x));
      Side(d) && d.children == [false] && d.partial == [x] && d.started == [] && !WentOn(o, d)
  {
    SideAdds(asked, Sent(Partial, x));
    assert [false] + [] == [false] && [] + [x] == [x];
  }

  lemma {:induction false} GoneOn(e: Env, o: Options, id: nat, a: Snap, c: Snap, asked: Record, task: string, args: string, h: History,
                                  one: SubagentResult, second: seq<Kid>, two: Option<SubagentResult>)
    requires id < |a.logs| && Consulted(o, asked, true) && Done(e, o, id, Questioned(a, id, asked), c, Begun(second), two.Some?)
    requires Gave(e, o, e.again(args, one), second, two)
    ensures var d := Then(asked, Begun(second));
      && Done(e, o, id, a, c, d, two.Some?) && Side(d) && d.partial == [] && d.started == second && d.uses == []
      && Handled(e, o, task, args, h, one, Delegation([], None, second, two), d, if two.Some? then Some(e.tell(two.value)) else None)
  {
    ConsultedMeans(o, asked, true);
    QuestionDone(e, o, id, a, asked);
    DoneOn(e, o, id, a, Questioned(a, id, asked), c, asked, Begun(second), two.Some?);
    SideAdds(asked, Begun(second));
    assert asked.children + [] == asked.children && [] + second == second;
  }

  lemma {:induction false} ReportedOn(e: Env, o: Options, id: nat, a: Snap, asked: Record, task: string, args: string, h: History, one: SubagentResult, x: Exchange)
    requires id < |a.logs| && Consulted(o, asked, false) && Fair(e, a.budget, x) && x.prompt == ReportPrompt(e, task, h)
    ensures var d := Then(asked, Sent(Partial, x));
      && Done(e, o, id, a, Requested(Questioned(a, id, asked), id, Partial, x), d, true)
      && Side(d) && d.partial == [x] && d.started == [] && d.uses == []
      && Handled(e, o, task, args, h, one, Delegation([], None, [], None), d,
                 Some(e.tell(SubagentResult(Partly, PartialText(e, task, h, x), one.iterations))))
  {
    var b := Questioned(a, id, asked);
    ConsultedMeans(o, asked, false);
    QuestionDone(e, o, id, a, asked);
    RequestDone(e, o, id, b, Partial, x, true);
    DoneOn(e, o, id, a, b, Requested(b, id, Partial, x), asked, Sent(Partial, x), true);
    ReportAdds(o, asked, x);
  }

  lemma {:induction false} StartedFirst(o: Options, kids: seq<Kid>, d: Record)
    requires Side(d)
    ensures var f := Then(Begun(kids), d);
      && Side(f) && f.children == d.children && f.partial == d.partial && f.started == kids + d.started
      && (WentOn(o, f) <==> WentOn(o, d))
  {
    SideAdds(Begun(kids), d);
    assert [] + d.children == d.children && [] + d.partial == d.partial;
  }

  // ---- Phases ----

  function TextOf(x: Exchange): string { if x.reply.Some? then x.reply.value.response.content else "" }

  function Summary(e: Env, phase: string, x: Exchange): string { e.write("phase summary", [], [phase, TextOf(x)]) }

  /** What the phase after the first `n` is told of those before it. */
  function Accumulated(e: Env, phases: seq<string>, summaries: seq<Exchange>, n: nat): string
    requires n <= |phases| && n <= |summaries|
  {
    if n == 0 then "" else Accumulated(e, phases, summaries, n - 1) + Summary(e, phases[n - 1], summaries[n - 1])
  }

  function PhaseTask(e: Env, phase: string, accumulated: string): string { e.write("phase", [], [phase, accumulated]) }

  predicate PhaseRan(e: Env, phases: seq<string>, summaries: seq<Exchange>, i: nat, k: Kid)
    requires i < |phases|
  {
    i <= |summaries| && k.task == PhaseTask(e, phases[i], Accumulated(e, phases, summaries, i))
  }

  predicate PhaseSummed(e: Env, phase: string, k: Kid, x: Exchange) {
    k.answer.Some? && x.prompt == SummaryPrompt(e, phase, k.answer.value)
  }

  /** Each phase in turn, told the summaries of those before it, and summed up from its own answer: `InTurn`, passed
      on whole. */
  ghost predicate PhasesRan(e: Env, phases: seq<string>, summaries: seq<Exchange>, kids: seq<Kid>) {
    |summaries| <= |kids| <= |phases| && forall n: nat :: Shown(n) ==> InTurn(e, phases, summaries, kids)
  }

  ghost predicate InTurn(e: Env, phases: seq<string>, summaries: seq<Exchange>, kids: seq<Kid>)
    requires |summaries| <= |kids| <= |phases|
  {
    AllRan(e, phases, summaries, kids) && AllSummed(e, phases, summaries, kids)
  }

  ghost predicate AllRan(e: Env, phases: seq<string>, summaries: seq<Exchange>, kids: seq<Kid>) {
    |kids| <= |phases| && forall i :: 0 <= i < |kids| ==> PhaseRan(e, phases, summaries, i, kids[i])
  }

  ghost predicate AllSummed(e: Env, phases: seq<string>, summaries: seq<Exchange>, kids: seq<Kid>) {
    |summaries| <= |phases| && |summaries| <= |kids|
    && forall i :: 0 <= i < |summaries| ==> PhaseSummed(e, phases[i], kids[i], summaries[i])
  }

  lemma {:induction false} AccumulatedPrefix(e: Env, phases: seq<string>, summaries: seq<Exchange>, x: Exchange, n: nat)
    requires n <= |phases| && n <= |summaries|
    ensures Accumulated(e, phases, summaries + [x], n) == Accumulated(e, phases, summaries, n)
  {
    if n > 0 { AccumulatedPrefix(e, phases, summaries, x, n - 1); }
  }

  lemma {:induction false} OneMoreRan(e: Env, phases: seq<string>, summaries: seq<Exchange>, kids: seq<Kid>, k: Kid)
    requires AllRan(e, phases, summaries, kids) && |kids| < |phases| && PhaseRan(e, phases, summaries, |kids|, k)
    ensures AllRan(e, phases, summaries, kids + [k])
  {
    forall i | 0 <= i < |kids| + 1 ensures PhaseRan(e, phases, summaries, i, (kids + [k])[i]) {
      if i < |kids| { assert PhaseRan(e, phases, summaries, i, kids[i]); }
    }
  }

  lemma {:induction false} StillSummed(e: Env, phases: seq<string>, summaries: seq<Exchange>, kids: seq<Kid>, k: Kid)
    requires AllSummed(e, phases, summaries, kids)
    ensures AllSummed(e, phases, summaries, kids + [k])
  {
    forall i | 0 <= i < |summaries| ensures PhaseSummed(e, phases[i], (kids + [k])[i], summaries[i]) {
      assert PhaseSummed(e, phases[i], kids[i], summaries[i]);
    }
  }

  lemma {:induction false} OnePhaseMore(e: Env, phases: seq<string>, summaries: seq<Exchange>, kids: seq<Kid>, k: Kid)
    requires PhasesRan(e, phases, summaries, kids) && |summaries| == |kids| < |phases|
    requires PhaseRan(e, phases, summaries, |kids|, k)
    ensures PhasesRan(e, phases, summaries, kids + [k])
  {
    assert Shown(0);
    OneMoreRan(e, phases, summaries, kids, k);
    StillSummed(e, phases, summaries, kids, k);
  }

  lemma {:induction false} AccumulatedNext(e: Env, phases: seq<string>, summaries: seq<Exchange>, x: Exchange, more: seq<Exchange>)
    requires |summaries| < |phases| && more == summaries + [x]
    ensures Accumulated(e, phases, more, |more|)
      == Accumulated(e, phases, summaries, |summaries|) + Summary(e, phases[|summaries|], x)
  {
    AccumulatedPrefix(e, phases, summaries, x, |summaries|);
  }

  lemma {:induction false} StillRan(e: Env, phases: seq<string>, summaries: seq<Exchange>, x: Exchange, i: nat, k: Kid)
    requires i < |phases| && PhaseRan(e, phases, summaries, i, k)
    ensures PhaseRan(e, phases, summaries + [x], i, k)
  {
    AccumulatedPrefix(e, phases, summaries, x, i);
  }

  lemma {:induction false} OneSummaryMore(e: Env, phases: seq<string>, summaries: seq<Exchange>, kids: seq<Kid>, x: Exchange, more: seq<Exchange>)
    requires |summaries| + 1 == |kids| && more == summaries + [x] && PhasesRan(e, phases, summaries, kids)
    requires PhaseSummed(e, phases[|summaries|], kids[|summaries|], x)
    ensures PhasesRan(e, phases, more, kids)
  {
    assert Shown(0);
    assert InTurn(e, phases, summaries, kids);
    forall i | 0 <= i < |kids| ensures PhaseRan(e, phases, more, i, kids[i]) {
      StillRan(e, phases, summaries, x, i, kids[i]);
    }
    forall i | 0 <= i < |more| ensures PhaseSummed(e, phases[i], kids[i], more[i]) {
      if i < |summaries| { assert PhaseSummed(e, phases[i], kids[i], summaries[i]); }
    }
  }

  lemma {:induction false} NoPhasesYet(e: Env, phases: seq<string>)
    ensures PhasesRan(e, phases, [], [])
  {}

  /** A phase, and its summary unless something threw. */
  lemma {:induction false} NextPhase(e: Env, phases: seq<string>, before: Record, kids: seq<Kid>, accumulated: string, k: Kid, f: Record)
    requires OnlyPlans(before) && before.plans == [] && OnlyPlans(f) && f.plans == []
    requires PhasesRan(e, phases, before.plan, kids) && |before.plan| == |kids| < |phases|
    requires accumulated == Accumulated(e, phases, before.plan, |kids|) && k.task == PhaseTask(e, phases[|kids|], accumulated)
    requires before.started == kids && f.started == [k]
    requires f.plan == [] || (|f.plan| == 1 && PhaseSummed(e, phases[|kids|], k, f.plan[0]))
    ensures var d := Then(before, f);
      && OnlyPlans(d) && d.plans == [] && d.plan == before.plan + f.plan && PhasesRan(e, phases, d.plan, kids + [k])
      && d.started == kids + [k]
      && (f.plan != [] ==> Accumulated(e, phases, d.plan, |kids| + 1) == accumulated + Summary(e, phases[|kids|], f.plan[0]))
  {
    PlansAdd(before, f);
    OnePhaseMore(e, phases, before.plan, kids, k);
    if f.plan == [] {
      assert before.plan + f.plan == before.plan;
    } else {
      assert f.plan == [f.plan[0]];
      AccumulatedNext(e, phases, before.plan, f.plan[0], before.plan + f.plan);
      OneSummaryMore(e, phases, before.plan, kids + [k], f.plan[0], before.plan + f.plan);
    }
  }

  /** All phases, and what is returned at the end; nothing when something threw. */
  ghost predicate Phased(e: Env, phases: seq<string>, summaries: seq<Exchange>, kids: seq<Kid>, r: Option<string>) {
    PhasesRan(e, phases, summaries, kids) && (r.Some? ==> SummedUp(e, phases, summaries, r.value))
  }

  predicate SummedUp(e: Env, phases: seq<string>, summaries: seq<Exchange>, text: string) {
    |summaries| == |phases| && text == e.write("phases done", [], [Accumulated(e, phases, summaries, |phases|)])
  }

  /** Instances that run as phases. Passed on whole. */
  ghost predicate AsPhases(kids: seq<Kid>, suppress: bool) {
    forall n: nat :: Shown(n) ==> forall i :: 0 <= i < |kids| ==> kids[i].single && kids[i].suppress == suppress
  }

  lemma {:induction false} NoPhaseKid(suppress: bool)
    ensures AsPhases([], suppress)
  {}

  lemma {:induction false} OnePhaseKid(kids: seq<Kid>, k: Kid, suppress: bool)
    requires AsPhases(kids, suppress) && k.single && k.suppress == suppress
    ensures AsPhases(kids + [k], suppress)
  {
    assert Shown(0);
  }

  predicate Unasking(o: Options) { o.auto || !o.interactive }

  /** The last plan put up for approval was turned down. */
  predicate TurnedDown(plans: seq<bool>) { plans != [] && !plans[|plans| - 1] }

  /** What planning in phases asked, started and returned: the whole task as one phase when there are none,
      nothing when they are turned down. Beyond the record this is `AsPlanned`, passed on whole. */
  ghost predicate PhasePlanned(e: Env, o: Options, task: string, d: Record, kids: seq<Kid>, r: Option<string>) {
    OnlyPlans(d) && d.started == kids && forall n: nat :: Shown(n) ==> AsPlanned(e, o, task, d, kids, r)
  }

  ghost predicate AsPlanned(e: Env, o: Options, task: string, d: Record, kids: seq<Kid>, r: Option<string>) {
    && d.plan != [] && d.plan[0].prompt == PhasePrompt(e, task)
    && (d.plans == [] || (|d.plans| == 1 && !Unasking(o)))
    && if d.plan[0].reply.None? then d.plans == [] && kids == [] && r == None
       else Followed(e, o, task, e.phasesOf(TextOf(d.plan[0])), d.plans, d.plan[1..], kids, r)
  }

  ghost predicate Followed(e: Env, o: Options, task: string, phases: seq<string>, plans: seq<bool>, summaries: seq<Exchange>, kids: seq<Kid>, r: Option<string>) {
    if phases == [] then plans == [] && summaries == [] && |kids| == 1 && kids[0].task == task && r == kids[0].answer
    else if plans == [false] then summaries == [] && kids == [] && r == Some(e.write("phase plan rejected", [], []))
    else (Unasking(o) || plans == [true]) && Phased(e, phases, summaries, kids, r)
  }

  /** No answer to the request for phases, or one without phases. */
  lemma {:induction false} PlannedAtOnce(e: Env, o: Options, task: string, x: Exchange, kids: seq<Kid>, r: Option<string>)
    requires x.prompt == PhasePrompt(e, task)
    requires if x.reply.None? then kids == [] && r == None
             else e.phasesOf(TextOf(x)) == [] && |kids| == 1 && kids[0].task == task && r == kids[0].answer
    ensures PhasePlanned(e, o, task, Then(Sent(Plan, x), Begun(kids)), kids, r)
    ensures !TurnedDown(Then(Sent(Plan, x), Begun(kids)).plans)
  {
    PlansAdd(Sent(Plan, x), Begun(kids));
    assert [x] + [] == [x] && [] + kids == kids;
  }

  /** The whole task as one phase. */
  lemma {:induction false} PlannedWhole(e: Env, o: Options, task: string, x: Exchange, k: Kid, suppress: bool)
    requires x.prompt == PhasePrompt(e, task) && x.reply.Some? && e.phasesOf(TextOf(x)) == []
    requires k.task == task && k.single && k.suppress == suppress
    ensures PhasePlanned(e, o, task, Then(Sent(Plan, x), Started(k)), [k], k.answer) && AsPhases([k], suppress)
    ensures !TurnedDown(Then(Sent(Plan, x), Started(k)).plans)
  {
    assert Started(k) == Begun([k]);
    PlannedAtOnce(e, o, task, x, [k], k.answer);
    NoPhaseKid(suppress);
    OnePhaseKid([], k, suppress);
    assert [] + [k] == [k];
  }

  /** After asking for approval, when it is asked for. */
  lemma {:induction false} PlansAsked(o: Options, x: Exchange, asked: Record, approved: bool)
    requires asked == if Unasking(o) then NEW else Asked(Approach, approved)
    ensures var d := Then(Sent(Plan, x), asked);
      OnlyPlans(d) && d.plan == [x] && d.started == [] && d.plans == if Unasking(o) then [] else [approved]
  {
    PlansAdd(Sent(Plan, x), asked);
  }

  lemma {:induction false} FollowedByNone(e: Env, o: Options, task: string, x: Exchange, d: Record)
    requires x.prompt == PhasePrompt(e, task) && x.reply.Some? && e.phasesOf(TextOf(x)) != [] && !Unasking(o)
    requires OnlyPlans(d) && d.plan == [x] && d.plans == [false] && d.started == []
    ensures PhasePlanned(e, o, task, d, [], Some(e.write("phase plan rejected", [], [])))
  {
    assert d.plan[0] == x && d.plan[1..] == [];
  }

  lemma {:induction false} PlannedRejected(e: Env, o: Options, task: string, x: Exchange, asked: Record, d: Record)
    requires x.prompt == PhasePrompt(e, task) && x.reply.Some? && e.phasesOf(TextOf(x)) != []
    requires !Unasking(o) && asked == Asked(Approach, false) && d == Then(Sent(Plan, x), asked)
    ensures PhasePlanned(e, o, task, d, [], Some(e.write("phase plan rejected", [], []))) && TurnedDown(d.plans)
  {
    PlansAsked(o, x, asked, false);
    FollowedByNone(e, o, task, x, d);
  }

  lemma {:induction false} PhasesAfter(x: Exchange, plans: seq<bool>, first: Record, f: Record, d: Record)
    requires OnlyPlans(first) && first.plan == [x] && first.plans == plans && first.started == []
    requires OnlyPlans(f) && f.plans == [] && d == Then(first, f)
    ensures OnlyPlans(d) && d.plan == [x] + f.plan && d.started == f.started && d.plans == plans
  {
    PlansAdd(first, f);
    assert [] + f.started == f.started && plans + [] == plans;
  }

  lemma {:induction false} PhasesAdd(o: Options, x: Exchange, asked: Record, f: Record)
    requires asked == (if Unasking(o) then NEW else Asked(Approach, true)) && OnlyPlans(f) && f.plans == []
    ensures var d := Then(Sent(Plan, x), Then(asked, f));
      && OnlyPlans(d) && d.plan == [x] + f.plan && d.started == f.started
      && d.plans == (if Unasking(o) then [] else [true]) && !TurnedDown(d.plans)
  {
    PlansAsked(o, x, asked, true);
    ThenAssoc(Sent(Plan, x), asked, f);
    PhasesAfter(x, if Unasking(o) then [] else [true], Then(Sent(Plan, x), asked), f, Then(Sent(Plan, x), Then(asked, f)));
  }

  lemma {:induction false} FollowedPhases(e: Env, o: Options, task: string, x: Exchange, d: Record, summaries: seq<Exchange>, kids: seq<Kid>, r: Option<string>)
    requires x.prompt == PhasePrompt(e, task) && x.reply.Some? && e.phasesOf(TextOf(x)) != []
    requires OnlyPlans(d) && d.plan != [] && d.plan[0] == x && d.plan[1..] == summaries && d.started == kids
    requires d.plans == if Unasking(o) then [] else [true]
    requires Phased(e, e.phasesOf(TextOf(x)), summaries, kids, r)
    ensures PhasePlanned(e, o, task, d, kids, r)
  {
    assert Followed(e, o, task, e.phasesOf(TextOf(x)), d.plans, summaries, kids, r);
  }

  lemma {:induction false} PlannedPhases(e: Env, o: Options, task: string, x: Exchange, asked: Record, f: Record, kids: seq<Kid>, r: Option<string>, d: Record)
    requires x.prompt == PhasePrompt(e, task) && x.reply.Some? && e.phasesOf(TextOf(x)) != []
    requires asked == if Unasking(o) then NEW else Asked(Approach, true)
    requires OnlyPlans(f) && f.plans == [] && f.started == kids && Phased(e, e.phasesOf(TextOf(x)), f.plan, kids, r)
    requires d == Then(Sent(Plan, x), Then(asked, f))
    ensures PhasePlanned(e, o, task, d, kids, r) && !TurnedDown(d.plans)
  {
    PhasesAdd(o, x, asked, f);
    assert ([x] + f.plan)[1..] == f.plan;
    FollowedPhases(e, o, task, x, d, f.plan, kids, r);
  }

  // ---- Plan mode ----

  /** Whether a plan is made first. */
  predicate ShouldPlan(e: Env, o: Options, task: string, skipPlanMode: bool) {
    !skipPlanMode && (o.planMode.Always? || (!o.planMode.Never? && e.skills(task) >= 2))
  }

  /** What plan mode added to the record: nothing, or a request for a plan and, when it was answered and someone is
      asked, the approval. */
  predicate PlannedFirst(e: Env, o: Options, task: string, skipPlanMode: bool, planned: Record) {
    if !ShouldPlan(e, o, task, skipPlanMode) then planned == NEW else
      && OnlyPlans(planned) && planned.started == []
      && |planned.plan| == 1 && planned.plan[0].prompt == PlanPrompt(e, task)
      && |planned.plans| == if planned.plan[0].reply.None? || Unasking(o) then 0 else 1
  }

  /** Neither thrown nor turned down. */
  predicate Proceeds(planned: Record) { (planned.plan == [] || planned.plan[0].reply.Some?) && !TurnedDown(planned.plans) }

  // ---- Runs ----

  /** A run with a loop of its own, beginning with these scores and this last nudge. Passed on whole. */
  ghost predicate RanLoop(j: Job, t: Trace, r: Option<string>, scores: seq<int>, last: Option<int>) {
    !t.end.Idle? && forall n: nat :: Shown(n) ==>
      Ended(j, t, r) && Frugal(t.sent) && Unplanned(t.sent) && SelfChecked(j.env, j.opts, scores, last, t.rounds, t.served)
  }

  /** A run in phases, without one. */
  ghost predicate RanInPhases(j: Job, t: Trace, r: Option<string>, kids: seq<Kid>) {
    && t.end.Idle? && t.rounds == [] && t.served == []
    && PhasePlanned(j.env, j.opts, j.task, t.sent, kids, r) && AsPhases(kids, j.suppress)
  }

  lemma {:induction false} AfterPlanning(j: Job, t: Trace, r: Option<string>, scores: seq<int>, last: Option<int>, planned: Record)
    requires Ended(j, t, r) && Frugal(t.sent) && Unplanned(t.sent) && SelfChecked(j.env, j.opts, scores, last, t.rounds, t.served)
    ensures RanLoop(j, t.(planned := planned), r, scores, last)
  {
    assert Shown(0);
  }

  /** One more trip, its scores those of the steps taken so far. */
  lemma {:induction false} CheckedTrip(e: Env, o: Options, id: nat, a: Snap, b: Snap, t: Trace, t': Trace, ok: bool, last: Option<int>, next: Option<int>)
    requires Done(e, o, id, a, b, t'.sent, ok) && SideOnly(t'.sent) == AllSides(t'.served) && |t.served| == |t.rounds|
    requires SelfChecked(e, o, a.scores, last, t.rounds, t.served)
    requires Rechecked(o, t.rounds, t.served, t'.rounds, t'.served, b.scores, LastNudge(o, last, t.rounds), next)
    ensures SelfChecked(e, o, a.scores, last, t'.rounds, t'.served) && next == LastNudge(o, last, t'.rounds)
  {
    DoneParts(e, o, id, a, b, t'.sent, ok);
    assert AllSides(t'.served).uses == SideOnly(t'.sent).uses == t'.sent.uses;
    CheckedOn(e, o, a.scores, last, t.rounds, t.served, t'.rounds, t'.served, b.scores, next);
  }

  lemma {:induction false} RanLoopMeans(j: Job, t: Trace, r: Option<string>, scores: seq<int>, last: Option<int>)
    requires RanLoop(j, t, r, scores, last)
    ensures Ended(j, t, r) && Frugal(t.sent) && Unplanned(t.sent) && SelfChecked(j.env, j.opts, scores, last, t.rounds, t.served)
  {
    assert Shown(0);
  }

  /** A run whose plan was turned down, or whose request for one threw. */
  predicate TurnedAway(j: Job, t: Trace, r: Option<string>, kids: seq<Kid>) {
    && t == Trace(t.planned, [], [], NEW, Idle) && kids == []
    && r == if TurnedDown(t.planned.plans) then Some(j.env.write("plan rejected", [], [])) else None
  }

  /** A whole run after plan mode: nothing more, a loop, or phases. `RunDid`, passed on whole. */
  ghost predicate RunKept(j: Job, looped: bool, t: Trace, r: Option<string>, kids: seq<Kid>, scores: seq<int>, last: Option<int>) {
    forall n: nat :: Shown(n) ==> RunDid(j, looped, t, r, kids, scores, last)
  }

  ghost predicate RunDid(j: Job, looped: bool, t: Trace, r: Option<string>, kids: seq<Kid>, scores: seq<int>, last: Option<int>) {
    if !Proceeds(t.planned) then TurnedAway(j, t, r, kids)
    else if looped then RanLoop(j, t, r, scores, last) && kids == []
    else RanInPhases(j, t, r, kids)
  }

  lemma {:induction false} KeptAway(j: Job, looped: bool, t: Trace, r: Option<string>, kids: seq<Kid>, scores: seq<int>, last: Option<int>)
    requires !Proceeds(t.planned) && TurnedAway(j, t, r, kids)
    ensures RunKept(j, looped, t, r, kids, scores, last)
  {}

  lemma {:induction false} KeptLoop(j: Job, t: Trace, r: Option<string>, scores: seq<int>, last: Option<int>)
    requires Proceeds(t.planned) && RanLoop(j, t, r, scores, last)
    ensures RunKept(j, true, t, r, [], scores, last)
  {}

  lemma {:induction false} KeptPhases(j: Job, t: Trace, r: Option<string>, kids: seq<Kid>, scores: seq<int>, last: Option<int>)
    requires Proceeds(t.planned) && RanInPhases(j, t, r, kids)
    ensures RunKept(j, false, t, r, kids, scores, last)
  {}

  lemma {:induction false} RunMeans(j: Job, looped: bool, t: Trace, r: Option<string>, kids: seq<Kid>, scores: seq<int>, last: Option<int>)
    requires RunKept(j, looped, t, r, kids, scores, last)
    ensures RunDid(j, looped, t, r, kids, scores, last)
  {
    assert Shown(0);
  }

  /** A run that never plans ends with its loop. */
  lemma {:induction false} LoopedAlone(j: Job, t: Trace, r: Option<string>, kids: seq<Kid>, scores: seq<int>, last: Option<int>)
    requires RunKept(j, true, t, r, kids, scores, last) && t.planned == NEW
    ensures kids == [] && RanLoop(j, t, r, scores, last) && t.sent.plans == []
  {
    assert Shown(0);
  }
}
