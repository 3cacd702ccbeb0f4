/** The ReAct loop with its restarts, validator retries, nudges, subagents and phases. */
module Orchestrator {
  import opened Prelude
  import opened Conversation
  import opened TruncationGuard
  import opened Compaction
  import opened Rounds
  import opened Accounting
  import opened AgentWorld
  import opened Settings
  import opened Prompts
  import opened Subagents
  import opened Services
  import opened LoopTrace
  import opened Ledger
  import opened Tree
  import opened Hiding
  import StepScorer
  import Sequences

  datatype RunOptions = RunOptions(skipPlanMode: bool, isSubagent: bool, suppress: bool)

  datatype Outcome = Completed | PlanRejected | PartialSuccess

  /** How a run ends for whoever started it. */
  function OutcomeOf(t: Trace): Outcome {
    if Marked(t) then PartialSuccess
    else if TurnedDown(t.planned.plans) || TurnedDown(t.sent.plans) then PlanRejected
    else Completed
  }

  /** How one trip round the loop ends. */
  datatype Next = Again | Finish(text: string) | Fail

  // ---- Nudges ----

  /** Each at least three iterations after the one before, all within the limit: `IsSpaced`, passed on whole. */
  ghost predicate Spaced(ns: seq<int>, top: int) { forall n: nat :: Shown(n) ==> IsSpaced(ns, top) }

  ghost predicate IsSpaced(ns: seq<int>, top: int) {
    && (forall i :: 0 <= i < |ns| ==> 1 <= ns[i] <= top)
    && (forall i :: 0 < i < |ns| ==> ns[i] - ns[i - 1] >= 3)
  }

  lemma {:induction false} SpacedSteps(ns: seq<int>, top: int)
    requires Spaced(ns, top)
    ensures ns != [] ==> ns[|ns| - 1] >= 3 * |ns| - 2
  {
    assert Shown(0);
    if |ns| > 1 {
      var most := ns[..|ns| - 1];
      assert forall i :: 0 <= i < |most| ==> most[i] == ns[i];
      SpacedSteps(most, top);
    }
  }

  /** At most one for every three iterations of a single round, rounded up. */
  lemma {:induction false} SpacedCount(ns: seq<int>, top: int)
    requires Spaced(ns, top)
    ensures |ns| <= (Max(0, top) + 2) / 3
  {
    assert Shown(0);
    SpacedSteps(ns, top);
  }

  lemma {:induction false} SpacedPush(ns: seq<int>, top: int, n: int)
    requires Spaced(ns, top) && 1 <= n <= top && (ns != [] ==> n - ns[|ns| - 1] >= 3)
    ensures Spaced(ns + [n], top)
  {}

  lemma {:induction false} CompactedOnce(c: Codec, h: History, path: string, current: string, g: History)
    requires IsCompacted(c, h, path, current, g)
    ensures g == Compact(c, h, path, current)
  {}

  /** A child that has run its loop without planning first. */
  lemma {:induction false} KidIsDone(e: Env, o: Options, p: Options, id: nat, s: Snap, child: Snap, k: Kid, kids: seq<Kid>, nudges: seq<int>, outcome: Outcome)
    requires id < |s.logs| && k.id == |s.logs| && k.single == p.singlePhase && (p == o || p == o.(singlePhase := true))
    requires k.trace.planned == NEW && Done(e, p, k.id, Born(s), child, Then(NEW, k.trace.sent), k.answer.Some?)
    requires RunKept(JobOf(e, p, k.task, k.suppress), true, k.trace, k.answer, kids, [], None) && outcome == OutcomeOf(k.trace)
    requires Spaced(nudges, Max(1, p.maxIterations)) && |nudges| == Nudges(k.trace.rounds)
    ensures Done(e, o, id, s, Absorbing(s, child, id, k), Started(k), k.answer.Some?)
    ensures Alone(Born(s), child, k.trace.sent) ==> s.budget - child.budget <= Size(k.trace.sent)
    ensures id < |child.logs| && (outcome == PartialSuccess <==> Marked(k.trace))
  {
    SpacedCount(nudges, Max(1, p.maxIterations));
    ThenNew(k.trace.sent);
    LoopedAlone(JobOf(e, p, k.task, k.suppress), k.trace, k.answer, kids, [], None);
    RanLoopMeans(JobOf(e, p, k.task, k.suppress), k.trace, k.answer, [], None);
    KidMade(e, o, p, id, s, child, k);
  }

  lemma {:induction false} SpentMore(sent: seq<Sending>, s: Sending)
    ensures Spent(sent + [s]) == Counting(Spent(sent), s.kind, s.x)
  {
    Sequences.Push(sent, s);
  }

  function Answer(next: Next): Option<string> { if next.Finish? then Some(next.text) else None }

  class Orchestrator {
    const world: World
    const opts: Options
    ghost const id: nat
    var tally: Tally
    var lastNudge: Option<int>
    var scores: seq<int>
    var outcome: Outcome
    ghost var nudges: seq<int>
    /** Iterations taken over from other instances. */
    ghost var absorbed: int

    constructor (world: World, opts: Options)
      requires Sound(world.env.codec)
      modifies world`logs
      ensures Ready() && this.world == world && this.opts == opts
      ensures id == |old(world.logs)| && world.logs == old(world.logs) + [NEW]
      ensures tally == ZERO && absorbed == 0 && nudges == [] && lastNudge == None && scores == [] && outcome == Completed
    {
      this.world, this.opts, id := world, opts, |world.logs|;
      tally, lastNudge, scores, outcome := ZERO, None, [], Completed;
      nudges, absorbed := [], 0;
      new;
      ghost var n := world.Register();
    }

    /** Over the whole life of the instance, restarts and further runs included. */
    ghost predicate Valid()
      reads this
    {
      && Spaced(nudges, Max(1, opts.maxIterations))
      && lastNudge == if nudges == [] then None else Some(nudges[|nudges| - 1])
    }

    ghost predicate Ready()
      reads this, world
    {
      Valid() && Sound(world.env.codec) && id < |world.logs|
    }

    ghost function Now(): Snap
      reads this, world
    {
      Snap(world.clock, world.budget, world.logs, world.runs, Spent(world.sent), tally, absorbed, scores)
    }

    /** `j` is a job for this instance. */
    ghost predicate Mine(j: Job) { j.env == world.env && j.opts == opts }

    method AddUsage(usage: Option<Usage>)
      modifies this`tally
      ensures tally == Add(old(tally), usage)
    {
      if usage.None? { return; }
      var u := usage.value;
      tally := tally.(calls := tally.calls + 1);
      tally := tally.(prompt := tally.prompt + u.prompt);
      tally := tally.(completion := tally.completion + u.completion);
      tally := tally.(total := tally.total + u.total);
      tally := tally.(reasoning := tally.reasoning + OrZero(u.reasoning));
      tally := tally.(cached := tally.cached + OrZero(u.cached));
    }

    method AbsorbSubagentUsage(sub: Orchestrator)
      requires sub != this
      modifies this`tally, this`absorbed
      ensures tally == Plus(old(tally), sub.tally) && absorbed == old(absorbed) + sub.tally.iterations
    {
      var subUsage := sub.tally;
      tally := tally.(prompt := tally.prompt + subUsage.prompt);
      tally := tally.(completion := tally.completion + subUsage.completion);
      tally := tally.(total := tally.total + subUsage.total);
      tally := tally.(reasoning := tally.reasoning + subUsage.reasoning);
      tally := tally.(cached := tally.cached + subUsage.cached);
      tally := tally.(calls := tally.calls + subUsage.calls);
      tally := tally.(iterations := tally.iterations + subUsage.iterations);
      absorbed := absorbed + subUsage.iterations;
    }

    /** A request of this instance, its usage added. */
    method Request(ghost kind: Kind, ms: Prompt) returns (r: Option<Response>, ghost x: Exchange)
      requires Ready()
      modifies this`tally, world
      ensures Ready() && x.prompt == ms && Now() == Requested(old(Now()), id, kind, x)
      ensures r == if x.reply.Some? then Some(x.reply.value.response) else None
      ensures r.Some? ==> Typical(world.env, r.value)
      ensures Fair(world.env, old(world.budget), x)
    {
      ghost var sent := world.sent;
      var reply := world.Complete(id, kind, ms);
      x := Exchange(ms, reply);
      SpentMore(sent, Sending(id, kind, x));
      if reply.None? { return None, x; }
      AddUsage(reply.value.usage);
      r := Some(reply.value.response);
    }

    method ShouldContinue(ghost about: About) returns (yes: bool, ghost asked: Record)
      requires Ready()
      modifies world
      ensures Ready() && Now() == Questioned(old(Now()), id, asked)
      ensures asked == if NeverAsks(opts) then NEW else Asked(about, yes)
      ensures NeverAsks(opts) ==> yes
      ensures Declining(world.env) && !NeverAsks(opts) ==> !yes
    {
      NothingAsked(Now(), id);
      asked := NEW;
      if opts.auto || opts.continueOnLimit { return true, asked; }
      if opts.callback || opts.interactive {
        yes := world.Ask(id, about);
        asked := Asked(about, yes);
      } else {
        yes := true;
      }
    }

    // ---- Reports and audits ----

    /** The model's account of a history that stopped short; nothing when the request throws. */
    method CallLlmForSummary(ghost kind: Kind, task: string, ms: History) returns (text: Option<string>, ghost x: Exchange)
      requires Ready()
      modifies this`tally, world
      ensures Ready() && x.prompt == ReportPrompt(world.env, task, ms) && Now() == Requested(old(Now()), id, kind, x)
      ensures text == if x.reply.Some? then Some(Trimmed(world.env, x.reply.value.response.content)) else None
      ensures Fair(world.env, old(world.budget), x)
    {
      var r;
      r, x := Request(kind, ReportPrompt(world.env, task, ms));
      if r.None? { return None, x; }
      text := Some(Trimmed(world.env, r.value.content));
    }

    /** The report of a stopped run. A request that throws is swallowed. */
    method SynthesizeReport(task: string, ms: History) returns (report: string, ghost x: Exchange)
      requires Ready()
      modifies this`tally, world
      ensures Ready() && x.prompt == ReportPrompt(world.env, task, ms) && Now() == Requested(old(Now()), id, Report, x)
      ensures report == ReportText(world.env, task, ms, x)
      ensures Fair(world.env, old(world.budget), x)
    {
      var text;
      text, x := CallLlmForSummary(Report, task, ms);
      if text.Some? && |text.value| > 10 { return text.value, x; }
      report := world.env.write("mechanical report", ms, [task]);
    }

    /** The report on a stopped subagent that is not continued. */
    method SynthesizeSubagentPartialReport(task: string, ms: History) returns (report: string, ghost x: Exchange)
      requires Ready()
      modifies this`tally, world
      ensures Ready() && x.prompt == ReportPrompt(world.env, task, ms) && Now() == Requested(old(Now()), id, Partial, x)
      ensures report == PartialText(world.env, task, ms, x)
      ensures Fair(world.env, old(world.budget), x)
    {
      var text;
      text, x := CallLlmForSummary(Partial, task, ms);
      if text.Some? && |text.value| > 10 { return world.env.write("partial summary", [], [text.value]), x; }
      report := world.env.write("mechanical partial report", ms, [task]);
    }

    /** The independent audit of a claimed completion; nothing when the request throws. */
    method ValidateGoal(task: string, ms: History, claim: string) returns (valid: Option<bool>, ghost x: Exchange)
      requires Ready()
      modifies this`tally, world
      ensures Ready() && x.prompt == AuditPrompt(world.env, task, ms, claim) && Now() == Requested(old(Now()), id, Audit, x)
      ensures valid == Verdict(world.env, x)
      ensures Done(world.env, opts, id, old(Now()), Now(), Sent(Audit, x), valid.Some?) && Alone(old(Now()), Now(), Sent(Audit, x))
    {
      var r;
      r, x := Request(Audit, AuditPrompt(world.env, task, ms, claim));
      RequestDone(world.env, opts, id, old(Now()), Audit, x, r.Some?);
      if r.None? { return None, x; }
      valid := Some(world.env.valid(r.value.content));
    }

    /** A nudge when recent steps went badly and the last nudge is three iterations back. */
    method SelfCheck(log: Log, iteration: int) returns (ghost notes: seq<string>)
      requires Valid() && 1 <= iteration <= Max(1, opts.maxIterations)
      modifies this`lastNudge, this`nudges, log
      ensures Valid() && log.messages == old(log.messages) + Notes(notes)
      ensures |notes| <= 1 && (notes != [] <==> NudgeDue(opts, scores, old(lastNudge), iteration))
      ensures nudges == old(nudges) + if notes == [] then [] else [iteration]
      ensures lastNudge == if notes == [] then old(lastNudge) else Some(iteration)
    {
      notes := [];
      if !opts.selfHealing { return; }
      var avgHealth := StepScorer.Health(scores, 5);
      var cooldownPassed := lastNudge.None? || iteration - lastNudge.value >= 3;
      if avgHealth < 40 && cooldownPassed && |scores| >= 2 {
        lastNudge := Some(iteration);
        SpacedPush(nudges, Max(1, opts.maxIterations), iteration);
        nudges := nudges + [iteration];
        var text := world.env.write("nudge", [], []);
        log.Push(User(text));
        notes := [text];
      }
    }

    // ---- One call ----

    method RunSubagent(args: string) returns (r: Option<SubagentResult>, ghost kids: seq<Kid>)
      requires Ready()
      modifies this`tally, this`absorbed, world
      ensures Ready() && Done(world.env, opts, id, old(Now()), Now(), Begun(kids), r.Some?)
      ensures Gave(world.env, opts, args, kids, r)
      ensures r.Some? ==> r.value.iterations == absorbed - old(absorbed)
      decreases world.budget, 10
    {
      var task := world.env.taskOf(args);
      if task.None? {
        NothingDone(world.env, opts, id, Now());
        return Some(Invalid(world.env)), [];
      }
      var result, limited, iterations;
      ghost var kid;
      result, limited, iterations, kid := Start(task.value, opts, true);
      kids := [kid];
      if result.None? { return None, kids; }
      r := Some(SubagentResult(if limited then Limited else Ran, result.value, iterations));
    }

    /** Another instance on a task of its own, with a history of its own, its totals absorbed once it is back. */
    method Start(task: string, options: Options, suppress: bool)
      returns (r: Option<string>, limited: bool, iterations: int, ghost kid: Kid)
      requires Ready() && (options == opts || options == opts.(singlePhase := true))
      modifies this`tally, this`absorbed, world
      ensures Ready() && Done(world.env, opts, id, old(Now()), Now(), Started(kid), r.Some?)
      ensures kid.task == task && kid.single == options.singlePhase && kid.suppress == suppress && kid.answer == r
      ensures NoChildren(world.env) ==> old(world.budget) - world.budget <= Size(kid.trace.sent)
      ensures r.Some? ==> limited == Marked(kid.trace) && iterations == kid.iterations == absorbed - old(absorbed)
      decreases world.budget, 9
    {
      ghost var before := Now();
      var sub;
      sub, r, kid := Spawn(task, options, suppress);
      ghost var child := sub.Now();
      world.Finish(id, kid);
      limited, iterations := false, 0;
      if r.Some? {
        AbsorbSubagentUsage(sub);
        limited, iterations := sub.outcome == PartialSuccess, sub.tally.iterations;
      }
      assert Now() == Absorbing(before, child, id, kid);
    }

    /** The other instance, run, and neither put on record nor absorbed. */
    method Spawn(task: string, options: Options, suppress: bool) returns (sub: Orchestrator, r: Option<string>, ghost kid: Kid)
      requires Ready() && (options == opts || options == opts.(singlePhase := true))
      modifies world
      ensures fresh(sub) && sub.world == world && id < |world.logs|
      ensures Done(world.env, opts, id, old(Now()), Absorbing(old(Now()), sub.Now(), id, kid), Started(kid), r.Some?)
      ensures kid.task == task && kid.single == options.singlePhase && kid.suppress == suppress && kid.answer == r
      ensures kid.iterations == sub.tally.iterations && (sub.outcome == PartialSuccess <==> Marked(kid.trace))
      ensures NoChildren(world.env) ==> old(world.budget) - world.budget <= Size(kid.trace.sent)
      decreases world.budget, 8
    {
      ghost var before := Now();
      sub := new Orchestrator(world, options);
      assert sub.Now() == Born(before);
      ghost var t, kids;
      r, t, kids := sub.Run(task, RunOptions(true, true, suppress));
      kid := Kid(sub.id, task, options.singlePhase, suppress, t, r, sub.tally.iterations);
      KidIsDone(world.env, opts, options, id, before, sub.Now(), kid, kids, sub.nudges, sub.outcome);
    }

    /** A stopped subagent is continued once, told what the first run did, or reported on. */
    method ContinueOrReport(task: string, args: string, ms: History, first: SubagentResult)
      returns (r: Option<string>, ghost d: Record, ghost second: seq<Kid>, ghost two: Option<SubagentResult>)
      requires Ready()
      modifies this`tally, this`absorbed, this`outcome, world
      ensures Ready() && Done(world.env, opts, id, old(Now()), Now(), d, r.Some?) && Side(d)
      ensures Handled(world.env, opts, task, args, ms, first, Delegation([], None, second, two), d, r)
      ensures d.started == second && d.uses == []
      ensures outcome == if d.partial != [] then PartialSuccess else old(outcome)
      decreases world.budget, 11
    {
      var e := world.env;
      ghost var a := Now();
      var shouldContinue;
      ghost var asked;
      shouldContinue, asked := ShouldContinue(Child);
      second, two := [], None;
      if shouldContinue {
        var again;
        again, second := RunSubagent(e.again(args, first));
        two := again;
        GoneOn(e, opts, id, a, Now(), asked, task, args, ms, first, second, two);
        d := Then(asked, Begun(second));
        r := if again.None? then None else Some(e.tell(again.value));
      } else {
        outcome := PartialSuccess;
        r, d := ReportOn(task, args, ms, first, a, asked);
      }
    }

    /** A subagent that is not continued. `a` is how things stood before asking, `asked` the record of it. */
    method ReportOn(task: string, ghost args: string, ms: History, first: SubagentResult, ghost a: Snap, ghost asked: Record)
      returns (r: Option<string>, ghost d: Record)
      requires Ready() && id < |a.logs| && Consulted(opts, asked, false) && Now() == Questioned(a, id, asked)
      modifies this`tally, world
      ensures Ready() && Done(world.env, opts, id, a, Now(), d, true) && Side(d) && world.budget <= old(world.budget)
      ensures Handled(world.env, opts, task, args, ms, first, Delegation([], None, [], None), d, r)
      ensures r.Some? && |d.partial| == 1 && d.started == [] && d.uses == []
    {
      var report;
      ghost var x;
      report, x := SynthesizeSubagentPartialReport(task, ms);
      ReportedOn(world.env, opts, id, a, asked, task, args, ms, first, x);
      d := Then(asked, Sent(Partial, x));
      r := Some(world.env.tell(SubagentResult(Partly, report, first.iterations)));
    }

    /** The observation for a subagent call. */
    method Delegate(task: string, args: string, ms: History) returns (r: Option<string>, ghost d: Record, ghost g: Delegation)
      requires Ready()
      modifies this`tally, this`absorbed, this`outcome, world
      ensures Ready() && Done(world.env, opts, id, old(Now()), Now(), d, r.Some?) && Side(d)
      ensures Delegated(world.env, opts, task, args, ms, g, d, r)
      ensures outcome == if d.partial != [] then PartialSuccess else old(outcome)
      decreases world.budget, 12
    {
      var e := world.env;
      ghost var a := Now();
      var observation;
      ghost var kids;
      observation, kids := RunSubagent(args);
      d, g := Begun(kids), Delegation(kids, observation, [], None);
      assert kids + [] == kids;
      if observation.None? { return None, d, g; }
      if !observation.value.status.Limited? {
        return Some(e.tell(observation.value)), d, g;
      }
      ghost var b, second, two := Now(), [], None;
      r, d, second, two := ContinueOrReport(task, args, ms, observation.value);
      DoneOn(e, opts, id, a, b, Now(), Begun(kids), d, r.Some?);
      StartedFirst(opts, kids, d);
      ghost var after := d;
      d := Then(Begun(kids), after);
      g := Delegation(kids, observation, second, two);
      HandledAs(e, opts, task, args, ms, observation.value, Delegation([], None, second, two), g, after, d, r);
    }

    /** Dispatches the call at `pos` of the response at `at`. */
    method DispatchOne(task: string, log: Log, at: nat, pos: nat) returns (ok: bool, ghost content: string, ghost s: Served)
      requires Ready() && IsCall(log.messages, at, pos)
      requires NoChildren(world.env) ==> log.messages[at].calls[pos].name != "subagent_tool"
      modifies this`tally, this`absorbed, this`outcome, this`scores, world, log
      ensures Ready() && Done(world.env, opts, id, old(Now()), Now(), SideOf(s), ok) && Side(SideOf(s))
      ensures NoChildren(world.env) ==> Alone(old(Now()), Now(), SideOf(s))
      ensures ok ==> log.messages == Step(world.env.codec, opts.fullContextToken, old(log.messages), at, pos, content)
      ensures CallServed(world.env, opts, task, old(log.messages), at, pos, s, if ok then Some(content) else None)
      ensures |SideOf(s).started| <= if old(log.messages)[at].calls[pos].name == "subagent_tool" then 2 else 0
      ensures outcome == if SideOf(s).partial != [] then PartialSuccess else old(outcome)
      decreases world.budget, 13
    {
      var call := log.messages[at].calls[pos];
      if call.name == "subagent_tool" {
        var observation;
        ghost var d, g;
        observation, d, g := Delegate(task, call.args, log.messages);
        s := BySubagent(g, d);
        AtMostTwo(world.env, opts, task, call.args, log.messages, g, d, observation);
        if observation.None? { return false, "", s; }
        log.Push(Tool(call.id, "subagent_tool", observation.value));
        return true, observation.value, s;
      }
      content, s := RunTool(log, call, at, pos);
      ok := true;
    }

    /** A call of any other tool. */
    method RunTool(log: Log, call: Call, ghost at: nat, ghost pos: nat) returns (ghost content: string, ghost s: Served)
      requires Ready() && IsCall(log.messages, at, pos) && call == log.messages[at].calls[pos]
      modifies this`scores, world`clock, world`logs, log
      ensures Ready() && s == ByTool(Use(old(world.clock), call, content)) && content == world.env.observe(old(world.clock), call)
      ensures scores == old(scores) + if opts.selfHealing then [world.env.score(old(world.clock), call)] else []
      ensures Done(world.env, opts, id, old(Now()), Now(), SideOf(s), true) && Alone(old(Now()), Now(), SideOf(s))
      ensures log.messages == Step(world.env.codec, opts.fullContextToken, old(log.messages), at, pos, content)
    {
      var c := world.env.codec;
      ghost var a := Now();
      var now, result := world.Observe(id, call);
      content, s := result, ByTool(Use(now, call, result));
      if opts.selfHealing { scores := scores + [world.env.score(now, call)]; }
      UseDone(world.env, opts, id, a, Use(now, call, result));
      assert Now() == Observed(world.env, opts, a, id, Use(now, call, result));
      log.Push(Tool(call.id, call.name, result));
      if !opts.fullContextToken && Compactable(call.name) {
        var path := PathOf(c, call);
        if path.Some? && path.value != "" {
          ghost var h := log.messages;
          log.CompactStaleFileReads(c, path.value, call.id);
          CompactedOnce(c, h, path.value, call.id, log.messages);
        }
      }
    }

    /** The assistant message and the answers to its withheld calls. */
    method Open(log: Log, r: Response) returns (safe: seq<nat>)
      requires Sound(world.env.codec)
      modifies log
      ensures safe == Safe(r) && log.messages == Opened(world.env.codec, old(log.messages), r)
    {
      var c := world.env.codec;
      ghost var h := log.messages;
      log.Push(Assistant(r.content, r.calls, r.reasoning));
      var blocked;
      safe, blocked := CheckForTruncatedToolCalls(r);
      PositionsInRange(r);
      assert blocked == Blocked(r) && safe == Safe(r);
      for i := 0 to |blocked|
        modifies log
        invariant log.messages == h + [Assistant(r.content, r.calls, r.reasoning)] + Warnings(c, r.calls, blocked, i)
      {
        var call := r.calls[blocked[i]];
        log.Push(Tool(call.id, call.name, c.warning(call)));
      }
    }

    /** The next call of the response `r` to `h`. `a` is how things stood when the first was reached, `was` and `before`
        what the calls so far gave and how they were served. */
    method DispatchNext(task: string, log: Log, at: nat, pos: nat, ghost j: Job, ghost r: Response, ghost h: History,
                        ghost was: seq<string>, ghost before: seq<Served>, ghost a: Snap, ghost base: Outcome)
      returns (ok: bool, ghost contents: seq<string>, ghost ss: seq<Served>)
      requires Ready() && Mine(j) && j.task == task && Typical(world.env, r)
      requires at == |h| && |was| < |Safe(r)| && pos == Safe(r)[|was|]
      requires Midturn(j, id, a, Now(), h, r, was, before, log.messages)
      requires outcome == if Sides(before).partial != [] then PartialSuccess else base
      modifies this`tally, this`absorbed, this`outcome, this`scores, world, log
      ensures Ready() && world.budget <= old(world.budget)
      ensures if ok then Midturn(j, id, a, Now(), h, r, contents, ss, log.messages) && |contents| == |was| + 1
              else TurnOver(j, id, a, Now(), h, r, contents, ss, false)
      ensures outcome == if Sides(ss).partial != [] then PartialSuccess else base
      decreases world.budget, 14
    {
      ghost var g, b := log.messages, Now();
      TurnGoesOn(j, id, a, b, h, r, was, before, g, pos);
      ghost var content, s;
      ok, content, s := DispatchOne(task, log, at, pos);
      contents, ss := if ok then was + [content] else was, before + [s];
      CallAdded(j, id, a, b, Now(), h, r, pos, was, before, g, log.messages, s, ok, content, contents, ss);
    }

    /** Every call of a response that is not withheld, in order. `h` is the history before the response. */
    method DispatchSafe(task: string, log: Log, at: nat, safe: seq<nat>, ghost j: Job, ghost r: Response, ghost h: History)
      returns (ok: bool, ghost contents: seq<string>, ghost ss: seq<Served>)
      requires Ready() && Mine(j) && j.task == task && Typical(world.env, r)
      requires at == |h| && safe == Safe(r) && log.messages == Opened(world.env.codec, h, r)
      modifies this`tally, this`absorbed, this`outcome, this`scores, world, log
      ensures Ready() && TurnOver(j, id, old(Now()), Now(), h, r, contents, ss, ok) && world.budget <= old(world.budget)
      ensures ok ==> Plays(world.env.codec, opts.fullContextToken, h, Round(r, contents, []), log.messages) && |ss| == |contents|
      ensures outcome == if Sides(ss).partial != [] then PartialSuccess else old(outcome)
      decreases world.budget, 15
    {
      ghost var a := Now();
      contents, ss := [], [];
      TurnBegins(j, id, a, h, r);
      for i := 0 to |safe|
        invariant |contents| == i && Midturn(j, id, a, Now(), h, r, contents, ss, log.messages)
        invariant Ready() && world.budget <= old(world.budget)
        invariant outcome == if Sides(ss).partial != [] then PartialSuccess else old(outcome)
      {
        var done;
        done, contents, ss := DispatchNext(task, log, at, safe[i], j, r, h, contents, ss, a, old(outcome));
        if !done { return false, contents, ss; }
      }
      TurnEnds(j, id, a, Now(), h, r, contents, ss, log.messages);
      ok := true;
    }

    /** A response with tool calls: its message, the answers to withheld calls, then every other call. */
    method Turn(task: string, log: Log, ghost j: Job, r: Response) returns (ok: bool, ghost contents: seq<string>, ghost ss: seq<Served>)
      requires Ready() && Mine(j) && j.task == task && Typical(world.env, r)
      modifies this`tally, this`absorbed, this`outcome, this`scores, world, log
      ensures Ready() && TurnOver(j, id, old(Now()), Now(), old(log.messages), r, contents, ss, ok) && world.budget <= old(world.budget)
      ensures ok ==> Plays(world.env.codec, opts.fullContextToken, old(log.messages), Round(r, contents, []), log.messages) && |ss| == |contents|
      ensures outcome == if Sides(ss).partial != [] then PartialSuccess else old(outcome)
      decreases world.budget, 16
    {
      ghost var h := log.messages;
      var at := |log.messages|;
      var safe := Open(log, r);
      ok, contents, ss := DispatchSafe(task, log, at, safe, j, r, h);
    }

    // ---- One trip ----

    /** `this.iterationCount += 1` */
    method CountTrip()
      modifies this`tally
      ensures Now() == Tripped(old(Now()))
    {
      tally := tally.(iterations := tally.iterations + 1);
    }

    /** Past the limit: whether to stop, and with what report. */
    method AtLimit(task: string, ms: History, suppress: bool) returns (stop: Option<string>, ghost asked: Record, ghost x: Exchange)
      requires Ready()
      modifies this`tally, this`outcome, world
      ensures Ready() && OnlyLimits(asked)
      ensures asked.limits == if suppress || NeverAsks(opts) then [] else [stop.None?]
      ensures stop.None? ==> !suppress && outcome == old(outcome) && Now() == Questioned(old(Now()), id, asked)
      ensures stop.Some? ==> outcome == PartialSuccess && (suppress || !NeverAsks(opts))
      ensures stop.Some? ==> Now() == Requested(Questioned(old(Now()), id, asked), id, Report, x)
      ensures stop.Some? ==> Fair(world.env, old(world.budget), x)
      ensures stop.Some? ==> x.prompt == ReportPrompt(world.env, task, ms) && stop.value == ReportText(world.env, task, ms, x)
      ensures Declining(world.env) && asked.limits != [] ==> stop.Some?
    {
      asked, x := NEW, Exchange([], None);
      NothingAsked(Now(), id);
      if !suppress {
        var shouldContinue;
        shouldContinue, asked := ShouldContinue(Limit);
        if shouldContinue { return None, asked, x; }
      }
      outcome := PartialSuccess;
      var report;
      report, x := SynthesizeReport(task, ms);
      stop := Some(report);
    }

    /** The first half of a trip: the limit, then the request. */
    method Ask(task: string, ms: History, iter: int, ghost rejs: int, suppress: bool, ghost j: Job, ghost t: Trace)
      returns (next: Next, reply: Response, iteration: int, ghost d: Record, ghost t': Trace)
      requires Ready() && Mine(j) && j.task == task && j.suppress == suppress && Head(j, t, iter, rejs, ms)
      modifies this`tally, this`outcome, world
      ensures Ready() && Done(world.env, opts, id, old(Now()), Now(), d, !next.Fail?) && Alone(old(Now()), Now(), d)
      ensures t' == t.(sent := Then(t.sent, d), end := t'.end) && d.partial == [] && Unplanned(d) && d.started == []
      ensures next.Again? ==> |d.main| == 1 && Replied(d.main[0], reply)
      ensures next.Again? ==> world.budget < old(world.budget) && Mid(j, t', iteration, rejs, ms, reply)
      ensures !next.Again? ==> Ended(j, t', Answer(next))
      ensures t'.end == if next.Finish? then Stopped else Threw
      ensures outcome == if t'.end.Stopped? then PartialSuccess else old(outcome)
    {
      var e := world.env;
      ghost var a := Now();
      reply := Response("", [], None, "");
      iteration := iter + 1;
      CountTrip();
      ghost var asked := NEW;
      NothingAsked(a, id);
      ghost var x;
      if iteration > opts.maxIterations {
        var stop;
        stop, asked, x := AtLimit(task, ms, suppress);
        CountedFirst(a, id, asked);
        if stop.Some? {
          TripMade(e, opts, id, a, asked, Report, x, true);
          d := Then(asked, Sent(Report, x));
          t' := t.(sent := Then(t.sent, d), end := Stopped);
          LoopTrace.Stop(j, t, iter, rejs, ms, asked, x, t');
          return Finish(stop.value), reply, iteration, d, t';
        }
        iteration := 1;
      }
      CountedFirst(a, id, asked);
      next, reply, d, t' := Send(ms, iter, rejs, iteration, j, t, a, asked);
    }

    /** The request of a trip. `a` is how things stood before it, `asked` what was asked at the limit. */
    method Send(ms: History, ghost iter: int, ghost rejs: int, ghost iteration: int, ghost j: Job, ghost t: Trace, ghost a: Snap, ghost asked: Record)
      returns (next: Next, reply: Response, ghost d: Record, ghost t': Trace)
      requires Ready() && Mine(j) && Head(j, t, iter, rejs, ms)
      requires id < |a.logs| && OnlyLimits(asked) && Now() == Tripped(Questioned(a, id, asked))
      requires TripLeft(j, iter, iteration, asked.limits)
      modifies this`tally, world
      ensures Ready() && Done(world.env, opts, id, a, Now(), d, !next.Fail?) && Alone(a, Now(), d)
      ensures t' == t.(sent := Then(t.sent, d), end := Threw) && d.partial == [] && Unplanned(d) && d.started == []
      ensures next.Again? ==> |d.main| == 1 && Replied(d.main[0], reply)
      ensures if next.Again? then world.budget < old(world.budget) && Mid(j, t', iteration, rejs, ms, reply)
              else next.Fail? && Ended(j, t', None)
    {
      HeadMeans(j, t, iter, rejs, ms);
      reply := Response("", [], None, "");
      var r;
      ghost var x;
      r, x := Request(Main, ms);
      TripMade(world.env, opts, id, a, asked, Main, x, r.Some?);
      d := Then(asked, Sent(Main, x));
      assert [] + [x] == [x];
      t' := t.(sent := Then(t.sent, d), end := Threw);
      LoopTrace.Request(j, t, iter, rejs, ms, asked, x, iteration, t');
      if r.None? { return Fail, reply, d, t'; }
      next, reply := Again, r.value;
    }

    /** The second half for a candidate answer: accepted, or audited unless validation is off or used up. */
    method Consider(task: string, log: Log, response: Response, iteration: int, rejs: int, ghost j: Job, ghost t: Trace)
      returns (next: Next, rejections: int, ghost d: Record, ghost t': Trace)
      requires Ready() && Mine(j) && j.task == task && response.calls == []
      requires Mid(j, t, iteration, rejs, log.messages, response)
      modifies this`tally, world, log
      ensures Ready() && Done(world.env, opts, id, old(Now()), Now(), d, !next.Fail?) && Alone(old(Now()), Now(), d)
      ensures t'.sent == Then(t.sent, d) && Nudges(t'.rounds) == Nudges(t.rounds) && d.partial == [] && Unplanned(d)
      ensures d.started == [] && d.main == []
      ensures Rechecked(opts, t.rounds, t.served, t'.rounds, t'.served, scores, lastNudge, lastNudge) && t'.planned == t.planned
      ensures next.Again? ==> Head(j, t', iteration, rejections, log.messages)
      ensures !next.Again? ==> Ended(j, t', Answer(next))
      ensures t'.end == if next.Finish? then Accepted else Threw
      ensures next.Finish? ==> next.text == response.content
    {
      var e := world.env;
      ghost var h := log.messages;
      rejections, d := rejs, NEW;
      if opts.validateGoal && rejections < opts.maxValidatorRetries {
        var valid;
        ghost var x;
        valid, x := ValidateGoal(task, log.messages, response.content);
        d := Sent(Audit, x);
        if valid.None? || valid.value {
          t' := t.(sent := Then(t.sent, d), end := if valid.Some? then Accepted else Threw);
          AuditAnswer(j, t, iteration, rejs, h, response, x, valid.Some?, t');
          return if valid.None? then Fail else Finish(response.content), rejections, d, t';
        }
        rejections := rejections + 1;
        ghost var round := Reject(log, response);
        t' := t.(rounds := t.rounds + [round], served := t.served + [[]], sent := Then(t.sent, d), end := Threw);
        NudgesPush(t.rounds, round);
        assert OneRound(t.rounds, t.served, t'.rounds, t'.served, round, []);
        SendBack(j, t, iteration, rejs, h, response, x, round, log.messages, t');
        return Again, rejections, d, t';
      }
      NothingDone(e, opts, id, Now());
      ThenNew(t.sent);
      t' := t.(end := Accepted);
      Accept(j, t, iteration, rejs, h, response);
      next := Finish(response.content);
    }

    /** The rejected claim and the validator's reason go into the history. */
    method Reject(log: Log, response: Response) returns (ghost round: Round)
      requires Sound(world.env.codec) && response.calls == []
      modifies log
      ensures Plays(world.env.codec, opts.fullContextToken, old(log.messages), round, log.messages)
      ensures round.response == response && |round.notes| == 1
    {
      var note := world.env.write("rejection", [], []);
      RejectionPlays(world.env.codec, opts.fullContextToken, log.messages, response, note);
      log.Push(Assistant(response.content, response.calls, response.reasoning));
      log.Push(User(note));
      round := Round(response, [], [note]);
    }

    /** A response with tool calls, and the self-check after them. */
    method Act(task: string, log: Log, ghost j: Job, r: Response, iteration: int) returns (ok: bool, ghost round: Round, ghost ss: seq<Served>)
      requires Ready() && Mine(j) && j.task == task && Typical(world.env, r) && 1 <= iteration <= Max(1, opts.maxIterations)
      modifies this, world, log
      ensures Ready() && Done(world.env, opts, id, old(Now()), Now(), Sides(ss), ok) && Side(Sides(ss))
      ensures NoChildren(world.env) ==> Alone(old(Now()), Now(), Sides(ss))
      ensures round.response == r && (!ok ==> round.notes == [] && CutShort(j, old(log.messages), r, ss))
      ensures ok ==> Plays(world.env.codec, opts.fullContextToken, old(log.messages), round, log.messages)
      ensures ok ==> RoundServed(j, old(log.messages), round, ss)
      ensures |Sides(ss).started| <= 2 * DelegatedIn(r)
      ensures |round.notes| <= 1 && (ok ==> (round.notes != [] <==> NudgeDue(opts, scores, old(lastNudge), iteration)))
      ensures lastNudge == if round.notes == [] then old(lastNudge) else Some(iteration)
      ensures nudges == old(nudges) + if round.notes == [] then [] else [iteration]
      ensures outcome == if Sides(ss).partial != [] then PartialSuccess else old(outcome)
      decreases world.budget, 17
    {
      ghost var contents: seq<string>;
      ok, contents, ss := Turn(task, log, j, r);
      round := Round(r, contents, []);
      if !ok { return; }
      ghost var g, snap := log.messages, Now();
      ghost var notes := SelfCheck(log, iteration);
      assert Now() == snap;
      PlaysWithNotes(world.env.codec, opts.fullContextToken, old(log.messages), r, contents, g, notes);
      round := Round(r, contents, notes);
    }

    /** The second half of a trip: a candidate answer, or a turn of tool calls. */
    method Respond(task: string, log: Log, response: Response, iteration: int, rejs: int, ghost j: Job, ghost t: Trace)
      returns (next: Next, rejections: int, ghost d: Record, ghost t': Trace)
      requires Ready() && Mine(j) && j.task == task && Mid(j, t, iteration, rejs, log.messages, response)
      modifies this, world, log
      ensures Ready() && Done(world.env, opts, id, old(Now()), Now(), d, !next.Fail?)
      ensures NoChildren(world.env) ==> Alone(old(Now()), Now(), d)
      ensures t'.sent == Then(t.sent, d) && Unplanned(d) && t'.planned == t.planned
      ensures d.main == [] && |d.started| <= 2 * DelegatedIn(response)
      ensures |nudges| - Nudges(t'.rounds) == |old(nudges)| - Nudges(t.rounds)
      ensures Rechecked(opts, t.rounds, t.served, t'.rounds, t'.served, scores, old(lastNudge), lastNudge)
      ensures next.Again? ==> Head(j, t', iteration, rejections, log.messages)
      ensures !next.Again? ==> Ended(j, t', Answer(next))
      ensures t'.end == if next.Finish? then Accepted else Threw
      ensures next.Finish? ==> response.calls == [] && next.text == response.content
      ensures outcome == if d.partial != [] then PartialSuccess else old(outcome)
      decreases world.budget, 19
    {
      if response.calls == [] {
        next, rejections, d, t' := Consider(task, log, response, iteration, rejs, j, t);
        return;
      }
      next, d, t' := RespondWithTurn(task, log, response, iteration, rejs, j, t);
      rejections := rejs;
    }

    /** A turn of tool calls. */
    method RespondWithTurn(task: string, log: Log, response: Response, iteration: int, ghost rejs: int, ghost j: Job, ghost t: Trace)
      returns (next: Next, ghost d: Record, ghost t': Trace)
      requires Ready() && Mine(j) && j.task == task && response.calls != [] && Mid(j, t, iteration, rejs, log.messages, response)
      modifies this, world, log
      ensures Ready() && Done(world.env, opts, id, old(Now()), Now(), d, !next.Fail?) && !next.Finish? && t'.end.Threw?
      ensures NoChildren(world.env) ==> Alone(old(Now()), Now(), d)
      ensures t'.sent == Then(t.sent, d) && Unplanned(d) && t'.planned == t.planned
      ensures d.main == [] && |d.started| <= 2 * DelegatedIn(response)
      ensures |nudges| - Nudges(t'.rounds) == |old(nudges)| - Nudges(t.rounds)
      ensures Rechecked(opts, t.rounds, t.served, t'.rounds, t'.served, scores, old(lastNudge), lastNudge)
      ensures if next.Again? then Head(j, t', iteration, rejs, log.messages) else Ended(j, t', None)
      ensures outcome == if d.partial != [] then PartialSuccess else old(outcome)
      decreases world.budget, 18
    {
      MidMeans(j, t, iteration, rejs, log.messages, response);
      ghost var h := log.messages;
      ghost var round: Round;
      ghost var ss: seq<Served>;
      var ok: bool;
      ok, round, ss := Act(task, log, j, response, iteration);
      d := Sides(ss);
      SideMeans(d);
      if !ok {
        t' := t.(served := t.served + [ss], sent := Then(t.sent, d), end := Threw);
        TurnThrows(j, t, iteration, rejs, h, response, ss, t');
        return Fail, d, t';
      }
      t' := t.(rounds := t.rounds + [round], served := t.served + [ss], sent := Then(t.sent, d), end := Threw);
      NudgesPush(t.rounds, round);
      assert OneRound(t.rounds, t.served, t'.rounds, t'.served, round, ss);
      assert NudgedNext(opts, |t.rounds|, scores, old(lastNudge), lastNudge, round);
      TakeTurn(j, t, iteration, rejs, h, response, ss, round, log.messages, t');
      next := Again;
    }

    /** One trip. */
    method Iterate(task: string, log: Log, iter: int, rejs: int, suppress: bool, ghost j: Job, ghost t: Trace)
      returns (next: Next, iteration: int, rejections: int, ghost d: Record, ghost t': Trace)
      requires Ready() && Mine(j) && j.task == task && j.suppress == suppress && Head(j, t, iter, rejs, log.messages)
      modifies this, world, log
      ensures Ready() && Done(world.env, opts, id, old(Now()), Now(), d, !next.Fail?)
      ensures NoChildren(world.env) ==> Alone(old(Now()), Now(), d)
      ensures t'.sent == Then(t.sent, d) && Unplanned(d) && t'.planned == t.planned
      ensures Frugal(d) && Rechecked(opts, t.rounds, t.served, t'.rounds, t'.served, scores, old(lastNudge), lastNudge)
      ensures |nudges| - Nudges(t'.rounds) == |old(nudges)| - Nudges(t.rounds)
      ensures next.Again? ==> world.budget < old(world.budget) && Head(j, t', iteration, rejections, log.messages)
      ensures !next.Again? ==> Ended(j, t', Answer(next))
      ensures t'.end.Threw? <==> !next.Finish?
      ensures outcome == if t'.end.Stopped? || d.partial != [] then PartialSuccess else old(outcome)
      decreases world.budget, 4
    {
      var e := world.env;
      ghost var a := Now();
      var reply;
      next, reply, iteration, d, t' := Ask(task, log.messages, iter, rejs, suppress, j, t);
      rejections := rejs;
      if next.Again? {
        ghost var b, first, mid := Now(), d, t';
        ghost var f;
        next, rejections, f, t' := Respond(task, log, reply, iteration, rejs, j, mid);
        d := Then(first, f);
        DoneOn(e, opts, id, a, b, Now(), first, f, !next.Fail?);
        ThenAssoc(t.sent, first, f);
        WholeTrip(first, reply, f);
      }
    }

    /** The loop of one run. */
    method Loop(task: string, start: Prompt, suppress: bool) returns (r: Option<string>, ghost t: Trace)
      requires Ready()
      modifies this, world
      ensures Ready() && Done(world.env, opts, id, old(Now()), Now(), t.sent, r.Some?)
      ensures NoChildren(world.env) ==> Alone(old(Now()), Now(), t.sent)
      ensures Ended(Job(world.env, opts, task, start, suppress), t, r) && Unplanned(t.sent)
      ensures |nudges| == |old(nudges)| + Nudges(t.rounds) && Frugal(t.sent) && t.planned == NEW
      ensures SelfChecked(world.env, opts, old(scores), old(lastNudge), t.rounds, t.served)
      ensures outcome == if Marked(t) then PartialSuccess else old(outcome)
      decreases world.budget, 5
    {
      var e := world.env;
      ghost var a, j := Now(), Job(world.env, opts, task, start, suppress);
      var log := new Log(start);
      var iteration, rejections := 0, 0;
      t := Trace(NEW, [], [], NEW, Threw);
      StartsAtHead(j);
      NothingDone(e, opts, id, a);
      while true
        invariant Ready() && Done(e, opts, id, a, Now(), t.sent, true)
        invariant NoChildren(e) ==> Alone(a, Now(), t.sent)
        invariant Head(j, t, iteration, rejections, log.messages) && t.end.Threw? && Unplanned(t.sent) && Frugal(t.sent)
        invariant |nudges| == |old(nudges)| + Nudges(t.rounds) && t.planned == NEW
        invariant SelfChecked(e, opts, old(scores), old(lastNudge), t.rounds, t.served)
        invariant lastNudge == LastNudge(opts, old(lastNudge), t.rounds)
        invariant outcome == if t.sent.partial != [] then PartialSuccess else old(outcome)
        decreases world.budget
      {
        ghost var b, before, iter, rejs, h := Now(), t, iteration, rejections, log.messages;
        var next;
        ghost var d;
        next, iteration, rejections, d, t := Iterate(task, log, iteration, rejections, suppress, j, before);
        DoneOn(e, opts, id, a, b, Now(), before.sent, d, !next.Fail?);
        StillUnplanned(before.sent, d);
        FrugalThen(before.sent, d);
        HeadMeans(j, before, iter, rejs, h);
        if next.Again? { HeadMeans(j, t, iteration, rejections, log.messages); } else { EndedMeans(j, t, Answer(next)); }
        CheckedTrip(e, opts, id, a, Now(), before, t, !next.Fail?, old(lastNudge), lastNudge);
        if next.Fail? { return None, t; }
        if next.Finish? { return Some(next.text), t; }
      }
    }

    // ---- Planning ----

    /** The plan for a task, written by the model without tools. */
    method GeneratePlan(task: string) returns (plan: Option<string>, ghost x: Exchange)
      requires Ready()
      modifies this`tally, world
      ensures Ready() && Done(world.env, opts, id, old(Now()), Now(), Sent(Plan, x), plan.Some?)
      ensures x.prompt == PlanPrompt(world.env, task) && (plan.None? <==> x.reply.None?)
    {
      var r;
      r, x := Request(Plan, PlanPrompt(world.env, task));
      RequestDone(world.env, opts, id, old(Now()), Plan, x, r.Some?);
      if r.None? { return None, x; }
      plan := Some(world.env.write("plan", [], [task, r.value.content]));
    }

    /** Whether to go on with the plan; nothing when the request throws. */
    method RunPlanMode(task: string) returns (proceed: Option<bool>, ghost d: Record)
      requires Ready()
      modifies this`tally, world
      ensures Ready() && Done(world.env, opts, id, old(Now()), Now(), d, proceed.Some?)
      ensures OnlyPlans(d) && |d.plan| == 1 && d.plan[0].prompt == PlanPrompt(world.env, task) && d.started == []
      ensures proceed.None? <==> d.plan[0].reply.None?
      ensures d.plans == if proceed.None? || Unasking(opts) then [] else [proceed.value]
      ensures Unasking(opts) && proceed.Some? ==> proceed.value
    {
      var e := world.env;
      ghost var a := Now();
      var plan;
      ghost var x;
      plan, x := GeneratePlan(task);
      ghost var b := Now();
      d := Sent(Plan, x);
      if plan.None? { return None, d; }
      if opts.auto || !opts.interactive { return Some(true), d; }
      var yes := world.Ask(id, Approach);
      QuestionDone(e, opts, id, b, Asked(Approach, yes));
      DoneOn(e, opts, id, a, b, Now(), d, Asked(Approach, yes), true);
      d := Then(d, Asked(Approach, yes));
      proceed := Some(yes);
    }

    /** Each phase in turn, told the summaries of those before it. */
    method RunPhases(phases: seq<string>, suppress: bool) returns (r: Option<string>, ghost d: Record, ghost kids: seq<Kid>)
      requires Ready()
      modifies this`tally, this`absorbed, world
      ensures Ready() && Done(world.env, opts, id, old(Now()), Now(), d, r.Some?)
      ensures OnlyPlans(d) && d.plans == [] && d.started == kids && Phased(world.env, phases, d.plan, kids, r)
      ensures AsPhases(kids, suppress)
      decreases world.budget, 11
    {
      var e := world.env;
      ghost var a, p := Now(), opts.(singlePhase := true);
      var accumulated := "";
      kids, d := [], NEW;
      NoPhasesYet(e, phases);
      NoPhaseKid(suppress);
      NothingDone(e, opts, id, a);
      for i := 0 to |phases|
        invariant Ready() && Done(e, opts, id, a, Now(), d, true)
        invariant OnlyPlans(d) && d.plans == [] && d.started == kids && PhasesRan(e, phases, d.plan, kids) && |kids| == |d.plan| == i
        invariant accumulated == Accumulated(e, phases, d.plan, i)
        invariant AsPhases(kids, suppress)
      {
        ghost var b, before, had, f := Now(), d, kids, NEW;
        ghost var kid;
        var result, summary;
        result, summary, f, kid := RunPhase(phases[i], accumulated, suppress);
        DoneOn(e, opts, id, a, b, Now(), before, f, summary.Some?);
        NextPhase(e, phases, before, had, accumulated, kid, f);
        OnePhaseKid(had, kid, suppress);
        kids, d := had + [kid], Then(before, f);
        if summary.None? { return None, d, kids; }
        accumulated := accumulated + summary.value;
      }
      r := Some(e.write("phases done", [], [accumulated]));
    }

    /** One phase and its summary. */
    method RunPhase(phase: string, accumulated: string, suppress: bool)
      returns (result: Option<string>, summary: Option<string>, ghost d: Record, ghost kid: Kid)
      requires Ready()
      modifies this`tally, this`absorbed, world
      ensures Ready() && Done(world.env, opts, id, old(Now()), Now(), d, summary.Some?) && OnlyPlans(d) && d.plans == [] && d.started == [kid]
      ensures kid.task == PhaseTask(world.env, phase, accumulated) && kid.answer == result && kid.single && kid.suppress == suppress
      ensures result.None? ==> d.plan == [] && summary.None?
      ensures result.Some? ==> |d.plan| == 1 && PhaseSummed(world.env, phase, kid, d.plan[0])
      ensures result.Some? ==> summary == if d.plan[0].reply.Some? then Some(Summary(world.env, phase, d.plan[0])) else None
      decreases world.budget, 10
    {
      var e := world.env;
      ghost var a := Now();
      var limited, iterations;
      result, limited, iterations, kid := Start(PhaseTask(e, phase, accumulated), opts.(singlePhase := true), suppress);
      summary, d := None, Started(kid);
      if result.None? { return; }
      ghost var b := Now();
      var reply;
      ghost var x;
      reply, x := Request(Plan, SummaryPrompt(e, phase, result.value));
      RequestDone(e, opts, id, b, Plan, x, reply.Some?);
      DoneOn(e, opts, id, a, b, Now(), d, Sent(Plan, x), reply.Some?);
      PlansAdd(d, Sent(Plan, x));
      assert [] + [x] == [x] && [kid] + [] == [kid];
      d := Then(d, Sent(Plan, x));
      if reply.Some? { summary := Some(e.write("phase summary", [], [phase, reply.value.content])); }
    }

    method RunPhasePlanning(task: string, suppress: bool) returns (r: Option<string>, ghost d: Record, ghost kids: seq<Kid>)
      requires Ready()
      modifies this`tally, this`absorbed, this`outcome, world
      ensures Ready() && Done(world.env, opts, id, old(Now()), Now(), d, r.Some?)
      ensures PhasePlanned(world.env, opts, task, d, kids, r)
      ensures AsPhases(kids, suppress)
      ensures outcome == if TurnedDown(d.plans) then PlanRejected else old(outcome)
      ensures PhaseCosts(old(Now()), Now(), kids)
      decreases world.budget, 5
    {
      var e := world.env;
      ghost var a := Now();
      kids := [];
      var reply;
      ghost var x;
      reply, x := Request(Plan, PhasePrompt(e, task));
      RequestDone(e, opts, id, a, Plan, x, reply.Some?);
      d := Sent(Plan, x);
      if reply.None? {
        PlannedAtOnce(e, opts, task, x, [], None);
        NoPhaseKid(suppress);
        ThenNew(d);
        return None, d, kids;
      }
      ghost var b := Now();
      ghost var f;
      var phases := e.phasesOf(reply.value.content);
      if phases == [] {
        r, f, kids := RunWhole(task, suppress, x);
      } else {
        r, f, kids := RunIfApproved(task, phases, suppress, x);
      }
      DoneOn(e, opts, id, a, b, Now(), d, f, r.Some?);
      d := Then(d, f);
    }

    /** The whole task as one phase. */
    method RunWhole(task: string, suppress: bool, ghost x: Exchange) returns (r: Option<string>, ghost d: Record, ghost kids: seq<Kid>)
      requires Ready() && x.prompt == PhasePrompt(world.env, task) && x.reply.Some? && world.env.phasesOf(TextOf(x)) == []
      modifies this`tally, this`absorbed, world
      ensures Ready() && Done(world.env, opts, id, old(Now()), Now(), d, r.Some?)
      ensures PhasePlanned(world.env, opts, task, Then(Sent(Plan, x), d), kids, r)
      ensures AsPhases(kids, suppress)
      ensures !TurnedDown(Then(Sent(Plan, x), d).plans)
      ensures NoChildren(world.env) ==> |kids| == 1 && old(world.budget) - world.budget <= Size(kids[0].trace.sent)
      decreases world.budget, 10
    {
      var limited, iterations;
      ghost var kid;
      r, limited, iterations, kid := Start(task, opts.(singlePhase := true), suppress);
      kids, d := [kid], Started(kid);
      PlannedWhole(world.env, opts, task, x, kid, suppress);
    }

    /** The phases, once approved. `x` is the request that gave them. */
    method RunIfApproved(task: string, phases: seq<string>, suppress: bool, ghost x: Exchange)
      returns (r: Option<string>, ghost d: Record, ghost kids: seq<Kid>)
      requires Ready() && x.prompt == PhasePrompt(world.env, task) && x.reply.Some?
      requires phases != [] && phases == world.env.phasesOf(TextOf(x))
      modifies this`tally, this`absorbed, this`outcome, world
      ensures Ready() && Done(world.env, opts, id, old(Now()), Now(), d, r.Some?)
      ensures PhasePlanned(world.env, opts, task, Then(Sent(Plan, x), d), kids, r)
      ensures AsPhases(kids, suppress)
      ensures outcome == if TurnedDown(Then(Sent(Plan, x), d).plans) then PlanRejected else old(outcome)
      decreases world.budget, 13
    {
      var e := world.env;
      ghost var a := Now();
      kids := [];
      var approved;
      approved, d := ApprovePhases();
      if !approved {
        outcome := PlanRejected;
        PlannedRejected(e, opts, task, x, d, Then(Sent(Plan, x), d));
        NoPhaseKid(suppress);
        return Some(e.write("phase plan rejected", [], [])), d, kids;
      }
      ghost var asked := d;
      r, d, kids := RunApproved(task, phases, suppress, x, a, asked);
    }

    /** The phases, approved. `a` is how things stood before they were put up, `asked` what was asked. */
    method RunApproved(task: string, phases: seq<string>, suppress: bool, ghost x: Exchange, ghost a: Snap, ghost asked: Record)
      returns (r: Option<string>, ghost d: Record, ghost kids: seq<Kid>)
      requires Ready() && x.prompt == PhasePrompt(world.env, task) && x.reply.Some?
      requires phases != [] && phases == world.env.phasesOf(TextOf(x))
      requires asked == if Unasking(opts) then NEW else Asked(Approach, true)
      requires Done(world.env, opts, id, a, Now(), asked, true)
      modifies this`tally, this`absorbed, world
      ensures Ready() && Done(world.env, opts, id, a, Now(), d, r.Some?)
      ensures PhasePlanned(world.env, opts, task, Then(Sent(Plan, x), d), kids, r)
      ensures !TurnedDown(Then(Sent(Plan, x), d).plans)
      ensures AsPhases(kids, suppress)
      decreases world.budget, 12
    {
      ghost var b, f := Now(), NEW;
      r, f, kids := RunPhases(phases, suppress);
      DoneOn(world.env, opts, id, a, b, Now(), asked, f, r.Some?);
      d := Then(asked, f);
      PlannedPhases(world.env, opts, task, x, asked, f, kids, r, Then(Sent(Plan, x), d));
    }

    /** The phases are put up for approval, unless the run is automatic or not interactive. */
    method ApprovePhases() returns (approved: bool, ghost asked: Record)
      requires Ready()
      modifies world
      ensures Ready() && Done(world.env, opts, id, old(Now()), Now(), asked, true)
      ensures asked == if Unasking(opts) then NEW else Asked(Approach, approved)
      ensures Unasking(opts) ==> approved
      ensures world.budget == old(world.budget)
    {
      asked := NEW;
      NothingDone(world.env, opts, id, Now());
      if opts.auto || !opts.interactive { return true, asked; }
      approved := world.Ask(id, Approach);
      asked := Asked(Approach, approved);
      QuestionDone(world.env, opts, id, old(Now()), asked);
    }

    /** A whole run. An instance can be run again; totals and nudges go on from where they were. What it adds to the
        record is what planning adds first, and then its loop or, in the end, the phases `kids`. */
    method Run(task: string, ro: RunOptions) returns (r: Option<string>, ghost t: Trace, ghost kids: seq<Kid>)
      requires Ready()
      modifies this, world
      ensures Ready() && Done(world.env, opts, id, old(Now()), Now(), Then(t.planned, t.sent), r.Some?)
      ensures PlannedFirst(world.env, opts, task, ro.skipPlanMode, t.planned)
      ensures RunKept(JobOf(world.env, opts, task, ro.suppress), opts.singlePhase || ro.isSubagent, t, r, kids, old(scores), old(lastNudge))
      ensures |nudges| == |old(nudges)| + Nudges(t.rounds)
      ensures outcome == OutcomeOf(t)
      ensures t.planned == NEW ==>
        if opts.singlePhase || ro.isSubagent then NoChildren(world.env) ==> Alone(old(Now()), Now(), t.sent)
        else PhaseCosts(old(Now()), Now(), kids)
      decreases world.budget, 7
    {
      ghost var a := Now();
      outcome := Completed;
      kids := [];
      var proceed;
      ghost var planned;
      proceed, planned := PlanFirst(task, ro.skipPlanMode);
      if proceed.None? || !proceed.value {
        r, t := TurnAway(task, ro, proceed, planned);
        return;
      }
      r, t, kids := GoOn(task, ro, a, planned);
    }

    /** After planning: a loop or phases. `a` is how things stood before planning. */
    method GoOn(task: string, ro: RunOptions, ghost a: Snap, ghost planned: Record)
      returns (r: Option<string>, ghost t: Trace, ghost kids: seq<Kid>)
      requires Ready() && Done(world.env, opts, id, a, Now(), planned, true) && Proceeds(planned) && outcome == Completed
      modifies this, world
      ensures Ready() && Done(world.env, opts, id, a, Now(), Then(planned, t.sent), r.Some?) && t.planned == planned
      ensures RunKept(JobOf(world.env, opts, task, ro.suppress), opts.singlePhase || ro.isSubagent, t, r, kids, old(scores), old(lastNudge))
      ensures |nudges| == |old(nudges)| + Nudges(t.rounds)
      ensures outcome == OutcomeOf(t)
      ensures if opts.singlePhase || ro.isSubagent then NoChildren(world.env) ==> Alone(old(Now()), Now(), t.sent)
              else PhaseCosts(old(Now()), Now(), kids)
      decreases world.budget, 6, 1
    {
      kids := [];
      if !opts.singlePhase && !ro.isSubagent {
        r, t, kids := GoOnInPhases(task, ro.suppress, a, planned);
      } else {
        r, t := GoOnInLoop(task, ro.suppress, a, planned);
      }
    }

    /** After planning: nothing more, since the request for a plan threw or the plan was turned down. */
    method TurnAway(task: string, ro: RunOptions, proceed: Option<bool>, ghost planned: Record) returns (r: Option<string>, ghost t: Trace)
      requires Ready() && (proceed.Some? ==> !proceed.value)
      requires !Proceeds(planned) && outcome == Completed && (TurnedDown(planned.plans) <==> proceed.Some?)
      modifies this`outcome
      ensures RunKept(JobOf(world.env, opts, task, ro.suppress), opts.singlePhase || ro.isSubagent, t, r, [], scores, lastNudge)
      ensures Ready() && Now() == old(Now())
      ensures t.planned == planned && Then(planned, t.sent) == planned && t.rounds == [] && outcome == OutcomeOf(t)
      ensures r.Some? <==> proceed.Some?
    {
      t := Trace(planned, [], [], NEW, Idle);
      ThenNew(planned);
      r := if proceed.Some? then Some(world.env.write("plan rejected", [], [])) else None;
      if proceed.Some? { outcome := PlanRejected; }
      KeptAway(JobOf(world.env, opts, task, ro.suppress), opts.singlePhase || ro.isSubagent, t, r, [], scores, lastNudge);
    }

    /** After planning: the instance has a loop of its own. */
    method GoOnInLoop(task: string, suppress: bool, ghost a: Snap, ghost planned: Record) returns (r: Option<string>, ghost t: Trace)
      requires Ready() && Done(world.env, opts, id, a, Now(), planned, true) && Proceeds(planned) && outcome == Completed
      modifies this, world
      ensures Ready() && Done(world.env, opts, id, a, Now(), Then(planned, t.sent), r.Some?) && t.planned == planned
      ensures RunKept(JobOf(world.env, opts, task, suppress), true, t, r, [], old(scores), old(lastNudge))
      ensures |nudges| == |old(nudges)| + Nudges(t.rounds)
      ensures outcome == OutcomeOf(t)
      ensures NoChildren(world.env) ==> Alone(old(Now()), Now(), t.sent)
      decreases world.budget, 6, 0
    {
      ghost var b, loop := Now(), Trace(NEW, [], [], NEW, Threw);
      r, loop := Loop(task, Plain(world.env.write("system", [], []), task), suppress);
      t := loop.(planned := planned);
      AfterPlanning(JobOf(world.env, opts, task, suppress), loop, r, old(scores), old(lastNudge), planned);
      KeptLoop(JobOf(world.env, opts, task, suppress), t, r, old(scores), old(lastNudge));
      DoneOn(world.env, opts, id, a, b, Now(), planned, t.sent, r.Some?);
    }

    /** After planning: it has phases instead. */
    method GoOnInPhases(task: string, suppress: bool, ghost a: Snap, ghost planned: Record)
      returns (r: Option<string>, ghost t: Trace, ghost kids: seq<Kid>)
      requires Ready() && Done(world.env, opts, id, a, Now(), planned, true) && Proceeds(planned) && outcome == Completed
      modifies this`tally, this`absorbed, this`outcome, world
      ensures Ready() && Done(world.env, opts, id, a, Now(), Then(planned, t.sent), r.Some?) && t.planned == planned
      ensures RunKept(JobOf(world.env, opts, task, suppress), false, t, r, kids, scores, lastNudge) && t.rounds == []
      ensures outcome == OutcomeOf(t)
      ensures PhaseCosts(old(Now()), Now(), kids)
      decreases world.budget, 6, 0
    {
      ghost var b, d := Now(), NEW;
      r, d, kids := RunPhasePlanning(task, suppress);
      t := Trace(planned, [], [], d, Idle);
      KeptPhases(JobOf(world.env, opts, task, suppress), t, r, kids, scores, lastNudge);
      DoneOn(world.env, opts, id, a, b, Now(), planned, d, r.Some?);
    }

    /** Without delegations and without phases the requests are those of planning and of the one phase. */
    ghost predicate PhaseCosts(a: Snap, b: Snap, kids: seq<Kid>) {
      NoChildren(world.env) && Phaseless(world.env) ==>
        a.budget - b.budget <= 1 + if kids == [] then 0 else Size(kids[0].trace.sent)
    }

    /** The plan, when there is to be one, and whether it is approved; nothing when the request throws. */
    method PlanFirst(task: string, skipPlanMode: bool) returns (proceed: Option<bool>, ghost planned: Record)
      requires Ready()
      modifies this`tally, world
      ensures Ready() && Done(world.env, opts, id, old(Now()), Now(), planned, proceed.Some?)
      ensures PlannedFirst(world.env, opts, task, skipPlanMode, planned)
      ensures Proceeds(planned) <==> proceed.Some? && proceed.value
      ensures TurnedDown(planned.plans) <==> proceed.Some? && !proceed.value
      ensures planned == NEW ==> Now() == old(Now())
    {
      planned := NEW;
      NothingDone(world.env, opts, id, Now());
      var skills := world.env.skills(task);
      var shouldPlan := !skipPlanMode && (opts.planMode.Always? || (!opts.planMode.Never? && skills >= 2));
      if !shouldPlan { return Some(true), planned; }
      proceed, planned := RunPlanMode(task);
    }
  }
}
