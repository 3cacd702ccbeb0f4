/** Whole runs: what a task comes to over its whole tree, and what runs show that it does not. */
module Runs {
  import opened Prelude
  import opened Conversation
  import opened TruncationGuard
  import opened Compaction
  import opened Rounds
  import opened Accounting
  import opened AgentWorld
  import opened Settings
  import opened Subagents
  import opened Services
  import opened LoopTrace
  import opened Ledger
  import opened Tree
  import opened Orchestrator
  import opened Hiding
  import Snapshots
  import Anthropic
  import PlainCodec

  lemma {:induction false} NewIdsBefore(c: Codec, start: History, rounds: seq<Round>, i: nat)
    requires Sound(c) && (forall r :: r in rounds ==> Complete(r)) && i <= |rounds|
    requires Snapshots.NewIdsThroughout(c, start, rounds)
    ensures forall r :: r in rounds[..i] ==> Complete(r)
    ensures Snapshots.NewIdsThroughout(c, start, rounds[..i])
  {
    if i < |rounds| {
      NewIdsBefore(c, start, rounds[..|rounds| - 1], i);
      assert rounds[..|rounds| - 1][..i] == rounds[..i];
    } else {
      assert rounds[..i] == rounds;
    }
  }

  /** Every request of a loop is the history after the rounds before it. */
  lemma {:induction false} RequestIsHistory(j: Job, t: Trace, answer: Option<string>, n: nat)
    requires Ended(j, t, answer) && n < |t.sent.main|
    ensures n <= |t.rounds| && Playable(j, t.rounds[..n]) && t.sent.main[n].prompt == HistoryAfter(j, t.rounds[..n])
  {
    assert Shown(0);
    assert SentAfter(j, t.rounds, t.sent.main[n], n);
  }

  /** Every request a loop sends shows, for each file, the last observation dispatched before it and no other. */
  lemma {:induction false} RequestsShowOneSnapshot(j: Job, t: Trace, answer: Option<string>, i: nat)
    requires Ended(j, t, answer) && i < |t.sent.main| && !j.opts.fullContextToken
    requires Playable(j, t.rounds) && Snapshots.NewIdsThroughout(j.env.codec, j.start, t.rounds)
    requires forall k :: 0 <= k < |j.start| ==> !j.start[k].Assistant?
    ensures i <= |t.rounds| && forall r :: r in t.rounds[..i] ==> Complete(r)
    ensures Snapshots.Current(j.env.codec, t.sent.main[i].prompt, Snapshots.LogOf(j.env.codec, t.rounds[..i]))
  {
    RequestIsHistory(j, t, answer, i);
    NewIdsBefore(j.env.codec, j.start, t.rounds, i);
    Snapshots.OneCurrentSnapshot(j.env.codec, j.start, t.rounds[..i]);
  }

  /** In request `n` of a loop a call of round `i` has the arguments the model gave it exactly when no call dispatched
      from its round on supersedes them. */
  lemma {:induction false} RequestsKeepArguments(j: Job, t: Trace, answer: Option<string>, n: nat, i: nat, b: nat, at: nat)
    requires Ended(j, t, answer) && n < |t.sent.main| && !j.opts.fullContextToken
    requires Playable(j, t.rounds) && i < n <= |t.rounds| && b < |t.rounds[i].response.calls|
    requires forall r :: r in t.rounds[..i] ==> Complete(r)
    requires at == |Converse(j.env.codec, false, j.start, t.rounds[..i])|
    ensures var p, y := t.sent.main[n].prompt, t.rounds[i].response.calls[b];
      IsCall(p, at, b) && (p[at].calls[b] == y <==> !Superseded(j.env.codec, t.rounds[..n], i, y))
  {
    RequestIsHistory(j, t, answer, n);
    assert t.rounds[..n][..i] == t.rounds[..i] && t.rounds[..n][i] == t.rounds[i];
    ArgumentsKept(j.env.codec, j.start, t.rounds[..n], i, b, at);
  }

  // ---- A whole tree ----

  /** Every instance but the root was started by another one, and its run is on record. */
  ghost predicate AllRecorded(e: Env, o: Options, s: Snap) { forall w :: 1 <= w < |s.logs| ==> Recorded(e, o, s, w) }

  /** Every instance keeps to the bounds of a single run; a subagent to those of a run that is never restarted. */
  ghost predicate AllWithin(o: Options, s: Snap) {
    forall w :: 0 <= w < |s.logs| ==> Within(o, w in s.runs && s.runs[w].suppress, s.logs[w])
  }

  lemma {:induction false} RecordedWithin(e: Env, o: Options, s: Snap, w: nat)
    requires w < |s.logs| && Recorded(e, o, s, w)
    ensures Within(o, s.runs[w].suppress, s.logs[w])
  {
    var k := s.runs[w];
    EndedWithin(JobOf(e, o.(singlePhase := k.single), k.task, k.suppress), k.trace, k.answer);
  }

  lemma {:induction false} RootWithin(j: Job, looped: bool, t: Trace, r: Option<string>, kids: seq<Kid>, scores: seq<int>, last: Option<int>)
    requires RunKept(j, looped, t, r, kids, scores, last) && PlannedFirst(j.env, j.opts, j.task, false, t.planned) && !j.suppress
    ensures Within(j.opts, false, Then(t.planned, t.sent))
  {
    RunMeans(j, looped, t, r, kids, scores, last);
    PlansAdd(t.planned, t.sent);
    if Proceeds(t.planned) && looped {
      RanLoopMeans(j, t, r, scores, last);
      EndedWithin(j, t, r);
    } else {
      QuotaMonotone(0, Grants(t.sent.limits), j.opts.maxIterations);
    }
  }

  lemma {:induction false} TreeWithin(e: Env, o: Options, a: Snap, b: Snap, d: Record, ok: bool)
    requires Done(e, o, 0, a, b, d, ok) && a.logs == [NEW] && a.runs == map[] && Within(o, false, d)
    ensures b.logs[0] == d && AllRecorded(e, o, b) && AllWithin(o, b)
  {
    DoneParts(e, o, 0, a, b, d, ok);
    ThenNew(d);
    assert SameRun(a, b, 0);
    forall w | 0 <= w < |b.logs| ensures Within(o, w in b.runs && b.runs[w].suppress, b.logs[w]) {
      if w > 0 { RecordedWithin(e, o, b, w); }
    }
  }

  /** Translated for the other API, every use is answered at once and the same is said. */
  ghost predicate TranslatesWell(parse: Anthropic.Parse, h: History) {
    && (forall i: nat :: Anthropic.UsesAnsweredAt(Anthropic.Translation(parse, h), i))
    && Anthropic.AllSay(Anthropic.Translation(parse, h)) == Anthropic.SaidIn(parse, h, |h|)
  }

  lemma {:induction false} PromptsTranslate(parse: Anthropic.Parse, h: History)
    requires Answered(h)
    ensures EveryCallAnswered(h) && TranslatesWell(parse, h)
  {
    AnsweredMeans(h);
    Anthropic.AnsweredTranslates(parse, h);
    Anthropic.TranslationSaysTheSame(parse, h);
  }

  ghost predicate OnRecord(s: Snap, k: Kid) { k.id in s.runs && s.runs[k.id] == k }

  /** A run from nothing. The root's totals are those of every usage-reporting response in its whole tree, each
      counted once. Every request anyone sent answers every call in it, and still does when it is translated. The root
      does what a run promises, and every other instance is on record with a run of its own that does; each keeps to
      its quota of requests for the restarts granted to it, and to its audits. Nudges are at most a third of the
      limit. */
  method RunTask(env: Env, budget: nat, opts: Options, task: string, ghost parse: Anthropic.Parse)
    returns (root: Orchestrator, r: Option<string>, ghost t: Trace, ghost kids: seq<Kid>)
    requires Sound(env.codec)
    ensures r.Some? ==> root.tally == Spent(root.world.sent)
    ensures forall s :: s in root.world.sent ==> EveryCallAnswered(s.x.prompt) && TranslatesWell(parse, s.x.prompt)
    ensures root.opts == opts && root.world.env == env && root.world.logs != []
    ensures root.world.logs[0] == Then(t.planned, t.sent) && InOrder(t.sent.uses)
    ensures AllRecorded(env, opts, root.Now()) && AllWithin(opts, root.Now())
    ensures forall i :: 0 <= i < |t.sent.started| ==> OnRecord(root.Now(), t.sent.started[i])
    ensures PlannedFirst(env, opts, task, false, t.planned)
    ensures RunDid(JobOf(env, opts, task, false), opts.singlePhase, t, r, kids, [], None)
    ensures |root.nudges| == Nudges(t.rounds) <= (Max(1, opts.maxIterations) + 2) / 3
    ensures root.outcome == PartialSuccess <==> Marked(t)
    ensures root.outcome == PlanRejected <==> TurnedDown(t.planned.plans) || TurnedDown(t.sent.plans)
    ensures !opts.singlePhase ==> root.outcome != PartialSuccess
  {
    var world := new World(env, budget);
    root := new Orchestrator(world, opts);
    ghost var a := root.Now();
    r, t, kids := root.Run(task, RunOptions(false, false, false));
    forall s | s in root.world.sent ensures EveryCallAnswered(s.x.prompt) && TranslatesWell(parse, s.x.prompt) {
      PromptsTranslate(parse, s.x.prompt);
    }
    SpacedCount(root.nudges, Max(1, opts.maxIterations));
    RunMeans(JobOf(env, opts, task, false), opts.singlePhase, t, r, kids, [], None);
    OneOutcome(JobOf(env, opts, task, false), opts.singlePhase, t, r, kids, [], None);
    RootWithin(JobOf(env, opts, task, false), opts.singlePhase, t, r, kids, [], None);
    TreeWithin(env, opts, a, root.Now(), Then(t.planned, t.sent), r.Some?);
    DoneFromNothing(env, opts, a, root.Now(), t, r.Some?);
  }

  /** No run is both marked and turned down, and none in phases is marked. */
  lemma {:induction false} OneOutcome(j: Job, looped: bool, t: Trace, r: Option<string>, kids: seq<Kid>, scores: seq<int>, last: Option<int>)
    requires RunKept(j, looped, t, r, kids, scores, last)
    ensures OutcomeOf(t) == PlanRejected <==> TurnedDown(t.planned.plans) || TurnedDown(t.sent.plans)
    ensures Marked(t) ==> looped
  {
    RunMeans(j, looped, t, r, kids, scores, last);
    if Proceeds(t.planned) && looped { RanLoopMeans(j, t, r, scores, last); }
  }

  /** What was owed to begin with is owed at the end, and what was started is on record. */
  lemma {:induction false} DoneFromNothing(e: Env, o: Options, a: Snap, b: Snap, t: Trace, ok: bool)
    requires Done(e, o, 0, a, b, Then(t.planned, t.sent), ok) && a.spent == a.tally && t.planned.started == [] && t.planned.uses == []
    ensures ok ==> b.spent == b.tally
    ensures InOrder(t.sent.uses) && forall i :: 0 <= i < |t.sent.started| ==> OnRecord(b, t.sent.started[i])
  {
    DoneParts(e, o, 0, a, b, Then(t.planned, t.sent), ok);
    assert [] + t.sent.started == t.sent.started && [] + t.sent.uses == t.sent.uses;
    assert Owed(a) == ZERO;
    forall i | 0 <= i < |t.sent.started| ensures OnRecord(b, t.sent.started[i]) {
      assert StartedNow(a, b, Then(t.planned, t.sent).started[i]);
    }
  }

  // ---- What does not hold ----

  /** A model that always calls tools, none of them a subagent, under someone who approves nothing. */
  ghost predicate Endless(e: Env) { Sound(e.codec) && Reliable(e) && NoChildren(e) && Tireless(e) && Declining(e) }

  predicate Unaudited(o: Options) { !o.validateGoal && !NeverAsks(o) && o.planMode.Never? }

  lemma {:induction false} NoGrants(answers: seq<bool>)
    requires AllFalse(answers)
    ensures Grants(answers) == 0
  {
    if answers != [] { NoGrants(answers[..|answers| - 1]); }
  }

  lemma {:induction false} UngrantedLimit(j: Job, t: Trace)
    requires LimitKept(j, t.sent.main, t.sent.report, t.sent.limits, t.end) && Declining(j.env) && CanStop(j)
    ensures |t.sent.main| <= Max(0, j.opts.maxIterations)
    ensures |t.sent.report| == if t.end.Stopped? then 1 else 0
    ensures t.end.Stopped? ==> |t.sent.main| == Max(0, j.opts.maxIterations)
  {
    NoGrants(t.sent.limits);
  }

  lemma {:induction false} EndlessEnds(j: Job, t: Trace, answer: Option<string>)
    requires Endless(j.env) && CanStop(j) && !j.opts.validateGoal && Ended(j, t, answer)
    ensures !t.end.Accepted? && t.sent.audit == [] && |t.sent.main| <= Max(0, j.opts.maxIterations)
    ensures if t.end.Stopped? then |t.sent.main| == Max(0, j.opts.maxIterations) && |t.sent.report| == 1 && answer.Some?
            else t.sent.report == [] && answer.None?
  {
    EndedMeans(j, t, answer);
    UngrantedLimit(j, t);
  }

  /** There is such a model. */
  function EndlessEnv(c: Codec): Env {
    Env(c, _ => false, (_, _) => Reply(Response("", [Call("1", "read_tool", "{}")], None, "tool_calls"), None),
        (_, _) => "", (_, _) => 0, _ => false, _ => 0, _ => None, (_, _) => "", _ => "", _ => false, _ => [], (_, _, _) => "")
  }

  lemma {:induction false} EndlessExists(c: Codec)
    requires Sound(c)
    ensures Endless(EndlessEnv(c)) && Phaseless(EndlessEnv(c))
  {
    forall r | Typical(EndlessEnv(c), r) ensures r.calls == [Call("1", "read_tool", "{}")] {}
  }

  /** And it can have a sound codec. */
  lemma {:induction false} EndlessModel()
    ensures Endless(EndlessEnv(PlainCodec.PLAIN())) && Phaseless(EndlessEnv(PlainCodec.PLAIN()))
  {
    PlainCodec.SoundCodec();
    EndlessExists(PlainCodec.PLAIN());
  }

  /** With requests enough such a run stops at its limit, one request for each iteration and one iteration more. */
  lemma {:induction false} EndlessStops(e: Env, o: Options, id: nat, a: Snap, b: Snap, j: Job, t: Trace, answer: Option<string>)
    requires Endless(e) && j.env == e && CanStop(j) && !j.opts.validateGoal && Ended(j, t, answer)
    requires Done(e, o, id, a, b, t.sent, answer.Some?) && a.budget - b.budget <= Size(t.sent) && |a.logs| == |b.logs|
    requires a.budget > Max(0, j.opts.maxIterations) + 1
    ensures t.end.Stopped? && answer.Some? && |t.sent.main| == Max(0, j.opts.maxIterations)
    ensures b.tally.iterations == a.tally.iterations + |t.sent.main| + 1
    ensures b.budget >= a.budget - Max(0, j.opts.maxIterations) - 1
  {
    EndlessEnds(j, t, answer);
    DoneMeans(e, o, id, a, b, t.sent, answer.Some?);
  }

  lemma {:induction false} DoneMeans(e: Env, o: Options, id: nat, a: Snap, b: Snap, d: Record, ok: bool)
    requires Done(e, o, id, a, b, d, ok)
    ensures b.logs[id] == Then(a.logs[id], d)
    ensures Trips(b) == Trips(a) + |d.main| + |d.report|
    ensures ok ==> (b.absorbed == a.absorbed <==> |b.logs| == |a.logs|)
    ensures RunsKept(a, b, d)
    ensures !ok && Reliable(e) ==> b.budget == 0
  {
    assert Shown(0);
  }

  /** Two runs of one instance: the second run's iterations are added to the first's, and each run that stops
      counts one more than it has requests. */
  method IterationsOutrunRequests(env: Env, budget: nat, opts: Options, task: string) returns (root: Orchestrator)
    requires Endless(env) && Unaudited(opts) && opts.singlePhase && budget > 2 * Max(0, opts.maxIterations) + 4
    ensures root.opts == opts && root.world.env == env && |root.world.logs| == 1
    ensures |root.world.logs[0].main| == 2 * Max(0, opts.maxIterations)
    ensures root.tally.iterations == 2 * Max(0, opts.maxIterations) + 2
  {
    var world := new World(env, budget);
    root := new Orchestrator(world, opts);
    var first := StopOnce(root, task);
    var second := StopOnce(root, task);
  }

  /** One of them. */
  method StopOnce(root: Orchestrator, task: string) returns (r: Option<string>)
    requires root.Ready() && Endless(root.world.env) && Unaudited(root.opts) && root.opts.singlePhase
    requires root.world.budget > Max(0, root.opts.maxIterations) + 1
    modifies root, root.world
    ensures root.Ready() && |root.world.logs| == |old(root.world.logs)|
    ensures |root.world.logs[root.id].main| == |old(root.world.logs)[root.id].main| + Max(0, root.opts.maxIterations)
    ensures root.tally.iterations == old(root.tally.iterations) + Max(0, root.opts.maxIterations) + 1
    ensures root.world.budget >= old(root.world.budget) - Max(0, root.opts.maxIterations) - 1
    ensures r.Some? && root.outcome == PartialSuccess
  {
    ghost var e, o, a := root.world.env, root.opts, root.Now();
    ghost var t, kids;
    r, t, kids := root.Run(task, RunOptions(false, false, false));
    LoopedAlone(JobOf(e, o, task, false), t, r, kids, a.scores, old(root.lastNudge));
    RanLoopMeans(JobOf(e, o, task, false), t, r, a.scores, old(root.lastNudge));
    ThenNew(t.sent);
    AloneMeans(a, root.Now(), t.sent);
    EndlessStops(e, o, root.id, a, root.Now(), JobOf(e, o, task, false), t, r);
    DoneMeans(e, o, root.id, a, root.Now(), t.sent, true);
  }

  /** A task divided into no phases runs as one phase; when that one is stopped, the root is none the wiser. */
  method PhaseStopsUnseen(env: Env, budget: nat, opts: Options, task: string)
    returns (root: Orchestrator, r: Option<string>, ghost kid: Kid)
    requires Endless(env) && Phaseless(env) && Unaudited(opts) && !opts.singlePhase && budget > Max(0, opts.maxIterations) + 3
    ensures r.Some? && root.opts == opts && root.outcome == Completed
    ensures KidRan(env, opts, root.world.logs, kid) && kid.trace.end.Stopped? && kid.answer == r
    ensures kid.id != root.id && |root.world.logs[kid.id].report| == 1
  {
    var world := new World(env, budget);
    root := new Orchestrator(world, opts);
    ghost var a, t, kids := root.Now(), Trace(NEW, [], [], NEW, Idle), [];
    r, t, kids := root.Run(task, RunOptions(false, false, false));
    PhaseStops(env, opts, a, root.Now(), task, t, r, kids);
    kid := kids[0];
  }

  lemma {:induction false} PhaseStops(e: Env, o: Options, a: Snap, b: Snap, task: string, t: Trace, r: Option<string>, kids: seq<Kid>)
    requires Endless(e) && Phaseless(e) && Unaudited(o) && a.budget > Max(0, o.maxIterations) + 3 && a.logs == [NEW]
    requires Done(e, o, 0, a, b, Then(t.planned, t.sent), r.Some?) && t.planned == NEW
    requires RunKept(JobOf(e, o, task, false), false, t, r, kids, [], None)
    requires a.budget - b.budget <= 1 + if kids == [] then 0 else Size(kids[0].trace.sent)
    ensures r.Some? && OutcomeOf(t) == Completed && |kids| == 1
    ensures var kid := kids[0];
      KidRan(e, o, b.logs, kid) && kid.trace.end.Stopped? && kid.answer == r && kid.id != 0 && |b.logs[kid.id].report| == 1
  {
    ThenNew(t.sent);
    DoneMeans(e, o, 0, a, b, t.sent, r.Some?);
    OnePhase(JobOf(e, o, task, false), t, r, kids);
    var kid := kids[0];
    PhaseOnRecord(e, o, a, b, t.sent, r.Some?, kid);
    EndlessEnds(JobOf(e, o.(singlePhase := true), kid.task, false), kid.trace, kid.answer);
  }

  lemma {:induction false} PhaseOnRecord(e: Env, o: Options, a: Snap, b: Snap, d: Record, ok: bool, k: Kid)
    requires Done(e, o, 0, a, b, d, ok) && a.logs == [NEW] && d.started == [k] && k.single && !k.suppress
    ensures k.id != 0 && KidRan(e, o, b.logs, k) && Ended(JobOf(e, o.(singlePhase := true), k.task, false), k.trace, k.answer)
  {
    DoneParts(e, o, 0, a, b, d, ok);
    assert StartedNow(a, b, d.started[0]) && Recorded(e, o, b, k.id);
  }

  lemma {:induction false} OnePhase(j: Job, t: Trace, r: Option<string>, kids: seq<Kid>)
    requires RunKept(j, false, t, r, kids, [], None) && t.planned == NEW && Phaseless(j.env)
    ensures t.sent.plans == [] && t.sent.partial == [] && t.sent.started == kids && !t.end.Stopped?
    ensures if kids == [] then r.None? else |kids| == 1 && kids[0].answer == r && kids[0].single && kids[0].suppress == j.suppress
  {
    assert Shown(0);
    PlannedNone(j.env, j.opts, j.task, t.sent, kids, r);
  }

  lemma {:induction false} PlannedNone(e: Env, o: Options, task: string, d: Record, kids: seq<Kid>, r: Option<string>)
    requires PhasePlanned(e, o, task, d, kids, r) && Phaseless(e)
    ensures d.plans == [] && d.partial == []
    ensures if kids == [] then r.None? else |kids| == 1 && kids[0].answer == r
  {
    assert Shown(0);
  }
}
