/** What an operation of one instance does to its own records, to those of others and to the totals. */
module Ledger {
  import opened Prelude
  import opened Accounting
  import opened AgentWorld
  import opened Settings
  import opened Subagents
  import opened Services
  import opened LoopTrace
  import opened Hiding
  import Sequences

  // ---- What an operation does ----

  /** The world, and this instance: its totals, the iterations it has taken over from children, its scores. */
  datatype Snap = Snap(
    clock: nat, budget: int, logs: seq<Record>, runs: map<nat, Kid>, spent: Tally,
    tally: Tally, absorbed: int, scores: seq<int>)

  /** What the world has seen and this instance has not counted. */
  function Owed(s: Snap): Tally { Minus(s.spent, s.tally) }

  /** The instance's own trips round its loop. */
  function Trips(s: Snap): int { s.tally.iterations - s.absorbed }

  /** Tools are used one after the other. */
  ghost predicate Rising(uses: seq<Use>, from: nat, to: nat) {
    && from <= to
    && (forall i :: 0 <= i < |uses| ==> from <= uses[i].now < to)
    && InOrder(uses)
  }

  ghost predicate InOrder(uses: seq<Use>) { forall i, k :: 0 <= i < k < |uses| ==> uses[i].now < uses[k].now }

  /** An instance that another one started: its record is that of one run of the loop. */
  ghost predicate KidRan(e: Env, o: Options, logs: seq<Record>, k: Kid) {
    var p := o.(singlePhase := k.single);
    && k.id < |logs| && logs[k.id] == k.trace.sent
    && Ended(JobOf(e, p, k.task, k.suppress), k.trace, k.answer) && Frugal(k.trace.sent)
    && SelfChecked(e, p, [], None, k.trace.rounds, k.trace.served)
    && Nudges(k.trace.rounds) <= (Max(1, o.maxIterations) + 2) / 3
    && InOrder(k.trace.sent.uses)
  }

  /** Instance `w` was started by another one, and its run is on record. */
  ghost predicate Recorded(e: Env, o: Options, s: Snap, w: nat) {
    w in s.runs && s.runs[w].id == w && KidRan(e, o, s.logs, s.runs[w])
  }

  /** Only record `id` and new ones change. */
  ghost predicate Grew(e: Env, o: Options, id: nat, a: Snap, b: Snap, d: Record) {
    && id < |a.logs| <= |b.logs| && b.logs[id] == Then(a.logs[id], d)
    && (forall w :: 0 <= w < |a.logs| && w != id ==> b.logs[w] == a.logs[w])
    && (forall w :: |a.logs| <= w < |b.logs| ==> Recorded(e, o, b, w))
  }

  ghost predicate SameRun(a: Snap, b: Snap, w: nat) { (w in a.runs <==> w in b.runs) && (w in a.runs ==> b.runs[w] == a.runs[w]) }

  ghost predicate StartedNow(a: Snap, b: Snap, k: Kid) { |a.logs| <= k.id < |b.logs| && k.id in b.runs && b.runs[k.id] == k }

  /** The runs on record stay, and those `d` has started are among the new ones. */
  ghost predicate RunsKept(a: Snap, b: Snap, d: Record) {
    && (forall w: nat :: w < |a.logs| ==> SameRun(a, b, w))
    && (forall i :: 0 <= i < |d.started| ==> StartedNow(a, b, d.started[i]))
  }

  /** From `a` to `b` instance `id` adds `d` to its record, and counts what is spent meanwhile, by it and by
      the instances it starts. When it fails (not `ok`) although the model never does, the budget is gone. Beyond
      the first line this is `Balanced`, passed on whole. */
  ghost predicate Done(e: Env, o: Options, id: nat, a: Snap, b: Snap, d: Record, ok: bool) {
    && id < |a.logs| <= |b.logs| && b.budget <= a.budget
    && forall n: nat :: Shown(n) ==> Balanced(e, o, id, a, b, d, ok)
  }

  ghost predicate Balanced(e: Env, o: Options, id: nat, a: Snap, b: Snap, d: Record, ok: bool) {
    && Grew(e, o, id, a, b, d) && RunsKept(a, b, d)
    && Rising(d.uses, a.clock, b.clock) && b.scores == a.scores + ScoresIn(e, o, d.uses)
    && Counted(e, a, b, d, ok)
  }

  /** Trips, iterations and usage. */
  ghost predicate Counted(e: Env, a: Snap, b: Snap, d: Record, ok: bool) {
    && Trips(b) == Trips(a) + |d.main| + |d.report|
    && a.absorbed <= b.absorbed
    && (ok ==> Owed(b) == Owed(a) && (b.absorbed == a.absorbed <==> d.started == []))
    && (|b.logs| == |a.logs| <==> d.started == [])
    && (!ok && Reliable(e) ==> b.budget == 0)
  }

  function Size(d: Record): nat { |d.main| + |d.audit| + |d.report| }

  /** No other instance was started, and every request is one of the loop's own. Passed on whole. */
  ghost predicate Alone(a: Snap, b: Snap, d: Record) {
    forall n: nat :: Shown(n) ==>
      |b.logs| == |a.logs| && d.partial == [] && d.children == [] && d.started == [] && a.budget - b.budget <= Size(d)
  }

  lemma {:induction false} KidStays(e: Env, o: Options, logs: seq<Record>, more: seq<Record>, k: Kid)
    requires KidRan(e, o, logs, k) && k.id < |more| && more[k.id] == logs[k.id]
    ensures KidRan(e, o, more, k)
  {}

  lemma {:induction false} RecordedStays(e: Env, o: Options, id: nat, a: Snap, b: Snap, d: Record, w: nat)
    requires Grew(e, o, id, a, b, d) && RunsKept(a, b, d) && w < |a.logs| && w != id && Recorded(e, o, a, w)
    ensures Recorded(e, o, b, w)
  {
    assert SameRun(a, b, w);
    KidStays(e, o, a.logs, b.logs, a.runs[w]);
  }

  lemma {:induction false} GrewOn(e: Env, o: Options, id: nat, a: Snap, b: Snap, c: Snap, d: Record, f: Record)
    requires Grew(e, o, id, a, b, d) && RunsKept(a, b, d) && Grew(e, o, id, b, c, f) && RunsKept(b, c, f)
    ensures Grew(e, o, id, a, c, Then(d, f))
  {
    ThenAssoc(a.logs[id], d, f);
    forall w | |a.logs| <= w < |c.logs| ensures Recorded(e, o, c, w) {
      if w < |b.logs| { RecordedStays(e, o, id, b, c, f, w); }
    }
  }

  lemma {:induction false} RunsKeptOn(a: Snap, b: Snap, c: Snap, d: Record, f: Record)
    requires RunsKept(a, b, d) && RunsKept(b, c, f) && |a.logs| <= |b.logs| <= |c.logs|
    ensures RunsKept(a, c, Then(d, f))
  {
    forall w: nat | w < |a.logs| ensures SameRun(a, c, w) {
      assert SameRun(a, b, w) && SameRun(b, c, w);
    }
    var both := d.started + f.started;
    forall i | 0 <= i < |both| ensures StartedNow(a, c, both[i]) {
      if i < |d.started| {
        assert StartedNow(a, b, d.started[i]) && SameRun(b, c, d.started[i].id);
      } else {
        assert StartedNow(b, c, f.started[i - |d.started|]);
      }
    }
  }

  lemma {:induction false} RisingOn(a: seq<Use>, b: seq<Use>, from: nat, mid: nat, to: nat)
    requires Rising(a, from, mid) && Rising(b, mid, to)
    ensures Rising(a + b, from, to)
  {}

  lemma {:induction false} CountedOn(e: Env, a: Snap, b: Snap, c: Snap, d: Record, f: Record, ok: bool)
    requires Counted(e, a, b, d, true) && Counted(e, b, c, f, ok) && |a.logs| <= |b.logs| <= |c.logs|
    ensures Counted(e, a, c, Then(d, f), ok)
  {}

  /** One operation after another. */
  lemma {:induction false} DoneOn(e: Env, o: Options, id: nat, a: Snap, b: Snap, c: Snap, d: Record, f: Record, ok: bool)
    requires Done(e, o, id, a, b, d, true) && Done(e, o, id, b, c, f, ok)
    ensures Done(e, o, id, a, c, Then(d, f), ok)
    ensures Alone(a, b, d) && Alone(b, c, f) ==> Alone(a, c, Then(d, f))
  {
    assert Shown(0);
    GrewOn(e, o, id, a, b, c, d, f);
    RunsKeptOn(a, b, c, d, f);
    RisingOn(d.uses, f.uses, a.clock, b.clock, c.clock);
    ScoresAdd(e, o, d.uses, f.uses);
    Sequences.Assoc(a.scores, ScoresIn(e, o, d.uses), ScoresIn(e, o, f.uses));
    CountedOn(e, a, b, c, d, f, ok);
  }

  /** Nothing on record but `d`, and no tool used. */
  lemma {:induction false} OwnOnly(e: Env, o: Options, id: nat, a: Snap, b: Snap, d: Record)
    requires id < |a.logs| && b.logs == Logged(a.logs, id, d) && b.runs == a.runs && d.started == []
    ensures Grew(e, o, id, a, b, d) && RunsKept(a, b, d) && |b.logs| == |a.logs|
    ensures d.uses == [] && a.clock <= b.clock && b.scores == a.scores ==>
      Rising(d.uses, a.clock, b.clock) && b.scores == a.scores + ScoresIn(e, o, d.uses)
  {}

  lemma {:induction false} NothingDone(e: Env, o: Options, id: nat, a: Snap)
    requires id < |a.logs|
    ensures Done(e, o, id, a, a, NEW, true) && Alone(a, a, NEW)
    ensures Reliable(e) ==> a.budget == 0 ==> Done(e, o, id, a, a, NEW, false)
  {
    assert Shown(0);
    ThenNew(a.logs[id]);
    OwnOnly(e, o, id, a, a, NEW);
  }

  lemma {:induction false} DoneParts(e: Env, o: Options, id: nat, a: Snap, b: Snap, d: Record, ok: bool)
    requires Done(e, o, id, a, b, d, ok)
    ensures Balanced(e, o, id, a, b, d, ok)
  {
    assert Shown(0);
  }

  lemma {:induction false} PartsDone(e: Env, o: Options, id: nat, a: Snap, b: Snap, d: Record, ok: bool)
    requires Balanced(e, o, id, a, b, d, ok) && b.budget <= a.budget
    ensures Done(e, o, id, a, b, d, ok)
  {}

  // ---- Requests and questions ----

  /** After one request, its usage added. */
  function Requested(s: Snap, id: nat, kind: Kind, x: Exchange): Snap {
    s.(clock := s.clock + 1, budget := if x.reply.Some? then s.budget - 1 else s.budget,
       logs := Logged(s.logs, id, Sent(kind, x)), spent := Counting(s.spent, kind, x), tally := Add(s.tally, UsageIn(x)))
  }

  function Tripped(s: Snap): Snap { s.(tally := Trip(s.tally)) }

  /** Unless the model is unreliable, a request fails only when the budget is gone. */
  ghost predicate Fair(e: Env, budget: int, x: Exchange) { x.reply.None? && Reliable(e) ==> budget == 0 }

  /** An audit, a report on a subagent, or planning. A caller may or may not take its failure as its own. */
  lemma {:induction false} RequestDone(e: Env, o: Options, id: nat, s: Snap, kind: Kind, x: Exchange, ok: bool)
    requires id < |s.logs| && !IsTrip(kind) && Fair(e, s.budget, x) && (ok || x.reply.None?)
    ensures Done(e, o, id, s, Requested(s, id, kind, x), Sent(kind, x), ok)
    ensures kind.Audit? ==> Alone(s, Requested(s, id, kind, x), Sent(kind, x))
  {
    assert Shown(0);
    OwnOnly(e, o, id, s, Requested(s, id, kind, x), Sent(kind, x));
    SameOnBoth(s.spent, s.tally, UsageIn(x));
  }

  /** A trip: counted first, then the request of the loop or the final report. */
  lemma {:induction false} TripDone(e: Env, o: Options, id: nat, s: Snap, kind: Kind, x: Exchange, ok: bool)
    requires id < |s.logs| && IsTrip(kind) && Fair(e, s.budget, x) && (ok || x.reply.None?)
    ensures Done(e, o, id, s, Requested(Tripped(s), id, kind, x), Sent(kind, x), ok)
    ensures Alone(s, Requested(Tripped(s), id, kind, x), Sent(kind, x))
  {
    assert Shown(0);
    OwnOnly(e, o, id, s, Requested(Tripped(s), id, kind, x), Sent(kind, x));
    SameOnBoth(s.spent, s.tally, UsageIn(x));
    SameOnBoth(Add(s.spent, UsageIn(x)), Add(s.tally, UsageIn(x)), None);
    assert Add(Trip(s.tally), UsageIn(x)) == Trip(Add(s.tally, UsageIn(x)));
  }

  /** After questions only. */
  function Questioned(s: Snap, id: nat, asked: Record): Snap {
    s.(clock := s.clock + |asked.limits| + |asked.children| + |asked.plans|, logs := Logged(s.logs, id, asked))
  }

  predicate OnlyAsked(d: Record) { d == NEW.(limits := d.limits, children := d.children, plans := d.plans) }

  lemma {:induction false} QuestionDone(e: Env, o: Options, id: nat, s: Snap, asked: Record)
    requires id < |s.logs| && OnlyAsked(asked)
    ensures Done(e, o, id, s, Questioned(s, id, asked), asked, true)
    ensures asked.children == [] ==> Alone(s, Questioned(s, id, asked), asked)
  {
    assert Shown(0);
    OwnOnly(e, o, id, s, Questioned(s, id, asked), asked);
  }

  lemma {:induction false} NothingAsked(s: Snap, id: nat)
    requires id < |s.logs|
    ensures Questioned(s, id, NEW) == s
  {
    ThenNew(s.logs[id]);
  }

  /** It does not matter whether the trip is counted before the question or after it. */
  lemma {:induction false} CountedFirst(s: Snap, id: nat, asked: Record)
    ensures Questioned(Tripped(s), id, asked) == Tripped(Questioned(s, id, asked))
  {}

  /** A whole trip: what is asked at the limit, then the request of the loop or the final report. */
  lemma {:induction false} TripMade(e: Env, o: Options, id: nat, a: Snap, asked: Record, kind: Kind, x: Exchange, ok: bool)
    requires id < |a.logs| && OnlyAsked(asked) && asked.children == []
    requires IsTrip(kind) && Fair(e, a.budget, x) && (ok || x.reply.None?)
    ensures var c, d := Requested(Tripped(Questioned(a, id, asked)), id, kind, x), Then(asked, Sent(kind, x));
      Done(e, o, id, a, c, d, ok) && Alone(a, c, d) && d.partial == [] && d.plan == [] && d.plans == asked.plans && d.started == []
  {
    var b := Questioned(a, id, asked);
    QuestionDone(e, o, id, a, asked);
    TripDone(e, o, id, b, kind, x, ok);
    DoneOn(e, o, id, a, b, Requested(Tripped(b), id, kind, x), asked, Sent(kind, x), ok);
    assert asked.plans + [] == asked.plans;
  }

  /** After one use of a tool. */
  function Observed(e: Env, o: Options, s: Snap, id: nat, u: Use): Snap {
    s.(clock := s.clock + 1, logs := Logged(s.logs, id, Used(u)),
       scores := s.scores + if o.selfHealing then [e.score(u.now, u.call)] else [])
  }

  lemma {:induction false} UseDone(e: Env, o: Options, id: nat, s: Snap, u: Use)
    requires id < |s.logs| && u.now == s.clock
    ensures Done(e, o, id, s, Observed(e, o, s, id, u), Used(u), true) && Alone(s, Observed(e, o, s, id, u), Used(u))
  {
    var b := Observed(e, o, s, id, u);
    OwnOnly(e, o, id, s, b, Used(u));
    OneScore(e, o, u);
    assert s.scores + [] == s.scores;
    assert Rising(Used(u).uses, s.clock, b.clock);
    PartsDone(e, o, id, s, b, Used(u), true);
  }

  lemma {:induction false} OneScore(e: Env, o: Options, u: Use)
    ensures ScoresIn(e, o, [u]) == if o.selfHealing then [e.score(u.now, u.call)] else []
  {
    ScoresAdd(e, o, [], [u]);
    assert [] + [u] == [u] && [u][..0] == [] && ScoresIn(e, o, []) == [];
  }

  lemma {:induction false} AloneMeans(a: Snap, b: Snap, d: Record)
    requires Alone(a, b, d)
    ensures |b.logs| == |a.logs| && a.budget - b.budget <= Size(d)
  {
    assert Shown(0);
  }

  // ---- Children ----

  /** A parent once its child has run. */
  function Over(s: Snap, child: Snap, id: nat, k: Kid): Snap {
    child.(logs := Logged(child.logs, id, Started(k)), runs := child.runs[k.id := k],
           tally := s.tally, absorbed := s.absorbed, scores := s.scores)
  }

  /** The child's totals absorbed, unless it threw. */
  function Absorbing(s: Snap, child: Snap, id: nat, k: Kid): Snap {
    var over := Over(s, child, id, k);
    if k.answer.Some? then over.(tally := Plus(s.tally, child.tally), absorbed := s.absorbed + child.tally.iterations) else over
  }

  /** A child when it starts. */
  function Born(s: Snap): Snap { s.(logs := s.logs + [NEW], tally := ZERO, absorbed := 0, scores := []) }

  lemma {:induction false} ChildRecorded(e: Env, o: Options, p: Options, id: nat, s: Snap, child: Snap, k: Kid, w: nat)
    requires id < |s.logs| && k.id == |s.logs| && o == p.(singlePhase := o.singlePhase)
    requires Grew(e, p, k.id, Born(s), child, k.trace.sent) && KidRan(e, o, child.logs, k)
    requires |s.logs| <= w < |child.logs|
    ensures Recorded(e, o, Absorbing(s, child, id, k), w)
  {
    var b := Absorbing(s, child, id, k);
    if w == k.id {
      KidStays(e, o, child.logs, b.logs, k);
    } else {
      assert Recorded(e, p, child, w);
      SameBounds(e, o, p, child.logs, child.runs[w]);
      KidStays(e, o, child.logs, b.logs, child.runs[w]);
    }
  }

  /** Whether an instance plans in phases itself does not matter to what it promises of its children. */
  lemma {:induction false} SameBounds(e: Env, o: Options, p: Options, logs: seq<Record>, k: Kid)
    requires o == p.(singlePhase := o.singlePhase) && KidRan(e, p, logs, k)
    ensures KidRan(e, o, logs, k)
  {
    assert o.(singlePhase := k.single) == p.(singlePhase := k.single);
  }

  lemma {:induction false} ChildGrew(e: Env, o: Options, p: Options, id: nat, s: Snap, child: Snap, k: Kid)
    requires id < |s.logs| && k.id == |s.logs| && o == p.(singlePhase := o.singlePhase)
    requires Grew(e, p, k.id, Born(s), child, k.trace.sent) && RunsKept(Born(s), child, k.trace.sent)
    requires KidRan(e, o, child.logs, k)
    ensures Grew(e, o, id, s, Absorbing(s, child, id, k), Started(k)) && RunsKept(s, Absorbing(s, child, id, k), Started(k))
  {
    var b := Absorbing(s, child, id, k);
    forall w | |s.logs| <= w < |b.logs| ensures Recorded(e, o, b, w) { ChildRecorded(e, o, p, id, s, child, k, w); }
    forall w: nat | w < |s.logs| ensures SameRun(s, b, w) { assert SameRun(Born(s), child, w); }
    assert forall w :: 0 <= w < |s.logs| && w != id ==> child.logs[w] == Born(s).logs[w] == s.logs[w];
    assert child.logs[id] == Born(s).logs[id] == s.logs[id];
  }

  lemma {:induction false} ChildCounted(e: Env, id: nat, s: Snap, child: Snap, k: Kid)
    requires id < |s.logs| < |child.logs| && Counted(e, Born(s), child, k.trace.sent, k.answer.Some?)
    requires |k.trace.sent.main| + |k.trace.sent.report| > 0
    ensures Counted(e, s, Absorbing(s, child, id, k), Started(k), k.answer.Some?)
  {
    if k.answer.Some? { ChildAbsorbed(s.spent, child.spent, child.tally, s.tally); }
  }

  lemma {:induction false} StartOnly(e: Env, o: Options, s: Snap, b: Snap, k: Kid)
    requires s.clock <= b.clock && b.scores == s.scores
    ensures Rising(Started(k).uses, s.clock, b.clock) && b.scores == s.scores + ScoresIn(e, o, Started(k).uses)
  {
    assert s.scores + [] == s.scores;
  }

  /** A child that starts from nothing and does as its trace says, seen by its parent. */
  lemma {:induction false} ChildDone(e: Env, o: Options, p: Options, id: nat, s: Snap, child: Snap, k: Kid)
    requires id < |s.logs| && k.id == |s.logs| && o == p.(singlePhase := o.singlePhase)
    requires Done(e, p, k.id, Born(s), child, k.trace.sent, k.answer.Some?)
    requires KidRan(e, o, child.logs, k) && |k.trace.sent.main| + |k.trace.sent.report| > 0
    ensures Done(e, o, id, s, Absorbing(s, child, id, k), Started(k), k.answer.Some?)
  {
    var b := Absorbing(s, child, id, k);
    DoneParts(e, p, k.id, Born(s), child, k.trace.sent, k.answer.Some?);
    ChildGrew(e, o, p, id, s, child, k);
    ChildCounted(e, id, s, child, k);
    StartOnly(e, o, s, b, k);
    PartsDone(e, o, id, s, b, Started(k), k.answer.Some?);
  }

  /** The iterations a run adds are its requests exactly when it did not stop at its limit and started no other
      instance. */
  lemma {:induction false} IterationsAreRequests(e: Env, o: Options, id: nat, a: Snap, b: Snap, j: Job, t: Trace, answer: Option<string>)
    requires Done(e, o, id, a, b, t.sent, true) && Ended(j, t, answer)
    ensures b.tally.iterations - a.tally.iterations == |t.sent.main| <==> !t.end.Stopped? && t.sent.started == []
  {
    assert Shown(0);
  }
}
