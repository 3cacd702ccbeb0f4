/** What an instance is told, and the bounds that follow from it. */
module Settings {
  import opened Prelude
  import opened Conversation
  import opened AgentWorld
  import Sequences
  import Arithmetic

  datatype PlanMode = AutoPlan | Always | Never

  datatype Options = Options(
    maxIterations: int, planMode: PlanMode, validateGoal: bool, maxValidatorRetries: int,
    auto: bool, continueOnLimit: bool, callback: bool, interactive: bool,
    fullContextToken: bool, selfHealing: bool, singlePhase: bool)

  /** Whether a limit is passed without asking anyone. */
  predicate NeverAsks(o: Options) { o.auto || o.continueOnLimit || (!o.callback && !o.interactive) }

  // ---- Bounds on one record ----

  function Grants(answers: seq<bool>): (n: nat)
    ensures n <= |answers|
  {
    if answers == [] then 0 else Grants(answers[..|answers| - 1]) + if answers[|answers| - 1] then 1 else 0
  }

  lemma {:induction false} GrantsPush(answers: seq<bool>, yes: bool)
    ensures Grants(answers + [yes]) == Grants(answers) + if yes then 1 else 0
  {
    Sequences.Push(answers, yes);
  }

  /** How many requests a loop makes when it is stopped at the limit after so many restarts. */
  function Quota(restarts: nat, limit: int): int { restarts * Max(1, limit) + Max(0, limit) }

  lemma {:induction false} QuotaMonotone(m: nat, n: nat, limit: int)
    requires m <= n
    ensures Quota(m, limit) <= Quota(n, limit)
  {
    Arithmetic.MulMonotone(Max(1, limit), m, n);
  }

  lemma {:induction false} QuotaGrows(restarts: nat, limit: int)
    ensures Quota(restarts + 1, limit) == Quota(restarts, limit) + Max(1, limit)
  {
    var m := Max(1, limit);
    assert (restarts + 1) * m == restarts * m + m;
  }

  /** What a single run of an instance keeps to: requests by the restarts granted, and none is ever granted to a
      subagent; audits; and one report. */
  predicate Within(o: Options, suppress: bool, r: Record) {
    && (suppress || !NeverAsks(o) ==> |r.main| <= Quota(Grants(r.limits), o.maxIterations))
    && (suppress ==> r.limits == [])
    && |r.audit| <= Max(0, o.maxValidatorRetries)
    && |r.report| <= 1
  }

  // ---- Runs ----

  /** What a run is given. */
  datatype Job = Job(env: Env, opts: Options, task: string, start: History, suppress: bool)

  function JobOf(e: Env, o: Options, task: string, suppress: bool): Job {
    Job(e, o, task, Plain(e.write("system", [], []), task), suppress)
  }

  /** Whether the limit can stop the run. */
  predicate CanStop(j: Job) { j.suppress || !NeverAsks(j.opts) }

  /** The iteration of trip `i`, counted from the last restart, which comes whenever the limit is reached. */
  function IterationOf(o: Options, i: nat): int { i % Max(1, o.maxIterations) + 1 }

  /** The iteration after it: the next, or the first again. */
  lemma {:induction false} NextIteration(o: Options, i: nat)
    ensures IterationOf(o, 0) == 1 && 1 <= IterationOf(o, i) <= Max(1, o.maxIterations)
    ensures IterationOf(o, i + 1)
      == if IterationOf(o, i) + 1 <= Max(1, o.maxIterations) then IterationOf(o, i) + 1 else 1
  {
    var m := Max(1, o.maxIterations);
    var q, r := i / m, i % m;
    assert i == q * m + r;
    Arithmetic.DivUnique(0, m, 0, 0);
    if r + 1 < m {
      Arithmetic.DivUnique(i + 1, m, q, r + 1);
    } else {
      assert (q + 1) * m == q * m + m;
      Arithmetic.DivUnique(i + 1, m, q + 1, 0);
    }
  }
}
