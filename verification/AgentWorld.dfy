/** What stands outside an agent, and a record of everything each instance of it sends and asks. */
module AgentWorld {
  import opened Prelude
  import opened Conversation
  import opened TruncationGuard
  import opened Compaction
  import opened Rounds
  import opened Accounting
  import Sequences

  datatype Reply = Reply(response: Response, usage: Option<Usage>)

  /** How a subagent call ended. */
  datatype Status = Ran | Limited | Partly

  datatype SubagentResult = SubagentResult(status: Status, summary: string, iterations: int)

  /** Everything outside the loop, with the texts an instance writes. A number says how many outside events came before. */
  datatype Env = Env(
    codec: Codec,
    fails: nat -> bool,
    reply: (nat, History) -> Reply,
    observe: (nat, Call) -> string,
    score: (nat, Call) -> int,
    approves: nat -> bool,
    skills: string -> nat,
    taskOf: string -> Option<string>,
    again: (string, SubagentResult) -> string,
    tell: SubagentResult -> string,
    valid: string -> bool,
    phasesOf: string -> seq<string>,
    write: (string, History, seq<string>) -> string)

  /** The model never fails. */
  ghost predicate Reliable(e: Env) { forall n :: !e.fails(n) }

  /** No approval is ever given. */
  ghost predicate Declining(e: Env) { forall n :: !e.approves(n) }

  /** `r` is a response of the model. */
  ghost predicate Typical(e: Env, r: Response) { exists n, h :: e.reply(n, h).response == r }

  predicate Childless(r: Response) { forall i :: 0 <= i < |r.calls| ==> r.calls[i].name != "subagent_tool" }

  /** The model never delegates. */
  ghost predicate NoChildren(e: Env) { forall r :: Typical(e, r) ==> Childless(r) }

  /** The model never names phases. */
  ghost predicate Phaseless(e: Env) { forall text :: e.phasesOf(text) == [] }

  /** The model always wants to go on. */
  ghost predicate Tireless(e: Env) { forall r :: Typical(e, r) ==> r.calls != [] }

  /** A history in which every call is answered. */
  type Prompt = h: History | Answered(h) ghost witness []

  function Plain(system: string, user: string): Prompt {
    PlainPrompt(system, user);
    [System(system), User(user)]
  }

  // ---- Records ----

  /** A request and what came back; nothing when it threw. */
  datatype Exchange = Exchange(prompt: Prompt, reply: Option<Reply>)

  /** What a request is for: the loop itself, an audit, the report of a stopped loop, the report on a subagent
      that is not continued, or planning. */
  datatype Kind = Main | Audit | Report | Partial | Plan

  /** What an approval is asked for: another round, another run of a subagent, or a plan. */
  datatype About = Limit | Child | Approach

  /** A call handed to a tool, when, and what came back. */
  datatype Use = Use(now: nat, call: Call, text: string)

  /** What one instance has sent, by kind, the answers to what it has asked, the instances it has started, and the
      tools it has used. */
  datatype Record = Record(
    main: seq<Exchange>, audit: seq<Exchange>, report: seq<Exchange>, partial: seq<Exchange>, plan: seq<Exchange>,
    limits: seq<bool>, children: seq<bool>, plans: seq<bool>, started: seq<Kid>, uses: seq<Use>)

  /** How a run of the loop ends; `Idle` when it never began. */
  datatype End = Idle | Accepted | Stopped | Threw

  /** One run: what planning added to the record first, the rounds of the loop and how their calls were served, what
      was added after planning, and how the loop ended. */
  datatype Trace = Trace(planned: Record, rounds: seq<Round>, served: seq<seq<Served>>, sent: Record, end: End)

  /** One run of another instance, which is never run again. */
  datatype Kid = Kid(id: nat, task: string, single: bool, suppress: bool, trace: Trace, answer: Option<string>, iterations: int)

  /** One subagent call: the first run, and the second when there was one. */
  datatype Delegation = Delegation(first: seq<Kid>, one: Option<SubagentResult>, second: seq<Kid>, two: Option<SubagentResult>)

  /** How a call was served: by a tool, or by subagents, with all that delegating added to the record. */
  datatype Served = ByTool(use: Use) | BySubagent(g: Delegation, d: Record)

  const NEW := Record([], [], [], [], [], [], [], [], [], [])

  /** One record after another. */
  function Then(a: Record, b: Record): Record {
    Record(a.main + b.main, a.audit + b.audit, a.report + b.report, a.partial + b.partial, a.plan + b.plan,
           a.limits + b.limits, a.children + b.children, a.plans + b.plans, a.started + b.started, a.uses + b.uses)
  }

  function Sent(kind: Kind, x: Exchange): Record {
    match kind
    case Main => NEW.(main := [x])
    case Audit => NEW.(audit := [x])
    case Report => NEW.(report := [x])
    case Partial => NEW.(partial := [x])
    case Plan => NEW.(plan := [x])
  }

  function Asked(about: About, yes: bool): Record {
    match about
    case Limit => NEW.(limits := [yes])
    case Child => NEW.(children := [yes])
    case Approach => NEW.(plans := [yes])
  }

  function Started(k: Kid): Record { NEW.(started := [k]) }

  function Used(u: Use): Record { NEW.(uses := [u]) }

  lemma {:induction false} ThenAssoc(a: Record, b: Record, c: Record)
    ensures Then(Then(a, b), c) == Then(a, Then(b, c))
  {
    Sequences.Assoc(a.main, b.main, c.main);
    Sequences.Assoc(a.audit, b.audit, c.audit);
    Sequences.Assoc(a.report, b.report, c.report);
    Sequences.Assoc(a.partial, b.partial, c.partial);
    Sequences.Assoc(a.plan, b.plan, c.plan);
    Sequences.Assoc(a.limits, b.limits, c.limits);
    Sequences.Assoc(a.children, b.children, c.children);
    Sequences.Assoc(a.plans, b.plans, c.plans);
    Sequences.Assoc(a.started, b.started, c.started);
    Sequences.Assoc(a.uses, b.uses, c.uses);
  }

  lemma {:induction false} ThenNew(a: Record)
    ensures Then(a, NEW) == a && Then(NEW, a) == a
  {}

  lemma {:induction false} Unsent(r: Record)
    ensures r.main + [] == r.main && r.audit + [] == r.audit && r.report + [] == r.report
    ensures r.partial + [] == r.partial && r.plan + [] == r.plan
    ensures r.limits + [] == r.limits && r.children + [] == r.children && r.plans + [] == r.plans
    ensures r.started + [] == r.started && r.uses + [] == r.uses
  {}

  function Logged(logs: seq<Record>, who: nat, d: Record): seq<Record> {
    if who < |logs| then logs[who := Then(logs[who], d)] else logs
  }

  // ---- Totals over all instances ----

  datatype Sending = Sending(who: nat, kind: Kind, x: Exchange)

  function UsageIn(x: Exchange): Option<Usage> { if x.reply.Some? then x.reply.value.usage else None }

  /** A request of a loop, or the report of one that stopped, is a trip round it. */
  predicate IsTrip(kind: Kind) { kind.Main? || kind.Report? }

  function Counting(t: Tally, kind: Kind, x: Exchange): Tally {
    var u := Add(t, UsageIn(x));
    if IsTrip(kind) then Trip(u) else u
  }

  /** What all responses report, each counted once, and the trips. */
  function Spent(sent: seq<Sending>): Tally {
    if sent == [] then ZERO else var last := sent[|sent| - 1]; Counting(Spent(sent[..|sent| - 1]), last.kind, last.x)
  }

  // ---- The world ----

  /** Shared by a whole tree of instances. The model answers `budget` more requests; after that every request
      throws. */
  class World {
    const env: Env
    var clock: nat
    var budget: nat
    /** What each instance has sent and asked, by its number. */
    ghost var logs: seq<Record>
    /** The run of each instance that another one has started, once it is over. */
    ghost var runs: map<nat, Kid>
    /** All requests in the order they were made. */
    ghost var sent: seq<Sending>

    constructor (env: Env, budget: nat)
      ensures this.env == env && this.budget == budget && clock == 0 && logs == [] && runs == map[] && sent == []
    {
      this.env, this.budget, clock := env, budget, 0;
      logs, runs, sent := [], map[], [];
    }

    method Tick() returns (now: nat)
      modifies this`clock
      ensures now == old(clock) && clock == now + 1
    {
      now := clock;
      clock := clock + 1;
    }

    /** A number for one more instance. */
    ghost method Register() returns (id: nat)
      modifies this`logs
      ensures id == |old(logs)| && logs == old(logs) + [NEW]
    {
      id := |logs|;
      logs := logs + [NEW];
    }

    /** An instance started by `parent` has run. */
    ghost method Finish(parent: nat, k: Kid)
      requires parent < |logs|
      modifies this`logs, this`runs
      ensures logs == Logged(old(logs), parent, Started(k)) && runs == old(runs)[k.id := k]
    {
      logs := Logged(logs, parent, Started(k));
      runs := runs[k.id := k];
    }

    /** One request to the model, by instance `who`. */
    method Complete(ghost who: nat, ghost kind: Kind, ms: Prompt) returns (r: Option<Reply>)
      requires who < |logs|
      modifies this`clock, this`budget, this`logs, this`sent
      ensures clock == old(clock) + 1 && logs == Logged(old(logs), who, Sent(kind, Exchange(ms, r)))
      ensures sent == old(sent) + [Sending(who, kind, Exchange(ms, r))]
      ensures r == if old(budget) == 0 || env.fails(old(clock)) then None else Some(env.reply(old(clock), ms))
      ensures budget == old(budget) - if r.Some? then 1 else 0
    {
      var now := Tick();
      if budget == 0 || env.fails(now) {
        r := None;
      } else {
        budget := budget - 1;
        r := Some(env.reply(now, ms));
      }
      logs := Logged(logs, who, Sent(kind, Exchange(ms, r)));
      sent := sent + [Sending(who, kind, Exchange(ms, r))];
    }

    /** One question to whoever approves. */
    method Ask(ghost who: nat, ghost about: About) returns (yes: bool)
      requires who < |logs|
      modifies this`clock, this`logs
      ensures clock == old(clock) + 1 && logs == Logged(old(logs), who, Asked(about, yes))
      ensures yes == env.approves(old(clock))
    {
      var now := Tick();
      yes := env.approves(now);
      logs := Logged(logs, who, Asked(about, yes));
    }

    /** One call handed to a tool. */
    method Observe(ghost who: nat, call: Call) returns (now: nat, text: string)
      requires who < |logs|
      modifies this`clock, this`logs
      ensures now == old(clock) && clock == now + 1 && text == env.observe(now, call)
      ensures logs == Logged(old(logs), who, Used(Use(now, call, text)))
    {
      now := Tick();
      text := env.observe(now, call);
      logs := Logged(logs, who, Used(Use(now, call, text)));
    }
  }
}
