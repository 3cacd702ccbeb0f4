/** What a call to the subagent tool comes to. */
module Subagents {
  import opened Prelude
  import opened Conversation
  import opened AgentWorld
  import opened Settings
  import opened Prompts
  import opened Hiding

  /** Stopped at its limit, or left with a subagent that was. */
  predicate Marked(t: Trace) { t.end.Stopped? || t.sent.partial != [] }

  function ResultOf(k: Kid): SubagentResult
    requires k.answer.Some?
  {
    SubagentResult(if Marked(k.trace) then Limited else Ran, k.answer.value, k.iterations)
  }

  function Invalid(e: Env): SubagentResult { SubagentResult(Ran, e.write("invalid arguments", [], []), 0) }

  /** `r` is what running a subagent with these arguments gave, nothing when it threw. */
  predicate Gave(e: Env, o: Options, args: string, kids: seq<Kid>, r: Option<SubagentResult>) {
    match e.taskOf(args)
    case None => kids == [] && r == Some(Invalid(e))
    case Some(task) =>
      && |kids| == 1 && kids[0].task == task && kids[0].suppress && kids[0].single == o.singlePhase
      && r == if kids[0].answer.Some? then Some(ResultOf(kids[0])) else None
  }

  predicate WentOn(o: Options, d: Record) { NeverAsks(o) || d.children == [true] }

  /** The observation of a subagent call: that of a subagent that was not stopped; of the one run that continues
      a stopped one, when that is not declined; or else a report. Nothing when anything threw. */
  ghost predicate Delegated(e: Env, o: Options, task: string, args: string, h: History, g: Delegation, d: Record, r: Option<string>) {
    && Gave(e, o, args, g.first, g.one) && d.started == g.first + g.second && d.uses == []
    && if g.one.None? then Unasked(g, d) && r == None
       else if !g.one.value.status.Limited? then Unasked(g, d) && r == Some(e.tell(g.one.value))
       else Handled(e, o, task, args, h, g.one.value, g, d, r)
  }

  /** A stopped subagent: `GoneOnOrReported`, passed on whole. */
  ghost predicate Handled(e: Env, o: Options, task: string, args: string, h: History, one: SubagentResult, g: Delegation, d: Record, r: Option<string>) {
    forall n: nat :: Shown(n) ==> GoneOnOrReported(e, o, task, args, h, one, g, d, r)
  }

  predicate GoneOnOrReported(e: Env, o: Options, task: string, args: string, h: History, one: SubagentResult, g: Delegation, d: Record, r: Option<string>) {
    if WentOn(o, d) then Continued(e, o, args, one, g, d, r) else Reported(e, task, h, one, g, d, r)
  }

  /** It does not matter what the first run is recorded as. */
  lemma {:induction false} HandledAs(e: Env, o: Options, task: string, args: string, h: History, one: SubagentResult, g: Delegation, g': Delegation,
                                     d: Record, d': Record, r: Option<string>)
    requires Handled(e, o, task, args, h, one, g, d, r) && g'.second == g.second && g'.two == g.two
    requires d'.children == d.children && d'.partial == d.partial
    ensures Handled(e, o, task, args, h, one, g', d', r)
  {
    assert Shown(0);
  }

  /** One or two instances for a subagent call. */
  lemma {:induction false} AtMostTwo(e: Env, o: Options, task: string, args: string, h: History, g: Delegation, d: Record, r: Option<string>)
    requires Delegated(e, o, task, args, h, g, d, r)
    ensures |d.started| <= 2
  {
    assert Shown(0);
  }

  predicate Unasked(g: Delegation, d: Record) { g.second == [] && d.children == [] && d.partial == [] }

  predicate Continued(e: Env, o: Options, args: string, one: SubagentResult, g: Delegation, d: Record, r: Option<string>) {
    && Gave(e, o, e.again(args, one), g.second, g.two) && (NeverAsks(o) ==> d.children == []) && d.partial == []
    && r == if g.two.Some? then Some(e.tell(g.two.value)) else None
  }

  predicate Reported(e: Env, task: string, h: History, one: SubagentResult, g: Delegation, d: Record, r: Option<string>) {
    && g.second == [] && d.children == [false] && |d.partial| == 1 && d.partial[0].prompt == ReportPrompt(e, task, h)
    && r == Some(e.tell(SubagentResult(Partly, PartialText(e, task, h, d.partial[0]), one.iterations)))
  }
}
