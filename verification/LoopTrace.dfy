/** One run of the loop, seen in the rounds of its history and in what its instance sent and asked. */
module LoopTrace {
  import opened Prelude
  import opened Conversation
  import opened TruncationGuard
  import opened Compaction
  import opened Rounds
  import opened AgentWorld
  import opened Settings
  import opened Prompts
  import opened Subagents
  import opened Services
  import opened Hiding
  import Sequences

  // ---- Answers and verdicts ----

  function Verdict(e: Env, x: Exchange): Option<bool> {
    if x.reply.Some? then Some(e.valid(x.reply.value.response.content)) else None
  }

  ghost predicate AllTrue(bs: seq<bool>) { forall i :: 0 <= i < |bs| ==> bs[i] }

  ghost predicate AllFalse(bs: seq<bool>) { forall i :: 0 <= i < |bs| ==> !bs[i] }

  ghost predicate AllRejected(e: Env, audits: seq<Exchange>) {
    forall i :: 0 <= i < |audits| ==> Verdict(e, audits[i]) == Some(false)
  }

  /** The last audit found the claim valid. */
  predicate Passed(e: Env, audits: seq<Exchange>) { audits != [] && Verdict(e, audits[|audits| - 1]) == Some(true) }

  /** The last request was answered without calls. */
  predicate Claimed(main: seq<Exchange>) {
    main != [] && main[|main| - 1].reply.Some? && main[|main| - 1].reply.value.response.calls == []
  }

  /** What it was answered with. */
  function LastText(main: seq<Exchange>): string
    requires Claimed(main)
  {
    main[|main| - 1].reply.value.response.content
  }

  lemma {:induction false} AllTrueGrants(bs: seq<bool>)
    requires AllTrue(bs)
    ensures Grants(bs) == |bs|
  {
    if bs != [] { AllTrueGrants(bs[..|bs| - 1]); }
  }

  // ---- What a run promises ----

  /** Requests by the restarts granted, and the answers that count as granted or not. */
  ghost predicate LimitKept(j: Job, main: seq<Exchange>, reports: seq<Exchange>, limits: seq<bool>, end: End) {
    var quota := Quota(Grants(limits), j.opts.maxIterations);
    && (CanStop(j) ==> |main| <= quota)
    && (end.Stopped? ==> CanStop(j) && |main| == quota)
    && (j.suppress || NeverAsks(j.opts) ==> limits == [])
    && (limits != [] ==> AllTrue(limits[..|limits| - 1]))
    && (end.Stopped? && !j.suppress <==> limits != [] && !limits[|limits| - 1])
    && |reports| == (if end.Stopped? then 1 else 0)
    && |main| + |reports| > 0
    && (Declining(j.env) ==> AllFalse(limits))
  }

  /** Audits stop at the first that passes, and an answer is accepted only on it, once retries are used up, or
      with validation off. */
  ghost predicate AuditsKept(j: Job, main: seq<Exchange>, audits: seq<Exchange>, end: End) {
    && |audits| <= Max(0, j.opts.maxValidatorRetries)
    && (!j.opts.validateGoal ==> audits == [])
    && (audits != [] ==> AllRejected(j.env, audits[..|audits| - 1]))
    && (Passed(j.env, audits) ==> end.Accepted?)
    && (end.Accepted? ==> Claimed(main) && !Tireless(j.env))
    && (end.Accepted? && j.opts.validateGoal && !Passed(j.env, audits) ==>
        |audits| == Max(0, j.opts.maxValidatorRetries) && AllRejected(j.env, audits))
  }

  ghost predicate SentAfter(j: Job, rounds: seq<Round>, x: Exchange, i: nat)
    requires Playable(j, rounds)
  {
    i <= |rounds| && x.prompt == HistoryAfter(j, rounds[..i])
  }

  predicate Replied(x: Exchange, r: Response) { x.reply.Some? && x.reply.value.response == r }

  /** Request `i` is the history after the first `i` rounds, and round `i` is what came back. */
  ghost predicate Conversed(j: Job, rounds: seq<Round>, main: seq<Exchange>) {
    && Playable(j, rounds)
    && |rounds| <= |main| <= |rounds| + 1
    && (forall i :: 0 <= i < |main| ==> SentAfter(j, rounds, main[i], i))
    && (forall i :: 0 <= i < |rounds| ==> Replied(main[i], rounds[i].response))
  }

  /** The audits asked for in some rounds: of each answer without calls, as things stood then. */
  ghost function Claims(j: Job, rounds: seq<Round>): seq<Prompt>
    requires Playable(j, rounds)
  {
    if rounds == [] then [] else
    var most, last := rounds[..|rounds| - 1], rounds[|rounds| - 1].response;
    Claims(j, most) + if last.calls == [] then [AuditPrompt(j.env, j.task, HistoryAfter(j, most), last.content)] else []
  }

  ghost predicate Prompted(xs: seq<Exchange>, prompts: seq<Prompt>) {
    |xs| == |prompts| && forall i :: 0 <= i < |xs| ==> xs[i].prompt == prompts[i]
  }

  /** Every answer without calls that began a new round was audited as it stood; so was the last, when it was
      audited at all. */
  ghost predicate Audited(j: Job, rounds: seq<Round>, main: seq<Exchange>, audits: seq<Exchange>)
    requires Playable(j, rounds)
  {
    || Prompted(audits, Claims(j, rounds))
    || (Claimed(main) && Prompted(audits, Claims(j, rounds) + [AuditPrompt(j.env, j.task, HistoryAfter(j, rounds), LastText(main))]))
  }

  /** What the run returns. */
  ghost predicate Returns(j: Job, rounds: seq<Round>, main: seq<Exchange>, reports: seq<Exchange>, end: End, answer: Option<string>)
    requires Playable(j, rounds)
  {
    match end
    case Idle => true
    case Threw => answer == None
    case Accepted => Claimed(main) && answer == Some(LastText(main))
    case Stopped =>
      && |reports| == 1 && reports[0].prompt == ReportPrompt(j.env, j.task, HistoryAfter(j, rounds))
      && answer == Some(ReportText(j.env, j.task, HistoryAfter(j, rounds), reports[0]))
  }

  /** Every round was served, and nothing else was; a last turn that threw was served until it did. */
  ghost predicate FullyServed(j: Job, t: Trace)
    requires Playable(j, t.rounds)
  {
    && RoundsServed(j, t.rounds, t.served) && SideOnly(t.sent) == AllSides(t.served)
    && (|t.served| == |t.rounds| || (|t.served| == |t.rounds| + 1 == |t.sent.main| && LastTurnCut(j, t)))
  }

  ghost predicate LastTurnCut(j: Job, t: Trace)
    requires Playable(j, t.rounds) && |t.served| == |t.rounds| + 1 == |t.sent.main|
  {
    var reply := t.sent.main[|t.rounds|].reply;
    t.end.Threw? && reply.Some? && CutShort(j, HistoryAfter(j, t.rounds), reply.value.response, t.served[|t.rounds|])
  }

  /** `Promised`, passed on whole. */
  ghost predicate Ended(j: Job, t: Trace, answer: Option<string>) {
    !t.end.Idle? && forall n: nat :: Shown(n) ==> Promised(j, t, answer)
  }

  ghost predicate Promised(j: Job, t: Trace, answer: Option<string>) {
    var sent := t.sent;
    && LimitKept(j, sent.main, sent.report, sent.limits, t.end) && AuditsKept(j, sent.main, sent.audit, t.end)
    && Conversed(j, t.rounds, sent.main) && Audited(j, t.rounds, sent.main, sent.audit)
    && Returns(j, t.rounds, sent.main, sent.report, t.end, answer)
    && FullyServed(j, t)
  }

  /** Messages telling the model to think again: the notes of rounds with calls. */
  function Nudges(rounds: seq<Round>): nat {
    if rounds == [] then 0 else
    var last := rounds[|rounds| - 1];
    Nudges(rounds[..|rounds| - 1]) + if last.response.calls == [] then 0 else |last.notes|
  }

  lemma {:induction false} NudgesPush(rounds: seq<Round>, r: Round)
    ensures Nudges(rounds + [r]) == Nudges(rounds) + if r.response.calls == [] then 0 else |r.notes|
  {
    Sequences.Push(rounds, r);
  }

  // ---- While the run goes on ----

  /** `iteration` is that of the last request; 0 when there is none yet. */
  ghost predicate LimitSoFar(j: Job, main: seq<Exchange>, limits: seq<bool>, iteration: int) {
    var m := j.opts.maxIterations;
    && iteration == (if main == [] then 0 else IterationOf(j.opts, |main| - 1))
    && (CanStop(j) ==> |main| == Quota(|limits|, m) - if m >= 1 then m - iteration else 0)
    && 0 <= iteration <= Max(1, m)
    && AllTrue(limits)
    && (j.suppress || NeverAsks(j.opts) || Declining(j.env) ==> limits == [])
  }

  ghost predicate AuditsSoFar(j: Job, audits: seq<Exchange>, rejections: int) {
    && |audits| == rejections <= Max(0, j.opts.maxValidatorRetries)
    && AllRejected(j.env, audits) && (!j.opts.validateGoal ==> audits == [])
  }

  /** The history so far, and the rounds, requests and audits that led to it. */
  ghost predicate Talked(j: Job, rounds: seq<Round>, main: seq<Exchange>, audits: seq<Exchange>, h: History) {
    && Conversed(j, rounds, main) && Prompted(audits, Claims(j, rounds))
    && h == HistoryAfter(j, rounds) && Answered(h)
  }

  /** Between two trips: `AtHead`, passed on whole. */
  ghost predicate Head(j: Job, t: Trace, iteration: int, rejections: int, h: History) {
    forall n: nat :: Shown(n) ==> AtHead(j, t, iteration, rejections, h)
  }

  ghost predicate AtHead(j: Job, t: Trace, iteration: int, rejections: int, h: History) {
    && LimitSoFar(j, t.sent.main, t.sent.limits, iteration) && AuditsSoFar(j, t.sent.audit, rejections)
    && Talked(j, t.rounds, t.sent.main, t.sent.audit, h) && |t.sent.main| == |t.rounds| && t.sent.report == []
    && Serving(j, t.rounds, t.served, SideOnly(t.sent))
  }

  /** Once the request of a trip has been sent. */
  ghost predicate Pending(j: Job, t: Trace, iteration: int, rejections: int, h: History) {
    && LimitSoFar(j, t.sent.main, t.sent.limits, iteration) && AuditsSoFar(j, t.sent.audit, rejections)
    && Talked(j, t.rounds, t.sent.main, t.sent.audit, h) && |t.sent.main| == |t.rounds| + 1 && t.sent.report == []
    && iteration >= 1 && Serving(j, t.rounds, t.served, SideOnly(t.sent))
  }

  /** Once it has been answered: `MidTrip`, passed on whole. */
  ghost predicate Mid(j: Job, t: Trace, iteration: int, rejections: int, h: History, r: Response) {
    forall n: nat :: Shown(n) ==> MidTrip(j, t, iteration, rejections, h, r)
  }

  ghost predicate MidTrip(j: Job, t: Trace, iteration: int, rejections: int, h: History, r: Response) {
    Pending(j, t, iteration, rejections, h) && Replied(t.sent.main[|t.rounds|], r) && Typical(j.env, r)
  }

  lemma {:induction false} MidMeans(j: Job, t: Trace, iteration: int, rejections: int, h: History, r: Response)
    requires Mid(j, t, iteration, rejections, h, r)
    ensures 1 <= iteration <= Max(1, j.opts.maxIterations) && iteration == IterationOf(j.opts, |t.rounds|) && Typical(j.env, r)
    ensures |t.served| == |t.rounds| && SideOnly(t.sent) == AllSides(t.served)
  {
    assert Shown(0);
  }

  lemma {:induction false} HeadMeans(j: Job, t: Trace, iteration: int, rejections: int, h: History)
    requires Head(j, t, iteration, rejections, h)
    ensures Answered(h) && |t.served| == |t.rounds| && SideOnly(t.sent) == AllSides(t.served)
  {
    assert Shown(0);
  }

  lemma {:induction false} StartsAtHead(j: Job)
    requires Sound(j.env.codec) && Answered(j.start)
    ensures Head(j, Trace(NEW, [], [], NEW, Threw), 0, 0, j.start)
  {
    assert Shown(0);
  }

  // ---- The records a trip adds ----

  /** At most a question about the limit. */
  predicate OnlyLimits(d: Record) { d == NEW.(limits := d.limits) }

  lemma {:induction false} TripAdds(r: Record, asked: Record, x: Exchange)
    requires OnlyLimits(asked)
    ensures Then(r, Then(asked, Sent(Main, x))) == r.(main := r.main + [x], limits := r.limits + asked.limits)
    ensures Then(r, Then(asked, Sent(Report, x))) == r.(report := r.report + [x], limits := r.limits + asked.limits)
    ensures SideOnly(Then(r, Then(asked, Sent(Main, x)))) == SideOnly(r) == SideOnly(Then(r, Then(asked, Sent(Report, x))))
  {
    Unsent(r);
    Unsent(asked);
    assert [] + [x] == [x];
  }

  lemma {:induction false} AuditAdds(r: Record, x: Exchange)
    ensures Then(r, Sent(Audit, x)) == r.(audit := r.audit + [x]) && SideOnly(Then(r, Sent(Audit, x))) == SideOnly(r)
  {
    Unsent(r);
  }

  lemma {:induction false} SideAdds(r: Record, d: Record)
    requires Side(d)
    ensures Then(r, d) == r.(partial := r.partial + d.partial, children := r.children + d.children,
                             started := r.started + d.started, uses := r.uses + d.uses)
    ensures SideOnly(Then(r, d)) == Then(SideOnly(r), d)
  {
    Unsent(r);
  }

  /** Nothing planned. */
  predicate Unplanned(d: Record) { d.plan == [] && d.plans == [] }

  /** A trip's own request reports on nobody. */
  lemma {:induction false} NoPartial(d: Record, f: Record)
    requires d.partial == []
    ensures Then(d, f).partial == f.partial
    ensures Unplanned(d) && Unplanned(f) ==> Unplanned(Then(d, f))
  {}

  lemma {:induction false} StillUnplanned(d: Record, f: Record)
    requires Unplanned(d) && Unplanned(f)
    ensures Unplanned(Then(d, f))
  {}

  lemma {:induction false} SideMeans(d: Record)
    requires Side(d)
    ensures Unplanned(d) && Then(NEW, d) == d
  {
    ThenNew(d);
  }

  lemma {:induction false} SideThen(d: Record, f: Record)
    requires Side(d) && Side(f)
    ensures Side(Then(d, f)) && (Then(d, f).partial == [] <==> d.partial == [] && f.partial == [])
  {
    SideAdds(d, f);
  }

  // ---- The history ----

  lemma {:induction false} SamePrefix(rounds: seq<Round>, r: Round, i: nat)
    requires i <= |rounds|
    ensures (rounds + [r])[..i] == rounds[..i] && rounds[..|rounds|] == rounds
  {}

  lemma {:induction false} HistoryPush(j: Job, rounds: seq<Round>, r: Round)
    requires Playable(j, rounds) && Complete(r)
    ensures Playable(j, rounds + [r])
    ensures HistoryAfter(j, rounds + [r]) == Play(j.env.codec, j.opts.fullContextToken, HistoryAfter(j, rounds), r)
    ensures Claims(j, rounds + [r]) == Claims(j, rounds)
      + if r.response.calls == [] then [AuditPrompt(j.env, j.task, HistoryAfter(j, rounds), r.response.content)] else []
  {
    SamePrefix(rounds, r, |rounds|);
    Sequences.Push(rounds, r);
  }

  lemma {:induction false} ConversedRequest(j: Job, rounds: seq<Round>, main: seq<Exchange>, x: Exchange, more: seq<Exchange>)
    requires Conversed(j, rounds, main) && |main| == |rounds| && SentAfter(j, rounds, x, |rounds|) && more == main + [x]
    ensures Conversed(j, rounds, more)
  {
    forall i | 0 <= i < |more| ensures SentAfter(j, rounds, more[i], i) {
      if i < |main| { assert SentAfter(j, rounds, main[i], i); }
    }
    forall i | 0 <= i < |rounds| ensures Replied(more[i], rounds[i].response) {
      assert Replied(main[i], rounds[i].response);
    }
  }

  lemma {:induction false} TalkedRequest(j: Job, rounds: seq<Round>, main: seq<Exchange>, audits: seq<Exchange>, h: History, x: Exchange)
    requires Talked(j, rounds, main, audits, h) && |main| == |rounds| && x.prompt == h
    ensures Talked(j, rounds, main + [x], audits, h)
  {
    assert rounds[..|rounds|] == rounds;
    ConversedRequest(j, rounds, main, x, main + [x]);
  }

  lemma {:induction false} ConversedRound(j: Job, rounds: seq<Round>, main: seq<Exchange>, r: Round, more: seq<Round>)
    requires Conversed(j, rounds, main) && |main| == |rounds| + 1 && Complete(r) && more == rounds + [r]
    requires Replied(main[|rounds|], r.response)
    ensures Conversed(j, more, main)
  {
    HistoryPush(j, rounds, r);
    forall i | 0 <= i < |main| ensures SentAfter(j, more, main[i], i) {
      assert SentAfter(j, rounds, main[i], i);
      SamePrefix(rounds, r, i);
    }
    forall i | 0 <= i < |more| ensures Replied(main[i], more[i].response) {
      if i < |rounds| { assert Replied(main[i], rounds[i].response); }
    }
  }

  lemma {:induction false} PromptedOn(xs: seq<Exchange>, prompts: seq<Prompt>, ys: seq<Exchange>, more: seq<Prompt>)
    requires Prompted(xs, prompts) && Prompted(ys, more)
    ensures Prompted(xs + ys, prompts + more)
  {}

  /** One more round, its answer audited when it has no calls. */
  lemma {:induction false} TalkedRound(j: Job, rounds: seq<Round>, main: seq<Exchange>, audits: seq<Exchange>, h: History, r: Round, xs: seq<Exchange>, g: History)
    requires Talked(j, rounds, main, audits, h) && |main| == |rounds| + 1 && Replied(main[|rounds|], r.response)
    requires Plays(j.env.codec, j.opts.fullContextToken, h, r, g)
    requires if r.response.calls == [] then |xs| == 1 && xs[0].prompt == AuditPrompt(j.env, j.task, h, r.response.content) else xs == []
    ensures Talked(j, rounds + [r], main, audits + xs, g)
  {
    HistoryPush(j, rounds, r);
    ConversedRound(j, rounds, main, r, rounds + [r]);
    PromptedOn(audits, Claims(j, rounds), xs,
      if r.response.calls == [] then [AuditPrompt(j.env, j.task, h, r.response.content)] else []);
    PlayKeepsAnswered(j.env.codec, j.opts.fullContextToken, h, r);
  }

  // ---- The limit ----

  /** The trip goes on: within the limit, or as the first of a new round of iterations, granted or not asked for. */
  ghost predicate TripLeft(j: Job, iter: int, iteration: int, asked: seq<bool>) {
    && (Declining(j.env) ==> asked == [])
    && if iter + 1 <= j.opts.maxIterations then iteration == iter + 1 && asked == []
       else !j.suppress && iteration == 1 && asked == if NeverAsks(j.opts) then [] else [true]
  }

  lemma {:induction false} LimitRequest(j: Job, main: seq<Exchange>, limits: seq<bool>, iter: int, asked: seq<bool>, x: Exchange, iteration: int)
    requires LimitSoFar(j, main, limits, iter)
    requires TripLeft(j, iter, iteration, asked)
    ensures LimitSoFar(j, main + [x], limits + asked, iteration) && iteration >= 1
  {
    QuotaGrows(|limits|, j.opts.maxIterations);
    NextIteration(j.opts, if main == [] then 0 else |main| - 1);
  }

  lemma {:induction false} QuotaPartly(n: nat, limit: int, iteration: int)
    requires 1 <= iteration <= Max(1, limit)
    ensures Quota(n, limit) - (if limit >= 1 then limit - iteration else 0) <= Quota(n, limit)
  {}

  lemma {:induction false} LimitEnds(j: Job, main: seq<Exchange>, limits: seq<bool>, iteration: int, end: End)
    requires LimitSoFar(j, main, limits, iteration) && iteration >= 1 && !end.Stopped? && main != []
    ensures LimitKept(j, main, [], limits, end)
  {
    AllTrueGrants(limits);
    QuotaPartly(|limits|, j.opts.maxIterations, iteration);
  }

  lemma {:induction false} LimitStops(j: Job, main: seq<Exchange>, limits: seq<bool>, iter: int, asked: seq<bool>, x: Exchange)
    requires LimitSoFar(j, main, limits, iter) && iter + 1 > j.opts.maxIterations
    requires CanStop(j) && asked == if j.suppress then [] else [false]
    ensures LimitKept(j, main, [x], limits + asked, Stopped)
  {
    AllTrueGrants(limits);
    if !j.suppress {
      GrantsPush(limits, false);
      Sequences.Push(limits, false);
    }
  }

  lemma {:induction false} AuditsNext(j: Job, audits: seq<Exchange>, rejections: int, x: Exchange)
    requires AuditsSoFar(j, audits, rejections) && rejections < j.opts.maxValidatorRetries && j.opts.validateGoal
    requires Verdict(j.env, x) == Some(false)
    ensures AuditsSoFar(j, audits + [x], rejections + 1)
  {}

  lemma {:induction false} AuditsEnd(j: Job, main: seq<Exchange>, audits: seq<Exchange>, rejections: int, end: End)
    requires AuditsSoFar(j, audits, rejections)
    requires end.Accepted? ==> Claimed(main) && !Tireless(j.env) && (j.opts.validateGoal ==> rejections >= j.opts.maxValidatorRetries)
    ensures AuditsKept(j, main, audits, end)
  {}

  // ---- From one state to the next ----

  lemma {:induction false} HeadParts(j: Job, t: Trace, iteration: int, rejections: int, h: History)
    requires Head(j, t, iteration, rejections, h)
    ensures AtHead(j, t, iteration, rejections, h)
  {
    assert Shown(0);
  }

  lemma {:induction false} MidParts(j: Job, t: Trace, iteration: int, rejections: int, h: History, r: Response)
    requires Mid(j, t, iteration, rejections, h, r)
    ensures MidTrip(j, t, iteration, rejections, h, r)
  {
    assert Shown(0);
  }

  lemma {:induction false} PromisedEnds(j: Job, t: Trace, answer: Option<string>)
    requires Promised(j, t, answer) && !t.end.Idle?
    ensures Ended(j, t, answer)
  {}

  /** Nothing more is served. */
  lemma {:induction false} ServingEnds(j: Job, t: Trace, t': Trace)
    requires Playable(j, t.rounds) && Serving(j, t.rounds, t.served, SideOnly(t.sent))
    requires t'.rounds == t.rounds && t'.served == t.served && SideOnly(t'.sent) == SideOnly(t.sent)
    ensures FullyServed(j, t')
  {}

  /** The trip's request, in the same round of iterations or as the first of a new one. */
  lemma {:induction false} RequestSent(j: Job, t: Trace, iter: int, rejs: int, h: History, asked: Record, x: Exchange, iteration: int, t': Trace)
    requires Head(j, t, iter, rejs, h) && OnlyLimits(asked) && x.prompt == h
    requires t' == t.(sent := Then(t.sent, Then(asked, Sent(Main, x))), end := Threw)
    requires TripLeft(j, iter, iteration, asked.limits)
    ensures Pending(j, t', iteration, rejs, h) && t'.sent.main[|t.rounds|] == x
  {
    assert Shown(0);
    TripAdds(t.sent, asked, x);
    TalkedRequest(j, t.rounds, t.sent.main, t.sent.audit, h, x);
    LimitRequest(j, t.sent.main, t.sent.limits, iter, asked.limits, x, iteration);
    Sequences.Push(t.sent.main, x);
  }

  lemma {:induction false} PendingThrows(j: Job, t: Trace, iteration: int, rejs: int, h: History)
    requires Pending(j, t, iteration, rejs, h) && t.end.Threw?
    ensures Ended(j, t, None)
  {
    LimitEnds(j, t.sent.main, t.sent.limits, iteration, Threw);
    AuditsEnd(j, t.sent.main, t.sent.audit, rejs, Threw);
    ServingEnds(j, t, t);
    PromisedEnds(j, t, None);
  }

  /** The request is answered or it throws. */
  lemma {:induction false} Request(j: Job, t: Trace, iter: int, rejs: int, h: History, asked: Record, x: Exchange, iteration: int, t': Trace)
    requires Head(j, t, iter, rejs, h) && OnlyLimits(asked) && x.prompt == h
    requires t' == t.(sent := Then(t.sent, Then(asked, Sent(Main, x))), end := Threw)
    requires TripLeft(j, iter, iteration, asked.limits)
    requires x.reply.Some? ==> Typical(j.env, x.reply.value.response)
    ensures x.reply.Some? ==> Mid(j, t', iteration, rejs, h, x.reply.value.response)
    ensures x.reply.None? ==> Ended(j, t', None)
  {
    RequestSent(j, t, iter, rejs, h, asked, x, iteration, t');
    PendingThrows(j, t', iteration, rejs, h);
  }

  lemma {:induction false} Stop(j: Job, t: Trace, iter: int, rejs: int, h: History, asked: Record, x: Exchange, t': Trace)
    requires Head(j, t, iter, rejs, h) && OnlyLimits(asked) && x.prompt == ReportPrompt(j.env, j.task, h)
    requires t' == t.(sent := Then(t.sent, Then(asked, Sent(Report, x))), end := Stopped)
    requires iter + 1 > j.opts.maxIterations && CanStop(j) && asked.limits == if j.suppress then [] else [false]
    ensures Ended(j, t', Some(ReportText(j.env, j.task, h, x)))
  {
    HeadParts(j, t, iter, rejs, h);
    TripAdds(t.sent, asked, x);
    assert [] + [x] == [x];
    assert t'.sent.main == t.sent.main && t'.sent.audit == t.sent.audit && t'.sent.report == [x];
    LimitStops(j, t.sent.main, t.sent.limits, iter, asked.limits, x);
    AuditsEnd(j, t.sent.main, t.sent.audit, rejs, Stopped);
    ServingEnds(j, t, t');
    PromisedEnds(j, t', Some(ReportText(j.env, j.task, h, x)));
  }

  /** Accepted without an audit. */
  lemma {:induction false} Accept(j: Job, t: Trace, iteration: int, rejs: int, h: History, r: Response)
    requires Mid(j, t, iteration, rejs, h, r) && r.calls == []
    requires !j.opts.validateGoal || rejs >= j.opts.maxValidatorRetries
    ensures Ended(j, t.(end := Accepted), Some(r.content))
  {
    MidParts(j, t, iteration, rejs, h, r);
    LimitEnds(j, t.sent.main, t.sent.limits, iteration, Accepted);
    AuditsEnd(j, t.sent.main, t.sent.audit, rejs, Accepted);
    ServingEnds(j, t, t.(end := Accepted));
    PromisedEnds(j, t.(end := Accepted), Some(r.content));
  }

  lemma {:induction false} AuditedLast(j: Job, rounds: seq<Round>, main: seq<Exchange>, audits: seq<Exchange>, h: History, r: Response, x: Exchange)
    requires Talked(j, rounds, main, audits, h) && |main| == |rounds| + 1 && Replied(main[|rounds|], r) && r.calls == []
    requires x.prompt == AuditPrompt(j.env, j.task, h, r.content)
    ensures Audited(j, rounds, main, audits + [x]) && LastText(main) == r.content
  {}

  lemma {:induction false} AuditsEndWith(j: Job, main: seq<Exchange>, audits: seq<Exchange>, rejections: int, x: Exchange, passed: bool)
    requires AuditsSoFar(j, audits, rejections) && rejections < j.opts.maxValidatorRetries && j.opts.validateGoal
    requires Claimed(main) && !Tireless(j.env) && Verdict(j.env, x) == if passed then Some(true) else None
    ensures AuditsKept(j, main, audits + [x], if passed then Accepted else Threw)
  {
    Sequences.Push(audits, x);
  }

  /** An audit that passes or throws. */
  lemma {:induction false} AuditAnswer(j: Job, t: Trace, iteration: int, rejs: int, h: History, r: Response, x: Exchange, passed: bool, t': Trace)
    requires Mid(j, t, iteration, rejs, h, r) && r.calls == []
    requires j.opts.validateGoal && rejs < j.opts.maxValidatorRetries
    requires x.prompt == AuditPrompt(j.env, j.task, h, r.content) && Verdict(j.env, x) == if passed then Some(true) else None
    requires t' == t.(sent := Then(t.sent, Sent(Audit, x)), end := if passed then Accepted else Threw)
    ensures Ended(j, t', if passed then Some(r.content) else None)
  {
    MidParts(j, t, iteration, rejs, h, r);
    AuditAdds(t.sent, x);
    assert t'.sent.main == t.sent.main && t'.sent.limits == t.sent.limits && t'.sent.report == t.sent.report;
    assert t'.sent.audit == t.sent.audit + [x];
    AuditedLast(j, t.rounds, t.sent.main, t.sent.audit, h, r, x);
    LimitEnds(j, t.sent.main, t.sent.limits, iteration, t'.end);
    AuditsEndWith(j, t.sent.main, t.sent.audit, rejs, x, passed);
    ServingEnds(j, t, t');
    PromisedEnds(j, t', if passed then Some(r.content) else None);
  }

  lemma {:induction false} SendBack(j: Job, t: Trace, iteration: int, rejs: int, h: History, r: Response, x: Exchange, round: Round, g: History, t': Trace)
    requires Mid(j, t, iteration, rejs, h, r) && r.calls == []
    requires j.opts.validateGoal && rejs < j.opts.maxValidatorRetries
    requires x.prompt == AuditPrompt(j.env, j.task, h, r.content) && Verdict(j.env, x) == Some(false)
    requires Plays(j.env.codec, j.opts.fullContextToken, h, round, g) && round.response == r
    requires t' == t.(rounds := t.rounds + [round], served := t.served + [[]], sent := Then(t.sent, Sent(Audit, x)), end := Threw)
    ensures Head(j, t', iteration, rejs + 1, g)
  {
    assert Shown(0);
    AuditAdds(t.sent, x);
    assert t'.sent.audit == t.sent.audit + [x] && t'.sent.main == t.sent.main;
    AuditsNext(j, t.sent.audit, rejs, x);
    NoCallsServed(j, h, round);
    ServingRound(j, t.rounds, t.served, SideOnly(t.sent), round, []);
    ThenNew(SideOnly(t.sent));
    TalkedRound(j, t.rounds, t.sent.main, t.sent.audit, h, round, [x], g);
  }

  /** A turn of calls. */
  lemma {:induction false} TakeTurn(j: Job, t: Trace, iteration: int, rejs: int, h: History, r: Response, ss: seq<Served>, round: Round, g: History, t': Trace)
    requires Mid(j, t, iteration, rejs, h, r) && r.calls != [] && Side(Sides(ss))
    requires Plays(j.env.codec, j.opts.fullContextToken, h, round, g) && round.response == r && RoundServed(j, h, round, ss)
    requires t' == t.(rounds := t.rounds + [round], served := t.served + [ss], sent := Then(t.sent, Sides(ss)), end := Threw)
    ensures Head(j, t', iteration, rejs, g)
  {
    assert Shown(0);
    SideAdds(t.sent, Sides(ss));
    ServingRound(j, t.rounds, t.served, SideOnly(t.sent), round, ss);
    TalkedRound(j, t.rounds, t.sent.main, t.sent.audit, h, round, [], g);
    assert t.sent.audit + [] == t.sent.audit;
  }

  lemma {:induction false} ServedUntil(j: Job, t: Trace, h: History, r: Response, ss: seq<Served>, t': Trace)
    requires Playable(j, t.rounds) && Serving(j, t.rounds, t.served, SideOnly(t.sent)) && h == HistoryAfter(j, t.rounds)
    requires |t.sent.main| == |t.rounds| + 1 && Replied(t.sent.main[|t.rounds|], r)
    requires Side(Sides(ss)) && CutShort(j, h, r, ss)
    requires t' == t.(served := t.served + [ss], sent := Then(t.sent, Sides(ss)), end := Threw)
    ensures FullyServed(j, t') && t'.sent.main == t.sent.main
  {
    SideAdds(t.sent, Sides(ss));
    AllSidesPush(t.served, ss);
    forall i | 0 <= i < |t.rounds| ensures ServedRound(j, t.rounds, t'.served[i], i) {
      assert ServedRound(j, t.rounds, t.served[i], i);
    }
  }

  /** A turn cut short. */
  lemma {:induction false} TurnThrows(j: Job, t: Trace, iteration: int, rejs: int, h: History, r: Response, ss: seq<Served>, t': Trace)
    requires Mid(j, t, iteration, rejs, h, r) && Side(Sides(ss)) && CutShort(j, h, r, ss)
    requires t' == t.(served := t.served + [ss], sent := Then(t.sent, Sides(ss)), end := Threw)
    ensures Ended(j, t', None)
  {
    MidParts(j, t, iteration, rejs, h, r);
    SideAdds(t.sent, Sides(ss));
    ServedUntil(j, t, h, r, ss, t');
    LimitEnds(j, t.sent.main, t.sent.limits, iteration, Threw);
    AuditsEnd(j, t.sent.main, t.sent.audit, rejs, Threw);
    PromisedEnds(j, t', None);
  }

  // ---- Instances started by calls ----

  /** The calls to the subagent tool among the first `k` dispatched. */
  function Delegations(calls: seq<Call>, ps: seq<nat>, k: nat): nat
    requires k <= |ps| && forall i :: 0 <= i < |ps| ==> ps[i] < |calls|
  {
    if k == 0 then 0 else Delegations(calls, ps, k - 1) + if calls[ps[k - 1]].name == "subagent_tool" then 1 else 0
  }

  function DelegatedTo(r: Response, k: nat): nat
    requires k <= |Safe(r)|
  {
    PositionsInRange(r);
    Delegations(r.calls, Safe(r), k)
  }

  function DelegatedIn(r: Response): nat { DelegatedTo(r, |Safe(r)|) }

  function AllDelegations(main: seq<Exchange>): nat {
    if main == [] then 0 else
    var last := main[|main| - 1].reply;
    AllDelegations(main[..|main| - 1]) + if last.Some? then DelegatedIn(last.value.response) else 0
  }

  /** At most two instances for each subagent call the model made. */
  predicate Frugal(d: Record) { |d.started| <= 2 * AllDelegations(d.main) }

  lemma {:induction false} DelegationsAdd(a: seq<Exchange>, b: seq<Exchange>)
    ensures AllDelegations(a + b) == AllDelegations(a) + AllDelegations(b)
    decreases |b|
  {
    if b == [] {
      assert a + b == a;
    } else {
      DelegationsAdd(a, b[..|b| - 1]);
      assert (a + b)[..|a + b| - 1] == a + b[..|b| - 1];
    }
  }

  lemma {:induction false} FrugalThen(d: Record, f: Record)
    requires Frugal(d) && Frugal(f)
    ensures Frugal(Then(d, f))
  {
    DelegationsAdd(d.main, f.main);
  }

  /** A trip: its request starts nothing and reports on nobody, and what comes after it makes no request. */
  lemma {:induction false} WholeTrip(first: Record, r: Response, f: Record)
    requires |first.main| == 1 && Replied(first.main[0], r) && first.started == [] && first.partial == [] && Unplanned(first)
    requires f.main == [] && Unplanned(f) && |f.started| <= 2 * DelegatedIn(r)
    ensures var d := Then(first, f); Frugal(d) && Unplanned(d) && d.partial == f.partial
  {
    NoPartial(first, f);
    assert first.main + f.main == first.main && [] + f.started == f.started;
    assert AllDelegations(first.main) == AllDelegations(first.main[..0]) + DelegatedIn(r);
  }

  /** The calls of a response up to the `k`th have started at most two instances for each subagent call. Passed on
      whole. */
  ghost predicate FrugalTo(d: Record, r: Response, k: nat) {
    forall n: nat :: Shown(n) ==> k <= |Safe(r)| && |d.started| <= 2 * DelegatedTo(r, k)
  }

  lemma {:induction false} FrugalStart(r: Response)
    ensures FrugalTo(NEW, r, 0)
  {}

  lemma {:induction false} FrugalCall(d: Record, f: Record, r: Response, k: nat, pos: nat)
    requires FrugalTo(d, r, k) && k < |Safe(r)| && pos == Safe(r)[k] && pos < |r.calls|
    requires |f.started| <= if r.calls[pos].name == "subagent_tool" then 2 else 0
    ensures FrugalTo(Then(d, f), r, k + 1)
  {
    assert Shown(0);
    PositionsInRange(r);
  }

  lemma {:induction false} FrugalEnd(d: Record, r: Response, k: nat)
    requires FrugalTo(d, r, k)
    ensures |d.started| <= 2 * DelegatedIn(r)
  {
    assert Shown(0);
    PositionsInRange(r);
    DelegationsGrow(r.calls, Safe(r), k, |Safe(r)|);
  }

  lemma {:induction false} DelegationsGrow(calls: seq<Call>, ps: seq<nat>, k: nat, n: nat)
    requires k <= n <= |ps| && forall i :: 0 <= i < |ps| ==> ps[i] < |calls|
    ensures Delegations(calls, ps, k) <= Delegations(calls, ps, n)
    decreases n - k
  {
    if k < n { DelegationsGrow(calls, ps, k + 1, n); }
  }

  // ---- What it comes to ----

  lemma {:induction false} EndedMeans(j: Job, t: Trace, answer: Option<string>)
    requires Ended(j, t, answer)
    ensures LimitKept(j, t.sent.main, t.sent.report, t.sent.limits, t.end) && AuditsKept(j, t.sent.main, t.sent.audit, t.end)
    ensures SideOnly(t.sent) == AllSides(t.served)
    ensures Playable(j, t.rounds) && Returns(j, t.rounds, t.sent.main, t.sent.report, t.end, answer)
  {
    assert Shown(0);
  }

  /** With at most so many restarts granted a loop ends within so many trips, however long the model could go
      on answering. */
  lemma {:induction false} TripsBounded(j: Job, t: Trace, answer: Option<string>, restarts: nat)
    requires Ended(j, t, answer) && CanStop(j) && Grants(t.sent.limits) <= restarts
    ensures |t.sent.main| <= Quota(restarts, j.opts.maxIterations)
    ensures |t.sent.main| + |t.sent.report| <= Quota(restarts, j.opts.maxIterations) + 1
  {
    assert Shown(0);
    QuotaMonotone(Grants(t.sent.limits), restarts, j.opts.maxIterations);
  }

  /** A run that is never asked about the limit never stops at it. */
  lemma {:induction false} UnaskedNeverStops(j: Job, t: Trace, answer: Option<string>)
    requires Ended(j, t, answer) && NeverAsks(j.opts) && !j.suppress
    ensures t.end.Accepted? || t.end.Threw?
    ensures Tireless(j.env) ==> answer == None
  {
    assert Shown(0);
  }

  /** What a run of the loop keeps to by itself, its instance keeps to. */
  lemma {:induction false} EndedWithin(j: Job, t: Trace, answer: Option<string>)
    requires Ended(j, t, answer)
    ensures Within(j.opts, j.suppress, t.sent) && |t.sent.main| + |t.sent.report| > 0
  {
    assert Shown(0);
  }

  /** What planning adds to a record. */
  predicate OnlyPlans(d: Record) { d == NEW.(plan := d.plan, plans := d.plans, started := d.started) }

  lemma {:induction false} PlansAdd(d: Record, r: Record)
    requires OnlyPlans(d)
    ensures Then(d, r) == r.(plan := d.plan + r.plan, plans := d.plans + r.plans, started := d.started + r.started)
  {
    assert forall xs: seq<Exchange> :: [] + xs == xs;
    assert forall us: seq<Use> :: [] + us == us;
    assert forall bs: seq<bool> :: [] + bs == bs;
  }
}
