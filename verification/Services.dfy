/** How the calls of a run are served, what that adds to the record, and when the run checks on itself. */
module Services {
  import opened Prelude
  import opened Conversation
  import opened TruncationGuard
  import opened Compaction
  import opened Rounds
  import opened AgentWorld
  import opened Settings
  import opened Subagents
  import opened Hiding
  import StepScorer
  import Sequences

  // ---- Records ----

  /** What dispatching calls adds to the record of the instance itself. */
  predicate Side(d: Record) { d == SideOnly(d) }

  function SideOnly(d: Record): Record {
    NEW.(partial := d.partial, children := d.children, started := d.started, uses := d.uses)
  }

  function SideOf(s: Served): Record {
    match s
    case ByTool(u) => Used(u)
    case BySubagent(_, d) => d
  }

  /** What serving some calls adds, one after the other. */
  function Sides(ss: seq<Served>): Record {
    if ss == [] then NEW else Then(Sides(ss[..|ss| - 1]), SideOf(ss[|ss| - 1]))
  }

  function AllSides(served: seq<seq<Served>>): Record {
    if served == [] then NEW else Then(AllSides(served[..|served| - 1]), Sides(served[|served| - 1]))
  }

  lemma {:induction false} SidesPush(ss: seq<Served>, s: Served)
    ensures Sides(ss + [s]) == Then(Sides(ss), SideOf(s))
  {
    Sequences.Push(ss, s);
  }

  lemma {:induction false} AllSidesPush(served: seq<seq<Served>>, ss: seq<Served>)
    ensures AllSides(served + [ss]) == Then(AllSides(served), Sides(ss))
  {
    Sequences.Push(served, ss);
  }

  // ---- One call ----

  /** The call at `pos` of message `at`, read out of the history as it stands: a tool is given just this call and its
      observation is what the tool gave back; a subagent call is delegated. No text when it threw. */
  ghost predicate CallServed(e: Env, o: Options, task: string, h: History, at: nat, pos: nat, s: Served, text: Option<string>) {
    IsCall(h, at, pos) &&
    var x := h[at].calls[pos];
    if x.name == "subagent_tool" then s.BySubagent? && Side(s.d) && Delegated(e, o, task, x.args, h, s.g, s.d, text)
    else s.ByTool? && s.use.call == x && s.use.text == e.observe(s.use.now, x) && text == Some(s.use.text)
  }

  // ---- One turn ----

  /** The history when the `k`th safe call is reached. */
  ghost function Reached(c: Codec, full: bool, o: History, at: nat, safe: seq<nat>, contents: seq<string>, k: nat): History
    requires Sound(c) && AreCalls(o, at, safe) && k <= |contents| && k <= |safe|
  {
    TurnTo(c, full, o, at, safe[..k], contents[..k], k)
  }

  ghost predicate ServedAt(j: Job, o: History, at: nat, safe: seq<nat>, contents: seq<string>, k: nat, s: Served, text: Option<string>) {
    && Sound(j.env.codec) && AreCalls(o, at, safe) && k <= |contents| && k < |safe|
    && CallServed(j.env, j.opts, j.task, Reached(j.env.codec, j.opts.fullContextToken, o, at, safe, contents, k), at, safe[k], s, text)
  }

  /** The calls reached were served in order; one more than there are texts when the last one threw. This is
      `EachServed`, passed on whole. */
  ghost predicate TurnServed(j: Job, o: History, at: nat, safe: seq<nat>, contents: seq<string>, ss: seq<Served>) {
    forall n: nat :: Shown(n) ==> EachServed(j, o, at, safe, contents, ss)
  }

  ghost predicate EachServed(j: Job, o: History, at: nat, safe: seq<nat>, contents: seq<string>, ss: seq<Served>) {
    && |contents| <= |ss| <= |contents| + 1 && |ss| <= |safe|
    && forall k :: 0 <= k < |ss| ==>
        ServedAt(j, o, at, safe, contents, k, ss[k], if k < |contents| then Some(contents[k]) else None)
  }

  lemma {:induction false} NothingServed(j: Job, o: History, at: nat, safe: seq<nat>)
    ensures TurnServed(j, o, at, safe, [], []) && Sides([]) == NEW
  {}

  lemma {:induction false} ReachedIs(c: Codec, full: bool, o: History, at: nat, safe: seq<nat>, contents: seq<string>, g: History)
    requires Dispatched(c, full, o, at, safe, contents, g) && |contents| < |safe| && AreCalls(o, at, safe)
    ensures Sound(c) && Reached(c, full, o, at, safe, contents, |contents|) == g
  {
    assert Shown(0);
    assert contents[..|contents|] == contents;
  }

  lemma {:induction false} SamePrefixServed(j: Job, o: History, at: nat, safe: seq<nat>, contents: seq<string>, x: string, k: nat, s: Served, text: Option<string>)
    requires k <= |contents|
    ensures ServedAt(j, o, at, safe, contents + [x], k, s, text) <==> ServedAt(j, o, at, safe, contents, k, s, text)
  {
    assert (contents + [x])[..k] == contents[..k];
  }

  /** One more call, which gave a text or threw. */
  lemma {:induction false} OneMoreServed(j: Job, o: History, at: nat, safe: seq<nat>, contents: seq<string>, ss: seq<Served>, g: History, s: Served, ok: bool, x: string, more: seq<string>)
    requires TurnServed(j, o, at, safe, contents, ss) && |ss| == |contents| < |safe| && AreCalls(o, at, safe)
    requires Dispatched(j.env.codec, j.opts.fullContextToken, o, at, safe, contents, g)
    requires CallServed(j.env, j.opts, j.task, g, at, safe[|contents|], s, if ok then Some(x) else None)
    requires more == if ok then contents + [x] else contents
    ensures TurnServed(j, o, at, safe, more, ss + [s])
  {
    assert Shown(0);
    ReachedIs(j.env.codec, j.opts.fullContextToken, o, at, safe, contents, g);
    assert ServedAt(j, o, at, safe, contents, |contents|, s, if ok then Some(x) else None);
    forall k | 0 <= k < |ss| + 1
      ensures ServedAt(j, o, at, safe, more, k, (ss + [s])[k], if k < |more| then Some(more[k]) else None)
    {
      if k < |ss| { assert ServedAt(j, o, at, safe, contents, k, ss[k], Some(contents[k])); }
      SamePrefixServed(j, o, at, safe, contents, x, k, (ss + [s])[k], if k < |more| then Some(more[k]) else None);
    }
  }

  // ---- Whole rounds ----

  /** The calls of a response to the history `h` that are not withheld. */
  ghost predicate ResponseServed(j: Job, h: History, r: Response, contents: seq<string>, ss: seq<Served>) {
    TurnServed(j, Opened(j.env.codec, h, r), |h|, Safe(r), contents, ss)
  }

  /** All of them, each text of the round being what serving the call gave. */
  ghost predicate RoundServed(j: Job, h: History, r: Round, ss: seq<Served>) {
    |ss| == |r.contents| && ResponseServed(j, h, r.response, r.contents, ss)
  }

  /** Until one threw. */
  ghost predicate CutShort(j: Job, h: History, r: Response, ss: seq<Served>) {
    exists contents :: ResponseServed(j, h, r, contents, ss)
  }

  ghost predicate Playable(j: Job, rounds: seq<Round>) { Sound(j.env.codec) && forall r :: r in rounds ==> Complete(r) }

  /** The history after some rounds. */
  ghost function HistoryAfter(j: Job, rounds: seq<Round>): History
    requires Playable(j, rounds)
  {
    Converse(j.env.codec, j.opts.fullContextToken, j.start, rounds)
  }

  ghost predicate ServedRound(j: Job, rounds: seq<Round>, ss: seq<Served>, i: nat)
    requires Playable(j, rounds)
  {
    i < |rounds| && RoundServed(j, HistoryAfter(j, rounds[..i]), rounds[i], ss)
  }

  ghost predicate RoundsServed(j: Job, rounds: seq<Round>, served: seq<seq<Served>>)
    requires Playable(j, rounds)
  {
    |rounds| <= |served| && forall i :: 0 <= i < |rounds| ==> ServedRound(j, rounds, served[i], i)
  }

  /** Every round was served, and that is all the calls have added to the record. */
  ghost predicate Serving(j: Job, rounds: seq<Round>, served: seq<seq<Served>>, side: Record)
    requires Playable(j, rounds)
  {
    |served| == |rounds| && RoundsServed(j, rounds, served) && side == AllSides(served)
  }

  lemma {:induction false} ServedMore(j: Job, rounds: seq<Round>, r: Round, ss: seq<Served>, i: nat)
    requires Playable(j, rounds) && Complete(r) && i < |rounds| && ServedRound(j, rounds, ss, i)
    ensures Playable(j, rounds + [r]) && ServedRound(j, rounds + [r], ss, i)
  {
    assert (rounds + [r])[..i] == rounds[..i];
  }

  lemma {:induction false} ServingRound(j: Job, rounds: seq<Round>, served: seq<seq<Served>>, side: Record, r: Round, ss: seq<Served>)
    requires Playable(j, rounds) && Serving(j, rounds, served, side) && Complete(r)
    requires RoundServed(j, HistoryAfter(j, rounds), r, ss)
    ensures Playable(j, rounds + [r]) && Serving(j, rounds + [r], served + [ss], Then(side, Sides(ss)))
  {
    var more := rounds + [r];
    assert more[..|rounds|] == rounds;
    assert ServedRound(j, more, ss, |rounds|);
    forall i | 0 <= i < |more| ensures ServedRound(j, more, (served + [ss])[i], i) {
      if i < |rounds| { ServedMore(j, rounds, r, served[i], i); }
    }
    AllSidesPush(served, ss);
  }

  /** A response without calls has none to serve. */
  lemma {:induction false} NoCallsServed(j: Job, h: History, r: Round)
    requires r.response.calls == [] && Complete(r)
    ensures RoundServed(j, h, r, []) && Sides([]) == NEW
  {
    assert Shown(0);
  }

  // ---- Checking on itself ----

  /** The scores of the steps a run takes, when it keeps any. */
  function ScoresIn(e: Env, o: Options, uses: seq<Use>): seq<int> {
    if !o.selfHealing || uses == [] then [] else
    var u := uses[|uses| - 1];
    ScoresIn(e, o, uses[..|uses| - 1]) + [e.score(u.now, u.call)]
  }

  lemma {:induction false} ScoresAdd(e: Env, o: Options, a: seq<Use>, b: seq<Use>)
    ensures ScoresIn(e, o, a + b) == ScoresIn(e, o, a) + ScoresIn(e, o, b)
    decreases |b|
  {
    if b == [] {
      assert a + b == a;
    } else {
      ScoresAdd(e, o, a, b[..|b| - 1]);
      assert (a + b)[..|a + b| - 1] == a + b[..|b| - 1];
    }
  }

  /** Recent steps went badly, and the last nudge, in this round or an earlier one, is three iterations back. */
  predicate NudgeDue(o: Options, scores: seq<int>, last: Option<int>, iteration: int) {
    o.selfHealing && StepScorer.Health(scores, 5) < 40 && |scores| >= 2 && (last.None? || iteration - last.value >= 3)
  }

  predicate Nudged(r: Round) { r.response.calls != [] && r.notes != [] }

  /** The iteration of the last nudge after some rounds, `last` being that before them. */
  function LastNudge(o: Options, last: Option<int>, rounds: seq<Round>): Option<int> {
    if rounds == [] then last
    else if Nudged(rounds[|rounds| - 1]) then Some(IterationOf(o, |rounds| - 1))
    else LastNudge(o, last, rounds[..|rounds| - 1])
  }

  lemma {:induction false} LastNudgePush(o: Options, last: Option<int>, rounds: seq<Round>, r: Round)
    ensures LastNudge(o, last, rounds + [r]) == if Nudged(r) then Some(IterationOf(o, |rounds|)) else LastNudge(o, last, rounds)
  {
    Sequences.Push(rounds, r);
  }

  /** A round with calls ends with a nudge exactly when one is due. */
  predicate RightlyNudged(o: Options, scores: seq<int>, last: Option<int>, iteration: int, r: Round) {
    r.response.calls != [] ==> |r.notes| <= 1 && (r.notes != [] <==> NudgeDue(o, scores, last, iteration))
  }

  /** Round `i`, by the scores up to its own calls. */
  ghost predicate CheckedAt(e: Env, o: Options, scores: seq<int>, last: Option<int>, rounds: seq<Round>, served: seq<seq<Served>>, i: nat) {
    i < |rounds| && i < |served| &&
    RightlyNudged(o, scores + ScoresIn(e, o, AllSides(served[..i + 1]).uses), LastNudge(o, last, rounds[..i]), IterationOf(o, i), rounds[i])
  }

  /** Over a whole run that begins with these scores and this last nudge. Passed on whole. */
  ghost predicate SelfChecked(e: Env, o: Options, scores: seq<int>, last: Option<int>, rounds: seq<Round>, served: seq<seq<Served>>) {
    forall n: nat :: Shown(n) ==> forall i :: 0 <= i < |rounds| ==> CheckedAt(e, o, scores, last, rounds, served, i)
  }

  lemma {:induction false} CheckedMore(e: Env, o: Options, scores: seq<int>, last: Option<int>, rounds: seq<Round>, served: seq<seq<Served>>, r: Round, ss: seq<Served>)
    requires SelfChecked(e, o, scores, last, rounds, served) && |served| == |rounds|
    requires RightlyNudged(o, scores + ScoresIn(e, o, AllSides(served + [ss]).uses), LastNudge(o, last, rounds), IterationOf(o, |rounds|), r)
    ensures SelfChecked(e, o, scores, last, rounds + [r], served + [ss])
  {
    assert Shown(0);
    var more, all := rounds + [r], served + [ss];
    forall i | 0 <= i < |more| ensures CheckedAt(e, o, scores, last, more, all, i) {
      if i < |rounds| {
        assert CheckedAt(e, o, scores, last, rounds, served, i);
        assert more[..i] == rounds[..i] && all[..i + 1] == served[..i + 1];
      } else {
        assert more[..i] == rounds && all[..i + 1] == all;
      }
    }
  }

  /** At most one round more, which ends with a nudge exactly when one is due. */
  ghost predicate Rechecked(o: Options, rounds: seq<Round>, served: seq<seq<Served>>, more: seq<Round>, all: seq<seq<Served>>,
                            scores: seq<int>, last: Option<int>, next: Option<int>) {
    || (more == rounds && served <= all && next == last)
    || (exists r, ss :: OneRound(rounds, served, more, all, r, ss) && NudgedNext(o, |rounds|, scores, last, next, r))
  }

  predicate OneRound(rounds: seq<Round>, served: seq<seq<Served>>, more: seq<Round>, all: seq<seq<Served>>, r: Round, ss: seq<Served>) {
    more == rounds + [r] && all == served + [ss]
  }

  /** Round `i` is `r`, and `next` is the last nudge after it. */
  predicate NudgedNext(o: Options, i: nat, scores: seq<int>, last: Option<int>, next: Option<int>, r: Round) {
    && RightlyNudged(o, scores, last, IterationOf(o, i), r)
    && next == if Nudged(r) then Some(IterationOf(o, i)) else last
  }

  lemma {:induction false} CheckedLonger(e: Env, o: Options, scores: seq<int>, last: Option<int>, rounds: seq<Round>, served: seq<seq<Served>>, all: seq<seq<Served>>)
    requires SelfChecked(e, o, scores, last, rounds, served) && |served| == |rounds| && served <= all
    ensures SelfChecked(e, o, scores, last, rounds, all)
  {
    assert Shown(0);
    forall i | 0 <= i < |rounds| ensures CheckedAt(e, o, scores, last, rounds, all, i) {
      assert CheckedAt(e, o, scores, last, rounds, served, i);
      assert all[..i + 1] == served[..i + 1];
    }
  }

  lemma {:induction false} CheckedOn(e: Env, o: Options, first: seq<int>, last: Option<int>, rounds: seq<Round>, served: seq<seq<Served>>,
                                     more: seq<Round>, all: seq<seq<Served>>, scores: seq<int>, next: Option<int>)
    requires SelfChecked(e, o, first, last, rounds, served) && |served| == |rounds|
    requires Rechecked(o, rounds, served, more, all, scores, LastNudge(o, last, rounds), next)
    requires scores == first + ScoresIn(e, o, AllSides(all).uses)
    ensures SelfChecked(e, o, first, last, more, all) && next == LastNudge(o, last, more)
  {
    if more == rounds && served <= all && next == LastNudge(o, last, rounds) {
      CheckedLonger(e, o, first, last, rounds, served, all);
    } else {
      var r, ss :| OneRound(rounds, served, more, all, r, ss)
        && NudgedNext(o, |rounds|, scores, LastNudge(o, last, rounds), next, r);
      CheckedMore(e, o, first, last, rounds, served, r, ss);
      LastNudgePush(o, last, rounds, r);
    }
  }
}
