/** The history of one run of the loop, round by round: what every request looks like. */
module Rounds {
  import opened Prelude
  import opened Conversation
  import opened TruncationGuard
  import opened Compaction
  import opened Hiding

  /** One trip round the loop: the model's response, the observation text of each call that is not withheld,
      and the user messages added at the end (a rejected answer, a nudge). */
  datatype Round = Round(response: Response, contents: seq<string>, notes: seq<string>)

  function Safe(r: Response): seq<nat> { Positions(r, false, |r.calls|) }

  function Blocked(r: Response): seq<nat> { Positions(r, true, |r.calls|) }

  ghost predicate Complete(r: Round) { |r.contents| == |Safe(r.response)| }

  // ---- One call ----

  predicate IsCall(h: History, at: nat, pos: nat) { at < |h| && h[at].Assistant? && pos < |h[at].calls| }

  /** Whether an observation of this call makes earlier ones stale. */
  predicate Supersedes(c: Codec, x: Call) {
    Compactable(x.name) && PathOf(c, x).Some? && PathOf(c, x).value != ""
  }

  /** The observation is pushed, and older snapshots of its file are collapsed. */
  ghost function Step(c: Codec, full: bool, h: History, at: nat, pos: nat, content: string): History
    requires IsCall(h, at, pos)
  {
    var x := h[at].calls[pos];
    var h1 := h + [Tool(x.id, x.name, content)];
    if !full && Supersedes(c, x) then Compact(c, h1, PathOf(c, x).value, x.id) else h1
  }

  lemma {:induction false} StepKeeps(c: Codec, full: bool, h: History, at: nat, pos: nat, content: string)
    requires Sound(c) && IsCall(h, at, pos)
    ensures var g := Step(c, full, h, at, pos, content);
      && |g| == |h| + 1
      && (forall t :: 0 <= t < |h| ==> Keeps(c, h[t], g[t]))
      && g[|h|] == Tool(h[at].calls[pos].id, h[at].calls[pos].name, content)
      && DebtOf(g) == After(DebtOf(h), g[|h|])
  {
    var x := h[at].calls[pos];
    var m := Tool(x.id, x.name, content);
    var h1 := h + [m];
    DebtPush(h, m);
    if !full && Supersedes(c, x) {
      var p := PathOf(c, x).value;
      CompactionKeeps(c, h1, p, x.id, Compact(c, h1, p, x.id));
      CompactionKeepsDebt(c, h1, p, x.id, Compact(c, h1, p, x.id));
      CurrentUntouched(c, h1, p, x.id, Compact(c, h1, p, x.id));
      assert h1[|h|] == m;
      forall t | 0 <= t < |h| ensures Keeps(c, h[t], Compact(c, h1, p, x.id)[t]) { assert h1[t] == h[t]; }
    } else {
      forall t | 0 <= t < |h| ensures Keeps(c, h[t], h1[t]) { KeepsItself(c, h[t]); }
    }
  }

  lemma {:induction false} KeepsItself(c: Codec, m: Message)
    ensures Keeps(c, m, m)
  {}

  lemma {:induction false} KeepsOn(c: Codec, a: Message, b: Message, d: Message)
    requires Keeps(c, a, b) && Keeps(c, b, d)
    ensures Keeps(c, a, d)
  {
    if a.Assistant? {
      forall i | 0 <= i < |a.calls| ensures KeepsCall(c, a.calls[i], d.calls[i]) {
        assert KeepsCall(c, a.calls[i], b.calls[i]) && KeepsCall(c, b.calls[i], d.calls[i]);
      }
    }
  }

  // ---- The calls of one response, in order ----

  ghost predicate AreCalls(h: History, at: nat, ps: seq<nat>) {
    at < |h| && h[at].Assistant? && forall i :: 0 <= i < |ps| ==> ps[i] < |h[at].calls|
  }

  /** After the first `k` calls. Each is read out of the history at its turn, so it is seen as compaction
      left it. */
  ghost function TurnTo(c: Codec, full: bool, h: History, at: nat, ps: seq<nat>, contents: seq<string>, k: nat): (g: History)
    requires Sound(c) && AreCalls(h, at, ps) && k <= |ps| == |contents|
    ensures |g| == |h| + k && g[at].Assistant? && |g[at].calls| == |h[at].calls|
    decreases k
  {
    if k == 0 then h else
    var p := TurnTo(c, full, h, at, ps, contents, k - 1);
    StepKeepsCalls(c, full, p, at, ps[k - 1], contents[k - 1]);
    Step(c, full, p, at, ps[k - 1], contents[k - 1])
  }

  lemma {:induction false} StepKeepsCalls(c: Codec, full: bool, h: History, at: nat, pos: nat, content: string)
    requires Sound(c) && IsCall(h, at, pos)
    ensures var g := Step(c, full, h, at, pos, content);
      |g| == |h| + 1 && g[at].Assistant? && |g[at].calls| == |h[at].calls|
  {
    StepKeeps(c, full, h, at, pos, content);
    assert Keeps(c, h[at], Step(c, full, h, at, pos, content)[at]);
  }

  lemma {:induction false} TurnKeeps(c: Codec, full: bool, h: History, at: nat, ps: seq<nat>, contents: seq<string>, k: nat, t: nat)
    requires Sound(c) && AreCalls(h, at, ps) && k <= |ps| == |contents| && t < |h|
    ensures Keeps(c, h[t], TurnTo(c, full, h, at, ps, contents, k)[t])
    decreases k
  {
    if k == 0 {
      KeepsItself(c, h[t]);
    } else {
      TurnKeeps(c, full, h, at, ps, contents, k - 1, t);
      StepAfterTurn(c, full, h, at, ps, contents, k, t);
      KeepsOn(c, h[t], TurnTo(c, full, h, at, ps, contents, k - 1)[t], TurnTo(c, full, h, at, ps, contents, k)[t]);
    }
  }

  lemma {:induction false} StepAfterTurn(c: Codec, full: bool, h: History, at: nat, ps: seq<nat>, contents: seq<string>, k: nat, t: nat)
    requires Sound(c) && AreCalls(h, at, ps) && 0 < k <= |ps| == |contents| && t < |h|
    ensures Keeps(c, TurnTo(c, full, h, at, ps, contents, k - 1)[t], TurnTo(c, full, h, at, ps, contents, k)[t])
  {
    StepKeeps(c, full, TurnTo(c, full, h, at, ps, contents, k - 1), at, ps[k - 1], contents[k - 1]);
  }

  /** The next call still has the id, the tool and the path it had at the start of the turn. */
  lemma {:induction false} NextCall(c: Codec, full: bool, h: History, at: nat, ps: seq<nat>, contents: seq<string>, k: nat, b: nat)
    requires Sound(c) && AreCalls(h, at, ps) && k <= |ps| == |contents| && b < |h[at].calls|
    ensures KeepsCall(c, h[at].calls[b], TurnTo(c, full, h, at, ps, contents, k)[at].calls[b])
  {
    TurnKeeps(c, full, h, at, ps, contents, k, at);
  }

  /** What is owed is one answer for each of `ids`, in any order. */
  ghost predicate Owes(h: History, ids: seq<string>) {
    DebtOf(h).Owing? && OneForEach(ids, DebtOf(h).ids)
  }

  lemma {:induction false} Pays(h: History, g: History, m: Message, ids: seq<string>)
    requires m.Tool? && ids != [] && ids[0] == m.callId && Owes(h, ids) && DebtOf(g) == After(DebtOf(h), m)
    ensures Owes(g, ids[1..])
  {}

  /** Observations for the calls at `ps` settle exactly their ids. */
  lemma {:induction false} TurnPays(c: Codec, full: bool, h: History, at: nat, ps: seq<nat>, contents: seq<string>, k: nat)
    requires Sound(c) && AreCalls(h, at, ps) && k <= |ps| == |contents|
    requires Owes(h, IdsAt(h[at].calls, ps))
    ensures Owes(TurnTo(c, full, h, at, ps, contents, k), IdsAt(h[at].calls, ps)[k..])
    decreases k
  {
    if k > 0 {
      TurnPays(c, full, h, at, ps, contents, k - 1);
      var p := TurnTo(c, full, h, at, ps, contents, k - 1);
      StepKeeps(c, full, p, at, ps[k - 1], contents[k - 1]);
      NextCall(c, full, h, at, ps, contents, k - 1, ps[k - 1]);
      var g := TurnTo(c, full, h, at, ps, contents, k);
      var ids := IdsAt(h[at].calls, ps);
      Pays(p, g, g[|p|], ids[k - 1..]);
      assert ids[k - 1..][1..] == ids[k..];
    } else {
      assert IdsAt(h[at].calls, ps)[0..] == IdsAt(h[at].calls, ps);
    }
  }

  // ---- One round ----

  function Warnings(c: Codec, calls: seq<Call>, ps: seq<nat>, k: nat): History
    requires k <= |ps| && forall i :: 0 <= i < |ps| ==> ps[i] < |calls|
  {
    if k == 0 then [] else
    var x := calls[ps[k - 1]];
    Warnings(c, calls, ps, k - 1) + [Tool(x.id, x.name, c.warning(x))]
  }

  function Notes(notes: seq<string>): (r: History)
    ensures |r| == |notes| && forall i :: 0 <= i < |notes| ==> r[i] == User(notes[i])
  {
    if notes == [] then [] else [User(notes[0])] + Notes(notes[1..])
  }

  lemma {:induction false} PositionsInRange(r: Response)
    ensures forall i :: 0 <= i < |Safe(r)| ==> Safe(r)[i] < |r.calls|
    ensures forall i :: 0 <= i < |Blocked(r)| ==> Blocked(r)[i] < |r.calls|
  {
    GuardPartitions(r, false, |r.calls|);
    GuardPartitions(r, true, |r.calls|);
    assert forall i :: 0 <= i < |Safe(r)| ==> Safe(r)[i] in Safe(r);
    assert forall i :: 0 <= i < |Blocked(r)| ==> Blocked(r)[i] in Blocked(r);
  }

  /** The assistant message and the answers to its withheld calls. */
  function Opened(c: Codec, h: History, r: Response): History {
    PositionsInRange(r);
    h + [Assistant(r.content, r.calls, r.reasoning)] + Warnings(c, r.calls, Blocked(r), |Blocked(r)|)
  }

  lemma {:induction false} WarningsPay(c: Codec, h: History, calls: seq<Call>, ps: seq<nat>, k: nat, more: seq<string>)
    requires k <= |ps| && forall i :: 0 <= i < |ps| ==> ps[i] < |calls|
    requires Owes(h, IdsAt(calls, ps) + more)
    ensures Owes(h + Warnings(c, calls, ps, k), (IdsAt(calls, ps) + more)[k..])
    decreases k
  {
    var ids := IdsAt(calls, ps) + more;
    if k == 0 {
      assert h + [] == h && ids[0..] == ids;
    } else {
      WarningsPay(c, h, calls, ps, k - 1, more);
      var p := h + Warnings(c, calls, ps, k - 1);
      var x := calls[ps[k - 1]];
      var m := Tool(x.id, x.name, c.warning(x));
      assert h + Warnings(c, calls, ps, k) == p + [m];
      DebtPush(p, m);
      assert ids[k - 1..][1..] == ids[k..];
      Pays(p, p + [m], m, ids[k - 1..]);
    }
  }

  lemma {:induction false} WarningsSize(c: Codec, calls: seq<Call>, ps: seq<nat>, k: nat)
    requires k <= |ps| && forall i :: 0 <= i < |ps| ==> ps[i] < |calls|
    ensures |Warnings(c, calls, ps, k)| == k
    ensures forall i :: 0 <= i < k ==> Warnings(c, calls, ps, k)[i] == Tool(calls[ps[i]].id, calls[ps[i]].name, c.warning(calls[ps[i]]))
  {
    if k > 0 { WarningsSize(c, calls, ps, k - 1); }
  }

  lemma {:induction false} OpenedOwes(c: Codec, h: History, r: Response)
    requires Answered(h)
    ensures Owes(Opened(c, h, r), IdsAt(r.calls, Safe(r)))
  {
    PositionsInRange(r);
    var m := Assistant(r.content, r.calls, r.reasoning);
    DebtPush(h, m);
    EveryCallOnce(r);
    var b, s := IdsAt(r.calls, Blocked(r)), IdsAt(r.calls, Safe(r));
    WarningsPay(c, h + [m], r.calls, Blocked(r), |Blocked(r)|, s);
    assert (b + s)[|Blocked(r)|..] == s;
  }

  ghost function Play(c: Codec, full: bool, h: History, r: Round): History
    requires Sound(c) && Complete(r)
  {
    OpenedCalls(c, h, r.response);
    var o := Opened(c, h, r.response);
    TurnTo(c, full, o, |h|, Safe(r.response), r.contents, |r.contents|) + Notes(r.notes)
  }

  lemma {:induction false} OpenedCalls(c: Codec, h: History, r: Response)
    ensures AreCalls(Opened(c, h, r), |h|, Safe(r))
    ensures Opened(c, h, r)[|h|] == Assistant(r.content, r.calls, r.reasoning)
  {
    PositionsInRange(r);
  }

  lemma {:induction false} NotesKeepAnswered(h: History, notes: seq<string>)
    requires Answered(h)
    ensures Answered(h + Notes(notes))
    decreases notes
  {
    if notes == [] {
      assert h + [] == h;
    } else {
      DebtPush(h, User(notes[0]));
      NotesKeepAnswered(h + [User(notes[0])], notes[1..]);
      assert h + Notes(notes) == h + [User(notes[0])] + Notes(notes[1..]);
    }
  }

  /** A round leaves every call answered, whatever was withheld, delegated or compacted in it. */
  lemma {:induction false} PlayKeepsAnswered(c: Codec, full: bool, h: History, r: Round)
    requires Sound(c) && Complete(r) && Answered(h)
    ensures Answered(Play(c, full, h, r))
  {
    OpenedCalls(c, h, r.response);
    OpenedOwes(c, h, r.response);
    var o := Opened(c, h, r.response);
    var s := Safe(r.response);
    TurnPays(c, full, o, |h|, s, r.contents, |s|);
    var g := TurnTo(c, full, o, |h|, s, r.contents, |s|);
    assert IdsAt(o[|h|].calls, s)[|s|..] == [];
    assert DebtOf(g).ids == [];
    NotesKeepAnswered(g, r.notes);
  }

  /** The history after any number of rounds. */
  ghost function Converse(c: Codec, full: bool, start: History, rounds: seq<Round>): History
    requires Sound(c) && forall r :: r in rounds ==> Complete(r)
  {
    if rounds == [] then start
    else Play(c, full, Converse(c, full, start, rounds[..|rounds| - 1]), rounds[|rounds| - 1])
  }

  /** Over any run, every request answers every tool call. */
  lemma {:induction false} EveryRequestAnswered(c: Codec, full: bool, start: History, rounds: seq<Round>)
    requires Sound(c) && Answered(start) && forall r :: r in rounds ==> Complete(r)
    ensures Answered(Converse(c, full, start, rounds)) && EveryCallAnswered(Converse(c, full, start, rounds))
  {
    if rounds != [] {
      var most := rounds[..|rounds| - 1];
      EveryRequestAnswered(c, full, start, most);
      PlayKeepsAnswered(c, full, Converse(c, full, start, most), rounds[|rounds| - 1]);
    }
    AnsweredMeans(Converse(c, full, start, rounds));
  }

  // ---- A round as the loop plays it ----

  ghost predicate Plays(c: Codec, full: bool, h: History, r: Round, g: History) {
    Sound(c) && Complete(r) && g == Play(c, full, h, r)
  }

  lemma {:induction false} PlaysWithNotes(c: Codec, full: bool, h: History, r: Response, contents: seq<string>, g: History, notes: seq<string>)
    requires Plays(c, full, h, Round(r, contents, []), g)
    ensures Plays(c, full, h, Round(r, contents, notes), g + Notes(notes))
  {
    OpenedCalls(c, h, r);
    var o := Opened(c, h, r);
    var body := TurnTo(c, full, o, |h|, Safe(r), contents, |contents|);
    assert g == body + Notes([]) == body;
  }

  /** A rejected answer is a round with no calls whose note is the rejection. */
  lemma {:induction false} RejectionPlays(c: Codec, full: bool, h: History, r: Response, note: string)
    requires Sound(c) && r.calls == []
    ensures Plays(c, full, h, Round(r, [], [note]), h + [Assistant(r.content, [], r.reasoning)] + [User(note)])
  {
    OpenedCalls(c, h, r);
    assert Safe(r) == [] && Blocked(r) == [];
    assert Opened(c, h, r) == h + [Assistant(r.content, [], r.reasoning)];
    assert Notes([note]) == [User(note)];
  }

  /** The call at `pos` of the response at `at` is read out of the history when its turn comes, so a turn
      depends on the calls so far only. */
  lemma {:induction false} TurnPrefix(c: Codec, full: bool, h: History, at: nat, ps: seq<nat>, xs: seq<string>, qs: seq<nat>, ys: seq<string>, k: nat)
    requires Sound(c) && AreCalls(h, at, ps) && AreCalls(h, at, qs)
    requires k <= |ps| == |xs| && k <= |qs| == |ys| && ps[..k] == qs[..k] && xs[..k] == ys[..k]
    ensures TurnTo(c, full, h, at, ps, xs, k) == TurnTo(c, full, h, at, qs, ys, k)
    decreases k
  {
    if k > 0 {
      assert ps[..k - 1] == ps[..k][..k - 1] && xs[..k - 1] == xs[..k][..k - 1];
      assert qs[..k - 1] == qs[..k][..k - 1] && ys[..k - 1] == ys[..k][..k - 1];
      TurnPrefix(c, full, h, at, ps, xs, qs, ys, k - 1);
      assert ps[k - 1] == ps[..k][k - 1] && xs[k - 1] == xs[..k][k - 1];
      assert qs[k - 1] == qs[..k][k - 1] && ys[k - 1] == ys[..k][k - 1];
    }
  }

  /** The history while the safe calls of a response are dispatched: `SafeDispatched`, passed on whole. */
  ghost predicate Dispatched(c: Codec, full: bool, o: History, at: nat, safe: seq<nat>, contents: seq<string>, g: History) {
    forall n: nat :: Shown(n) ==> SafeDispatched(c, full, o, at, safe, contents, g)
  }

  ghost predicate SafeDispatched(c: Codec, full: bool, o: History, at: nat, safe: seq<nat>, contents: seq<string>, g: History) {
    && Sound(c) && |contents| <= |safe| && AreCalls(o, at, safe[..|contents|])
    && g == TurnTo(c, full, o, at, safe[..|contents|], contents, |contents|)
  }

  lemma {:induction false} StartDispatch(c: Codec, full: bool, o: History, at: nat, safe: seq<nat>)
    requires Sound(c) && AreCalls(o, at, safe)
    ensures Dispatched(c, full, o, at, safe, [], o)
  {
    assert Shown(0);
    assert safe[..0] == [];
  }

  lemma {:induction false} DispatchedMore(c: Codec, full: bool, o: History, at: nat, safe: seq<nat>, contents: seq<string>, g: History, x: string, g': History)
    requires Dispatched(c, full, o, at, safe, contents, g) && |contents| < |safe| && AreCalls(o, at, safe)
    requires IsCall(g, at, safe[|contents|]) && g' == Step(c, full, g, at, safe[|contents|], x)
    ensures Dispatched(c, full, o, at, safe, contents + [x], g')
  {
    assert Shown(0);
    var k := |contents|;
    assert safe[..k + 1] == safe[..k] + [safe[k]];
    assert AreCalls(o, at, safe[..k + 1]);
    assert safe[..k + 1][..k] == safe[..k][..k] && (contents + [x])[..k] == contents[..k];
    TurnPrefix(c, full, o, at, safe[..k], contents, safe[..k + 1], contents + [x], k);
  }

  /** The next call is there, under the name the model gave it. */
  lemma {:induction false} DispatchedCall(c: Codec, full: bool, o: History, at: nat, safe: seq<nat>, contents: seq<string>, g: History)
    requires Dispatched(c, full, o, at, safe, contents, g) && |contents| < |safe| && AreCalls(o, at, safe)
    ensures IsCall(g, at, safe[|contents|])
    ensures g[at].calls[safe[|contents|]].name == o[at].calls[safe[|contents|]].name
  {
    assert Shown(0);
    NextCall(c, full, o, at, safe[..|contents|], contents, |contents|, safe[|contents|]);
  }

  /** Once every safe call has been dispatched. */
  lemma {:induction false} DispatchEnds(c: Codec, full: bool, h: History, r: Response, contents: seq<string>, g: History)
    requires Dispatched(c, full, Opened(c, h, r), |h|, Safe(r), contents, g) && |contents| == |Safe(r)|
    ensures Plays(c, full, h, Round(r, contents, []), g)
  {
    assert Shown(0);
    OpenedCalls(c, h, r);
    assert Safe(r)[..|contents|] == Safe(r);
    assert g + Notes([]) == g;
  }

  // ---- Arguments at dispatch ----

  /** One of the first `k` dispatched calls replaces the arguments of `y`. */
  ghost predicate Clobbered(c: Codec, calls: seq<Call>, ps: seq<nat>, k: nat, y: Call)
    requires k <= |ps| && forall i :: 0 <= i < |ps| ==> ps[i] < |calls|
  {
    exists j :: 0 <= j < k && Clobbers(c, calls[ps[j]], y)
  }

  /** Dispatching `x` replaces the arguments of `y`: a write of the same file with a payload of its own. */
  predicate Clobbers(c: Codec, x: Call, y: Call) {
    && Supersedes(c, x) && Stale(c, y, PathOf(c, x).value, x.id)
    && y.name == "write_edit_tool" && !Includes(y.args, STALE_WRITE)
  }

  function Rewritten(c: Codec, x: Call): Call {
    x.(args := c.staleArgs(if PathOf(c, x).Some? then PathOf(c, x).value else "", ModeOf(c, x)))
  }

  lemma {:induction false} StepOnCall(c: Codec, h: History, at: nat, pos: nat, content: string, a: nat, b: nat)
    requires Sound(c) && IsCall(h, at, pos) && IsCall(h, a, b)
    ensures var g, y := Step(c, false, h, at, pos, content), h[a].calls[b];
      IsCall(g, a, b) && g[a].calls[b] == if Clobbers(c, h[at].calls[pos], y) then Rewritten(c, y) else y
  {
    var x := h[at].calls[pos];
    var h1 := h + [Tool(x.id, x.name, content)];
    assert h1[a] == h[a];
  }

  /** What call `b` of message `a` looks like once `k` calls of the response at `at` have been dispatched. */
  lemma {:induction false} CallAfter(c: Codec, h: History, at: nat, ps: seq<nat>, contents: seq<string>, k: nat, a: nat, b: nat)
    requires Sound(c) && AreCalls(h, at, ps) && k <= |ps| == |contents| && IsCall(h, a, b)
    ensures var g, y := TurnTo(c, false, h, at, ps, contents, k), h[a].calls[b];
      IsCall(g, a, b) && g[a].calls[b] == if Clobbered(c, h[at].calls, ps, k, y) then Rewritten(c, y) else y
    decreases k
  {
    if k > 0 {
      CallAfter(c, h, at, ps, contents, k - 1, a, b);
      CallAfter(c, h, at, ps, contents, k - 1, at, ps[k - 1]);
      var p := TurnTo(c, false, h, at, ps, contents, k - 1);
      StepOnCall(c, p, at, ps[k - 1], contents[k - 1], a, b);
      OneMoreClobbers(c, h[at].calls, ps, k, h[a].calls[b], p[at].calls[ps[k - 1]], p[a].calls[b]);
    }
  }

  /** `x` and `y` are a dispatched call and another as the calls before have left them. */
  lemma {:induction false} OneMoreClobbers(c: Codec, calls: seq<Call>, ps: seq<nat>, k: nat, y0: Call, x: Call, y: Call)
    requires Sound(c) && 0 < k <= |ps| && forall i :: 0 <= i < |ps| ==> ps[i] < |calls|
    requires var x0 := calls[ps[k - 1]]; x == if Clobbered(c, calls, ps, k - 1, x0) then Rewritten(c, x0) else x0
    requires y == if Clobbered(c, calls, ps, k - 1, y0) then Rewritten(c, y0) else y0
    ensures (if Clobbers(c, x, y) then Rewritten(c, y) else y) == if Clobbered(c, calls, ps, k, y0) then Rewritten(c, y0) else y0
  {
    SameClobbers(c, calls[ps[k - 1]], y0, x, y);
    ClobberedStep(c, calls, ps, k, y0);
  }

  /** A rewritten call clobbers as the original does, and is not clobbered again. */
  lemma {:induction false} SameClobbers(c: Codec, x: Call, y: Call, x': Call, y': Call)
    requires Sound(c) && (x' == x || x' == Rewritten(c, x)) && (y' == y || y' == Rewritten(c, y))
    requires x' != x ==> PathOf(c, x).Some?
    requires y' != y ==> PathOf(c, y).Some? && y.name == "write_edit_tool" && !Includes(y.args, STALE_WRITE)
    ensures Clobbers(c, x', y') <==> Clobbers(c, x, y) && y' == y
    ensures y' != y ==> (if Clobbers(c, x', y') then Rewritten(c, y') else y') == Rewritten(c, y)
  {}

  lemma {:induction false} ClobberedStep(c: Codec, calls: seq<Call>, ps: seq<nat>, k: nat, y: Call)
    requires 0 < k <= |ps| && forall i :: 0 <= i < |ps| ==> ps[i] < |calls|
    ensures Clobbered(c, calls, ps, k, y) <==> Clobbered(c, calls, ps, k - 1, y) || Clobbers(c, calls[ps[k - 1]], y)
  {}

  /** Every call is dispatched with the arguments the model gave it. */
  ghost predicate Faithful(c: Codec, full: bool, h: History, at: nat, ps: seq<nat>, contents: seq<string>)
    requires Sound(c) && AreCalls(h, at, ps) && |ps| == |contents|
  {
    forall k :: 0 <= k < |ps| ==> TurnTo(c, full, h, at, ps, contents, k)[at].calls[ps[k]] == h[at].calls[ps[k]]
  }

  /** The calls of one turn reach the tools unaltered exactly when no read or write of a file comes before
      a write of the same file in that turn. */
  lemma {:induction false} FaithfulDispatch(c: Codec, h: History, at: nat, ps: seq<nat>, contents: seq<string>)
    requires Sound(c) && AreCalls(h, at, ps) && |ps| == |contents|
    ensures Faithful(c, false, h, at, ps, contents)
      <==> forall k :: 0 <= k < |ps| ==> !Clobbered(c, h[at].calls, ps, k, h[at].calls[ps[k]])
  {
    forall k | 0 <= k < |ps|
      ensures TurnTo(c, false, h, at, ps, contents, k)[at].calls[ps[k]] == h[at].calls[ps[k]]
        <==> !Clobbered(c, h[at].calls, ps, k, h[at].calls[ps[k]])
    {
      var x := h[at].calls[ps[k]];
      CallAfter(c, h, at, ps, contents, k, at, ps[k]);
      if Clobbered(c, h[at].calls, ps, k, x) {
        assert !Includes(x.args, STALE_WRITE) && Includes(Rewritten(c, x).args, STALE_WRITE);
      }
    }
  }

  /** A turn whose first call reads a file and whose second writes it: once the read is done, the write
      waiting for its turn has lost its payload. */
  lemma {:induction false} WriteAfterReadLosesPayload(c: Codec, h: History, at: nat, ps: seq<nat>, path: string, contents: seq<string>)
    requires Sound(c) && path != "" && ps == [0, 1] && AreCalls(h, at, ps) && |h[at].calls| >= 2 && |contents| == 2
    requires var x := h[at].calls[0]; x.name == "read_tool" && PathOf(c, x) == Some(path) && x.id != h[at].calls[1].id
    requires var y := h[at].calls[1];
      y.name == "write_edit_tool" && PathOf(c, y) == Some(path) && !Includes(y.args, STALE_WRITE)
    ensures var y := h[at].calls[1];
      TurnTo(c, false, h, at, ps, contents, 1)[at].calls[1].args == c.staleArgs(path, ModeOf(c, y)) != y.args
  {
    CallAfter(c, h, at, ps, contents, 1, at, 1);
    assert Clobbers(c, h[at].calls[ps[0]], h[at].calls[1]);
  }

  // ---- Arguments over a whole run ----

  /** A call dispatched in this round replaces the arguments of `y`. */
  ghost predicate Displaced(c: Codec, r: Response, y: Call) {
    PositionsInRange(r);
    Clobbered(c, r.calls, Safe(r), |Safe(r)|, y)
  }

  /** Round `i` or a later one does. */
  ghost predicate Superseded(c: Codec, rounds: seq<Round>, i: nat, y: Call) {
    exists k: nat :: i <= k < |rounds| && Displaced(c, rounds[k].response, y)
  }

  /** What a round makes of a call, its own calls included. */
  lemma {:induction false} PlayOnCall(c: Codec, h: History, r: Round, o: History, a: nat, b: nat)
    requires Sound(c) && Complete(r) && o == Opened(c, h, r.response) && IsCall(o, a, b)
    ensures var g, y := Play(c, false, h, r), o[a].calls[b];
      IsCall(g, a, b) && g[a].calls[b] == if Displaced(c, r.response, y) then Rewritten(c, y) else y
  {
    OpenedCalls(c, h, r.response);
    CallAfter(c, o, |h|, Safe(r.response), r.contents, |r.contents|, a, b);
  }

  lemma {:induction false} SupersededMore(c: Codec, rounds: seq<Round>, i: nat, y: Call)
    requires rounds != [] && i < |rounds|
    ensures Superseded(c, rounds, i, y)
      <==> Superseded(c, rounds[..|rounds| - 1], i, y) || Displaced(c, rounds[|rounds| - 1].response, y)
  {
    var most := rounds[..|rounds| - 1];
    if Superseded(c, rounds, i, y) && !Displaced(c, rounds[|rounds| - 1].response, y) {
      var k: nat :| i <= k < |rounds| && Displaced(c, rounds[k].response, y);
      assert most[k] == rounds[k];
    }
    if Superseded(c, most, i, y) {
      var k: nat :| i <= k < |most| && Displaced(c, most[k].response, y);
      assert rounds[k] == most[k];
    }
  }

  /** A call already rewritten is not rewritten again. */
  lemma {:induction false} RewrittenOnce(c: Codec, r: Response, y: Call)
    requires Sound(c)
    ensures !Displaced(c, r, Rewritten(c, y))
  {
    assert Includes(Rewritten(c, y).args, STALE_WRITE);
  }

  lemma {:induction false} FirstRound(c: Codec, rounds: seq<Round>, i: nat, y: Call)
    requires |rounds| == i + 1
    ensures Superseded(c, rounds, i, y) <==> Displaced(c, rounds[i].response, y)
  {}

  /** Call `b` of the response of round `i`, as it stands in the history after any number of further rounds. */
  lemma {:induction false} CallInHistory(c: Codec, start: History, rounds: seq<Round>, i: nat, b: nat, at: nat)
    requires Sound(c) && (forall r :: r in rounds ==> Complete(r)) && i < |rounds| && b < |rounds[i].response.calls|
    requires at == |Converse(c, false, start, rounds[..i])|
    ensures var g, y := Converse(c, false, start, rounds), rounds[i].response.calls[b];
      IsCall(g, at, b) && g[at].calls[b] == if Superseded(c, rounds, i, y) then Rewritten(c, y) else y
    decreases |rounds|
  {
    var most, last, y := rounds[..|rounds| - 1], rounds[|rounds| - 1], rounds[i].response.calls[b];
    var h := Converse(c, false, start, most);
    OpenedCalls(c, h, last.response);
    if i == |rounds| - 1 {
      assert rounds[..i] == most;
      PlayOnCall(c, h, last, Opened(c, h, last.response), at, b);
      FirstRound(c, rounds, i, y);
    } else {
      assert most[..i] == rounds[..i] && most[i] == rounds[i];
      CallInHistory(c, start, most, i, b, at);
      assert Opened(c, h, last.response)[at] == h[at];
      PlayOnCall(c, h, last, Opened(c, h, last.response), at, b);
      SupersededMore(c, rounds, i, y);
      RewrittenOnce(c, last.response, y);
    }
  }

  /** Over a whole run the arguments of a call are still the model's own exactly when no call dispatched in its
      round or later supersedes them: another read or write of its file. */
  lemma {:induction false} ArgumentsKept(c: Codec, start: History, rounds: seq<Round>, i: nat, b: nat, at: nat)
    requires Sound(c) && (forall r :: r in rounds ==> Complete(r)) && i < |rounds| && b < |rounds[i].response.calls|
    requires at == |Converse(c, false, start, rounds[..i])|
    ensures var g, y := Converse(c, false, start, rounds), rounds[i].response.calls[b];
      IsCall(g, at, b) && (g[at].calls[b] == y <==> !Superseded(c, rounds, i, y))
  {
    CallInHistory(c, start, rounds, i, b, at);
    var y := rounds[i].response.calls[b];
    if Superseded(c, rounds, i, y) {
      var k: nat :| i <= k < |rounds| && Displaced(c, rounds[k].response, y);
      assert !Includes(y.args, STALE_WRITE) && Includes(Rewritten(c, y).args, STALE_WRITE);
    }
  }
}
