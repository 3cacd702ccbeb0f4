/** Where the snapshots that a run shows come from: from the tools, text and call alike. */
module Observations {
  import opened Prelude
  import opened Conversation
  import opened TruncationGuard
  import opened Compaction
  import opened Rounds
  import opened AgentWorld
  import opened Settings
  import opened Services
  import opened LoopTrace
  import opened Hiding
  import Snapshots

  /** The entry a call leaves in the log of snapshots. */
  predicate LeftBy(c: Codec, x: Call, content: string, d: Snapshots.Done) {
    Supersedes(c, x) && d == Snapshots.Done(x.id, PathOf(c, x).value, content)
  }

  lemma {:induction false} TurnSource(c: Codec, calls: seq<Call>, ps: seq<nat>, contents: seq<string>, k: nat, log: seq<Snapshots.Done>, d: Snapshots.Done)
    returns (i: nat)
    requires k <= |ps| == |contents| && forall i :: 0 <= i < |ps| ==> ps[i] < |calls|
    requires d in Snapshots.LogTo(c, calls, ps, contents, k, log) && d !in log
    ensures i < k && LeftBy(c, calls[ps[i]], contents[i], d)
    decreases k
  {
    if LeftBy(c, calls[ps[k - 1]], contents[k - 1], d) {
      i := k - 1;
    } else {
      i := TurnSource(c, calls, ps, contents, k - 1, log, d);
    }
  }

  /** Call `k` of round `i` that was not withheld. */
  function SafeCall(r: Response, k: nat): Call
    requires k < |Safe(r)|
  {
    PositionsInRange(r);
    r.calls[Safe(r)[k]]
  }

  /** Every entry was left by a call of some round, with its text in that round. */
  lemma {:induction false} LogSource(c: Codec, rounds: seq<Round>, d: Snapshots.Done) returns (i: nat, k: nat)
    requires (forall r :: r in rounds ==> Complete(r)) && d in Snapshots.LogOf(c, rounds)
    ensures i < |rounds| && k < |rounds[i].contents| && k < |Safe(rounds[i].response)|
    ensures LeftBy(c, SafeCall(rounds[i].response, k), rounds[i].contents[k], d)
  {
    var most, last := rounds[..|rounds| - 1], rounds[|rounds| - 1];
    assert Complete(last);
    if d in Snapshots.LogOf(c, most) {
      i, k := LogSource(c, most, d);
      assert most[i] == rounds[i];
    } else {
      PositionsInRange(last.response);
      i := |rounds| - 1;
      k := TurnSource(c, last.response.calls, Safe(last.response), last.contents, |last.contents|, Snapshots.LogOf(c, most), d);
    }
  }

  // ---- The tools used ----

  lemma {:induction false} UsedInTurn(ss: seq<Served>, k: nat)
    requires k < |ss| && ss[k].ByTool?
    ensures ss[k].use in Sides(ss).uses
  {
    if k < |ss| - 1 { UsedInTurn(ss[..|ss| - 1], k); }
  }

  lemma {:induction false} UsedInRun(served: seq<seq<Served>>, i: nat, u: Use)
    requires i < |served| && u in Sides(served[i]).uses
    ensures u in AllSides(served).uses
  {
    if i < |served| - 1 { UsedInRun(served[..|served| - 1], i, u); }
  }

  /** A tool was given the call that left the entry, and gave back its text. */
  predicate Gives(e: Env, u: Use, d: Snapshots.Done) {
    && u.text == e.observe(u.now, u.call) == d.content && u.call.id == d.id
    && Compactable(u.call.name) && PathOf(e.codec, u.call) == Some(d.path)
  }

  /** The call as it was reached still has the id, tool and path the model gave it. */
  lemma {:induction false} ReachedCall(c: Codec, full: bool, h: History, r: Response, contents: seq<string>, k: nat)
    requires Sound(c) && k < |Safe(r)| && k <= |contents|
    ensures AreCalls(Opened(c, h, r), |h|, Safe(r))
    ensures var g := Reached(c, full, Opened(c, h, r), |h|, Safe(r), contents, k);
      IsCall(g, |h|, Safe(r)[k]) && KeepsCall(c, SafeCall(r, k), g[|h|].calls[Safe(r)[k]])
  {
    OpenedCalls(c, h, r);
    PositionsInRange(r);
    NextCall(c, full, Opened(c, h, r), |h|, Safe(r)[..k], contents[..k], k, Safe(r)[k]);
  }

  lemma {:induction false} ServedByTool(j: Job, h: History, r: Response, contents: seq<string>, k: nat, s: Served, d: Snapshots.Done)
    requires k < |Safe(r)| && k < |contents| && LeftBy(j.env.codec, SafeCall(r, k), contents[k], d)
    requires ServedAt(j, Opened(j.env.codec, h, r), |h|, Safe(r), contents, k, s, Some(contents[k]))
    ensures s.ByTool? && Gives(j.env, s.use, d)
  {
    ReachedCall(j.env.codec, j.opts.fullContextToken, h, r, contents, k);
  }

  /** Whatever a run shows of a file is what a tool gave back, word for word, for the call that was dispatched; and
      that use of the tool is on the instance's record. */
  lemma {:induction false} ShownIsObserved(j: Job, t: Trace, answer: Option<string>, n: nat, d: Snapshots.Done) returns (u: Use)
    requires Ended(j, t, answer) && n <= |t.rounds| && forall r :: r in t.rounds[..n] ==> Complete(r)
    requires d in Snapshots.LogOf(j.env.codec, t.rounds[..n])
    ensures u in t.sent.uses && Gives(j.env, u, d)
  {
    var i, k := LogSource(j.env.codec, t.rounds[..n], d);
    assert t.rounds[..n][i] == t.rounds[i];
    var s := TextIsServed(j, t, answer, i, k);
    ServedByTool(j, HistoryAfter(j, t.rounds[..i]), t.rounds[i].response, t.rounds[i].contents, k, s, d);
    u := s.use;
    UsedInTurn(t.served[i], k);
    UsedInRun(t.served, i, u);
    EndedMeans(j, t, answer);
    assert AllSides(t.served).uses == SideOnly(t.sent).uses;
  }

  /** Text `k` of round `i` is what came back for the `k`th call that was not withheld, read out of the history when
      its turn came: from a tool, or from delegating. */
  lemma {:induction false} TextIsServed(j: Job, t: Trace, answer: Option<string>, i: nat, k: nat) returns (s: Served)
    requires Ended(j, t, answer) && i < |t.rounds| && k < |t.rounds[i].contents|
    ensures Playable(j, t.rounds[..i]) && i < |t.served| && k < |t.served[i]| && s == t.served[i][k]
    ensures var h, r := HistoryAfter(j, t.rounds[..i]), t.rounds[i];
      ServedAt(j, Opened(j.env.codec, h, r.response), |h|, Safe(r.response), r.contents, k, s, Some(r.contents[k]))
  {
    assert Shown(0);
    assert ServedRound(j, t.rounds, t.served[i], i);
    s := t.served[i][k];
  }
}
