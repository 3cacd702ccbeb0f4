/** Lean-token mode over a whole run: which snapshot of a file the model still sees. */
module Snapshots {
  import opened Prelude
  import opened Conversation
  import opened TruncationGuard
  import opened Compaction
  import opened Rounds

  /** The observation for an id is the first tool message that carries it. */
  ghost predicate ObservedAt(h: History, t: nat, id: string) { FirstFor(h, t) && h[t].callId == id }

  ghost predicate Collapsed(h: History, id: string) {
    exists t: nat :: ObservedAt(h, t, id) && Includes(h[t].content, STALE_READ)
  }

  ghost predicate Shows(h: History, id: string, content: string) {
    exists t: nat :: ObservedAt(h, t, id) && h[t].content == content
  }

  /** A call that was dispatched for a file, and its observation. */
  datatype Done = Done(id: string, path: string, content: string)

  ghost predicate CallFor(c: Codec, h: History, a: nat, b: nat, id: string) {
    IsCall(h, a, b) && h[a].calls[b].id == id
  }

  /** No two calls of the history share an id. */
  ghost predicate UniqueCalls(h: History) {
    forall a: nat, b: nat, a': nat, b': nat :: IsCall(h, a, b) && IsCall(h, a', b') && h[a].calls[b].id == h[a'].calls[b'].id ==> a == a' && b == b'
  }

  ghost predicate Recorded(c: Codec, h: History, d: Done) {
    exists a: nat, b: nat :: CallFor(c, h, a, b, d.id) && Compactable(h[a].calls[b].name) && PathOf(c, h[a].calls[b]) == Some(d.path)
  }

  ghost predicate Last(log: seq<Done>, i: nat) {
    i < |log| && forall j: nat :: i < j < |log| ==> log[j].path != log[i].path
  }

  /** The last call dispatched for a file shows its observation, an earlier one is collapsed. */
  ghost predicate EntryCurrent(c: Codec, h: History, log: seq<Done>, i: nat)
    requires i < |log|
  {
    Recorded(c, h, log[i]) && if Last(log, i) then Shows(h, log[i].id, log[i].content) else Collapsed(h, log[i].id)
  }

  ghost predicate DistinctDone(log: seq<Done>) {
    forall i: nat, j: nat :: i < j < |log| ==> log[i].id != log[j].id
  }

  ghost predicate Current(c: Codec, h: History, log: seq<Done>) {
    DistinctDone(log) && forall i: nat :: i < |log| ==> EntryCurrent(c, h, log, i)
  }

  ghost predicate Unanswered(h: History, id: string) {
    forall t :: 0 <= t < |h| && h[t].Tool? ==> h[t].callId != id
  }

  lemma {:induction false} ObservedStays(h: History, m: Message, t: nat, id: string)
    requires ObservedAt(h, t, id)
    ensures ObservedAt(h + [m], t, id) && (h + [m])[t] == h[t]
  {}

  lemma {:induction false} PushKeepsRecorded(c: Codec, h: History, m: Message, d: Done)
    requires Recorded(c, h, d)
    ensures Recorded(c, h + [m], d)
  {
    var a: nat, b: nat :| CallFor(c, h, a, b, d.id) && Compactable(h[a].calls[b].name) && PathOf(c, h[a].calls[b]) == Some(d.path);
    assert (h + [m])[a] == h[a];
    assert CallFor(c, h + [m], a, b, d.id);
  }

  lemma {:induction false} PushKeepsShows(h: History, m: Message, id: string, content: string)
    ensures Collapsed(h, id) ==> Collapsed(h + [m], id)
    ensures Shows(h, id, content) ==> Shows(h + [m], id, content)
  {
    if Collapsed(h, id) {
      var t: nat :| ObservedAt(h, t, id) && Includes(h[t].content, STALE_READ);
      ObservedStays(h, m, t, id);
    }
    if Shows(h, id, content) {
      var t: nat :| ObservedAt(h, t, id) && h[t].content == content;
      ObservedStays(h, m, t, id);
    }
  }

  lemma {:induction false} PushKeepsCurrent(c: Codec, h: History, m: Message, log: seq<Done>)
    requires Current(c, h, log)
    ensures Current(c, h + [m], log)
  {
    forall i: nat | i < |log| ensures EntryCurrent(c, h + [m], log, i) {
      assert EntryCurrent(c, h, log, i);
      PushKeepsRecorded(c, h, m, log[i]);
      PushKeepsShows(h, m, log[i].id, log[i].content);
    }
  }

  lemma {:induction false} PassKeepsObserved(c: Codec, h: History, path: string, cur: string, t: nat, id: string)
    requires Sound(c) && ObservedAt(h, t, id)
    ensures ObservedAt(Compact(c, h, path, cur), t, id)
  {
    CompactionKeeps(c, h, path, cur, Compact(c, h, path, cur));
  }

  lemma {:induction false} PassKeepsCollapsed(c: Codec, h: History, path: string, cur: string, id: string)
    requires Sound(c) && Collapsed(h, id)
    ensures Collapsed(Compact(c, h, path, cur), id)
  {
    var t: nat :| ObservedAt(h, t, id) && Includes(h[t].content, STALE_READ);
    PassKeepsObserved(c, h, path, cur, t, id);
  }

  lemma {:induction false} PassKeepsRecorded(c: Codec, h: History, path: string, cur: string, d: Done)
    requires Sound(c) && Recorded(c, h, d)
    ensures Recorded(c, Compact(c, h, path, cur), d)
  {
    var g := Compact(c, h, path, cur);
    CompactionKeeps(c, h, path, cur, g);
    var a: nat, b: nat :| CallFor(c, h, a, b, d.id) && Compactable(h[a].calls[b].name) && PathOf(c, h[a].calls[b]) == Some(d.path);
    assert KeepsCall(c, h[a].calls[b], g[a].calls[b]);
    assert CallFor(c, g, a, b, d.id);
  }

  /** The pass collapses the observation of another call of the same file. */
  lemma {:induction false} PassCollapses(c: Codec, h: History, path: string, cur: string, d: Done)
    requires Sound(c) && Recorded(c, h, d) && d.path == path && d.id != cur
    requires exists t: nat :: ObservedAt(h, t, d.id)
    ensures Collapsed(Compact(c, h, path, cur), d.id)
  {
    var g := Compact(c, h, path, cur);
    var a: nat, b: nat :| CallFor(c, h, a, b, d.id) && Compactable(h[a].calls[b].name) && PathOf(c, h[a].calls[b]) == Some(d.path);
    var t: nat :| ObservedAt(h, t, d.id);
    assert IsStale(c, h, path, cur, a, b);
    EarlierCollapsed(c, h, path, cur, g, a, b, t);
    PassKeepsObserved(c, h, path, cur, t, d.id);
  }

  /** The pass leaves the observation of a call of another file, or of the current call. */
  lemma {:induction false} PassLeaves(c: Codec, h: History, path: string, cur: string, id: string, content: string)
    requires Sound(c) && UniqueCalls(h) && Shows(h, id, content)
    requires id == cur || exists a: nat, b: nat :: CallFor(c, h, a, b, id) && PathOf(c, h[a].calls[b]) != Some(path)
    ensures Shows(Compact(c, h, path, cur), id, content)
  {
    var g := Compact(c, h, path, cur);
    var t: nat :| ObservedAt(h, t, id) && h[t].content == content;
    PassKeepsObserved(c, h, path, cur, t, id);
    if id == cur {
      CurrentUntouched(c, h, path, cur, g);
    } else {
      var a: nat, b: nat :| CallFor(c, h, a, b, id) && PathOf(c, h[a].calls[b]) != Some(path);
      forall x: nat, y: nat | IsStale(c, h, path, cur, x, y) ensures h[x].calls[y].id != h[t].callId {
        assert IsCall(h, x, y);
      }
      OthersUntouched(c, h, path, cur, g, t);
    }
  }

  // ---- One dispatched call ----

  /** The log after a call: calls that supersede nothing leave it as it is. */
  function Noted(c: Codec, log: seq<Done>, x: Call, content: string): seq<Done> {
    if Supersedes(c, x) then log + [Done(x.id, PathOf(c, x).value, content)] else log
  }

  ghost predicate NewTo(log: seq<Done>, id: string) {
    forall i: nat :: i < |log| ==> log[i].id != id
  }

  lemma {:induction false} PushKeepsUnique(h: History, m: Message)
    requires UniqueCalls(h) && !m.Assistant?
    ensures UniqueCalls(h + [m])
  {
    assert forall a: nat, b: nat :: IsCall(h + [m], a, b) ==> IsCall(h, a, b) && (h + [m])[a] == h[a];
  }

  lemma {:induction false} PassKeepsUnique(c: Codec, h: History, path: string, cur: string)
    requires Sound(c) && UniqueCalls(h)
    ensures UniqueCalls(Compact(c, h, path, cur))
  {
    var g := Compact(c, h, path, cur);
    CompactionKeeps(c, h, path, cur, g);
    forall a: nat, b: nat | IsCall(g, a, b) ensures IsCall(h, a, b) && g[a].calls[b].id == h[a].calls[b].id {
      assert Keeps(c, h[a], g[a]);
      assert KeepsCall(c, h[a].calls[b], g[a].calls[b]);
    }
  }

  lemma {:induction false} ObservationArrives(h: History, id: string, name: string, content: string)
    requires Unanswered(h, id)
    ensures Shows(h + [Tool(id, name, content)], id, content)
  {
    assert ObservedAt(h + [Tool(id, name, content)], |h|, id);
  }

  /** After the pass for `d`, with `h` already holding its observation. */
  lemma {:induction false} PassKeepsCurrent(c: Codec, h: History, log: seq<Done>, d: Done)
    requires Sound(c) && UniqueCalls(h) && Current(c, h, log) && NewTo(log, d.id)
    requires Recorded(c, h, d) && Shows(h, d.id, d.content)
    ensures Current(c, Compact(c, h, d.path, d.id), log + [d])
  {
    var g := Compact(c, h, d.path, d.id);
    var log' := log + [d];
    forall i: nat | i < |log'| ensures EntryCurrent(c, g, log', i) {
      assert i < |log| ==> EntryCurrent(c, h, log, i);
      PassKeepsRecorded(c, h, d.path, d.id, log'[i]);
      if Last(log', i) {
        LastShows(c, h, log, d, i);
      } else {
        NotLastCollapsed(c, h, log, d, i);
      }
    }
  }

  lemma {:induction false} LastShows(c: Codec, h: History, log: seq<Done>, d: Done, i: nat)
    requires Sound(c) && UniqueCalls(h) && Current(c, h, log)
    requires Recorded(c, h, d) && Shows(h, d.id, d.content) && Last(log + [d], i)
    ensures Shows(Compact(c, h, d.path, d.id), (log + [d])[i].id, (log + [d])[i].content)
  {
    if i == |log| {
      PassLeaves(c, h, d.path, d.id, d.id, d.content);
    } else {
      var e := log[i];
      assert EntryCurrent(c, h, log, i);
      assert (log + [d])[|log|].path != e.path;
      assert Last(log, i) by {
        forall j: nat | i < j < |log| ensures log[j].path != e.path { assert (log + [d])[j] == log[j]; }
      }
      var a: nat, b: nat :| CallFor(c, h, a, b, e.id) && Compactable(h[a].calls[b].name) && PathOf(c, h[a].calls[b]) == Some(e.path);
      PassLeaves(c, h, d.path, d.id, e.id, e.content);
    }
  }

  lemma {:induction false} NotLastCollapsed(c: Codec, h: History, log: seq<Done>, d: Done, i: nat)
    requires Sound(c) && Current(c, h, log) && NewTo(log, d.id)
    requires i < |log| && !Last(log + [d], i)
    ensures Collapsed(Compact(c, h, d.path, d.id), log[i].id)
  {
    assert EntryCurrent(c, h, log, i);
    if !Last(log, i) {
      PassKeepsCollapsed(c, h, d.path, d.id, log[i].id);
    } else {
      assert log[i].path == d.path by {
        var j: nat :| i < j < |log + [d]| && (log + [d])[j].path == (log + [d])[i].path;
      }
      var t: nat :| ObservedAt(h, t, log[i].id) && h[t].content == log[i].content;
      PassCollapses(c, h, d.path, d.id, log[i]);
    }
  }

  lemma {:induction false} StepKeepsUnique(c: Codec, h: History, at: nat, pos: nat, content: string)
    requires Sound(c) && IsCall(h, at, pos) && UniqueCalls(h)
    ensures UniqueCalls(Step(c, false, h, at, pos, content))
  {
    var x := h[at].calls[pos];
    var m := Tool(x.id, x.name, content);
    PushKeepsUnique(h, m);
    if Supersedes(c, x) { PassKeepsUnique(c, h + [m], PathOf(c, x).value, x.id); }
  }

  lemma {:induction false} StepKeepsCurrent(c: Codec, h: History, at: nat, pos: nat, content: string, log: seq<Done>)
    requires Sound(c) && IsCall(h, at, pos) && UniqueCalls(h) && Current(c, h, log)
    requires var id := h[at].calls[pos].id; Unanswered(h, id) && NewTo(log, id)
    ensures Current(c, Step(c, false, h, at, pos, content), Noted(c, log, h[at].calls[pos], content))
  {
    var x := h[at].calls[pos];
    var m := Tool(x.id, x.name, content);
    PushKeepsCurrent(c, h, m, log);
    PushKeepsUnique(h, m);
    if Supersedes(c, x) {
      var d := Done(x.id, PathOf(c, x).value, content);
      assert CallFor(c, h, at, pos, x.id);
      PushKeepsRecorded(c, h, m, d);
      ObservationArrives(h, x.id, x.name, content);
      PassKeepsCurrent(c, h + [m], log, d);
    }
  }

  // ---- The calls of one response ----

  function LogTo(c: Codec, calls: seq<Call>, ps: seq<nat>, contents: seq<string>, k: nat, log: seq<Done>): seq<Done>
    requires k <= |ps| == |contents| && forall i :: 0 <= i < |ps| ==> ps[i] < |calls|
  {
    if k == 0 then log else Noted(c, LogTo(c, calls, ps, contents, k - 1, log), calls[ps[k - 1]], contents[k - 1])
  }

  /** The calls are still to come, and no two share an id. */
  ghost predicate Pending(h: History, calls: seq<Call>, ps: seq<nat>, log: seq<Done>)
    requires forall i :: 0 <= i < |ps| ==> ps[i] < |calls|
  {
    && (forall i :: 0 <= i < |ps| ==> Unanswered(h, calls[ps[i]].id) && NewTo(log, calls[ps[i]].id))
    && (forall i, j :: 0 <= i < j < |ps| ==> calls[ps[i]].id != calls[ps[j]].id)
  }

  lemma {:induction false} StepUnanswered(c: Codec, h: History, at: nat, pos: nat, content: string, id: string)
    requires Sound(c) && IsCall(h, at, pos) && Unanswered(h, id) && h[at].calls[pos].id != id
    ensures Unanswered(Step(c, false, h, at, pos, content), id)
  {
    StepKeeps(c, false, h, at, pos, content);
    var g := Step(c, false, h, at, pos, content);
    forall t | 0 <= t < |g| && g[t].Tool? ensures g[t].callId != id {
      if t < |h| { assert Keeps(c, h[t], g[t]); }
    }
  }

  lemma {:induction false} TurnKeepsUnique(c: Codec, h: History, at: nat, ps: seq<nat>, contents: seq<string>, k: nat)
    requires Sound(c) && AreCalls(h, at, ps) && k <= |ps| == |contents| && UniqueCalls(h)
    ensures UniqueCalls(TurnTo(c, false, h, at, ps, contents, k))
    decreases k
  {
    if k > 0 {
      TurnKeepsUnique(c, h, at, ps, contents, k - 1);
      StepKeepsUnique(c, TurnTo(c, false, h, at, ps, contents, k - 1), at, ps[k - 1], contents[k - 1]);
    }
  }

  lemma {:induction false} TurnUnanswered(c: Codec, h: History, at: nat, ps: seq<nat>, contents: seq<string>, k: nat, id: string)
    requires Sound(c) && AreCalls(h, at, ps) && k <= |ps| == |contents|
    requires Unanswered(h, id) && forall i :: 0 <= i < k ==> h[at].calls[ps[i]].id != id
    ensures Unanswered(TurnTo(c, false, h, at, ps, contents, k), id)
    decreases k
  {
    if k > 0 {
      TurnUnanswered(c, h, at, ps, contents, k - 1, id);
      NextCall(c, false, h, at, ps, contents, k - 1, ps[k - 1]);
      StepUnanswered(c, TurnTo(c, false, h, at, ps, contents, k - 1), at, ps[k - 1], contents[k - 1], id);
    }
  }

  lemma {:induction false} LogStaysNew(c: Codec, calls: seq<Call>, ps: seq<nat>, contents: seq<string>, k: nat, log: seq<Done>, id: string)
    requires k <= |ps| == |contents| && forall i :: 0 <= i < |ps| ==> ps[i] < |calls|
    requires NewTo(log, id) && forall i :: 0 <= i < k ==> calls[ps[i]].id != id
    ensures NewTo(LogTo(c, calls, ps, contents, k, log), id)
    decreases k
  {
    if k > 0 { LogStaysNew(c, calls, ps, contents, k - 1, log, id); }
  }

  /** Call `i` of the turn can be dispatched: its id has not come up yet. */
  ghost predicate Ready(c: Codec, h: History, at: nat, ps: seq<nat>, contents: seq<string>, log: seq<Done>, i: nat)
    requires Sound(c) && AreCalls(h, at, ps) && i < |ps| == |contents|
  {
    var p, id := TurnTo(c, false, h, at, ps, contents, i), h[at].calls[ps[i]].id;
    UniqueCalls(p) && Unanswered(p, id) && NewTo(LogTo(c, h[at].calls, ps, contents, i, log), id)
  }

  lemma {:induction false} TurnReady(c: Codec, h: History, at: nat, ps: seq<nat>, contents: seq<string>, log: seq<Done>, i: nat)
    requires Sound(c) && AreCalls(h, at, ps) && i < |ps| == |contents|
    requires UniqueCalls(h) && Pending(h, h[at].calls, ps, log)
    ensures Ready(c, h, at, ps, contents, log, i)
  {
    TurnKeepsUnique(c, h, at, ps, contents, i);
    var id := h[at].calls[ps[i]].id;
    TurnUnanswered(c, h, at, ps, contents, i, id);
    LogStaysNew(c, h[at].calls, ps, contents, i, log, id);
  }

  lemma {:induction false} TurnKeepsCurrent(c: Codec, h: History, at: nat, ps: seq<nat>, contents: seq<string>, k: nat, log: seq<Done>)
    requires Sound(c) && AreCalls(h, at, ps) && k <= |ps| == |contents| && Current(c, h, log)
    requires forall i :: 0 <= i < |ps| ==> Ready(c, h, at, ps, contents, log, i)
    ensures Current(c, TurnTo(c, false, h, at, ps, contents, k), LogTo(c, h[at].calls, ps, contents, k, log))
    decreases k
  {
    if k > 0 {
      TurnKeepsCurrent(c, h, at, ps, contents, k - 1, log);
      NextCall(c, false, h, at, ps, contents, k - 1, ps[k - 1]);
      assert Ready(c, h, at, ps, contents, log, k - 1);
      StepGives(c, TurnTo(c, false, h, at, ps, contents, k - 1), at, ps[k - 1], contents[k - 1],
        LogTo(c, h[at].calls, ps, contents, k - 1, log), h[at].calls[ps[k - 1]],
        TurnTo(c, false, h, at, ps, contents, k), LogTo(c, h[at].calls, ps, contents, k, log));
    }
  }

  lemma {:induction false} StepGives(c: Codec, p: History, at: nat, pos: nat, content: string, log: seq<Done>, x: Call, g: History, more: seq<Done>)
    requires Sound(c) && IsCall(p, at, pos) && UniqueCalls(p) && Current(c, p, log)
    requires KeepsCall(c, x, p[at].calls[pos]) && Unanswered(p, x.id) && NewTo(log, x.id)
    requires g == Step(c, false, p, at, pos, content) && more == Noted(c, log, x, content)
    ensures Current(c, g, more)
  {
    StepKeepsCurrent(c, p, at, pos, content, log);
  }

  // ---- Whole rounds ----

  /** No call and no tool message of the history carries this id. */
  ghost predicate NewId(h: History, id: string) {
    Unanswered(h, id) && forall a: nat, b: nat :: IsCall(h, a, b) ==> h[a].calls[b].id != id
  }

  ghost predicate NewIds(h: History, calls: seq<Call>) {
    && (forall b :: 0 <= b < |calls| ==> NewId(h, calls[b].id))
    && (forall b, b' :: 0 <= b < b' < |calls| ==> calls[b].id != calls[b'].id)
  }

  lemma {:induction false} NewIsNewTo(c: Codec, h: History, log: seq<Done>, id: string)
    requires Current(c, h, log) && NewId(h, id)
    ensures NewTo(log, id)
  {
    forall i: nat | i < |log| ensures log[i].id != id {
      assert EntryCurrent(c, h, log, i);
      var a: nat, b: nat :| CallFor(c, h, a, b, log[i].id) && Compactable(h[a].calls[b].name) && PathOf(c, h[a].calls[b]) == Some(log[i].path);
    }
  }

  lemma {:induction false} AssistantKeepsUnique(h: History, m: Message)
    requires UniqueCalls(h) && m.Assistant? && NewIds(h, m.calls)
    ensures UniqueCalls(h + [m])
  {
    var g := h + [m];
    forall a: nat, b: nat, a': nat, b': nat | IsCall(g, a, b) && IsCall(g, a', b') && g[a].calls[b].id == g[a'].calls[b'].id
      ensures a == a' && b == b'
    {
      assert a < |h| ==> IsCall(h, a, b);
      assert a' < |h| ==> IsCall(h, a', b');
    }
  }

  lemma {:induction false} WarningsKeepCurrent(c: Codec, h: History, calls: seq<Call>, ps: seq<nat>, k: nat, log: seq<Done>)
    requires k <= |ps| && forall i :: 0 <= i < |ps| ==> ps[i] < |calls|
    requires UniqueCalls(h) && Current(c, h, log)
    ensures UniqueCalls(h + Warnings(c, calls, ps, k)) && Current(c, h + Warnings(c, calls, ps, k), log)
    decreases k
  {
    if k == 0 {
      assert h + [] == h;
    } else {
      WarningsKeepCurrent(c, h, calls, ps, k - 1, log);
      var x := calls[ps[k - 1]];
      var m := Tool(x.id, x.name, c.warning(x));
      var p := h + Warnings(c, calls, ps, k - 1);
      assert h + Warnings(c, calls, ps, k) == p + [m];
      PushKeepsCurrent(c, p, m, log);
      PushKeepsUnique(p, m);
    }
  }

  lemma {:induction false} NotesKeepCurrent(c: Codec, h: History, notes: seq<string>, log: seq<Done>)
    requires UniqueCalls(h) && Current(c, h, log)
    ensures UniqueCalls(h + Notes(notes)) && Current(c, h + Notes(notes), log)
    decreases notes
  {
    if notes == [] {
      assert h + [] == h;
    } else {
      var m := User(notes[0]);
      PushKeepsCurrent(c, h, m, log);
      PushKeepsUnique(h, m);
      NotesKeepCurrent(c, h + [m], notes[1..], log);
      assert h + Notes(notes) == h + [m] + Notes(notes[1..]);
    }
  }

  /** Withheld and dispatched calls are different calls. */
  lemma {:induction false} SafeNotBlocked(r: Response)
    ensures forall i, j :: 0 <= i < |Safe(r)| && 0 <= j < |Blocked(r)| ==> Safe(r)[i] != Blocked(r)[j]
    ensures forall i, j :: 0 <= i < j < |Safe(r)| ==> Safe(r)[i] < Safe(r)[j]
  {
    GuardPartitions(r, false, |r.calls|);
    GuardPartitions(r, true, |r.calls|);
    assert forall i :: 0 <= i < |Safe(r)| ==> Safe(r)[i] in Safe(r);
    assert forall i :: 0 <= i < |Blocked(r)| ==> Blocked(r)[i] in Blocked(r);
  }

  lemma {:induction false} OpenedPending(c: Codec, h: History, r: Response, log: seq<Done>)
    requires Current(c, h, log) && NewIds(h, r.calls)
    ensures AreCalls(Opened(c, h, r), |h|, Safe(r)) && Opened(c, h, r)[|h|].calls == r.calls
    ensures Pending(Opened(c, h, r), r.calls, Safe(r), log)
  {
    OpenedCalls(c, h, r);
    PositionsInRange(r);
    SafeNotBlocked(r);
    var o := Opened(c, h, r);
    WarningsSize(c, r.calls, Blocked(r), |Blocked(r)|);
    forall i | 0 <= i < |Safe(r)| ensures Unanswered(o, r.calls[Safe(r)[i]].id) && NewTo(log, r.calls[Safe(r)[i]].id) {
      var id := r.calls[Safe(r)[i]].id;
      assert NewId(h, id);
      NewIsNewTo(c, h, log, id);
      forall t | 0 <= t < |o| && o[t].Tool? ensures o[t].callId != id {
        if t > |h| {
          var j := t - |h| - 1;
          assert o[t] == Warnings(c, r.calls, Blocked(r), |Blocked(r)|)[j];
          DistinctIds(r.calls, Safe(r)[i], Blocked(r)[j]);
        }
      }
    }
    forall i, j | 0 <= i < j < |Safe(r)| ensures r.calls[Safe(r)[i]].id != r.calls[Safe(r)[j]].id {
      DistinctIds(r.calls, Safe(r)[i], Safe(r)[j]);
    }
  }

  lemma {:induction false} DistinctIds(calls: seq<Call>, a: nat, b: nat)
    requires a < |calls| && b < |calls| && a != b
    requires forall b, b' :: 0 <= b < b' < |calls| ==> calls[b].id != calls[b'].id
    ensures calls[a].id != calls[b].id
  {}

  function LogOfRound(c: Codec, r: Round, log: seq<Done>): seq<Done>
    requires |r.contents| == |Safe(r.response)|
  {
    PositionsInRange(r.response);
    LogTo(c, r.response.calls, Safe(r.response), r.contents, |r.contents|, log)
  }

  lemma {:induction false} PlayKeepsCurrent(c: Codec, h: History, r: Round, log: seq<Done>)
    requires Sound(c) && Complete(r) && UniqueCalls(h) && Current(c, h, log) && NewIds(h, r.response.calls)
    ensures UniqueCalls(Play(c, false, h, r)) && Current(c, Play(c, false, h, r), LogOfRound(c, r, log))
  {
    var q := r.response;
    var m := Assistant(q.content, q.calls, q.reasoning);
    PositionsInRange(q);
    PushKeepsCurrent(c, h, m, log);
    AssistantKeepsUnique(h, m);
    WarningsKeepCurrent(c, h + [m], q.calls, Blocked(q), |Blocked(q)|, log);
    OpenedPending(c, h, q, log);
    var o := Opened(c, h, q);
    TurnKeepsUnique(c, o, |h|, Safe(q), r.contents, |r.contents|);
    forall i | 0 <= i < |Safe(q)| ensures Ready(c, o, |h|, Safe(q), r.contents, log, i) {
      TurnReady(c, o, |h|, Safe(q), r.contents, log, i);
    }
    TurnKeepsCurrent(c, o, |h|, Safe(q), r.contents, |r.contents|, log);
    NotesKeepCurrent(c, TurnTo(c, false, o, |h|, Safe(q), r.contents, |r.contents|), r.notes, LogOfRound(c, r, log));
  }

  /** Ids are never used twice in a run. */
  ghost predicate NewIdsThroughout(c: Codec, start: History, rounds: seq<Round>)
    requires Sound(c) && forall r :: r in rounds ==> Complete(r)
  {
    rounds != [] ==>
      var most := rounds[..|rounds| - 1];
      NewIdsThroughout(c, start, most) && NewIds(Converse(c, false, start, most), rounds[|rounds| - 1].response.calls)
  }

  ghost function LogOf(c: Codec, rounds: seq<Round>): seq<Done>
    requires forall r :: r in rounds ==> Complete(r)
  {
    if rounds == [] then [] else
    assert Complete(rounds[|rounds| - 1]);
    LogOfRound(c, rounds[|rounds| - 1], LogOf(c, rounds[..|rounds| - 1]))
  }

  /** At every request of a run, each file has at most one snapshot that is not collapsed, and it is the
      observation of the last call dispatched for it, word for word. */
  lemma {:induction false} OneCurrentSnapshot(c: Codec, start: History, rounds: seq<Round>)
    requires Sound(c) && (forall r :: r in rounds ==> Complete(r)) && NewIdsThroughout(c, start, rounds)
    requires forall t :: 0 <= t < |start| ==> !start[t].Assistant?
    ensures UniqueCalls(Converse(c, false, start, rounds))
    ensures Current(c, Converse(c, false, start, rounds), LogOf(c, rounds))
  {
    if rounds != [] {
      var most, r := rounds[..|rounds| - 1], rounds[|rounds| - 1];
      OneCurrentSnapshot(c, start, most);
      PlayKeepsCurrent(c, Converse(c, false, start, most), r, LogOf(c, most));
    }
  }
}
