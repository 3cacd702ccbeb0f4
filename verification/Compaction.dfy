/** Lean-token mode: superseded file snapshots in the history are replaced by short notes, in place. */
module Compaction {
  import opened Prelude
  import opened Conversation

  /** What `JSON.parse` finds in the arguments of a call, as far as compaction looks. */
  datatype Fields = Fields(filePath: Option<string>, mode: Option<string>)

  /** The host's JSON: parsing, the two texts compaction writes, and the guard's warning. */
  datatype Codec = Codec(
    parse: string -> Option<Fields>,
    staleArgs: (string, Option<string>) -> string,
    staleNote: string -> string,
    warning: Call -> string)

  const STALE_READ := "[stale file snapshot omitted \U{2014} lean token mode]"
  const STALE_WRITE := "[stale write payload omitted \U{2014} lean token mode]"

  predicate At(text: string, marker: string, i: nat) {
    i + |marker| <= |text| && text[i..i + |marker|] == marker
  }

  predicate Includes(text: string, marker: string) {
    exists i :: 0 <= i <= |text| && At(text, marker, i)
  }

  /** The written texts carry their markers, and path and mode can be parsed back. */
  ghost predicate Sound(c: Codec) {
    && (forall p, m :: c.parse(c.staleArgs(p, m)) == Some(Fields(Some(p), m)))
    && (forall p, m :: Includes(c.staleArgs(p, m), STALE_WRITE))
    && (forall p :: Includes(c.staleNote(p), STALE_READ))
  }

  predicate Compactable(name: string) { name == "read_tool" || name == "write_edit_tool" }

  function PathOf(c: Codec, x: Call): Option<string> {
    match c.parse(x.args) case None => None case Some(f) => f.filePath
  }

  function ModeOf(c: Codec, x: Call): Option<string> {
    match c.parse(x.args) case None => None case Some(f) => f.mode
  }

  /** A read or write of `path` other than the current call. Calls not yet dispatched are not excepted. */
  predicate Stale(c: Codec, x: Call, path: string, current: string) {
    Compactable(x.name) && x.id != current && PathOf(c, x) == Some(path)
  }

  // ---- What a whole pass does ----

  function CompactCall(c: Codec, x: Call, path: string, current: string): Call {
    if Stale(c, x, path, current) && x.name == "write_edit_tool" && !Includes(x.args, STALE_WRITE)
    then x.(args := c.staleArgs(path, ModeOf(c, x))) else x
  }

  /** The first `n` calls of a message rewritten. */
  function CompactCalls(c: Codec, xs: seq<Call>, path: string, current: string, n: nat): (r: seq<Call>)
    requires n <= |xs|
    ensures |r| == |xs|
    ensures forall i :: 0 <= i < n ==> r[i] == CompactCall(c, xs[i], path, current)
    ensures forall i :: n <= i < |xs| ==> r[i] == xs[i]
    decreases n
  {
    if n == 0 then xs else CompactCalls(c, xs, path, current, n - 1)[n - 1 := CompactCall(c, xs[n - 1], path, current)]
  }

  /** The ids of the stale calls in the first `i` messages and the first `j` calls of message `i`. */
  ghost predicate StaleId(c: Codec, h: History, path: string, current: string, i: nat, j: nat, id: string) {
    exists a, b :: 0 <= a < |h| && h[a].Assistant? && 0 <= b < |h[a].calls|
      && (a < i || (a == i && b < j)) && IsStale(c, h, path, current, a, b) && h[a].calls[b].id == id
  }

  predicate IsStale(c: Codec, h: History, path: string, current: string, a: nat, b: nat) {
    a < |h| && h[a].Assistant? && b < |h[a].calls| && Stale(c, h[a].calls[b], path, current)
  }

  /** `messages.find`: the first tool message for an id. */
  predicate FirstFor(h: History, t: nat) {
    t < |h| && h[t].Tool? && forall q :: 0 <= q < t && h[q].Tool? ==> h[q].callId != h[t].callId
  }

  /** Message `t` once the first `i` messages and `j` calls of message `i` have been visited. */
  ghost function Visited(c: Codec, h: History, path: string, current: string, i: nat, j: nat, t: nat): Message
    requires t < |h|
  {
    match h[t]
    case Assistant(content, calls, reasoning) =>
      Assistant(content, CompactCalls(c, calls, path, current, if t < i then |calls| else if t == i then Min(j, |calls|) else 0), reasoning)
    case Tool(id, name, content) =>
      if FirstFor(h, t) && StaleId(c, h, path, current, i, j, id) && !Includes(content, STALE_READ)
      then Tool(id, name, c.staleNote(path)) else h[t]
    case _ => h[t]
  }

  /** Message `t` after the whole pass. */
  ghost function Compacted(c: Codec, h: History, path: string, current: string, t: nat): Message
    requires t < |h|
  {
    Visited(c, h, path, current, |h|, 0, t)
  }

  ghost predicate IsCompacted(c: Codec, h: History, path: string, current: string, g: History) {
    |g| == |h| && forall t :: 0 <= t < |h| ==> g[t] == Compacted(c, h, path, current, t)
  }

  /** The history of one run, shared by the loop and the compactor. */
  class Log {
    var messages: History

    constructor (messages: History)
      ensures this.messages == messages
    {
      this.messages := messages;
    }

    method Push(m: Message)
      modifies this
      ensures messages == old(messages) + [m]
    {
      messages := messages + [m];
    }

    method FindTool(id: string) returns (t: nat)
      ensures t <= |messages|
      ensures t < |messages| ==> messages[t].Tool? && messages[t].callId == id && FirstFor(messages, t)
      ensures t == |messages| ==> forall q :: 0 <= q < |messages| && messages[q].Tool? ==> messages[q].callId != id
    {
      t := 0;
      while t < |messages| && !(messages[t].Tool? && messages[t].callId == id)
        invariant t <= |messages|
        invariant forall q :: 0 <= q < t && messages[q].Tool? ==> messages[q].callId != id
      {
        t := t + 1;
      }
    }

    method CompactStaleFileReads(c: Codec, path: string, current: string)
      requires Sound(c)
      modifies this
      ensures IsCompacted(c, old(messages), path, current, messages)
    {
      ghost var h := messages;
      StartsUntouched(c, h, path, current);
      for i := 0 to |messages|
        invariant |messages| == |h|
        invariant forall t :: 0 <= t < |h| ==> messages[t] == Visited(c, h, path, current, i, 0, t)
      {
        if messages[i].Assistant? {
          for j := 0 to |messages[i].calls|
            invariant |messages| == |h| && h[i].Assistant? && messages[i].Assistant? && |messages[i].calls| == |h[i].calls|
            invariant forall t :: 0 <= t < |h| ==> messages[t] == Visited(c, h, path, current, i, j, t)
          {
            VisitCall(c, path, current, i, j, h);
          }
          MessageDone(c, h, path, current, i);
        } else {
          MessageSkipped(c, h, path, current, i);
        }
      }
    }

    /** The body of the inner loop. */
    method VisitCall(c: Codec, path: string, current: string, i: nat, j: nat, ghost h: History)
      requires Sound(c) && |messages| == |h| && i < |h| && h[i].Assistant? && j < |h[i].calls|
      requires forall t :: 0 <= t < |h| ==> messages[t] == Visited(c, h, path, current, i, j, t)
      modifies this
      ensures |messages| == |h|
      ensures forall t :: 0 <= t < |h| ==> messages[t] == Visited(c, h, path, current, i, j + 1, t)
    {
      var call := messages[i].calls[j];
      if !Stale(c, call, path, current) {
        CallSkipped(c, h, path, current, i, j);
        return;
      }
      var t := FindTool(call.id);
      SameFirst(c, h, messages, path, current, i, j);
      ghost var before := messages;
      if t < |messages| && !Includes(messages[t].content, STALE_READ) {
        messages := messages[t := Tool(messages[t].callId, messages[t].name, c.staleNote(path))];
      }
      if call.name == "write_edit_tool" && !Includes(call.args, STALE_WRITE) {
        var calls := messages[i].calls[j := call.(args := c.staleArgs(path, ModeOf(c, call)))];
        messages := messages[i := messages[i].(calls := calls)];
      }
      CallVisited(c, h, path, current, i, j, before, messages, t);
    }
  }

  lemma {:induction false} StartsUntouched(c: Codec, h: History, path: string, current: string)
    ensures forall t :: 0 <= t < |h| ==> Visited(c, h, path, current, 0, 0, t) == h[t]
  {}

  lemma {:induction false} CallSkipped(c: Codec, h: History, path: string, current: string, i: nat, j: nat)
    requires i < |h| && h[i].Assistant? && j < |h[i].calls| && !Stale(c, h[i].calls[j], path, current)
    ensures forall t :: 0 <= t < |h| ==> Visited(c, h, path, current, i, j + 1, t) == Visited(c, h, path, current, i, j, t)
  {
    forall id ensures StaleId(c, h, path, current, i, j + 1, id) <==> StaleId(c, h, path, current, i, j, id) {}
  }

  lemma {:induction false} MessageDone(c: Codec, h: History, path: string, current: string, i: nat)
    requires i < |h| && h[i].Assistant?
    ensures forall t :: 0 <= t < |h| ==> Visited(c, h, path, current, i + 1, 0, t) == Visited(c, h, path, current, i, |h[i].calls|, t)
  {
    forall id ensures StaleId(c, h, path, current, i + 1, 0, id) <==> StaleId(c, h, path, current, i, |h[i].calls|, id) {}
  }

  lemma {:induction false} MessageSkipped(c: Codec, h: History, path: string, current: string, i: nat)
    requires i < |h| && !h[i].Assistant?
    ensures forall t :: 0 <= t < |h| ==> Visited(c, h, path, current, i + 1, 0, t) == Visited(c, h, path, current, i, 0, t)
  {
    forall id ensures StaleId(c, h, path, current, i + 1, 0, id) <==> StaleId(c, h, path, current, i, 0, id) {}
  }

  lemma {:induction false} SameFirst(c: Codec, h: History, g: History, path: string, current: string, i: nat, j: nat)
    requires |g| == |h| && forall t :: 0 <= t < |h| ==> g[t] == Visited(c, h, path, current, i, j, t)
    ensures forall t :: 0 <= t < |h| ==> FirstFor(g, t) == FirstFor(h, t)
  {
    assert forall q :: 0 <= q < |h| ==> g[q].Tool? == h[q].Tool? && (g[q].Tool? ==> g[q].callId == h[q].callId);
  }

  lemma {:induction false} CallVisited(c: Codec, h: History, path: string, current: string, i: nat, j: nat, before: History, g: History, t: nat)
    requires Sound(c) && i < |h| && h[i].Assistant? && j < |h[i].calls| && Stale(c, h[i].calls[j], path, current)
    requires |before| == |h| && forall q :: 0 <= q < |h| ==> before[q] == Visited(c, h, path, current, i, j, q)
    requires t <= |h|
    requires t < |h| ==> before[t].Tool? && before[t].callId == h[i].calls[j].id && FirstFor(h, t)
    requires t == |h| ==> forall q :: 0 <= q < |h| && before[q].Tool? ==> before[q].callId != h[i].calls[j].id
    requires |g| == |h|
    requires forall q :: 0 <= q < |h| && q != i ==>
      g[q] == if q == t && !Includes(before[q].content, STALE_READ) then Tool(before[q].callId, before[q].name, c.staleNote(path)) else before[q]
    requires before[i].Assistant? && |before[i].calls| == |h[i].calls|
    requires g[i] == before[i].(calls := before[i].calls[j := CompactCall(c, h[i].calls[j], path, current)])
    ensures forall q :: 0 <= q < |h| ==> g[q] == Visited(c, h, path, current, i, j + 1, q)
  {
    var x := h[i].calls[j].id;
    assert IsStale(c, h, path, current, i, j);
    forall id ensures StaleId(c, h, path, current, i, j + 1, id) <==> StaleId(c, h, path, current, i, j, id) || id == x {}
  }

  /** The history after a pass. */
  ghost function Compact(c: Codec, h: History, path: string, current: string): (g: History)
    ensures IsCompacted(c, h, path, current, g)
  {
    seq(|h|, t requires 0 <= t < |h| => Compacted(c, h, path, current, t))
  }

  // ---- What a pass keeps ----

  /** Role, ids, tool names and reasoning of a message, and the path and mode of every call in it. */
  ghost predicate Keeps(c: Codec, m: Message, n: Message) {
    match m
    case Assistant(content, calls, reasoning) =>
      && n.Assistant? && n.content == content && n.reasoning == reasoning && |n.calls| == |calls|
      && forall b :: 0 <= b < |calls| ==> KeepsCall(c, calls[b], n.calls[b])
    case Tool(id, name, _) => n.Tool? && n.callId == id && n.name == name
    case _ => n == m
  }

  ghost predicate KeepsCall(c: Codec, x: Call, y: Call) {
    && y.id == x.id && y.name == x.name
    && PathOf(c, y) == PathOf(c, x) && ModeOf(c, y) == ModeOf(c, x)
    && (x.name != "write_edit_tool" ==> y == x)
  }

  lemma {:induction false} CompactKeepsCall(c: Codec, x: Call, path: string, current: string)
    requires Sound(c)
    ensures KeepsCall(c, x, CompactCall(c, x, path, current))
  {}

  lemma {:induction false} CompactionKeeps(c: Codec, h: History, path: string, current: string, g: History)
    requires Sound(c) && IsCompacted(c, h, path, current, g)
    ensures |g| == |h| && forall t :: 0 <= t < |h| ==> Keeps(c, h[t], g[t])
  {
    forall t | 0 <= t < |h| ensures Keeps(c, h[t], g[t]) {
      if h[t].Assistant? {
        forall b | 0 <= b < |h[t].calls| ensures KeepsCall(c, h[t].calls[b], g[t].calls[b]) {
          CompactKeepsCall(c, h[t].calls[b], path, current);
        }
      }
    }
  }

  lemma {:induction false} KeepsShape(c: Codec, m: Message, n: Message)
    requires Keeps(c, m, n)
    ensures SameShape(m, n)
  {
    if m.Assistant? { assert Ids(m.calls) == Ids(n.calls); }
  }

  /** Every answered call stays answered: the pass does not touch what the protocol looks at. */
  lemma {:induction false} CompactionKeepsDebt(c: Codec, h: History, path: string, current: string, g: History)
    requires Sound(c) && IsCompacted(c, h, path, current, g)
    ensures DebtOf(g) == DebtOf(h)
  {
    CompactionKeeps(c, h, path, current, g);
    forall t | 0 <= t < |h| ensures SameShape(h[t], g[t]) { KeepsShape(c, h[t], g[t]); }
    ShapeDecides(h, g, |h|);
  }

  lemma {:induction false} StillStale(c: Codec, h: History, path: string, current: string, g: History, a: nat, b: nat)
    requires Sound(c) && IsCompacted(c, h, path, current, g)
    ensures IsStale(c, g, path, current, a, b) <==> IsStale(c, h, path, current, a, b)
  {
    CompactionKeeps(c, h, path, current, g);
    if a < |h| && h[a].Assistant? && b < |h[a].calls| {
      assert KeepsCall(c, h[a].calls[b], g[a].calls[b]);
    }
  }

  /** A second pass for the same call changes nothing. */
  lemma {:induction false} CompactionIdempotent(c: Codec, h: History, path: string, current: string, g: History, k: History)
    requires Sound(c) && IsCompacted(c, h, path, current, g) && IsCompacted(c, g, path, current, k)
    ensures k == g
  {
    CompactionKeeps(c, h, path, current, g);
    forall id ensures StaleId(c, g, path, current, |g|, 0, id) <==> StaleId(c, h, path, current, |h|, 0, id) {
      SameStaleIds(c, h, path, current, g, id);
    }
    forall t | 0 <= t < |g| ensures k[t] == g[t] {
      assert FirstFor(g, t) == FirstFor(h, t);
      if g[t].Assistant? {
        forall b | 0 <= b < |g[t].calls| ensures k[t].calls[b] == g[t].calls[b] {
          CompactKeepsCall(c, h[t].calls[b], path, current);
        }
        assert k[t].calls == g[t].calls;
      }
    }
  }

  lemma {:induction false} SameStaleIds(c: Codec, h: History, path: string, current: string, g: History, id: string)
    requires Sound(c) && IsCompacted(c, h, path, current, g)
    ensures StaleId(c, g, path, current, |g|, 0, id) <==> StaleId(c, h, path, current, |h|, 0, id)
  {
    CompactionKeeps(c, h, path, current, g);
    forall a: nat, b: nat ensures IsStale(c, g, path, current, a, b) <==> IsStale(c, h, path, current, a, b) {
      StillStale(c, h, path, current, g, a, b);
    }
    assert forall a: nat, b: nat :: a < |h| && h[a].Assistant? && b < |h[a].calls| ==> KeepsCall(c, h[a].calls[b], g[a].calls[b]);
  }

  /** The call just made keeps its arguments and its observation. */
  lemma {:induction false} CurrentUntouched(c: Codec, h: History, path: string, current: string, g: History)
    requires IsCompacted(c, h, path, current, g)
    ensures forall t, b ::
      0 <= t < |h| && h[t].Assistant? && 0 <= b < |h[t].calls| && h[t].calls[b].id == current ==> g[t].calls[b] == h[t].calls[b]
    ensures forall t :: 0 <= t < |h| && h[t].Tool? && h[t].callId == current ==> g[t] == h[t]
  {}

  /** Every other observation of the path is collapsed. */
  lemma {:induction false} EarlierCollapsed(c: Codec, h: History, path: string, current: string, g: History, a: nat, b: nat, t: nat)
    requires Sound(c) && IsCompacted(c, h, path, current, g) && IsStale(c, h, path, current, a, b)
    requires FirstFor(h, t) && h[t].callId == h[a].calls[b].id
    ensures Includes(g[t].content, STALE_READ)
  {
    assert StaleId(c, h, path, current, |h|, 0, h[t].callId);
  }

  /** Observations of other paths stay as they are. */
  lemma {:induction false} OthersUntouched(c: Codec, h: History, path: string, current: string, g: History, t: nat)
    requires IsCompacted(c, h, path, current, g) && t < |h| && h[t].Tool?
    requires forall a: nat, b: nat :: IsStale(c, h, path, current, a, b) ==> h[a].calls[b].id != h[t].callId
    ensures g[t] == h[t]
  {}
}
