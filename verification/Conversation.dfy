/** The message history of one run, and what it means that every tool call is answered. */
module Conversation {
  import opened Prelude

  /** `args` is a JSON text. */
  datatype Call = Call(id: string, name: string, args: string)

  datatype Message =
    | System(content: string)
    | User(content: string)
    | Assistant(content: string, calls: seq<Call>, reasoning: Option<string>)
    | Tool(callId: string, name: string, content: string)

  type History = seq<Message>

  function Ids(calls: seq<Call>): (r: seq<string>)
    ensures |r| == |calls| && forall i :: 0 <= i < |calls| ==> r[i] == calls[i].id
  {
    if calls == [] then [] else [calls[0].id] + Ids(calls[1..])
  }

  /** Without the first `x`. */
  function Remove(ids: seq<string>, x: string): (r: seq<string>)
    ensures |r| == |ids| - if x in ids then 1 else 0
  {
    if ids == [] then [] else if ids[0] == x then ids[1..] else [ids[0]] + Remove(ids[1..], x)
  }

  /** `a` lists the elements of `b`, each as often, in any order. */
  predicate OneForEach(a: seq<string>, b: seq<string>) {
    if a == [] then b == [] else a[0] in b && OneForEach(a[1..], Remove(b, a[0]))
  }

  lemma {:induction false} RemoveCounts(ids: seq<string>, x: string)
    requires x in ids
    ensures multiset(ids) == multiset{x} + multiset(Remove(ids, x))
  {
    assert ids == [ids[0]] + ids[1..];
    if ids[0] != x { RemoveCounts(ids[1..], x); }
  }

  lemma {:induction false} HeadCounts(a: seq<string>)
    requires a != []
    ensures multiset(a) == multiset{a[0]} + multiset(a[1..])
  {
    assert a == [a[0]] + a[1..];
  }

  lemma {:induction false} OneForEachMeans(a: seq<string>, b: seq<string>)
    ensures OneForEach(a, b) <==> multiset(a) == multiset(b)
  {
    if a == [] {
      assert b == [] || b[0] in multiset(b);
    } else {
      HeadCounts(a);
      assert a[0] in b <==> a[0] in multiset(b);
      if a[0] in b {
        RemoveCounts(b, a[0]);
        OneForEachMeans(a[1..], Remove(b, a[0]));
        CancelHead(a[0], multiset(a[1..]), multiset(Remove(b, a[0])));
      }
    }
  }

  lemma {:induction false} CancelHead(x: string, p: multiset<string>, q: multiset<string>)
    ensures multiset{x} + p == multiset{x} + q <==> p == q
  {
    if multiset{x} + p == multiset{x} + q {
      forall y ensures p[y] == q[y] {
        assert (multiset{x} + p)[y] == (multiset{x} + q)[y];
      }
    }
  }

  /** The ids still to be answered after a history, or that it is out of order. */
  datatype Debt = Wrong | Owing(ids: seq<string>)

  const NONE: Debt := Owing([])

  /** Tool messages pay off the ids of the last assistant message; nothing else may come in between. */
  function After(d: Debt, m: Message): Debt {
    if d.Wrong? then Wrong
    else match m
      case Tool(id, _, _) => if id in d.ids then Owing(Remove(d.ids, id)) else Wrong
      case Assistant(_, calls, _) => if d.ids == [] then Owing(Ids(calls)) else Wrong
      case _ => if d.ids == [] then d else Wrong
  }

  /** The debt after the first `i` messages. */
  function DebtAt(h: History, i: nat): Debt
    requires i <= |h|
  {
    if i == 0 then NONE else After(DebtAt(h, i - 1), h[i - 1])
  }

  function DebtOf(h: History): Debt { DebtAt(h, |h|) }

  predicate Answered(h: History) { DebtOf(h) == NONE }

  lemma {:induction false} DebtPrefix(h: History, g: History, i: nat)
    requires i <= |h|
    ensures DebtAt(h + g, i) == DebtAt(h, i)
  {
    if i > 0 { DebtPrefix(h, g, i - 1); }
  }

  lemma {:induction false} DebtPush(h: History, m: Message)
    ensures DebtOf(h + [m]) == After(DebtOf(h), m)
  {
    DebtPrefix(h, [m], |h|);
  }

  /** The ids of the tool messages at positions from `i` up to `j`. */
  function ToolIds(h: History, i: nat, j: nat): seq<string>
    requires j <= |h|
    decreases j - i
  {
    if i >= j then [] else (if h[i].Tool? then [h[i].callId] else []) + ToolIds(h, i + 1, j)
  }

  /** The messages from `i` up to `j` are tool messages, one for each of the ids. */
  ghost predicate Behind(h: History, i: nat, ids: seq<string>, j: nat) {
    j <= |h| && (forall t :: i <= t < j ==> h[t].Tool?) && OneForEach(ToolIds(h, i, j), ids)
  }

  /** The messages right behind message `i` are tool messages, one for each id it asks for. */
  ghost predicate AnsweredAt(h: History, i: nat)
    requires i < |h| && h[i].Assistant?
  {
    Behind(h, i + 1, Ids(h[i].calls), i + 1 + |h[i].calls|)
  }

  /** Tool message `j` is one of the answers behind assistant message `i`. */
  ghost predicate Answers(h: History, i: nat, j: nat) {
    i < j < |h| && h[i].Assistant? && j <= i + |h[i].calls|
  }

  /** What the model API asks for, stated on positions. */
  ghost predicate EveryCallAnswered(h: History) {
    && (forall i :: 0 <= i < |h| && h[i].Assistant? ==> AnsweredAt(h, i))
    && (forall j :: 0 <= j < |h| && h[j].Tool? ==> exists i :: Answers(h, i, j))
  }

  /** From position `i` on, tool messages answer the given ids one by one. */
  predicate PaidFrom(h: History, i: nat, ids: seq<string>)
    decreases |ids|
  {
    ids == [] || (i < |h| && h[i].Tool? && h[i].callId in ids && PaidFrom(h, i + 1, Remove(ids, h[i].callId)))
  }

  lemma {:induction false} PaidMeans(h: History, i: nat, ids: seq<string>, j: nat)
    requires PaidFrom(h, i, ids) && i <= |h| && j == i + |ids|
    ensures Behind(h, i, ids, j)
    decreases |ids|
  {
    if ids != [] { PaidMeans(h, i + 1, Remove(ids, h[i].callId), j); }
  }

  lemma {:induction false} PaidIfSame(h: History, i: nat, ids: seq<string>, j: nat)
    requires j == i + |ids| && Behind(h, i, ids, j)
    ensures PaidFrom(h, i, ids)
    decreases |ids|
  {
    if ids != [] {
      assert ToolIds(h, i, j)[0] == h[i].callId;
      assert ToolIds(h, i, j)[1..] == ToolIds(h, i + 1, j);
      PaidIfSame(h, i + 1, Remove(ids, h[i].callId), j);
    }
  }

  lemma {:induction false} AnsweredAtPaid(h: History, i: nat)
    requires i < |h| && h[i].Assistant?
    ensures AnsweredAt(h, i) <==> PaidFrom(h, i + 1, Ids(h[i].calls))
  {
    BehindPaid(h, i + 1, Ids(h[i].calls), i + 1 + |h[i].calls|);
  }

  lemma {:induction false} BehindPaid(h: History, i: nat, ids: seq<string>, j: nat)
    requires i <= |h| && j == i + |ids|
    ensures Behind(h, i, ids, j) <==> PaidFrom(h, i, ids)
  {
    if PaidFrom(h, i, ids) { PaidMeans(h, i, ids, j); } else if Behind(h, i, ids, j) { PaidIfSame(h, i, ids, j); }
  }

  lemma {:induction false} WrongStays(h: History, i: nat, j: nat)
    requires i <= j <= |h| && DebtAt(h, i).Wrong?
    ensures DebtAt(h, j).Wrong?
    decreases j - i
  {
    if i < j { WrongStays(h, i + 1, j); }
  }

  lemma {:induction false} NeverWrong(h: History, i: nat)
    requires i <= |h| && Answered(h)
    ensures DebtAt(h, i).Owing?
  {
    if DebtAt(h, i).Wrong? { WrongStays(h, i, |h|); }
  }

  /** What is owed at `i` is paid by the messages from `i` on. */
  lemma {:induction false} DebtIsPaid(h: History, i: nat)
    requires i <= |h| && Answered(h) && DebtAt(h, i).Owing?
    ensures PaidFrom(h, i, DebtAt(h, i).ids)
    decreases |h| - i
  {
    if i < |h| && DebtAt(h, i) != NONE {
      NeverWrong(h, i + 1);
      DebtIsPaid(h, i + 1);
    }
  }

  /** What is owed at `i` comes from one assistant message. */
  lemma {:induction false} DebtHasSource(h: History, i: nat) returns (a: nat)
    requires i <= |h| && DebtAt(h, i).Owing? && DebtAt(h, i) != NONE
    ensures a < i && h[a].Assistant? && i - a - 1 + |DebtAt(h, i).ids| == |h[a].calls|
  {
    if h[i - 1].Assistant? {
      a := i - 1;
    } else {
      a := DebtHasSource(h, i - 1);
    }
  }

  lemma {:induction false} CallsAnswered(h: History, i: nat)
    requires Answered(h) && i < |h| && h[i].Assistant?
    ensures PaidFrom(h, i + 1, Ids(h[i].calls))
  {
    NeverWrong(h, i + 1);
    DebtIsPaid(h, i + 1);
    CallsOwed(h, i);
  }

  lemma {:induction false} CallsOwed(h: History, i: nat)
    requires i < |h| && h[i].Assistant? && DebtAt(h, i + 1).Owing?
    ensures DebtAt(h, i + 1).ids == Ids(h[i].calls)
  {}

  lemma {:induction false} NoOrphan(h: History, j: nat)
    requires Answered(h) && j < |h| && h[j].Tool?
    ensures exists i :: Answers(h, i, j)
  {
    NeverWrong(h, j + 1);
    var i := DebtHasSource(h, j);
    assert Answers(h, i, j);
  }

  /** Tool messages that answer what is owed leave nothing owed. */
  lemma {:induction false} PayOff(h: History, i: nat, ids: seq<string>, j: nat)
    requires i <= j <= |h| && DebtAt(h, i) == Owing(ids) && PaidFrom(h, i, ids) && j == i + |ids|
    ensures DebtAt(h, j) == NONE
    decreases |ids|
  {
    if ids != [] { PayOff(h, i + 1, Remove(ids, h[i].callId), j); }
  }

  /** No block of answers reaches past `p`. */
  ghost predicate Settled(h: History, p: nat) {
    p <= |h| && DebtAt(h, p) == NONE && forall i :: 0 <= i < p && h[i].Assistant? ==> i + |h[i].calls| < p
  }

  ghost predicate EveryCallPaid(h: History) {
    && (forall i :: 0 <= i < |h| && h[i].Assistant? ==> PaidFrom(h, i + 1, Ids(h[i].calls)))
    && (forall j :: 0 <= j < |h| && h[j].Tool? ==> exists i :: Answers(h, i, j))
  }

  lemma {:induction false} PaidFits(h: History, i: nat, ids: seq<string>)
    requires PaidFrom(h, i, ids) && i <= |h|
    ensures i + |ids| <= |h| && forall j :: i <= j < i + |ids| ==> h[j].Tool?
    decreases |ids|
  {
    if ids != [] { PaidFits(h, i + 1, Remove(ids, h[i].callId)); }
  }

  lemma {:induction false} PaidPastCalls(h: History, p: nat, q: nat)
    requires p < |h| && DebtAt(h, p) == NONE && h[p].Assistant? && PaidFrom(h, p + 1, Ids(h[p].calls))
    requires q == p + 1 + |h[p].calls|
    ensures q <= |h| && (forall j :: p < j < q ==> h[j].Tool?) && DebtAt(h, q) == NONE
  {
    var ids := Ids(h[p].calls);
    PaidFits(h, p + 1, ids);
    OpensDebt(h, p, ids);
    PayOff(h, p + 1, ids, q);
  }

  lemma {:induction false} OpensDebt(h: History, p: nat, ids: seq<string>)
    requires p < |h| && DebtAt(h, p) == NONE && h[p].Assistant? && ids == Ids(h[p].calls)
    ensures DebtAt(h, p + 1) == Owing(ids)
  {}

  lemma {:induction false} SettledPastCalls(h: History, p: nat, q: nat)
    requires EveryCallPaid(h) && Settled(h, p) && p < |h| && h[p].Assistant? && q == p + 1 + |h[p].calls|
    ensures Settled(h, q)
  {
    PaidPastCalls(h, p, q);
    BlocksEnd(h, p, q);
  }

  lemma {:induction false} BlocksEnd(h: History, p: nat, q: nat)
    requires p < q <= |h| && h[p].Assistant? && q == p + 1 + |h[p].calls| && forall j :: p < j < q ==> h[j].Tool?
    requires forall i :: 0 <= i < p && h[i].Assistant? ==> i + |h[i].calls| < p
    ensures forall i :: 0 <= i < q && h[i].Assistant? ==> i + |h[i].calls| < q
  {
    forall i | 0 <= i < q ensures h[i].Assistant? ==> i + |h[i].calls| < q {
      assert i > p ==> h[i].Tool?;
    }
  }

  lemma {:induction false} SettledPastOther(h: History, p: nat)
    requires Settled(h, p) && p < |h| && !h[p].Assistant? && !h[p].Tool?
    ensures Settled(h, p + 1)
  {
    assert DebtAt(h, p + 1) == NONE;
  }

  lemma {:induction false} NoToolWhenSettled(h: History, p: nat)
    requires EveryCallPaid(h) && Settled(h, p) && p < |h|
    ensures !h[p].Tool?
  {
    assert forall i :: !Answers(h, i, p);
  }

  lemma {:induction false} SettledFrom(h: History, p: nat)
    requires EveryCallPaid(h) && Settled(h, p)
    ensures Answered(h)
    decreases |h| - p
  {
    if p < |h| {
      var q := p + 1;
      if h[p].Assistant? {
        q := p + 1 + |h[p].calls|;
        SettledPastCalls(h, p, q);
      } else {
        NoToolWhenSettled(h, p);
        SettledPastOther(h, p);
      }
      SettledFrom(h, q);
    }
  }

  /** The running debt and the statement on positions say the same. */
  lemma {:induction false} AnsweredMeans(h: History)
    ensures Answered(h) <==> EveryCallAnswered(h)
  {
    forall i | 0 <= i < |h| && h[i].Assistant? ensures AnsweredAt(h, i) <==> PaidFrom(h, i + 1, Ids(h[i].calls)) {
      AnsweredAtPaid(h, i);
    }
    if Answered(h) {
      forall i | 0 <= i < |h| && h[i].Assistant? ensures PaidFrom(h, i + 1, Ids(h[i].calls)) { CallsAnswered(h, i); }
      forall j | 0 <= j < |h| && h[j].Tool? ensures exists i :: Answers(h, i, j) { NoOrphan(h, j); }
    }
    if EveryCallPaid(h) {
      SettledFrom(h, 0);
    }
  }

  // ---- What the debt depends on ----

  /** Same role and ids; texts and arguments may differ. */
  ghost predicate SameShape(m: Message, n: Message) {
    match m
    case System(_) => n.System?
    case User(_) => n.User?
    case Assistant(_, calls, _) => n.Assistant? && Ids(calls) == Ids(n.calls)
    case Tool(id, _, _) => n.Tool? && n.callId == id
  }

  lemma {:induction false} ShapeDecides(h: History, g: History, i: nat)
    requires |h| == |g| && i <= |h| && forall k :: 0 <= k < |h| ==> SameShape(h[k], g[k])
    ensures DebtAt(h, i) == DebtAt(g, i)
  {
    if i > 0 { ShapeDecides(h, g, i - 1); }
  }

  lemma {:induction false} PlainPrompt(system: string, user: string)
    ensures Answered([System(system), User(user)])
  {
    var h := [System(system), User(user)];
    assert DebtAt(h, 1) == NONE;
  }
}
