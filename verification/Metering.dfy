/** Monthly allowances: calls are checked when they start and recorded when they end. */
module Metering {
  import opened Prelude
  import Arithmetic

  datatype Usage = Usage(tokens: int, requests: int)

  datatype Quota = Quota(monthlyTokens: int, monthlyRequests: int)

  /** What the tenants of one month have used; the allowances, for the tenants that exist. */
  type Counters = map<string, Usage>
  type Quotas = map<string, Quota>

  const NOTHING := Usage(0, 0)

  function UsageOf(store: Counters, tenant: string): Usage { if tenant in store then store[tenant] else NOTHING }

  function Plus(u: Usage, tokens: int, requests: int): Usage {
    Usage(u.tokens + Max(0, tokens), u.requests + Max(0, requests))
  }

  predicate Over(q: Quotas, store: Counters, tenant: string) {
    tenant in q &&
    (UsageOf(store, tenant).tokens >= q[tenant].monthlyTokens || UsageOf(store, tenant).requests >= q[tenant].monthlyRequests)
  }

  class UsageStore {
    const quotas: Quotas
    var store: Counters

    constructor (quotas: Quotas)
      ensures this.quotas == quotas && store == map[]
    {
      this.quotas, store := quotas, map[];
    }

    method RecordUsage(tenant: string, tokens: int, requests: int)
      modifies this
      ensures store == old(store)[tenant := Plus(UsageOf(old(store), tenant), tokens, requests)]
    {
      if tenant !in store { store := store[tenant := NOTHING]; }
      var u := store[tenant];
      u := u.(tokens := u.tokens + Max(0, tokens));
      u := u.(requests := u.requests + Max(0, requests));
      store := store[tenant := u];
    }

    method QuotaExceeded(tenant: string) returns (over: bool)
      ensures over == Over(quotas, store, tenant)
    {
      if tenant !in quotas { return false; }
      var q, u := quotas[tenant], UsageOf(store, tenant);
      if u.tokens >= q.monthlyTokens { return true; }
      over := u.requests >= q.monthlyRequests;
    }
  }

  datatype Role = SaasOwner | SaasOps | Member

  datatype Context = Context(tenantId: string, role: Role)

  /** How a call starts: past the meter, refused, or metered. */
  datatype Start = PassThrough | Refused | Metered

  function StartOf(saas: bool, ctx: Option<Context>, byo: bool, q: Quotas, store: Counters): Start {
    if !saas || ctx.None? || ctx.value.role != Member then PassThrough
    else if !byo && Over(q, store, ctx.value.tenantId) then Refused
    else Metered
  }

  class MeteredLlmClient {
    const usage: UsageStore
    const byo: bool

    constructor (usage: UsageStore, byo: bool)
      ensures this.usage == usage && this.byo == byo
    {
      this.usage, this.byo := usage, byo;
    }

    /** Up to the call of the inner client. */
    method Begin(saas: bool, ctx: Option<Context>) returns (start: Start)
      ensures start == StartOf(saas, ctx, byo, usage.quotas, usage.store)
    {
      if !saas || ctx.None? { return PassThrough; }
      if ctx.value.role == SaasOwner || ctx.value.role == SaasOps { return PassThrough; }
      if !byo {
        var over := usage.QuotaExceeded(ctx.value.tenantId);
        if over { return Refused; }
      }
      start := Metered;
    }

    /** From the inner client's answer on. A call that passed through records nothing. */
    method Finish(start: Start, ctx: Option<Context>, totalTokens: Option<int>)
      requires start.Metered? ==> ctx.Some?
      modifies usage
      ensures usage.store == if start.Metered?
        then old(usage.store)[ctx.value.tenantId := Plus(UsageOf(old(usage.store), ctx.value.tenantId), if totalTokens.Some? then totalTokens.value else 0, 1)]
        else old(usage.store)
    {
      if start.Metered? {
        usage.RecordUsage(ctx.value.tenantId, if totalTokens.Some? then totalTokens.value else 0, 1);
      }
    }
  }

  // ---- Every interleaving ----

  datatype Call = Call(tenant: string, byo: bool)

  /** A call starts, ends with so many tokens, or throws. Calls in flight are named by their place. */
  datatype Event = Begins(tenant: string, byo: bool) | Ends(i: nat, tokens: int) | Throws(i: nat)

  /** `platform` is the part of what was recorded that the platform paid for. */
  datatype State = State(store: Counters, inFlight: seq<Call>, platform: Counters)

  const START := State(map[], [], map[])

  function Without(calls: seq<Call>, i: nat): seq<Call>
    requires i < |calls|
  {
    calls[..i] + calls[i + 1..]
  }

  function Recorded(store: Counters, tenant: string, tokens: int): Counters {
    store[tenant := Plus(UsageOf(store, tenant), tokens, 1)]
  }

  function Next(q: Quotas, s: State, e: Event): State {
    match e
    case Begins(t, byo) =>
      if StartOf(true, Some(Context(t, Member)), byo, q, s.store).Metered? then s.(inFlight := s.inFlight + [Call(t, byo)]) else s
    case Ends(i, tokens) =>
      if i >= |s.inFlight| then s else
      var c := s.inFlight[i];
      State(Recorded(s.store, c.tenant, tokens), Without(s.inFlight, i),
            if c.byo then s.platform else Recorded(s.platform, c.tenant, tokens))
    case Throws(i) => if i >= |s.inFlight| then s else s.(inFlight := Without(s.inFlight, i))
  }

  function Run(q: Quotas, s: State, es: seq<Event>): State {
    if es == [] then s else Next(q, Run(q, s, es[..|es| - 1]), es[|es| - 1])
  }

  /** A tenant's calls in flight that the platform pays for. */
  function Pending(calls: seq<Call>, t: string): nat {
    if calls == [] then 0
    else Pending(calls[..|calls| - 1], t) + if calls[|calls| - 1] == Call(t, false) then 1 else 0
  }

  /** No more than `k` of them at any time, and no call uses more than `m` tokens. */
  ghost predicate Limited(q: Quotas, es: seq<Event>, t: string, k: nat, m: nat) {
    && (forall n :: 0 <= n <= |es| ==> Pending(Run(q, START, es[..n]).inFlight, t) <= k)
    && (forall i :: 0 <= i < |es| && es[i].Ends? ==> es[i].tokens <= m)
  }

  lemma {:induction false} PendingSplits(a: seq<Call>, b: seq<Call>, t: string)
    ensures Pending(a + b, t) == Pending(a, t) + Pending(b, t)
  {
    if b == [] {
      assert a + b == a;
    } else {
      PendingSplits(a, b[..|b| - 1], t);
      assert (a + b)[..|a + b| - 1] == a + b[..|b| - 1];
    }
  }

  lemma {:induction false} PendingOne(c: Call, t: string)
    ensures Pending([c], t) == if c == Call(t, false) then 1 else 0
  {
    assert [c][..0] == [];
  }

  lemma {:induction false} PendingWithout(calls: seq<Call>, i: nat, t: string)
    requires i < |calls|
    ensures Pending(calls, t) == Pending(Without(calls, i), t) + if calls[i] == Call(t, false) then 1 else 0
  {
    assert calls == calls[..i] + ([calls[i]] + calls[i + 1..]);
    PendingSplits(calls[..i], [calls[i]] + calls[i + 1..], t);
    PendingSplits([calls[i]], calls[i + 1..], t);
    PendingSplits(calls[..i], calls[i + 1..], t);
    PendingOne(calls[i], t);
  }

  /** What the platform pays for is part of what is recorded. */
  ghost predicate Part(s: State, t: string) {
    && 0 <= UsageOf(s.platform, t).tokens <= UsageOf(s.store, t).tokens
    && 0 <= UsageOf(s.platform, t).requests <= UsageOf(s.store, t).requests
  }

  /** With `n` calls in flight, what the platform pays for stays within the allowance and `k` calls. */
  predicate Within(p: Usage, n: nat, quota: Quota, k: nat, m: nat) {
    || (p == NOTHING && n == 0)
    || (p.tokens + n * m <= quota.monthlyTokens - 1 + k * m && p.requests + n <= quota.monthlyRequests - 1 + k)
  }

  lemma {:induction false} StartsWithin(p: Usage, n: nat, quota: Quota, k: nat, m: nat)
    requires p.tokens < quota.monthlyTokens && p.requests < quota.monthlyRequests && n <= k
    ensures Within(p, n, quota, k, m)
  {
    Arithmetic.MulMonotone(m, n, k);
    assert m * n == n * m && m * k == k * m;
  }

  lemma {:induction false} EndsWithin(p: Usage, n: nat, quota: Quota, k: nat, m: nat, tokens: int)
    requires Within(p, n, quota, k, m) && n >= 1 && tokens <= m
    ensures Within(p, n - 1, quota, k, m) && Within(Plus(p, tokens, 1), n - 1, quota, k, m)
  {
    assert (n - 1) * m == n * m - m;
  }

  lemma {:induction false} WithinBounds(p: Usage, n: nat, quota: Quota, k: nat, m: nat)
    requires Within(p, n, quota, k, m)
    ensures p == NOTHING || (p.tokens <= quota.monthlyTokens - 1 + k * m && p.requests <= quota.monthlyRequests - 1 + k)
  {
    assert n * m >= 0;
  }

  ghost predicate Covered(s: State, t: string, quota: Quota, k: nat, m: nat) {
    Within(UsageOf(s.platform, t), Pending(s.inFlight, t), quota, k, m)
  }

  lemma {:induction false} BeginCovered(q: Quotas, s: State, t: string, byo: bool, u: string, k: nat, m: nat)
    requires u in q && Part(s, u) && Covered(s, u, q[u], k, m)
    requires Pending(Next(q, s, Begins(t, byo)).inFlight, u) <= k
    ensures Part(Next(q, s, Begins(t, byo)), u) && Covered(Next(q, s, Begins(t, byo)), u, q[u], k, m)
  {
    var r := Next(q, s, Begins(t, byo));
    if r != s {
      PendingSplits(s.inFlight, [Call(t, byo)], u);
      PendingOne(Call(t, byo), u);
      if Call(t, byo) == Call(u, false) {
        StartsWithin(UsageOf(s.platform, u), Pending(r.inFlight, u), q[u], k, m);
      }
    }
  }

  lemma {:induction false} EndCovered(q: Quotas, s: State, i: nat, tokens: int, u: string, k: nat, m: nat)
    requires u in q && Part(s, u) && Covered(s, u, q[u], k, m) && i < |s.inFlight| && tokens <= m
    ensures Part(Next(q, s, Ends(i, tokens)), u) && Covered(Next(q, s, Ends(i, tokens)), u, q[u], k, m)
  {
    PendingWithout(s.inFlight, i, u);
    var r, c := Next(q, s, Ends(i, tokens)), s.inFlight[i];
    assert UsageOf(r.store, u) == if c.tenant == u then Plus(UsageOf(s.store, u), tokens, 1) else UsageOf(s.store, u);
    assert UsageOf(r.platform, u) == if c == Call(u, false) then Plus(UsageOf(s.platform, u), tokens, 1) else UsageOf(s.platform, u);
    if c == Call(u, false) {
      EndsWithin(UsageOf(s.platform, u), Pending(s.inFlight, u), q[u], k, m, tokens);
    }
  }

  lemma {:induction false} ThrowCovered(q: Quotas, s: State, i: nat, u: string, k: nat, m: nat)
    requires u in q && Part(s, u) && Covered(s, u, q[u], k, m) && i < |s.inFlight|
    ensures Part(Next(q, s, Throws(i)), u) && Covered(Next(q, s, Throws(i)), u, q[u], k, m)
  {
    PendingWithout(s.inFlight, i, u);
    if s.inFlight[i] == Call(u, false) {
      EndsWithin(UsageOf(s.platform, u), Pending(s.inFlight, u), q[u], k, m, 0);
    }
  }

  lemma {:induction false} RunCovered(q: Quotas, es: seq<Event>, t: string, k: nat, m: nat)
    requires t in q && Limited(q, es, t, k, m)
    ensures Part(Run(q, START, es), t) && Covered(Run(q, START, es), t, q[t], k, m)
  {
    if es != [] {
      var most, e := es[..|es| - 1], es[|es| - 1];
      assert forall n :: 0 <= n <= |most| ==> most[..n] == es[..n];
      RunCovered(q, most, t, k, m);
      assert es[..|es|] == es;
      var s := Run(q, START, most);
      match e
      case Begins(u, byo) => BeginCovered(q, s, u, byo, t, k, m);
      case Ends(i, tokens) => if i < |s.inFlight| { EndCovered(q, s, i, tokens, t, k, m); }
      case Throws(i) => if i < |s.inFlight| { ThrowCovered(q, s, i, t, k, m); }
    }
  }

  /** However the calls of all tenants interleave, what the platform pays for overshoots an allowance by less
      than `k` calls of the largest size. */
  lemma {:induction false} OvershootIsBounded(q: Quotas, es: seq<Event>, t: string, k: nat, m: nat)
    requires t in q && Limited(q, es, t, k, m)
    ensures var p := UsageOf(Run(q, START, es).platform, t);
      p == NOTHING || (p.tokens <= q[t].monthlyTokens - 1 + k * m && p.requests <= q[t].monthlyRequests - 1 + k)
  {
    RunCovered(q, es, t, k, m);
    var s := Run(q, START, es);
    WithinBounds(UsageOf(s.platform, t), Pending(s.inFlight, t), q[t], k, m);
  }

  /** A tenant that never brings a key of its own: the platform's part is all there is. */
  lemma {:induction false} NoOwnKeyAllPlatform(q: Quotas, es: seq<Event>, t: string)
    requires forall i :: 0 <= i < |es| && es[i].Begins? && es[i].tenant == t ==> !es[i].byo
    ensures UsageOf(Run(q, START, es).platform, t) == UsageOf(Run(q, START, es).store, t)
    ensures forall c :: c in Run(q, START, es).inFlight && c.tenant == t ==> !c.byo
  {
    if es != [] {
      var most := es[..|es| - 1];
      assert forall i :: 0 <= i < |most| ==> most[i] == es[i];
      NoOwnKeyAllPlatform(q, most, t);
    }
  }

  /** Once either allowance is used up, by calls of any kind, no call the platform would pay for starts. */
  lemma {:induction false} NothingStartsOver(q: Quotas, s: State, t: string)
    requires t in q
    ensures Next(q, s, Begins(t, false)) != s <==>
      UsageOf(s.store, t).tokens < q[t].monthlyTokens && UsageOf(s.store, t).requests < q[t].monthlyRequests
    ensures Next(q, s, Begins(t, true)) != s
  {
    assert s.inFlight + [Call(t, false)] != s.inFlight && s.inFlight + [Call(t, true)] != s.inFlight;
  }

  // ---- The bound is reached ----

  function Copies(c: Call, n: nat): seq<Call> { seq(n, _ => c) }

  /** `n` of the tenant's calls in flight and nothing else, after so much use, all of it the platform's. */
  ghost predicate At(s: State, t: string, used: Usage, n: nat) {
    UsageOf(s.store, t) == used && UsageOf(s.platform, t) == used && s.inFlight == Copies(Call(t, false), n)
  }

  lemma {:induction false} PendingCopies(t: string, n: nat)
    ensures Pending(Copies(Call(t, false), n), t) == n
  {
    if n > 0 {
      PendingCopies(t, n - 1);
      assert Copies(Call(t, false), n)[..n - 1] == Copies(Call(t, false), n - 1);
    }
  }

  lemma {:induction false} OneMore(q: Quotas, es: seq<Event>, e: Event, t: string, k: nat, m: nat, used: Usage, n: nat)
    requires Limited(q, es, t, k, m) && At(Run(q, START, es + [e]), t, used, n) && n <= k && (e.Ends? ==> e.tokens <= m)
    ensures Limited(q, es + [e], t, k, m)
  {
    PendingCopies(t, n);
    var more := es + [e];
    assert more[..|more|] == more;
    forall i | 0 <= i <= |more| ensures Pending(Run(q, START, more[..i]).inFlight, t) <= k {
      if i < |more| { assert more[..i] == es[..i]; }
    }
  }

  lemma {:induction false} Starts(q: Quotas, es: seq<Event>, t: string, k: nat, m: nat, used: Usage, n: nat) returns (fs: seq<Event>)
    requires t in q && Limited(q, es, t, k, m) && At(Run(q, START, es), t, used, n) && n < k
    requires used.tokens < q[t].monthlyTokens && used.requests < q[t].monthlyRequests
    ensures Limited(q, fs, t, k, m) && At(Run(q, START, fs), t, used, n + 1)
  {
    fs := es + [Begins(t, false)];
    assert fs[..|es|] == es;
    assert Copies(Call(t, false), n) + [Call(t, false)] == Copies(Call(t, false), n + 1);
    OneMore(q, es, Begins(t, false), t, k, m, used, n + 1);
  }

  lemma {:induction false} Finishes(q: Quotas, es: seq<Event>, t: string, k: nat, m: nat, used: Usage, n: nat, tokens: nat) returns (fs: seq<Event>)
    requires Limited(q, es, t, k, m) && At(Run(q, START, es), t, used, n) && 0 < n <= k && tokens <= m
    ensures Limited(q, fs, t, k, m) && At(Run(q, START, fs), t, Usage(used.tokens + tokens, used.requests + 1), n - 1)
  {
    fs := es + [Ends(0, tokens)];
    assert fs[..|es|] == es;
    assert Without(Copies(Call(t, false), n), 0) == Copies(Call(t, false), n - 1);
    OneMore(q, es, Ends(0, tokens), t, k, m, Usage(used.tokens + tokens, used.requests + 1), n - 1);
  }

  /** Up to one below the allowance, a call of one token at a time. */
  lemma {:induction false} FillsUp(t: string, q: Quotas, n: nat, k: nat, m: nat) returns (es: seq<Event>)
    requires t in q && k >= 1 && m >= 1 && n < q[t].monthlyTokens && n < q[t].monthlyRequests
    ensures Limited(q, es, t, k, m) && At(Run(q, START, es), t, Usage(n, n), 0)
  {
    if n == 0 {
      es := [];
    } else {
      es := FillsUp(t, q, n - 1, k, m);
      es := Starts(q, es, t, k, m, Usage(n - 1, n - 1), 0);
      es := Finishes(q, es, t, k, m, Usage(n - 1, n - 1), 1, 1);
    }
  }

  lemma {:induction false} AllStart(q: Quotas, es: seq<Event>, t: string, k: nat, m: nat, used: Usage, n: nat) returns (fs: seq<Event>)
    requires t in q && Limited(q, es, t, k, m) && At(Run(q, START, es), t, used, 0) && n <= k
    requires used.tokens < q[t].monthlyTokens && used.requests < q[t].monthlyRequests
    ensures Limited(q, fs, t, k, m) && At(Run(q, START, fs), t, used, n)
  {
    if n == 0 {
      fs := es;
    } else {
      fs := AllStart(q, es, t, k, m, used, n - 1);
      fs := Starts(q, fs, t, k, m, used, n - 1);
    }
  }

  lemma {:induction false} OneFewer(n: nat, m: nat)
    requires n > 0
    ensures (n - 1) * m == n * m - m && n * m >= m
  {}

  lemma {:induction false} AllFinish(q: Quotas, es: seq<Event>, t: string, k: nat, m: nat, used: Usage, n: nat, more: nat)
    returns (fs: seq<Event>)
    requires Limited(q, es, t, k, m) && At(Run(q, START, es), t, used, n) && n <= k && more == n * m
    ensures Limited(q, fs, t, k, m) && At(Run(q, START, fs), t, Usage(used.tokens + more, used.requests + n), 0)
    decreases n
  {
    if n == 0 {
      fs := es;
    } else {
      OneFewer(n, m);
      fs := Finishes(q, es, t, k, m, used, n, m);
      fs := AllFinish(q, fs, t, k, m, Usage(used.tokens + m, used.requests + 1), n - 1, more - m);
    }
  }

  lemma {:induction false} Overshoots(t: string, q: Quotas, limit: nat, k: nat, m: nat, more: nat) returns (es: seq<Event>)
    requires limit >= 1 && k >= 1 && m >= 1 && t in q && q[t] == Quota(limit, limit) && more == k * m
    ensures Limited(q, es, t, k, m) && At(Run(q, START, es), t, Usage(limit - 1 + more, limit - 1 + k), 0)
  {
    es := FillsUp(t, q, limit - 1, k, m);
    es := AllStart(q, es, t, k, m, Usage(limit - 1, limit - 1), k);
    es := AllFinish(q, es, t, k, m, Usage(limit - 1, limit - 1), k, more);
  }

  /** Whatever the allowance, some run overshoots both of them by exactly that much. */
  lemma {:induction false} OvershootIsReached(t: string, limit: nat, k: nat, m: nat) returns (q: Quotas, es: seq<Event>)
    requires limit >= 1 && k >= 1 && m >= 1
    ensures t in q && q[t] == Quota(limit, limit) && Limited(q, es, t, k, m)
    ensures UsageOf(Run(q, START, es).platform, t) == Usage(limit - 1 + k * m, limit - 1 + k)
  {
    q := map[t := Quota(limit, limit)];
    es := Overshoots(t, q, limit, k, m, k * m);
  }
}
