/** The circuit breaker in front of Redis: after `threshold` consecutive failures no command is sent for
    `breakerMs`. */
module Breaker {
  import opened Prelude
  import opened Arithmetic

  datatype State = State(fails: nat, openUntil: int)

  /** The breaker's settings. The defaults are 3 failures and 30000 ms. */
  datatype Config = Config(threshold: nat, breakerMs: int) {
    ghost predicate Valid() { threshold >= 1 && breakerMs >= 1 }
  }

  /** One `get` or `set`: whether the socket is ready, when it starts, how it ends and when. */
  datatype Command = Command(ready: bool, start: int, ok: bool, end: int)

  predicate Usable(s: State, ready: bool, now: int) { ready && now >= s.openUntil }

  function Succeeded(s: State): State { s.(fails := 0) }

  function Failed(c: Config, s: State, now: int): State {
    if s.fails + 1 >= c.threshold then State(0, now + c.breakerMs) else s.(fails := s.fails + 1)
  }

  function Next(c: Config, s: State, x: Command): State {
    if !Usable(s, x.ready, x.start) then s else if x.ok then Succeeded(s) else Failed(c, s, x.end)
  }

  class RedisBackend {
    var fails: nat
    var openUntil: int
    const config: Config

    constructor (config: Config)
      requires config.Valid()
      ensures this.config == config && St() == State(0, 0)
    {
      this.config := config;
      fails := 0;
      openUntil := 0;
    }

    function St(): State reads this { State(fails, openUntil) }

    ghost predicate Valid() reads this { config.Valid() && fails < config.threshold }

    method Ok()
      requires Valid()
      modifies this
      ensures Valid() && St() == Succeeded(old(St()))
    {
      fails := 0;
    }

    method Bad(now: int)
      requires Valid()
      modifies this
      ensures Valid() && St() == Failed(config, old(St()), now)
    {
      fails := fails + 1;
      if fails >= config.threshold {
        openUntil := now + config.breakerMs;
        fails := 0;
      }
    }

    /** One guarded command; `sent` tells whether it reached the server. */
    method Guarded(x: Command) returns (sent: bool)
      requires Valid()
      modifies this
      ensures Valid() && St() == Next(config, old(St()), x)
      ensures sent == Usable(old(St()), x.ready, x.start)
      ensures old(openUntil) > x.start ==> !sent
    {
      if !(x.ready && x.start >= openUntil) { return false; }
      if x.ok { Ok(); } else { Bad(x.end); }
      return true;
    }
  }

  /** How many of the commands are sent at a time in [from, to]. */
  function SentWithin(c: Config, s: State, xs: seq<Command>, from: int, to: int): nat
    decreases xs
  {
    if xs == [] then 0 else
    var here := if Usable(s, xs[0].ready, xs[0].start) && from <= xs[0].start <= to then 1 else 0;
    here + SentWithin(c, Next(c, s, xs[0]), xs[1..], from, to)
  }

  /** One after another: each ends before the next starts. */
  ghost predicate Sequential(xs: seq<Command>) {
    && (forall i :: 0 <= i < |xs| ==> xs[i].start <= xs[i].end)
    && (forall i, j :: 0 <= i < j < |xs| ==> xs[i].end <= xs[j].start)
  }

  ghost predicate AllFail(xs: seq<Command>) {
    forall i :: 0 <= i < |xs| ==> !xs[i].ok
  }

  /** `fails` stays below the threshold in every reachable state, commands ending well or badly in any
      order. */
  lemma {:induction false} FailsBelowThreshold(c: Config, s: State, xs: seq<Command>)
    requires c.Valid() && s.fails < c.threshold
    ensures FinalState(c, s, xs).fails < c.threshold
    decreases xs
  {
    if xs != [] {
      FailsBelowThreshold(c, Next(c, s, xs[0]), xs[1..]);
    }
  }

  function FinalState(c: Config, s: State, xs: seq<Command>): State
    decreases xs
  {
    if xs == [] then s else FinalState(c, Next(c, s, xs[0]), xs[1..])
  }

  /** How many commands a failing server can see from `t` on, up to and including `to`, when `left` more
      failures open the breaker. */
  function Allowance(c: Config, left: nat, t: int, to: int): int
    requires c.Valid()
  {
    if t > to then 0 else left + c.threshold * ((to - t) / c.breakerMs)
  }

  lemma {:induction false} AllowanceShrinks(c: Config, left: nat, t: int, u: int, to: int)
    requires c.Valid() && t <= u
    ensures Allowance(c, left, u, to) <= Allowance(c, left, t, to)
  {
    if t <= to {
      DivMonotone(0, to - t, c.breakerMs);
      MulMonotone(c.threshold, 0, (to - t) / c.breakerMs);
    }
    if u <= to {
      DivMonotone(to - u, to - t, c.breakerMs);
      MulMonotone(c.threshold, (to - u) / c.breakerMs, (to - t) / c.breakerMs);
    }
  }

  /** A round of `threshold` failures costs `breakerMs`. */
  lemma {:induction false} AllowanceNextRound(c: Config, t: int, to: int)
    requires c.Valid() && t <= to
    ensures 1 + Allowance(c, c.threshold, t + c.breakerMs, to) <= Allowance(c, 1, t, to)
  {
    var rest := to - t - c.breakerMs;
    if rest >= 0 {
      DivStep(rest, c.breakerMs);
      assert c.threshold * (rest / c.breakerMs + 1) == c.threshold * (rest / c.breakerMs) + c.threshold;
    } else {
      DivMonotone(0, to - t, c.breakerMs);
      MulMonotone(c.threshold, 0, (to - t) / c.breakerMs);
    }
  }

  /** The commands that start in the window, from a state in which none is sent before `t`. */
  lemma {:induction false} SentFrom(c: Config, s: State, xs: seq<Command>, from: int, to: int, t: int)
    requires c.Valid() && s.fails < c.threshold && Sequential(xs) && AllFail(xs)
    requires forall i :: 0 <= i < |xs| ==> t <= xs[i].start || xs[i].start < s.openUntil
    ensures SentWithin(c, s, xs, from, to) <= Allowance(c, c.threshold - s.fails, t, to)
    decreases xs
  {
    var left := c.threshold - s.fails;
    if xs == [] {
      AllowanceShrinks(c, left, t, Max(t, to + 1), to);
    } else {
      var x := xs[0];
      var n := Next(c, s, x);
      if !Usable(s, x.ready, x.start) {
        SentFrom(c, n, xs[1..], from, to, t);
      } else {
        AllowanceShrinks(c, left, t, x.start, to);
        if n.fails > 0 {
          SentFrom(c, n, xs[1..], from, to, x.start);
        } else {
          SentFrom(c, n, xs[1..], from, to, x.start + c.breakerMs);
          if x.start <= to { AllowanceNextRound(c, x.start, to); }
        }
      }
    }
  }

  /** While the server fails every command, any interval of length `to - from` sees at most
      `threshold * (floor((to - from) / breakerMs) + 1)` of them, whatever happened before. */
  lemma {:induction false} FailingServerIsSpared(c: Config, s: State, xs: seq<Command>, from: int, to: int)
    requires c.Valid() && s.fails < c.threshold && Sequential(xs) && AllFail(xs) && from <= to
    ensures SentWithin(c, s, xs, from, to) <= c.threshold * ((to - from) / c.breakerMs + 1)
    decreases xs
  {
    if xs != [] && xs[0].start < from {
      FailingServerIsSpared(c, Next(c, s, xs[0]), xs[1..], from, to);
    } else {
      SentFrom(c, s, xs, from, to, from);
      var q := (to - from) / c.breakerMs;
      assert c.threshold * (q + 1) == c.threshold * q + c.threshold;
      assert xs == [] ==> q >= 0 && c.threshold * (q + 1) >= 0;
    }
  }
}
