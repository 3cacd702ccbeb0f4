/** Token accounting: what one instance adds up, and how the totals of a tree of instances fit together. */
module Accounting {
  import opened Prelude

  /** What one response reports. */
  datatype Usage = Usage(prompt: int, completion: int, total: int, reasoning: Option<int>, cached: Option<int>)

  /** An instance's running totals: tokens, usage-reporting calls, and trips round its loop. */
  datatype Tally = Tally(prompt: int, completion: int, total: int, reasoning: int, cached: int, calls: int, iterations: int)

  const ZERO := Tally(0, 0, 0, 0, 0, 0, 0)

  function OrZero(o: Option<int>): int { if o.Some? then o.value else 0 }

  /** `addUsage` */
  function Add(t: Tally, u: Option<Usage>): Tally {
    match u
    case None => t
    case Some(v) =>
      Tally(t.prompt + v.prompt, t.completion + v.completion, t.total + v.total,
            t.reasoning + OrZero(v.reasoning), t.cached + OrZero(v.cached), t.calls + 1, t.iterations)
  }

  /** `absorbSubagentUsage` */
  function Plus(a: Tally, b: Tally): Tally {
    Tally(a.prompt + b.prompt, a.completion + b.completion, a.total + b.total,
          a.reasoning + b.reasoning, a.cached + b.cached, a.calls + b.calls, a.iterations + b.iterations)
  }

  function Minus(a: Tally, b: Tally): Tally {
    Tally(a.prompt - b.prompt, a.completion - b.completion, a.total - b.total,
          a.reasoning - b.reasoning, a.cached - b.cached, a.calls - b.calls, a.iterations - b.iterations)
  }

  function Trip(t: Tally): Tally { t.(iterations := t.iterations + 1) }

  /** Counting the same thing on both sides leaves the difference as it was. */
  lemma {:induction false} SameOnBoth(w: Tally, t: Tally, u: Option<Usage>)
    ensures Minus(Add(w, u), Add(t, u)) == Minus(w, t)
    ensures Minus(Trip(w), Trip(t)) == Minus(w, t)
  {}

  /** A child that starts from nothing and accounts for all that is spent meanwhile, once absorbed. */
  lemma {:induction false} ChildAbsorbed(before: Tally, after: Tally, child: Tally, parent: Tally)
    requires Minus(after, child) == Minus(before, ZERO)
    ensures Minus(after, Plus(parent, child)) == Minus(before, parent)
  {}
}
