/** Numbers in print: `String(n)` and `padStart`. */
module Digits {
  function Digit(d: nat): char
    requires d < 10
  {
    "0123456789"[d]
  }

  function DigitValue(c: char): nat { if '0' <= c <= '9' then (c - '0') as nat else 0 }

  function Printed(n: nat): (s: string)
    ensures s != []
  {
    if n < 10 then [Digit(n)] else Printed(n / 10) + [Digit(n % 10)]
  }

  function Value(s: string): nat {
    if s == [] then 0 else 10 * Value(s[..|s| - 1]) + DigitValue(s[|s| - 1])
  }

  lemma {:induction false} ValueMore(s: string, c: char)
    ensures Value(s + [c]) == 10 * Value(s) + DigitValue(c)
  {
    assert (s + [c])[..|s|] == s;
  }

  lemma {:induction false} DigitMeans(d: nat)
    requires d < 10
    ensures DigitValue(Digit(d)) == d
  {}

  lemma {:induction false} PrintedValue(n: nat)
    ensures Value(Printed(n)) == n
  {
    DigitMeans(n % 10);
    if n < 10 {
      ValueMore([], Digit(n));
      assert [] + [Digit(n)] == [Digit(n)];
    } else {
      PrintedValue(n / 10);
      ValueMore(Printed(n / 10), Digit(n % 10));
    }
  }

  /** No two numbers print alike. */
  lemma {:induction false} PrintedInjective(m: nat, n: nat)
    requires Printed(m) == Printed(n)
    ensures m == n
  {
    PrintedValue(m);
    PrintedValue(n);
  }

  /** `s.padStart(width, "0")` */
  function PadStart(s: string, width: nat): string
    decreases width - |s|
  {
    if |s| >= width then s else PadStart("0" + s, width)
  }

  lemma {:induction false} ZeroInFront(s: string)
    ensures Value("0" + s) == Value(s)
  {
    if s == [] {
      assert ("0" + s)[..0] == [];
    } else {
      ZeroInFront(s[..|s| - 1]);
      assert ("0" + s)[..|s|] == "0" + s[..|s| - 1];
    }
  }

  lemma {:induction false} PaddedValue(s: string, width: nat)
    ensures Value(PadStart(s, width)) == Value(s)
    decreases width - |s|
  {
    if |s| < width {
      ZeroInFront(s);
      PaddedValue("0" + s, width);
    }
  }
}
