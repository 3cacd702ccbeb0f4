/** What a scanner of JSON text sees: two colons in a row occur inside strings only, so a text behind two colons
    can be found again whatever stands in front of them. */
module Lexing {
  import opened JsonText
  import Sequences

  /** Outside a string, and whether the last unit was a colon; inside one; behind a backslash; or not JSON. */
  datatype Lex = Out(colon: bool) | In | Esc | Bad

  function Step(s: Lex, u: Unit): Lex {
    match s
    case Out(colon) =>
      if u == QUOTE then In
      else if u == BACKSLASH || (u == COLON && colon) then Bad
      else Out(u == COLON)
    case In => if u == QUOTE then Out(false) else if u == BACKSLASH then Esc else In
    case Esc => In
    case Bad => Bad
  }

  function Scan(s: Lex, t: Text): Lex
    decreases t
  {
    if t == [] then s else Scan(Step(s, t[0]), t[1..])
  }

  lemma {:induction false} ScanAppend(s: Lex, a: Text, b: Text)
    ensures Scan(s, a + b) == Scan(Scan(s, a), b)
    decreases a
  {
    if a == [] {
      assert a + b == b;
    } else {
      assert (a + b)[1..] == a[1..] + b;
      ScanAppend(Step(s, a[0]), a[1..], b);
    }
  }

  lemma {:induction false} BadStays(t: Text)
    ensures Scan(Bad, t) == Bad
  {
    if t != [] { BadStays(t[1..]); }
  }

  /** The scanner reads the text from outside a string to outside a string. */
  ghost predicate Passes(t: Text) { Scan(Out(false), t).Out? && Scan(Out(true), t).Out? }

  lemma {:induction false} PassesAppend(a: Text, b: Text)
    requires Passes(a) && Passes(b)
    ensures Passes(a + b)
  {
    ScanAppend(Out(false), a, b);
    ScanAppend(Out(true), a, b);
  }

  lemma {:induction false} PassesOne(u: Unit)
    requires u != QUOTE && u != BACKSLASH && u != COLON
    ensures Passes([u])
  {
    assert [u][1..] == [];
  }

  lemma {:induction false} WordPasses(w: Text)
    requires IsWord(w)
    ensures Passes(w)
  {
    if w != [] {
      assert w == [w[0]] + w[1..];
      PassesOne(w[0]);
      WordPasses(w[1..]);
      PassesAppend([w[0]], w[1..]);
    }
  }

  lemma {:induction false} PlainStaysIn(t: Text)
    requires forall i :: 0 <= i < |t| ==> t[i] != QUOTE && t[i] != BACKSLASH
    ensures Scan(In, t) == In
  {
    if t != [] { PlainStaysIn(t[1..]); }
  }

  lemma {:induction false} EscapeStaysIn(u: Unit)
    ensures Scan(In, Escape(u)) == In
  {
    var e := Escape(u);
    if |e| == 1 {
      PlainStaysIn(e);
    } else {
      assert Scan(In, e) == Scan(Esc, e[1..]) == Scan(In, e[1..][1..]);
      assert forall i :: 2 <= i < |e| ==> e[i] != QUOTE && e[i] != BACKSLASH;
      PlainStaysIn(e[1..][1..]);
    }
  }

  lemma {:induction false} EscapedStaysIn(s: Text)
    ensures Scan(In, Escaped(s)) == In
  {
    if s != [] {
      if StartsPair(s) {
        PlainStaysIn([s[0], s[1]]);
        EscapedStaysIn(s[2..]);
        ScanAppend(In, [s[0], s[1]], Escaped(s[2..]));
      } else {
        EscapeStaysIn(s[0]);
        EscapedStaysIn(s[1..]);
        ScanAppend(In, Escape(s[0]), Escaped(s[1..]));
      }
    }
  }

  lemma {:induction false} QuotePasses(s: Text)
    ensures Passes(Quote(s)) && forall c :: Scan(Out(c), Quote(s)) == Out(false)
  {
    EscapedStaysIn(s);
    forall c: bool ensures Scan(Out(c), Quote(s)) == Out(false) {
      ScanAppend(Out(c), [QUOTE] + Escaped(s), [QUOTE]);
      ScanAppend(Out(c), [QUOTE], Escaped(s));
      assert Scan(Out(c), [QUOTE]) == In && Scan(In, [QUOTE]) == Out(false);
    }
  }

  lemma {:induction false} PrintedPasses(t: Tree)
    requires Readable(t)
    ensures Passes(Printed(t))
    decreases t, 1
  {
    match t
    case Atom(w) => WordPasses(w);
    case Quoted(s) => QuotePasses(s);
    case List(items) =>
      ItemsPass(items);
      Enclosed(LBRACKET, PrintedItems(items), RBRACKET);
    case Record(fields) =>
      FieldsPass(fields);
      Enclosed(LBRACE, PrintedFields(fields), RBRACE);
  }

  lemma {:induction false} Enclosed(open: Unit, t: Text, close: Unit)
    requires Passes(t) && open in {LBRACKET, LBRACE} && close in {RBRACKET, RBRACE}
    ensures Passes([open] + t + [close])
  {
    PassesOne(open);
    PassesOne(close);
    PassesAppend([open], t);
    PassesAppend([open] + t, [close]);
  }

  lemma {:induction false} ItemsPass(ts: seq<Tree>)
    requires forall x :: x in ts ==> Readable(x)
    ensures Passes(PrintedItems(ts))
    decreases ts, 0
  {
    if ts != [] {
      PrintedPasses(ts[0]);
      if |ts| == 1 {
        assert Printed(ts[0]) + [] == Printed(ts[0]);
      } else {
        ItemsPass(ts[1..]);
        PassesOne(COMMA);
        PassesAppend([COMMA], PrintedItems(ts[1..]));
        PassesAppend(Printed(ts[0]), [COMMA] + PrintedItems(ts[1..]));
      }
    }
  }

  lemma {:induction false} FieldsPass(fs: seq<Entry<Tree>>)
    requires forall f :: f in fs ==> Readable(f.value)
    ensures Passes(PrintedFields(fs))
    decreases fs, 0
  {
    if fs != [] {
      var more := if |fs| == 1 then [] else [COMMA] + PrintedFields(fs[1..]);
      PrintedPasses(fs[0].value);
      if |fs| > 1 {
        FieldsPass(fs[1..]);
        PassesOne(COMMA);
        PassesAppend([COMMA], PrintedFields(fs[1..]));
      }
      PassesAppend(Printed(fs[0].value), more);
      FieldPasses(fs[0].key, Printed(fs[0].value) + more);
    }
  }

  lemma {:induction false} FieldPasses(key: Text, rest: Text)
    requires Passes(rest)
    ensures Passes(Quote(key) + ([COLON] + rest))
  {
    QuotePasses(key);
    forall c: bool ensures Scan(Out(c), Quote(key) + ([COLON] + rest)).Out? {
      ScanAppend(Out(c), Quote(key), [COLON] + rest);
      assert ([COLON] + rest)[1..] == rest;
    }
  }

  // ---- Two colons ----

  /** A scanner that is inside a string exactly where it should be outside never gets right again. */
  ghost predicate Crossed(right: Lex, wrong: Lex) {
    || wrong.Bad?
    || (right.Out? && wrong.In?)
    || (right.In? && wrong.Out?)
  }

  lemma {:induction false} StaysCrossed(right: Lex, wrong: Lex, t: Text)
    requires Crossed(right, wrong) && Scan(right, t) != Bad
    ensures Crossed(Scan(right, t), Scan(wrong, t))
    decreases t
  {
    if t != [] {
      if Step(right, t[0]) == Bad { BadStays(t[1..]); }
      StaysCrossed(Step(right, t[0]), Step(wrong, t[0]), t[1..]);
    }
  }

  /** A text that passes does not end in two colons and a text that passes. */
  lemma {:induction false} NoSplitAtColons(mid: Text, t: Text)
    requires Passes(t)
    ensures !Passes(mid + ([COLON, COLON] + t)) && !Passes([COLON] + t)
  {
    var s := Scan(Out(true), mid);
    ScanAppend(Out(true), mid, [COLON, COLON] + t);
    ScanAppend(s, [COLON, COLON], t);
    BadStays(t);
    TwoColons(s);
    if s.In? || s.Esc? { StaysCrossed(Out(true), In, t); }
    ScanAppend(Out(true), [COLON], t);
    assert Scan(Out(true), [COLON]) == Bad;
  }

  lemma {:induction false} TwoColons(s: Lex)
    ensures Scan(s, [COLON, COLON]) == if s.In? || s.Esc? then In else Bad
  {
    assert [COLON, COLON][1..] == [COLON] && [COLON][1..] == [];
    assert Scan(s, [COLON, COLON]) == Scan(Step(s, COLON), [COLON]) == Step(Step(s, COLON), COLON);
  }

  /** Where the last part starts is decided by the text: in front of it anything may stand, colons too. */
  lemma {:induction false} ColonsSplitOnce(a: Text, x: Text, b: Text, y: Text)
    requires Passes(x) && Passes(y) && a + ([COLON, COLON] + x) == b + ([COLON, COLON] + y)
    ensures a == b && x == y
  {
    if |a| < |b| { ShorterFront(a, x, b, y); }
    if |b| < |a| { ShorterFront(b, y, a, x); }
    var s, t := a + ([COLON, COLON] + x), b + ([COLON, COLON] + y);
    assert s[..|a|] == a && t[..|b|] == b;
    assert s[|a| + 2..] == x && t[|b| + 2..] == y;
  }

  lemma {:induction false} ShorterFront(a: Text, x: Text, b: Text, y: Text)
    requires Passes(x) && Passes(y) && |a| < |b|
    ensures a + ([COLON, COLON] + x) != b + ([COLON, COLON] + y)
  {
    var s, t := a + ([COLON, COLON] + x), b + ([COLON, COLON] + y);
    if s == t {
      var d := |b| - |a|;
      assert s[|a|..] == [COLON, COLON] + x;
      assert t[|a|..] == b[|a|..] + ([COLON, COLON] + y);
      var rest := b[|a|..] + ([COLON, COLON] + y);
      assert rest[2..] == x;
      if d == 1 {
        assert rest[2..] == [COLON] + y;
        NoSplitAtColons([], y);
      } else {
        var mid := b[|a| + 2..];
        assert rest[2..] == mid + ([COLON, COLON] + y);
        NoSplitAtColons(mid, y);
      }
    }
  }
}
