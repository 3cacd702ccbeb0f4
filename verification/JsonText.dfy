/** JSON text: how trees are printed, and that no two trees print alike. */
module JsonText {
  import Sequences

  /** A UTF-16 code unit. */
  type Unit = u: int | 0 <= u < 0x1_0000

  type Text = seq<Unit>

  const QUOTE: Unit := 34
  const COMMA: Unit := 44
  const COLON: Unit := 58
  const LBRACKET: Unit := 91
  const BACKSLASH: Unit := 92
  const RBRACKET: Unit := 93
  const LBRACE: Unit := 123
  const RBRACE: Unit := 125

  datatype Entry<V> = Entry(key: Text, value: V)

  /** What a printer sees: unquoted words, strings, lists and records whose fields have an order. */
  datatype Tree =
    | Atom(word: Text)
    | Quoted(s: Text)
    | List(items: seq<Tree>)
    | Record(fields: seq<Entry<Tree>>)

  // ---- Strings (section 7 of RFC 8259; lone surrogates as in ECMAScript's QuoteJSONString) ----

  predicate HighSurrogate(u: Unit) { 0xD800 <= u <= 0xDBFF }

  predicate LowSurrogate(u: Unit) { 0xDC00 <= u <= 0xDFFF }

  function Hex(d: int): Unit
    requires 0 <= d < 16
  {
    if d < 10 then 48 + d else 87 + d
  }

  function Escape(u: Unit): Text {
    if u == QUOTE || u == BACKSLASH then [BACKSLASH, u]
    else if u == 8 then [BACKSLASH, 98]
    else if u == 9 then [BACKSLASH, 116]
    else if u == 10 then [BACKSLASH, 110]
    else if u == 12 then [BACKSLASH, 102]
    else if u == 13 then [BACKSLASH, 114]
    else if u < 32 || HighSurrogate(u) || LowSurrogate(u) then
      [BACKSLASH, 117, Hex(u / 16 / 16 / 16), Hex(u / 16 / 16 % 16), Hex(u / 16 % 16), Hex(u % 16)]
    else [u]
  }

  predicate StartsPair(s: Text) { |s| >= 2 && HighSurrogate(s[0]) && LowSurrogate(s[1]) }

  function Escaped(s: Text): Text {
    if s == [] then []
    else if StartsPair(s) then [s[0], s[1]] + Escaped(s[2..])
    else Escape(s[0]) + Escaped(s[1..])
  }

  function Quote(s: Text): Text { [QUOTE] + Escaped(s) + [QUOTE] }

  lemma {:induction false} EscapeIsPrefixCode(u: Unit, v: Unit, r: Text, q: Text)
    requires Escape(u) + r == Escape(v) + q
    ensures u == v && r == q
  {
    var a, b := Escape(u) + r, Escape(v) + q;
    assert a[0] == Escape(u)[0] && b[0] == Escape(v)[0];
    if |Escape(u)| > 1 {
      assert a[1] == Escape(u)[1] && b[1] == Escape(v)[1];
      if |Escape(u)| > 2 {
        assert forall i :: 2 <= i < 6 ==> a[i] == Escape(u)[i] && b[i] == Escape(v)[i];
        assert a[2] == b[2] && a[3] == b[3] && a[4] == b[4] && a[5] == b[5];
        HexDigits(u, v);
      }
    }
    assert Escape(u) == Escape(v);
    assert r == a[|Escape(u)|..] && q == b[|Escape(v)|..];
  }

  lemma {:induction false} HexDigits(u: Unit, v: Unit)
    requires Hex(u / 16 / 16 / 16) == Hex(v / 16 / 16 / 16) && Hex(u / 16 / 16 % 16) == Hex(v / 16 / 16 % 16)
    requires Hex(u / 16 % 16) == Hex(v / 16 % 16) && Hex(u % 16) == Hex(v % 16)
    ensures u == v
  {
    SameDigit(u / 16 / 16, v / 16 / 16);
    SameDigit(u / 16, v / 16);
    SameDigit(u, v);
  }

  lemma {:induction false} SameDigit(a: nat, b: nat)
    requires Hex(a % 16) == Hex(b % 16)
    ensures a / 16 == b / 16 ==> a == b
  {
    assert a == 16 * (a / 16) + a % 16 && b == 16 * (b / 16) + b % 16;
  }

  lemma {:induction false} EscapedHead(s: Text)
    requires s != []
    ensures Escaped(s) != [] && Escaped(s)[0] != QUOTE
    ensures StartsPair(s) <==> HighSurrogate(Escaped(s)[0])
    ensures StartsPair(s) ==> |Escaped(s)| >= 2 && Escaped(s)[0] == s[0] && Escaped(s)[1] == s[1]
  {}

  /** A quoted string can be read back, whatever follows it. */
  lemma {:induction false} EscapedInjective(s: Text, t: Text, r: Text, q: Text)
    requires Escaped(s) + ([QUOTE] + r) == Escaped(t) + ([QUOTE] + q)
    ensures s == t && r == q
  {
    var a, b := Escaped(s) + ([QUOTE] + r), Escaped(t) + ([QUOTE] + q);
    if s != [] { EscapedHead(s); }
    if t != [] { EscapedHead(t); }
    assert a[0] == if s == [] then QUOTE else Escaped(s)[0];
    assert b[0] == if t == [] then QUOTE else Escaped(t)[0];
    if s == [] {
      assert a[1..] == r && b[1..] == q;
    } else if StartsPair(s) {
      EscapedPair(s, t, r, q);
      EscapedInjective(s[2..], t[2..], r, q);
      assert s == [s[0], s[1]] + s[2..] && t == [t[0], t[1]] + t[2..];
    } else {
      var x, y := Escaped(s[1..]) + ([QUOTE] + r), Escaped(t[1..]) + ([QUOTE] + q);
      PlainStart(s, [QUOTE] + r);
      PlainStart(t, [QUOTE] + q);
      EscapeIsPrefixCode(s[0], t[0], x, y);
      EscapedInjective(s[1..], t[1..], r, q);
      assert s == [s[0]] + s[1..] && t == [t[0]] + t[1..];
    }
  }

  lemma {:induction false} PlainStart(s: Text, r: Text)
    requires s != [] && !StartsPair(s)
    ensures Escaped(s) + r == Escape(s[0]) + (Escaped(s[1..]) + r)
  {
    Sequences.Assoc(Escape(s[0]), Escaped(s[1..]), r);
  }

  lemma {:induction false} EscapedPair(s: Text, t: Text, r: Text, q: Text)
    requires StartsPair(s) && StartsPair(t)
    requires Escaped(s) + ([QUOTE] + r) == Escaped(t) + ([QUOTE] + q)
    ensures s[0] == t[0] && s[1] == t[1]
    ensures Escaped(s[2..]) + ([QUOTE] + r) == Escaped(t[2..]) + ([QUOTE] + q)
  {
    var x, y := Escaped(s[2..]) + ([QUOTE] + r), Escaped(t[2..]) + ([QUOTE] + q);
    Sequences.Assoc([s[0], s[1]], Escaped(s[2..]), [QUOTE] + r);
    Sequences.Assoc([t[0], t[1]], Escaped(t[2..]), [QUOTE] + q);
    SameLengthParts([s[0], s[1]], [t[0], t[1]], x, y);
  }

  lemma {:induction false} QuoteOpens(s: Text, r: Text)
    ensures Quote(s) + r != [] && (Quote(s) + r)[1..] == Escaped(s) + ([QUOTE] + r)
  {}

  lemma {:induction false} QuoteInjective(s: Text, t: Text, r: Text, q: Text)
    requires Quote(s) + r == Quote(t) + q
    ensures s == t && r == q
  {
    QuoteOpens(s, r);
    QuoteOpens(t, q);
    EscapedInjective(s, t, r, q);
  }

  // ---- Trees ----

  function Printed(t: Tree): Text {
    match t
    case Atom(word) => word
    case Quoted(s) => Quote(s)
    case List(items) => [LBRACKET] + PrintedItems(items) + [RBRACKET]
    case Record(fields) => [LBRACE] + PrintedFields(fields) + [RBRACE]
  }

  function PrintedItems(ts: seq<Tree>): Text {
    if ts == [] then []
    else Printed(ts[0]) + if |ts| == 1 then [] else [COMMA] + PrintedItems(ts[1..])
  }

  function PrintedFields(fs: seq<Entry<Tree>>): Text {
    if fs == [] then [] else
    var more := if |fs| == 1 then [] else [COMMA] + PrintedFields(fs[1..]);
    Quote(fs[0].key) + ([COLON] + (Printed(fs[0].value) + more))
  }

  /** Letters, digits and the signs of numbers: what unquoted words are made of. */
  predicate WordUnit(u: Unit) {
    97 <= u <= 122 || 48 <= u <= 57 || u == 43 || u == 45 || u == 46
  }

  predicate IsWord(w: Text) { forall i :: 0 <= i < |w| ==> WordUnit(w[i]) }

  /** A list holding nothing but one empty word would print like the empty list. */
  ghost predicate Readable(t: Tree) {
    match t
    case Atom(word) => IsWord(word)
    case Quoted(_) => true
    case List(items) => items != [Atom([])] && forall x :: x in items ==> Readable(x)
    case Record(fields) => forall f :: f in fields ==> Readable(f.value)
  }

  /** What may follow a value. */
  predicate Closes(r: Text) { r == [] || r[0] == COMMA || r[0] == RBRACKET || r[0] == RBRACE }

  /** How far the word at the start of a text reaches. */
  function WordLength(p: Text): nat {
    if p != [] && WordUnit(p[0]) then 1 + WordLength(p[1..]) else 0
  }

  lemma {:induction false} WordReaches(w: Text, r: Text)
    requires IsWord(w) && Closes(r)
    ensures WordLength(w + r) == |w|
  {
    if w == [] {
      assert w + r == r;
    } else {
      assert (w + r)[0] == w[0] && (w + r)[1..] == w[1..] + r;
      WordReaches(w[1..], r);
    }
  }

  lemma {:induction false} WordEnds(w: Text, x: Text, r: Text, q: Text)
    requires IsWord(w) && IsWord(x) && Closes(r) && Closes(q) && w + r == x + q
    ensures w == x && r == q
  {
    WordReaches(w, r);
    WordReaches(x, q);
    SameLengthParts(w, x, r, q);
  }

  lemma {:induction false} SameLengthParts(a: Text, b: Text, r: Text, q: Text)
    requires a + r == b + q && |a| == |b|
    ensures a == b && r == q
  {
    assert a == (a + r)[..|a|] && b == (b + q)[..|b|];
    assert r == (a + r)[|a|..] && q == (b + q)[|b|..];
  }

  /** The first unit tells which kind of tree follows. */
  function Sort(t: Tree): nat {
    match t case Atom(_) => 0 case Quoted(_) => 1 case List(_) => 2 case Record(_) => 3
  }

  function SortOf(p: Text): nat {
    if p == [] then 0 else if p[0] == QUOTE then 1 else if p[0] == LBRACKET then 2 else if p[0] == LBRACE then 3 else 0
  }

  lemma {:induction false} HeadTells(t: Tree, r: Text)
    requires Readable(t) && Closes(r)
    ensures SortOf(Printed(t) + r) == Sort(t)
  {
    match t
    case Atom(word) =>
      if word == [] { assert Printed(t) + r == r; } else { assert (word + r)[0] == word[0]; }
    case Quoted(s) => assert (Printed(t) + r)[0] == QUOTE;
    case List(_) => assert (Printed(t) + r)[0] == LBRACKET;
    case Record(_) => assert (Printed(t) + r)[0] == LBRACE;
  }

  /** No two readable trees print alike, even with more text behind them. */
  lemma {:induction false} PrintedInjective(t: Tree, u: Tree, r: Text, q: Text)
    requires Readable(t) && Readable(u) && Closes(r) && Closes(q)
    requires Printed(t) + r == Printed(u) + q
    ensures t == u && r == q
    decreases t, 1
  {
    HeadTells(t, r);
    HeadTells(u, q);
    match t
    case Atom(w) => WordEnds(w, u.word, r, q);
    case Quoted(s) => QuoteInjective(s, u.s, r, q);
    case List(items) =>
      Unwrap(LBRACKET, PrintedItems(items), PrintedItems(u.items), RBRACKET, r, q);
      if items == [] || u.items == [] {
        EmptyItems(items, u.items, r, q);
      } else {
        ItemsInjective(items, u.items, r, q);
      }
    case Record(fields) =>
      Unwrap(LBRACE, PrintedFields(fields), PrintedFields(u.fields), RBRACE, r, q);
      FieldsInjective(fields, u.fields, r, q);
  }

  lemma {:induction false} Unwrap(open: Unit, a: Text, b: Text, close: Unit, r: Text, q: Text)
    requires [open] + a + [close] + r == [open] + b + [close] + q
    ensures a + ([close] + r) == b + ([close] + q)
  {
    assert ([open] + a + [close] + r)[1..] == a + ([close] + r);
    assert ([open] + b + [close] + q)[1..] == b + ([close] + q);
  }

  lemma {:induction false} EmptyItems(ts: seq<Tree>, us: seq<Tree>, r: Text, q: Text)
    requires ts == [] || us == []
    requires Readable(List(ts)) && Readable(List(us))
    requires PrintedItems(ts) + ([RBRACKET] + r) == PrintedItems(us) + ([RBRACKET] + q)
    ensures ts == us && r == q
  {
    if ts != [] { NotEmptyItems(ts, r); }
    if us != [] { NotEmptyItems(us, q); }
    assert PrintedItems([]) + ([RBRACKET] + r) == [RBRACKET] + r;
    assert PrintedItems([]) + ([RBRACKET] + q) == [RBRACKET] + q;
    assert ([RBRACKET] + r)[0] == RBRACKET && ([RBRACKET] + q)[0] == RBRACKET;
    assert ([RBRACKET] + r)[1..] == r && ([RBRACKET] + q)[1..] == q;
  }

  lemma {:induction false} NotEmptyItems(ts: seq<Tree>, r: Text)
    requires ts != [] && Readable(List(ts))
    ensures (PrintedItems(ts) + ([RBRACKET] + r))[0] != RBRACKET
  {
    var p := PrintedItems(ts) + ([RBRACKET] + r);
    assert Readable(ts[0]);
    if ts[0] == Atom([]) {
      assert PrintedItems(ts) == [COMMA] + PrintedItems(ts[1..]);
      assert p[0] == COMMA;
    } else {
      match ts[0]
      case Atom(w) => assert p[0] == w[0];
      case Quoted(_) => assert p[0] == QUOTE;
      case List(_) => assert p[0] == LBRACKET;
      case Record(_) => assert p[0] == LBRACE;
    }
  }

  /** What follows the first element of a list or record, up to the closing sign and beyond. */
  function Rest(more: Text, last: bool, close: Unit, r: Text): Text {
    if last then [close] + r else [COMMA] + more + ([close] + r)
  }

  lemma {:induction false} RestInjective(more: Text, last: bool, more': Text, last': bool, close: Unit, r: Text, q: Text)
    requires close == RBRACKET || close == RBRACE
    requires Rest(more, last, close, r) == Rest(more', last', close, q)
    ensures last == last'
    ensures last ==> r == q
    ensures !last ==> more + ([close] + r) == more' + ([close] + q)
  {
    var a, b := Rest(more, last, close, r), Rest(more', last', close, q);
    assert a[0] == (if last then close else COMMA) && b[0] == (if last' then close else COMMA);
    assert last ==> a[1..] == r && b[1..] == q;
    assert !last ==> a[1..] == more + ([close] + r) && b[1..] == more' + ([close] + q);
  }

  lemma {:induction false} ItemSplit(ts: seq<Tree>, r: Text)
    requires ts != []
    ensures PrintedItems(ts) + ([RBRACKET] + r) == Printed(ts[0]) + Rest(PrintedItems(ts[1..]), |ts| == 1, RBRACKET, r)
  {
    var more := if |ts| == 1 then [] else [COMMA] + PrintedItems(ts[1..]);
    assert PrintedItems(ts) == Printed(ts[0]) + more;
    assert more + ([RBRACKET] + r) == Rest(PrintedItems(ts[1..]), |ts| == 1, RBRACKET, r);
    Sequences.Assoc(Printed(ts[0]), more, [RBRACKET] + r);
  }

  lemma {:induction false} ItemsInjective(ts: seq<Tree>, us: seq<Tree>, r: Text, q: Text)
    requires ts != [] && us != []
    requires (forall x :: x in ts ==> Readable(x)) && (forall x :: x in us ==> Readable(x))
    requires PrintedItems(ts) + ([RBRACKET] + r) == PrintedItems(us) + ([RBRACKET] + q)
    ensures ts == us && r == q
    decreases ts, 0
  {
    var x := Rest(PrintedItems(ts[1..]), |ts| == 1, RBRACKET, r);
    var y := Rest(PrintedItems(us[1..]), |us| == 1, RBRACKET, q);
    ItemSplit(ts, r);
    ItemSplit(us, q);
    PrintedInjective(ts[0], us[0], x, y);
    RestInjective(PrintedItems(ts[1..]), |ts| == 1, PrintedItems(us[1..]), |us| == 1, RBRACKET, r, q);
    if |ts| > 1 {
      ItemsInjective(ts[1..], us[1..], r, q);
    }
    assert ts == [ts[0]] + ts[1..] && us == [us[0]] + us[1..];
  }

  lemma {:induction false} FieldsInjective(fs: seq<Entry<Tree>>, gs: seq<Entry<Tree>>, r: Text, q: Text)
    requires (forall f :: f in fs ==> Readable(f.value)) && (forall g :: g in gs ==> Readable(g.value))
    requires PrintedFields(fs) + ([RBRACE] + r) == PrintedFields(gs) + ([RBRACE] + q)
    ensures fs == gs && r == q
    decreases fs, 0
  {
    var a, b := PrintedFields(fs) + ([RBRACE] + r), PrintedFields(gs) + ([RBRACE] + q);
    assert fs == [] ==> a == [RBRACE] + r;
    assert gs == [] ==> b == [RBRACE] + q;
    if fs == [] || gs == [] {
      assert a[0] == if fs == [] then RBRACE else QUOTE;
      assert b[0] == if gs == [] then RBRACE else QUOTE;
      assert a[1..] == r && b[1..] == q;
    } else {
      FirstField(fs, gs, r, q);
      var x := Rest(PrintedFields(fs[1..]), |fs| == 1, RBRACE, r);
      var y := Rest(PrintedFields(gs[1..]), |gs| == 1, RBRACE, q);
      PrintedInjective(fs[0].value, gs[0].value, x, y);
      RestInjective(PrintedFields(fs[1..]), |fs| == 1, PrintedFields(gs[1..]), |gs| == 1, RBRACE, r, q);
      if |fs| > 1 {
        FieldsInjective(fs[1..], gs[1..], r, q);
      }
      assert fs == [fs[0]] + fs[1..] && gs == [gs[0]] + gs[1..];
    }
  }

  lemma {:induction false} FirstField(fs: seq<Entry<Tree>>, gs: seq<Entry<Tree>>, r: Text, q: Text)
    requires fs != [] && gs != []
    requires PrintedFields(fs) + ([RBRACE] + r) == PrintedFields(gs) + ([RBRACE] + q)
    ensures fs[0].key == gs[0].key
    ensures Printed(fs[0].value) + Rest(PrintedFields(fs[1..]), |fs| == 1, RBRACE, r)
      == Printed(gs[0].value) + Rest(PrintedFields(gs[1..]), |gs| == 1, RBRACE, q)
  {
    var x := Printed(fs[0].value) + Rest(PrintedFields(fs[1..]), |fs| == 1, RBRACE, r);
    var y := Printed(gs[0].value) + Rest(PrintedFields(gs[1..]), |gs| == 1, RBRACE, q);
    FieldSplit(fs, r);
    FieldSplit(gs, q);
    QuoteInjective(fs[0].key, gs[0].key, [COLON] + x, [COLON] + y);
    assert ([COLON] + x)[1..] == x && ([COLON] + y)[1..] == y;
  }

  lemma {:induction false} FieldSplit(fs: seq<Entry<Tree>>, r: Text)
    requires fs != []
    ensures PrintedFields(fs) + ([RBRACE] + r) == Quote(fs[0].key)
      + ([COLON] + (Printed(fs[0].value) + Rest(PrintedFields(fs[1..]), |fs| == 1, RBRACE, r)))
  {
    var k, v := Quote(fs[0].key), Printed(fs[0].value);
    var more := if |fs| == 1 then [] else [COMMA] + PrintedFields(fs[1..]);
    assert more + ([RBRACE] + r) == Rest(PrintedFields(fs[1..]), |fs| == 1, RBRACE, r);
    assert k + ([COLON] + (v + more)) + ([RBRACE] + r) == k + ([COLON] + (v + (more + ([RBRACE] + r))));
  }
}
