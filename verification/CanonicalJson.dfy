/** Canonical JSON: two printers that ignore the order of keys, and when their outputs agree. */
module CanonicalJson {
  import opened Prelude
  import opened JsonText

  /** A JavaScript value. A number is given by the word `JSON.stringify` prints for it. */
  datatype Json =
    | Undefined
    | Null
    | Bool(b: bool)
    | Num(word: Text)
    | Str(s: Text)
    | Arr(items: seq<Json>)
    | Obj(fields: seq<Entry<Json>>)

  function Ascii(s: string): Text {
    seq(|s|, i requires 0 <= i < |s| => if s[i] < 128 as char then s[i] as int else 0)
  }

  const NULL: Text := Ascii("null")
  const UNDEFINED: Text := Ascii("undefined")

  function BoolWord(b: bool): Text { if b then Ascii("true") else Ascii("false") }

  /** A printed finite number: it starts with a digit or a minus sign. */
  predicate IsNumber(w: Text) { IsWord(w) && w != [] && (48 <= w[0] <= 57 || w[0] == 45) }

  ghost predicate DistinctKeys<V>(es: seq<Entry<V>>) {
    forall i, j :: 0 <= i < j < |es| ==> es[i].key != es[j].key
  }

  /** Numbers are finite and an object has each key once. */
  ghost predicate WellFormed(x: Json) {
    match x
    case Num(w) => IsNumber(w)
    case Arr(items) => forall y :: y in items ==> WellFormed(y)
    case Obj(fields) => DistinctKeys(fields) && forall f :: f in fields ==> WellFormed(f.value)
    case _ => true
  }

  // ---- Order of keys ----

  /** Code-unit order, as `<` on strings and as `Array.prototype.sort` without a comparator. */
  predicate Less(a: Text, b: Text) {
    if b == [] then false
    else if a == [] then true
    else a[0] < b[0] || (a[0] == b[0] && Less(a[1..], b[1..]))
  }

  /** Canonical array indices: the keys an object always lists first, in numeric order. */
  predicate IsIndex(k: Text) {
    && 1 <= |k| <= 10
    && (forall i :: 0 <= i < |k| ==> 48 <= k[i] <= 57)
    && (k[0] == 48 ==> |k| == 1)
    && (|k| == 10 ==> Less(k, Ascii("4294967295")))
  }

  /** Either order of keys: numeric order on indices is shorter first, then code units. */
  predicate Before(numeric: bool, a: Text, b: Text) {
    if numeric && |a| != |b| then |a| < |b| else Less(a, b)
  }

  function InsertKey<V(!new)>(numeric: bool, es: seq<Entry<V>>, e: Entry<V>): (r: seq<Entry<V>>)
    ensures forall f :: f in r <==> f in es || f == e
  {
    if es == [] || Before(numeric, e.key, es[0].key) then [e] + es
    else [es[0]] + InsertKey(numeric, es[1..], e)
  }

  function SortKeys<V(!new)>(numeric: bool, es: seq<Entry<V>>): (r: seq<Entry<V>>)
    ensures forall f :: f in r <==> f in es
  {
    if es == [] then [] else InsertKey(numeric, SortKeys(numeric, es[1..]), es[0])
  }

  function WithIndexKeys<V(!new)>(es: seq<Entry<V>>, index: bool): (r: seq<Entry<V>>)
    ensures forall f :: f in r <==> f in es && IsIndex(f.key) == index
  {
    if es == [] then []
    else if IsIndex(es[0].key) == index then [es[0]] + WithIndexKeys(es[1..], index)
    else WithIndexKeys(es[1..], index)
  }

  /** `Object.fromEntries` followed by any enumeration: indices first and ascending, the rest as given. */
  function FromEntries<V(!new)>(es: seq<Entry<V>>): (r: seq<Entry<V>>)
    ensures forall f :: f in r <==> f in es
  {
    SortKeys(true, WithIndexKeys(es, true)) + WithIndexKeys(es, false)
  }

  /** How a printer lists fields: sorted, and for `canonicalJson` put back into an object. */
  function Arrange<V(!new)>(rebuilt: bool, es: seq<Entry<V>>): (r: seq<Entry<V>>)
    ensures forall f :: f in r <==> f in es
  {
    if rebuilt then FromEntries(SortKeys(false, es)) else SortKeys(false, es)
  }

  // ---- JSON.stringify and the two canonical printers ----

  /** What `JSON.stringify` prints: undefined fields are left out, undefined elements are null. */
  function TreeOf(x: Json): Tree {
    match x
    case Undefined => Atom(NULL)
    case Null => Atom(NULL)
    case Bool(b) => Atom(BoolWord(b))
    case Num(w) => Atom(w)
    case Str(s) => Quoted(s)
    case Arr(items) => List(TreesOf(items))
    case Obj(fields) => Record(FieldsOf(fields))
  }

  function TreesOf(xs: seq<Json>): (ts: seq<Tree>)
    ensures |ts| == |xs| && forall i :: 0 <= i < |xs| ==> ts[i] == TreeOf(xs[i])
  {
    if xs == [] then [] else [TreeOf(xs[0])] + TreesOf(xs[1..])
  }

  function FieldsOf(fs: seq<Entry<Json>>): seq<Entry<Tree>> {
    if fs == [] then []
    else if fs[0].value.Undefined? then FieldsOf(fs[1..])
    else [Entry(fs[0].key, TreeOf(fs[0].value))] + FieldsOf(fs[1..])
  }

  function Stringify(x: Json): Text { Printed(TreeOf(x)) }

  function Defined(fs: seq<Entry<Json>>): (r: seq<Entry<Json>>)
    ensures forall f :: f in r <==> f in fs && !f.value.Undefined?
  {
    if fs == [] then []
    else if fs[0].value.Undefined? then Defined(fs[1..])
    else [fs[0]] + Defined(fs[1..])
  }

  /** The inner function of `canonicalJson`. */
  function Norm(x: Json): Json
    decreases x, 1
  {
    match x
    case Arr(items) => Arr(NormItems(items))
    case Obj(fields) => Obj(FromEntries(NormFields(x, SortKeys(false, Defined(fields)))))
    case _ => x
  }

  function NormItems(xs: seq<Json>): seq<Json>
    decreases xs, 0
  {
    if xs == [] then [] else [Norm(xs[0])] + NormItems(xs[1..])
  }

  function NormFields(within: Json, fs: seq<Entry<Json>>): seq<Entry<Json>>
    decreases within, 0, |fs|
    requires forall f :: f in fs ==> f.value < within
  {
    if fs == [] then [] else [Entry(fs[0].key, Norm(fs[0].value))] + NormFields(within, fs[1..])
  }

  /** `canonicalJson(x)`; `JSON.stringify` gives no text for undefined itself. */
  function CanonicalJson(x: Json): Option<Text> {
    if x.Undefined? then None else Some(Stringify(Norm(x)))
  }

  /** `stableStringify(x)`: undefined for undefined, which a template shows as a word and `join` as nothing. */
  function StableStringify(x: Json): Option<Text>
    decreases x, 1
  {
    match x
    case Undefined => None
    case Arr(items) => Some([LBRACKET] + JoinStable(items) + [RBRACKET])
    case Obj(fields) => Some([LBRACE] + JoinStableFields(x, SortKeys(false, fields)) + [RBRACE])
    case _ => Some(Stringify(x))
  }

  function InTemplate(o: Option<Text>): Text { if o.None? then UNDEFINED else o.value }

  function InJoin(o: Option<Text>): Text { if o.None? then [] else o.value }

  function JoinStable(xs: seq<Json>): Text
    decreases xs, 0
  {
    if xs == [] then [] else
    var more := if |xs| == 1 then [] else [COMMA] + JoinStable(xs[1..]);
    InJoin(StableStringify(xs[0])) + more
  }

  function JoinStableFields(within: Json, fs: seq<Entry<Json>>): Text
    requires forall f :: f in fs ==> f.value < within
    decreases within, 0, |fs|
  {
    if fs == [] then [] else
    var more := if |fs| == 1 then [] else [COMMA] + JoinStableFields(within, fs[1..]);
    Quote(fs[0].key) + ([COLON] + (InTemplate(StableStringify(fs[0].value)) + more))
  }

  // ---- The same printers as an order on trees ----

  /** A tree with the fields of every record arranged. */
  function Ordered(rebuilt: bool, t: Tree): Tree {
    match t
    case List(items) => List(OrderedItems(rebuilt, items))
    case Record(fields) => Record(Arrange(rebuilt, OrderedFields(rebuilt, fields)))
    case _ => t
  }

  function OrderedItems(rebuilt: bool, ts: seq<Tree>): (r: seq<Tree>)
    ensures |r| == |ts| && forall i :: 0 <= i < |ts| ==> r[i] == Ordered(rebuilt, ts[i])
  {
    if ts == [] then [] else [Ordered(rebuilt, ts[0])] + OrderedItems(rebuilt, ts[1..])
  }

  function OrderedFields(rebuilt: bool, fs: seq<Entry<Tree>>): (r: seq<Entry<Tree>>)
    ensures |r| == |fs| && forall i :: 0 <= i < |fs| ==> r[i] == Entry(fs[i].key, Ordered(rebuilt, fs[i].value))
  {
    if fs == [] then [] else [Entry(fs[0].key, Ordered(rebuilt, fs[0].value))] + OrderedFields(rebuilt, fs[1..])
  }

  /** Equal but for the order of fields, at every depth. */
  ghost predicate Alike(t: Tree, u: Tree) {
    match t
    case List(items) => u.List? && |items| == |u.items| && forall i :: 0 <= i < |items| ==> Alike(items[i], u.items[i])
    case Record(fields) =>
      && u.Record?
      && (forall f :: f in fields ==> HasPartner(f, u.fields))
      && (forall g :: g in u.fields ==> HasKey(fields, g.key))
    case _ => t == u
  }

  ghost predicate HasPartner(f: Entry<Tree>, gs: seq<Entry<Tree>>) {
    exists g :: g in gs && g.key == f.key && Alike(f.value, g.value)
  }

  ghost predicate HasKey<V(!new)>(es: seq<Entry<V>>, key: Text) {
    exists f :: f in es && f.key == key
  }

  ghost predicate DistinctTree(t: Tree) {
    match t
    case List(items) => forall x :: x in items ==> DistinctTree(x)
    case Record(fields) => DistinctKeys(fields) && forall f :: f in fields ==> DistinctTree(f.value)
    case _ => true
  }

  // ---- Keys are totally ordered ----

  lemma {:induction false} LessTotal(a: Text, b: Text)
    ensures a == b || Less(a, b) || Less(b, a)
    ensures !(Less(a, b) && Less(b, a)) && !Less(a, a)
  {
    if a != [] {
      LessTotal(a[1..], a[1..]);
      if b != [] {
        LessTotal(a[1..], b[1..]);
        assert a == [a[0]] + a[1..] && b == [b[0]] + b[1..];
      }
    }
  }

  lemma {:induction false} LessTransitive(a: Text, b: Text, c: Text)
    requires Less(a, b) && Less(b, c)
    ensures Less(a, c)
  {
    if a != [] && a[0] == b[0] == c[0] {
      LessTransitive(a[1..], b[1..], c[1..]);
    }
  }

  ghost predicate Ascending<V>(es: seq<Entry<V>>) {
    forall i, j :: 0 <= i < j < |es| ==> Less(es[i].key, es[j].key)
  }

  lemma {:induction false} InsertAscending<V(!new)>(es: seq<Entry<V>>, e: Entry<V>)
    requires Ascending(es) && forall f :: f in es ==> f.key != e.key
    ensures Ascending(InsertKey(false, es, e))
  {
    if es != [] {
      LessTotal(e.key, es[0].key);
      var r := InsertKey(false, es, e);
      if Less(e.key, es[0].key) {
        forall j | 0 < j < |es| ensures Less(e.key, es[j].key) {
          LessTransitive(e.key, es[0].key, es[j].key);
        }
      } else {
        InsertAscending(es[1..], e);
        var tail := InsertKey(false, es[1..], e);
        forall j | 0 <= j < |tail| ensures Less(es[0].key, tail[j].key) {
          assert tail[j] in tail;
          if tail[j] != e {
            var k :| 0 <= k < |es[1..]| && es[1..][k] == tail[j];
          }
        }
      }
    }
  }

  lemma {:induction false} SortAscending<V(!new)>(es: seq<Entry<V>>)
    requires DistinctKeys(es)
    ensures Ascending(SortKeys(false, es))
  {
    if es != [] {
      SortAscending(es[1..]);
      InsertAscending(SortKeys(false, es[1..]), es[0]);
    }
  }

  /** An ascending list is determined by its members. */
  lemma {:induction false} AscendingUnique<V(!new)>(a: seq<Entry<V>>, b: seq<Entry<V>>)
    requires Ascending(a) && Ascending(b) && forall e :: e in a <==> e in b
    ensures a == b
  {
    BothEmpty(a, b);
    if a != [] {
      assert a[0] in a;
      assert b[0] in b;
      var i :| 0 <= i < |b| && b[i] == a[0];
      var j :| 0 <= j < |a| && a[j] == b[0];
      LessTotal(a[0].key, b[0].key);
      assert a[0] == b[0];
      forall e ensures e in a[1..] <==> e in b[1..] {
        TailMember(a, e);
        TailMember(b, e);
      }
      AscendingUnique(a[1..], b[1..]);
    }
  }

  lemma {:induction false} BothEmpty<V(!new)>(a: seq<V>, b: seq<V>)
    requires forall e :: e in a <==> e in b
    ensures a == [] <==> b == []
  {
    if a != [] { assert a[0] in a; }
    if b != [] { assert b[0] in b; }
  }

  lemma {:induction false} TailMember<V(!new)>(a: seq<Entry<V>>, e: Entry<V>)
    requires a != [] && Ascending(a)
    ensures e in a[1..] <==> e in a && e != a[0]
  {
    if e in a[1..] {
      var k :| 0 <= k < |a[1..]| && a[1..][k] == e;
      LessTotal(a[0].key, a[k + 1].key);
    }
  }

  /** The arrangement depends only on which fields there are. */
  lemma {:induction false} ArrangeCanonical<V(!new)>(rebuilt: bool, a: seq<Entry<V>>, b: seq<Entry<V>>)
    requires DistinctKeys(a) && DistinctKeys(b) && forall e :: e in a <==> e in b
    ensures Arrange(rebuilt, a) == Arrange(rebuilt, b)
  {
    SortAscending(a);
    SortAscending(b);
    AscendingUnique(SortKeys(false, a), SortKeys(false, b));
  }

  lemma {:induction false} KeyDetermines<V>(es: seq<Entry<V>>, e: Entry<V>, f: Entry<V>)
    requires DistinctKeys(es) && e in es && f in es && e.key == f.key
    ensures e == f
  {
    var i :| 0 <= i < |es| && es[i] == e;
    var j :| 0 <= j < |es| && es[j] == f;
  }

  lemma {:induction false} AlikeOrdered(rebuilt: bool, t: Tree, u: Tree)
    requires Alike(t, u) && DistinctTree(t) && DistinctTree(u)
    ensures Ordered(rebuilt, t) == Ordered(rebuilt, u)
    decreases t, 1
  {
    match t
    case Atom(_) =>
    case Quoted(_) =>
    case List(items) =>
      forall i | 0 <= i < |items| ensures Ordered(rebuilt, items[i]) == Ordered(rebuilt, u.items[i]) {
        assert items[i] in items && u.items[i] in u.items;
        AlikeOrdered(rebuilt, items[i], u.items[i]);
      }
    case Record(fields) =>
      FieldsCovered(rebuilt, fields, u.fields);
      ArrangeCovered(rebuilt, fields, u.fields);
  }

  lemma {:induction false} ArrangeCovered(rebuilt: bool, fs: seq<Entry<Tree>>, gs: seq<Entry<Tree>>)
    requires DistinctKeys(fs) && DistinctKeys(gs)
    requires forall g :: g in gs ==> HasKey(fs, g.key)
    requires forall i :: 0 <= i < |fs| ==> OrderedFields(rebuilt, fs)[i] in OrderedFields(rebuilt, gs)
    ensures Arrange(rebuilt, OrderedFields(rebuilt, fs)) == Arrange(rebuilt, OrderedFields(rebuilt, gs))
  {
    var a, b := OrderedFields(rebuilt, fs), OrderedFields(rebuilt, gs);
    SameMembers(fs, gs, a, b);
    ArrangeCanonical(rebuilt, a, b);
  }

  lemma {:induction false} FieldsCovered(rebuilt: bool, fs: seq<Entry<Tree>>, gs: seq<Entry<Tree>>)
    requires forall f :: f in fs ==> DistinctTree(f.value)
    requires forall g :: g in gs ==> DistinctTree(g.value)
    requires forall f :: f in fs ==> HasPartner(f, gs)
    ensures forall i :: 0 <= i < |fs| ==> OrderedFields(rebuilt, fs)[i] in OrderedFields(rebuilt, gs)
    decreases fs, 0
  {
    forall i | 0 <= i < |fs| ensures OrderedFields(rebuilt, fs)[i] in OrderedFields(rebuilt, gs) {
      var f := fs[i];
      assert f in fs;
      var g :| g in gs && g.key == f.key && Alike(f.value, g.value);
      AlikeOrdered(rebuilt, f.value, g.value);
      OrderedMember(rebuilt, gs, g);
    }
  }

  lemma {:induction false} OrderedMember(rebuilt: bool, gs: seq<Entry<Tree>>, g: Entry<Tree>)
    requires g in gs
    ensures Entry(g.key, Ordered(rebuilt, g.value)) in OrderedFields(rebuilt, gs)
  {
    var k :| 0 <= k < |gs| && gs[k] == g;
    assert OrderedFields(rebuilt, gs)[k] == Entry(g.key, Ordered(rebuilt, g.value));
  }

  /** Distinct keys on both sides, the same keys, and one side contained in the other. */
  lemma {:induction false} SameMembers<V(!new)>(fs: seq<Entry<V>>, gs: seq<Entry<V>>, a: seq<Entry<V>>, b: seq<Entry<V>>)
    requires |a| == |fs| && |b| == |gs| && DistinctKeys(gs)
    requires forall i :: 0 <= i < |a| ==> a[i].key == fs[i].key && a[i] in b
    requires forall i :: 0 <= i < |b| ==> b[i].key == gs[i].key
    requires forall g :: g in gs ==> HasKey(fs, g.key)
    ensures forall e :: e in a <==> e in b
  {
    forall e | e in b ensures e in a {
      var k :| 0 <= k < |b| && b[k] == e;
      assert gs[k] in gs;
      var f :| f in fs && f.key == gs[k].key;
      var i :| 0 <= i < |fs| && fs[i] == f;
      assert DistinctKeys(b);
      KeyDetermines(b, a[i], e);
    }
  }

  lemma {:induction false} OrderedAlike(rebuilt: bool, t: Tree, u: Tree)
    requires Ordered(rebuilt, t) == Ordered(rebuilt, u)
    ensures Alike(t, u)
  {
    match t
    case Atom(_) =>
    case Quoted(_) =>
    case List(items) =>
      forall i | 0 <= i < |items| ensures Alike(items[i], u.items[i]) {
        assert OrderedItems(rebuilt, items)[i] == OrderedItems(rebuilt, u.items)[i];
        OrderedAlike(rebuilt, items[i], u.items[i]);
      }
    case Record(fields) =>
      var a, b := OrderedFields(rebuilt, fields), OrderedFields(rebuilt, u.fields);
      assert forall e :: e in a <==> e in Arrange(rebuilt, a);
      assert forall e :: e in b <==> e in Arrange(rebuilt, b);
      forall f | f in fields ensures HasPartner(f, u.fields) {
        var i :| 0 <= i < |fields| && fields[i] == f;
        assert a[i] in b;
        var k :| 0 <= k < |b| && b[k] == a[i];
        OrderedAlike(rebuilt, f.value, u.fields[k].value);
        assert u.fields[k] in u.fields;
      }
      forall g | g in u.fields ensures HasKey(fields, g.key) {
        var k :| 0 <= k < |u.fields| && u.fields[k] == g;
        assert b[k] in a;
        var i :| 0 <= i < |a| && a[i] == b[k];
        assert fields[i] in fields;
      }
  }

  lemma {:induction false} OrderedReadable(rebuilt: bool, t: Tree)
    requires Readable(t)
    ensures Readable(Ordered(rebuilt, t))
  {
    match t
    case List(items) =>
      forall i | 0 <= i < |items| ensures Readable(Ordered(rebuilt, items[i])) {
        assert items[i] in items;
        OrderedReadable(rebuilt, items[i]);
      }
      var r := OrderedItems(rebuilt, items);
      if |items| == 1 {
        assert items == [items[0]] && r == [Ordered(rebuilt, items[0])];
      }
    case Record(fields) =>
      forall e | e in Arrange(rebuilt, OrderedFields(rebuilt, fields)) ensures Readable(e.value) {
        assert e in OrderedFields(rebuilt, fields);
        var i :| 0 <= i < |fields| && OrderedFields(rebuilt, fields)[i] == e;
        OrderedReadable(rebuilt, fields[i].value);
      }
    case _ =>
  }

  /** Printed in order, two trees agree exactly when they are equal but for the order of fields. */
  lemma {:induction false} PrintedAgree(rebuilt: bool, t: Tree, u: Tree)
    requires Readable(t) && Readable(u) && DistinctTree(t) && DistinctTree(u)
    ensures Printed(Ordered(rebuilt, t)) == Printed(Ordered(rebuilt, u)) <==> Alike(t, u)
  {
    if Alike(t, u) {
      AlikeOrdered(rebuilt, t, u);
    } else if Printed(Ordered(rebuilt, t)) == Printed(Ordered(rebuilt, u)) {
      OrderedReadable(rebuilt, t);
      OrderedReadable(rebuilt, u);
      assert Printed(Ordered(rebuilt, t)) + [] == Printed(Ordered(rebuilt, u)) + [];
      PrintedInjective(Ordered(rebuilt, t), Ordered(rebuilt, u), [], []);
      OrderedAlike(rebuilt, t, u);
    }
  }

  // ---- canonicalJson ----

  function MapValues<A(!new), B(!new)>(es: seq<Entry<A>>, f: A -> B): (r: seq<Entry<B>>)
    ensures |r| == |es| && forall i :: 0 <= i < |es| ==> r[i] == Entry(es[i].key, f(es[i].value))
  {
    if es == [] then [] else [Entry(es[0].key, f(es[0].value))] + MapValues(es[1..], f)
  }

  lemma {:induction false} InsertMap<A(!new), B(!new)>(numeric: bool, es: seq<Entry<A>>, e: Entry<A>, f: A -> B)
    ensures InsertKey(numeric, MapValues(es, f), Entry(e.key, f(e.value))) == MapValues(InsertKey(numeric, es, e), f)
  {
    if es != [] {
      InsertMap(numeric, es[1..], e, f);
      assert MapValues(es, f)[1..] == MapValues(es[1..], f);
    }
  }

  lemma {:induction false} SortMap<A(!new), B(!new)>(numeric: bool, es: seq<Entry<A>>, f: A -> B)
    ensures SortKeys(numeric, MapValues(es, f)) == MapValues(SortKeys(numeric, es), f)
  {
    if es != [] {
      SortMap(numeric, es[1..], f);
      InsertMap(numeric, SortKeys(numeric, es[1..]), es[0], f);
      assert MapValues(es, f)[1..] == MapValues(es[1..], f);
    }
  }

  lemma {:induction false} IndexMap<A(!new), B(!new)>(es: seq<Entry<A>>, index: bool, f: A -> B)
    ensures WithIndexKeys(MapValues(es, f), index) == MapValues(WithIndexKeys(es, index), f)
  {
    if es != [] {
      IndexMap(es[1..], index, f);
      assert MapValues(es, f)[1..] == MapValues(es[1..], f);
    }
  }

  lemma {:induction false} MapAppend<A(!new), B(!new)>(a: seq<Entry<A>>, b: seq<Entry<A>>, f: A -> B)
    ensures MapValues(a + b, f) == MapValues(a, f) + MapValues(b, f)
  {}

  lemma {:induction false} FromEntriesMap<A(!new), B(!new)>(es: seq<Entry<A>>, f: A -> B)
    ensures FromEntries(MapValues(es, f)) == MapValues(FromEntries(es), f)
  {
    IndexMap(es, true, f);
    IndexMap(es, false, f);
    SortMap(true, WithIndexKeys(es, true), f);
    MapAppend(SortKeys(true, WithIndexKeys(es, true)), WithIndexKeys(es, false), f);
  }

  lemma {:induction false} NormFieldsMap(within: Json, fs: seq<Entry<Json>>)
    requires forall f :: f in fs ==> f.value < within
    ensures NormFields(within, fs) == MapValues(fs, Norm)
    decreases |fs|
  {
    if fs != [] { NormFieldsMap(within, fs[1..]); }
  }

  lemma {:induction false} FieldsOfMap(fs: seq<Entry<Json>>)
    ensures FieldsOf(fs) == MapValues(Defined(fs), TreeOf)
  {
    if fs != [] { FieldsOfMap(fs[1..]); }
  }

  lemma {:induction false} DefinedAll(fs: seq<Entry<Json>>)
    requires forall f :: f in fs ==> !f.value.Undefined?
    ensures Defined(fs) == fs
  {
    if fs != [] { DefinedAll(fs[1..]); }
  }

  /** Normalising and then printing is printing in order. */
  lemma {:induction false} NormOrders(x: Json)
    ensures TreeOf(Norm(x)) == Ordered(true, TreeOf(x))
    ensures Norm(x).Undefined? <==> x.Undefined?
    decreases x, 1
  {
    match x
    case Arr(items) =>
      NormItemsOrder(items);
    case Obj(fields) =>
      var d := Defined(fields);
      forall f | f in d ensures TreeOf(Norm(f.value)) == Ordered(true, TreeOf(f.value)) && !Norm(f.value).Undefined? {
        NormOrders(f.value);
      }
      NormObject(x, fields);
    case _ =>
  }

  lemma {:induction false} NormItemsOrder(xs: seq<Json>)
    ensures TreesOf(NormItems(xs)) == OrderedItems(true, TreesOf(xs))
    decreases xs, 0
  {
    if xs != [] {
      NormOrders(xs[0]);
      NormItemsOrder(xs[1..]);
      assert TreesOf(xs)[1..] == TreesOf(xs[1..]);
      assert NormItems(xs)[1..] == NormItems(xs[1..]);
    }
  }

  function Rebuilt(t: Tree): Tree { Ordered(true, t) }

  lemma {:induction false} SameMaps(es: seq<Entry<Json>>)
    requires forall e :: e in es ==> TreeOf(Norm(e.value)) == Ordered(true, TreeOf(e.value))
    ensures MapValues(MapValues(es, Norm), TreeOf) == MapValues(MapValues(es, TreeOf), Rebuilt)
  {
    forall i | 0 <= i < |es| ensures TreeOf(Norm(es[i].value)) == Ordered(true, TreeOf(es[i].value)) {
      assert es[i] in es;
    }
  }

  lemma {:induction false} NormFieldsDefined(es: seq<Entry<Json>>)
    requires forall e :: e in es ==> !Norm(e.value).Undefined?
    ensures FieldsOf(FromEntries(MapValues(es, Norm))) == FromEntries(MapValues(MapValues(es, Norm), TreeOf))
  {
    var n := MapValues(es, Norm);
    forall f | f in n ensures !f.value.Undefined? {
      var i :| 0 <= i < |n| && n[i] == f;
      assert es[i] in es;
    }
    DefinedAll(FromEntries(n));
    FieldsOfMap(FromEntries(n));
    FromEntriesMap(n, TreeOf);
  }

  lemma {:induction false} NormedFields(x: Json, s: seq<Entry<Json>>)
    requires forall f :: f in s ==> f.value < x
    requires forall f :: f in s ==> TreeOf(Norm(f.value)) == Ordered(true, TreeOf(f.value)) && !Norm(f.value).Undefined?
    ensures FieldsOf(FromEntries(NormFields(x, s))) == FromEntries(MapValues(MapValues(s, TreeOf), Rebuilt))
  {
    NormFieldsMap(x, s);
    NormFieldsDefined(s);
    SameMaps(s);
  }

  lemma {:induction false} SortMapTwice(d: seq<Entry<Json>>)
    ensures MapValues(MapValues(SortKeys(false, d), TreeOf), Rebuilt)
      == SortKeys(false, MapValues(MapValues(d, TreeOf), Rebuilt))
  {
    SortMap(false, d, TreeOf);
    SortMap(false, MapValues(d, TreeOf), Rebuilt);
  }

  lemma {:induction false} OrderedFieldsAre(fields: seq<Entry<Json>>)
    ensures OrderedFields(true, FieldsOf(fields)) == MapValues(MapValues(Defined(fields), TreeOf), Rebuilt)
  {
    FieldsOfMap(fields);
    assert OrderedFields(true, FieldsOf(fields)) == MapValues(FieldsOf(fields), Rebuilt);
  }

  lemma {:induction false} NormObject(x: Json, fields: seq<Entry<Json>>)
    requires x == Obj(fields)
    requires forall f :: f in Defined(fields) ==>
      TreeOf(Norm(f.value)) == Ordered(true, TreeOf(f.value)) && !Norm(f.value).Undefined?
    ensures TreeOf(Norm(x)) == Ordered(true, TreeOf(x))
  {
    NormedFields(x, SortKeys(false, Defined(fields)));
    SortMapTwice(Defined(fields));
    OrderedFieldsAre(fields);
  }

  lemma {:induction false} TreeIsReadable(x: Json)
    requires WellFormed(x)
    ensures Readable(TreeOf(x)) && DistinctTree(TreeOf(x))
    ensures TreeOf(x) != Atom([])
  {
    match x
    case Arr(items) =>
      forall i | 0 <= i < |items| ensures Readable(TreesOf(items)[i]) && DistinctTree(TreesOf(items)[i]) && TreesOf(items)[i] != Atom([]) {
        assert items[i] in items;
        TreeIsReadable(items[i]);
      }
    case Obj(fields) =>
      FieldsOfMap(fields);
      DefinedDistinct(fields);
      forall i | 0 <= i < |FieldsOf(fields)| ensures Readable(FieldsOf(fields)[i].value) && DistinctTree(FieldsOf(fields)[i].value) {
        var f := Defined(fields)[i];
        assert f in fields;
        TreeIsReadable(f.value);
      }
    case Bool(b) => assert IsWord(BoolWord(b)) && BoolWord(b) != [];
    case _ => assert IsWord(NULL) && NULL != [];
  }

  lemma {:induction false} DefinedDistinct(fs: seq<Entry<Json>>)
    requires DistinctKeys(fs)
    ensures DistinctKeys(Defined(fs))
  {
    if fs != [] {
      DefinedDistinct(fs[1..]);
      var r := Defined(fs[1..]);
      forall i | 0 <= i < |r| ensures r[i].key != fs[0].key {
        assert r[i] in fs[1..];
      }
    }
  }

  /** `canonicalJson` is a canonical form: two outputs are the same exactly when the values differ only in
      the order of keys, in undefined fields, and in undefined against null array elements. */
  lemma {:induction false} CanonicalForm(x: Json, y: Json)
    requires WellFormed(x) && WellFormed(y) && !x.Undefined? && !y.Undefined?
    ensures CanonicalJson(x) == CanonicalJson(y) <==> Alike(TreeOf(x), TreeOf(y))
  {
    TreeIsReadable(x);
    TreeIsReadable(y);
    NormOrders(x);
    NormOrders(y);
    PrintedAgree(true, TreeOf(x), TreeOf(y));
  }

  lemma {:induction false} AlikeReflexive(t: Tree)
    ensures Alike(t, t)
    decreases t, 1
  {
    match t
    case List(items) =>
      forall i | 0 <= i < |items| ensures Alike(items[i], items[i]) { AlikeReflexive(items[i]); }
    case Record(fields) => PartnersWithin(fields, fields);
    case _ =>
  }

  lemma {:induction false} PartnersWithin(fs: seq<Entry<Tree>>, gs: seq<Entry<Tree>>)
    requires forall f :: f in fs ==> f in gs
    ensures forall f :: f in fs ==> HasPartner(f, gs) && HasKey(gs, f.key)
    decreases fs, 0
  {
    forall f | f in fs ensures HasPartner(f, gs) && HasKey(gs, f.key) {
      AlikeReflexive(f.value);
    }
  }

  lemma {:induction false} SharedFields(fs: seq<Entry<Json>>, gs: seq<Entry<Json>>)
    requires forall f :: f in Defined(fs) ==> f in Defined(gs)
    ensures forall f :: f in FieldsOf(fs) ==> f in FieldsOf(gs)
  {
    FieldsOfMap(fs);
    FieldsOfMap(gs);
    var a, b, d, e := FieldsOf(fs), FieldsOf(gs), Defined(fs), Defined(gs);
    forall f | f in a ensures f in b {
      var i :| 0 <= i < |a| && a[i] == f;
      assert d[i] in e;
      var k :| 0 <= k < |e| && e[k] == d[i];
      assert b[k] == f;
    }
  }

  lemma {:induction false} SharedAlike(fs: seq<Entry<Json>>, gs: seq<Entry<Json>>)
    requires forall f: Entry<Json> :: !f.value.Undefined? ==> (f in fs <==> f in gs)
    ensures Alike(Record(FieldsOf(fs)), Record(FieldsOf(gs)))
  {
    SharedFields(fs, gs);
    SharedFields(gs, fs);
    PartnersWithin(FieldsOf(fs), FieldsOf(gs));
    PartnersWithin(FieldsOf(gs), FieldsOf(fs));
  }

  /** Two objects with the same defined fields, in any order and with any undefined ones besides. */
  lemma {:induction false} FieldOrderIsIgnored(fs: seq<Entry<Json>>, gs: seq<Entry<Json>>)
    requires WellFormed(Obj(fs)) && WellFormed(Obj(gs))
    requires forall f: Entry<Json> :: !f.value.Undefined? ==> (f in fs <==> f in gs)
    ensures CanonicalJson(Obj(fs)) == CanonicalJson(Obj(gs))
  {
    assert Alike(TreeOf(Obj(fs)), TreeOf(Obj(gs))) by { SharedAlike(fs, gs); }
    CanonicalForm(Obj(fs), Obj(gs));
  }

  // ---- stableStringify ----

  /** What `stableStringify` tells apart: undefined fields are a word of their own, undefined elements
      print as nothing, so a list of one of them is the empty list. */
  function StableTree(x: Json): Tree
    decreases x, 0
  {
    match x
    case Undefined => Atom(UNDEFINED)
    case Arr(items) => if items == [Undefined] then List([]) else List(StableItems(items))
    case Obj(fields) => Record(StableFields(fields))
    case _ => TreeOf(x)
  }

  function StableItem(x: Json): Tree
    decreases x, 1
  {
    if x.Undefined? then Atom([]) else StableTree(x)
  }

  function StableItems(xs: seq<Json>): (ts: seq<Tree>)
    ensures |ts| == |xs| && forall i :: 0 <= i < |xs| ==> ts[i] == StableItem(xs[i])
    decreases xs, 2
  {
    if xs == [] then [] else [StableItem(xs[0])] + StableItems(xs[1..])
  }

  function StableFields(fs: seq<Entry<Json>>): (r: seq<Entry<Tree>>)
    ensures |r| == |fs| && forall i :: 0 <= i < |fs| ==> r[i] == Entry(fs[i].key, StableTree(fs[i].value))
    decreases fs, 2
  {
    if fs == [] then [] else [Entry(fs[0].key, StableTree(fs[0].value))] + StableFields(fs[1..])
  }

  lemma {:induction false} StableText(x: Json)
    ensures InTemplate(StableStringify(x)) == Printed(Ordered(false, StableTree(x)))
    decreases x, 1
  {
    match x
    case Arr(items) => StableItemsText(items);
    case Obj(fields) =>
      StableFieldsText(x, SortKeys(false, fields));
      StableRecordText(x);
    case _ =>
  }

  lemma {:induction false} StableRecordText(x: Json)
    requires x.Obj?
    requires JoinStableFields(x, SortKeys(false, x.fields)) == PrintedFields(OrderedFields(false, StableFields(SortKeys(false, x.fields))))
    ensures InTemplate(StableStringify(x)) == Printed(Ordered(false, StableTree(x)))
  {
    SortStable(x.fields);
    assert Ordered(false, StableTree(x)) == Record(SortKeys(false, OrderedFields(false, StableFields(x.fields))));
  }

  function Kept(t: Tree): Tree { Ordered(false, t) }

  lemma {:induction false} SortStable(fs: seq<Entry<Json>>)
    ensures OrderedFields(false, StableFields(SortKeys(false, fs)))
      == SortKeys(false, OrderedFields(false, StableFields(fs)))
  {
    var s := SortKeys(false, fs);
    assert StableFields(fs) == MapValues(fs, StableTree) && StableFields(s) == MapValues(s, StableTree);
    SortMap(false, fs, StableTree);
    assert OrderedFields(false, StableFields(fs)) == MapValues(StableFields(fs), Kept);
    assert OrderedFields(false, StableFields(s)) == MapValues(StableFields(s), Kept);
    SortMap(false, StableFields(fs), Kept);
  }

  lemma {:induction false} StableItemsText(xs: seq<Json>)
    ensures JoinStable(xs) == PrintedItems(OrderedItems(false, StableItems(xs)))
    decreases xs, 0
  {
    if xs != [] {
      StableText(xs[0]);
      StableItemsText(xs[1..]);
      assert StableItems(xs)[1..] == StableItems(xs[1..]);
    }
  }

  lemma {:induction false} StableFieldsText(within: Json, fs: seq<Entry<Json>>)
    requires forall f :: f in fs ==> f.value < within
    ensures JoinStableFields(within, fs) == PrintedFields(OrderedFields(false, StableFields(fs)))
    decreases within, 0, |fs|
  {
    if fs != [] {
      StableText(fs[0].value);
      StableFieldsText(within, fs[1..]);
      assert StableFields(fs)[1..] == StableFields(fs[1..]);
    }
  }

  lemma {:induction false} StableReadable(x: Json)
    requires WellFormed(x)
    ensures Readable(StableTree(x)) && DistinctTree(StableTree(x)) && StableTree(x) != Atom([])
  {
    match x
    case Undefined => assert IsWord(UNDEFINED) && UNDEFINED != [];
    case Arr(items) =>
      var ts := StableItems(items);
      forall i | 0 <= i < |items| ensures Readable(ts[i]) && DistinctTree(ts[i]) && (ts[i] == Atom([]) ==> items[i].Undefined?) {
        assert items[i] in items;
        StableReadable(items[i]);
      }
      if |items| == 1 {
        assert items == [items[0]];
        assert ts == [ts[0]];
      }
    case Obj(fields) =>
      forall i | 0 <= i < |fields| ensures Readable(StableFields(fields)[i].value) && DistinctTree(StableFields(fields)[i].value) {
        assert fields[i] in fields;
        StableReadable(fields[i].value);
      }
    case _ => TreeIsReadable(x);
  }

  /** The same for the duplicate detector's printer. */
  lemma {:induction false} StableForm(x: Json, y: Json)
    requires WellFormed(x) && WellFormed(y)
    ensures InTemplate(StableStringify(x)) == InTemplate(StableStringify(y)) <==> Alike(StableTree(x), StableTree(y))
  {
    StableText(x);
    StableText(y);
    StableReadable(x);
    StableReadable(y);
    PrintedAgree(false, StableTree(x), StableTree(y));
  }

  /** The printer is not injective on lists that hold undefined. */
  lemma {:induction false} StableCollision()
    ensures StableStringify(Arr([Undefined])) == StableStringify(Arr([]))
    ensures CanonicalJson(Arr([Undefined])) == CanonicalJson(Arr([Null]))
  {
    assert JoinStable([Undefined]) == [];
    NormOrders(Arr([Undefined]));
    NormOrders(Arr([Null]));
    assert TreesOf([Undefined]) == TreesOf([Null]);
  }

  // ---- JSON.stringify on plain data ----

  /** Data as `JSON.parse` makes it. */
  ghost predicate Plain(x: Json) {
    match x
    case Undefined => false
    case Arr(items) => forall y :: y in items ==> Plain(y)
    case Obj(fields) => forall f :: f in fields ==> Plain(f.value)
    case _ => true
  }

  lemma {:induction false} PlainStable(x: Json)
    requires Plain(x)
    ensures StableTree(x) == TreeOf(x)
  {
    match x
    case Arr(items) =>
      forall i | 0 <= i < |items| ensures StableItems(items)[i] == TreesOf(items)[i] {
        assert items[i] in items;
        PlainStable(items[i]);
      }
      assert items != [Undefined] by {
        if |items| == 1 { assert items[0] in items; }
      }
      assert StableItems(items) == TreesOf(items);
    case Obj(fields) =>
      DefinedAll(fields);
      FieldsOfMap(fields);
      forall i | 0 <= i < |fields| ensures StableFields(fields)[i] == FieldsOf(fields)[i] {
        assert fields[i] in fields;
        PlainStable(fields[i].value);
      }
      assert StableFields(fields) == FieldsOf(fields);
    case _ =>
  }

  /** On plain data, equal `JSON.stringify` texts imply equal `stableStringify` texts. */
  lemma {:induction false} StringifyRefinesStable(x: Json, y: Json)
    requires WellFormed(x) && WellFormed(y) && Plain(x) && Plain(y)
    requires Stringify(x) == Stringify(y)
    ensures StableStringify(x) == StableStringify(y)
  {
    TreeIsReadable(x);
    TreeIsReadable(y);
    assert Stringify(x) + [] == Stringify(y) + [];
    PrintedInjective(TreeOf(x), TreeOf(y), [], []);
    PlainStable(x);
    PlainStable(y);
    StableText(x);
    StableText(y);
  }
}
