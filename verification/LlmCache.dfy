/** The exact-match response cache in front of the model, under any interleaving of concurrent calls. */
module LlmCache {
  import opened Prelude
  import opened JsonText
  import opened CanonicalJson

  /** What the key is made of, besides the deployment's scope; `model` is the caller's or else the
      fingerprint's. */
  datatype Request = Request(
    messages: seq<Json>, tools: Json, responseFormat: Json, model: Json, temperature: Option<real>, tenant: Option<Text>)

  datatype Response = Response(content: Option<string>, toolCalls: seq<string>, finish: string, totalTokens: nat)

  /** `sha256` and `number` are the host's; `size` is the length of the stored text. */
  datatype Config = Config(
    scope: Text, thinking: bool, saas: bool, defaultTemperature: real, maxTemperature: real, maxEntryBytes: nat,
    sha256: Text -> Text, number: real -> Text, trim: string -> string, size: Response -> nat)

  const KEY_PREFIX: Text := Ascii("xcoder:llm:v1:")

  ghost predicate Injective(f: Text -> Text) { forall a, b :: f(a) == f(b) ==> a == b }

  function TenantText(r: Request): Text { if r.tenant.Some? then r.tenant.value else [] }

  function Temperature(c: Config, r: Request): real {
    if r.temperature.Some? then r.temperature.value else c.defaultTemperature
  }

  /** The object whose canonical text is hashed; `fp` is the model's fingerprint at the time. */
  function KeyDocument(c: Config, fp: Json, r: Request): Json {
    Obj([
      Entry(Ascii("scope"), Str(c.scope)),
      Entry(Ascii("tenant"), Str(TenantText(r))),
      Entry(Ascii("fp"), fp),
      Entry(Ascii("model"), r.model),
      Entry(Ascii("temperature"), Num(c.number(Temperature(c, r)))),
      Entry(Ascii("tools"), r.tools),
      Entry(Ascii("rf"), r.responseFormat),
      Entry(Ascii("messages"), Arr(r.messages))])
  }

  function Key(c: Config, fp: Json, r: Request): Text {
    KEY_PREFIX + c.sha256(Stringify(Norm(KeyDocument(c, fp, r))))
  }

  predicate Cacheable(c: Config, r: Request) {
    && !c.thinking && r.messages != []
    && !(c.saas && TenantText(r) == [])
    && Temperature(c, r) <= c.maxTemperature
  }

  predicate Storable(c: Config, a: Response) {
    && a.finish != "length" && a.finish != "content_filter"
    && ((a.content.Some? && c.trim(a.content.value) != "") || a.toolCalls != [])
  }

  /** An entry read back counts as a hit only when it holds a text. */
  predicate Servable(a: Response) { a.content.Some? }

  // ---- One call is a sequence of steps between awaits ----

  datatype Stage =
    | Passing                                          // waiting for the inner client, nothing will be stored
    | Reading(request: Request, fp: Json)              // waiting for the backend's `get`
    | Asking(request: Request, fp: Json)               // waiting for the inner client after a miss
    | Writing(request: Request, fp: Json)              // waiting for the backend's `set`

  /** What the backend's `get` gives: nothing, a failure, an unreadable text, or a stored answer. */
  datatype Got = Absent | Failed | Corrupt | Found(answer: Response)

  datatype Event =
    | Begin(id: nat, request: Request, fp: Option<Json>)    // no fingerprint: computing the key throws
    | Read(id: nat, got: Got)
    | Answered(id: nat, answer: Response)
    | Threw(id: nat)
    | Wrote(id: nat, result: Option<bool>)                  // none: the backend threw

  datatype Asked = Asked(request: Request, fp: Json, answer: Response)

  datatype Counters = Counters(
    hits: nat, misses: nat, bypassed: nat, stored: nat, errors: nat, tokensSaved: nat)

  /** `begun` and `keyFailures` count what the program does not; `answers` are the inner client's answers
      after a miss, `written` what has been handed to the backend, `served` the hits. */
  datatype State = State(
    calls: map<nat, Stage>, s: Counters, begun: nat, keyFailures: nat,
    answers: seq<Asked>, written: seq<Asked>, served: seq<Asked>)

  const START := State(map[], Counters(0, 0, 0, 0, 0, 0), 0, 0, [], [], [])

  /** The parts of the key are JSON data. */
  ghost predicate ProperRequest(c: Config, fp: Json, r: Request) {
    WellFormed(fp) && WellFormed(r.model) && WellFormed(r.tools) && WellFormed(r.responseFormat)
    && WellFormed(Arr(r.messages)) && IsNumber(c.number(Temperature(c, r)))
  }

  /** The backend is honest: it finds only what was written under the same key. It may forget anything. */
  ghost predicate Honest(c: Config, s: State, fp: Json, r: Request, a: Response) {
    exists w :: w in s.written && Key(c, w.fp, w.request) == Key(c, fp, r) && w.answer == a
  }

  ghost predicate Enabled(c: Config, s: State, e: Event) {
    match e
    case Begin(id, r, fp) => id !in s.calls && (fp.Some? ==> ProperRequest(c, fp.value, r))
    case Read(id, got) =>
      id in s.calls && s.calls[id].Reading?
      && (got.Found? ==> Honest(c, s, s.calls[id].fp, s.calls[id].request, got.answer))
    case Answered(id, _) => id in s.calls && (s.calls[id].Passing? || s.calls[id].Asking?)
    case Threw(id) => id in s.calls && (s.calls[id].Passing? || s.calls[id].Asking?)
    case Wrote(id, _) => id in s.calls && s.calls[id].Writing?
  }

  function Without(m: map<nat, Stage>, id: nat): map<nat, Stage> { map k | k in m && k != id :: m[k] }

  function Next(c: Config, s: State, e: Event): State {
    match e
    case Begin(id, r, fp) =>
      if !Cacheable(c, r) then
        s.(begun := s.begun + 1, calls := s.calls[id := Passing], s := s.s.(bypassed := s.s.bypassed + 1))
      else if fp.None? then
        s.(begun := s.begun + 1, calls := s.calls[id := Passing], keyFailures := s.keyFailures + 1,
           s := s.s.(errors := s.s.errors + 1))
      else s.(begun := s.begun + 1, calls := s.calls[id := Reading(r, fp.value)])
    case Read(id, got) =>
      if id !in s.calls || !s.calls[id].Reading? then s
      else
        var Reading(r, fp) := s.calls[id];
        if got.Found? && Servable(got.answer) then
          s.(calls := Without(s.calls, id), served := s.served + [Asked(r, fp, got.answer)],
             s := s.s.(hits := s.s.hits + 1, tokensSaved := s.s.tokensSaved + got.answer.totalTokens))
        else
          var failed := if got.Failed? || got.Corrupt? then 1 else 0;
          s.(calls := s.calls[id := Asking(r, fp)],
             s := s.s.(misses := s.s.misses + 1, errors := s.s.errors + failed))
    case Answered(id, a) =>
      if id !in s.calls || !s.calls[id].Asking? then s.(calls := Without(s.calls, id))
      else
        var Asking(r, fp) := s.calls[id];
        var s := s.(answers := s.answers + [Asked(r, fp, a)]);
        if Storable(c, a) && c.size(a) <= c.maxEntryBytes then
          s.(calls := s.calls[id := Writing(r, fp)], written := s.written + [Asked(r, fp, a)])
        else s.(calls := Without(s.calls, id))
    case Threw(id) => s.(calls := Without(s.calls, id))
    case Wrote(id, result) =>
      var s := s.(calls := Without(s.calls, id));
      match result
      case None => s.(s := s.s.(errors := s.s.errors + 1))
      case Some(ok) => if ok then s.(s := s.s.(stored := s.s.stored + 1)) else s
  }

  /** `complete`, cut at its awaits. Several calls share the counters and the backend. */
  class CachingLlmClient {
    var state: State
    const c: Config

    constructor (c: Config)
      ensures state == START && this.c == c
    {
      this.c := c;
      state := START;
    }

    method BeginCall(id: nat, request: Request, fp: Option<Json>)
      modifies this`state
      ensures state == Next(c, old(state), Begin(id, request, fp))
    {
      state := state.(begun := state.begun + 1);
      if !Cacheable(c, request) {
        state := state.(s := state.s.(bypassed := state.s.bypassed + 1), calls := state.calls[id := Passing]);
        return;
      }
      if fp.None? {
        state := state.(s := state.s.(errors := state.s.errors + 1), keyFailures := state.keyFailures + 1,
          calls := state.calls[id := Passing]);
        return;
      }
      state := state.(calls := state.calls[id := Reading(request, fp.value)]);
    }

    /** Returns the hit, if the entry can be served. */
    method GotFromBackend(id: nat, got: Got) returns (hit: Option<Response>)
      requires id in state.calls && state.calls[id].Reading?
      modifies this`state
      ensures state == Next(c, old(state), Read(id, got))
      ensures hit.Some? ==> got == Found(hit.value) && |state.served| == |old(state.served)| + 1
      ensures hit.Some? <==> state.s.hits == old(state.s.hits) + 1
    {
      var Reading(request, fp) := state.calls[id];
      if got.Found? && Servable(got.answer) {
        state := state.(s := state.s.(hits := state.s.hits + 1, tokensSaved := state.s.tokensSaved + got.answer.totalTokens));
        state := state.(calls := Without(state.calls, id), served := state.served + [Asked(request, fp, got.answer)]);
        return Some(got.answer);
      }
      if got.Failed? || got.Corrupt? {
        state := state.(s := state.s.(errors := state.s.errors + 1));
      }
      state := state.(s := state.s.(misses := state.s.misses + 1), calls := state.calls[id := Asking(request, fp)]);
      return None;
    }

    /** Hands the answer to the backend when it may be stored. */
    method InnerAnswered(id: nat, answer: Response)
      requires id in state.calls && (state.calls[id].Passing? || state.calls[id].Asking?)
      modifies this`state
      ensures state == Next(c, old(state), Answered(id, answer))
    {
      if state.calls[id].Asking? {
        var Asking(request, fp) := state.calls[id];
        state := state.(answers := state.answers + [Asked(request, fp, answer)]);
        if Storable(c, answer) && c.size(answer) <= c.maxEntryBytes {
          state := state.(calls := state.calls[id := Writing(request, fp)], written := state.written + [Asked(request, fp, answer)]);
          return;
        }
      }
      state := state.(calls := Without(state.calls, id));
    }

    method InnerThrew(id: nat)
      modifies this`state
      ensures state == Next(c, old(state), Threw(id))
    {
      state := state.(calls := Without(state.calls, id));
    }

    method SetDone(id: nat, result: Option<bool>)
      modifies this`state
      ensures state == Next(c, old(state), Wrote(id, result))
    {
      if result.None? {
        state := state.(s := state.s.(errors := state.s.errors + 1));
      } else if result.value {
        state := state.(s := state.s.(stored := state.s.stored + 1));
      }
      state := state.(calls := Without(state.calls, id));
    }
  }

  // ---- Whole runs ----

  function Run(c: Config, s: State, es: seq<Event>): State
    decreases es
  {
    if es == [] then s else Run(c, Next(c, s, es[0]), es[1..])
  }

  ghost predicate Possible(c: Config, s: State, es: seq<Event>)
    decreases es
  {
    es != [] ==> Enabled(c, s, es[0]) && Possible(c, Next(c, s, es[0]), es[1..])
  }

  /** The stored answer comes from the inner client, for a request under the same key, and may be stored. */
  ghost predicate Justified(c: Config, answers: seq<Asked>, w: Asked) {
    exists a :: a in answers && a.answer == w.answer && Key(c, a.fp, a.request) == Key(c, w.fp, w.request)
      && Storable(c, w.answer) && Cacheable(c, a.request)
  }

  function Reads(m: map<nat, Stage>): set<nat> { set k | k in m && m[k].Reading? }

  /** The calls past a miss that have not come back. */
  function Open(m: map<nat, Stage>): set<nat> { set k | k in m && (m[k].Asking? || m[k].Writing?) }

  /** Every answer, entry and hit has a cause; every waiting call is cacheable. */
  ghost predicate Origins(c: Config, s: State) {
    && (forall a :: a in s.answers ==> ProperRequest(c, a.fp, a.request))
    && (forall w :: w in s.written ==> Justified(c, s.answers, w))
    && (forall h :: h in s.served ==> RightlyServed(c, s.answers, h))
    && Waiting(c, s.calls)
  }

  ghost predicate RightlyServed(c: Config, answers: seq<Asked>, h: Asked) {
    Justified(c, answers, h) && Servable(h.answer) && ProperRequest(c, h.fp, h.request)
  }

  ghost predicate Waiting(c: Config, calls: map<nat, Stage>) {
    forall k :: k in calls && !calls[k].Passing? ==>
      Cacheable(c, calls[k].request) && ProperRequest(c, calls[k].fp, calls[k].request)
  }

  ghost predicate Counts(s: State) {
    && s.begun == s.s.hits + s.s.misses + s.s.bypassed + s.keyFailures + |Reads(s.calls)|
    && s.s.stored + |Open(s.calls)| <= s.s.misses
    && |s.served| == s.s.hits
  }

  lemma {:induction false} CountAdd(a: set<nat>, b: set<nat>, id: nat)
    requires id !in a && b == a + {id}
    ensures |b| == |a| + 1
  {}

  lemma {:induction false} ReadCount(m: map<nat, Stage>, id: nat, t: Stage)
    ensures |Reads(m[id := t])| == |Reads(Without(m, id))| + (if t.Reading? then 1 else 0)
  {
    var w, n := Reads(Without(m, id)), Reads(m[id := t]);
    if t.Reading? { CountAdd(w, n, id); } else { assert n == w; }
  }

  lemma {:induction false} OpenCount(m: map<nat, Stage>, id: nat, t: Stage)
    ensures |Open(m[id := t])| == |Open(Without(m, id))| + (if t.Asking? || t.Writing? then 1 else 0)
  {
    var w, n := Open(Without(m, id)), Open(m[id := t]);
    if t.Asking? || t.Writing? { CountAdd(w, n, id); } else { assert n == w; }
  }

  lemma {:induction false} StageGone(m: map<nat, Stage>, id: nat)
    ensures id !in m ==> Without(m, id) == m
    ensures id in m ==> |Reads(m)| == |Reads(Without(m, id))| + (if m[id].Reading? then 1 else 0)
    ensures id in m ==> |Open(m)| == |Open(Without(m, id))| + (if m[id].Asking? || m[id].Writing? then 1 else 0)
  {
    if id in m {
      ReadCount(m, id, m[id]);
      OpenCount(m, id, m[id]);
      assert m[id := m[id]] == m;
    }
  }

  lemma {:induction false} MoreAnswers(c: Config, a: seq<Asked>, b: seq<Asked>, w: Asked)
    requires Justified(c, a, w) && forall x :: x in a ==> x in b
    ensures Justified(c, b, w)
  {}

  lemma {:induction false} CountsKept(c: Config, s: State, e: Event)
    requires Counts(s) && Enabled(c, s, e)
    ensures Counts(Next(c, s, e))
  {
    var n := Next(c, s, e);
    StageGone(s.calls, e.id);
    if e.id in n.calls {
      ReadCount(s.calls, e.id, n.calls[e.id]);
      OpenCount(s.calls, e.id, n.calls[e.id]);
      assert n.calls == s.calls[e.id := n.calls[e.id]];
    } else {
      assert n.calls == Without(s.calls, e.id);
    }
  }

  lemma {:induction false} AnswerKept(c: Config, s: State, id: nat, a: Response)
    requires Origins(c, s) && Enabled(c, s, Answered(id, a)) && s.calls[id].Asking?
    ensures Origins(c, Next(c, s, Answered(id, a)))
  {
    var n := Next(c, s, Answered(id, a));
    var x := Asked(s.calls[id].request, s.calls[id].fp, a);
    assert n.answers == s.answers + [x];
    assert x in n.answers;
    forall w | w in s.written || w in s.served ensures Justified(c, n.answers, w) {
      MoreAnswers(c, s.answers, n.answers, w);
    }
  }

  lemma {:induction false} HitKept(c: Config, s: State, id: nat, a: Response)
    requires Origins(c, s) && id in s.calls && s.calls[id].Reading? && Servable(a)
    requires Honest(c, s, s.calls[id].fp, s.calls[id].request, a)
    ensures RightlyServed(c, s.answers, Asked(s.calls[id].request, s.calls[id].fp, a))
  {
    HitJustified(c, s, s.calls[id].request, s.calls[id].fp, a);
  }

  lemma {:induction false} StillWaiting(c: Config, calls: map<nat, Stage>, id: nat)
    requires Waiting(c, calls)
    ensures Waiting(c, Without(calls, id))
    ensures id in calls && calls[id].Reading? ==> Waiting(c, calls[id := Asking(calls[id].request, calls[id].fp)])
  {}

  lemma {:induction false} ReadKept(c: Config, s: State, id: nat, got: Got)
    requires Origins(c, s) && Enabled(c, s, Read(id, got))
    ensures Origins(c, Next(c, s, Read(id, got)))
  {
    StillWaiting(c, s.calls, id);
    if got.Found? && Servable(got.answer) { HitKept(c, s, id, got.answer); }
  }

  lemma {:induction false} HitJustified(c: Config, s: State, r: Request, fp: Json, a: Response)
    requires Honest(c, s, fp, r, a)
    requires forall w :: w in s.written ==> Justified(c, s.answers, w)
    ensures Justified(c, s.answers, Asked(r, fp, a))
  {
    var w :| w in s.written && Key(c, w.fp, w.request) == Key(c, fp, r) && w.answer == a;
    SameKeyJustified(c, s.answers, w, Asked(r, fp, a));
  }

  lemma {:induction false} SameKeyJustified(c: Config, answers: seq<Asked>, w: Asked, h: Asked)
    requires Justified(c, answers, w) && Key(c, w.fp, w.request) == Key(c, h.fp, h.request) && w.answer == h.answer
    ensures Justified(c, answers, h)
  {}

  lemma {:induction false} OriginsKept(c: Config, s: State, e: Event)
    requires Origins(c, s) && Enabled(c, s, e)
    ensures Origins(c, Next(c, s, e))
  {
    match e
    case Answered(id, a) => if s.calls[id].Asking? { AnswerKept(c, s, id, a); }
    case Read(id, got) => ReadKept(c, s, id, got);
    case _ =>
  }

  lemma {:induction false} RunKeeps(c: Config, s: State, es: seq<Event>)
    requires Origins(c, s) && Counts(s) && Possible(c, s, es)
    ensures Origins(c, Run(c, s, es)) && Counts(Run(c, s, es))
    decreases es
  {
    if es != [] {
      OriginsKept(c, s, es[0]);
      CountsKept(c, s, es[0]);
      RunKeeps(c, Next(c, s, es[0]), es[1..]);
    }
  }

  /** Over every interleaving: each call is a hit, a miss, bypassed, a key failure or still reading, and
      nothing is stored without a miss. */
  lemma {:induction false} EveryCallIsCounted(c: Config, es: seq<Event>)
    requires Possible(c, START, es)
    ensures var s := Run(c, START, es);
      && s.begun == s.s.hits + s.s.misses + s.s.bypassed + s.keyFailures + |Reads(s.calls)|
      && s.s.stored <= s.s.misses
  {
    assert Reads(START.calls) == {} && Open(START.calls) == {};
    RunKeeps(c, START, es);
  }

  /** Alike as the printers see them; for fields of the key, leaving one out equals undefined. */
  ghost predicate SameInput(c: Config, fp: Json, r: Request, fp': Json, r': Request) {
    && TenantText(r) == TenantText(r')
    && SameField(fp, fp')
    && SameField(r.model, r'.model)
    && SameField(r.tools, r'.tools)
    && SameField(r.responseFormat, r'.responseFormat)
    && Alike(TreeOf(Arr(r.messages)), TreeOf(Arr(r'.messages)))
    && c.number(Temperature(c, r)) == c.number(Temperature(c, r'))
  }

  ghost predicate SameField(x: Json, y: Json) {
    (x.Undefined? <==> y.Undefined?) && Alike(TreeOf(x), TreeOf(y))
  }

  lemma {:induction false} FieldsOfHas(fs: seq<Entry<Json>>, f: Entry<Json>)
    requires f in fs && !f.value.Undefined?
    ensures Entry(f.key, TreeOf(f.value)) in FieldsOf(fs)
  {
    if fs[0] != f { FieldsOfHas(fs[1..], f); }
  }

  lemma {:induction false} FieldsOfFrom(fs: seq<Entry<Json>>, t: Entry<Tree>) returns (f: Entry<Json>)
    requires t in FieldsOf(fs)
    ensures f in fs && !f.value.Undefined? && t == Entry(f.key, TreeOf(f.value))
  {
    if !fs[0].value.Undefined? && t == Entry(fs[0].key, TreeOf(fs[0].value)) {
      f := fs[0];
    } else {
      f := FieldsOfFrom(fs[1..], t);
    }
  }

  /** Alike objects have alike values under each key. */
  lemma {:induction false} AlikeFields(fs: seq<Entry<Json>>, gs: seq<Entry<Json>>, f: Entry<Json>, g: Entry<Json>)
    requires Alike(TreeOf(Obj(fs)), TreeOf(Obj(gs))) && DistinctKeys(fs) && DistinctKeys(gs)
    requires f in fs && g in gs && f.key == g.key
    ensures SameField(f.value, g.value)
  {
    if !f.value.Undefined? {
      FieldsOfHas(fs, f);
      assert HasPartner(Entry(f.key, TreeOf(f.value)), FieldsOf(gs));
      var t :| t in FieldsOf(gs) && t.key == f.key && Alike(TreeOf(f.value), t.value);
      var g' := FieldsOfFrom(gs, t);
      KeyDetermines(gs, g, g');
    } else if !g.value.Undefined? {
      FieldsOfHas(gs, g);
      assert HasKey(FieldsOf(fs), g.key);
      var t :| t in FieldsOf(fs) && t.key == g.key;
      var f' := FieldsOfFrom(fs, t);
      KeyDetermines(fs, f, f');
    }
  }

  lemma {:induction false} DocumentKeys(c: Config, fp: Json, r: Request)
    ensures DistinctKeys(KeyDocument(c, fp, r).fields)
  {
    var fs := KeyDocument(c, fp, r).fields;
    assert Ascii("scope")[0] == 115 && Ascii("model")[0] == 109 && Ascii("tools")[0] == 116;
    assert Ascii("fp")[0] != Ascii("rf")[0];
    assert |fs| == 8 && |fs[0].key| == 5 && |fs[1].key| == 6 && |fs[2].key| == 2 && |fs[3].key| == 5
      && |fs[4].key| == 11 && |fs[5].key| == 5 && |fs[6].key| == 2 && |fs[7].key| == 8;
  }

  lemma {:induction false} DocumentWellFormed(c: Config, fp: Json, r: Request)
    requires ProperRequest(c, fp, r)
    ensures WellFormed(KeyDocument(c, fp, r))
  {
    DocumentKeys(c, fp, r);
  }

  lemma {:induction false} SameKeySameDocument(c: Config, fp: Json, r: Request, fp': Json, r': Request)
    requires Injective(c.sha256) && ProperRequest(c, fp, r) && ProperRequest(c, fp', r')
    requires Key(c, fp, r) == Key(c, fp', r')
    ensures Alike(TreeOf(KeyDocument(c, fp, r)), TreeOf(KeyDocument(c, fp', r')))
  {
    var d, d' := KeyDocument(c, fp, r), KeyDocument(c, fp', r');
    SameLengthParts(KEY_PREFIX, KEY_PREFIX, c.sha256(Stringify(Norm(d))), c.sha256(Stringify(Norm(d'))));
    assert Stringify(Norm(d)) == Stringify(Norm(d'));
    DocumentWellFormed(c, fp, r);
    DocumentWellFormed(c, fp', r');
    CanonicalForm(d, d');
  }

  const KEYS: seq<Text> := [Ascii("scope"), Ascii("tenant"), Ascii("fp"), Ascii("model"), Ascii("temperature"),
    Ascii("tools"), Ascii("rf"), Ascii("messages")]

  /** `fs` are the fields of a key document, in order. */
  ghost predicate IsDocument(c: Config, fp: Json, r: Request, fs: seq<Entry<Json>>) {
    && |fs| == 8 && DistinctKeys(fs)
    && (forall i :: 0 <= i < 8 ==> fs[i].key == KEYS[i])
    && fs[1].value == Str(TenantText(r))
    && fs[2].value == fp
    && fs[3].value == r.model
    && fs[4].value == Num(c.number(Temperature(c, r)))
    && fs[5].value == r.tools
    && fs[6].value == r.responseFormat
    && fs[7].value == Arr(r.messages)
  }

  lemma {:induction false} DocumentParts(c: Config, fp: Json, r: Request) returns (fs: seq<Entry<Json>>)
    ensures KeyDocument(c, fp, r) == Obj(fs) && IsDocument(c, fp, r, fs)
  {
    DocumentKeys(c, fp, r);
    fs := KeyDocument(c, fp, r).fields;
  }

  lemma {:induction false} DocumentsAgree(c: Config, fp: Json, r: Request, fs: seq<Entry<Json>>, fp': Json, r': Request, gs: seq<Entry<Json>>)
    requires IsDocument(c, fp, r, fs) && IsDocument(c, fp', r', gs)
    requires Alike(TreeOf(Obj(fs)), TreeOf(Obj(gs)))
    ensures SameInput(c, fp, r, fp', r')
  {
    forall i | 0 <= i < 8 ensures SameField(fs[i].value, gs[i].value) {
      AlikeFields(fs, gs, fs[i], gs[i]);
    }
    SameString(fs[1].value, gs[1].value);
    SameString(fs[4].value, gs[4].value);
  }

  lemma {:induction false} SameString(x: Json, y: Json)
    requires SameField(x, y) && ((x.Str? && y.Str?) || (x.Num? && y.Num?))
    ensures x == y
  {}

  /** Requests under one key are the same input, for the same tenant and the same model settings. */
  lemma {:induction false} SameKeySameInput(c: Config, fp: Json, r: Request, fp': Json, r': Request)
    requires Injective(c.sha256) && ProperRequest(c, fp, r) && ProperRequest(c, fp', r')
    requires Key(c, fp, r) == Key(c, fp', r')
    ensures SameInput(c, fp, r, fp', r')
  {
    SameKeySameDocument(c, fp, r, fp', r');
    var fs := DocumentParts(c, fp, r);
    var gs := DocumentParts(c, fp', r');
    DocumentsAgree(c, fp, r, fs, fp', r', gs);
  }

  ghost predicate IsOrigin(c: Config, a: Asked, h: Asked) {
    a.answer == h.answer && Cacheable(c, a.request) && SameInput(c, a.fp, a.request, h.fp, h.request)
  }

  /** Cache transparency: over every interleaving, a hit is an answer the inner client gave earlier to the
      same input of the same tenant under the same settings, and it was complete, unfiltered and not empty. */
  lemma {:induction false} HitsAreEarlierAnswers(c: Config, es: seq<Event>, h: Asked)
    requires Injective(c.sha256) && Possible(c, START, es) && h in Run(c, START, es).served
    ensures Storable(c, h.answer) && Servable(h.answer)
    ensures exists a :: a in Run(c, START, es).answers && IsOrigin(c, a, h)
  {
    assert Reads(START.calls) == {} && Open(START.calls) == {};
    RunKeeps(c, START, es);
    var s := Run(c, START, es);
    assert Justified(c, s.answers, h);
    var a :| a in s.answers && a.answer == h.answer && Key(c, a.fp, a.request) == Key(c, h.fp, h.request)
      && Storable(c, h.answer) && Cacheable(c, a.request);
    SameKeySameInput(c, a.fp, a.request, h.fp, h.request);
  }
}
