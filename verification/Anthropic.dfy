/** Translation of a history into the Anthropic message shape. */
module Anthropic {
  import Sequences
  import opened Prelude
  import opened Conversation

  datatype Block =
    | Text(text: string)
    | ToolUse(id: string, name: string, input: string)
    | ToolResult(useId: string, content: string)

  /** `content` of a message: a text, or a list of blocks. */
  datatype AMessage =
    | AssistantBlocks(blocks: seq<Block>)
    | UserText(text: string)
    | UserBlocks(blocks: seq<Block>)

  /** The arguments as an object: the parsed text, or the empty object. */
  type Parse = string -> string

  function Uses(parse: Parse, calls: seq<Call>, n: nat): seq<Block>
    requires n <= |calls|
  {
    if n == 0 then [] else
    var x := calls[n - 1];
    Uses(parse, calls, n - 1) + [ToolUse(x.id, x.name, parse(x.args))]
  }

  function TurnBlocks(parse: Parse, content: string, calls: seq<Call>): seq<Block> {
    var blocks := (if content != "" then [Text(content)] else []) + Uses(parse, calls, |calls|);
    if blocks == [] then [Text("")] else blocks
  }

  predicate OnlyResults(blocks: seq<Block>) { forall i :: 0 <= i < |blocks| ==> blocks[i].ToolResult? }

  predicate TakesResults(a: AMessage) { a.UserBlocks? && OnlyResults(a.blocks) }

  /** One message of the history added to the translation. */
  function Translate(parse: Parse, r: seq<AMessage>, m: Message): seq<AMessage> {
    match m
    case System(_) => r
    case Assistant(content, calls, _) => r + [AssistantBlocks(TurnBlocks(parse, content, calls))]
    case Tool(id, _, content) =>
      if r != [] && TakesResults(r[|r| - 1]) then
        r[|r| - 1 := UserBlocks(r[|r| - 1].blocks + [ToolResult(id, content)])]
      else r + [UserBlocks([ToolResult(id, content)])]
    case User(content) => r + [UserText(content)]
  }

  function Translated(parse: Parse, h: History, n: nat): seq<AMessage>
    requires n <= |h|
  {
    if n == 0 then [] else Translate(parse, Translated(parse, h, n - 1), h[n - 1])
  }

  /** System texts, empty ones left out, joined by a blank line. */
  function SystemText(h: History, n: nat): Option<string>
    requires n <= |h|
  {
    if n == 0 then None else
    var rest := SystemText(h, n - 1);
    if !h[n - 1].System? || h[n - 1].content == "" then rest
    else if rest.None? then Some(h[n - 1].content)
    else Some(rest.value + "\n\n" + h[n - 1].content)
  }

  function Translation(parse: Parse, h: History): seq<AMessage> { Translated(parse, h, |h|) }

  function SystemPrompt(h: History): Option<string> { SystemText(h, |h|) }

  function Join(parts: seq<string>): Option<string> {
    if parts == [] then None
    else if |parts| == 1 then Some(parts[0])
    else Some(Join(parts[..|parts| - 1]).value + "\n\n" + parts[|parts| - 1])
  }

  /** The inner loop: the blocks of one assistant turn, never none. */
  method AssistantContent(parse: Parse, content: string, calls: seq<Call>) returns (blocks: seq<Block>)
    ensures blocks == TurnBlocks(parse, content, calls)
  {
    blocks := [];
    if content != "" {
      blocks := [Text(content)];
    }
    ghost var head := if content != "" then [Text(content)] else [];
    for k := 0 to |calls|
      invariant blocks == head + Uses(parse, calls, k)
    {
      var call := calls[k];
      blocks := blocks + [ToolUse(call.id, call.name, parse(call.args))];
    }
    if |blocks| == 0 {
      blocks := [Text("")];
    }
  }

  method ConvertMessagesToAnthropic(parse: Parse, messages: History) returns (system: Option<string>, result: seq<AMessage>)
    ensures result == Translation(parse, messages)
    ensures system == SystemPrompt(messages)
  {
    var systemParts: seq<string> := [];
    result := [];
    for n := 0 to |messages|
      invariant result == Translated(parse, messages, n)
      invariant Join(systemParts) == SystemText(messages, n)
    {
      var m := messages[n];
      if m.System? {
        if m.content != "" {
          assert (systemParts + [m.content])[..|systemParts|] == systemParts;
          systemParts := systemParts + [m.content];
        }
        continue;
      }
      if m.Assistant? {
        var blocks := AssistantContent(parse, m.content, m.calls);
        result := result + [AssistantBlocks(blocks)];
        continue;
      }
      if m.Tool? {
        var block := ToolResult(m.callId, m.content);
        if |result| > 0 && TakesResults(result[|result| - 1]) {
          // The batch that is already there grows in place.
          var prev := result[|result| - 1];
          result := result[|result| - 1 := UserBlocks(prev.blocks + [block])];
        } else {
          result := result + [UserBlocks([block])];
        }
        continue;
      }
      result := result + [UserText(m.content)];
    }
    return Join(systemParts), result;
  }

  // ---- Meaning ----

  /** What a conversation says, message boundaries aside. */
  datatype Said =
    | SaidText(text: string)
    | Used(id: string, name: string, input: string)
    | Got(id: string, content: string)
    | Asked(text: string)

  function SaidByCalls(parse: Parse, calls: seq<Call>, n: nat): seq<Said>
    requires n <= |calls|
  {
    if n == 0 then [] else
    SaidByCalls(parse, calls, n - 1) + [Used(calls[n - 1].id, calls[n - 1].name, parse(calls[n - 1].args))]
  }

  function SaidBy(parse: Parse, m: Message): seq<Said> {
    match m
    case System(_) => []
    case User(content) => [Asked(content)]
    case Tool(id, _, content) => [Got(id, content)]
    case Assistant(content, calls, _) =>
      (if content == "" then [] else [SaidText(content)]) + SaidByCalls(parse, calls, |calls|)
  }

  function SaidIn(parse: Parse, h: History, n: nat): seq<Said>
    requires n <= |h|
  {
    if n == 0 then [] else SaidIn(parse, h, n - 1) + SaidBy(parse, h[n - 1])
  }

  /** An empty text block says nothing. */
  function BlockSays(b: Block): seq<Said> {
    match b
    case Text(t) => if t == "" then [] else [SaidText(t)]
    case ToolUse(id, name, input) => [Used(id, name, input)]
    case ToolResult(id, content) => [Got(id, content)]
  }

  function BlocksSay(bs: seq<Block>): seq<Said> {
    if bs == [] then [] else BlocksSay(bs[..|bs| - 1]) + BlockSays(bs[|bs| - 1])
  }

  function MessageSays(a: AMessage): seq<Said> {
    match a
    case AssistantBlocks(bs) => BlocksSay(bs)
    case UserText(t) => [Asked(t)]
    case UserBlocks(bs) => BlocksSay(bs)
  }

  function AllSay(r: seq<AMessage>): seq<Said> {
    if r == [] then [] else AllSay(r[..|r| - 1]) + MessageSays(r[|r| - 1])
  }

  lemma {:induction false} BlocksSayAppend(a: seq<Block>, b: seq<Block>)
    ensures BlocksSay(a + b) == BlocksSay(a) + BlocksSay(b)
  {
    if b == [] {
      assert a + b == a;
    } else {
      var front, x := b[..|b| - 1], b[|b| - 1];
      BlocksSayAppend(a, front);
      Sequences.Front(b);
      Sequences.Assoc(a, front, [x]);
      BlocksSayPush(a + front, x);
      Sequences.Assoc(BlocksSay(a), BlocksSay(front), BlockSays(x));
    }
  }

  lemma {:induction false} BlocksSayPush(bs: seq<Block>, b: Block)
    ensures BlocksSay(bs + [b]) == BlocksSay(bs) + BlockSays(b)
  {
    Sequences.Push(bs, b);
  }

  lemma {:induction false} UsesSay(parse: Parse, calls: seq<Call>, n: nat)
    requires n <= |calls|
    ensures BlocksSay(Uses(parse, calls, n)) == SaidByCalls(parse, calls, n)
  {
    if n > 0 {
      UsesSay(parse, calls, n - 1);
      var u := Uses(parse, calls, n);
      assert u[..|u| - 1] == Uses(parse, calls, n - 1);
    }
  }

  lemma {:induction false} PushSays(r: seq<AMessage>, a: AMessage)
    ensures AllSay(r + [a]) == AllSay(r) + MessageSays(a)
  {
    assert (r + [a])[..|r|] == r;
  }

  lemma {:induction false} OneBlock(b: Block)
    ensures BlocksSay([b]) == BlockSays(b)
  {
    assert [b][..0] == [];
  }

  lemma {:induction false} TurnSays(parse: Parse, content: string, calls: seq<Call>)
    ensures BlocksSay(TurnBlocks(parse, content, calls))
      == (if content == "" then [] else [SaidText(content)]) + SaidByCalls(parse, calls, |calls|)
  {
    var text := if content != "" then [Text(content)] else [];
    UsesSay(parse, calls, |calls|);
    BlocksSayAppend(text, Uses(parse, calls, |calls|));
    OneBlock(Text(content));
    OneBlock(Text(""));
  }

  lemma {:induction false} ToolSays(parse: Parse, r: seq<AMessage>, id: string, name: string, content: string)
    ensures AllSay(Translate(parse, r, Tool(id, name, content))) == AllSay(r) + [Got(id, content)]
  {
    var b := ToolResult(id, content);
    if r != [] && TakesResults(r[|r| - 1]) {
      var front, last := r[..|r| - 1], r[|r| - 1];
      GrowSays(front, last.blocks, b);
      Sequences.Front(r);
      assert r[|r| - 1 := UserBlocks(last.blocks + [b])] == front + [UserBlocks(last.blocks + [b])];
    } else {
      OneBlock(b);
      PushSays(r, UserBlocks([b]));
    }
  }

  lemma {:induction false} GrowSays(front: seq<AMessage>, bs: seq<Block>, b: Block)
    ensures AllSay(front + [UserBlocks(bs + [b])]) == AllSay(front + [UserBlocks(bs)]) + BlockSays(b)
  {
    PushSays(front, UserBlocks(bs + [b]));
    PushSays(front, UserBlocks(bs));
    BlocksSayPush(bs, b);
    Sequences.Assoc(AllSay(front), BlocksSay(bs), BlockSays(b));
  }

  lemma {:induction false} TranslateSays(parse: Parse, r: seq<AMessage>, m: Message, g: seq<AMessage>)
    requires g == Translate(parse, r, m)
    ensures AllSay(g) == AllSay(r) + SaidBy(parse, m)
  {
    match m
    case System(_) =>
    case User(content) => PushSays(r, UserText(content));
    case Tool(id, name, content) => ToolSays(parse, r, id, name, content);
    case Assistant(content, calls, _) =>
      TurnSays(parse, content, calls);
      PushSays(r, AssistantBlocks(TurnBlocks(parse, content, calls)));
  }

  lemma {:induction false} SaysSameUpTo(parse: Parse, h: History, n: nat, r: seq<AMessage>, said: seq<Said>)
    requires n <= |h| && r == Translated(parse, h, n) && said == SaidIn(parse, h, n)
    ensures AllSay(r) == said
    decreases n
  {
    if n > 0 {
      var before := Translated(parse, h, n - 1);
      SaysSameUpTo(parse, h, n - 1, before, SaidIn(parse, h, n - 1));
      TranslateSays(parse, before, h[n - 1], r);
    }
  }

  /** The translation says what the history says, in the same order; only the system prompt moves out. */
  lemma {:induction false} TranslationSaysTheSame(parse: Parse, h: History)
    ensures AllSay(Translation(parse, h)) == SaidIn(parse, h, |h|)
  {
    SaysSameUpTo(parse, h, |h|, Translated(parse, h, |h|), SaidIn(parse, h, |h|));
  }

  // ---- Shape ----

  /** No empty content, and consecutive results are always in one message. */
  ghost predicate WellShaped(r: seq<AMessage>) {
    && (forall i :: 0 <= i < |r| && !r[i].UserText? ==> r[i].blocks != [])
    && (forall i :: 0 <= i < |r| && r[i].UserBlocks? ==> OnlyResults(r[i].blocks))
    && (forall i :: 0 <= i < |r| - 1 ==> !(r[i].UserBlocks? && r[i + 1].UserBlocks?))
  }

  lemma {:induction false} TranslationWellShaped(parse: Parse, h: History, n: nat)
    requires n <= |h|
    ensures WellShaped(Translated(parse, h, n))
  {
    if n > 0 { TranslationWellShaped(parse, h, n - 1); }
  }

  // ---- Tool results ----

  function UseIds(bs: seq<Block>): seq<string> {
    if bs == [] then [] else
    UseIds(bs[..|bs| - 1]) + if bs[|bs| - 1].ToolUse? then [bs[|bs| - 1].id] else []
  }

  function ResultIds(bs: seq<Block>): seq<string> {
    if bs == [] then [] else
    ResultIds(bs[..|bs| - 1]) + if bs[|bs| - 1].ToolResult? then [bs[|bs| - 1].useId] else []
  }

  function Requested(a: AMessage): seq<string> { if a.AssistantBlocks? then UseIds(a.blocks) else [] }

  /** The message behind an assistant message that uses tools holds one result for each use, and nothing
      else. */
  ghost predicate UsesAnsweredAt(r: seq<AMessage>, i: nat) {
    i < |r| && Requested(r[i]) != [] ==>
      i + 1 < |r| && TakesResults(r[i + 1]) && OneForEach(ResultIds(r[i + 1].blocks), Requested(r[i]))
  }

  /** What is left of `ids` once the results have come in, one by one. */
  function Left(ids: seq<string>, results: seq<string>): Debt {
    if results == [] then Owing(ids) else
    match Left(ids, results[..|results| - 1])
    case Wrong => Wrong
    case Owing(d) =>
      var x := results[|results| - 1];
      if x in d then Owing(Remove(d, x)) else Wrong
  }

  lemma {:induction false} LeftFront(ids: seq<string>, results: seq<string>)
    requires results != []
    ensures Left(ids, results)
      == if results[0] in ids then Left(Remove(ids, results[0]), results[1..]) else Wrong
  {
    var most := results[..|results| - 1];
    if most == [] {
      assert results[1..] == [];
    } else {
      LeftFront(ids, most);
      var rest := results[1..];
      assert most[1..] == rest[..|rest| - 1] && results[|results| - 1] == rest[|rest| - 1];
      LeftLast(ids, results);
      LeftLast(Remove(ids, results[0]), rest);
    }
  }

  /** The last result, taken off what is left. */
  function Taken(d: Debt, x: string): Debt {
    if d.Wrong? then Wrong else if x in d.ids then Owing(Remove(d.ids, x)) else Wrong
  }

  lemma {:induction false} LeftLast(ids: seq<string>, results: seq<string>)
    requires results != []
    ensures Left(ids, results) == Taken(Left(ids, results[..|results| - 1]), results[|results| - 1])
  {}

  lemma {:induction false} NothingLeft(ids: seq<string>, results: seq<string>)
    requires Left(ids, results) == NONE
    ensures OneForEach(results, ids)
    decreases results
  {
    if results != [] {
      LeftFront(ids, results);
      NothingLeft(Remove(ids, results[0]), results[1..]);
    }
  }

  ghost predicate CoupledAt(r: seq<AMessage>, d: seq<string>, i: nat)
    requires i < |r|
  {
    Requested(r[i]) != [] ==>
      if i + 1 == |r| then d == Requested(r[i]) else
      TakesResults(r[i + 1]) && Left(Requested(r[i]), ResultIds(r[i + 1].blocks)) == Owing(if i + 2 == |r| then d else [])
  }

  /** Whose results are still missing: the last message, or the one before a batch that is still growing. */
  ghost predicate Expecting(r: seq<AMessage>) {
    || (r != [] && Requested(r[|r| - 1]) != [])
    || (|r| >= 2 && TakesResults(r[|r| - 1]) && Requested(r[|r| - 2]) != [])
  }

  /** How the translation so far stands to the debt of the history so far. */
  ghost predicate Coupled(r: seq<AMessage>, d: seq<string>) {
    (forall i: nat :: i < |r| ==> CoupledAt(r, d, i)) && (d != [] ==> Expecting(r))
  }

  lemma {:induction false} UseIdsPush(bs: seq<Block>, id: string, name: string, input: string)
    ensures UseIds(bs + [ToolUse(id, name, input)]) == UseIds(bs) + [id]
  {
    assert (bs + [ToolUse(id, name, input)])[..|bs|] == bs;
  }

  lemma {:induction false} UsesIds(parse: Parse, calls: seq<Call>, n: nat, uses: seq<Block>)
    requires n <= |calls| && uses == Uses(parse, calls, n)
    ensures |UseIds(uses)| == n && forall i :: 0 <= i < n ==> UseIds(uses)[i] == calls[i].id
    decreases n
  {
    if n > 0 {
      var x, most := calls[n - 1], Uses(parse, calls, n - 1);
      UsesIds(parse, calls, n - 1, most);
      UseIdsPush(most, x.id, x.name, parse(x.args));
    }
  }

  lemma {:induction false} UseIdsAppend(a: seq<Block>, b: seq<Block>)
    ensures UseIds(a + b) == UseIds(a) + UseIds(b)
  {
    if b == [] {
      assert a + b == a;
    } else {
      var front, x := b[..|b| - 1], b[|b| - 1];
      UseIdsAppend(a, front);
      Sequences.Front(b);
      Sequences.Assoc(a, front, [x]);
      Sequences.Push(a + front, x);
      Sequences.Assoc(UseIds(a), UseIds(front), if x.ToolUse? then [x.id] else []);
    }
  }

  lemma {:induction false} NoUseInText(t: string)
    ensures UseIds([Text(t)]) == []
  {}

  lemma {:induction false} TurnRequests(parse: Parse, content: string, calls: seq<Call>)
    ensures UseIds(TurnBlocks(parse, content, calls)) == Ids(calls)
  {
    var uses := Uses(parse, calls, |calls|);
    UsesIds(parse, calls, |calls|, uses);
    assert UseIds(uses) == Ids(calls);
    if content == "" {
      assert [] + uses == uses;
      NoUseInText("");
    } else {
      UseIdsAppend([Text(content)], uses);
      NoUseInText(content);
    }
  }

  lemma {:induction false} PushCoupled(r: seq<AMessage>, a: AMessage, d: seq<string>)
    requires Coupled(r, []) && d == Requested(a)
    ensures Coupled(r + [a], d)
  {
    forall i: nat | i < |r| + 1 ensures CoupledAt(r + [a], d, i) {
      if i < |r| { assert CoupledAt(r, [], i); }
    }
  }

  lemma {:induction false} ResultIdsPush(bs: seq<Block>, id: string, content: string)
    ensures ResultIds(bs + [ToolResult(id, content)]) == ResultIds(bs) + [id]
  {
    assert (bs + [ToolResult(id, content)])[..|bs|] == bs;
  }

  lemma {:induction false} OneLess(ids: seq<string>, results: seq<string>, d: seq<string>, x: string)
    requires Left(ids, results) == Owing(d) && x in d
    ensures Left(ids, results + [x]) == Owing(Remove(d, x))
  {
    assert (results + [x])[..|results|] == results;
  }

  /** A result joins the batch at the end. */
  lemma {:induction false} GrowCoupled(r: seq<AMessage>, d: seq<string>, id: string, content: string)
    requires Coupled(r, d) && id in d && TakesResults(r[|r| - 1])
    ensures Coupled(r[|r| - 1 := UserBlocks(r[|r| - 1].blocks + [ToolResult(id, content)])], Remove(d, id))
  {
    var bs := r[|r| - 1].blocks + [ToolResult(id, content)];
    var g := r[|r| - 1 := UserBlocks(bs)];
    GrowLeft(r, d, id, content, bs);
    forall i: nat | i < |g| ensures CoupledAt(g, Remove(d, id), i) {
      GrowAt(r, d, bs, Remove(d, id), i);
    }
    assert TakesResults(g[|g| - 1]);
  }

  lemma {:induction false} GrowLeft(r: seq<AMessage>, d: seq<string>, id: string, content: string, bs: seq<Block>)
    requires Coupled(r, d) && id in d && TakesResults(r[|r| - 1]) && bs == r[|r| - 1].blocks + [ToolResult(id, content)]
    ensures |r| >= 2 && Requested(r[|r| - 2]) != [] && OnlyResults(bs)
    ensures Left(Requested(r[|r| - 2]), ResultIds(bs)) == Owing(Remove(d, id))
  {
    var last := r[|r| - 1];
    assert Expecting(r);
    ResultIdsPush(last.blocks, id, content);
    assert CoupledAt(r, d, |r| - 2);
    OneLess(Requested(r[|r| - 2]), ResultIds(last.blocks), d, id);
  }

  lemma {:induction false} GrowAt(r: seq<AMessage>, d: seq<string>, bs: seq<Block>, e: seq<string>, i: nat)
    requires |r| >= 2 && Coupled(r, d) && TakesResults(r[|r| - 1]) && OnlyResults(bs) && i < |r|
    requires Left(Requested(r[|r| - 2]), ResultIds(bs)) == Owing(e)
    ensures CoupledAt(r[|r| - 1 := UserBlocks(bs)], e, i)
  {
    assert CoupledAt(r, d, i);
  }

  lemma {:induction false} OneResult(id: string, content: string)
    ensures ResultIds([ToolResult(id, content)]) == [id]
  {}

  /** The first result behind an assistant message opens a batch. */
  lemma {:induction false} StartCoupled(r: seq<AMessage>, d: seq<string>, id: string, content: string)
    requires Coupled(r, d) && id in d && !TakesResults(r[|r| - 1])
    ensures Coupled(r + [UserBlocks([ToolResult(id, content)])], Remove(d, id))
  {
    var g := r + [UserBlocks([ToolResult(id, content)])];
    OneResult(id, content);
    assert Expecting(r);
    assert CoupledAt(r, d, |r| - 1);
    OneLess(d, [], d, id);
    assert [] + [id] == [id];
    forall i: nat | i < |g| ensures CoupledAt(g, Remove(d, id), i) {
      StartAt(r, d, id, content, i);
    }
  }

  lemma {:induction false} StartAt(r: seq<AMessage>, d: seq<string>, id: string, content: string, i: nat)
    requires Coupled(r, d) && r != [] && Requested(r[|r| - 1]) == d && !TakesResults(r[|r| - 1]) && i <= |r|
    requires Left(d, [id]) == Owing(Remove(d, id)) && ResultIds([ToolResult(id, content)]) == [id]
    ensures CoupledAt(r + [UserBlocks([ToolResult(id, content)])], Remove(d, id), i)
  {
    if i < |r| { assert CoupledAt(r, d, i); }
  }

  lemma {:induction false} TranslationCoupled(parse: Parse, h: History, n: nat)
    requires n <= |h| && DebtAt(h, n).Owing?
    ensures Coupled(Translated(parse, h, n), DebtAt(h, n).ids)
  {
    if n > 0 {
      TranslationCoupled(parse, h, n - 1);
      var r, d := Translated(parse, h, n - 1), DebtAt(h, n - 1).ids;
      match h[n - 1]
      case System(_) =>
      case User(content) => PushCoupled(r, UserText(content), []);
      case Assistant(content, calls, _) =>
        TurnRequests(parse, content, calls);
        PushCoupled(r, AssistantBlocks(TurnBlocks(parse, content, calls)), Ids(calls));
      case Tool(id, _, content) =>
        if TakesResults(r[|r| - 1]) { GrowCoupled(r, d, id, content); } else { StartCoupled(r, d, id, content); }
    }
  }

  /** A history that answers every call translates into one that does so in Anthropic's terms. */
  lemma {:induction false} AnsweredTranslates(parse: Parse, h: History)
    requires Answered(h)
    ensures forall i: nat :: UsesAnsweredAt(Translation(parse, h), i)
  {
    var r := Translated(parse, h, |h|);
    TranslationCoupled(parse, h, |h|);
    forall i: nat ensures UsesAnsweredAt(r, i) {
      if i < |r| && Requested(r[i]) != [] {
        assert CoupledAt(r, [], i);
        NothingLeft(Requested(r[i]), ResultIds(r[i + 1].blocks));
      }
    }
  }
}
