/** The workspace index: files packed into size-capped dumps, and read back by byte offset. */
module Indexer {
  import opened Prelude
  import opened Digits
  import Sequences

  type Byte = b: int | 0 <= b < 256

  type Bytes = seq<Byte>

  const MAX_DUMP_BYTES: nat := 500 * 1024

  /** A path and its bytes, and the bytes of the file's text unless it cannot be read. */
  datatype File = File(path: Bytes, content: Option<Bytes>)

  datatype Entry = Entry(path: Bytes, dumpFile: string, startByte: nat, endByte: nat)

  function Ascii(s: string): Bytes {
    seq(|s|, i requires 0 <= i < |s| => if s[i] < 128 as char then s[i] as int else 0)
  }

  const NEWLINE: Bytes := [10]

  function Marker(path: Bytes): Bytes { Ascii(">>> FILE: ") + path + Ascii(" >>>") + NEWLINE }

  function EndMarker(path: Bytes): Bytes { Ascii("<<< END: ") + path + Ascii(" <<<") + NEWLINE }

  function Block(path: Bytes, content: Bytes): (b: Bytes)
    ensures |b| > 0
    ensures Marker(path) + content <= b
  {
    Marker(path) + content + (if content != [] && content[|content| - 1] == 10 then [] else NEWLINE) + EndMarker(path)
  }

  function DumpFileName(n: nat): string { "index" + PadStart(Printed(n), 3) + ".dump" }

  /** Dump names are different for different numbers, past 999 too. */
  lemma {:induction false} DumpNamesDiffer(m: nat, n: nat)
    requires DumpFileName(m) == DumpFileName(n)
    ensures m == n
  {
    var a, b := PadStart(Printed(m), 3), PadStart(Printed(n), 3);
    var s, t := DumpFileName(m), DumpFileName(n);
    assert s[5..|s| - 5] == a && t[5..|t| - 5] == b;
    PaddedValue(Printed(m), 3);
    PaddedValue(Printed(n), 3);
    PrintedValue(m);
    PrintedValue(n);
  }

  // ---- Packing ----

  /** The blocks of each dump, the last one being written, and the entries so far. */
  datatype Packing = Packing(dumps: seq<seq<Bytes>>, entries: seq<Entry>)

  function Flat(blocks: seq<Bytes>): Bytes {
    if blocks == [] then [] else Flat(blocks[..|blocks| - 1]) + blocks[|blocks| - 1]
  }

  function Last(p: Packing): seq<Bytes>
    requires p.dumps != []
  {
    p.dumps[|p.dumps| - 1]
  }

  /** Whether a block has to go to a dump of its own. */
  predicate Rolls(current: nat, block: nat) { current + block > MAX_DUMP_BYTES && current > 0 }

  function Place(p: Packing, f: File): (q: Packing)
    requires p.dumps != []
    ensures q.dumps != []
  {
    if f.content.None? then p else
    var block, size, head := Block(f.path, f.content.value), |Flat(Last(p))|, |Marker(f.path)|;
    if Rolls(size, |block|) then
      Packing(p.dumps + [[block]],
              p.entries + [Entry(f.path, DumpFileName(|p.dumps| + 1), head, head + |f.content.value|)])
    else
      Packing(p.dumps[..|p.dumps| - 1] + [Last(p) + [block]],
              p.entries + [Entry(f.path, DumpFileName(|p.dumps|), size + head, size + head + |f.content.value|)])
  }

  function Pack(files: seq<File>, n: nat): (p: Packing)
    requires n <= |files|
    ensures p.dumps != []
  {
    if n == 0 then Packing([[]], []) else Place(Pack(files, n - 1), files[n - 1])
  }

  ghost predicate OnDisk(disk: map<string, Bytes>, dumps: seq<seq<Bytes>>) {
    forall i :: 0 <= i < |dumps| ==> Holds(disk, dumps, i)
  }

  ghost predicate Holds(disk: map<string, Bytes>, dumps: seq<seq<Bytes>>, i: nat)
    requires i < |dumps|
  {
    DumpFileName(i + 1) in disk && disk[DumpFileName(i + 1)] == Flat(dumps[i])
  }

  lemma {:induction false} FlatMore(blocks: seq<Bytes>, b: Bytes)
    ensures Flat(blocks + [b]) == Flat(blocks) + b
  {
    assert (blocks + [b])[..|blocks|] == blocks;
  }

  /** Appending to the dump being written, or starting the next, leaves the other dumps alone. */
  lemma {:induction false} WriteKeepsDisk(disk: map<string, Bytes>, p: Packing, q: Packing, block: Bytes, disk': map<string, Bytes>)
    requires p.dumps != [] && OnDisk(disk, p.dumps)
    requires || q.dumps == p.dumps + [[block]]
             || q.dumps == p.dumps[..|p.dumps| - 1] + [Last(p) + [block]]
    requires disk' == disk[DumpFileName(|q.dumps|) := Flat(Last(q))]
    ensures OnDisk(disk', q.dumps)
  {
    forall i | 0 <= i < |q.dumps| ensures Holds(disk', q.dumps, i) {
      if i < |q.dumps| - 1 {
        assert q.dumps[i] == p.dumps[i];
        assert Holds(disk, p.dumps, i);
        if DumpFileName(i + 1) == DumpFileName(|q.dumps|) { DumpNamesDiffer(i + 1, |q.dumps|); }
      }
    }
  }

  /** What one more file does to the dump being written. */
  lemma {:induction false} PlaceWrites(p: Packing, f: File, block: Bytes, size: nat, head: nat, q: Packing)
    requires p.dumps != [] && f.content.Some? && q == Place(p, f)
    requires block == Block(f.path, f.content.value) && size == |Flat(Last(p))| && head == |Marker(f.path)|
    ensures Rolls(size, |block|) ==>
      |q.dumps| == |p.dumps| + 1 && Flat(Last(q)) == block && q.dumps == p.dumps + [[block]]
    ensures !Rolls(size, |block|) ==>
      |q.dumps| == |p.dumps| && Flat(Last(q)) == Flat(Last(p)) + block && q.dumps == p.dumps[..|p.dumps| - 1] + [Last(p) + [block]]
    ensures var start := head + if Rolls(size, |block|) then 0 else size;
      q.entries == p.entries + [Entry(f.path, DumpFileName(|q.dumps|), start, start + |f.content.value|)]
  {
    FlatMore(Last(p), block);
    FlatMore([], block);
    assert [] + [block] == [block];
  }

  /** The dumps and entries as written so far. */
  ghost predicate Written(disk: map<string, Bytes>, entries: seq<Entry>, dumpIndex: nat, current: string, size: nat, p: Packing) {
    && p.dumps != [] && entries == p.entries && OnDisk(disk, p.dumps)
    && dumpIndex == |p.dumps| && current == DumpFileName(dumpIndex) && size == |Flat(Last(p))|
  }

  lemma {:induction false} WrittenCurrent(disk: map<string, Bytes>, entries: seq<Entry>, dumpIndex: nat, current: string, size: nat, p: Packing)
    requires Written(disk, entries, dumpIndex, current, size, p)
    ensures current in disk && disk[current] == Flat(Last(p))
  {
    assert Holds(disk, p.dumps, dumpIndex - 1);
  }

  method BuildIndex(files: seq<File>) returns (disk: map<string, Bytes>, entries: seq<Entry>)
    ensures OnDisk(disk, Pack(files, |files|).dumps) && entries == Pack(files, |files|).entries
  {
    entries := [];
    var dumpIndex := 1;
    var currentDumpSize := 0;
    var current := DumpFileName(dumpIndex);
    disk := map[current := []];
    for i := 0 to |files|
      invariant Written(disk, entries, dumpIndex, current, currentDumpSize, Pack(files, i))
    {
      if files[i].content.None? { continue; }
      disk, entries, dumpIndex, current, currentDumpSize :=
        WriteFile(disk, entries, dumpIndex, current, currentDumpSize, files[i], Pack(files, i));
    }
  }

  /** The body of the loop for a file that could be read. */
  method WriteFile(disk0: map<string, Bytes>, entries0: seq<Entry>, dumpIndex0: nat, current0: string, size0: nat, f: File, ghost p: Packing)
    returns (disk: map<string, Bytes>, entries: seq<Entry>, dumpIndex: nat, current: string, currentDumpSize: nat)
    requires f.content.Some? && Written(disk0, entries0, dumpIndex0, current0, size0, p)
    ensures Written(disk, entries, dumpIndex, current, currentDumpSize, Place(p, f))
  {
    disk, entries, dumpIndex, current, currentDumpSize := disk0, entries0, dumpIndex0, current0, size0;
    WrittenCurrent(disk, entries, dumpIndex, current, currentDumpSize, p);
    var block, markerBytes := Block(f.path, f.content.value), |Marker(f.path)|;
    ghost var q := Place(p, f);
    PlaceWrites(p, f, block, size0, markerBytes, q);
    if currentDumpSize + |block| > MAX_DUMP_BYTES && currentDumpSize > 0 {
      dumpIndex := dumpIndex + 1;
      current := DumpFileName(dumpIndex);
      disk := disk[current := []];
      currentDumpSize := 0;
    }
    var startByte := currentDumpSize + markerBytes;
    disk := disk[current := disk[current] + block];
    currentDumpSize := currentDumpSize + |block|;
    var endByte := startByte + |f.content.value|;
    entries := entries + [Entry(f.path, current, startByte, endByte)];
    assert disk == disk0[current := Flat(Last(q))];
    WriteKeepsDisk(disk0, p, q, block, disk);
  }

  // ---- Reading back ----

  /** `buffer.slice(start, end)` */
  function Slice(b: Bytes, start: nat, end: nat): Bytes {
    var to := Min(end, |b|);
    if start >= to then [] else b[start..to]
  }

  /** The first entry for a path, as `find` sees it. */
  function FirstEntry(entries: seq<Entry>, path: Bytes): nat { Sequences.FindIndex(entries, (e: Entry) => e.path == path) }

  /** Nothing for a path that is not in the index, or whose dump is gone. */
  function ReadFromIndex(disk: map<string, Bytes>, entries: seq<Entry>, path: Bytes): Option<Bytes> {
    var i := FirstEntry(entries, path);
    if i == |entries| || entries[i].dumpFile !in disk then None
    else Some(Slice(disk[entries[i].dumpFile], entries[i].startByte, entries[i].endByte))
  }

  /** The files that could be read, in order. */
  function Readable(files: seq<File>, n: nat): seq<File>
    requires n <= |files|
  {
    if n == 0 then [] else
    Readable(files, n - 1) + if files[n - 1].content.Some? then [files[n - 1]] else []
  }

  /** Entry `e` points at the bytes of `f`. */
  ghost predicate Locates(dumps: seq<seq<Bytes>>, e: Entry, f: File) {
    && f.content.Some? && e.path == f.path
    && exists d: nat :: d < |dumps| && LocatesIn(dumps, d, e, f.content.value)
  }

  ghost predicate LocatesIn(dumps: seq<seq<Bytes>>, d: nat, e: Entry, content: Bytes)
    requires d < |dumps|
  {
    && e.dumpFile == DumpFileName(d + 1)
    && e.startByte + |content| == e.endByte <= |Flat(dumps[d])|
    && Flat(dumps[d])[e.startByte..e.endByte] == content
  }

  lemma {:induction false} FreshLocates(before: Bytes, f: File)
    requires f.content.Some?
    ensures var b, head := before + Block(f.path, f.content.value), |before| + |Marker(f.path)|;
      head + |f.content.value| <= |b| && b[head..head + |f.content.value|] == f.content.value
  {
    var c, m := f.content.value, Marker(f.path);
    var block := Block(f.path, c);
    assert block[|m|..|m| + |c|] == (m + c)[|m|..|m| + |c|] == c;
    assert (before + block)[|before| + |m|..|before| + |m| + |c|] == block[|m|..|m| + |c|];
  }

  lemma {:induction false} PlaceKeepsLocates(p: Packing, f: File, e: Entry, g: File)
    requires p.dumps != [] && Locates(p.dumps, e, g)
    ensures Locates(Place(p, f).dumps, e, g)
  {
    var q, d: nat := Place(p, f), 0;
    d :| d < |p.dumps| && LocatesIn(p.dumps, d, e, g.content.value);
    if f.content.Some? {
      FlatMore(Last(p), Block(f.path, f.content.value));
    }
    assert Flat(p.dumps[d]) <= Flat(q.dumps[d]);
    assert Flat(q.dumps[d])[e.startByte..e.endByte] == Flat(p.dumps[d])[e.startByte..e.endByte];
    assert LocatesIn(q.dumps, d, e, g.content.value);
  }

  /** A block at the end of the last dump is found there. */
  lemma {:induction false} LastLocates(dumps: seq<seq<Bytes>>, before: Bytes, f: File, e: Entry)
    requires f.content.Some? && dumps != [] && Flat(dumps[|dumps| - 1]) == before + Block(f.path, f.content.value)
    requires var head := |before| + |Marker(f.path)|;
      e == Entry(f.path, DumpFileName(|dumps|), head, head + |f.content.value|)
    ensures Locates(dumps, e, f)
  {
    FreshLocates(before, f);
    assert LocatesIn(dumps, |dumps| - 1, e, f.content.value);
  }

  lemma {:induction false} PlaceLocates(p: Packing, f: File)
    requires p.dumps != [] && f.content.Some?
    ensures var q := Place(p, f); |q.entries| == |p.entries| + 1 && Locates(q.dumps, q.entries[|p.entries|], f)
  {
    var q, block := Place(p, f), Block(f.path, f.content.value);
    var size, head := |Flat(Last(p))|, |Marker(f.path)|;
    PlaceWrites(p, f, block, size, head, q);
    var before := if Rolls(size, |block|) then [] else Flat(Last(p));
    assert Flat(Last(q)) == before + block;
    LastLocates(q.dumps, before, f, q.entries[|p.entries|]);
  }

  /** Each entry points at the bytes of its file. */
  ghost predicate Located(p: Packing, r: seq<File>) {
    |p.entries| == |r| && forall i :: 0 <= i < |r| ==> Locates(p.dumps, p.entries[i], r[i])
  }

  lemma {:induction false} PlaceKeepsLocated(p: Packing, f: File, r: seq<File>)
    requires p.dumps != [] && Located(p, r)
    ensures Located(Place(p, f), r + if f.content.Some? then [f] else [])
  {
    var q := Place(p, f);
    assert |q.entries| == |p.entries| + (if f.content.Some? then 1 else 0) && q.entries[..|r|] == p.entries;
    forall i | 0 <= i < |q.entries| ensures Locates(q.dumps, q.entries[i], (r + if f.content.Some? then [f] else [])[i]) {
      if i < |r| {
        PlaceKeepsLocates(p, f, p.entries[i], r[i]);
        assert q.entries[i] == q.entries[..|r|][i];
      } else {
        PlaceLocates(p, f);
      }
    }
  }

  lemma {:induction false} EntriesLocate(files: seq<File>, n: nat)
    requires n <= |files|
    ensures Located(Pack(files, n), Readable(files, n))
  {
    if n > 0 {
      EntriesLocate(files, n - 1);
      PlaceKeepsLocated(Pack(files, n - 1), files[n - 1], Readable(files, n - 1));
    }
  }

  lemma {:induction false} ReadableMembers(files: seq<File>, n: nat, f: File)
    requires n <= |files|
    ensures f in Readable(files, n) <==> f in files[..n] && f.content.Some?
  {
    if n > 0 {
      ReadableMembers(files, n - 1, f);
      assert files[..n] == files[..n - 1] + [files[n - 1]];
    }
  }

  ghost predicate DistinctPaths(files: seq<File>) {
    forall i, j :: 0 <= i < j < |files| ==> files[i].path != files[j].path
  }

  lemma {:induction false} PathDecides(files: seq<File>, f: File, g: File)
    requires DistinctPaths(files) && f in files && g in files && f.path == g.path
    ensures f == g
  {
    var i :| 0 <= i < |files| && files[i] == f;
    var j :| 0 <= j < |files| && files[j] == g;
  }

  lemma {:induction false} EntryReads(disk: map<string, Bytes>, dumps: seq<seq<Bytes>>, e: Entry, f: File)
    requires OnDisk(disk, dumps) && Locates(dumps, e, f)
    ensures e.dumpFile in disk && Slice(disk[e.dumpFile], e.startByte, e.endByte) == f.content.value
  {
    var d: nat :| d < |dumps| && LocatesIn(dumps, d, e, f.content.value);
    assert Holds(disk, dumps, d);
  }

  lemma {:induction false} IndexedEntry(files: seq<File>, k: nat)
    requires k < |Pack(files, |files|).entries|
    ensures exists g :: g in files && g.content.Some? && Locates(Pack(files, |files|).dumps, Pack(files, |files|).entries[k], g)
  {
    EntriesLocate(files, |files|);
    assert files[..|files|] == files;
    var r := Readable(files, |files|);
    ReadableMembers(files, |files|, r[k]);
    assert r[k] in r;
  }

  lemma {:induction false} IndexedFile(files: seq<File>, f: File)
    requires f in files && f.content.Some?
    ensures exists k :: 0 <= k < |Pack(files, |files|).entries| && Pack(files, |files|).entries[k].path == f.path
  {
    EntriesLocate(files, |files|);
    assert files[..|files|] == files;
    var r := Readable(files, |files|);
    ReadableMembers(files, |files|, f);
    var j :| 0 <= j < |r| && r[j] == f;
    assert Locates(Pack(files, |files|).dumps, Pack(files, |files|).entries[j], r[j]);
  }

  /** Every file comes back byte for byte, and a file that could not be read is not in the index. */
  lemma {:induction false} RoundTrip(files: seq<File>, disk: map<string, Bytes>, i: nat)
    requires DistinctPaths(files) && i < |files|
    requires OnDisk(disk, Pack(files, |files|).dumps)
    ensures ReadFromIndex(disk, Pack(files, |files|).entries, files[i].path) == files[i].content
  {
    var p, f := Pack(files, |files|), files[i];
    var k := FirstEntry(p.entries, f.path);
    if k < |p.entries| {
      IndexedEntry(files, k);
      var g :| g in files && g.content.Some? && Locates(p.dumps, p.entries[k], g);
      PathDecides(files, f, g);
      EntryReads(disk, p.dumps, p.entries[k], g);
    } else if f.content.Some? {
      IndexedFile(files, f);
    }
  }

  // ---- How full the dumps are ----

  function Blocks(files: seq<File>, n: nat): seq<Bytes>
    requires n <= |files|
  {
    if n == 0 then [] else Blocks(files, n - 1) + BlocksOf(files[n - 1])
  }

  function AllBytes(dumps: seq<seq<Bytes>>): Bytes {
    if dumps == [] then [] else AllBytes(dumps[..|dumps| - 1]) + Flat(dumps[|dumps| - 1])
  }

  lemma {:induction false} AllBytesMore(dumps: seq<seq<Bytes>>, d: seq<Bytes>)
    ensures AllBytes(dumps + [d]) == AllBytes(dumps) + Flat(d)
  {
    assert (dumps + [d])[..|dumps|] == dumps;
  }

  lemma {:induction false} NoBytes(dumps: seq<seq<Bytes>>)
    requires dumps == [[]]
    ensures AllBytes(dumps) == []
  {
    AllBytesMore([], []);
    assert dumps == [] + [[]];
  }

  /** The dumps, one after the other, are the blocks of the files in order. */
  lemma {:induction false} DumpsAreBlocks(files: seq<File>, n: nat)
    requires n <= |files|
    ensures AllBytes(Pack(files, n).dumps) == Flat(Blocks(files, n))
  {
    if n == 0 {
      NoBytes(Pack(files, 0).dumps);
    } else {
      DumpsAreBlocks(files, n - 1);
      OneMoreFile(Pack(files, n - 1), Blocks(files, n - 1), files[n - 1]);
    }
  }

  function BlocksOf(f: File): seq<Bytes> { if f.content.Some? then [Block(f.path, f.content.value)] else [] }

  lemma {:induction false} OneMoreFile(p: Packing, blocks: seq<Bytes>, f: File)
    requires p.dumps != [] && AllBytes(p.dumps) == Flat(blocks)
    ensures AllBytes(Place(p, f).dumps) == Flat(blocks + BlocksOf(f))
  {
    if f.content.Some? {
      FlatMore(blocks, Block(f.path, f.content.value));
      PlaceAppends(p, f);
    } else {
      assert blocks + [] == blocks;
    }
  }

  lemma {:induction false} PlaceAppends(p: Packing, f: File)
    requires p.dumps != [] && f.content.Some?
    ensures AllBytes(Place(p, f).dumps) == AllBytes(p.dumps) + Block(f.path, f.content.value)
  {
    var block, q := Block(f.path, f.content.value), Place(p, f);
    PlaceWrites(p, f, block, |Flat(Last(p))|, |Marker(f.path)|, q);
    if Rolls(|Flat(Last(p))|, |block|) {
      NewDumpAppends(p.dumps, block);
    } else {
      Sequences.Front(p.dumps);
      SameDumpAppends(p.dumps[..|p.dumps| - 1], Last(p), block);
    }
  }

  lemma {:induction false} SingleBlock(block: Bytes)
    ensures Flat([block]) == block
  {
    assert [] + [block] == [block];
    FlatMore([], block);
  }

  lemma {:induction false} NewDumpAppends(dumps: seq<seq<Bytes>>, block: Bytes)
    ensures AllBytes(dumps + [[block]]) == AllBytes(dumps) + block
  {
    AllBytesMore(dumps, [block]);
    SingleBlock(block);
  }

  lemma {:induction false} SameDumpAppends(front: seq<seq<Bytes>>, last: seq<Bytes>, block: Bytes)
    ensures AllBytes(front + [last + [block]]) == AllBytes(front + [last]) + block
  {
    AllBytesMore(front, last + [block]);
    AllBytesMore(front, last);
    FlatMore(last, block);
    Sequences.Assoc(AllBytes(front), Flat(last), block);
  }

  function Size(dumps: seq<seq<Bytes>>, i: nat): nat
    requires i < |dumps|
  {
    |Flat(dumps[i])|
  }

  /** A dump over the cap holds a single block. */
  ghost predicate Capped(dumps: seq<seq<Bytes>>) {
    forall i :: 0 <= i < |dumps| ==> Size(dumps, i) <= MAX_DUMP_BYTES || |dumps[i]| == 1
  }

  /** No dump could have taken the next one's first block. */
  ghost predicate Tight(dumps: seq<seq<Bytes>>) {
    forall i :: 0 <= i < |dumps| - 1 ==> Size(dumps, i) + Size(dumps, i + 1) > MAX_DUMP_BYTES
  }

  ghost predicate NoneEmpty(blocks: seq<Bytes>) { forall b :: b in blocks ==> b != [] }

  lemma {:induction false} EmptyWhenNoBytes(blocks: seq<Bytes>)
    requires NoneEmpty(blocks)
    ensures |Flat(blocks)| == 0 <==> blocks == []
  {
    if blocks != [] { assert blocks[|blocks| - 1] in blocks; }
  }

  lemma {:induction false} PackingIsTight(files: seq<File>, n: nat)
    requires n <= |files|
    ensures Capped(Pack(files, n).dumps) && Tight(Pack(files, n).dumps) && NoneEmpty(Last(Pack(files, n)))
  {
    if n > 0 {
      PackingIsTight(files, n - 1);
      var f := files[n - 1];
      if f.content.Some? {
        var block, p := Block(f.path, f.content.value), Pack(files, n - 1);
        PlaceWrites(p, f, block, |Flat(Last(p))|, |Marker(f.path)|, Pack(files, n));
        EmptyWhenNoBytes(Last(p));
        StaysTight(p.dumps, block, Pack(files, n).dumps);
      }
    }
  }

  lemma {:induction false} StaysTight(dumps: seq<seq<Bytes>>, block: Bytes, dumps': seq<seq<Bytes>>)
    requires dumps != [] && block != [] && Capped(dumps) && Tight(dumps)
    requires var last := dumps[|dumps| - 1];
      && NoneEmpty(last) && (|Flat(last)| == 0 <==> last == [])
      && dumps' == if Rolls(|Flat(last)|, |block|) then dumps + [[block]] else dumps[..|dumps| - 1] + [last + [block]]
    ensures Capped(dumps') && Tight(dumps') && NoneEmpty(dumps'[|dumps'| - 1])
  {
    var last := dumps[|dumps| - 1];
    if Rolls(|Flat(last)|, |block|) {
      SingleBlock(block);
      RollsTight(dumps, [block]);
    } else {
      FlatMore(last, block);
      assert |Flat(last + [block])| <= MAX_DUMP_BYTES || |last + [block]| == 1;
      GrowsTight(dumps, last + [block]);
    }
  }

  lemma {:induction false} RollsTight(dumps: seq<seq<Bytes>>, next: seq<Bytes>)
    requires dumps != [] && |next| == 1 && Capped(dumps) && Tight(dumps)
    requires |Flat(dumps[|dumps| - 1])| + |Flat(next)| > MAX_DUMP_BYTES
    ensures Capped(dumps + [next]) && Tight(dumps + [next])
  {
    forall i | 0 <= i < |dumps| ensures Size(dumps + [next], i) + Size(dumps + [next], i + 1) > MAX_DUMP_BYTES {
      if i < |dumps| - 1 { assert Size(dumps, i) + Size(dumps, i + 1) > MAX_DUMP_BYTES; }
    }
    forall i | 0 <= i <= |dumps| ensures Size(dumps + [next], i) <= MAX_DUMP_BYTES || |(dumps + [next])[i]| == 1 {
      if i < |dumps| { assert Size(dumps, i) <= MAX_DUMP_BYTES || |dumps[i]| == 1; }
    }
  }

  lemma {:induction false} GrowsTight(dumps: seq<seq<Bytes>>, grown: seq<Bytes>)
    requires dumps != [] && Capped(dumps) && Tight(dumps)
    requires |Flat(grown)| <= MAX_DUMP_BYTES || |grown| == 1
    requires |Flat(grown)| >= |Flat(dumps[|dumps| - 1])|
    ensures Capped(dumps[..|dumps| - 1] + [grown]) && Tight(dumps[..|dumps| - 1] + [grown])
  {
    var dumps' := dumps[..|dumps| - 1] + [grown];
    forall i | 0 <= i < |dumps| - 1 ensures Size(dumps', i) + Size(dumps', i + 1) > MAX_DUMP_BYTES {
      assert Size(dumps, i) + Size(dumps, i + 1) > MAX_DUMP_BYTES;
    }
    forall i | 0 <= i < |dumps| ensures Size(dumps', i) <= MAX_DUMP_BYTES || |dumps'[i]| == 1 {
      if i < |dumps| - 1 { assert Size(dumps, i) <= MAX_DUMP_BYTES || |dumps[i]| == 1; }
    }
  }

  /** So many dumps need so many bytes: at least half of them are full, in effect. */
  lemma {:induction false} DumpsNeedBytes(dumps: seq<seq<Bytes>>)
    requires Tight(dumps)
    ensures |AllBytes(dumps)| >= (MAX_DUMP_BYTES + 1) * (|dumps| / 2)
    decreases |dumps|
  {
    var n := |dumps|;
    if n >= 2 {
      TightPrefix(dumps, n - 2);
      DumpsNeedBytes(dumps[..n - 2]);
      LastTwo(dumps);
      assert n / 2 == (n - 2) / 2 + 1;
    }
  }

  lemma {:induction false} TightPrefix(dumps: seq<seq<Bytes>>, n: nat)
    requires Tight(dumps) && n <= |dumps|
    ensures Tight(dumps[..n])
  {
    forall i | 0 <= i < n - 1 ensures Size(dumps[..n], i) + Size(dumps[..n], i + 1) > MAX_DUMP_BYTES {
      assert Size(dumps, i) + Size(dumps, i + 1) > MAX_DUMP_BYTES;
    }
  }

  lemma {:induction false} LastTwo(dumps: seq<seq<Bytes>>)
    requires Tight(dumps) && |dumps| >= 2
    ensures |AllBytes(dumps)| > |AllBytes(dumps[..|dumps| - 2])| + MAX_DUMP_BYTES
  {
    var n := |dumps|;
    assert Size(dumps, n - 2) + Size(dumps, n - 1) > MAX_DUMP_BYTES;
    assert dumps[..n - 1][..n - 2] == dumps[..n - 2];
    assert |AllBytes(dumps)| == |AllBytes(dumps[..n - 1])| + Size(dumps, n - 1);
    assert |AllBytes(dumps[..n - 1])| == |AllBytes(dumps[..n - 2])| + Size(dumps, n - 2);
  }

  lemma {:induction false} IndexNeedsBytes(files: seq<File>)
    ensures |Flat(Blocks(files, |files|))| >= (MAX_DUMP_BYTES + 1) * (|Pack(files, |files|).dumps| / 2)
  {
    PackingIsTight(files, |files|);
    DumpsAreBlocks(files, |files|);
    DumpsNeedBytes(Pack(files, |files|).dumps);
  }
}

/** The fingerprint an index entry carries. */
module Fingerprint {
  const WORD: nat := 0x1_0000_0000

  /** The inverse of 31 for 32-bit words. */
  const INVERSE: nat := 3186588639

  type Unit = u: int | 0 <= u < 0x1_0000

  /** `x | 0`: the signed 32-bit word congruent to `x`. */
  function ToInt32(x: int): int {
    var w := x % WORD;
    if w < 0x8000_0000 then w else w - WORD
  }

  /** `x >>> 0` */
  function ToUint32(x: int): int { x % WORD }

  /** The polynomial the loop evaluates. */
  function Polynomial(s: seq<Unit>): int {
    if s == [] then 0 else 31 * Polynomial(s[..|s| - 1]) + s[|s| - 1]
  }

  lemma {:induction false} WrapAgrees(x: int, h: int, c: int)
    requires ToUint32(h) == ToUint32(x)
    ensures ToUint32(ToInt32(h * 31 + c)) == ToUint32(31 * x + c)
  {
    var k := (h - x) / WORD;
    assert h - x == WORD * k;
    assert h * 31 + c == 31 * x + c + WORD * (31 * k);
  }

  method HashContent(content: seq<Unit>) returns (version: int)
    ensures version == ToUint32(Polynomial(content))
  {
    var hash := 0;
    for i := 0 to |content|
      invariant ToUint32(hash) == ToUint32(Polynomial(content[..i]))
    {
      WrapAgrees(Polynomial(content[..i]), hash, content[i]);
      assert content[..i + 1][..i] == content[..i];
      hash := ToInt32(hash * 31 + content[i]);
    }
    assert content[..|content|] == content;
    version := ToUint32(hash);
  }

  predicate Collide(s: seq<Unit>, t: seq<Unit>) { ToUint32(Polynomial(s)) == ToUint32(Polynomial(t)) }

  lemma {:induction false} Congruent(a: int, b: int, k: int)
    requires a - b == WORD * k
    ensures ToUint32(a) == ToUint32(b)
  {}

  /** 31 is invertible for 32-bit words, so a step of the loop loses nothing. */
  lemma {:induction false} StepCancels(a: int, b: int, c: int)
    ensures ToUint32(31 * a + c) == ToUint32(31 * b + c) <==> ToUint32(a) == ToUint32(b)
  {
    if ToUint32(a) == ToUint32(b) {
      var k := a / WORD - b / WORD;
      Congruent(31 * a + c, 31 * b + c, 31 * k);
    }
    if ToUint32(31 * a + c) == ToUint32(31 * b + c) {
      var m := (31 * a + c) / WORD - (31 * b + c) / WORD;
      assert 31 * (a - b) == WORD * m;
      assert 31 * INVERSE == 1 + WORD * 23;
      Congruent(a, b, INVERSE * m - 23 * (a - b));
    }
  }

  lemma {:induction false} PolynomialMore(s: seq<Unit>, c: Unit)
    ensures Polynomial(s + [c]) == 31 * Polynomial(s) + c
  {
    assert (s + [c])[..|s|] == s;
  }

  /** Two texts collide exactly when they still do with the same ending. */
  lemma {:induction false} SameEnding(s: seq<Unit>, t: seq<Unit>, u: seq<Unit>)
    ensures Collide(s + u, t + u) <==> Collide(s, t)
  {
    if u == [] {
      assert s + u == s && t + u == t;
    } else {
      var v, c := u[..|u| - 1], u[|u| - 1];
      SameEnding(s, t, v);
      assert s + u == s + v + [c] && t + u == t + v + [c];
      PolynomialMore(s + v, c);
      PolynomialMore(t + v, c);
      StepCancels(Polynomial(s + v), Polynomial(t + v), c);
    }
  }

  /** Changing one unit of a text always changes its fingerprint. */
  lemma {:induction false} SingleChangeDetected(s: seq<Unit>, i: nat, c: Unit)
    requires i < |s| && s[i] != c
    ensures !Collide(s, s[i := c])
  {
    var p, u := s[..i], s[i + 1..];
    assert s == p + [s[i]] + u && s[i := c] == p + [c] + u;
    SameEnding(p + [s[i]], p + [c], u);
    LastDiffers(p, s[i], c);
  }

  lemma {:induction false} LastDiffers(p: seq<Unit>, b: Unit, c: Unit)
    requires b != c
    ensures !Collide(p + [b], p + [c])
  {
    PolynomialMore(p, b);
    PolynomialMore(p, c);
    Congruence(31 * Polynomial(p) + b, 31 * Polynomial(p) + c);
  }

  lemma {:induction false} Congruence(a: int, b: int)
    ensures ToUint32(a) == ToUint32(b) ==> a - b == WORD * (a / WORD - b / WORD)
  {}

  /** Two changes can cancel out: "Aa" and "BB" are interchangeable anywhere. */
  lemma {:induction false} TwoChangesMissed(p: seq<Unit>, u: seq<Unit>)
    ensures Collide(p + [65, 97] + u, p + [66, 66] + u)
  {
    PolynomialMore(p, 65);
    PolynomialMore(p + [65], 97);
    PolynomialMore(p, 66);
    PolynomialMore(p + [66], 66);
    assert p + [65, 97] == p + [65] + [97] && p + [66, 66] == p + [66] + [66];
    SameEnding(p + [65, 97], p + [66, 66], u);
  }
}
