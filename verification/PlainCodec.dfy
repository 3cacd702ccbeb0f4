/** A host's JSON in miniature: what compaction asks of the real one can be met. */
module PlainCodec {
  import opened Prelude
  import opened Conversation
  import opened Compaction

  function Ones(n: nat): string { if n == 0 then "" else ['1'] + Ones(n - 1) }

  function LeadingOnes(text: string): (n: nat)
    ensures n <= |text|
  {
    if text == [] || text[0] != '1' then 0 else 1 + LeadingOnes(text[1..])
  }

  /** The marker, the length of the path in strokes, the path, and the mode if there is one. */
  function Written(path: string, mode: Option<string>): string {
    STALE_WRITE + (Ones(|path|) + (['0'] + (path + match mode case None => [] case Some(m) => ['+'] + m)))
  }

  /** Reads what stands behind the marker. */
  function Unmarked(text: string): Option<Fields> {
    var n := LeadingOnes(text);
    if |text| < 2 * n + 1 then None else
    var rest := text[2 * n + 1..];
    Some(Fields(Some(text[n + 1..2 * n + 1]), if rest == [] then None else Some(rest[1..])))
  }

  function Read(text: string): Option<Fields> {
    if |text| < |STALE_WRITE| then None else Unmarked(text[|STALE_WRITE|..])
  }

  function PLAIN(): Codec { Codec(Read, Written, (path: string) => STALE_READ + path, (x: Call) => x.name) }

  lemma {:induction false} OnesLead(n: nat, rest: string)
    requires rest != [] && rest[0] != '1'
    ensures |Ones(n)| == n && LeadingOnes(Ones(n) + rest) == n
  {
    if n == 0 {
      assert [] + rest == rest;
    } else {
      OnesLead(n - 1, rest);
      assert (Ones(n) + rest)[1..] == Ones(n - 1) + rest;
    }
  }

  lemma {:induction false} ReadsBack(path: string, mode: Option<string>)
    ensures Read(Written(path, mode)) == Some(Fields(Some(path), mode))
  {
    var tail := match mode case None => [] case Some(m) => ['+'] + m;
    var text := Ones(|path|) + (['0'] + (path + tail));
    OnesLead(|path|, ['0'] + (path + tail));
    assert Written(path, mode)[|STALE_WRITE|..] == text;
    assert text[|path| + 1..2 * |path| + 1] == path && text[2 * |path| + 1..] == tail;
  }

  lemma {:induction false} BeginsWith(marker: string, rest: string)
    ensures Includes(marker + rest, marker)
  {
    assert At(marker + rest, marker, 0);
  }

  /** There is a sound codec. */
  lemma {:induction false} SoundCodec()
    ensures Sound(PLAIN())
  {
    forall path: string, mode: Option<string>
      ensures Read(Written(path, mode)) == Some(Fields(Some(path), mode)) && Includes(Written(path, mode), STALE_WRITE)
    {
      ReadsBack(path, mode);
      BeginsWith(STALE_WRITE, Ones(|path|) + (['0'] + (path + match mode case None => [] case Some(m) => ['+'] + m)));
    }
    forall path: string ensures Includes(PLAIN().staleNote(path), STALE_READ) {
      BeginsWith(STALE_READ, path);
    }
  }
}
