/** RIFF chunk framing: `riff.rs`. */
module Riff {
  import opened Utf8
  import opened Words

  type Bytes = seq<Byte>

  type FourCc = b: Bytes | |b| == 4 witness [0, 0, 0, 0]

  const RIFF: FourCc := [0x52, 0x49, 0x46, 0x46]
  const LIST: FourCc := [0x4C, 0x49, 0x53, 0x54]

  datatype Chunk = Chunk(id: FourCc, data: Bytes)

  // ----- Little-endian fields

  /** The low sixteen bits, low byte first; of a negative number those of its two's complement. */
  function Le16(n: int): (b: Bytes)
    ensures |b| == 2
  {
    [n % 0x100, n / 0x100 % 0x100]
  }

  function Le32(n: int): (b: Bytes)
    ensures |b| == 4
  {
    Le16(n) + Le16(n / 0x1_0000)
  }

  function U16(b: Bytes): Word16
    requires |b| == 2
  {
    var low: int, high: int := b[0], b[1];
    low + 0x100 * high
  }

  function U32(b: Bytes): Word32
    requires |b| == 4
  {
    var low: int, high: int := U16(b[..2]), U16(b[2..]);
    low + 0x1_0000 * high
  }

  function I16(b: Bytes): Int16
    requires |b| == 2
  {
    if U16(b) < 0x8000 then U16(b) else U16(b) - 0x1_0000
  }

  lemma U16OfLe16(n: int)
    ensures U16(Le16(n)) == n % 0x1_0000
    ensures -0x8000 <= n < 0x8000 ==> I16(Le16(n)) == n
  {
    var q := n / 0x100 / 0x100;
    assert n == 0x1_0000 * q + (n % 0x100 + 0x100 * (n / 0x100 % 0x100));
  }

  lemma Halves(n: int)
    ensures n % 0x1_0000_0000 == n % 0x1_0000 + 0x1_0000 * (n / 0x1_0000 % 0x1_0000)
  {
    var q := n / 0x1_0000 / 0x1_0000;
    assert n == 0x1_0000_0000 * q + (n % 0x1_0000 + 0x1_0000 * (n / 0x1_0000 % 0x1_0000));
  }

  lemma U32OfLe32(n: int)
    ensures U32(Le32(n)) == n % 0x1_0000_0000
  {
    hide Le16, U16;
    U16OfLe16(n);
    U16OfLe16(n / 0x1_0000);
    Halves(n);
    assert Le32(n)[..2] == Le16(n) && Le32(n)[2..] == Le16(n / 0x1_0000);
  }

  // ----- Writing

  function Pad(body: Bytes): Bytes {
    if |body| % 2 == 1 then [0] else []
  }

  function WriteChunk(id: FourCc, body: Bytes): (b: Bytes)
    ensures |b| == 8 + |body| + |body| % 2
  {
    id + Le32(|body|) + body + Pad(body)
  }

  function WriteList(form: FourCc, body: Bytes): Bytes {
    WriteChunk(LIST, form + body)
  }

  function Zeros(n: nat): (b: Bytes)
    ensures |b| == n
  {
    seq(n, _ => 0)
  }

  /** A name in a field of `width` bytes, cut or filled up with NULs. */
  function FixedStr(s: Bytes, width: nat): (b: Bytes)
    ensures |b| == width
  {
    var n := Min(|s|, width);
    s[..n] + Zeros(width - n)
  }

  // ----- Reading

  function FormAndBody(data: Bytes): Result<(FourCc, Bytes)> {
    if |data| < 4 then Err else Ok((data[..4], data[4..]))
  }

  /** The bytes in front of the first NUL. */
  function UpToNul(b: Bytes): (s: Bytes)
    ensures s <= b && 0 !in s
    ensures s == b || b[|s|] == 0
  {
    if b == [] || b[0] == 0 then [] else [b[0]] + UpToNul(b[1..])
  }

  /** The name in a field. */
  function CStr(b: Bytes): Bytes {
    Lossy(UpToNul(b))
  }

  function Prepend(out: seq<Chunk>, r: Result<seq<Chunk>>): Result<seq<Chunk>> {
    match r
    case Ok(rest) => Ok(out + rest)
    case Err => Err
  }

  /** The sibling chunks from `pos` on. */
  function ParseAt(buf: Bytes, pos: nat): (r: Result<seq<Chunk>>)
    decreases |buf| - pos
  {
    if pos >= |buf| then Ok([])
    else if pos + 8 > |buf| then Err
    else
      var len := U32(buf[pos + 4..pos + 8]);
      var end := pos + 8 + len;
      if end > |buf| then Err
      else Prepend([Chunk(buf[pos..pos + 4], buf[pos + 8..end])], ParseAt(buf, end + len % 2))
  }

  method ParseChunks(buf: Bytes) returns (r: Result<seq<Chunk>>)
    ensures r == ParseAt(buf, 0)
  {
    hide U32;
    var out, pos: nat := [], 0;
    PrependNothing(ParseAt(buf, 0));
    while pos < |buf|
      invariant ParseAt(buf, 0) == Prepend(out, ParseAt(buf, pos))
      decreases |buf| - pos
    {
      if pos + 8 > |buf| {
        return Err;
      }
      var len := U32(buf[pos + 4..pos + 8]);
      var end := pos + 8 + len;
      if end > |buf| {
        return Err;
      }
      PrependTwice(out, Chunk(buf[pos..pos + 4], buf[pos + 8..end]), ParseAt(buf, end + len % 2));
      out := out + [Chunk(buf[pos..pos + 4], buf[pos + 8..end])];
      pos := end + len % 2;
    }
    assert out + [] == out;
    return Ok(out);
  }

  lemma PrependNothing(r: Result<seq<Chunk>>)
    ensures Prepend([], r) == r
  {
    if r.Ok? {
      assert [] + r.value == r.value;
    }
  }

  lemma PrependTwice(out: seq<Chunk>, c: Chunk, r: Result<seq<Chunk>>)
    ensures Prepend(out, Prepend([c], r)) == Prepend(out + [c], r)
  {
    if r.Ok? {
      assert out + ([c] + r.value) == out + [c] + r.value;
    }
  }

  // ----- What parsing means, by positions

  /** Where chunk k begins when the first one begins at pos: behind a header of 8 bytes, its data and a pad byte
      for odd lengths comes the next. */
  function Position(pos: nat, chunks: seq<Chunk>, k: nat): nat
    requires k <= |chunks|
    decreases k
  {
    if k == 0 then pos else Position(pos + 8 + |chunks[0].data| + |chunks[0].data| % 2, chunks[1..], k - 1)
  }

  /** A chunk lies at p: four bytes of its id, four of its length, the low one first, and its data. */
  predicate LiesAt(buf: Bytes, p: nat, c: Chunk) {
    && p + 8 + |c.data| <= |buf|
    && buf[p..p + 4] == c.id && buf[p + 8..p + 8 + |c.data|] == c.data
    && |c.data| == buf[p + 4] + 0x100 * (buf[p + 5] as int) + 0x1_0000 * (buf[p + 6] as int)
                 + 0x100_0000 * (buf[p + 7] as int)
  }

  /** The chunks lie one behind the other from pos on and reach the end of the buffer; the last pad byte may be
      missing. */
  ghost predicate IsSplit(buf: Bytes, pos: nat, chunks: seq<Chunk>) {
    && (forall k :: 0 <= k < |chunks| ==> LiesAt(buf, Position(pos, chunks, k), chunks[k]))
    && Position(pos, chunks, |chunks|) >= |buf|
    && (chunks != [] ==> pos < |buf|)
  }

  lemma LengthField(buf: Bytes, p: nat)
    requires p + 8 <= |buf|
    ensures U32(buf[p + 4..p + 8])
         == buf[p + 4] + 0x100 * (buf[p + 5] as int) + 0x1_0000 * (buf[p + 6] as int) + 0x100_0000 * (buf[p + 7] as int)
  {
  }

  lemma SplitAhead(buf: Bytes, pos: nat, chunks: seq<Chunk>)
    requires chunks != []
    ensures var next := pos + 8 + |chunks[0].data| + |chunks[0].data| % 2;
      IsSplit(buf, pos, chunks) <==>
        pos < |buf| && LiesAt(buf, pos, chunks[0]) && IsSplit(buf, next, chunks[1..])
  {
    hide LiesAt;
    var next, rest := pos + 8 + |chunks[0].data| + |chunks[0].data| % 2, chunks[1..];
    assert forall k :: 0 < k <= |chunks| ==> Position(pos, chunks, k) == Position(next, rest, k - 1);
    if LiesAt(buf, pos, chunks[0]) {
      LiesInside(buf, pos, chunks[0]);
    }
    if IsSplit(buf, pos, chunks) {
      assert LiesAt(buf, Position(pos, chunks, 0), chunks[0]);
      forall k | 0 <= k < |rest| ensures LiesAt(buf, Position(next, rest, k), rest[k]) {
        assert LiesAt(buf, Position(pos, chunks, k + 1), chunks[k + 1]);
      }
      if |chunks| > 1 {
        assert LiesAt(buf, Position(pos, chunks, 1), chunks[1]);
        LiesInside(buf, Position(pos, chunks, 1), chunks[1]);
      }
    }
    if LiesAt(buf, pos, chunks[0]) && IsSplit(buf, next, rest) {
      forall k | 0 <= k < |chunks| ensures LiesAt(buf, Position(pos, chunks, k), chunks[k]) {
        if k > 0 {
          assert LiesAt(buf, Position(next, rest, k - 1), rest[k - 1]);
        }
      }
    }
  }

  lemma LiesInside(buf: Bytes, p: nat, c: Chunk)
    requires LiesAt(buf, p, c)
    ensures p + 8 <= |buf|
  {
  }

  lemma OneChunkLies(buf: Bytes, p: nat, c: Chunk, d: Chunk)
    requires LiesAt(buf, p, c) && LiesAt(buf, p, d)
    ensures c == d
  {
  }

  /** The parser takes the chunk that lies at pos, and fails when none does. */
  lemma FirstIsTaken(buf: Bytes, pos: nat, c: Chunk)
    requires pos < |buf|
    ensures LiesAt(buf, pos, c) ==>
      ParseAt(buf, pos) == Prepend([c], ParseAt(buf, pos + 8 + |c.data| + |c.data| % 2))
    ensures ParseAt(buf, pos).Ok? ==>
      |ParseAt(buf, pos).value| > 0 && LiesAt(buf, pos, ParseAt(buf, pos).value[0])
  {
    hide Prepend, U32;
    if pos + 8 <= |buf| {
      LengthField(buf, pos);
      var len := U32(buf[pos + 4..pos + 8]);
      if pos + 8 + len <= |buf| {
        Prepended(Chunk(buf[pos..pos + 4], buf[pos + 8..pos + 8 + len]), ParseAt(buf, pos + 8 + len + len % 2));
      }
    }
  }

  lemma Prepended(c: Chunk, r: Result<seq<Chunk>>)
    ensures Prepend([c], r).Ok? <==> r.Ok?
    ensures r.Ok? ==> |Prepend([c], r).value| > 0
    ensures r.Ok? ==> Prepend([c], r).value[0] == c && Prepend([c], r).value[1..] == r.value
  {
  }

  lemma OneChunkOn(buf: Bytes, pos: nat, chunks: seq<Chunk>, next: nat)
    requires chunks != [] && pos < |buf| && next == pos + 8 + |chunks[0].data| + |chunks[0].data| % 2
    ensures ParseAt(buf, pos) == Ok(chunks) <==>
      LiesAt(buf, pos, chunks[0]) && ParseAt(buf, next) == Ok(chunks[1..])
  {
    hide ParseAt, LiesAt, Prepend;
    var c := chunks[0];
    FirstIsTaken(buf, pos, c);
    Prepended(c, ParseAt(buf, next));
    assert [c] + chunks[1..] == chunks;
    if LiesAt(buf, pos, c) && ParseAt(buf, next) == Ok(chunks[1..]) {
      var parsed := ParseAt(buf, pos).value;
      assert parsed == [parsed[0]] + parsed[1..];
    }
  }

  lemma {:induction false} ParseFromIsSplit(buf: Bytes, pos: nat, chunks: seq<Chunk>)
    ensures ParseAt(buf, pos) == Ok(chunks) <==> IsSplit(buf, pos, chunks)
    decreases |chunks|
  {
    hide ParseAt, LiesAt, IsSplit;
    NothingToParse(buf, pos);
    if chunks != [] {
      var next := pos + 8 + |chunks[0].data| + |chunks[0].data| % 2;
      SplitAhead(buf, pos, chunks);
      NothingToParse(buf, next);
      ParseFromIsSplit(buf, next, chunks[1..]);
      if pos < |buf| {
        OneChunkOn(buf, pos, chunks, next);
      }
    }
  }

  lemma NothingToParse(buf: Bytes, pos: nat)
    ensures ParseAt(buf, pos) == Ok([]) <==> pos >= |buf|
    ensures IsSplit(buf, pos, []) <==> pos >= |buf|
    ensures forall chunks :: IsSplit(buf, pos, chunks) && chunks != [] ==> pos < |buf|
  {
    hide U32;
  }

  /** A buffer parses to these chunks if and only if they lie in it one behind the other from its beginning to
      its end; and it fails to parse if and only if no chunks do. */
  lemma ParseIsSplit(buf: Bytes, chunks: seq<Chunk>)
    ensures ParseAt(buf, 0) == Ok(chunks) <==> IsSplit(buf, 0, chunks)
    ensures ParseAt(buf, 0) == Err <==> forall other: seq<Chunk> :: !IsSplit(buf, 0, other)
  {
    hide ParseAt, IsSplit;
    forall other: seq<Chunk> ensures ParseAt(buf, 0) == Ok(other) <==> IsSplit(buf, 0, other) {
      ParseFromIsSplit(buf, 0, other);
    }
    if ParseAt(buf, 0).Ok? {
      assert IsSplit(buf, 0, ParseAt(buf, 0).value);
    }
  }

  // ----- Framing is undone by parsing

  function WriteAll(chunks: seq<Chunk>): Bytes {
    if chunks == [] then [] else WriteChunk(chunks[0].id, chunks[0].data) + WriteAll(chunks[1..])
  }

  ghost predicate Frameable(chunks: seq<Chunk>) {
    forall i :: 0 <= i < |chunks| ==> |chunks[i].data| < 0x1_0000_0000
  }

  /** What is written lies at its place; `b` goes on with other bytes. */
  lemma WrittenFields(c: Chunk, rest: Bytes, b: Bytes)
    requires |c.data| < 0x1_0000_0000 && b == WriteChunk(c.id, c.data) + rest
    ensures |b| == 8 + |c.data| + |c.data| % 2 + |rest|
    ensures b[..4] == c.id && U32(b[4..8]) == |c.data| && b[8..8 + |c.data|] == c.data
    ensures b[8 + |c.data| + |c.data| % 2..] == rest
  {
    hide U32, Le32;
    U32OfLe32(|c.data|);
    assert b[4..8] == Le32(|c.data|);
    assert b[8..8 + |c.data|] == c.data;
  }

  lemma Sub(buf: Bytes, pos: nat, lo: nat, hi: nat)
    requires pos + hi <= |buf| && lo <= hi
    ensures buf[pos..][lo..hi] == buf[pos + lo..pos + hi]
    ensures buf[pos..][hi..] == buf[pos + hi..]
  {
  }

  /** The chunk written at `pos` is the one read there. */
  lemma ChunkIsRead(buf: Bytes, pos: nat, c: Chunk, rest: Bytes, next: nat)
    requires |c.data| < 0x1_0000_0000
    requires pos <= |buf| && buf[pos..] == WriteChunk(c.id, c.data) + rest
    requires next == pos + |WriteChunk(c.id, c.data)|
    ensures next <= |buf| && buf[next..] == rest
    ensures ParseAt(buf, pos) == Prepend([c], ParseAt(buf, next))
  {
    hide U32, WriteChunk, Prepend;
    var n := |c.data|;
    WrittenFields(c, rest, buf[pos..]);
    Sub(buf, pos, 0, 4);
    Sub(buf, pos, 4, 8);
    Sub(buf, pos, 8, 8 + n);
    Sub(buf, pos, 0, 8 + n + n % 2);
  }

  lemma {:induction false} ParseWritten(buf: Bytes, pos: nat, chunks: seq<Chunk>)
    requires Frameable(chunks) && pos <= |buf| && buf[pos..] == WriteAll(chunks)
    ensures ParseAt(buf, pos) == Ok(chunks)
    decreases |chunks|
  {
    if chunks != [] {
      hide WriteChunk, ParseAt;
      var c, rest := chunks[0], chunks[1..];
      var next := pos + |WriteChunk(c.id, c.data)|;
      ChunkIsRead(buf, pos, c, WriteAll(rest), next);
      ParseWritten(buf, next, rest);
      assert [c] + rest == chunks;
    }
  }

  /** Any sequence of chunks is read back as it was written, odd lengths included. */
  lemma FramingInverse(chunks: seq<Chunk>)
    requires Frameable(chunks)
    ensures ParseAt(WriteAll(chunks), 0) == Ok(chunks)
  {
    ParseWritten(WriteAll(chunks), 0, chunks);
  }

  lemma WriteOne(c: Chunk)
    ensures WriteAll([c]) == WriteChunk(c.id, c.data)
  {
    hide WriteChunk;
    assert WriteAll([c]) == WriteChunk(c.id, c.data) + WriteAll([]);
  }

  lemma {:induction false} WriteAllAppend(a: seq<Chunk>, b: seq<Chunk>)
    ensures WriteAll(a + b) == WriteAll(a) + WriteAll(b)
    decreases |a|
  {
    hide WriteChunk;
    if a == [] {
      assert [] + b == b;
    } else {
      WriteAllAppend(a[1..], b);
      assert (a + b)[1..] == a[1..] + b;
    }
  }

  lemma {:induction false} FramedIsShorter(chunks: seq<Chunk>, i: nat)
    requires i < |chunks|
    ensures |chunks[i].data| <= |WriteAll(chunks)|
    decreases |chunks|
  {
    if i > 0 {
      FramedIsShorter(chunks[1..], i - 1);
    }
  }

  lemma FrameableWhenShort(chunks: seq<Chunk>)
    requires |WriteAll(chunks)| < 0x1_0000_0000
    ensures Frameable(chunks)
  {
    forall i | 0 <= i < |chunks| ensures |chunks[i].data| < 0x1_0000_0000 {
      FramedIsShorter(chunks, i);
    }
  }

  /** A list is one chunk, and its form and its own chunks come back from that chunk's data. */
  lemma ListInverse(form: FourCc, chunks: seq<Chunk>)
    requires Frameable(chunks) && |WriteAll(chunks)| + 4 < 0x1_0000_0000
    ensures ParseAt(WriteList(form, WriteAll(chunks)), 0) == Ok([Chunk(LIST, form + WriteAll(chunks))])
    ensures FormAndBody(form + WriteAll(chunks)) == Ok((form, WriteAll(chunks)))
    ensures ParseAt(WriteAll(chunks), 0) == Ok(chunks)
  {
    FramingInverse(chunks);
    var list := Chunk(LIST, form + WriteAll(chunks));
    FramingInverse([list]);
    WriteOne(list);
    assert (form + WriteAll(chunks))[..4] == form && (form + WriteAll(chunks))[4..] == WriteAll(chunks);
  }

  /** Names that come back from a field whole: text without a NUL that fits it, or whose last character
      is U+FFFD and is cut. */
  predicate NameSurvives(s: Bytes, width: nat) {
    IsText(s) && 0 !in s && (|s| <= width || EndsInReplacement(s, width))
  }

  /** What a field holds of a name is its bytes up to the first NUL and the field's width, decoded again. */
  lemma NameInverse(s: Bytes, width: nat)
    ensures CStr(FixedStr(s, width)) == CStr(s[..Min(|s|, width)])
    ensures CStr(s[..Min(|s|, width)]) == s <==> NameSurvives(s, width)
  {
    hide Lossy, IsText, UpToNul, EndsInReplacement;
    var n := Min(|s|, width);
    CStrStops(s[..n], width - n);
    LossyIsText(UpToNul(s[..n]));
    if IsText(s) && 0 !in s {
      NoNulKept(s[..n]);
      if n == |s| {
        assert s[..n] == s;
        TextStays(s);
      } else {
        CutText(s, width);
      }
    }
  }

  lemma {:induction false} CStrStops(s: Bytes, n: nat)
    ensures UpToNul(s + Zeros(n)) == UpToNul(s)
  {
    if s != [] && s[0] != 0 {
      CStrStops(s[1..], n);
      assert (s + Zeros(n))[1..] == s[1..] + Zeros(n);
    }
  }

  lemma {:induction false} NoNulKept(s: Bytes)
    requires 0 !in s
    ensures UpToNul(s) == s
  {
    if s != [] {
      NoNulKept(s[1..]);
      assert [s[0]] + s[1..] == s;
    }
  }
}
