/** The BRR sample codec: `brr.rs`.

    A chain is a run of 9-byte blocks. Block b of a chain at `start` has its header at
    `start + 9 * b` and sixteen 4-bit nibbles behind it, so sample k of the chain comes from
    nibble k % 16 of block k / 16. Arithmetic right shifts are flooring divisions. */
module Brr {
  import opened Words

  /** The two previous full-scale samples. */
  datatype History = History(p1: Int16, p2: Int16)

  const SILENCE := History(0, 0)

  /** Sign-extends a 4-bit nibble. */
  function Nib(n: int): (r: int)
    requires 0 <= n < 16
    ensures -8 <= r < 8 && r % 16 == n
  {
    if n < 8 then n else n - 16
  }

  function Pow2(k: nat): (r: nat)
    ensures r > 0
  {
    if k == 0 then 1 else 2 * Pow2(k - 1)
  }

  function Clamp16(s: int): Int16 {
    if s < -32768 then -32768 else if s > 32767 then 32767 else s
  }

  /** `as i16`: keeps the low sixteen bits. */
  function Wrap16(s: int): (r: Int16)
    ensures (r - s) % 0x1_0000 == 0
  {
    (s + 0x8000) % 0x1_0000 - 0x8000
  }

  /** The nibble after the header shift, in the half-scale domain. */
  function Scaled(nibble: int, shift: nat): int {
    var s := nibble * Pow2(shift) / 2;
    if shift >= 13 then s / 0x200_0000 * 0x800 else s
  }

  function Predict(filter: nat, h: History): int {
    var p1: int, p2h: int := h.p1, h.p2 / 2;
    match filter
    case 0 => 0
    case 1 => p1 / 2 + (-p1) / 32
    case 2 => p1 - p2h + p2h / 16 + (p1 * -3) / 64
    case _ => p1 - p2h + (p1 * -13) / 128 + (p2h * 3) / 16
  }

  function DecodeSample(nibble: int, shift: nat, filter: nat, h: History): Int16 {
    Wrap16(Clamp16(Scaled(nibble, shift) + Predict(filter, h)) * 2)
  }

  /** The history in front of sample i of `pcm`, when `h` stood in front of sample 0. */
  function Before(h: History, pcm: seq<Int16>, i: nat): (r: History)
    requires i <= |pcm|
    ensures i == 0 ==> r == h
  {
    if i == 0 then h
    else if i == 1 then History(pcm[0], h.p1)
    else History(pcm[i - 1], pcm[i - 2])
  }

  lemma BeforeSplit(h: History, pcm: seq<Int16>, more: seq<Int16>, i: nat)
    requires i <= |more|
    ensures Before(h, pcm + more, |pcm| + i) == Before(Before(h, pcm, |pcm|), more, i)
  {
  }

  // ----- Decoding

  function Shift(header: Byte): (r: nat) ensures r < 16 { header / 16 }
  function Filter(header: Byte): (r: nat) ensures r < 4 { header / 4 % 4 }
  predicate LoopFlag(header: Byte) { header / 2 % 2 == 1 }
  predicate EndFlag(header: Byte) { header % 2 == 1 }

  type Block = b: seq<Byte> | |b| == 9 witness [0, 0, 0, 0, 0, 0, 0, 0, 0]

  function Nibble(block: Block, i: nat): (n: int)
    requires i < 16
    ensures -8 <= n < 8
  {
    var byte := block[1 + i / 2];
    Nib(if i % 2 == 0 then byte / 16 else byte % 16)
  }

  /** The first i samples of a block entered with history h: each nibble is decoded with the
      two samples in front of it. */
  function BlockSamples(block: Block, h: History, i: nat): (pcm: seq<Int16>)
    requires i <= 16
    ensures |pcm| == i
  {
    if i == 0 then []
    else
      var pcm := BlockSamples(block, h, i - 1);
      pcm + [DecodeSample(Nibble(block, i - 1), Shift(block[0]), Filter(block[0]), Before(h, pcm, i - 1))]
  }

  function BlockAt(buf: seq<Byte>, start: nat, b: nat): Block
    requires start + 9 * b + 9 <= |buf|
  {
    buf[start + 9 * b..start + 9 * b + 9]
  }

  /** The samples of the first n blocks of the chain at `start`, the history running through. */
  function ChainSamples(buf: seq<Byte>, start: nat, n: nat): (pcm: seq<Int16>)
    requires n == 0 || start + 9 * n <= |buf|
    ensures |pcm| == 16 * n
  {
    if n == 0 then []
    else
      var pcm := ChainSamples(buf, start, n - 1);
      pcm + BlockSamples(BlockAt(buf, start, n - 1), Before(SILENCE, pcm, |pcm|), 16)
  }

  /** Blocks 0..n of a chain lie in the buffer, and only the last of them ends it. */
  predicate IsChain(buf: seq<Byte>, start: nat, n: nat) {
    && 0 < n
    && start + 9 * n <= |buf|
    && (forall b :: 0 <= b < n - 1 ==> !EndFlag(BlockAt(buf, start, b)[0]))
    && EndFlag(BlockAt(buf, start, n - 1)[0])
  }

  datatype Decoded = Decoded(pcm: seq<Int16>, loops: bool)

  /** The meaning of a successful decode. */
  ghost predicate Decodes(buf: seq<Byte>, start: nat, n: nat, d: Decoded) {
    && IsChain(buf, start, n)
    && d.pcm == ChainSamples(buf, start, n)
    && d.loops == LoopFlag(BlockAt(buf, start, n - 1)[0])
  }

  method DecodeBlock(block: Block, h: History) returns (pcm: seq<Int16>, after: History)
    ensures pcm == BlockSamples(block, h, 16)
    ensures after == Before(h, pcm, 16)
  {
    hide DecodeSample, Nibble;
    pcm, after := [], h;
    for i := 0 to 16
      invariant pcm == BlockSamples(block, h, i)
      invariant after == Before(h, pcm, i)
    {
      var s := DecodeSample(Nibble(block, i), Shift(block[0]), Filter(block[0]), after);
      after := History(s, after.p1);
      pcm := pcm + [s];
    }
  }

  /** Decodes the chain at `start`, threading the history through its blocks, and fails
      exactly when no block inside the buffer ends the chain. */
  method Decode(buf: seq<Byte>, start: nat) returns (r: Result<Decoded>)
    ensures r.Ok? ==> exists n: nat :: Decodes(buf, start, n, r.value)
    ensures r.Err? <==> forall n: nat :: !IsChain(buf, start, n)
  {
    hide BlockSamples, Before;
    var pcm: seq<Int16> := [];
    var h := SILENCE;
    var addr := start;
    ghost var n := 0;
    while addr + 9 <= |buf|
      invariant addr == start + 9 * n
      invariant 0 < n ==> addr <= |buf|
      invariant forall b :: 0 <= b < n ==> !EndFlag(BlockAt(buf, start, b)[0])
      invariant pcm == ChainSamples(buf, start, n) && h == Before(SILENCE, pcm, |pcm|)
    {
      var block := buf[addr..addr + 9];
      assert block == BlockAt(buf, start, n);
      var samples, after := DecodeBlock(block, h);
      BeforeSplit(SILENCE, pcm, samples, 16);
      pcm, h := pcm + samples, after;
      addr := addr + 9;
      n := n + 1;
      if EndFlag(block[0]) {
        assert Decodes(buf, start, n, Decoded(pcm, LoopFlag(block[0])));
        return Ok(Decoded(pcm, LoopFlag(block[0])));
      }
    }
    return Err;
  }

  // ----- What a decoded sample is

  /** e predicts the next sample from the two before, the older one at half scale: in 32nds, 64ths and
      128ths these are the filter's gains, exactly but for the bits that the shifts drop. */
  predicate IsPrediction(filter: nat, p1: int, half: int, e: int) {
    match filter
    case 0 => e == 0
    case 1 => 32 * e == 15 * p1 - 16 * (p1 % 2) - (-p1) % 32
    case 2 => 64 * e == 61 * p1 - 60 * half - 4 * (half % 16) - (-3 * p1) % 64
    case _ => 128 * e == 115 * p1 - 104 * half - (-13 * p1) % 128 - 8 * (3 * half % 16)
  }

  /** x is a nibble at half the header shift, and only its sign under a shift past 12. */
  predicate IsScaled(n: int, shift: nat, x: int) {
    if shift > 12 then x == if n < 0 then -0x800 else 0
    else n * Pow2(shift) == 2 * x + (if shift == 0 then n % 2 else 0)
  }

  /** r is twice s, s saturated to sixteen bits first and the product cut to sixteen afterwards. */
  predicate IsDoubled(s: int, r: Int16) {
    if s > 32767 then r == -2
    else if s < -32768 then r == 0
    else if s >= 0x4000 then r == 2 * s - 0x1_0000
    else if s < -0x4000 then r == 2 * s + 0x1_0000
    else r == 2 * s
  }

  ghost predicate IsSample(n: int, shift: nat, filter: nat, h: History, r: Int16) {
    exists x, e :: IsScaled(n, shift, x) && IsPrediction(filter, h.p1, h.p2 / 2, e) && IsDoubled(x + e, r)
  }

  lemma NibbleScale(n: int, shift: nat)
    requires -8 <= n < 8 && shift < 16
    ensures IsScaled(n, shift, Scaled(n, shift))
  {
    if shift > 12 {
      hide IsScaled, Scaled;
      SignOnly(n, shift);
    } else if shift > 0 {
      HalfProduct(n, Pow2(shift - 1));
    }
  }

  lemma SignOnly(n: int, shift: nat)
    requires -8 <= n < 8 && 12 < shift < 16
    ensures IsScaled(n, shift, Scaled(n, shift))
  {
    assert Pow2(12) == 4096 && Pow2(13) == 8192 && Pow2(14) == 16384;
    var m := Pow2(shift - 1);
    HalfProduct(n, m);
    assert shift == 13 || shift == 14 || shift == 15;
    if n < 0 {
      assert -0x200_0000 <= n * m < 0;
    } else {
      assert 0 <= n * m < 0x200_0000;
    }
  }

  lemma HalfProduct(n: int, m: nat)
    ensures n * (2 * m) == 2 * (n * m)
  {
  }

  lemma PredictorGains(filter: nat, h: History)
    ensures IsPrediction(filter, h.p1, h.p2 / 2, Predict(filter, h))
  {
  }

  lemma Doubled(s: int)
    ensures IsDoubled(s, Wrap16(Clamp16(s) * 2))
  {
  }

  lemma OnePrediction(filter: nat, p1: int, half: int, e: int, e': int)
    requires IsPrediction(filter, p1, half, e) && IsPrediction(filter, p1, half, e')
    ensures e == e'
  {
  }

  /** A sample is its scaled nibble over the prediction, and nothing else is. */
  lemma SampleIsDetermined(n: int, shift: nat, filter: nat, h: History, r: Int16)
    requires -8 <= n < 8 && shift < 16
    ensures IsSample(n, shift, filter, h, r) <==> r == DecodeSample(n, shift, filter, h)
  {
    hide Scaled, Predict, Wrap16, Clamp16, Pow2, IsPrediction;
    NibbleScale(n, shift);
    PredictorGains(filter, h);
    Doubled(Scaled(n, shift) + Predict(filter, h));
    if IsSample(n, shift, filter, h, r) {
      var x, e :| IsScaled(n, shift, x) && IsPrediction(filter, h.p1, h.p2 / 2, e) && IsDoubled(x + e, r);
      OnePrediction(filter, h.p1, h.p2 / 2, e, Predict(filter, h));
    }
  }

  lemma {:induction false} BlockSampleAt(block: Block, h: History, i: nat, k: nat)
    requires k < i <= 16
    ensures var pcm := BlockSamples(block, h, i);
      pcm[k] == DecodeSample(Nibble(block, k), Shift(block[0]), Filter(block[0]), Before(h, pcm, k))
  {
    hide DecodeSample, Nibble, Shift, Filter;
    if k < i - 1 {
      BlockSampleAt(block, h, i - 1, k);
    }
  }

  lemma {:induction false} ChainSampleAt(buf: seq<Byte>, start: nat, n: nat, b: nat, i: nat)
    requires b < n && i < 16 && start + 9 * n <= |buf|
    ensures var pcm, block := ChainSamples(buf, start, n), BlockAt(buf, start, b);
      pcm[16 * b + i]
        == DecodeSample(Nibble(block, i), Shift(block[0]), Filter(block[0]), Before(SILENCE, pcm, 16 * b + i))
  {
    hide DecodeSample, Nibble, Shift, Filter, BlockSamples;
    var before, block := ChainSamples(buf, start, n - 1), BlockAt(buf, start, n - 1);
    if b < n - 1 {
      ChainSampleAt(buf, start, n - 1, b, i);
    } else {
      var h := Before(SILENCE, before, |before|);
      BlockSampleAt(block, h, 16, i);
      BeforeSplit(SILENCE, before, BlockSamples(block, h, 16), i);
    }
  }

  /** Sample i of block b of a decoded chain, by the bytes of the buffer: the block's header is its first
      byte, two nibbles lie in each byte behind it, the high one first, and the two samples in front are
      the chain's own, silence in front of the first. */
  lemma DecodedSample(buf: seq<Byte>, start: nat, n: nat, d: Decoded, b: nat, i: nat)
    requires Decodes(buf, start, n, d) && b < n && i < 16
    ensures |d.pcm| == 16 * n && start + 9 * b + 9 <= |buf|
    ensures var header: int, byte: int := buf[start + 9 * b], buf[start + 9 * b + 1 + i / 2];
      var nibble := if i % 2 == 0 then byte / 16 else byte % 16;
      var k := 16 * b + i;
      var h := History(if k > 0 then d.pcm[k - 1] else 0, if k > 1 then d.pcm[k - 2] else 0);
      IsSample(if nibble < 8 then nibble else nibble - 16, header / 16, header / 4 % 4, h, d.pcm[k])
  {
    hide DecodeSample, ChainSamples, IsSample, IsChain;
    ChainFits(buf, start, n);
    ChainSampleAt(buf, start, n, b, i);
    var block := BlockAt(buf, start, b);
    SampleIsDetermined(Nibble(block, i), Shift(block[0]), Filter(block[0]), Before(SILENCE, d.pcm, 16 * b + i),
                       d.pcm[16 * b + i]);
  }

  lemma ChainFits(buf: seq<Byte>, start: nat, n: nat)
    requires IsChain(buf, start, n)
    ensures start + 9 * n <= |buf|
  {
  }

  // ----- Encoding

  const MAX_SHIFT: nat := 12
  const DIFF_MAX := 0x7FFF_FFFF_FFFF_FFFF

  function Diff(want: Int16, nibble: int, shift: nat, filter: nat, h: History): (d: nat)
    ensures d < DIFF_MAX
  {
    Abs(DecodeSample(nibble, shift, filter, h) - want)
  }

  /** n is the first nibble below `limit` whose sample comes closest to `want`. */
  ghost predicate IsNearest(want: Int16, n: int, limit: int, shift: nat, filter: nat, h: History) {
    && -8 <= n < limit
    && (forall m :: -8 <= m < limit ==> Diff(want, n, shift, filter, h) <= Diff(want, m, shift, filter, h))
    && (forall m :: -8 <= m < n ==> Diff(want, n, shift, filter, h) < Diff(want, m, shift, filter, h))
  }

  function Nearest(want: Int16, limit: int, shift: nat, filter: nat, h: History): (n: int)
    requires -8 < limit
    ensures -8 <= n < limit
    decreases limit + 8
  {
    hide Diff;
    if limit == -7 then -8
    else
      var n := Nearest(want, limit - 1, shift, filter, h);
      if Diff(want, limit - 1, shift, filter, h) < Diff(want, n, shift, filter, h) then limit - 1 else n
  }

  lemma {:induction false} NearestIsNearest(want: Int16, limit: int, shift: nat, filter: nat, h: History)
    requires -8 < limit
    ensures IsNearest(want, Nearest(want, limit, shift, filter, h), limit, shift, filter, h)
    decreases limit + 8
  {
    hide Diff;
    if limit > -7 {
      NearestIsNearest(want, limit - 1, shift, filter, h);
    }
  }

  function Square(d: nat): (r: nat)
    ensures r == 0 <==> d == 0
  {
    d * d
  }

  /** One (filter, shift) candidate for a block: nearest nibbles, what they decode to, and the
      summed squared error. */
  datatype Trial = Trial(nibbles: seq<int>, samples: seq<Int16>, err: nat)

  function Try(target: seq<Int16>, shift: nat, filter: nat, h: History, i: nat): (t: Trial)
    requires i <= |target|
    ensures |t.nibbles| == |t.samples| == i
    ensures forall j :: 0 <= j < i ==> -8 <= t.nibbles[j] < 8
  {
    hide DecodeSample, Diff, Nearest, Square, Before;
    if i == 0 then Trial([], [], 0)
    else
      var t := Try(target, shift, filter, h, i - 1);
      var before := Before(h, t.samples, i - 1);
      var n := Nearest(target[i - 1], 8, shift, filter, before);
      var d := Diff(target[i - 1], n, shift, filter, before);
      Trial(t.nibbles + [n], t.samples + [DecodeSample(n, shift, filter, before)], t.err + Square(d))
  }

  predicate Allowed(first: bool, filter: nat, shift: nat) {
    filter < (if first then 1 else 4) && shift <= MAX_SHIFT
  }

  predicate Earlier(filter: nat, shift: nat, filter': nat, shift': nat) {
    filter < filter' || (filter == filter' && shift < shift')
  }

  function TrialError(target: seq<Int16>, filter: nat, shift: nat, h: History): nat {
    Try(target, shift, filter, h, |target|).err
  }

  /** (filter, shift) is the first candidate in search order with the least error. */
  ghost predicate IsBest(target: seq<Int16>, h: History, first: bool, filter: nat, shift: nat) {
    && Allowed(first, filter, shift)
    && forall f: nat, s: nat :: Allowed(first, f, s) ==>
        && TrialError(target, filter, shift, h) <= TrialError(target, f, s, h)
        && (Earlier(f, s, filter, shift) ==> TrialError(target, filter, shift, h) < TrialError(target, f, s, h))
  }

  function PackHeader(shift: nat, filter: nat, loops: bool, last: bool): (r: Byte)
    requires shift < 16 && filter < 4
    ensures Shift(r) == shift && Filter(r) == filter && LoopFlag(r) == loops && EndFlag(r) == last
  {
    var l, e := if loops then 1 else 0, if last then 1 else 0;
    var r := shift * 16 + filter * 4 + l * 2 + e;
    assert r / 2 == shift * 8 + filter * 2 + l;
    assert r / 4 == shift * 4 + filter;
    r
  }

  /** Two signed nibbles in one byte, high nibble first. */
  function PackPair(hi: int, lo: int): (r: Byte)
    requires -8 <= hi < 8 && -8 <= lo < 8
    ensures Nib(r / 16) == hi && Nib(r % 16) == lo
  {
    hi % 16 * 16 + lo % 16
  }

  predicate Nibbles(ns: seq<int>) {
    |ns| == 16 && forall i :: 0 <= i < 16 ==> -8 <= ns[i] < 8
  }

  function Pack(shift: nat, filter: nat, loops: bool, last: bool, ns: seq<int>): (block: Block)
    requires shift < 16 && filter < 4 && Nibbles(ns)
    ensures Shift(block[0]) == shift && Filter(block[0]) == filter
    ensures LoopFlag(block[0]) == loops && EndFlag(block[0]) == last
    ensures forall i :: 0 <= i < 16 ==> Nibble(block, i) == ns[i]
  {
    var pairs := seq(8, i requires 0 <= i < 8 => PackPair(ns[2 * i], ns[2 * i + 1]));
    var block := [PackHeader(shift, filter, loops, last)] + pairs;
    assert forall i :: 0 <= i < 16 ==> Nibble(block, i) == ns[i] by {
      forall i | 0 <= i < 16
        ensures Nibble(block, i) == ns[i]
      {
        assert block[1 + i / 2] == PackPair(ns[2 * (i / 2)], ns[2 * (i / 2) + 1]);
      }
    }
    block
  }

  lemma PackedBlockDecodes(shift: nat, filter: nat, loops: bool, last: bool, target: seq<Int16>, h: History, i: nat)
    requires shift < 16 && filter < 4 && |target| == 16 && i <= 16
    requires Nibbles(Try(target, shift, filter, h, 16).nibbles)
    ensures BlockSamples(Pack(shift, filter, loops, last, Try(target, shift, filter, h, 16).nibbles), h, i)
         == Try(target, shift, filter, h, i).samples
  {
    hide DecodeSample, Diff, Pack, Nearest, Square;
    if i > 0 {
      PackedBlockDecodes(shift, filter, loops, last, target, h, i - 1);
      TryIsPrefix(target, shift, filter, h, i, 16);
    }
  }

  lemma TryIsPrefix(target: seq<Int16>, shift: nat, filter: nat, h: History, i: nat, j: nat)
    requires i <= j <= |target|
    ensures Try(target, shift, filter, h, i).nibbles == Try(target, shift, filter, h, j).nibbles[..i]
  {
    hide DecodeSample, Diff, Nearest, Square;
    if i < j {
      TryIsPrefix(target, shift, filter, h, i, j - 1);
    }
  }

  // ----- The encoder

  function BlockCount(pcm: seq<Int16>): (n: nat)
    ensures n > 0 && |pcm| <= 16 * n && (n > 1 ==> |pcm| > 16 * (n - 1))
  {
    Max((|pcm| + 15) / 16, 1)
  }

  /** The input, filled up to whole blocks with its last sample (0 when there is none). */
  function Padded(pcm: seq<Int16>): (r: seq<Int16>)
    ensures |r| == 16 * BlockCount(pcm) && pcm <= r
    ensures forall k :: |pcm| <= k < |r| ==> r[k] == if k == 0 || pcm == [] then 0 else r[k - 1]
  {
    var last: Int16 := if pcm == [] then 0 else pcm[|pcm| - 1];
    pcm + seq(16 * BlockCount(pcm) - |pcm|, _ => last)
  }

  function Target(pcm: seq<Int16>, b: nat): (r: seq<Int16>)
    requires 16 * b + 16 <= |pcm|
    ensures |r| == 16
  {
    pcm[16 * b..16 * b + 16]
  }

  function LoopBlock(pcm: seq<Int16>, loopSample: Option<nat>): Option<nat> {
    if loopSample.None? then None else Some(Min((loopSample.value + 8) / 16, BlockCount(pcm) - 1))
  }

  /** The loop block is the one that begins nearest to the loop point, the later of two. */
  lemma LoopBlockIsNearest(pcm: seq<Int16>, point: nat, c: nat)
    requires c < BlockCount(pcm)
    ensures var b := LoopBlock(pcm, Some(point));
      && b.Some? && b.value < BlockCount(pcm)
      && Abs(16 * b.value - point) <= Abs(16 * c - point)
      && (Abs(16 * b.value - point) == Abs(16 * c - point) ==> c <= b.value)
  {
  }

  /** Sum of the squared differences. */
  function SquaredError(target: seq<int>, samples: seq<int>): int
    requires |target| == |samples|
  {
    if target == [] then 0
    else
      var n := |target| - 1;
      SquaredError(target[..n], samples[..n]) + (target[n] - samples[n]) * (target[n] - samples[n])
  }

  /** The error a candidate is judged by. */
  lemma {:induction false} TrialErrorIsSquared(target: seq<Int16>, shift: nat, filter: nat, h: History, i: nat)
    requires i <= |target|
    ensures Try(target, shift, filter, h, i).err
         == SquaredError(target[..i], Try(target, shift, filter, h, i).samples)
  {
    hide DecodeSample, Nearest, Before;
    if i > 0 {
      TrialErrorIsSquared(target, shift, filter, h, i - 1);
      assert target[..i][..i - 1] == target[..i - 1];
      var t := Try(target, shift, filter, h, i);
      assert t.samples[..i - 1] == Try(target, shift, filter, h, i - 1).samples;
      SquareOfDifference(t.samples[i - 1], target[i - 1]);
    }
  }

  lemma SquareOfDifference(a: int, b: int)
    ensures Square(Abs(a - b)) == (b - a) * (b - a)
  {
  }

  /** The block is the packed best candidate for its target. */
  ghost predicate EncodesBlock(block: Block, target: seq<Int16>, h: History, first: bool, last: bool, loops: bool)
    requires |target| == 16
  {
    var shift, filter := Shift(block[0]), Filter(block[0]);
    && IsBest(target, h, first, filter, shift)
    && block == Pack(shift, filter, loops, last, Try(target, shift, filter, h, 16).nibbles)
  }

  /** The first n blocks of the encoding of `padded`: each is chosen against the history that
      a decoder has in front of it. */
  ghost predicate EncodesBlocks(bytes: seq<Byte>, padded: seq<Int16>, n: nat, loops: bool) {
    && |bytes| == 9 * n && 16 * n <= |padded|
    && forall b :: 0 <= b < n ==>
        EncodesBlock(BlockAt(bytes, 0, b), Target(padded, b), Before(SILENCE, ChainSamples(bytes, 0, b), 16 * b),
                     b == 0, 16 * b + 16 == |padded|, loops)
  }

  datatype Encoded = Encoded(bytes: seq<Byte>, loopBlock: Option<nat>)

  ghost predicate Encodes(pcm: seq<Int16>, loopSample: Option<nat>, e: Encoded) {
    && EncodesBlocks(e.bytes, Padded(pcm), BlockCount(pcm), loopSample.Some?)
    && e.loopBlock == LoopBlock(pcm, loopSample)
  }

  method NearestNibble(want: Int16, shift: nat, filter: nat, h: History) returns (n: int)
    ensures n == Nearest(want, 8, shift, filter, h)
  {
    hide Diff;
    n := -8;
    var best := DIFF_MAX;
    for m := -8 to 8
      invariant m == -8 ==> best == DIFF_MAX
      invariant m > -8 ==> n == Nearest(want, m, shift, filter, h) && best == Diff(want, n, shift, filter, h)
    {
      var d := Diff(want, m, shift, filter, h);
      if d < best {
        best, n := d, m;
      }
    }
  }

  method TryBlock(target: seq<Int16>, shift: nat, filter: nat, h: History) returns (t: Trial)
    ensures t == Try(target, shift, filter, h, |target|)
  {
    hide DecodeSample, Nearest, Square;
    var trial := h;
    t := Trial([], [], 0);
    for i := 0 to |target|
      invariant t == Try(target, shift, filter, h, i) && trial == Before(h, t.samples, i)
    {
      var n := NearestNibble(target[i], shift, filter, trial);
      var s := DecodeSample(n, shift, filter, trial);
      var d := Diff(target[i], n, shift, filter, trial);
      t := Trial(t.nibbles + [n], t.samples + [s], t.err + Square(d));
      trial := History(s, trial.p1);
    }
  }

  /** Every allowed candidate tried before (f, s) is no better than (filter, shift). */
  ghost predicate BestSoFar(target: seq<Int16>, h: History, first: bool, filter: nat, shift: nat, f: nat, s: nat) {
    && Earlier(filter, shift, f, s)
    && forall f': nat, s': nat {:trigger TrialError(target, f', s', h)} ::
        Allowed(first, f', s') && Earlier(f', s', f, s) ==>
        && TrialError(target, filter, shift, h) <= TrialError(target, f', s', h)
        && (Earlier(f', s', filter, shift) ==> TrialError(target, filter, shift, h) < TrialError(target, f', s', h))
  }

  method BestBlock(target: seq<Int16>, h: History, first: bool) returns (filter: nat, shift: nat, t: Trial)
    ensures IsBest(target, h, first, filter, shift)
    ensures t == Try(target, shift, filter, h, |target|)
  {
    hide Try;
    var best: Option<Trial> := None;
    filter, shift := 0, 0;
    var filters := if first then 1 else 4;
    for f := 0 to filters
      invariant best.None? <==> f == 0
      invariant best.Some? ==> best.value == Try(target, shift, filter, h, |target|) && Allowed(first, filter, shift)
      invariant best.Some? ==> BestSoFar(target, h, first, filter, shift, f, 0)
    {
      for s := 0 to MAX_SHIFT + 1
        invariant best.None? <==> f == 0 && s == 0
        invariant best.Some? ==> best.value == Try(target, shift, filter, h, |target|) && Allowed(first, filter, shift)
        invariant best.Some? ==> BestSoFar(target, h, first, filter, shift, f, s)
      {
        var trial := TryBlock(target, s, f, h);
        assert trial.err == TrialError(target, f, s, h);
        assert best.Some? ==> best.value.err == TrialError(target, filter, shift, h);
        if best.None? || trial.err < best.value.err {
          best, filter, shift := Some(trial), f, s;
        }
      }
    }
    t := best.value;
  }

  predicate SameBlocks(buf: seq<Byte>, start: nat, buf': seq<Byte>, start': nat, n: nat) {
    && start + 9 * n <= |buf| && start' + 9 * n <= |buf'|
    && forall b :: 0 <= b < n ==> BlockAt(buf, start, b) == BlockAt(buf', start', b)
  }

  /** Decoding depends on nothing but the blocks themselves. */
  lemma {:induction false} ChainSamplesLocal(buf: seq<Byte>, start: nat, buf': seq<Byte>, start': nat, n: nat)
    requires SameBlocks(buf, start, buf', start', n)
    ensures ChainSamples(buf, start, n) == ChainSamples(buf', start', n)
  {
    hide BlockSamples, Before;
    if n > 0 {
      ChainSamplesLocal(buf, start, buf', start', n - 1);
    }
  }

  lemma EncodesOneMore(bytes: seq<Byte>, block: Block, padded: seq<Int16>, n: nat, loops: bool)
    requires EncodesBlocks(bytes, padded, n, loops) && 16 * n + 16 <= |padded|
    requires EncodesBlock(block, Target(padded, n), Before(SILENCE, ChainSamples(bytes, 0, n), 16 * n),
                          n == 0, 16 * n + 16 == |padded|, loops)
    ensures EncodesBlocks(bytes + block, padded, n + 1, loops)
  {
    hide BlockSamples, Before, ChainSamples, EncodesBlock;
    var more := bytes + block;
    forall b | 0 <= b < n + 1
      ensures EncodesBlock(BlockAt(more, 0, b), Target(padded, b), Before(SILENCE, ChainSamples(more, 0, b), 16 * b),
                           b == 0, 16 * b + 16 == |padded|, loops)
    {
      assert forall c :: 0 <= c < n ==> BlockAt(more, 0, c) == BlockAt(bytes, 0, c);
      assert BlockAt(more, 0, n) == block;
      ChainSamplesLocal(bytes, 0, more, 0, b);
    }
  }

  lemma EncodedBlockSamples(block: Block, target: seq<Int16>, h: History, first: bool, last: bool, loops: bool)
    requires |target| == 16 && EncodesBlock(block, target, h, first, last, loops)
    ensures BlockSamples(block, h, 16) == Try(target, Shift(block[0]), Filter(block[0]), h, 16).samples
    ensures LoopFlag(block[0]) == loops && EndFlag(block[0]) == last
  {
    PackedBlockDecodes(Shift(block[0]), Filter(block[0]), loops, last, target, h, 16);
  }

  lemma EncodesBlockByBest(block: Block, target: seq<Int16>, h: History, first: bool, last: bool, loops: bool,
                           filter: nat, shift: nat)
    requires |target| == 16 && IsBest(target, h, first, filter, shift)
    requires block == Pack(shift, filter, loops, last, Try(target, shift, filter, h, 16).nibbles)
    ensures EncodesBlock(block, target, h, first, last, loops)
    ensures BlockSamples(block, h, 16) == Try(target, shift, filter, h, 16).samples
  {
    hide BlockSamples, Try;
    PackedBlockDecodes(shift, filter, loops, last, target, h, 16);
  }

  /** A decoder that has read n blocks and reads one more has the samples of that block, decoded
      from the history it was left with. */
  lemma DecoderFollows(bytes: seq<Byte>, block: Block, n: nat)
    requires |bytes| == 9 * n
    ensures var h := Before(SILENCE, ChainSamples(bytes, 0, n), 16 * n);
      && ChainSamples(bytes + block, 0, n + 1) == ChainSamples(bytes, 0, n) + BlockSamples(block, h, 16)
      && Before(SILENCE, ChainSamples(bytes + block, 0, n + 1), 16 * n + 16)
           == Before(h, BlockSamples(block, h, 16), 16)
  {
    hide BlockSamples, Before;
    var more := bytes + block;
    assert BlockAt(more, 0, n) == block;
    assert forall c :: 0 <= c < n ==> BlockAt(more, 0, c) == BlockAt(bytes, 0, c);
    ChainSamplesLocal(bytes, 0, more, 0, n);
    var h := Before(SILENCE, ChainSamples(bytes, 0, n), 16 * n);
    BeforeSplit(SILENCE, ChainSamples(bytes, 0, n), BlockSamples(block, h, 16), 16);
  }

  method Encode(pcm: seq<Int16>, loopSample: Option<nat>) returns (e: Encoded)
    ensures Encodes(pcm, loopSample, e)
  {
    hide BlockSamples, Before, ChainSamples, EncodesBlock, Try, Pack;
    var blocks := BlockCount(pcm);
    var padded := Padded(pcm);
    var loops := loopSample.Some?;
    var bytes: seq<Byte> := [];
    var h := SILENCE;
    for b := 0 to blocks
      invariant EncodesBlocks(bytes, padded, b, loops)
      invariant h == Before(SILENCE, ChainSamples(bytes, 0, b), 16 * b)
    {
      var filter, shift, t := BestBlock(Target(padded, b), h, b == 0);
      var block := Pack(shift, filter, loops, b == blocks - 1, t.nibbles);
      EncodesBlockByBest(block, Target(padded, b), h, b == 0, b == blocks - 1, loops, filter, shift);
      EncodesOneMore(bytes, block, padded, b, loops);
      DecoderFollows(bytes, block, b);
      h := Before(h, t.samples, 16);
      bytes := bytes + block;
    }
    e := Encoded(bytes, LoopBlock(pcm, loopSample));
  }
}
