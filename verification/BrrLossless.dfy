/** What the encoder of `brr.rs` guarantees about decoding its output again. */
module BrrLossless {
  import opened Words
  import opened Brr

  /** Every target sample is decodable under (filter, shift) from the target samples in front of it. */
  ghost predicate Fits(target: seq<Int16>, h: History, filter: nat, shift: nat) {
    forall i :: 0 <= i < |target| ==> Reachable(target[i], Before(h, target, i), filter, shift)
  }

  ghost predicate Reachable(s: Int16, h: History, filter: nat, shift: nat) {
    exists m :: -8 <= m < 8 && Diff(s, m, shift, filter, h) == 0
  }

  /** A header shift past 12 keeps only the sign of a nibble; shift 12 with nibble -1 or 0
      gives the same sample. */
  lemma DegenerateShift(n: int, shift: nat, filter: nat, h: History)
    requires -8 <= n < 8 && 13 <= shift < 16
    ensures DecodeSample(n, shift, filter, h) == DecodeSample(if n < 0 then -1 else 0, 12, filter, h)
  {
    hide Predict, Wrap16, Clamp16;
    assert Pow2(12) == 4096 && Pow2(13) == 8192 && Pow2(14) == 16384 && Pow2(15) == 32768;
  }

  /** So the encoder's twelve shifts reach every sample any header can produce. */
  lemma DecodedSampleReachable(n: int, shift: nat, filter: nat, h: History)
    requires -8 <= n < 8 && shift < 16
    ensures Reachable(DecodeSample(n, shift, filter, h), h, filter, Min(shift, MAX_SHIFT))
  {
    hide DecodeSample;
    var m := if shift < 13 then n else if n < 0 then -1 else 0;
    if shift >= 13 {
      DegenerateShift(n, shift, filter, h);
    }
    assert Diff(DecodeSample(n, shift, filter, h), m, Min(shift, MAX_SHIFT), filter, h) == 0;
  }

  lemma {:induction false} DecodedBlockFits(block: Block, h: History, i: nat)
    requires i <= 16
    ensures Fits(BlockSamples(block, h, i), h, Filter(block[0]), Min(Shift(block[0]), MAX_SHIFT))
  {
    hide DecodeSample, Reachable, Nibble, Before, Shift, Filter;
    if i > 0 {
      DecodedBlockFits(block, h, i - 1);
      var pcm, shift, filter := BlockSamples(block, h, i - 1), Shift(block[0]), Filter(block[0]);
      var n, before := Nibble(block, i - 1), Before(h, pcm, i - 1);
      DecodedSampleReachable(n, shift, filter, before);
      FitsOneMore(pcm, DecodeSample(n, shift, filter, before), h, filter, Min(shift, MAX_SHIFT));
    }
  }

  /** A candidate has no error exactly when it reproduces its target, and then the target fits. */
  lemma {:induction false} NoErrorIffExact(target: seq<Int16>, shift: nat, filter: nat, h: History, i: nat)
    requires i <= |target|
    ensures Try(target, shift, filter, h, i).err == 0 <==> Try(target, shift, filter, h, i).samples == target[..i]
    ensures Try(target, shift, filter, h, i).err == 0 ==> Fits(target[..i], h, filter, shift)
    ensures Fits(target[..i], h, filter, shift) ==> Try(target, shift, filter, h, i).err == 0
  {
    hide DecodeSample, Reachable, Nearest, Square, Before;
    if i > 0 {
      NoErrorIffExact(target, shift, filter, h, i - 1);
      var t := Try(target, shift, filter, h, i - 1);
      var before := Before(h, t.samples, i - 1);
      NearestReaches(target[i - 1], shift, filter, before);
      assert target[..i] == target[..i - 1] + [target[i - 1]];
      FitsOneMore(target[..i - 1], target[i - 1], h, filter, shift);
    }
  }

  lemma NearestReaches(want: Int16, shift: nat, filter: nat, h: History)
    ensures Diff(want, Nearest(want, 8, shift, filter, h), shift, filter, h) == 0 <==> Reachable(want, h, filter, shift)
  {
    hide Diff, Nearest;
    NearestIsNearest(want, 8, shift, filter, h);
  }

  lemma FitsOneMore(target: seq<Int16>, s: Int16, h: History, filter: nat, shift: nat)
    ensures Fits(target + [s], h, filter, shift)
       <==> Fits(target, h, filter, shift) && Reachable(s, Before(h, target, |target|), filter, shift)
  {
    hide Reachable;
    var more := target + [s];
    assert forall j :: 0 <= j <= |target| ==> Before(h, more, j) == Before(h, target, j);
  }

  /** The condition under which the encoder loses nothing of a target: a candidate it tries fits. */
  ghost predicate SomeCandidateFits(target: seq<Int16>, h: History, first: bool) {
    exists filter: nat, shift: nat :: Allowed(first, filter, shift) && Fits(target, h, filter, shift)
  }

  lemma BlockExactIffFits(block: Block, target: seq<Int16>, h: History, first: bool, last: bool, loops: bool)
    requires |target| == 16 && EncodesBlock(block, target, h, first, last, loops)
    ensures BlockSamples(block, h, 16) == target <==> SomeCandidateFits(target, h, first)
  {
    hide BlockSamples, Try, Pack, Fits, Shift, Filter;
    var shift, filter := Shift(block[0]), Filter(block[0]);
    EncodedBlockSamples(block, target, h, first, last, loops);
    NoErrorIffExact(target, shift, filter, h, 16);
    assert target[..16] == target;
    if SomeCandidateFits(target, h, first) {
      var f: nat, s: nat :| Allowed(first, f, s) && Fits(target, h, f, s);
      NoErrorIffExact(target, s, f, h, 16);
      assert TrialError(target, filter, shift, h) <= TrialError(target, f, s, h) == 0;
    }
  }

  /** Samples that a block decoded from h fit the candidate with that block's own filter. */
  lemma LaterBlockFits(block: Block, h: History)
    ensures SomeCandidateFits(BlockSamples(block, h, 16), h, false)
  {
    hide BlockSamples, Fits;
    DecodedBlockFits(block, h, 16);
    assert Allowed(false, Filter(block[0]), Min(Shift(block[0]), MAX_SHIFT));
  }

  lemma {:induction false} ChainSamplesPrefix(buf: seq<Byte>, start: nat, b: nat, n: nat)
    requires b <= n && (n == 0 || start + 9 * n <= |buf|)
    ensures ChainSamples(buf, start, b) == ChainSamples(buf, start, n)[..16 * b]
  {
    hide BlockSamples, Before;
    if b < n {
      ChainSamplesPrefix(buf, start, b, n - 1);
    }
  }

  // ----- Whole chains

  /** What the encoder's own output decodes to. */
  function Reconstruction(e: Encoded): seq<Int16> {
    ChainSamples(e.bytes, 0, |e.bytes| / 9)
  }

  lemma PlacedBlock(prefix: seq<Byte>, bytes: seq<Byte>, suffix: seq<Byte>, b: nat)
    requires 9 * b + 9 <= |bytes|
    ensures BlockAt(prefix + bytes + suffix, |prefix|, b) == BlockAt(bytes, 0, b)
  {
  }

  /** The output of the encoder is one chain wherever it is placed: decoding at its start stops at
      its own last block, and reports a loop exactly when a loop point was given. */
  lemma EncodedChainDecodes(pcm: seq<Int16>, loopSample: Option<nat>, e: Encoded, prefix: seq<Byte>, suffix: seq<Byte>)
    requires Encodes(pcm, loopSample, e)
    ensures |e.bytes| == 9 * BlockCount(pcm)
    ensures Decodes(prefix + e.bytes + suffix, |prefix|, BlockCount(pcm), Decoded(Reconstruction(e), loopSample.Some?))
  {
    hide EncodesBlock, BlockSamples, Before, LoopFlag, EndFlag, ChainSamples, BlockAt, Target, Padded;
    var buf, n, padded := prefix + e.bytes + suffix, BlockCount(pcm), Padded(pcm);
    forall b | 0 <= b < n
      ensures BlockAt(buf, |prefix|, b) == BlockAt(e.bytes, 0, b)
      ensures EndFlag(BlockAt(buf, |prefix|, b)[0]) == (b == n - 1)
      ensures LoopFlag(BlockAt(buf, |prefix|, b)[0]) == loopSample.Some?
    {
      PlacedBlock(prefix, e.bytes, suffix, b);
      EncodedBlockSamples(BlockAt(e.bytes, 0, b), Target(padded, b),
                          Before(SILENCE, ChainSamples(e.bytes, 0, b), 16 * b),
                          b == 0, 16 * b + 16 == |padded|, loopSample.Some?);
    }
    ChainSamplesLocal(buf, |prefix|, e.bytes, 0, n);
  }

  /** A buffer decodes in one way only. */
  lemma DecodesUniquely(buf: seq<Byte>, start: nat, n: nat, d: Decoded, n': nat, d': Decoded)
    requires Decodes(buf, start, n, d) && Decodes(buf, start, n', d')
    ensures n == n' && d == d'
  {
    hide ChainSamples, EndFlag;
    assert n <= n' && n' <= n;
  }

  /** The first block of a decoded chain starts from silence; re-encoding may only use filter 0 there. */
  ghost predicate FirstBlockFits(pcm: seq<Int16>)
    requires |pcm| >= 16
  {
    exists shift: nat :: shift <= MAX_SHIFT && Fits(pcm[..16], SILENCE, 0, shift)
  }

  /** Block b of a chain contributes the samples it decodes to. */
  lemma TargetIsDecodedBlock(buf: seq<Byte>, start: nat, n: nat, b: nat)
    requires b < n && start + 9 * n <= |buf|
    ensures var pcm := ChainSamples(buf, start, n);
      && Target(pcm, b)
         == BlockSamples(BlockAt(buf, start, b), Before(SILENCE, ChainSamples(buf, start, b), 16 * b), 16)
      && ChainSamples(buf, start, b + 1) == ChainSamples(buf, start, b) + Target(pcm, b)
  {
    hide BlockSamples, Before;
    ChainSamplesPrefix(buf, start, b + 1, n);
    var pcm, block := ChainSamples(buf, start, n), BlockAt(buf, start, b);
    var samples := BlockSamples(block, Before(SILENCE, ChainSamples(buf, start, b), 16 * b), 16);
    assert pcm[..16 * (b + 1)] == ChainSamples(buf, start, b) + samples;
    assert Target(pcm, b) == pcm[..16 * (b + 1)][16 * b..];
  }

  lemma FirstBlockCandidates(pcm: seq<Int16>)
    requires |pcm| >= 16
    ensures SomeCandidateFits(Target(pcm, 0), SILENCE, true) <==> FirstBlockFits(pcm)
  {
    hide Fits;
    assert Target(pcm, 0) == pcm[..16];
    if FirstBlockFits(pcm) {
      var shift: nat :| shift <= MAX_SHIFT && Fits(pcm[..16], SILENCE, 0, shift);
      assert Allowed(true, 0, shift);
    }
  }

  lemma ChainStep(buf: seq<Byte>, start: nat, b: nat)
    requires start + 9 * b + 9 <= |buf|
    ensures var h := Before(SILENCE, ChainSamples(buf, start, b), 16 * b);
      && (b == 0 ==> h == SILENCE)
      && ChainSamples(buf, start, b + 1) == ChainSamples(buf, start, b) + BlockSamples(BlockAt(buf, start, b), h, 16)
  {
    hide BlockSamples;
  }

  lemma SameTail<T>(a: seq<T>, x: seq<T>, y: seq<T>)
    ensures a + x == a + y <==> x == y
  {
    assert (a + x)[|a|..] == x && (a + y)[|a|..] == y;
  }

  /** Encoding what a chain decoded to, with its first b blocks reproduced, reproduces block b:
      always, but for block 0, which must fit. */
  lemma BlockReencodes(buf: seq<Byte>, start: nat, n: nat, bytes: seq<Byte>, loops: bool, b: nat)
    requires b < n && start + 9 * n <= |buf|
    requires EncodesBlocks(bytes, ChainSamples(buf, start, n), n, loops)
    requires ChainSamples(bytes, 0, b) == ChainSamples(buf, start, b)
    ensures ChainSamples(bytes, 0, b + 1) == ChainSamples(buf, start, b + 1)
       <==> b > 0 || FirstBlockFits(ChainSamples(buf, start, n))
  {
    hide EncodesBlock, BlockSamples, Before, Fits, FirstBlockFits, SomeCandidateFits, ChainSamples, Target, BlockAt;
    var pcm, done := ChainSamples(buf, start, n), ChainSamples(bytes, 0, b);
    var h, block := Before(SILENCE, done, 16 * b), BlockAt(bytes, 0, b);
    ChainStep(bytes, 0, b);
    SameTail(done, BlockSamples(block, h, 16), Target(pcm, b));
    TargetIsDecodedBlock(buf, start, n, b);
    BlockExactIffFits(block, Target(pcm, b), h, b == 0, 16 * b + 16 == |pcm|, loops);
    if b == 0 {
      FirstBlockCandidates(pcm);
    } else {
      LaterBlockFits(BlockAt(buf, start, b), h);
    }
  }

  lemma {:induction false} BlocksReencode(buf: seq<Byte>, start: nat, n: nat, bytes: seq<Byte>, loops: bool, b: nat)
    requires 0 < b <= n && start + 9 * n <= |buf|
    requires EncodesBlocks(bytes, ChainSamples(buf, start, n), n, loops)
    ensures ChainSamples(bytes, 0, b) == ChainSamples(buf, start, b) <==> FirstBlockFits(ChainSamples(buf, start, n))
  {
    assert b == 1 ==> ChainSamples(bytes, 0, 0) == ChainSamples(buf, start, 0);
    hide EncodesBlock, FirstBlockFits, ChainSamples;
    if b > 1 {
      BlocksReencode(buf, start, n, bytes, loops, b - 1);
      ChainSamplesPrefix(bytes, 0, b - 1, b);
      ChainSamplesPrefix(buf, start, b - 1, b);
    }
    if ChainSamples(bytes, 0, b - 1) == ChainSamples(buf, start, b - 1) {
      BlockReencodes(buf, start, n, bytes, loops, b - 1);
    }
  }

  /** Re-encoding a decoded chain, with or without a loop point, decodes to the same samples if and
      only if some filter-0 candidate fits its first block. */
  lemma ReencodingIsLossless(buf: seq<Byte>, start: nat, n: nat, d: Decoded, loopSample: Option<nat>, e: Encoded)
    requires Decodes(buf, start, n, d)
    requires Encodes(d.pcm, loopSample, e)
    ensures Decodes(e.bytes, 0, n, Decoded(d.pcm, loopSample.Some?)) <==> FirstBlockFits(d.pcm)
  {
    hide EncodesBlock, ChainSamples, FirstBlockFits;
    assert BlockCount(d.pcm) == n;
    assert Padded(d.pcm) == d.pcm;
    EncodedChainDecodes(d.pcm, loopSample, e, [], []);
    assert [] + e.bytes + [] == e.bytes;
    BlocksReencode(buf, start, n, e.bytes, loopSample.Some?, n);
  }

  lemma FirstChainBlock(buf: seq<Byte>, start: nat)
    requires start + 9 <= |buf|
    ensures ChainSamples(buf, start, 1) == BlockSamples(BlockAt(buf, start, 0), SILENCE, 16)
  {
    hide BlockSamples;
    assert ChainSamples(buf, start, 0) == [];
  }

  /** In particular a chain whose first block uses filter 0 survives, whatever its shifts are. */
  lemma FilterZeroStartIsLossless(buf: seq<Byte>, start: nat, n: nat, d: Decoded, loopSample: Option<nat>, e: Encoded)
    requires Decodes(buf, start, n, d)
    requires Filter(BlockAt(buf, start, 0)[0]) == 0
    requires Encodes(d.pcm, loopSample, e)
    ensures Decodes(e.bytes, 0, n, Decoded(d.pcm, loopSample.Some?))
  {
    hide EncodesBlock, Fits, ChainSamples;
    ReencodingIsLossless(buf, start, n, d, loopSample, e);
    ChainSamplesPrefix(buf, start, 1, n);
    FirstChainBlock(buf, start);
    DecodedBlockFits(BlockAt(buf, start, 0), SILENCE, 16);
  }

  const FILTERED: Block := [0xC5, 0x10, 0, 0, 0, 0, 0, 0, 0]

  /** One block with filter 1 and shift 12, nibbles 1, 0, 0, ...: its second sample is 3840, which no
      filter-0 nibble reaches under any shift, so encoding its samples cannot give them back. */
  lemma FilteredStartCanLose(e: Encoded)
    ensures var d := Decoded(ChainSamples(FILTERED, 0, 1), false);
      Decodes(FILTERED, 0, 1, d) && (Encodes(d.pcm, None, e) ==> !Decodes(e.bytes, 0, 1, d))
  {
    hide BlockSamples, Encodes, Fits, ChainSamples;
    FirstChainBlock(FILTERED, 0);
    assert BlockAt(FILTERED, 0, 0) == FILTERED;
    var pcm := ChainSamples(FILTERED, 0, 1);
    FilteredStart();
    NeverFits3840(pcm);
    if Encodes(pcm, None, e) {
      hide FirstBlockFits, Decodes;
      ReencodingIsLossless(FILTERED, 0, 1, Decoded(pcm, false), None, e);
    }
  }

  lemma NeverFits3840(pcm: seq<Int16>)
    requires |pcm| >= 16 && pcm[1] == 3840
    ensures !FirstBlockFits(pcm)
  {
    hide Reachable;
    forall shift: nat | shift <= MAX_SHIFT
      ensures !Fits(pcm[..16], SILENCE, 0, shift)
    {
      Unreachable3840(shift, Before(SILENCE, pcm[..16], 1));
    }
  }

  lemma FilteredSamples()
    ensures DecodeSample(1, 12, 1, SILENCE) == 4096 && DecodeSample(0, 12, 1, History(4096, 0)) == 3840
  {
    assert Pow2(12) == 4096;
  }

  lemma FilteredStart()
    ensures BlockSamples(FILTERED, SILENCE, 16)[1] == 3840
  {
    FilteredSamples();
    hide DecodeSample;
    assert BlockSamples(FILTERED, SILENCE, 0) == [];
    assert BlockSamples(FILTERED, SILENCE, 1) == [4096];
    assert BlockSamples(FILTERED, SILENCE, 2) == [4096, 3840];
    BlockSamplesPrefix(FILTERED, SILENCE, 2, 16);
  }

  lemma BlockSamplesPrefix(block: Block, h: History, i: nat, j: nat)
    requires i <= j <= 16
    ensures BlockSamples(block, h, i) == BlockSamples(block, h, j)[..i]
  {
    hide DecodeSample, Before, Nibble;
    if i < j {
      BlockSamplesPrefix(block, h, i, j - 1);
    }
  }

  lemma Unreachable3840(shift: nat, h: History)
    requires shift <= MAX_SHIFT
    ensures !Reachable(3840, h, 0, shift)
  {
    forall m | -8 <= m < 8
      ensures DecodeSample(m, shift, 0, h) != 3840
    {
      assert Pow2(0) == 1 && Pow2(1) == 2 && Pow2(2) == 4 && Pow2(3) == 8 && Pow2(4) == 16 && Pow2(5) == 32;
      assert Pow2(6) == 64 && Pow2(7) == 128 && Pow2(8) == 256 && Pow2(9) == 512 && Pow2(10) == 1024;
      assert Pow2(11) == 2048 && Pow2(12) == 4096;
    }
  }

  // ----- The encoding is determined

  lemma BestIsUnique(target: seq<Int16>, h: History, first: bool, f: nat, s: nat, f': nat, s': nat)
    requires IsBest(target, h, first, f, s) && IsBest(target, h, first, f', s')
    ensures f == f' && s == s'
  {
    hide TrialError;
    assert TrialError(target, f, s, h) == TrialError(target, f', s', h);
  }

  lemma {:induction false} BlocksAreDetermined(a: seq<Byte>, b: seq<Byte>, padded: seq<Int16>, n: nat, loops: bool,
      i: nat)
    requires EncodesBlocks(a, padded, n, loops) && EncodesBlocks(b, padded, n, loops)
    requires i <= n
    ensures SameBlocks(a, 0, b, 0, i)
  {
    hide IsBest, Try, Pack, BlockSamples, Before, ChainSamples, BlockAt, Target, Shift, Filter;
    if i > 0 {
      BlocksAreDetermined(a, b, padded, n, loops, i - 1);
      ChainSamplesLocal(a, 0, b, 0, i - 1);
      var x, y := BlockAt(a, 0, i - 1), BlockAt(b, 0, i - 1);
      var h := Before(SILENCE, ChainSamples(a, 0, i - 1), 16 * (i - 1));
      BestIsUnique(Target(padded, i - 1), h, i == 1, Filter(x[0]), Shift(x[0]), Filter(y[0]), Shift(y[0]));
    }
  }

  /** The search order breaks every tie: an input has one encoding. */
  lemma EncodesUniquely(pcm: seq<Int16>, loopSample: Option<nat>, e: Encoded, e': Encoded)
    requires Encodes(pcm, loopSample, e) && Encodes(pcm, loopSample, e')
    ensures e == e'
  {
    hide EncodesBlock, Padded;
    var n := BlockCount(pcm);
    BlocksAreDetermined(e.bytes, e'.bytes, Padded(pcm), n, loopSample.Some?, n);
    SameBlocksSameBytes(e.bytes, e'.bytes, n);
  }

  lemma SameBlocksSameBytes(a: seq<Byte>, b: seq<Byte>, n: nat)
    requires SameBlocks(a, 0, b, 0, n)
    ensures a[..9 * n] == b[..9 * n]
  {
    if n > 0 {
      SameBlocksSameBytes(a, b, n - 1);
      assert a[..9 * n] == a[..9 * (n - 1)] + BlockAt(a, 0, n - 1);
      assert b[..9 * n] == b[..9 * (n - 1)] + BlockAt(b, 0, n - 1);
    }
  }
}
