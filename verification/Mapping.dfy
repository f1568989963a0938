/** Importing a SoundFont into the sound driver's memory: the directory and BRR layout of `import_sf2`
    in `mapping.rs`. */
module Mapping {
  import opened Words
  import opened Riff
  import opened Sf2
  import Brr
  import BrrLossless
  import Sf2Reader

  const BRR_DEST := 0x4DB0
  const APU_RAM := 0x1_0000
  const DIRECTORY_SIZE := 64
  const BRR_ENCODE_RATE := 32000

  /** The conversions the model does not look into: the resampler and the loop-point scaling, for
      samples at other rates than the encoder's, and the envelope, gain and pitch of an instrument. */
  datatype Conversions = Conversions(
    resample: (seq<Int16>, nat) -> seq<Int16>, scale: (nat, nat) -> nat,
    adsr: VolEnv -> (Byte, Byte), gain: Int16 -> Byte, base16: (Sample, Instrument) -> Word16)

  /** What one sample gives the encoder. */
  datatype Source = Source(pcm: seq<Int16>, loopSample: Option<nat>)

  /** Any instrument that loops a sample makes it loop. */
  ghost predicate SampleLoops(instruments: seq<Instrument>, i: nat) {
    exists k :: 0 <= k < |instruments| && instruments[k].sampleIndex == i && instruments[k].loops
  }

  function SourceOf(s: Sample, loops: bool, conv: Conversions): Source {
    var rate := Max(s.rate, 1);
    var pcm := if rate == BRR_ENCODE_RATE then s.pcm else conv.resample(s.pcm, rate);
    var point := if rate == BRR_ENCODE_RATE then s.loopStart else conv.scale(s.loopStart, rate);
    Source(pcm, if loops then Some(Min(point, Max(|pcm| - 1, 0))) else None)
  }

  /** What the encoder is given: the samples as they are at 32 kHz, resampled from any other rate, 0 counting as 1;
      and for a looping sample its loop point, but no point behind the last sample. */
  lemma SourceByRate(s: Sample, loops: bool, conv: Conversions)
    ensures var r := SourceOf(s, loops, conv);
      var rate := if s.rate == 0 then 1 else s.rate;
      && r.pcm == (if s.rate == 32000 then s.pcm else conv.resample(s.pcm, rate))
      && var point := if s.rate == 32000 then s.loopStart else conv.scale(s.loopStart, rate);
         r.loopSample ==
           if !loops then None else if point < |r.pcm| then Some(point) else if r.pcm == [] then Some(0)
           else Some(|r.pcm| - 1)
  {
  }

  ghost function Sources(file: File, conv: Conversions): (sources: seq<Source>)
    ensures |sources| == |file.samples|
  {
    seq(|file.samples|, i requires 0 <= i < |file.samples| =>
      SourceOf(file.samples[i], SampleLoops(file.instruments, i), conv))
  }

  /** Bytes of the first n chains. */
  function Total(sources: seq<Source>, n: nat): nat
    requires n <= |sources|
  {
    if n == 0 then 0 else Total(sources, n - 1) + 9 * Brr.BlockCount(sources[n - 1].pcm)
  }

  function StartOf(sources: seq<Source>, i: nat): nat
    requires i <= |sources|
  {
    BRR_DEST + Total(sources, i)
  }

  /** The block a chain loops to: its first one, where no loop point is given. */
  function LoopBlockOf(s: Source): (b: nat)
    ensures b < Brr.BlockCount(s.pcm)
  {
    match Brr.LoopBlock(s.pcm, s.loopSample)
    case Some(b) => b
    case None => 0
  }

  function LoopOf(sources: seq<Source>, i: nat): nat
    requires i < |sources|
  {
    StartOf(sources, i) + 9 * LoopBlockOf(sources[i])
  }

  datatype Regions = Regions(dir: Bytes, instr: Bytes, brr: Bytes)

  /** An instrument-table entry: sample number, envelope, gain, base pitch high byte first. */
  function InstrEntry(inst: Instrument, samples: seq<Sample>, conv: Conversions): (r: Bytes)
    requires inst.sampleIndex < |samples|
    ensures |r| == 6
  {
    var (adsr1, adsr2) := conv.adsr(inst.env);
    var base := conv.base16(samples[inst.sampleIndex], inst);
    [inst.sampleIndex % 0x100, adsr1, adsr2, conv.gain(inst.attenuation), base / 0x100, base % 0x100]
  }

  predicate SamplesExist(file: File) {
    forall k :: 0 <= k < |file.instruments| ==> file.instruments[k].sampleIndex < |file.samples|
  }

  function InstrRecs(file: File, conv: Conversions, n: nat): seq<Bytes>
    requires SamplesExist(file) && n <= |file.instruments|
  {
    if n == 0 then [] else InstrRecs(file, conv, n - 1) + [InstrEntry(file.instruments[n - 1], file.samples, conv)]
  }

  function Entry(start: nat, loop: nat): (r: Bytes)
    ensures |r| == 4
  {
    Le16(start) + Le16(loop)
  }

  function Directory(sources: seq<Source>, n: nat): (recs: seq<Bytes>)
    requires n <= |sources|
    ensures |recs| == n && AreRecords(recs, 4)
    ensures forall i :: 0 <= i < n ==> recs[i] == Entry(StartOf(sources, i), LoopOf(sources, i))
  {
    hide Entry, StartOf, LoopOf;
    if n == 0 then [] else Directory(sources, n - 1) + [Entry(StartOf(sources, n - 1), LoopOf(sources, n - 1))]
  }

  function Joined(chains: seq<Brr.Encoded>): Bytes {
    if chains == [] then [] else Joined(chains[..|chains| - 1]) + chains[|chains| - 1].bytes
  }

  /** The chains encode the first n sources, one behind the other, and the directory points at them. */
  ghost predicate IsLayout(sources: seq<Source>, chains: seq<Brr.Encoded>, n: nat, dir: Bytes, brr: Bytes) {
    && |chains| == n <= |sources|
    && (forall i :: 0 <= i < n ==> Brr.Encodes(sources[i].pcm, sources[i].loopSample, chains[i]))
    && dir == Flat(Directory(sources, n)) && brr == Joined(chains)
  }

  /** What an import needs. */
  ghost predicate Importable(file: File, conv: Conversions) {
    && 0 < |file.samples| <= DIRECTORY_SIZE
    && SamplesExist(file)
    && StartOf(Sources(file, conv), |file.samples|) <= APU_RAM
  }

  lemma {:induction false} JoinedLength(sources: seq<Source>, chains: seq<Brr.Encoded>)
    requires |chains| <= |sources|
    requires forall i :: 0 <= i < |chains| ==> Brr.Encodes(sources[i].pcm, sources[i].loopSample, chains[i])
    ensures |Joined(chains)| == Total(sources, |chains|)
  {
    hide Brr.EncodesBlock, Brr.ChainSamples;
    var n := |chains|;
    if n > 0 {
      JoinedLength(sources, chains[..n - 1]);
    }
  }

  lemma {:induction false} TotalGrows(sources: seq<Source>, i: nat, n: nat)
    requires i <= n <= |sources|
    ensures Total(sources, i) <= Total(sources, n)
    ensures i < n ==> Total(sources, i) + 9 * Brr.BlockCount(sources[i].pcm) <= Total(sources, n)
  {
    if i < n {
      TotalGrows(sources, i, n - 1);
    }
  }

  method FindLoops(file: File) returns (loops: seq<bool>)
    requires SamplesExist(file)
    ensures |loops| == |file.samples| && forall i :: 0 <= i < |loops| ==> loops[i] == SampleLoops(file.instruments, i)
  {
    loops := seq(|file.samples|, _ => false);
    for k := 0 to |file.instruments|
      invariant |loops| == |file.samples|
      invariant forall i :: 0 <= i < |loops| ==> loops[i] == SampleLoops(file.instruments[..k], i)
    {
      var inst := file.instruments[k];
      forall i | 0 <= i < |loops|
        ensures SampleLoops(file.instruments[..k + 1], i)
             == (SampleLoops(file.instruments[..k], i) || (inst.sampleIndex == i && inst.loops))
      {
        OneMoreInstrument(file.instruments[..k], inst, i);
        assert file.instruments[..k + 1] == file.instruments[..k] + [inst];
      }
      loops := loops[inst.sampleIndex := loops[inst.sampleIndex] || inst.loops];
    }
    assert file.instruments[..|file.instruments|] == file.instruments;
  }

  lemma OneMoreInstrument(instruments: seq<Instrument>, inst: Instrument, i: nat)
    ensures SampleLoops(instruments + [inst], i)
         == (SampleLoops(instruments, i) || (inst.sampleIndex == i && inst.loops))
  {
    var more := instruments + [inst];
    if SampleLoops(instruments, i) {
      var k :| 0 <= k < |instruments| && instruments[k].sampleIndex == i && instruments[k].loops;
      assert more[k] == instruments[k];
    }
    assert more[|instruments|] == inst;
  }

  lemma LayoutStep(sources: seq<Source>, chains: seq<Brr.Encoded>, n: nat, dir: Bytes, brr: Bytes, e: Brr.Encoded)
    requires IsLayout(sources, chains, n, dir, brr) && n < |sources| &&
      Brr.Encodes(sources[n].pcm, sources[n].loopSample, e)
    ensures IsLayout(sources, chains + [e], n + 1, dir + Entry(StartOf(sources, n), LoopOf(sources, n)), brr + e.bytes)
  {
    hide Brr.Encodes, Entry, StartOf, LoopOf, Flat;
    FlatAppend(Directory(sources, n), [Entry(StartOf(sources, n), LoopOf(sources, n))]);
    FlatOne(Entry(StartOf(sources, n), LoopOf(sources, n)));
    assert (chains + [e])[..n] == chains;
  }

  lemma NoLayout(sources: seq<Source>)
    ensures IsLayout(sources, [], 0, [], [])
  {
  }

  /** Encodes the samples one by one behind BRR_DEST; an address beyond 64 KiB is an error. */
  method LayOut(sources: seq<Source>) returns (r: Result<(Bytes, Bytes)>, ghost chains: seq<Brr.Encoded>)
    ensures r.Ok? <==> StartOf(sources, |sources|) <= APU_RAM
    ensures r.Ok? ==> IsLayout(sources, chains, |sources|, r.value.0, r.value.1)
  {
    hide Brr.Encodes, IsLayout, Entry;
    var dir: Bytes, brr: Bytes := [], [];
    chains := [];
    NoLayout(sources);
    for i := 0 to |sources|
      invariant IsLayout(sources, chains, i, dir, brr)
      invariant |brr| == Total(sources, i) && StartOf(sources, i) <= APU_RAM
    {
      var encoded := Brr.Encode(sources[i].pcm, sources[i].loopSample);
      EncodedShape(sources[i], encoded);
      TotalGrows(sources, i + 1, |sources|);
      var start := BRR_DEST + |brr| % 0x1_0000;
      if start > 0xFFFF || start + |encoded.bytes| > APU_RAM {
        return Err, chains;
      }
      var loop := match encoded.loopBlock case Some(b) => start + 9 * b case None => start;
      LayoutStep(sources, chains, i, dir, brr, encoded);
      dir := dir + Entry(start, loop);
      brr := brr + encoded.bytes;
      chains := chains + [encoded];
    }
    r := Ok((dir, brr));
  }

  lemma EncodedShape(s: Source, e: Brr.Encoded)
    requires Brr.Encodes(s.pcm, s.loopSample, e)
    ensures |e.bytes| == 9 * Brr.BlockCount(s.pcm) && e.loopBlock == Brr.LoopBlock(s.pcm, s.loopSample)
    ensures e.loopBlock.Some? ==> e.loopBlock.value < Brr.BlockCount(s.pcm)
  {
    hide Brr.EncodesBlock;
  }

  method BuildInstr(file: File, conv: Conversions) returns (instr: Bytes)
    requires SamplesExist(file)
    ensures instr == Flat(InstrRecs(file, conv, |file.instruments|))
  {
    hide InstrEntry;
    instr := [];
    for k := 0 to |file.instruments|
      invariant instr == Flat(InstrRecs(file, conv, k))
    {
      var entry := InstrEntry(file.instruments[k], file.samples, conv);
      FlatAppend(InstrRecs(file, conv, k), [entry]);
      FlatOne(entry);
      instr := instr + entry;
    }
  }

  /** The regions an import of this file makes. */
  ghost predicate IsImport(file: File, conv: Conversions, r: Regions, chains: seq<Brr.Encoded>)
    requires SamplesExist(file)
  {
    && IsLayout(Sources(file, conv), chains, |file.samples|, r.dir, r.brr)
    && r.instr == Flat(InstrRecs(file, conv, |file.instruments|))
  }

  method ImportSf2(bytes: Bytes, conv: Conversions) returns (r: Result<Regions>, ghost chains: seq<Brr.Encoded>)
    ensures r.Ok? <==> Sf2Reader.Parsed(bytes).Ok? && Importable(Sf2Reader.Parsed(bytes).value, conv)
    ensures r.Ok? ==> IsImport(Sf2Reader.Parsed(bytes).value, conv, r.value, chains)
  {
    hide IsLayout, SourceOf, SampleLoops, Sf2Reader.Parsed, InstrRecs;
    chains := [];
    var parsed := Sf2Reader.Parse(bytes);
    if parsed == Err {
      return Err, [];
    }
    var file := parsed.value;
    if file.samples == [] || |file.samples| > DIRECTORY_SIZE {
      return Err, [];
    }
    for k := 0 to |file.instruments|
      invariant forall j :: 0 <= j < k ==> file.instruments[j].sampleIndex < |file.samples|
    {
      if file.instruments[k].sampleIndex >= |file.samples| {
        return Err, [];
      }
    }
    var loops := FindLoops(file);
    var sources := seq(|file.samples|, i requires 0 <= i < |file.samples| => SourceOf(file.samples[i], loops[i], conv));
    assert sources == Sources(file, conv);
    var layout;
    layout, chains := LayOut(sources);
    if layout == Err {
      return Err, [];
    }
    var instr := BuildInstr(file, conv);
    r := Ok(Regions(layout.value.0, instr, layout.value.1));
  }

  // ----- The imported bank plays

  /** What a directory entry holds. */
  function ReadEntry(dir: Bytes, i: nat): (int, int)
    requires 4 * i + 4 <= |dir|
  {
    (U16(dir[4 * i..4 * i + 2]), U16(dir[4 * i + 2..4 * i + 4]))
  }

  lemma {:induction false} RecordAt(recs: seq<Bytes>, i: nat)
    requires i < |recs| && AreRecords(recs, 4)
    ensures 4 * i + 4 <= |Flat(recs)| && Flat(recs)[4 * i..4 * i + 4] == recs[i]
    decreases i
  {
    if i > 0 {
      RecordAt(recs[1..], i - 1);
      assert Flat(recs)[4..] == Flat(recs[1..]);
      Sub(Flat(recs), 4, 4 * (i - 1), 4 * (i - 1) + 4);
    }
  }

  lemma EntryReads(start: nat, loop: nat)
    requires start < 0x1_0000 && loop < 0x1_0000
    ensures U16(Entry(start, loop)[0..2]) == start && U16(Entry(start, loop)[2..4]) == loop
  {
    hide Le16, U16;
    U16OfLe16(start);
    U16OfLe16(loop);
    assert Entry(start, loop)[0..2] == Le16(start) && Entry(start, loop)[2..4] == Le16(loop);
  }

  /** Chains come one behind the other from BRR_DEST on, all inside 64 KiB. */
  lemma ChainsTile(sources: seq<Source>, i: nat)
    requires i < |sources| && StartOf(sources, |sources|) <= APU_RAM
    ensures StartOf(sources, 0) == 0x4DB0
    ensures StartOf(sources, i + 1) == StartOf(sources, i) + 9 * Brr.BlockCount(sources[i].pcm) <= 0x1_0000
    ensures StartOf(sources, i) < 0x1_0000
    ensures LoopOf(sources, i) == StartOf(sources, i) + 9 * LoopBlockOf(sources[i]) <= StartOf(sources, i + 1) - 9
  {
    hide LoopBlockOf, Brr.BlockCount;
    TotalGrows(sources, i + 1, |sources|);
  }

  /** The directory bytes say where each chain starts and loops, without truncation. */
  lemma DirectoryReads(sources: seq<Source>, chains: seq<Brr.Encoded>, dir: Bytes, brr: Bytes, i: nat)
    requires IsLayout(sources, chains, |sources|, dir, brr) && i < |sources| && StartOf(sources, |sources|) <= APU_RAM
    ensures 4 * i + 4 <= |dir| && ReadEntry(dir, i) == (StartOf(sources, i), LoopOf(sources, i))
  {
    hide Brr.Encodes, Entry, StartOf, LoopOf, Flat, Joined, U16;
    var recs := Directory(sources, |sources|);
    RecordAt(recs, i);
    ChainsTile(sources, i);
    EntryReads(StartOf(sources, i), LoopOf(sources, i));
    assert dir[4 * i..4 * i + 2] == dir[4 * i..4 * i + 4][0..2];
    assert dir[4 * i + 2..4 * i + 4] == dir[4 * i..4 * i + 4][2..4];
  }

  /** The chains behind chain i. */
  lemma {:induction false} JoinedAround(chains: seq<Brr.Encoded>, i: nat) returns (after: Bytes)
    requires i < |chains|
    ensures Joined(chains) == Joined(chains[..i]) + chains[i].bytes + after
  {
    var n := |chains| - 1;
    if i == n {
      after := [];
    } else {
      var between := JoinedAround(chains[..n], i);
      after := between + chains[n].bytes;
      assert chains[..n][..i] == chains[..i];
    }
  }

  /** In any memory that holds the BRR region at BRR_DEST, decoding at the start a directory entry
      gives stops at the last block of that sample's own chain, and loops if and only if the sample
      was given a loop point. */
  lemma ImportedBankPlays(sources: seq<Source>, chains: seq<Brr.Encoded>, dir: Bytes, brr: Bytes, i: nat,
      front: Bytes, back: Bytes)
    requires IsLayout(sources, chains, |sources|, dir, brr) && i < |sources| && StartOf(sources, |sources|) <= APU_RAM
    requires |front| == BRR_DEST
    ensures 4 * i + 4 <= |dir|
    ensures Brr.Decodes(front + brr + back, ReadEntry(dir, i).0, Brr.BlockCount(sources[i].pcm),
                        Brr.Decoded(BrrLossless.Reconstruction(chains[i]), sources[i].loopSample.Some?))
  {
    hide Brr.Encodes, Brr.Decodes, Entry, Flat, Directory, ReadEntry, LoopOf;
    DirectoryReads(sources, chains, dir, brr, i);
    assert Brr.Encodes(sources[i].pcm, sources[i].loopSample, chains[i]);
    var after := JoinedAround(chains, i);
    var prefix, suffix := front + Joined(chains[..i]), after + back;
    JoinedLength(sources, chains[..i]);
    BrrLossless.EncodedChainDecodes(sources[i].pcm, sources[i].loopSample, chains[i], prefix, suffix);
    assert front + brr + back == prefix + chains[i].bytes + suffix;
  }
}
