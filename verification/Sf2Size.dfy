/** How long a written file is. */
module Sf2Size {
  import opened Words
  import opened Riff
  import opened Sf2
  import opened Sf2Writer
  import Sf2RoundTrip

  lemma {:induction false} PresetSizes(instruments: seq<Instrument>, n: nat)
    requires n <= |instruments|
    ensures |Flat(PhdrRecs(instruments, n))| == 38 * n
    ensures |Flat(PbagRecs(n))| == 4 * n && |Flat(PgenRecs(n))| == 4 * n
  {
    hide Bag, Le16, Zeros, FixedStr;
    if n > 0 {
      PresetSizes(instruments, n - 1);
      FlatSnoc(PhdrRecs(instruments, n - 1), PhdrRecord(instruments[n - 1].name, n - 1, n - 1));
      FlatSnoc(PbagRecs(n - 1), Bag(n - 1));
      FlatSnoc(PgenRecs(n - 1), Le16(GEN_INSTRUMENT) + Le16(n - 1));
    }
  }

  lemma PresetTableSizes(instruments: seq<Instrument>)
    ensures var n := |instruments|;
      |Phdr(instruments)| == 38 * n + 38 && |Flat(PbagRecs(n) + [Bag(n)])| == 4 * n + 4 &&
        |Flat(PgenRecs(n) + [Zeros(4)])| == 4 * n + 4
  {
    hide Flat, PhdrRecs, PbagRecs, PgenRecs, Bag, FixedStr;
    var n := |instruments|;
    PresetSizes(instruments, n);
    FlatSnoc(PhdrRecs(instruments, n), PhdrRecord(EOP, 0, n));
    FlatSnoc(PbagRecs(n), Bag(n));
    FlatSnoc(PgenRecs(n), Zeros(4));
  }

  lemma InstrumentTableSizes(instruments: seq<Instrument>)
    ensures var n := |instruments|;
      |Inst(instruments)| == 22 * n + 22 && |Ibag(instruments)| == 4 * n + 4 &&
        |Igen(instruments)| == 4 * |Gens(instruments, n)| + 4
  {
    hide Flat, InstRecord, Bag, Gens, GenRecs;
    var n := |instruments|;
    FlatLength(InstRecs(instruments, n) + [InstRecord(EOI, n)], 22);
    FlatLength(IbagRecs(instruments, n) + [Bag(|Gens(instruments, n)|)], 4);
    GenCount(Gens(instruments, n) + [TERMINAL]);
  }

  lemma SampleTableSizes(samples: seq<Sample>)
    ensures |Shdr(samples)| == 46 * |samples| + 46
    ensures |Smpl(samples, |samples|)| == 2 * |Points(samples, |samples|)|
  {
    hide Flat, ShdrOf, FixedStr, Points, PointRecs;
    FlatLength(ShdrRecs(samples, |samples|) + [FixedStr(EOS, 20) + Zeros(26)], 46);
    PointCount(Points(samples, |samples|));
  }

  lemma GrownSize(chunks: seq<Chunk>, n: nat)
    requires n < |chunks|
    ensures |WriteAll(chunks[..n + 1])| <= |WriteAll(chunks[..n])| + |chunks[n].data| + 9
  {
    hide WriteChunk, WriteAll;
    Grown(chunks, n);
  }

  lemma ThreeGrown(chunks: seq<Chunk>, n: nat)
    requires n + 3 <= |chunks|
    ensures |WriteAll(chunks[..n + 3])|
         <= |WriteAll(chunks[..n])| + |chunks[n].data| + |chunks[n + 1].data| + |chunks[n + 2].data| + 27
  {
    hide WriteAll;
    GrownSize(chunks, n);
    GrownSize(chunks, n + 1);
    GrownSize(chunks, n + 2);
  }

  lemma PdtaSize(samples: seq<Sample>, instruments: seq<Instrument>)
    ensures |WriteAll(PdtaChunks(samples, instruments))| <= 120 * |instruments| + 46 * |samples| + 223
  {
    hide WriteAll, Phdr, Inst, Ibag, Igen, Shdr, Flat, Gens;
    PresetTableSizes(instruments);
    InstrumentTableSizes(instruments);
    SampleTableSizes(samples);
    Sf2RoundTrip.GenCounts(instruments, |instruments|);
    var all := PdtaChunks(samples, instruments);
    assert WriteAll(all[..0]) == [] by { NoChunks(); }
    ThreeGrown(all, 0);
    ThreeGrown(all, 3);
    ThreeGrown(all, 6);
    assert all[..9] == all;
  }

  lemma NoChunks()
    ensures WriteAll([]) == []
  {
  }

  /** A file is as long as its sample points, and little more. */
  lemma BodySize(samples: seq<Sample>, instruments: seq<Instrument>)
    ensures |Body(samples, instruments)|
         <= 2 * |Points(samples, |samples|)| + 46 * |samples| + 120 * |instruments| + 400
  {
    hide WriteAll, PdtaChunks, Points, Smpl;
    PdtaSize(samples, instruments);
    SampleTableSizes(samples);
  }
}
