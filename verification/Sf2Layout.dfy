/** What a written file holds for other programs: its version and names, silence behind each sample, and the preset
    tables, in which preset i plays instrument i. */
module Sf2Layout {
  import opened Words
  import opened Riff
  import opened Sf2
  import opened Sf2Writer
  import Sf2Lookup
  import Sf2RoundTrip

  // ----- Version and names

  /** A terminated string: one zero behind it, or two for an even length. */
  lemma Terminated(s: Bytes)
    ensures var z := ZstrEven(s);
      |z| == (if |s| % 2 == 1 then |s| + 1 else |s| + 2) && z[..|s|] == s && z[|s|] == 0 && z[|z| - 1] == 0
  {
  }

  /** The INFO list: version 2.1, the sound engine and the program's name. */
  lemma InfoReads()
    ensures ParseAt(InfoBody(), 0) == Ok([ Chunk(Sf2Lookup.Ascii("ifil"), Le16(2) + Le16(1)),
                                           Chunk(Sf2Lookup.Ascii("isng"), Sf2Lookup.Ascii("EMU8000") + [0]),
                                           Chunk(Sf2Lookup.Ascii("INAM"), Sf2Lookup.Ascii("slopgb-sf2") + [0, 0]) ])
  {
    hide WriteChunk, ParseAt;
    Sf2Lookup.WrittenNames();
    assert Le16(2) + Le16(1) == [2, 0, 1, 0];
    Terminated(EMU8000);
    Terminated(SLOPGB_SF2);
    assert ZstrEven(EMU8000) == EMU8000 + [0];
    assert ZstrEven(SLOPGB_SF2) == SLOPGB_SF2 + [0, 0];
    var version, engine, name :=
      Chunk(IFIL, [2, 0, 1, 0]), Chunk(ISNG, EMU8000 + [0]), Chunk(INAM, SLOPGB_SF2 + [0, 0]);
    WriteOne(version);
    WriteOne(engine);
    WriteOne(name);
    WriteAllAppend([version], [engine]);
    WriteAllAppend([version] + [engine], [name]);
    var chunks := [version] + [engine] + [name];
    FramingInverse(chunks);
    assert chunks == [version, engine, name];
  }

  // ----- Sample points

  /** The samples lie one behind the other from point 0 on, each in front of 46 points of silence. */
  lemma SamplesTile(samples: seq<Sample>, i: nat)
    requires i < |samples|
    ensures var points, span := Points(samples, |samples|), SpanOf(samples, i);
      && (i == 0 ==> span.start == 0)
      && span.end == span.start + |samples[i].pcm| && span.end + 46 <= |points|
      && points[span.start..span.end] == samples[i].pcm
      && (forall k :: span.end <= k < span.end + 46 ==> points[k] == 0)
      && (if i + 1 < |samples| then SpanOf(samples, i + 1).start == span.end + 46 else |points| == span.end + 46)
      && span.loopStart - span.start == samples[i].loopStart && span.loopEnd - span.start == samples[i].loopEnd
  {
    Sf2RoundTrip.PcmInPlace(samples, i, |samples|);
    Sf2RoundTrip.PointsBefore(samples, i + 1, |samples|);
  }

  // ----- Presets

  lemma {:induction false} RecordAt(recs: seq<Bytes>, width: nat, i: nat)
    requires (width == 38 || width == 4) && i < |recs| && AreRecords(recs, width)
    ensures width * i + width <= |Flat(recs)| && Flat(recs)[width * i..width * i + width] == recs[i]
    decreases i
  {
    if i > 0 {
      RecordAt(recs[1..], width, i - 1);
      assert Flat(recs)[width..] == Flat(recs[1..]);
      Sub(Flat(recs), width, width * (i - 1), width * (i - 1) + width);
      assert width + width * (i - 1) == width * i;
    }
  }

  lemma {:induction false} PresetRecs(instruments: seq<Instrument>, n: nat)
    requires n <= |instruments|
    ensures |PhdrRecs(instruments, n)| == n
    ensures forall i :: 0 <= i < n ==> PhdrRecs(instruments, n)[i] == PhdrRecord(instruments[i].name, i, i)
  {
    hide PhdrRecord;
    if n > 0 {
      PresetRecs(instruments, n - 1);
    }
  }

  lemma HeaderFields(name: Bytes, preset: nat, bag: nat)
    ensures var r := PhdrRecord(name, preset, bag);
      && |r| == 38 && r[..20] == FixedStr(name, 20)
      && Sf2Lookup.WordAt(r, 20) == preset % 0x1_0000 && Sf2Lookup.WordAt(r, 22) == 0
      && Sf2Lookup.WordAt(r, 24) == bag % 0x1_0000 && forall k :: 26 <= k < 38 ==> r[k] == 0
  {
    hide FixedStr;
    WordOfLe16(preset);
    WordOfLe16(bag);
  }

  lemma WordOfLe16(n: nat)
    ensures Le16(n)[0] + 0x100 * (Le16(n)[1] as int) == n % 0x1_0000
  {
    hide Le16;
    U16OfLe16(n);
  }

  /** Preset i has instrument i's name, number i in bank 0, and one zone, at bag i; the last record is the terminal
      one and points behind the last zone. */
  lemma PresetHeaders(instruments: seq<Instrument>, i: nat)
    requires i <= |instruments|
    ensures var name := if i < |instruments| then instruments[i].name else Sf2Lookup.Ascii("EOP");
      && 38 * i + 38 <= |Phdr(instruments)|
      && var r := Phdr(instruments)[38 * i..38 * i + 38];
         && r[..20] == FixedStr(name, 20)
         && Sf2Lookup.WordAt(r, 20) == (if i < |instruments| then i % 0x1_0000 else 0) && Sf2Lookup.WordAt(r, 22) == 0
         && Sf2Lookup.WordAt(r, 24) == i % 0x1_0000 && forall k :: 26 <= k < 38 ==> r[k] == 0
  {
    hide PhdrRecord, FixedStr, Flat;
    Sf2Lookup.WrittenNames();
    var n := |instruments|;
    PresetRecs(instruments, n);
    HeaderFields(EOP, 0, n);
    forall k: nat | k < n ensures |PhdrRecord(instruments[k].name, k, k)| == 38 {
      HeaderFields(instruments[k].name, k, k);
    }
    if i < n {
      HeaderFields(instruments[i].name, i, i);
    }
    RecordAt(PhdrRecs(instruments, n) + [PhdrRecord(EOP, 0, n)], 38, i);
  }

  lemma {:induction false} ZoneRecs(n: nat)
    ensures |PbagRecs(n)| == |PgenRecs(n)| == n
    ensures forall i :: 0 <= i < n ==> PbagRecs(n)[i] == Bag(i) && PgenRecs(n)[i] == Le16(GEN_INSTRUMENT) + Le16(i)
  {
    hide Bag, Le16;
    if n > 0 {
      ZoneRecs(n - 1);
    }
  }

  lemma PairWords(a: nat, b: nat)
    ensures var r := Le16(a) + Le16(b);
      |r| == 4 && Sf2Lookup.WordAt(r, 0) == a % 0x1_0000 && Sf2Lookup.WordAt(r, 2) == b % 0x1_0000
  {
    hide Le16;
    WordOfLe16(a);
    WordOfLe16(b);
  }

  /** The two words of record i are found at its place in the table. */
  lemma PairAt(recs: seq<Bytes>, i: nat, a: nat, b: nat)
    requires i < |recs| && AreRecords(recs, 4) && recs[i] == Le16(a) + Le16(b)
    ensures 4 * i + 4 <= |Flat(recs)|
    ensures Sf2Lookup.WordAt(Flat(recs), 4 * i) == a % 0x1_0000
    ensures Sf2Lookup.WordAt(Flat(recs), 4 * i + 2) == b % 0x1_0000
  {
    hide Flat, Le16;
    RecordAt(recs, 4, i);
    PairWords(a, b);
    var flat, rec := Flat(recs), recs[i];
    assert flat[4 * i] == rec[0] && flat[4 * i + 1] == rec[1] && flat[4 * i + 2] == rec[2] && flat[4 * i + 3] == rec[3];
  }

  /** Zone i begins at generator i. */
  lemma PresetZones(n: nat, i: nat)
    requires i <= n
    ensures var pbag := Flat(PbagRecs(n) + [Bag(n)]);
      && 4 * i + 4 <= |pbag|
      && Sf2Lookup.WordAt(pbag, 4 * i) == i % 0x1_0000 && Sf2Lookup.WordAt(pbag, 4 * i + 2) == 0
  {
    hide Flat, Le16;
    ZoneRecs(n);
    PairAt(PbagRecs(n) + [Bag(n)], i, i, 0);
  }

  /** Generator i, operator 41, names instrument i; the terminal one is all zeros. */
  lemma PresetGenerators(n: nat, i: nat)
    requires i <= n
    ensures var pgen := Flat(PgenRecs(n) + [Zeros(4)]);
      && 4 * i + 4 <= |pgen|
      && Sf2Lookup.WordAt(pgen, 4 * i) == (if i < n then 41 else 0)
      && Sf2Lookup.WordAt(pgen, 4 * i + 2) == if i < n then i % 0x1_0000 else 0
  {
    hide Flat, Le16;
    ZoneRecs(n);
    ZeroPair();
    PairAt(PgenRecs(n) + [Zeros(4)], i, if i < n then GEN_INSTRUMENT else 0, if i < n then i else 0);
  }

  lemma ZeroPair()
    ensures Zeros(4) == Le16(0) + Le16(0)
  {
  }
}
