/** Reading back what was written: `reader.rs` after `writer.rs`. */
module Sf2RoundTrip {
  import opened Words
  import opened Riff
  import opened Sf2
  import opened Sf2Writer
  import opened Sf2Reader

  // ----- What survives

  /** A name field keeps the bytes in front of the first NUL, twenty at most. */
  function Kept(name: Bytes): Bytes {
    CStr(name[..Min(|name|, 20)])
  }

  function SampleKept(s: Sample): Sample {
    s.(name := Kept(s.name))
  }

  /** Key ranges are not written, root keys above 127 are not taken back, and a sample index has
      sixteen bits. */
  function InstrumentKept(i: Instrument): Instrument {
    i.(name := Kept(i.name), sampleIndex := i.sampleIndex % 0x1_0000, keyRange := None,
       rootKey := if i.rootKey.Some? && i.rootKey.value <= 127 then i.rootKey else None)
  }

  function FileKept(samples: seq<Sample>, instruments: seq<Instrument>): File {
    File(seq(|samples|, i requires 0 <= i < |samples| => SampleKept(samples[i])),
      seq(|instruments|, i requires 0 <= i < |instruments| => InstrumentKept(instruments[i])))
  }

  /** The file's size fits its field, and so do the loop points, counted from the first sample. */
  ghost predicate Fits(samples: seq<Sample>, instruments: seq<Instrument>) {
    && |Body(samples, instruments)| < 0x1_0000_0000
    && forall i :: 0 <= i < |samples| ==>
         SpanOf(samples, i).loopStart < 0x1_0000_0000 && SpanOf(samples, i).loopEnd < 0x1_0000_0000
  }

  predicate SpanFits(s: Span) {
    s.start < 0x1_0000_0000 && s.end < 0x1_0000_0000 && s.loopStart < 0x1_0000_0000 && s.loopEnd < 0x1_0000_0000
  }

  /** Generators are counted in sixteen bits. */
  predicate GensFit(instruments: seq<Instrument>) {
    |Gens(instruments, |instruments|)| < 0x1_0000
  }

  /** What the reader makes of a file: nothing, without instruments or with too many generators. */
  function FileBack(samples: seq<Sample>, instruments: seq<Instrument>): Result<File> {
    if instruments == [] || !GensFit(instruments) then Err else Ok(FileKept(samples, instruments))
  }

  // ----- Samples

  lemma PointsRead(points: seq<Int16>)
    ensures PointsOf(Flat(PointRecs(points))) == points
  {
    hide Flat, Split, I16, Le16;
    var recs := PointRecs(points);
    SplitFlat(recs, 2);
    forall i | 0 <= i < |points| ensures I16(recs[i]) == points[i] {
      U16OfLe16(points[i]);
    }
  }

  lemma {:induction false} PointsBefore(samples: seq<Sample>, k: nat, n: nat)
    requires k <= n <= |samples|
    ensures Points(samples, k) <= Points(samples, n)
  {
    if k < n {
      PointsBefore(samples, k, n - 1);
    }
  }

  /** A sample's span holds its PCM, whatever samples come behind it. */
  lemma PcmInPlace(samples: seq<Sample>, i: nat, n: nat)
    requires i < n <= |samples|
    ensures var points, span := Points(samples, n), SpanOf(samples, i);
      span.end <= |points| && points[span.start..span.end] == samples[i].pcm
  {
    PointsBefore(samples, i + 1, n);
    var span, own := SpanOf(samples, i), Points(samples, i + 1);
    assert own[span.start..span.end] == samples[i].pcm;
    assert Points(samples, n)[..|own|] == own;
  }

  /** Sample points that fit the file are counted in 32 bits. */
  lemma SpansFit(samples: seq<Sample>, instruments: seq<Instrument>)
    requires Fits(samples, instruments)
    ensures forall i :: 0 <= i < |samples| ==> SpanFits(SpanOf(samples, i))
  {
    hide Points, Smpl, Info, Pdta;
    assert |Smpl(samples, |samples|)| < 0x1_0000_0000;
    PointsFit(samples);
    forall i | 0 <= i < |samples| ensures SpanFits(SpanOf(samples, i)) {
      PcmInPlace(samples, i, |samples|);
    }
  }

  lemma PointsFit(samples: seq<Sample>)
    ensures |Smpl(samples, |samples|)| == 2 * |Points(samples, |samples|)|
  {
    PointCount(Points(samples, |samples|));
  }

  lemma ShdrFields(s: Sample, span: Span)
    requires SpanFits(span)
    ensures ReadShdr(ShdrRecord(s, span))
         == ShdrRec(Kept(s.name), span.start, span.end, span.loopStart, span.loopEnd, s.rate, s.pitch, s.correction)
  {
    hide Le32, U32, Le16, FixedStr, CStr;
    var r := ShdrRecord(s, span);
    NameInverse(s.name, 20);
    U32OfLe32(span.start);
    U32OfLe32(span.end);
    U32OfLe32(span.loopStart);
    U32OfLe32(span.loopEnd);
    U32OfLe32(s.rate);
    assert r[0..20] == FixedStr(s.name, 20);
    assert r[20..24] == Le32(span.start);
    assert r[24..28] == Le32(span.end);
    assert r[28..32] == Le32(span.loopStart);
    assert r[32..36] == Le32(span.loopEnd);
    assert r[36..40] == Le32(s.rate);
    assert r[40] == s.pitch && r[41] == s.correction % 0x100;
    SignedByte(s.correction);
  }

  lemma SignedByte(x: Int8)
    ensures ToInt8(x % 0x100) == x
  {
  }

  lemma ShdrsRead(samples: seq<Sample>)
    ensures ShdrsOf(Shdr(samples)) == Ok(seq(|samples|, i requires 0 <= i < |samples| => ReadShdr(ShdrOf(samples, i))))
  {
    hide Flat, Split, ShdrOf, ReadShdr;
    var recs := ShdrRecs(samples, |samples|) + [FixedStr(EOS, 20) + Zeros(26)];
    SplitFlat(recs, 46);
    FlatLength(recs, 46);
    assert Shdr(samples) == Flat(recs) && |recs| == |samples| + 1;
    assert ShdrsOf(Flat(recs)).Ok?;
    assert ShdrsOf(Flat(recs)).value == seq(|samples|, i requires 0 <= i < |samples| => ReadShdr(ShdrOf(samples, i)));
  }

  lemma SampleRead(samples: seq<Sample>, i: nat)
    requires i < |samples| && SpanFits(SpanOf(samples, i))
    ensures SampleOf(ReadShdr(ShdrOf(samples, i)), Points(samples, |samples|)) == SampleKept(samples[i])
  {
    hide ReadShdr, ShdrRecord, Kept, Points;
    ShdrFields(samples[i], SpanOf(samples, i));
    PcmInPlace(samples, i, |samples|);
  }

  // ----- Instrument tables

  lemma InstFields(name: Bytes, bag: nat)
    ensures ReadInst(InstRecord(name, bag)) == InstRec(Kept(name), bag % 0x1_0000)
  {
    hide Le16, U16, FixedStr, CStr;
    var r := InstRecord(name, bag);
    NameInverse(name, 20);
    U16OfLe16(bag);
    assert r[0..20] == FixedStr(name, 20);
    assert r[20..22] == Le16(bag);
  }

  /** The instrument records read back: record i points at bag i, in sixteen bits. */
  function InstsKept(instruments: seq<Instrument>): (insts: seq<InstRec>)
    ensures |insts| == |instruments| + 1
  {
    var n := |instruments|;
    seq(n + 1, i requires 0 <= i <= n => InstRec(Kept(if i < n then instruments[i].name else EOI), i % 0x1_0000))
  }

  lemma InstsRead(instruments: seq<Instrument>)
    ensures InstsOf(Inst(instruments)) == if instruments == [] then Err else Ok(InstsKept(instruments))
  {
    hide Flat, Split, InstRecord, ReadInst, Kept;
    var n := |instruments|;
    var recs := InstRecs(instruments, n) + [InstRecord(EOI, n)];
    SplitFlat(recs, 22);
    FlatLength(recs, 22);
    forall i | 0 <= i <= n ensures ReadInst(recs[i]) == InstsKept(instruments)[i] {
      InstFields(if i < n then instruments[i].name else EOI, i);
    }
    assert Inst(instruments) == Flat(recs);
    if n > 0 {
      assert InstsOf(Flat(recs)).value == InstsKept(instruments);
    }
  }

  /** The bag records read back: zone i begins behind the generators of the zones before it, counted
      in sixteen bits. */
  function BagsKept(instruments: seq<Instrument>): (bags: seq<Word16>)
    ensures |bags| == |instruments| + 1
    ensures forall i :: 0 <= i <= |instruments| ==> bags[i] == |Gens(instruments, i)| % 0x1_0000
  {
    hide Gens;
    seq(|instruments| + 1, i requires 0 <= i <= |instruments| => |Gens(instruments, i)| % 0x1_0000)
  }

  lemma {:induction false} GensBefore(instruments: seq<Instrument>, k: nat, n: nat)
    requires k <= n <= |instruments|
    ensures Gens(instruments, k) <= Gens(instruments, n)
  {
    hide InstrumentGens;
    if k < n {
      GensBefore(instruments, k, n - 1);
    }
  }

  /** An instrument has eleven generators, and a twelfth for its root key. */
  lemma {:induction false} GenCounts(instruments: seq<Instrument>, n: nat)
    requires n <= |instruments|
    ensures 11 * n <= |Gens(instruments, n)| <= 12 * n
    ensures (forall i :: 0 <= i < n ==> instruments[i].rootKey == None) ==> |Gens(instruments, n)| == 11 * n
  {
    hide InstrumentGens;
    if n > 0 {
      GenCounts(instruments, n - 1);
    }
  }

  lemma BagFields(gen: nat)
    ensures U16(Bag(gen)[0..2]) == gen % 0x1_0000
  {
    hide Le16, U16;
    U16OfLe16(gen);
    assert Bag(gen)[0..2] == Le16(gen);
  }

  lemma BagsRead(instruments: seq<Instrument>)
    ensures BagsOf(Ibag(instruments)) == Ok(BagsKept(instruments))
  {
    hide Flat, Split, Bag, U16, Gens, BagsKept;
    var n := |instruments|;
    var recs := IbagRecs(instruments, n) + [Bag(|Gens(instruments, n)|)];
    SplitFlat(recs, 4);
    FlatLength(recs, 4);
    forall i | 0 <= i <= n ensures U16(recs[i][0..2]) == BagsKept(instruments)[i] {
      BagFields(|Gens(instruments, i)|);
    }
    assert BagsOf(Flat(recs)).value == BagsKept(instruments);
  }

  lemma GenFields(g: Gen)
    ensures ReadGen(GenBytes(g)) == g
  {
    hide Le16, U16;
    U16OfLe16(g.oper);
    assert GenBytes(g)[0..2] == Le16(g.oper) && GenBytes(g)[2..4] == g.amount;
  }

  lemma GensRead(gens: seq<Gen>)
    ensures GensOf(Flat(GenRecs(gens))) == Ok(gens)
  {
    hide Flat, Split, GenBytes, ReadGen;
    var recs := GenRecs(gens);
    SplitFlat(recs, 4);
    FlatLength(recs, 4);
    forall i | 0 <= i < |gens| ensures ReadGen(recs[i]) == gens[i] {
      GenFields(gens[i]);
    }
    assert GensOf(Flat(recs)).value == gens;
  }

  // ----- Zones

  /** Bag records partition the generators: zone i holds instrument i's. */
  lemma ZoneIsInstrument(instruments: seq<Instrument>, i: nat)
    requires i < |instruments| && GensFit(instruments)
    ensures ZoneGens(BagsKept(instruments), Gens(instruments, |instruments|) + [TERMINAL], i)
         == Some(InstrumentGens(instruments[i]))
  {
    hide InstrumentGens, BagsKept, Gens, GensFit;
    var all, own := Gens(instruments, |instruments|), InstrumentGens(instruments[i]);
    var lo, hi := |Gens(instruments, i)|, |Gens(instruments, i + 1)|;
    BagsAt(instruments, i);
    assert (all + [TERMINAL])[lo..hi] == own;
  }

  lemma BagsAt(instruments: seq<Instrument>, i: nat)
    requires i < |instruments| && GensFit(instruments)
    ensures BagsKept(instruments)[i] == |Gens(instruments, i)|
    ensures BagsKept(instruments)[i + 1] == |Gens(instruments, i + 1)|
    ensures Gens(instruments, i + 1) == Gens(instruments, i) + InstrumentGens(instruments[i])
    ensures Gens(instruments, i + 1) <= Gens(instruments, |instruments|)
  {
    hide InstrumentGens, BagsKept;
    GensBefore(instruments, i + 1, |instruments|);
  }

  /** Where the count of generators passes sixteen bits. */
  lemma {:induction false} Crossing(instruments: seq<Instrument>, n: nat) returns (i: nat)
    requires n <= |instruments| && |Gens(instruments, n)| >= 0x1_0000
    ensures i < n && |Gens(instruments, i)| < 0x1_0000 <= |Gens(instruments, i + 1)|
  {
    hide InstrumentGens;
    if |Gens(instruments, n - 1)| < 0x1_0000 {
      i := n - 1;
    } else {
      i := Crossing(instruments, n - 1);
    }
  }

  /** There the next bag record points back, so the zone is malformed and its instrument lost. */
  lemma CrossingIsLost(instruments: seq<Instrument>, i: nat)
    requires i < |instruments| && |Gens(instruments, i)| < 0x1_0000 <= |Gens(instruments, i + 1)|
    ensures Resolved(InstsKept(instruments), BagsKept(instruments), Gens(instruments, |instruments|) + [TERMINAL], i)
         == Err
  {
    hide InstrumentGens, BagsKept, Kept, Resolved;
    CountsFit(instruments, i);
    assert Gens(instruments, i + 1) == Gens(instruments, i) + InstrumentGens(instruments[i]);
    OneZone(InstsKept(instruments), BagsKept(instruments), Gens(instruments, |instruments|) + [TERMINAL], i);
  }

  /** The last generator of an operator decides. */
  lemma {:induction false} LastWins(m: GenMap, gens: seq<Gen>, i: nat)
    requires i < |gens| && forall j :: i < j < |gens| ==> gens[j].oper != gens[i].oper
    ensures gens[i].oper in Inserted(m, gens) && Inserted(m, gens)[gens[i].oper] == gens[i].amount
  {
    var n := |gens| - 1;
    if i < n {
      LastWins(m, gens[..n], i);
    }
  }

  lemma {:induction false} AbsentStays(m: GenMap, gens: seq<Gen>, id: Word16)
    requires forall j :: 0 <= j < |gens| ==> gens[j].oper != id
    ensures id in Inserted(m, gens) <==> id in m
    ensures id in m ==> Inserted(m, gens)[id] == m[id]
  {
    if gens != [] {
      AbsentStays(m, gens[..|gens| - 1], id);
    }
  }

  /** A global zone supplies exactly the operators the sample zone leaves out. */
  lemma {:induction false} GlobalZoneIsDefault(global: seq<Gen>, local: seq<Gen>, id: Word16)
    ensures var own, inherited := Inserted(map[], local), Inserted(map[], global);
      var m := Inserted(inherited, local);
      && (id in m <==> id in own || id in inherited)
      && (id in own ==> m[id] == own[id])
      && (id !in own && id in inherited ==> m[id] == inherited[id])
  {
    if local != [] {
      GlobalZoneIsDefault(global, local[..|local| - 1], id);
    }
  }

  /** An operator's place in the writer's order. */
  function Rank(oper: Word16): nat {
    match oper
    case 51 => 0
    case 52 => 1
    case 48 => 2
    case 33 => 3
    case 34 => 4
    case 35 => 5
    case 36 => 6
    case 37 => 7
    case 38 => 8
    case 54 => 9
    case 58 => 10
    case _ => 11
  }

  /** No operator occurs twice. */
  lemma OpersDiffer(inst: Instrument)
    ensures forall i, j :: 0 <= i < j < |InstrumentGens(inst)| ==>
      InstrumentGens(inst)[i].oper != InstrumentGens(inst)[j].oper
  {
    hide Le16;
    var g := InstrumentGens(inst);
    assert forall k :: 0 <= k < |g| ==> Rank(g[k].oper) == if k < 10 then k else if k == |g| - 1 then 11 else 10;
  }

  /** The reader's table has each generator of an instrument. */
  lemma GenFound(inst: Instrument, m: GenMap, i: nat, g: Gen)
    requires m == Inserted(map[], InstrumentGens(inst))
    requires i < |InstrumentGens(inst)| && g == InstrumentGens(inst)[i]
    ensures g.oper in m && m[g.oper] == g.amount
  {
    hide InstrumentGens, Inserted;
    OpersDiffer(inst);
    LastWins(map[], InstrumentGens(inst), i);
  }

  lemma TuningFound(inst: Instrument, m: GenMap)
    requires m == Inserted(map[], InstrumentGens(inst))
    ensures GenI16(m, GEN_COARSE_TUNE, 0) == inst.coarse && GenI16(m, GEN_FINE_TUNE, 0) == inst.fine
    ensures GenI16(m, GEN_INITIAL_ATTENUATION, 0) == inst.attenuation
    ensures GenU16(m, GEN_SAMPLE_MODES, 0) == if inst.loops then 1 else 0
  {
    hide Le16, I16, U16, Inserted;
    var modes := if inst.loops then 1 else 0;
    GenFound(inst, m, 0, GenRecord(GEN_COARSE_TUNE, inst.coarse));
    GenFound(inst, m, 1, GenRecord(GEN_FINE_TUNE, inst.fine));
    GenFound(inst, m, 2, GenRecord(GEN_INITIAL_ATTENUATION, inst.attenuation));
    GenFound(inst, m, 9, GenRecord(GEN_SAMPLE_MODES, modes));
    U16OfLe16(inst.coarse);
    U16OfLe16(inst.fine);
    U16OfLe16(inst.attenuation);
    U16OfLe16(modes);
  }

  lemma EnvelopeFound(inst: Instrument, m: GenMap)
    requires m == Inserted(map[], InstrumentGens(inst))
    ensures GenI16(m, GEN_DELAY_VOL_ENV, -12000) == inst.env.delay
    ensures GenI16(m, GEN_ATTACK_VOL_ENV, -12000) == inst.env.attack
    ensures GenI16(m, GEN_HOLD_VOL_ENV, -12000) == inst.env.hold
    ensures GenI16(m, GEN_DECAY_VOL_ENV, -12000) == inst.env.decay
    ensures GenI16(m, GEN_SUSTAIN_VOL_ENV, 0) == inst.env.sustain
    ensures GenI16(m, GEN_RELEASE_VOL_ENV, -12000) == inst.env.release
  {
    hide Le16, I16, U16, Inserted;
    GenFound(inst, m, 3, GenRecord(GEN_DELAY_VOL_ENV, inst.env.delay));
    GenFound(inst, m, 4, GenRecord(GEN_ATTACK_VOL_ENV, inst.env.attack));
    GenFound(inst, m, 5, GenRecord(GEN_HOLD_VOL_ENV, inst.env.hold));
    GenFound(inst, m, 6, GenRecord(GEN_DECAY_VOL_ENV, inst.env.decay));
    GenFound(inst, m, 7, GenRecord(GEN_SUSTAIN_VOL_ENV, inst.env.sustain));
    GenFound(inst, m, 8, GenRecord(GEN_RELEASE_VOL_ENV, inst.env.release));
    U16OfLe16(inst.env.delay);
    U16OfLe16(inst.env.attack);
    U16OfLe16(inst.env.hold);
    U16OfLe16(inst.env.decay);
    U16OfLe16(inst.env.sustain);
    U16OfLe16(inst.env.release);
  }

  lemma KeysFound(inst: Instrument, m: GenMap)
    requires m == Inserted(map[], InstrumentGens(inst))
    ensures GenU16(m, GEN_SAMPLE_ID, 0) == inst.sampleIndex % 0x1_0000
    ensures GenI16(m, GEN_OVERRIDING_ROOT_KEY, -1) == if inst.rootKey.Some? then inst.rootKey.value else -1
    ensures GEN_KEY_RANGE !in m
  {
    hide Le16, I16, U16, Inserted;
    var g := InstrumentGens(inst);
    GenFound(inst, m, |g| - 1, GenRecord(GEN_SAMPLE_ID, inst.sampleIndex));
    U16OfLe16(inst.sampleIndex);
    AbsentStays(map[], g, GEN_KEY_RANGE);
    if inst.rootKey.Some? {
      GenFound(inst, m, 10, GenRecord(GEN_OVERRIDING_ROOT_KEY, inst.rootKey.value));
      U16OfLe16(inst.rootKey.value);
    } else {
      AbsentStays(map[], g, GEN_OVERRIDING_ROOT_KEY);
    }
  }

  lemma InstrumentBack(inst: Instrument)
    ensures InstrumentOf(Kept(inst.name), Inserted(map[], InstrumentGens(inst))) == InstrumentKept(inst)
  {
    hide GenI16, GenU16, ToInt8, Inserted, InstrumentGens, Kept;
    var m := Inserted(map[], InstrumentGens(inst));
    TuningFound(inst, m);
    EnvelopeFound(inst, m);
    KeysFound(inst, m);
    SmallByte(inst.coarse);
    SmallByte(inst.fine);
  }

  lemma SmallByte(x: Int8)
    ensures ToInt8(x) == x
  {
  }

  lemma InstrumentRead(instruments: seq<Instrument>, i: nat)
    requires i < |instruments| && GensFit(instruments)
    ensures Resolved(InstsKept(instruments), BagsKept(instruments), Gens(instruments, |instruments|) + [TERMINAL], i)
         == Ok(InstrumentKept(instruments[i]))
  {
    hide InstrumentOf, Inserted, ZoneGens, InstrumentKept, Kept, Gens, BagsKept, Resolved, InstrumentGens;
    ZoneIsInstrument(instruments, i);
    InstrumentBack(instruments[i]);
    EndsInSampleId(instruments[i]);
    CountsFit(instruments, |instruments|);
    OneZone(InstsKept(instruments), BagsKept(instruments), Gens(instruments, |instruments|) + [TERMINAL], i);
  }

  lemma CountsFit(instruments: seq<Instrument>, i: nat)
    requires i <= |instruments| && |Gens(instruments, i)| < 0x1_0000
    ensures i < 6000
  {
    hide Gens;
    GenCounts(instruments, i);
  }

  lemma EndsInSampleId(inst: Instrument)
    ensures HasSampleId(InstrumentGens(inst))
  {
  }

  /** An instrument of one zone. */
  lemma OneZone(insts: seq<InstRec>, bags: seq<Word16>, gens: seq<Gen>, i: nat)
    requires i + 1 < |insts| && i + 1 < |bags| && insts[i].bag == i && insts[i + 1].bag == i + 1
    ensures ZoneGens(bags, gens, i) == None ==> Resolved(insts, bags, gens, i) == Err
    ensures ZoneGens(bags, gens, i).Some? && HasSampleId(ZoneGens(bags, gens, i).value) ==>
      Resolved(insts, bags, gens, i)
      == Ok(InstrumentOf(insts[i].name, Inserted(map[], ZoneGens(bags, gens, i).value)))
  {
    hide InstrumentOf, Inserted, ZoneGens, HasSampleId;
    assert SampleZone(bags, gens, i, i + 1, i + 1, map[]) == None;
  }

  /** The instruments read back, all of them or none. */
  function InstrumentsKept(instruments: seq<Instrument>): Result<seq<Instrument>> {
    if GensFit(instruments) then
      Ok(seq(|instruments|, i requires 0 <= i < |instruments| => InstrumentKept(instruments[i])))
    else Err
  }

  lemma InstrumentsRead(instruments: seq<Instrument>)
    ensures Instruments(InstsKept(instruments), BagsKept(instruments),
                        Gens(instruments, |instruments|) + [TERMINAL], |instruments|)
         == InstrumentsKept(instruments)
  {
    hide Resolved, InstrumentKept, Gens, InstsKept, BagsKept, Instruments;
    var insts, bags := InstsKept(instruments), BagsKept(instruments);
    var gens := Gens(instruments, |instruments|) + [TERMINAL];
    var r := Instruments(insts, bags, gens, |instruments|);
    if GensFit(instruments) {
      forall i: nat | i < |instruments| ensures Resolved(insts, bags, gens, i) == Ok(InstrumentKept(instruments[i])) {
        InstrumentRead(instruments, i);
      }
      assert r.value == InstrumentsKept(instruments).value;
    } else {
      var i := Crossing(instruments, |instruments|);
      CrossingIsLost(instruments, i);
    }
  }

  // ----- The file

  lemma {:induction false} FindAt(chunks: seq<Chunk>, id: FourCc, k: nat)
    requires k < |chunks| && chunks[k].id == id && forall j :: 0 <= j < k ==> chunks[j].id != id
    ensures FindChunk(chunks, id) == Some(chunks[k].data)
  {
    if k > 0 {
      FindAt(chunks[1..], id, k - 1);
    }
  }

  lemma TablesFound(samples: seq<Sample>, instruments: seq<Instrument>)
    ensures var chunks := PdtaChunks(samples, instruments);
      && FindChunk(chunks, INST) == Some(Inst(instruments)) && FindChunk(chunks, IBAG) == Some(Ibag(instruments))
      && FindChunk(chunks, IGEN) == Some(Igen(instruments)) && FindChunk(chunks, SHDR) == Some(Shdr(samples))
  {
    hide Phdr, Inst, Ibag, Igen, Shdr, FindChunk, Flat;
    var chunks := PdtaChunks(samples, instruments);
    assert INST[1] == 0x6E && IBAG[1] == 0x62 && IGEN[1] == 0x67 && IMOD[1] == 0x6D;
    assert INST[0] == IBAG[0] == IGEN[0] == IMOD[0] == 0x69 && SHDR[0] == 0x73;
    assert PHDR[0] == PBAG[0] == PMOD[0] == PGEN[0] == 0x70;
    FindAt(chunks, INST, 4);
    FindAt(chunks, IBAG, 5);
    FindAt(chunks, IGEN, 7);
    FindAt(chunks, SHDR, 8);
  }

  lemma SamplesRead(samples: seq<Sample>, shdr: seq<ShdrRec>)
    requires forall i :: 0 <= i < |samples| ==> SpanFits(SpanOf(samples, i))
    requires ShdrsOf(Shdr(samples)) == Ok(shdr)
    ensures seq(|shdr|, i requires 0 <= i < |shdr| => SampleOf(shdr[i], Points(samples, |samples|)))
         == seq(|samples|, i requires 0 <= i < |samples| => SampleKept(samples[i]))
  {
    hide SpanOf, SpanFits, ShdrsOf, Shdr, ShdrOf, ReadShdr, SampleOf, SampleKept, Points;
    ShdrsRead(samples);
    forall i | 0 <= i < |samples| ensures SampleOf(shdr[i], Points(samples, |samples|)) == SampleKept(samples[i]) {
      SampleRead(samples, i);
    }
  }

  lemma TablesRead(samples: seq<Sample>, instruments: seq<Instrument>)
    requires Fits(samples, instruments)
    ensures Tables(Points(samples, |samples|), PdtaChunks(samples, instruments)) == FileBack(samples, instruments)
  {
    hide PdtaChunks, FindChunk, ShdrsOf, InstsOf, BagsOf, GensOf, Instruments, Inst, Ibag, Shdr, SampleOf, SpanOf,
      SpanFits, InstsKept, BagsKept, Gens, GenRecs, Flat, Body, Points, SampleKept, InstrumentKept, Fits, GensFit;
    SpansFit(samples, instruments);
    TablesFound(samples, instruments);
    ShdrsRead(samples);
    SamplesRead(samples, ShdrsOf(Shdr(samples)).value);
    InstsRead(instruments);
    BagsRead(instruments);
    GensRead(Gens(instruments, |instruments|) + [TERMINAL]);
    InstrumentsRead(instruments);
  }

  /** The three lists of a file. */
  function Lists(samples: seq<Sample>, instruments: seq<Instrument>): seq<Chunk> {
    [ Chunk(LIST, INFO + InfoBody()),
      Chunk(LIST, SDTA + WriteChunk(SMPL, Smpl(samples, |samples|))),
      Chunk(LIST, PDTA + WriteAll(PdtaChunks(samples, instruments))) ]
  }

  lemma BodyIsLists(samples: seq<Sample>, instruments: seq<Instrument>)
    ensures Body(samples, instruments) == SFBK + WriteAll(Lists(samples, instruments))
  {
    hide WriteChunk, WriteAll, InfoBody, PdtaChunks, Smpl;
    var all := Lists(samples, instruments);
    WriteOne(all[0]);
    assert all[..1] == [all[0]];
    Grown(all, 1);
    Grown(all, 2);
    assert all[..3] == all;
  }

  lemma FormOf(form: FourCc, body: Bytes)
    ensures FormAndBody(form + body) == Ok((form, body))
  {
    assert (form + body)[..4] == form && (form + body)[4..] == body;
  }

  lemma ListsFound(samples: seq<Sample>, instruments: seq<Instrument>)
    ensures FindList(Lists(samples, instruments), SDTA) == Some(WriteChunk(SMPL, Smpl(samples, |samples|)))
    ensures FindList(Lists(samples, instruments), PDTA) == Some(WriteAll(PdtaChunks(samples, instruments)))
  {
    hide WriteChunk, WriteAll, InfoBody, PdtaChunks, Smpl, FormAndBody;
    var all := Lists(samples, instruments);
    FormOf(INFO, InfoBody());
    FormOf(SDTA, WriteChunk(SMPL, Smpl(samples, |samples|)));
    FormOf(PDTA, WriteAll(PdtaChunks(samples, instruments)));
    assert INFO[0] == 0x49 && SDTA[0] == 0x73 && PDTA[0] == 0x70;
    assert FindList(all, SDTA) == FindList(all[1..], SDTA);
    assert FindList(all, PDTA) == FindList(all[1..], PDTA) == FindList(all[1..][1..], PDTA);
  }

  /** Parsing undoes the framing of every level. */
  lemma FramesRead(samples: seq<Sample>, instruments: seq<Instrument>)
    requires |Body(samples, instruments)| < 0x1_0000_0000
    ensures ParseAt(Written(samples, instruments), 0) == Ok([Chunk(RIFF, Body(samples, instruments))])
    ensures FormAndBody(Body(samples, instruments)) == Ok((SFBK, WriteAll(Lists(samples, instruments))))
    ensures ParseAt(WriteAll(Lists(samples, instruments)), 0) == Ok(Lists(samples, instruments))
    ensures ParseAt(WriteChunk(SMPL, Smpl(samples, |samples|)), 0) == Ok([Chunk(SMPL, Smpl(samples, |samples|))])
    ensures ParseAt(WriteAll(PdtaChunks(samples, instruments)), 0) == Ok(PdtaChunks(samples, instruments))
  {
    hide ParseAt, WriteAll, WriteChunk, Body, PdtaChunks, Smpl, InfoBody, FormAndBody;
    var top, smpl, lists := Chunk(RIFF, Body(samples, instruments)), Chunk(SMPL, Smpl(samples, |samples|)),
      Lists(samples, instruments);
    BodyIsLists(samples, instruments);
    FormOf(SFBK, WriteAll(lists));
    WriteOne(top);
    WriteOne(smpl);
    FrameableWhenShort(lists);
    assert |lists[1].data| < 0x1_0000_0000 && |lists[2].data| < 0x1_0000_0000;
    FrameableWhenShort([smpl]);
    FrameableWhenShort(PdtaChunks(samples, instruments));
    FramingInverse([top]);
    FramingInverse(lists);
    FramingInverse([smpl]);
    FramingInverse(PdtaChunks(samples, instruments));
  }

  /** Written and read again, everything but the fields the format cannot hold comes back; a file without
      instruments is refused, and so is one whose generators are too many for a bag record to count. */
  lemma ReadBack(samples: seq<Sample>, instruments: seq<Instrument>)
    requires Fits(samples, instruments)
    ensures Parsed(Written(samples, instruments)) == FileBack(samples, instruments)
  {
    hide ParseAt, WriteAll, Written, Body, Lists, FormAndBody, ParsedLists, SpanOf, FileBack;
    FramesRead(samples, instruments);
    ListsRead(samples, instruments);
  }

  lemma ListsRead(samples: seq<Sample>, instruments: seq<Instrument>)
    requires Fits(samples, instruments)
    ensures ParsedLists(Lists(samples, instruments)) == FileBack(samples, instruments)
  {
    hide ParseAt, WriteAll, WriteChunk, Body, PdtaChunks, Lists, FindList, FindChunk, PointsOf, Points, Smpl, Tables,
      SpanOf, FileBack;
    SmplRead(samples);
    FramesRead(samples, instruments);
    ListsFound(samples, instruments);
    TablesRead(samples, instruments);
  }

  lemma SmplRead(samples: seq<Sample>)
    ensures FindChunk([Chunk(SMPL, Smpl(samples, |samples|))], SMPL) == Some(Smpl(samples, |samples|))
    ensures PointsOf(Smpl(samples, |samples|)) == Points(samples, |samples|)
  {
    hide PointsOf, Points, Flat, PointRecs;
    PointsRead(Points(samples, |samples|));
  }

  ghost predicate InstrumentFits(i: Instrument) {
    && NameSurvives(i.name, 20) && i.sampleIndex < 0x1_0000 && i.keyRange == None
    && (i.rootKey.Some? ==> i.rootKey.value <= 127)
  }

  /** A file comes back whole if and only if it has an instrument, its generators can be counted, its
      names fit their fields, its root keys are MIDI keys, its sample indices have sixteen bits, and no
      key range is given. */
  lemma RoundTrip(samples: seq<Sample>, instruments: seq<Instrument>)
    requires Fits(samples, instruments)
    ensures Parsed(Written(samples, instruments)) == Ok(File(samples, instruments)) <==>
      && instruments != [] && GensFit(instruments)
      && (forall i :: 0 <= i < |samples| ==> NameSurvives(samples[i].name, 20))
      && (forall i :: 0 <= i < |instruments| ==> InstrumentFits(instruments[i]))
  {
    hide Parsed, Written, Fits, NameSurvives, InstrumentFits, FileKept, GensFit;
    ReadBack(samples, instruments);
    KeptWhole(samples, instruments);
  }

  lemma KeptWhole(samples: seq<Sample>, instruments: seq<Instrument>)
    ensures FileKept(samples, instruments) == File(samples, instruments) <==>
      && (forall i :: 0 <= i < |samples| ==> NameSurvives(samples[i].name, 20))
      && (forall i :: 0 <= i < |instruments| ==> InstrumentFits(instruments[i]))
  {
    hide NameSurvives, InstrumentFits, SampleKept, InstrumentKept;
    var file := FileKept(samples, instruments);
    forall i | 0 <= i < |samples| ensures file.samples[i] == samples[i] <==> NameSurvives(samples[i].name, 20) {
      SampleSurvives(samples[i]);
    }
    forall i | 0 <= i < |instruments|
      ensures file.instruments[i] == instruments[i] <==> InstrumentFits(instruments[i])
    {
      InstrumentSurvives(instruments[i]);
    }
    assert file.samples == samples <==> forall i :: 0 <= i < |samples| ==> file.samples[i] == samples[i];
    assert file.instruments == instruments <==>
      forall i :: 0 <= i < |instruments| ==> file.instruments[i] == instruments[i];
  }

  lemma SampleSurvives(s: Sample)
    ensures SampleKept(s) == s <==> NameSurvives(s.name, 20)
  {
    hide CStr, NameSurvives;
    NameInverse(s.name, 20);
  }

  lemma InstrumentSurvives(i: Instrument)
    ensures InstrumentKept(i) == i <==> InstrumentFits(i)
  {
    hide CStr, NameSurvives;
    NameInverse(i.name, 20);
  }
}
