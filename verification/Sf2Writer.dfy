/** The SoundFont printer: `writer.rs`. */
module Sf2Writer {
  import opened Words
  import opened Riff
  import opened Sf2

  const EOS: Bytes := [0x45, 0x4F, 0x53]
  const EOP: Bytes := [0x45, 0x4F, 0x50]
  const EOI: Bytes := [0x45, 0x4F, 0x49]
  const IFIL: FourCc := [0x69, 0x66, 0x69, 0x6C]
  const ISNG: FourCc := [0x69, 0x73, 0x6E, 0x67]
  const INAM: FourCc := [0x49, 0x4E, 0x41, 0x4D]
  const EMU8000: Bytes := [0x45, 0x4D, 0x55, 0x38, 0x30, 0x30, 0x30]
  const SLOPGB_SF2: Bytes := [0x73, 0x6C, 0x6F, 0x70, 0x67, 0x62, 0x2D, 0x73, 0x66, 0x32]

  /** A string with one or two terminators, whichever makes its length even. */
  function ZstrEven(s: Bytes): (z: Bytes)
    ensures |z| % 2 == 0 && s + [0] <= z
  {
    var v := s + [0];
    if |v| % 2 != 0 then v + [0] else v
  }

  function InfoBody(): Bytes {
    WriteChunk(IFIL, [2, 0, 1, 0]) + WriteChunk(ISNG, ZstrEven(EMU8000)) + WriteChunk(INAM, ZstrEven(SLOPGB_SF2))
  }

  function Info(): Bytes {
    WriteList(INFO, InfoBody())
  }

  // ----- Sample points

  const GAP := 46

  /** All sample points of the first n samples, each followed by the gap of silence. */
  function Points(samples: seq<Sample>, n: nat): seq<Int16>
    requires n <= |samples|
  {
    if n == 0 then [] else Points(samples, n - 1) + samples[n - 1].pcm + Zeros(GAP)
  }

  function PointRecs(points: seq<Int16>): (recs: seq<Bytes>)
    ensures |recs| == |points| && AreRecords(recs, 2)
  {
    seq(|points|, i requires 0 <= i < |points| => Le16(points[i]))
  }

  function Smpl(samples: seq<Sample>, n: nat): Bytes
    requires n <= |samples|
  {
    Flat(PointRecs(Points(samples, n)))
  }

  /** Where a sample lies among all sample points. */
  datatype Span = Span(start: nat, end: nat, loopStart: nat, loopEnd: nat)

  function SpanOf(samples: seq<Sample>, i: nat): Span
    requires i < |samples|
  {
    var start, s := |Points(samples, i)|, samples[i];
    Span(start, start + |s.pcm|, start + s.loopStart, start + s.loopEnd)
  }

  lemma PointRecsAppend(a: seq<Int16>, b: seq<Int16>)
    ensures Flat(PointRecs(a + b)) == Flat(PointRecs(a)) + Flat(PointRecs(b))
  {
    FlatAppend(PointRecs(a), PointRecs(b));
    assert PointRecs(a + b) == PointRecs(a) + PointRecs(b);
  }

  lemma PointRecsOne(v: Int16)
    ensures Flat(PointRecs([v])) == Le16(v)
  {
    FlatOne(Le16(v));
    assert PointRecs([v]) == [Le16(v)];
  }

  lemma {:induction false} SilentPoints(n: nat)
    ensures Flat(PointRecs(Zeros(n))) == Zeros(2 * n)
  {
    if n > 0 {
      SilentPoints(n - 1);
      PointRecsAppend(Zeros(n - 1), [0]);
      PointRecsOne(0);
      assert Zeros(n) == Zeros(n - 1) + [0];
      assert Zeros(2 * n) == Zeros(2 * (n - 1)) + [0, 0];
    }
  }

  lemma PointCount(points: seq<Int16>)
    ensures |Flat(PointRecs(points))| == 2 * |points|
  {
    FlatLength(PointRecs(points), 2);
  }

  method AppendPcm(smpl: Bytes, pcm: seq<Int16>) returns (r: Bytes)
    ensures r == smpl + Flat(PointRecs(pcm))
  {
    hide Flat;
    r := smpl;
    assert Flat(PointRecs([])) == [] by { PointCount([]); }
    for i := 0 to |pcm|
      invariant r == smpl + Flat(PointRecs(pcm[..i]))
    {
      PointRecsAppend(pcm[..i], [pcm[i]]);
      PointRecsOne(pcm[i]);
      assert pcm[..i + 1] == pcm[..i] + [pcm[i]];
      r := r + Le16(pcm[i]);
    }
    assert pcm[..|pcm|] == pcm;
  }

  method BuildSdta(samples: seq<Sample>) returns (sdta: Bytes, spans: seq<Span>)
    ensures sdta == Sdta(samples)
    ensures |spans| == |samples| && forall i :: 0 <= i < |spans| ==> spans[i] == SpanOf(samples, i)
  {
    hide Flat, PointRecs;
    var smpl;
    smpl, spans := [], [];
    PointCount([]);
    for k := 0 to |samples|
      invariant smpl == Smpl(samples, k)
      invariant |spans| == k && forall i :: 0 <= i < k ==> spans[i] == SpanOf(samples, i)
    {
      var s, before := samples[k], Points(samples, k);
      PointCount(before);
      var start := |smpl| / 2;
      smpl := AppendPcm(smpl, s.pcm);
      PointRecsAppend(before, s.pcm);
      PointCount(before + s.pcm);
      var end := |smpl| / 2;
      smpl := smpl + Zeros(46 * 2);
      SilentPoints(GAP);
      PointRecsAppend(before + s.pcm, Zeros(GAP));
      spans := spans + [Span(start, end, start + s.loopStart, start + s.loopEnd)];
    }
    sdta := WriteList(SDTA, WriteChunk(SMPL, smpl));
  }

  function Sdta(samples: seq<Sample>): Bytes {
    WriteList(SDTA, WriteChunk(SMPL, Smpl(samples, |samples|)))
  }

  // ----- Headers

  function ShdrRecord(s: Sample, span: Span): (r: Bytes)
    ensures |r| == 46
  {
    FixedStr(s.name, 20) + Le32(span.start) + Le32(span.end) + Le32(span.loopStart) + Le32(span.loopEnd)
    + Le32(s.rate) + [s.pitch, s.correction % 0x100] + Le16(0) + Le16(1)
  }

  function ShdrOf(samples: seq<Sample>, i: nat): (r: Bytes)
    requires i < |samples|
    ensures |r| == 46
  {
    ShdrRecord(samples[i], SpanOf(samples, i))
  }

  function ShdrRecs(samples: seq<Sample>, n: nat): (recs: seq<Bytes>)
    requires n <= |samples|
    ensures |recs| == n && AreRecords(recs, 46)
    ensures forall i :: 0 <= i < n ==> recs[i] == ShdrOf(samples, i)
  {
    hide ShdrOf;
    if n == 0 then [] else ShdrRecs(samples, n - 1) + [ShdrOf(samples, n - 1)]
  }

  function Shdr(samples: seq<Sample>): Bytes {
    Flat(ShdrRecs(samples, |samples|) + [FixedStr(EOS, 20) + Zeros(26)])
  }

  lemma FlatSnoc(recs: seq<Bytes>, rec: Bytes)
    ensures Flat(recs + [rec]) == Flat(recs) + rec
  {
    FlatAppend(recs, [rec]);
    FlatOne(rec);
  }

  method BuildShdr(samples: seq<Sample>, spans: seq<Span>) returns (r: Bytes)
    requires |spans| == |samples| && forall i :: 0 <= i < |spans| ==> spans[i] == SpanOf(samples, i)
    ensures r == WriteChunk(SHDR, Shdr(samples))
  {
    hide SpanOf, ShdrRecord, WriteChunk;
    var body: Bytes := [];
    for k := 0 to |samples|
      invariant body == Flat(ShdrRecs(samples, k))
    {
      FlatSnoc(ShdrRecs(samples, k), ShdrOf(samples, k));
      body := body + ShdrRecord(samples[k], spans[k]);
    }
    FlatSnoc(ShdrRecs(samples, |samples|), FixedStr(EOS, 20) + Zeros(26));
    r := WriteChunk(SHDR, body + (FixedStr(EOS, 20) + Zeros(26)));
  }

  // ----- Generators

  function GenRecord(oper: Word16, amount: int): Gen {
    Gen(oper, Le16(amount))
  }

  function GenBytes(g: Gen): (b: Bytes)
    ensures |b| == 4
  {
    Le16(g.oper) + g.amount
  }

  /** An instrument's one zone, the sample index last. */
  function InstrumentGens(inst: Instrument): (gens: seq<Gen>)
    ensures |gens| == if inst.rootKey.Some? then 12 else 11
  {
    [ GenRecord(GEN_COARSE_TUNE, inst.coarse),
      GenRecord(GEN_FINE_TUNE, inst.fine),
      GenRecord(GEN_INITIAL_ATTENUATION, inst.attenuation),
      GenRecord(GEN_DELAY_VOL_ENV, inst.env.delay),
      GenRecord(GEN_ATTACK_VOL_ENV, inst.env.attack),
      GenRecord(GEN_HOLD_VOL_ENV, inst.env.hold),
      GenRecord(GEN_DECAY_VOL_ENV, inst.env.decay),
      GenRecord(GEN_SUSTAIN_VOL_ENV, inst.env.sustain),
      GenRecord(GEN_RELEASE_VOL_ENV, inst.env.release),
      GenRecord(GEN_SAMPLE_MODES, if inst.loops then 1 else 0) ]
    + (if inst.rootKey.Some? then [GenRecord(GEN_OVERRIDING_ROOT_KEY, inst.rootKey.value)] else [])
    + [GenRecord(GEN_SAMPLE_ID, inst.sampleIndex)]
  }

  function GenRecs(gens: seq<Gen>): (recs: seq<Bytes>)
    ensures |recs| == |gens| && AreRecords(recs, 4)
  {
    seq(|gens|, i requires 0 <= i < |gens| => GenBytes(gens[i]))
  }

  /** The generators of the first n instruments. */
  function Gens(instruments: seq<Instrument>, n: nat): (gens: seq<Gen>)
    requires n <= |instruments|
  {
    if n == 0 then [] else Gens(instruments, n - 1) + InstrumentGens(instruments[n - 1])
  }

  // ----- Index records

  function Bag(gen: nat): (b: Bytes)
    ensures |b| == 4
  {
    Le16(gen) + Le16(0)
  }

  function IbagRecs(instruments: seq<Instrument>, n: nat): (recs: seq<Bytes>)
    requires n <= |instruments|
    ensures |recs| == n && AreRecords(recs, 4)
    ensures forall i :: 0 <= i < n ==> recs[i] == Bag(|Gens(instruments, i)|)
  {
    hide Gens, Bag;
    if n == 0 then [] else IbagRecs(instruments, n - 1) + [Bag(|Gens(instruments, n - 1)|)]
  }

  function InstRecord(name: Bytes, bag: nat): (r: Bytes)
    ensures |r| == 22
  {
    FixedStr(name, 20) + Le16(bag)
  }

  function InstRecs(instruments: seq<Instrument>, n: nat): (recs: seq<Bytes>)
    requires n <= |instruments|
    ensures |recs| == n && AreRecords(recs, 22)
    ensures forall i :: 0 <= i < n ==> recs[i] == InstRecord(instruments[i].name, i)
  {
    hide InstRecord;
    if n == 0 then [] else InstRecs(instruments, n - 1) + [InstRecord(instruments[n - 1].name, n - 1)]
  }

  function PhdrRecord(name: Bytes, preset: nat, bag: nat): Bytes {
    FixedStr(name, 20) + Le16(preset) + Le16(0) + Le16(bag) + Zeros(12)
  }

  function PhdrRecs(instruments: seq<Instrument>, n: nat): seq<Bytes>
    requires n <= |instruments|
  {
    if n == 0 then [] else PhdrRecs(instruments, n - 1) + [PhdrRecord(instruments[n - 1].name, n - 1, n - 1)]
  }

  function PbagRecs(n: nat): seq<Bytes> {
    if n == 0 then [] else PbagRecs(n - 1) + [Bag(n - 1)]
  }

  function PgenRecs(n: nat): seq<Bytes> {
    if n == 0 then [] else PgenRecs(n - 1) + [Le16(GEN_INSTRUMENT) + Le16(n - 1)]
  }

  function Phdr(instruments: seq<Instrument>): Bytes {
    var n := |instruments|;
    Flat(PhdrRecs(instruments, n) + [PhdrRecord(EOP, 0, n)])
  }

  function Inst(instruments: seq<Instrument>): Bytes {
    var n := |instruments|;
    Flat(InstRecs(instruments, n) + [InstRecord(EOI, n)])
  }

  function Ibag(instruments: seq<Instrument>): Bytes {
    var n := |instruments|;
    Flat(IbagRecs(instruments, n) + [Bag(|Gens(instruments, n)|)])
  }

  const TERMINAL := Gen(0, [0, 0])

  function Igen(instruments: seq<Instrument>): Bytes {
    Flat(GenRecs(Gens(instruments, |instruments|) + [TERMINAL]))
  }

  /** The chunks of the pdta list, in their order. */
  function PdtaChunks(samples: seq<Sample>, instruments: seq<Instrument>): seq<Chunk> {
    var n := |instruments|;
    [ Chunk(PHDR, Phdr(instruments)),
      Chunk(PBAG, Flat(PbagRecs(n) + [Bag(n)])),
      Chunk(PMOD, Zeros(10)),
      Chunk(PGEN, Flat(PgenRecs(n) + [Zeros(4)])),
      Chunk(INST, Inst(instruments)),
      Chunk(IBAG, Ibag(instruments)),
      Chunk(IMOD, Zeros(10)),
      Chunk(IGEN, Igen(instruments)),
      Chunk(SHDR, Shdr(samples)) ]
  }

  function Pdta(samples: seq<Sample>, instruments: seq<Instrument>): Bytes {
    WriteList(PDTA, WriteAll(PdtaChunks(samples, instruments)))
  }

  function Body(samples: seq<Sample>, instruments: seq<Instrument>): Bytes {
    SFBK + Info() + Sdta(samples) + Pdta(samples, instruments)
  }

  /** The whole file. */
  function Written(samples: seq<Sample>, instruments: seq<Instrument>): Bytes {
    WriteChunk(RIFF, Body(samples, instruments))
  }

  // ----- The builders' loops

  method BuildPresets(instruments: seq<Instrument>) returns (phdr: Bytes, pbag: Bytes, pgen: Bytes)
    ensures phdr == Phdr(instruments)
    ensures pbag == Flat(PbagRecs(|instruments|) + [Bag(|instruments|)])
    ensures pgen == Flat(PgenRecs(|instruments|) + [Zeros(4)])
  {
    hide PhdrRecord, Bag, Zeros, Le16;
    var n := |instruments|;
    phdr, pbag, pgen := [], [], [];
    for i := 0 to n
      invariant phdr == Flat(PhdrRecs(instruments, i))
    {
      FlatSnoc(PhdrRecs(instruments, i), PhdrRecord(instruments[i].name, i, i));
      phdr := phdr + PhdrRecord(instruments[i].name, i, i);
    }
    FlatSnoc(PhdrRecs(instruments, n), PhdrRecord(EOP, 0, n));
    phdr := phdr + PhdrRecord(EOP, 0, n);
    for i := 0 to n
      invariant pbag == Flat(PbagRecs(i))
    {
      FlatSnoc(PbagRecs(i), Bag(i));
      pbag := pbag + Bag(i);
    }
    FlatSnoc(PbagRecs(n), Bag(n));
    pbag := pbag + Bag(n);
    for i := 0 to n
      invariant pgen == Flat(PgenRecs(i))
    {
      FlatSnoc(PgenRecs(i), Le16(GEN_INSTRUMENT) + Le16(i));
      pgen := pgen + (Le16(GEN_INSTRUMENT) + Le16(i));
    }
    FlatSnoc(PgenRecs(n), Zeros(4));
    pgen := pgen + Zeros(4);
  }

  method BuildInst(instruments: seq<Instrument>) returns (inst: Bytes)
    ensures inst == Inst(instruments)
  {
    hide InstRecord;
    inst := [];
    for i := 0 to |instruments|
      invariant inst == Flat(InstRecs(instruments, i))
    {
      FlatSnoc(InstRecs(instruments, i), InstRecord(instruments[i].name, i));
      inst := inst + InstRecord(instruments[i].name, i);
    }
    FlatSnoc(InstRecs(instruments, |instruments|), InstRecord(EOI, |instruments|));
    inst := inst + InstRecord(EOI, |instruments|);
  }

  lemma GenRecsAppend(a: seq<Gen>, b: seq<Gen>)
    ensures Flat(GenRecs(a + b)) == Flat(GenRecs(a)) + Flat(GenRecs(b))
  {
    hide GenBytes;
    FlatAppend(GenRecs(a), GenRecs(b));
    assert GenRecs(a + b) == GenRecs(a) + GenRecs(b);
  }

  lemma GenCount(gens: seq<Gen>)
    ensures |Flat(GenRecs(gens))| == 4 * |gens|
  {
    FlatLength(GenRecs(gens), 4);
  }

  /** Every instrument's generators go behind all earlier ones, and its bag record says where. */
  method BuildZones(instruments: seq<Instrument>) returns (ibag: Bytes, igen: Bytes)
    ensures ibag == Ibag(instruments) && igen == Igen(instruments)
  {
    hide Flat, GenRecs, InstrumentGens, Bag;
    var n := |instruments|;
    ibag, igen := [], [];
    GenCount([]);
    FlatLength([], 4);
    for i := 0 to n
      invariant ibag == Flat(IbagRecs(instruments, i))
      invariant igen == Flat(GenRecs(Gens(instruments, i)))
    {
      GenCount(Gens(instruments, i));
      FlatSnoc(IbagRecs(instruments, i), Bag(|igen| / 4));
      ibag := ibag + Bag(|igen| / 4);
      GenRecsAppend(Gens(instruments, i), InstrumentGens(instruments[i]));
      igen := igen + Flat(GenRecs(InstrumentGens(instruments[i])));
    }
    GenCount(Gens(instruments, n));
    FlatSnoc(IbagRecs(instruments, n), Bag(|igen| / 4));
    ibag := ibag + Bag(|igen| / 4);
    GenRecsAppend(Gens(instruments, n), [TERMINAL]);
    TerminalBytes();
    igen := igen + Zeros(4);
  }

  lemma TerminalBytes()
    ensures Flat(GenRecs([TERMINAL])) == Zeros(4)
  {
    assert Le16(0) == [0, 0] && GenBytes(TERMINAL) == [0, 0, 0, 0] == Zeros(4);
    assert GenRecs([TERMINAL]) == [GenBytes(TERMINAL)];
    FlatOne(Zeros(4));
  }

  lemma Grown(chunks: seq<Chunk>, n: nat)
    requires n < |chunks|
    ensures WriteAll(chunks[..n + 1]) == WriteAll(chunks[..n]) + WriteChunk(chunks[n].id, chunks[n].data)
  {
    hide WriteChunk;
    assert chunks[..n + 1] == chunks[..n] + [chunks[n]];
    WriteAllAppend(chunks[..n], [chunks[n]]);
    WriteOne(chunks[n]);
  }

  method BuildPdta(samples: seq<Sample>, instruments: seq<Instrument>, spans: seq<Span>) returns (pdta: Bytes)
    requires |spans| == |samples| && forall i :: 0 <= i < |spans| ==> spans[i] == SpanOf(samples, i)
    ensures pdta == Pdta(samples, instruments)
  {
    hide WriteChunk, WriteList, Shdr, Phdr, Inst, Ibag, Igen, WriteAll, SpanOf;
    var phdr, pbag, pgen := BuildPresets(instruments);
    var inst := BuildInst(instruments);
    var ibag, igen := BuildZones(instruments);
    var shdr := BuildShdr(samples, spans);
    ghost var all := PdtaChunks(samples, instruments);
    var body := WriteChunk(PHDR, phdr);
    WriteOne(all[0]);
    assert all[..1] == [all[0]];
    body := body + WriteChunk(PBAG, pbag);
    Grown(all, 1);
    body := body + WriteChunk(PMOD, Zeros(10));
    Grown(all, 2);
    body := body + WriteChunk(PGEN, pgen);
    Grown(all, 3);
    body := body + WriteChunk(INST, inst);
    Grown(all, 4);
    body := body + WriteChunk(IBAG, ibag);
    Grown(all, 5);
    body := body + WriteChunk(IMOD, Zeros(10));
    Grown(all, 6);
    body := body + WriteChunk(IGEN, igen);
    Grown(all, 7);
    body := body + shdr;
    Grown(all, 8);
    assert all[..9] == all;
    pdta := WriteList(PDTA, body);
  }

  method Write(samples: seq<Sample>, instruments: seq<Instrument>) returns (file: Bytes)
    ensures file == Written(samples, instruments)
  {
    hide WriteChunk, Sdta, Pdta, Info;
    var sdta, spans := BuildSdta(samples);
    var pdta := BuildPdta(samples, instruments, spans);
    file := WriteChunk(RIFF, SFBK + Info() + sdta + pdta);
  }
}
