/** The SoundFont parser: `reader.rs`. */
module Sf2Reader {
  import opened Words
  import opened Riff
  import opened Sf2

  datatype ShdrRec = ShdrRec(
    name: Bytes, start: Word32, end: Word32, startLoop: Word32, endLoop: Word32, rate: Word32, pitch: Byte,
      correction: Int8)

  datatype InstRec = InstRec(name: Bytes, bag: Word16)

  /** `as i8`. */
  function ToInt8(x: int): Int8 {
    (x + 0x80) % 0x100 - 0x80
  }

  // ----- Records

  function ReadShdr(rec: Bytes): ShdrRec
    requires |rec| == 46
  {
    ShdrRec(CStr(rec[0..20]), U32(rec[20..24]), U32(rec[24..28]), U32(rec[28..32]), U32(rec[32..36]), U32(rec[36..40]),
      rec[40], ToInt8(rec[41]))
  }

  function ReadInst(rec: Bytes): InstRec
    requires |rec| == 22
  {
    InstRec(CStr(rec[0..20]), U16(rec[20..22]))
  }

  function ReadGen(rec: Bytes): Gen
    requires |rec| == 4
  {
    Gen(U16(rec[0..2]), rec[2..4])
  }

  /** The sample headers but for the last record. */
  function ShdrsOf(data: Bytes): Result<seq<ShdrRec>> {
    if |data| % 46 != 0 || |data| < 46 then Err
    else
      var recs := Split(data, 46);
      Ok(seq(Max(|recs| - 1, 0), i requires 0 <= i < |recs| - 1 => ReadShdr(recs[i])))
  }

  method ParseShdr(data: Bytes) returns (r: Result<seq<ShdrRec>>)
    ensures r == ShdrsOf(data)
  {
    hide ReadShdr;
    if |data| % 46 != 0 || |data| < 46 {
      return Err;
    }
    var out: seq<ShdrRec> := [];
    var recs := Split(data, 46);
    for i := 0 to |recs|
      invariant |out| == i && forall k :: 0 <= k < i ==> out[k] == ReadShdr(recs[k])
    {
      out := out + [ReadShdr(recs[i])];
    }
    assert |recs| == 0 ==> out == [];
    out := if out == [] then [] else out[..|out| - 1];
    assert out == ShdrsOf(data).value;
    r := Ok(out);
  }

  /** All instrument records, the terminal one too. */
  function InstsOf(data: Bytes): Result<seq<InstRec>> {
    if |data| % 22 != 0 || |data| < 44 then Err
    else
      var recs := Split(data, 22);
      Ok(seq(|recs|, i requires 0 <= i < |recs| => ReadInst(recs[i])))
  }

  /** Where each zone's generators begin. */
  function BagsOf(data: Bytes): Result<seq<Word16>> {
    if |data| % 4 != 0 then Err
    else
      var recs := Split(data, 4);
      Ok(seq(|recs|, i requires 0 <= i < |recs| => U16(recs[i][0..2])))
  }

  function GensOf(data: Bytes): Result<seq<Gen>> {
    if |data| % 4 != 0 then Err
    else
      var recs := Split(data, 4);
      Ok(seq(|recs|, i requires 0 <= i < |recs| => ReadGen(recs[i])))
  }

  function FindChunk(chunks: seq<Chunk>, id: FourCc): Option<Bytes> {
    if chunks == [] then None
    else if chunks[0].id == id then Some(chunks[0].data)
    else FindChunk(chunks[1..], id)
  }

  /** The body of the first list of a form; a list too short for a form is passed over. */
  function FindList(chunks: seq<Chunk>, form: FourCc): Option<Bytes> {
    if chunks == [] then None
    else
      var fb := FormAndBody(chunks[0].data);
      if chunks[0].id == LIST && fb.Ok? && fb.value.0 == form then Some(fb.value.1)
      else FindList(chunks[1..], form)
  }

  // ----- Samples

  function PointsOf(smpl: Bytes): seq<Int16> {
    var recs := Split(smpl, 2);
    seq(|recs|, i requires 0 <= i < |recs| => I16(recs[i]))
  }

  function SampleOf(s: ShdrRec, points: seq<Int16>): Sample {
    var end := Min(s.end, |points|);
    Sample(s.name, if s.start <= end then points[s.start..end] else [], Max(s.startLoop - s.start, 0),
      Max(s.endLoop - s.start, 0), s.rate, s.pitch, s.correction)
  }

  // ----- Zones

  type GenMap = map<Word16, Amount>

  /** A zone's generators over those inherited: the last of one operator wins. */
  function Inserted(m: GenMap, gens: seq<Gen>): GenMap {
    if gens == [] then m
    else
      var g := gens[|gens| - 1];
      Inserted(m, gens[..|gens| - 1])[g.oper := g.amount]
  }

  method InsertAll(base: GenMap, gens: seq<Gen>) returns (m: GenMap)
    ensures m == Inserted(base, gens)
  {
    m := base;
    for i := 0 to |gens|
      invariant m == Inserted(base, gens[..i])
    {
      assert gens[..i + 1][..i] == gens[..i];
      m := m[gens[i].oper := gens[i].amount];
    }
    assert gens[..|gens|] == gens;
  }

  predicate HasSampleId(zone: seq<Gen>) {
    zone != [] && zone[|zone| - 1].oper == GEN_SAMPLE_ID
  }

  /** The generators of zone `z`, unless its bag records are malformed. */
  function ZoneGens(ibag: seq<Word16>, igen: seq<Gen>, z: nat): Option<seq<Gen>>
    requires z < |ibag|
  {
    var start := ibag[z];
    var end := if z + 1 < |ibag| then ibag[z + 1] else start;
    if end > |igen| || start > end then None else Some(igen[start..end])
  }

  /** The generators of the first sample zone at or behind z, over the global zone's. */
  function SampleZone(ibag: seq<Word16>, igen: seq<Gen>, first: nat, end: nat, z: nat, global: GenMap): Option<GenMap>
    requires first <= z <= end <= |ibag|
    decreases end - z
  {
    if z == end then None
    else
      match ZoneGens(ibag, igen, z)
      case None => SampleZone(ibag, igen, first, end, z + 1, global)
      case Some(gens) =>
        if z == first && !HasSampleId(gens) && end - first > 1 then
          SampleZone(ibag, igen, first, end, z + 1, Inserted(global, gens))
        else if HasSampleId(gens) then Some(Inserted(global, gens))
        else SampleZone(ibag, igen, first, end, z + 1, global)
  }

  method FindSampleZone(ibag: seq<Word16>, igen: seq<Gen>, first: nat, end: nat) returns (r: Option<GenMap>)
    requires first <= end <= |ibag|
    ensures r == SampleZone(ibag, igen, first, end, first, map[])
  {
    hide ZoneGens, Inserted;
    var global: GenMap := map[];
    r := None;
    for z := first to end
      invariant r == None
      invariant SampleZone(ibag, igen, first, end, z, global) == SampleZone(ibag, igen, first, end, first, map[])
    {
      var zone := ZoneGens(ibag, igen, z);
      if zone.Some? {
        var gens := zone.value;
        if z == first && !HasSampleId(gens) && end - first > 1 {
          global := InsertAll(global, gens);
        } else if HasSampleId(gens) {
          var m := InsertAll(global, gens);
          return Some(m);
        }
      }
    }
  }

  function GenI16(gens: GenMap, id: Word16, default: Int16): Int16 {
    if id in gens then I16(gens[id]) else default
  }

  function GenU16(gens: GenMap, id: Word16, default: Word16): Word16 {
    if id in gens then U16(gens[id]) else default
  }

  function InstrumentOf(name: Bytes, gens: GenMap): Instrument {
    var modes := GenU16(gens, GEN_SAMPLE_MODES, 0);
    var root := GenI16(gens, GEN_OVERRIDING_ROOT_KEY, -1);
    Instrument(
      name, GenU16(gens, GEN_SAMPLE_ID, 0), modes == 1 || modes == 3,
      if 0 <= root <= 127 then Some(root) else None,
      ToInt8(GenI16(gens, GEN_COARSE_TUNE, 0)), ToInt8(GenI16(gens, GEN_FINE_TUNE, 0)),
      GenI16(gens, GEN_INITIAL_ATTENUATION, 0),
      VolEnv(
        GenI16(gens, GEN_DELAY_VOL_ENV, -12000), GenI16(gens, GEN_ATTACK_VOL_ENV, -12000),
        GenI16(gens, GEN_HOLD_VOL_ENV, -12000), GenI16(gens, GEN_DECAY_VOL_ENV, -12000),
        GenI16(gens, GEN_SUSTAIN_VOL_ENV, 0), GenI16(gens, GEN_RELEASE_VOL_ENV, -12000)),
      if GEN_KEY_RANGE in gens then Some((gens[GEN_KEY_RANGE][0], gens[GEN_KEY_RANGE][1])) else None)
  }

  /** Instrument i: its zones are those from its own bag index to the next record's. */
  function Resolved(inst: seq<InstRec>, ibag: seq<Word16>, igen: seq<Gen>, i: nat): Result<Instrument>
    requires i + 1 < |inst|
  {
    var first, end := inst[i].bag, inst[i + 1].bag;
    if end <= first || end > |ibag| then Err
    else
      var gens :- SampleZone(ibag, igen, first, end, first, map[]).OrErr();
      Ok(InstrumentOf(inst[i].name, gens))
  }

  /** The first n instruments. */
  function Instruments(inst: seq<InstRec>, ibag: seq<Word16>, igen: seq<Gen>, n: nat): (r: Result<seq<Instrument>>)
    requires n == 0 || n < |inst|
    ensures r.Ok? ==> |r.value| == n
    ensures r.Ok? <==> forall i: nat :: i < n ==> Resolved(inst, ibag, igen, i).Ok?
    ensures r.Ok? ==> forall i: nat :: i < n ==> Resolved(inst, ibag, igen, i) == Ok(r.value[i])
  {
    hide Resolved;
    if n == 0 then Ok([])
    else
      var before :- Instruments(inst, ibag, igen, n - 1);
      var last :- Resolved(inst, ibag, igen, n - 1);
      Ok(before + [last])
  }

  method ParseInstruments(inst: seq<InstRec>, ibag: seq<Word16>, igen: seq<Gen>) returns (r: Result<seq<Instrument>>)
    ensures r == Instruments(inst, ibag, igen, Max(|inst| - 1, 0))
  {
    hide SampleZone, InstrumentOf;
    var n := Max(|inst| - 1, 0);
    var out: seq<Instrument> := [];
    for i := 0 to n
      invariant Instruments(inst, ibag, igen, i) == Ok(out)
    {
      var first, end := inst[i].bag, inst[i + 1].bag;
      if end <= first || end > |ibag| {
        assert Resolved(inst, ibag, igen, i) == Err;
        return Err;
      }
      var gens := FindSampleZone(ibag, igen, first, end);
      if gens == None {
        assert Resolved(inst, ibag, igen, i) == Err;
        return Err;
      }
      out := out + [InstrumentOf(inst[i].name, gens.value)];
    }
    r := Ok(out);
  }

  // ----- The file

  /** What the tables of a pdta list say, over the sample points. */
  function Tables(points: seq<Int16>, pdta: seq<Chunk>): Result<File> {
    var shdrData :- FindChunk(pdta, SHDR).OrErr();
    var shdr :- ShdrsOf(shdrData);
    var instData :- FindChunk(pdta, INST).OrErr();
    var inst :- InstsOf(instData);
    var ibagData :- FindChunk(pdta, IBAG).OrErr();
    var ibag :- BagsOf(ibagData);
    var igenData :- FindChunk(pdta, IGEN).OrErr();
    var igen :- GensOf(igenData);
    var instruments :- Instruments(inst, ibag, igen, Max(|inst| - 1, 0));
    Ok(File(seq(|shdr|, i requires 0 <= i < |shdr| => SampleOf(shdr[i], points)), instruments))
  }

  /** What the lists of a file say. */
  function ParsedLists(subs: seq<Chunk>): Result<File> {
    var sdta :- FindList(subs, SDTA).OrErr();
    var sdtaSubs :- ParseAt(sdta, 0);
    var smpl := FindChunk(sdtaSubs, SMPL);
    var pdta :- FindList(subs, PDTA).OrErr();
    var pdtaSubs :- ParseAt(pdta, 0);
    Tables(PointsOf(if smpl.Some? then smpl.value else []), pdtaSubs)
  }

  /** What a file says. */
  function Parsed(bytes: Bytes): Result<File> {
    var top :- ParseAt(bytes, 0);
    if top == [] || top[0].id != RIFF then Err
    else
      var fb :- FormAndBody(top[0].data);
      if fb.0 != SFBK then Err
      else
        var subs :- ParseAt(fb.1, 0);
        ParsedLists(subs)
  }

  method ParseTables(points: seq<Int16>, pdta: seq<Chunk>) returns (r: Result<File>)
    ensures r == Tables(points, pdta)
  {
    hide ShdrsOf, InstsOf, BagsOf, GensOf, Instruments, FindChunk, SampleOf;
    var shdrData := FindChunk(pdta, SHDR);
    if shdrData == None {
      return Err;
    }
    var shdr := ParseShdr(shdrData.value);
    if shdr == Err {
      return Err;
    }
    var instData :- FindChunk(pdta, INST).OrErr();
    var inst :- InstsOf(instData);
    var ibagData :- FindChunk(pdta, IBAG).OrErr();
    var ibag :- BagsOf(ibagData);
    var igenData :- FindChunk(pdta, IGEN).OrErr();
    var igen :- GensOf(igenData);
    var samples := seq(|shdr.value|, i requires 0 <= i < |shdr.value| => SampleOf(shdr.value[i], points));
    var instruments := ParseInstruments(inst, ibag, igen);
    if instruments == Err {
      return Err;
    }
    r := Ok(File(samples, instruments.value));
  }

  method Parse(bytes: Bytes) returns (r: Result<File>)
    ensures r == Parsed(bytes)
  {
    hide ParseAt, Tables, PointsOf, FindChunk, FindList;
    var top: Result<seq<Chunk>>, subs: Result<seq<Chunk>>, sdtaSubs: Result<seq<Chunk>>, pdtaSubs: Result<seq<Chunk>>;
    top := ParseChunks(bytes);
    if top == Err || top.value == [] || top.value[0].id != RIFF {
      return Err;
    }
    var fb :- FormAndBody(top.value[0].data);
    if fb.0 != SFBK {
      return Err;
    }
    subs := ParseChunks(fb.1);
    if subs == Err {
      return Err;
    }
    var sdta :- FindList(subs.value, SDTA).OrErr();
    sdtaSubs := ParseChunks(sdta);
    if sdtaSubs == Err {
      return Err;
    }
    var smpl := FindChunk(sdtaSubs.value, SMPL);
    var pdta :- FindList(subs.value, PDTA).OrErr();
    pdtaSubs := ParseChunks(pdta);
    if pdtaSubs == Err {
      return Err;
    }
    r := ParseTables(PointsOf(if smpl.Some? then smpl.value else []), pdtaSubs.value);
  }
}
