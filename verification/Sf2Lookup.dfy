/** What `reader.rs` finds in a file, by the positions of its bytes and chunks. */
module Sf2Lookup {
  import opened Words
  import opened Riff
  import opened Sf2
  import opened Sf2Reader
  import Sf2Writer

  // ----- Identifiers

  function Ascii(text: string): Bytes
    requires forall i :: 0 <= i < |text| ==> text[i] < 128 as char
  {
    seq(|text|, i requires 0 <= i < |text| => text[i] as int)
  }

  lemma Identifiers()
    ensures RIFF == Ascii("RIFF") && LIST == Ascii("LIST") && SFBK == Ascii("sfbk") && INFO == Ascii("INFO")
    ensures SDTA == Ascii("sdta") && SMPL == Ascii("smpl") && PDTA == Ascii("pdta") && PHDR == Ascii("phdr")
    ensures PBAG == Ascii("pbag") && PMOD == Ascii("pmod") && PGEN == Ascii("pgen") && INST == Ascii("inst")
    ensures IBAG == Ascii("ibag") && IMOD == Ascii("imod") && IGEN == Ascii("igen") && SHDR == Ascii("shdr")
  {
  }

  lemma WrittenNames()
    ensures Sf2Writer.IFIL == Ascii("ifil") && Sf2Writer.ISNG == Ascii("isng") && Sf2Writer.INAM == Ascii("INAM")
    ensures Sf2Writer.EMU8000 == Ascii("EMU8000") && Sf2Writer.SLOPGB_SF2 == Ascii("slopgb-sf2")
    ensures Sf2Writer.EOS == Ascii("EOS") && Sf2Writer.EOP == Ascii("EOP") && Sf2Writer.EOI == Ascii("EOI")
  {
  }

  // ----- Chunks

  /** The chunk found is the first with the id. */
  lemma {:induction false} FirstChunk(chunks: seq<Chunk>, id: FourCc)
    ensures FindChunk(chunks, id) == None <==> forall k :: 0 <= k < |chunks| ==> chunks[k].id != id
    ensures FindChunk(chunks, id).Some? ==>
      exists k :: 0 <= k < |chunks| && chunks[k].id == id && FindChunk(chunks, id) == Some(chunks[k].data) &&
        forall j :: 0 <= j < k ==> chunks[j].id != id
  {
    if chunks != [] && chunks[0].id != id {
      FirstChunk(chunks[1..], id);
      if FindChunk(chunks, id).Some? {
        var k :| 0 <= k < |chunks[1..]| && chunks[1..][k].id == id &&
          FindChunk(chunks[1..], id) == Some(chunks[1..][k].data) && forall j :: 0 <= j < k ==> chunks[1..][j].id != id;
        assert chunks[k + 1].id == id && forall j :: 0 < j < k + 1 ==> chunks[j] == chunks[1..][j - 1];
      }
    }
  }

  predicate IsListOf(c: Chunk, form: FourCc) {
    c.id == LIST && |c.data| >= 4 && c.data[..4] == form
  }

  /** The list found is the first of the form; its body begins behind the form. */
  lemma {:induction false} FirstList(chunks: seq<Chunk>, form: FourCc)
    ensures FindList(chunks, form) == None <==> forall k :: 0 <= k < |chunks| ==> !IsListOf(chunks[k], form)
    ensures FindList(chunks, form).Some? ==>
      exists k :: 0 <= k < |chunks| && IsListOf(chunks[k], form) &&
        FindList(chunks, form) == Some(chunks[k].data[4..]) &&
        forall j :: 0 <= j < k ==> !IsListOf(chunks[j], form)
  {
    if chunks != [] && !IsListOf(chunks[0], form) {
      FirstList(chunks[1..], form);
      if FindList(chunks, form).Some? {
        var k :| 0 <= k < |chunks[1..]| && IsListOf(chunks[1..][k], form) &&
          FindList(chunks[1..], form) == Some(chunks[1..][k].data[4..]) &&
          forall j :: 0 <= j < k ==> !IsListOf(chunks[1..][j], form);
        assert IsListOf(chunks[k + 1], form) && forall j :: 0 < j < k + 1 ==> chunks[j] == chunks[1..][j - 1];
      }
    }
  }

  // ----- Records

  /** Records lie one behind the other; bytes behind the last whole one are dropped. */
  lemma {:induction false} RecordsLie(b: Bytes, width: nat, i: nat)
    requires width == 46 || width == 22 || width == 4 || width == 2
    ensures |Split(b, width)| == |b| / width
    ensures i < |Split(b, width)| ==>
      width * i + width <= |b| && Split(b, width)[i] == b[width * i..width * i + width]
    decreases |b|
  {
    if |b| >= width {
      RecordsLie(b[width..], width, if i > 0 then i - 1 else 0);
      OneRecordMore(|b|, width);
      if 0 < i < |Split(b, width)| {
        assert b[width..][width * (i - 1)..width * (i - 1) + width] == b[width * i..width * i + width];
      }
    }
  }

  lemma AllRecordsLie(b: Bytes, width: nat)
    requires width == 46 || width == 22 || width == 4 || width == 2
    ensures |Split(b, width)| == |b| / width
    ensures forall i :: 0 <= i < |Split(b, width)| ==>
      width * i + width <= |b| && Split(b, width)[i] == b[width * i..width * i + width]
  {
    hide Split;
    RecordsLie(b, width, 0);
    forall i: nat | i < |Split(b, width)|
      ensures width * i + width <= |b| && Split(b, width)[i] == b[width * i..width * i + width]
    {
      RecordsLie(b, width, i);
    }
  }

  lemma OneRecordMore(n: nat, width: nat)
    requires (width == 46 || width == 22 || width == 4 || width == 2) && n >= width
    ensures n / width == (n - width) / width + 1
  {
  }

  function WordAt(b: Bytes, p: nat): int
    requires p + 2 <= |b|
  {
    b[p] + 0x100 * (b[p + 1] as int)
  }

  function LongAt(b: Bytes, p: nat): int
    requires p + 4 <= |b|
  {
    b[p] + 0x100 * (b[p + 1] as int) + 0x1_0000 * (b[p + 2] as int) + 0x100_0000 * (b[p + 3] as int)
  }

  /** A sample header: twenty bytes of name, five 32-bit numbers, the root key and a signed correction. */
  lemma HeaderFields(rec: Bytes)
    requires |rec| == 46
    ensures var correction: int := rec[41];
      ReadShdr(rec) == ShdrRec(
        CStr(rec[0..20]), LongAt(rec, 20), LongAt(rec, 24), LongAt(rec, 28), LongAt(rec, 32), LongAt(rec, 36), rec[40],
        if correction < 0x80 then correction else correction - 0x100)
  {
    hide CStr, U32, LongAt;
    LongField(rec, 20);
    LongField(rec, 24);
    LongField(rec, 28);
    LongField(rec, 32);
    LongField(rec, 36);
  }

  lemma LongField(b: Bytes, p: nat)
    requires p + 4 <= |b|
    ensures U32(b[p..p + 4]) == LongAt(b, p)
  {
  }

  lemma InstrumentFields(rec: Bytes)
    requires |rec| == 22
    ensures ReadInst(rec) == InstRec(CStr(rec[0..20]), WordAt(rec, 20))
  {
    hide CStr;
  }

  lemma GeneratorFields(rec: Bytes)
    requires |rec| == 4
    ensures ReadGen(rec) == Gen(WordAt(rec, 0), [rec[2], rec[3]]) && U16(rec[0..2]) == WordAt(rec, 0)
  {
  }

  /** A signed sample point. */
  lemma PointField(rec: Bytes)
    requires |rec| == 2
    ensures I16(rec) == if rec[1] < 0x80 then WordAt(rec, 0) else WordAt(rec, 0) - 0x1_0000
  {
  }

  // ----- Samples

  /** A sample's points are those from its start to its end or to the last point there is, none if it starts
      behind them; its loop points are counted from its start, and not below it. */
  lemma SampleByPoints(s: ShdrRec, points: seq<Int16>)
    ensures var r := SampleOf(s, points);
      && |r.pcm| == Max(Min(s.end, |points|) - s.start, 0)
      && (forall j :: 0 <= j < |r.pcm| ==> r.pcm[j] == points[s.start + j])
      && r.loopStart == (if s.startLoop < s.start then 0 else s.startLoop - s.start)
      && r.loopEnd == (if s.endLoop < s.start then 0 else s.endLoop - s.start)
      && r.name == s.name && r.rate == s.rate && r.pitch == s.pitch && r.correction == s.correction
  {
  }

  // ----- Tables

  /** The sizes the tables of a pdta list must have. */
  predicate SizesFit(shdr: Bytes, inst: Bytes, ibag: Bytes, igen: Bytes) {
    |shdr| % 46 == 0 && |shdr| >= 46 && |inst| % 22 == 0 && |inst| >= 44 && |ibag| % 4 == 0 && |igen| % 4 == 0
  }

  /** The records of tables that fit, cut by position. */
  ghost predicate AreTables(shdr: Bytes, inst: Bytes, ibag: Bytes, igen: Bytes, headers: seq<ShdrRec>,
      insts: seq<InstRec>, bags: seq<Word16>, gens: seq<Gen>)
  {
    && |shdr| == 46 * (|headers| + 1) && |inst| == 22 * |insts| && |ibag| == 4 * |bags| && |igen| == 4 * |gens|
    && (forall i :: 0 <= i < |headers| ==> headers[i] == ReadShdr(shdr[46 * i..46 * i + 46]))
    && (forall i :: 0 <= i < |insts| ==> insts[i] == ReadInst(inst[22 * i..22 * i + 22]))
    && (forall i :: 0 <= i < |bags| ==> bags[i] == WordAt(ibag, 4 * i))
    && (forall i :: 0 <= i < |gens| ==> gens[i] == ReadGen(igen[4 * i..4 * i + 4]))
  }

  lemma HeadersLie(shdr: Bytes)
    ensures ShdrsOf(shdr).Ok? <==> |shdr| % 46 == 0 && |shdr| >= 46
    ensures ShdrsOf(shdr).Ok? ==>
      var headers := ShdrsOf(shdr).value;
      |shdr| == 46 * (|headers| + 1) && forall i :: 0 <= i < |headers| ==>
        headers[i] == ReadShdr(shdr[46 * i..46 * i + 46])
  {
    hide ReadShdr, Split;
    AllRecordsLie(shdr, 46);
  }

  lemma InstrumentsLie(inst: Bytes)
    ensures InstsOf(inst).Ok? <==> |inst| % 22 == 0 && |inst| >= 44
    ensures InstsOf(inst).Ok? ==>
      var insts := InstsOf(inst).value;
      |inst| == 22 * |insts| && forall i :: 0 <= i < |insts| ==> insts[i] == ReadInst(inst[22 * i..22 * i + 22])
  {
    hide ReadInst, Split;
    AllRecordsLie(inst, 22);
  }

  lemma BagsLie(ibag: Bytes)
    ensures BagsOf(ibag).Ok? <==> |ibag| % 4 == 0
    ensures BagsOf(ibag).Ok? ==>
      var bags := BagsOf(ibag).value;
      |ibag| == 4 * |bags| && forall i :: 0 <= i < |bags| ==> bags[i] == WordAt(ibag, 4 * i)
  {
    hide Split;
    AllRecordsLie(ibag, 4);
  }

  lemma GeneratorsLie(igen: Bytes)
    ensures GensOf(igen).Ok? <==> |igen| % 4 == 0
    ensures GensOf(igen).Ok? ==>
      var gens := GensOf(igen).value;
      |igen| == 4 * |gens| && forall i :: 0 <= i < |gens| ==> gens[i] == ReadGen(igen[4 * i..4 * i + 4])
  {
    hide ReadGen, Split;
    AllRecordsLie(igen, 4);
  }

  /** The tables say a file if and only if their sizes fit and each instrument can be resolved; then there is a
      sample for each header and an instrument for each record, but for the last ones. */
  lemma TablesByPosition(points: seq<Int16>, pdta: seq<Chunk>, shdr: Bytes, inst: Bytes, ibag: Bytes, igen: Bytes,
      headers: seq<ShdrRec>, insts: seq<InstRec>, bags: seq<Word16>, gens: seq<Gen>)
    requires FindChunk(pdta, SHDR) == Some(shdr) && FindChunk(pdta, INST) == Some(inst)
    requires FindChunk(pdta, IBAG) == Some(ibag) && FindChunk(pdta, IGEN) == Some(igen)
    requires SizesFit(shdr, inst, ibag, igen)
    requires AreTables(shdr, inst, ibag, igen, headers, insts, bags, gens)
    ensures var r := Tables(points, pdta);
      && (r.Ok? <==> forall i: nat :: i + 1 < |insts| ==> Resolved(insts, bags, gens, i).Ok?)
      && (r.Ok? ==>
            && |r.value.samples| == |headers| && |r.value.instruments| == |insts| - 1
            && (forall i :: 0 <= i < |headers| ==> r.value.samples[i] == SampleOf(headers[i], points))
            && (forall i: nat :: i + 1 < |insts| ==> Resolved(insts, bags, gens, i) == Ok(r.value.instruments[i])))
  {
    hide FindChunk, ShdrsOf, InstsOf, BagsOf, GensOf, ReadShdr, ReadInst, ReadGen, Resolved, Instruments, SampleOf,
      WordAt;
    HeadersLie(shdr);
    InstrumentsLie(inst);
    BagsLie(ibag);
    GeneratorsLie(igen);
    assert ShdrsOf(shdr).value == headers && InstsOf(inst).value == insts;
    assert BagsOf(ibag).value == bags && GensOf(igen).value == gens;
  }

  /** A table that is missing or has another size is an error. */
  lemma MissingTable(points: seq<Int16>, pdta: seq<Chunk>)
    ensures Tables(points, pdta).Ok? ==>
      var shdr, inst := FindChunk(pdta, SHDR), FindChunk(pdta, INST);
      var ibag, igen := FindChunk(pdta, IBAG), FindChunk(pdta, IGEN);
      shdr.Some? && inst.Some? && ibag.Some? && igen.Some? &&
        SizesFit(shdr.value, inst.value, ibag.value, igen.value)
  {
    hide FindChunk, ReadShdr, ReadInst, ReadGen, Instruments, SampleOf, Split;
  }

  // ----- The file

  /** What is read begins with "RIFF", a length that does not pass its end, and "sfbk". */
  lemma FileBegins(bytes: Bytes)
    ensures Parsed(bytes).Ok? ==>
      |bytes| >= 12 && bytes[..4] == RIFF && bytes[8..12] == SFBK && 8 + LongAt(bytes, 4) <= |bytes|
  {
    hide ParsedLists, ParseAt, IsSplit;
    if Parsed(bytes).Ok? {
      var top := ParseAt(bytes, 0).value;
      FirstChunkLies(bytes, top);
      assert bytes[8..12] == bytes[8..8 + |top[0].data|][..4];
    }
  }

  lemma FirstChunkLies(bytes: Bytes, top: seq<Chunk>)
    requires ParseAt(bytes, 0) == Ok(top) && top != []
    ensures |bytes| >= 8 && 8 + |top[0].data| <= |bytes| && LongAt(bytes, 4) == |top[0].data|
    ensures bytes[0..4] == top[0].id && bytes[8..8 + |top[0].data|] == top[0].data
  {
    hide ParseAt;
    ParseIsSplit(bytes, top);
    assert LiesAt(bytes, Position(0, top, 0), top[0]);
  }

  /** A file without sample points has silent samples, and one without sample data or tables is an error. */
  lemma ListsNeeded(subs: seq<Chunk>)
    ensures ParsedLists(subs).Ok? ==> FindList(subs, SDTA).Some? && FindList(subs, PDTA).Some?
    ensures (ParsedLists(subs).Ok? && FindChunk(ParseAt(FindList(subs, SDTA).value, 0).value, SMPL) == None) ==>
      forall s :: s in ParsedLists(subs).value.samples ==> s.pcm == []
  {
    hide FindList, FindChunk, ParseAt, ShdrsOf, InstsOf, BagsOf, GensOf, Instruments;
  }
}
