/** A bank exported to a SoundFont and imported again: `export_sf2` and `import_sf2` of `mapping.rs`, end
    to end through the file format and the codec. */
module BankRoundTrip {
  import opened Words
  import opened Riff
  import opened Sf2
  import opened BankExport
  import opened Utf8
  import Brr
  import BrrLossless
  import Mapping
  import Sf2Reader
  import Sf2RoundTrip
  import Sf2Size
  import Sf2Writer

  // ----- An exported bank fits its file

  lemma {:induction false} DistinctAreFew(s: seq<int>, n: nat)
    requires forall i :: 0 <= i < |s| ==> 0 <= s[i] < n
    requires forall i, j :: 0 <= i < j < |s| ==> s[i] != s[j]
    ensures |s| <= n
    decreases n
  {
    assert s == [] || 0 <= s[0] < n;
    if n > 0 {
      if k :| 0 <= k < |s| && s[k] == n - 1 {
        DistinctAreFew(s[..k] + s[k + 1..], n - 1);
      } else {
        DistinctAreFew(s, n - 1);
      }
    }
  }

  /** No more samples than there are sample numbers. */
  lemma SamplesAreFew(bank: Bank, samples: seq<Sample>, owners: seq<Byte>)
    requires bank.Valid() && AreSamples(bank, samples, owners)
    ensures |samples| <= 256
  {
    hide Bank.Addresses, Bank.EntryFits, SampleOf, Brr.Decodes;
    forall i, j | 0 <= i < j < |owners| ensures owners[i] != owners[j] {
      assert IsSampleOf(bank, owners[i], samples[i]) && IsSampleOf(bank, owners[j], samples[j]);
      assert bank.Addresses(owners[i]) != bank.Addresses(owners[j]);
    }
    DistinctAreFew(owners, 256);
  }

  const LONGEST := 16 * 7281

  lemma SampleIsSmall(bank: Bank, samples: seq<Sample>, owners: seq<Byte>, j: nat)
    requires bank.Valid() && AreSamples(bank, samples, owners) && j < |samples|
    ensures var s := samples[j];
      0 < |s.pcm| <= LONGEST && |s.pcm| % 16 == 0 && s.loopStart <= LONGEST && s.loopEnd <= LONGEST &&
        s.rate == Mapping.BRR_ENCODE_RATE
    ensures NameSurvives(samples[j].name, 20)
  {
    hide Brr.Decodes, Bank.Addresses, Bank.EntryFits, Hex2, IsText;
    var owner := owners[j];
    assert IsSampleOf(bank, owner, samples[j]);
    var n: nat, d: Brr.Decoded :| Brr.Decodes(bank.ram, bank.Addresses(owner).0, n, d) && |d.pcm| < 0x1_0000_0000 &&
      samples[j] == SampleOf(owner, d, bank.Addresses(owner));
    DecodedFits(bank, bank.Addresses(owner).0, n, d);
    AsciiIsText(samples[j].name);
  }

  lemma {:induction false} PointsAreFew(samples: seq<Sample>, n: nat)
    requires n <= |samples| && forall j :: 0 <= j < n ==> |samples[j].pcm| <= LONGEST
    ensures |Sf2Writer.Points(samples, n)| <= (LONGEST + 46) * n
  {
    if n > 0 {
      PointsAreFew(samples, n - 1);
    }
  }

  /** The sizes of an export fit their fields, whatever the bank. */
  lemma ExportFits(bank: Bank, voices: Voices, file: File, owners: seq<Byte>)
    requires bank.Valid() && IsExport(bank, voices, file, owners)
    ensures Sf2RoundTrip.Fits(file.samples, file.instruments)
    ensures |file.samples| <= 256 && |file.instruments| == bank.nInstr <= 10922
  {
    hide AreSamples, IsIndex, InstrumentOf, InUse, Sf2Writer.Body, Sf2Writer.Points;
    SamplesAreFew(bank, file.samples, owners);
    forall j: nat | j < |file.samples|
      ensures |file.samples[j].pcm| <= LONGEST && file.samples[j].loopStart <= LONGEST &&
        file.samples[j].loopEnd <= LONGEST
    {
      SampleIsSmall(bank, file.samples, owners, j);
    }
    PointsAreFew(file.samples, |file.samples|);
    Sf2Size.BodySize(file.samples, file.instruments);
    forall j: nat | j < |file.samples| ensures |Sf2Writer.Points(file.samples, j)| <= (LONGEST + 46) * 256 {
      PointsAreFew(file.samples, j);
    }
  }

  /** An exported bank reads back whole, and up to 5957 instruments; beyond that the reader refuses the
      file, although the exporter wrote it. */
  lemma ExportIsReadBack(bank: Bank, voices: Voices, file: File, owners: seq<Byte>)
    requires bank.Valid() && IsExport(bank, voices, file, owners) && bank.nInstr > 0
    ensures Sf2Reader.Parsed(Sf2Writer.Written(file.samples, file.instruments))
         == if bank.nInstr <= 5957 then Ok(file) else Err
  {
    hide Sf2RoundTrip.Fits, Sf2Reader.Parsed, Sf2Writer.Written, AreSamples, Sf2RoundTrip.InstrumentFits,
      NameSurvives, Sf2RoundTrip.FileKept, InstrumentOf, IsIndex, InUse, Sf2Writer.Gens;
    ExportFits(bank, voices, file, owners);
    Sf2RoundTrip.ReadBack(file.samples, file.instruments);
    Sf2RoundTrip.RoundTrip(file.samples, file.instruments);
    forall j: nat | j < |file.samples| ensures NameSurvives(file.samples[j].name, 20) {
      SampleIsSmall(bank, file.samples, owners, j);
    }
    forall i: nat | i < |file.instruments|
      ensures Sf2RoundTrip.InstrumentFits(file.instruments[i]) && file.instruments[i].rootKey == None
    {
      ExportedInstrumentFits(bank, voices, file, owners, i);
    }
    Sf2RoundTrip.GenCounts(file.instruments, |file.instruments|);
  }

  lemma ExportedInstrumentFits(bank: Bank, voices: Voices, file: File, owners: seq<Byte>, i: nat)
    requires bank.Valid() && IsExport(bank, voices, file, owners) && i < |file.instruments| <= 10922
    requires |file.samples| <= 256
    ensures Sf2RoundTrip.InstrumentFits(file.instruments[i]) && file.instruments[i].rootKey == None
    ensures file.instruments[i].sampleIndex < |file.samples|
  {
    hide IsSampleOf, Bank.Addresses, Bank.EntryFits, Hex2, InUse, IsText;
    assert file.instruments[i].name == INST_ + Hex2(i);
    AsciiIsText(file.instruments[i].name);
  }

  // ----- When it can be imported

  /** Bytes of the chains of the first n samples. */
  function ChainBytes(samples: seq<Sample>, n: nat): nat
    requires n <= |samples|
  {
    if n == 0 then 0 else ChainBytes(samples, n - 1) + 9 * (|samples[n - 1].pcm| / 16)
  }

  /** The importer encodes as many blocks as were decoded. */
  lemma {:induction false} SameBlocks(bank: Bank, file: File, owners: seq<Byte>, conv: Mapping.Conversions, n: nat)
    requires bank.Valid() && AreSamples(bank, file.samples, owners) && n <= |file.samples|
    ensures Mapping.Total(Mapping.Sources(file, conv), n) == ChainBytes(file.samples, n)
  {
    hide AreSamples, Mapping.SampleLoops, NameSurvives;
    if n > 0 {
      SameBlocks(bank, file, owners, conv, n - 1);
      SampleIsSmall(bank, file.samples, owners, n - 1);
    }
  }

  /** An exported bank can be imported again if and only if the reader takes its instruments, the
      directory its samples, and the memory behind BRR_DEST its chains, each distinct chain once. */
  lemma ReimportSucceeds(bank: Bank, voices: Voices, conv: Mapping.Conversions, file: File, owners: seq<Byte>,
      bytes: Bytes)
    requires bank.Valid() && IsExport(bank, voices, file, owners) && bank.nInstr > 0
    requires bytes == Sf2Writer.Written(file.samples, file.instruments)
    ensures Sf2Reader.Parsed(bytes).Ok? && Mapping.Importable(Sf2Reader.Parsed(bytes).value, conv) <==>
      bank.nInstr <= 5957 && |file.samples| <= 64 && 0x4DB0 + ChainBytes(file.samples, |file.samples|) <= 0x1_0000
  {
    hide Sf2Reader.Parsed, Sf2Writer.Written, AreSamples, InstrumentOf, IsIndex, InUse, Sf2RoundTrip.Fits,
      Sf2RoundTrip.InstrumentFits, Mapping.Sources, Mapping.Total;
    ExportIsReadBack(bank, voices, file, owners);
    ExportFits(bank, voices, file, owners);
    forall i: nat | i < bank.nInstr ensures file.instruments[i].sampleIndex < |file.samples| {
      ExportedInstrumentFits(bank, voices, file, owners, i);
    }
    assert file.instruments[0].sampleIndex < |file.samples|;
    SameBlocks(bank, file, owners, conv, |file.samples|);
  }

  // ----- What an import makes of it

  /** The sample an instrument refers to is the decoded chain of its own directory entry. */
  lemma ExportedSample(bank: Bank, voices: Voices, file: File, owners: seq<Byte>, i: nat, n: nat, d: Brr.Decoded)
    requires bank.Valid() && IsExport(bank, voices, file, owners) && i < bank.nInstr && bank.EntryFits(bank.Srcn(i))
    requires Brr.Decodes(bank.ram, bank.Addresses(bank.Srcn(i)).0, n, d)
    ensures var index, addresses := file.instruments[i].sampleIndex, bank.Addresses(bank.Srcn(i));
      && index < |file.samples| && n > 0 && |d.pcm| == 16 * n < 0x1_0000_0000
      && exists owner: Byte :: file.samples[index] == SampleOf(owner, d, addresses)
  {
    hide Bank.Addresses, Bank.EntryFits, InstrumentOf, SampleOf, Brr.Decodes, InUse;
    var index, addresses := file.instruments[i].sampleIndex, bank.Addresses(bank.Srcn(i));
    var owner := owners[index];
    assert IsSampleOf(bank, owner, file.samples[index]);
    var n': nat, d': Brr.Decoded :| Brr.Decodes(bank.ram, addresses.0, n', d') && |d'.pcm| < 0x1_0000_0000 &&
      file.samples[index] == SampleOf(owner, d', addresses);
    BrrLossless.DecodesUniquely(bank.ram, addresses.0, n, d, n', d');
    DecodedFits(bank, addresses.0, n, d);
  }

  /** All instruments of one sample agree whether it loops. */
  lemma LoopsAgree(bank: Bank, voices: Voices, file: File, owners: seq<Byte>, i: nat)
    requires bank.Valid() && IsExport(bank, voices, file, owners) && i < bank.nInstr
    ensures var index := file.instruments[i].sampleIndex;
      index < |file.samples| && Mapping.SampleLoops(file.instruments, index) == (file.samples[index].loopEnd > 0)
  {
    hide AreSamples, Bank.Addresses, Bank.EntryFits, InUse;
    var index := file.instruments[i].sampleIndex;
    IndicesInRange(bank, file.samples, owners);
    assert forall k :: 0 <= k < |file.instruments| && file.instruments[k].sampleIndex == index ==>
        file.instruments[k].loops == (file.samples[index].loopEnd > 0);
    assert file.instruments[i].sampleIndex == index;
  }

  /** What the importer hands the encoder for an exported sample. */
  lemma ImportedSource(file: File, conv: Mapping.Conversions, index: nat, owner: Byte, d: Brr.Decoded, n: nat,
      addresses: (Word16, Word16))
    requires index < |file.samples| && n > 0 && |d.pcm| == 16 * n < 0x1_0000_0000
    requires file.samples[index] == SampleOf(owner, d, addresses)
    requires Mapping.SampleLoops(file.instruments, index) == (file.samples[index].loopEnd > 0)
    ensures var s := Mapping.Sources(file, conv)[index];
      && s.pcm == d.pcm && s.loopSample.Some? == LoopsAt(d, addresses)
      && Brr.BlockCount(s.pcm) == n
      && Mapping.LoopBlockOf(s) == if LoopsAt(d, addresses) then Min((addresses.1 - addresses.0) / 9, n - 1) else 0
  {
    hide Hex2, Mapping.SampleLoops;
  }

  /** An imported chain has the wanted samples in memory exactly when it has them by itself. */
  lemma ChainInMemory(memory: Bytes, start: nat, n: nat, e: Brr.Encoded, d: Brr.Decoded, loops: bool)
    requires |e.bytes| == 9 * n
    requires Brr.Decodes(memory, start, n, Brr.Decoded(BrrLossless.Reconstruction(e), loops))
    requires Brr.Decodes(e.bytes, 0, n, Brr.Decoded(BrrLossless.Reconstruction(e), loops))
    ensures Brr.Decodes(memory, start, n, Brr.Decoded(d.pcm, loops)) <==>
      Brr.Decodes(e.bytes, 0, n, Brr.Decoded(d.pcm, loops))
  {
    hide Brr.IsChain, Brr.ChainSamples, Brr.LoopFlag, Brr.BlockAt;
  }

  /** The instrument table has its entries one behind the other, each beginning with its sample number. */
  lemma {:induction false} TableNames(file: File, conv: Mapping.Conversions, n: nat, i: nat)
    requires Mapping.SamplesExist(file) && i < n <= |file.instruments|
    ensures var table := Flat(Mapping.InstrRecs(file, conv, n));
      && |table| == 6 * n && table[6 * i] == file.instruments[i].sampleIndex % 0x100
      && table[6 * i..6 * i + 6] == Mapping.InstrEntry(file.instruments[i], file.samples, conv)
  {
    var entry := Mapping.InstrEntry(file.instruments[n - 1], file.samples, conv);
    FlatAppend(Mapping.InstrRecs(file, conv, n - 1), [entry]);
    FlatOne(entry);
    if n == 1 {
      assert Flat(Mapping.InstrRecs(file, conv, 0)) == [];
    } else {
      TableNames(file, conv, n - 1, if i < n - 1 then i else 0);
    }
    FirstOfEntry(file, conv, i);
    hide Mapping.InstrEntry;
  }

  lemma FirstOfEntry(file: File, conv: Mapping.Conversions, i: nat)
    requires Mapping.SamplesExist(file) && i < |file.instruments|
    ensures Mapping.InstrEntry(file.instruments[i], file.samples, conv)[0] == file.instruments[i].sampleIndex % 0x100
  {
  }

  lemma ReencodedChain(ram: Bytes, start: nat, n: nat, d: Brr.Decoded, loopSample: Option<nat>, e: Brr.Encoded)
    requires Brr.Decodes(ram, start, n, d) && Brr.Encodes(d.pcm, loopSample, e) && Brr.BlockCount(d.pcm) == n &&
      |d.pcm| >= 16
    ensures |e.bytes| == 9 * n
    ensures Brr.Decodes(e.bytes, 0, n, Brr.Decoded(BrrLossless.Reconstruction(e), loopSample.Some?))
    ensures Brr.Decodes(e.bytes, 0, n, Brr.Decoded(d.pcm, loopSample.Some?)) <==> BrrLossless.FirstBlockFits(d.pcm)
  {
    hide Brr.Decodes, Brr.Encodes, BrrLossless.FirstBlockFits, Brr.BlockCount, BrrLossless.Reconstruction;
    BrrLossless.EncodedChainDecodes(d.pcm, loopSample, e, [], []);
    assert [] + e.bytes + [] == e.bytes;
    BrrLossless.ReencodingIsLossless(ram, start, n, d, loopSample, e);
  }

  /** A decoded chain that is encoded again plays from its directory entry as it did, if and only if some
      filter-0 candidate fits its first block. */
  lemma ReencodedPlays(ram: Bytes, start: nat, n: nat, d: Brr.Decoded, sources: seq<Mapping.Source>,
      chains: seq<Brr.Encoded>, dir: Bytes, brr: Bytes, index: nat, front: Bytes, back: Bytes)
    requires Brr.Decodes(ram, start, n, d) && Mapping.IsLayout(sources, chains, |sources|, dir, brr) &&
      index < |sources|
    requires sources[index].pcm == d.pcm && Brr.BlockCount(d.pcm) == n && |d.pcm| >= 16
    requires Mapping.StartOf(sources, |sources|) <= Mapping.APU_RAM && |front| == Mapping.BRR_DEST
    ensures 4 * index + 4 <= |dir|
    ensures Brr.Decodes(front + brr + back, Mapping.ReadEntry(dir, index).0, n,
                        Brr.Decoded(d.pcm, sources[index].loopSample.Some?))
      <==> BrrLossless.FirstBlockFits(d.pcm)
    ensures Mapping.ReadEntry(dir, index).1 == Mapping.ReadEntry(dir, index).0 + 9 * Mapping.LoopBlockOf(sources[index])
  {
    hide Brr.Decodes, Brr.Encodes, Mapping.ReadEntry, Mapping.StartOf, Mapping.LoopOf, Mapping.LoopBlockOf,
      BrrLossless.FirstBlockFits, Brr.BlockCount, BrrLossless.Reconstruction, Mapping.Directory, Mapping.Joined, Flat;
    var e, loops := chains[index], sources[index].loopSample.Some?;
    Mapping.DirectoryReads(sources, chains, dir, brr, index);
    Mapping.ChainsTile(sources, index);
    Mapping.ImportedBankPlays(sources, chains, dir, brr, index, front, back);
    ReencodedChain(ram, start, n, d, sources[index].loopSample, e);
    ChainInMemory(front + brr + back, Mapping.ReadEntry(dir, index).0, n, e, d, loops);
  }

  /** In the imported regions instrument i plays from a chain of n blocks that decodes to the samples it had
      in the bank, with the same loop flag, if and only if some filter-0 candidate fits the first block;
      and the chain loops to the block it looped to in the bank, or to its last one where that lay behind
      the chain. */
  ghost predicate PlaysAgain(bank: Bank, r: Mapping.Regions, i: nat, n: nat, d: Brr.Decoded, front: Bytes, back: Bytes)
    requires bank.Valid() && bank.TableFits() && i < bank.nInstr && bank.EntryFits(bank.Srcn(i))
  {
    && |d.pcm| >= 16 && 6 * i < |r.instr| && 4 * r.instr[6 * i] + 4 <= |r.dir|
    && var (start, loop) := bank.Addresses(bank.Srcn(i));
      var (newStart, newLoop) := Mapping.ReadEntry(r.dir, r.instr[6 * i]);
      var loops := LoopsAt(d, (start, loop));
      && (Brr.Decodes(front + r.brr + back, newStart, n, Brr.Decoded(d.pcm, loops)) <==>
        BrrLossless.FirstBlockFits(d.pcm))
      && newLoop == newStart + 9 * if loops then Min((loop - start) / 9, n - 1) else 0
  }

  /** What the importer makes of some bytes. */
  ghost predicate IsImportOf(bytes: Bytes, conv: Mapping.Conversions, r: Mapping.Regions, chains: seq<Brr.Encoded>) {
    var parsed := Sf2Reader.Parsed(bytes);
    parsed.Ok? && Mapping.Importable(parsed.value, conv) && Mapping.IsImport(parsed.value, conv, r, chains)
  }

  /** Instrument i of an imported file that is the export of a bank. */
  lemma FileSurvives(bank: Bank, voices: Voices, conv: Mapping.Conversions, file: File, owners: seq<Byte>,
      r: Mapping.Regions, chains: seq<Brr.Encoded>, i: nat, n: nat, d: Brr.Decoded, front: Bytes, back: Bytes)
    requires bank.Valid() && IsExport(bank, voices, file, owners) && i < bank.nInstr && bank.EntryFits(bank.Srcn(i))
    requires Mapping.Importable(file, conv) && Mapping.IsImport(file, conv, r, chains)
    requires Brr.Decodes(bank.ram, bank.Addresses(bank.Srcn(i)).0, n, d) && |front| == Mapping.BRR_DEST
    ensures PlaysAgain(bank, r, i, n, d, front, back)
  {
    hide AreSamples, Bank.Addresses, Bank.EntryFits, InstrumentOf, SampleOf, Brr.Decodes, InUse, Mapping.SampleLoops,
      Mapping.IsLayout, Mapping.ReadEntry, Mapping.Sources, Mapping.StartOf, Mapping.LoopBlockOf, Mapping.InstrRecs,
      BrrLossless.FirstBlockFits, IsIndex;
    var index, addresses := file.instruments[i].sampleIndex, bank.Addresses(bank.Srcn(i));
    ExportedSample(bank, voices, file, owners, i, n, d);
    LoopsAgree(bank, voices, file, owners, i);
    var owner: Byte :| file.samples[index] == SampleOf(owner, d, addresses);
    TableNames(file, conv, bank.nInstr, i);
    var sources := Mapping.Sources(file, conv);
    ImportedSource(file, conv, index, owner, d, n, addresses);
    ReencodedPlays(bank.ram, addresses.0, n, d, sources, chains, r.dir, r.brr, index, front, back);
  }

  /** Through the bytes of the file: when a bank is exported and the bytes are imported, every instrument
      plays as it did, to the extent its first block allows. */
  lemma BankSurvives(bank: Bank, voices: Voices, conv: Mapping.Conversions, file: File, owners: seq<Byte>,
      bytes: Bytes, r: Mapping.Regions, chains: seq<Brr.Encoded>, i: nat, n: nat, d: Brr.Decoded, front: Bytes,
      back: Bytes)
    requires bank.Valid() && IsExport(bank, voices, file, owners)
    requires bytes == Sf2Writer.Written(file.samples, file.instruments)
    requires IsImportOf(bytes, conv, r, chains)
    requires i < bank.nInstr && bank.EntryFits(bank.Srcn(i)) && |front| == Mapping.BRR_DEST
    requires Brr.Decodes(bank.ram, bank.Addresses(bank.Srcn(i)).0, n, d)
    ensures PlaysAgain(bank, r, i, n, d, front, back)
  {
    hide Sf2Reader.Parsed, Sf2Writer.Written, Mapping.Importable, Mapping.IsImport, IsExport, PlaysAgain, Brr.Decodes,
      Bank.EntryFits, Bank.Addresses;
    ExportIsReadBack(bank, voices, file, owners);
    FileSurvives(bank, voices, conv, file, owners, r, chains, i, n, d, front, back);
  }

  // ----- Instrument-table entries

  /** What the exporter makes of an entry: its envelope from bytes 1 and 2, its gain from byte 3, and its base
      pitch from bytes 4 and 5, the high one first. */
  lemma ExportedInstrument(bank: Bank, voices: Voices, samples: seq<Sample>, i: nat, index: nat)
    requires bank.Valid() && bank.TableFits() && i < bank.nInstr && index < |samples|
    ensures var inst, e: int := InstrumentOf(bank, voices, samples, i, index), bank.instrBase + 6 * i;
      var high: int, low: int := bank.ram[e + 4], bank.ram[e + 5];
      && inst.sampleIndex == index && inst.loops == (samples[index].loopEnd > 0)
      && inst.env == voices.envelope(bank.ram[e + 1], bank.ram[e + 2])
      && inst.attenuation == voices.attenuation(bank.ram[e + 3])
      && (inst.coarse, inst.fine) == voices.tuning(0x100 * high + low)
      && inst.rootKey == None && inst.keyRange == None
  {
    hide Hex2;
  }

  /** What the importer makes of an instrument: the entry at 6 i, field by field. */
  lemma ImportedEntry(file: File, conv: Mapping.Conversions, r: Mapping.Regions, chains: seq<Brr.Encoded>, i: nat)
    requires Mapping.SamplesExist(file) && Mapping.IsImport(file, conv, r, chains) && i < |file.instruments|
    ensures |r.instr| == 6 * |file.instruments|
    ensures var inst, e := file.instruments[i], r.instr[6 * i..6 * i + 6];
      var high: int, low: int := e[4], e[5];
      && e[0] == inst.sampleIndex % 0x100 && (e[1], e[2]) == conv.adsr(inst.env) && e[3] == conv.gain(inst.attenuation)
      && 0x100 * high + low == conv.base16(file.samples[inst.sampleIndex], inst)
  {
    hide Mapping.IsLayout, Mapping.Sources;
    TableNames(file, conv, |file.instruments|, i);
  }

  /** The importer's conversions undo the exporter's: envelope bytes, gain, and the base pitch of an exported
      sample. */
  ghost predicate Undo(conv: Mapping.Conversions, voices: Voices) {
    && (forall a: Byte, b: Byte :: conv.adsr(voices.envelope(a, b)) == (a, b))
    && (forall gain: Byte :: conv.gain(voices.attenuation(gain)) == gain)
    && (forall base: Word16, s: Sample, inst: Instrument ::
          (s.rate == 32000 && s.pitch == 60 && s.correction == 0 && inst.rootKey == None &&
           (inst.coarse, inst.fine) == voices.tuning(base))
          ==> conv.base16(s, inst) == base)
  }

  lemma EntryComesBack(bank: Bank, voices: Voices, conv: Mapping.Conversions, file: File, owners: seq<Byte>, i: nat)
    requires bank.Valid() && IsExport(bank, voices, file, owners) && i < bank.nInstr && Undo(conv, voices)
    requires Mapping.SamplesExist(file)
    ensures var e, entry := bank.instrBase + 6 * i, Mapping.InstrEntry(file.instruments[i], file.samples, conv);
      entry == [file.instruments[i].sampleIndex % 0x100] + bank.ram[e + 1..e + 6]
  {
    hide InUse, AreSamples, IsIndex, Hex2, Bank.Addresses;
    var inst, e: int := file.instruments[i], bank.instrBase + 6 * i;
    var s := file.samples[inst.sampleIndex];
    IndicesInRange(bank, file.samples, owners);
    ExportedRates(bank, file.samples, owners, inst.sampleIndex);
    var high: int, low: int := bank.ram[e + 4], bank.ram[e + 5];
    var base: Word16 := high * 0x100 + low;
    assert base / 0x100 == high && base % 0x100 == low;
    assert conv.base16(s, inst) == base;
  }

  lemma ExportedRates(bank: Bank, samples: seq<Sample>, owners: seq<Byte>, j: nat)
    requires bank.Valid() && AreSamples(bank, samples, owners) && j < |samples|
    ensures samples[j].rate == 32000 && samples[j].pitch == 60 && samples[j].correction == 0
  {
    hide Brr.Decodes, Bank.Addresses, Bank.EntryFits, Hex2;
    assert IsSampleOf(bank, owners[j], samples[j]);
  }

  /** Exported to bytes and imported from them, an instrument-table entry keeps its five bytes behind the sample
      number, where the conversions undo each other. */
  lemma EntriesSurvive(bank: Bank, voices: Voices, conv: Mapping.Conversions, file: File, owners: seq<Byte>,
      bytes: Bytes, r: Mapping.Regions, chains: seq<Brr.Encoded>, i: nat)
    requires bank.Valid() && IsExport(bank, voices, file, owners) && i < bank.nInstr && Undo(conv, voices)
    requires bytes == Sf2Writer.Written(file.samples, file.instruments) && IsImportOf(bytes, conv, r, chains)
    ensures var e := bank.instrBase + 6 * i;
      6 * i + 6 <= |r.instr| && r.instr[6 * i + 1..6 * i + 6] == bank.ram[e + 1..e + 6]
  {
    hide Sf2Reader.Parsed, Sf2Writer.Written, Mapping.IsLayout, AreSamples, InUse, IsIndex, InstrumentOf, Undo,
      Mapping.InstrEntry, Mapping.InstrRecs, Mapping.Sources;
    ExportIsReadBack(bank, voices, file, owners);
    TableNames(file, conv, bank.nInstr, i);
    EntryComesBack(bank, voices, conv, file, owners, i);
    assert r.instr[6 * i + 1..6 * i + 6] == r.instr[6 * i..6 * i + 6][1..];
  }
}
