/** Exporting a sample bank as a SoundFont: `export_sf2` in `mapping.rs`. */
module BankExport {
  import opened Words
  import opened Riff
  import opened Sf2
  import Brr
  import Mapping
  import Sf2Writer

  const SF2_ROOT_KEY := 60

  /** A bank in APU RAM: where its directory and instrument table are, and how long they are. */
  datatype Bank = Bank(ram: Bytes, dirBase: Word16, instrBase: Word16, nDir: nat, nInstr: nat)
  {
    predicate Valid() {
      |ram| == Mapping.APU_RAM
    }

    predicate TableFits() {
      instrBase + nInstr * 6 <= Mapping.APU_RAM
    }

    /** Instrument i's sample number. */
    function Srcn(i: nat): Byte
      requires Valid() && TableFits() && i < nInstr
    {
      ram[instrBase + i * 6]
    }

    predicate EntryFits(srcn: Byte) {
      srcn < nDir && dirBase + srcn * 4 + 4 <= Mapping.APU_RAM
    }

    /** The start and loop addresses of a directory entry. */
    function Addresses(srcn: Byte): (Word16, Word16)
      requires Valid() && EntryFits(srcn)
    {
      var e: int := dirBase + srcn * 4;
      (U16(ram[e..e + 2]), U16(ram[e + 2..e + 4]))
    }

    ghost predicate Decodable(srcn: Byte)
      requires Valid()
    {
      EntryFits(srcn) && exists n: nat :: Brr.IsChain(ram, Addresses(srcn).0, n)
    }

    /** What an export needs. */
    ghost predicate Exportable()
      requires Valid()
    {
      nInstr > 0 && TableFits() && forall i :: 0 <= i < nInstr ==> Decodable(Srcn(i))
    }
  }

  /** The conversions the model does not look into: tuning, gain and envelope of an instrument. */
  datatype Voices = Voices(tuning: Word16 -> (Int8, Int8), attenuation: Byte -> Int16, envelope: (Byte, Byte) -> VolEnv)

  // ----- Names

  function HexDigit(d: nat): Byte
    requires d < 16
  {
    if d < 10 then 0x30 + d else 0x37 + d
  }

  /** ASCII text without a NUL. */
  predicate IsPlain(s: Bytes) {
    forall i :: 0 <= i < |s| ==> 0 < s[i] < 0x80
  }

  function HexDigits(n: nat): (s: Bytes)
    ensures s != [] && IsPlain(s)
    ensures n < 0x100 ==> |s| <= 2
    ensures n < 0x1_0000 ==> |s| <= 4
  {
    if n < 16 then [HexDigit(n)] else HexDigits(n / 16) + [HexDigit(n % 16)]
  }

  /** At least two digits. */
  function Hex2(n: nat): (s: Bytes)
    ensures IsPlain(s) && (n < 0x1_0000 ==> |s| <= 4)
  {
    var d := HexDigits(n);
    if |d| < 2 then [0x30] + d else d
  }

  const SRCN_: Bytes := [0x73, 0x72, 0x63, 0x6E, 0x5F]
  const INST_: Bytes := [0x69, 0x6E, 0x73, 0x74, 0x5F]

  // ----- The samples and instruments of a bank

  predicate LoopsAt(d: Brr.Decoded, addresses: (Word16, Word16)) {
    d.loops && addresses.1 >= addresses.0
  }

  /** The sample of a decoded chain. Its loop point is the first sample of the block the loop address
      is in. */
  function SampleOf(srcn: Byte, d: Brr.Decoded, addresses: (Word16, Word16)): Sample
    requires |d.pcm| < 0x1_0000_0000
  {
    var loops := LoopsAt(d, addresses);
    Sample(SRCN_ + Hex2(srcn), d.pcm, if loops then (addresses.1 - addresses.0) / 9 * 16 else 0,
      if loops then |d.pcm| else 0, Mapping.BRR_ENCODE_RATE, SF2_ROOT_KEY, 0)
  }

  /** A sample holds the decoded chain of a directory entry. */
  ghost predicate IsSampleOf(bank: Bank, srcn: Byte, s: Sample)
    requires bank.Valid()
  {
    && bank.EntryFits(srcn)
    && exists n: nat, d: Brr.Decoded ::
        Brr.Decodes(bank.ram, bank.Addresses(srcn).0, n, d) && |d.pcm| < 0x1_0000_0000 &&
          s == SampleOf(srcn, d, bank.Addresses(srcn))
  }

  function InstrumentOf(bank: Bank, voices: Voices, samples: seq<Sample>, i: nat, index: nat): Instrument
    requires bank.Valid() && bank.TableFits() && i < bank.nInstr && index < |samples|
  {
    var e: int := bank.instrBase + i * 6;
    var high: int, low: int := bank.ram[e + 4], bank.ram[e + 5];
    var (coarse, fine) := voices.tuning(high * 0x100 + low);
    Instrument(INST_ + Hex2(i), index, samples[index].loopEnd > 0, None, coarse, fine,
      voices.attenuation(bank.ram[e + 3]), voices.envelope(bank.ram[e + 1], bank.ram[e + 2]), None)
  }

  /** One sample for each pair of addresses in use: `owners` are the sample numbers that came first. */
  ghost predicate AreSamples(bank: Bank, samples: seq<Sample>, owners: seq<Byte>)
    requires bank.Valid()
  {
    && |owners| == |samples|
    && (forall j :: 0 <= j < |samples| ==> IsSampleOf(bank, owners[j], samples[j]))
    && (forall j, k :: 0 <= j < k < |samples| ==> bank.Addresses(owners[j]) != bank.Addresses(owners[k]))
  }

  /** The index is that of the sample with a sample number's addresses. */
  ghost predicate IsIndex(bank: Bank, owners: seq<Byte>, srcn: Byte, index: nat)
    requires bank.Valid()
  {
    bank.EntryFits(srcn) && index < |owners| && bank.EntryFits(owners[index]) &&
      bank.Addresses(owners[index]) == bank.Addresses(srcn)
  }

  ghost predicate InUse(bank: Bank, srcn: Byte)
    requires bank.Valid() && bank.TableFits()
  {
    exists i :: 0 <= i < bank.nInstr && bank.Srcn(i) == srcn
  }

  /** The file of an export: each instrument with the sample of its own addresses. */
  ghost predicate IsExport(bank: Bank, voices: Voices, file: File, owners: seq<Byte>)
    requires bank.Valid()
  {
    && bank.TableFits() && AreSamples(bank, file.samples, owners) && |file.instruments| == bank.nInstr
    && (forall j :: 0 <= j < |owners| ==> InUse(bank, owners[j]))
    && (forall i :: 0 <= i < bank.nInstr ==>
          var index := file.instruments[i].sampleIndex;
          IsIndex(bank, owners, bank.Srcn(i), index) &&
            file.instruments[i] == InstrumentOf(bank, voices, file.samples, i, index))
  }

  /** Sample j is named after the first instrument that uses it, and up to that one all use earlier samples. */
  ghost predicate NumberedByUse(bank: Bank, file: File, owners: seq<Byte>)
    requires bank.Valid() && bank.TableFits() && |file.instruments| == bank.nInstr
  {
    forall j :: 0 <= j < |owners| ==> NamedByUse(bank, file, owners[j], j)
  }

  ghost predicate NamedByUse(bank: Bank, file: File, owner: Byte, j: nat)
    requires bank.Valid() && bank.TableFits() && |file.instruments| == bank.nInstr
  {
    exists i :: 0 <= i < bank.nInstr && file.instruments[i].sampleIndex == j && bank.Srcn(i) == owner &&
      forall k :: 0 <= k < i ==> file.instruments[k].sampleIndex < j
  }

  // ----- The export

  /** Sample numbers in the order in which instruments first use them. */
  ghost predicate InFirstUse(bank: Bank, order: seq<Byte>)
    requires bank.Valid() && bank.TableFits()
  {
    forall j :: 0 <= j < |order| ==> FirstUsedAt(bank, order, j)
  }

  ghost predicate FirstUsedAt(bank: Bank, order: seq<Byte>, j: nat)
    requires bank.Valid() && bank.TableFits() && j < |order|
  {
    exists i :: 0 <= i < bank.nInstr && bank.Srcn(i) == order[j] &&
      forall k :: 0 <= k < i ==> bank.Srcn(k) in order[..j]
  }

  /** The sample numbers in use, each once, as they are first used. */
  method SrcnOrder(bank: Bank) returns (order: seq<Byte>)
    requires bank.Valid() && bank.TableFits()
    ensures forall s: Byte :: s in order <==> InUse(bank, s)
    ensures forall j, k :: 0 <= j < k < |order| ==> order[j] != order[k]
    ensures InFirstUse(bank, order)
  {
    order := [];
    var seen: set<Byte> := {};
    for i := 0 to bank.nInstr
      invariant forall s: Byte :: s in order <==> exists k :: 0 <= k < i && bank.Srcn(k) == s
      invariant forall s: Byte :: s in seen <==> s in order
      invariant forall j, k :: 0 <= j < k < |order| ==> order[j] != order[k]
      invariant InFirstUse(bank, order)
    {
      var s := bank.Srcn(i);
      if s !in seen {
        OneMoreUse(bank, order, i);
        seen := seen + {s};
        order := order + [s];
      }
    }
  }

  lemma OneMoreUse(bank: Bank, order: seq<Byte>, i: nat)
    requires bank.Valid() && bank.TableFits() && i < bank.nInstr && InFirstUse(bank, order)
    requires forall k :: 0 <= k < i ==> bank.Srcn(k) in order
    ensures InFirstUse(bank, order + [bank.Srcn(i)])
  {
    var more := order + [bank.Srcn(i)];
    forall j: nat | j < |more| ensures FirstUsedAt(bank, more, j) {
      if j < |order| {
        assert FirstUsedAt(bank, order, j) && more[..j] == order[..j];
      } else {
        assert more[..j] == order;
      }
    }
  }

  /** Samples are numbered as they come up: whatever comes in front of a sample's own number has a lower one. */
  ghost predicate NumberedInOrder(order: seq<Byte>, owners: seq<Byte>, bySrcn: map<Byte, nat>) {
    forall j :: 0 <= j < |owners| ==> ComesUp(order, owners[j], bySrcn, j)
  }

  ghost predicate ComesUp(order: seq<Byte>, owner: Byte, bySrcn: map<Byte, nat>, j: nat) {
    exists p :: 0 <= p < |order| && order[p] == owner && owner in bySrcn && bySrcn[owner] == j &&
      forall q :: 0 <= q < p ==> order[q] in bySrcn && bySrcn[order[q]] < j
  }

  method ExportSamples(bank: Bank, order: seq<Byte>)
    returns (r: Result<(seq<Sample>, map<Byte, nat>)>, ghost owners: seq<Byte>)
    requires bank.Valid() && forall j, k :: 0 <= j < k < |order| ==> order[j] != order[k]
    ensures r.Ok? <==> forall s :: s in order ==> bank.Decodable(s)
    ensures r.Ok? ==>
      && AreSamples(bank, r.value.0, owners)
      && NumberedInOrder(order, owners, r.value.1)
      && (forall j :: 0 <= j < |owners| ==> owners[j] in order)
      && (forall s :: s in order ==> s in r.value.1 && IsIndex(bank, owners, s, r.value.1[s]))
  {
    hide Brr.IsChain, Brr.Decodes, SampleOf, AreSamples, IsIndex, NumberedInOrder;
    var samples: seq<Sample> := [];
    var byAddress: map<(Word16, Word16), nat> := map[];
    var bySrcn: map<Byte, nat> := map[];
    owners := [];
    NoSamples(bank);
    NothingNumbered(order);
    for k := 0 to |order|
      invariant AreSamples(bank, samples, owners)
      invariant forall j :: 0 <= j < |owners| ==> owners[j] in order
      invariant Indexed(bank, owners, byAddress) && NumberedInOrder(order, owners, bySrcn)
      invariant forall s :: s in bySrcn ==> s in order[..k]
      invariant forall s :: s in order[..k] ==> bank.Decodable(s) && s in bySrcn && IsIndex(bank, owners, s, bySrcn[s])
    {
      var srcn := order[k];
      if !bank.EntryFits(srcn) {
        assert !bank.Decodable(srcn);
        return Err, owners;
      }
      var addresses := bank.Addresses(srcn);
      ghost var before := owners;
      IndicesBelow(bank, owners, order[..k], bySrcn);
      if addresses !in byAddress {
        var decoded := Brr.Decode(bank.ram, addresses.0);
        if decoded == Err {
          assert decoded.Err? && !bank.Decodable(srcn);
          return Err, owners;
        }
        ghost var n: nat :| Brr.Decodes(bank.ram, addresses.0, n, decoded.value);
        DecodedFits(bank, addresses.0, n, decoded.value);
        NewSample(bank, samples, owners, byAddress, srcn, n, decoded.value);
        KeptIndices(bank, owners, srcn);
        byAddress := byAddress[addresses := |samples|];
        samples := samples + [SampleOf(srcn, decoded.value, addresses)];
        owners := owners + [srcn];
      }
      OldAddress(bank, samples, owners, byAddress, srcn);
      OneMoreNumber(order, k, before, owners, bySrcn, byAddress[addresses]);
      bySrcn := bySrcn[srcn := byAddress[addresses]];
    }
    r := Ok((samples, bySrcn));
  }

  lemma NothingNumbered(order: seq<Byte>)
    ensures NumberedInOrder(order, [], map[])
  {
  }

  lemma IndicesBelow(bank: Bank, owners: seq<Byte>, order: seq<Byte>, bySrcn: map<Byte, nat>)
    requires bank.Valid() && forall s :: s in order ==> s in bySrcn && IsIndex(bank, owners, s, bySrcn[s])
    ensures forall s :: s in order ==> bySrcn[s] < |owners|
  {
    hide Bank.Addresses, Bank.EntryFits;
  }

  lemma OneMoreNumber(order: seq<Byte>, k: nat, before: seq<Byte>, owners: seq<Byte>, bySrcn: map<Byte, nat>, n: nat)
    requires k < |order| && forall i, j :: 0 <= i < j < |order| ==> order[i] != order[j]
    requires NumberedInOrder(order, before, bySrcn) && forall s :: s in bySrcn ==> s in order[..k]
    requires forall s :: s in order[..k] ==> s in bySrcn && bySrcn[s] < |before|
    requires owners == before || (owners == before + [order[k]] && n == |before|)
    ensures NumberedInOrder(order, owners, bySrcn[order[k] := n])
  {
    var more := bySrcn[order[k] := n];
    assert order[k] !in bySrcn;
    forall j: nat | j < |owners| ensures ComesUp(order, owners[j], more, j) {
      if j < |before| {
        assert ComesUp(order, before[j], bySrcn, j);
      } else {
        assert forall q :: 0 <= q < k ==> order[q] in order[..k];
      }
    }
  }

  /** The address map finds each sample. */
  ghost predicate Indexed(bank: Bank, owners: seq<Byte>, byAddress: map<(Word16, Word16), nat>)
    requires bank.Valid()
  {
    && (forall j :: 0 <= j < |owners| ==>
          bank.EntryFits(owners[j]) && bank.Addresses(owners[j]) in byAddress &&
            byAddress[bank.Addresses(owners[j])] == j)
    && (forall a :: a in byAddress ==>
          byAddress[a] < |owners| && bank.EntryFits(owners[byAddress[a]]) && bank.Addresses(owners[byAddress[a]]) == a)
  }

  lemma NoSamples(bank: Bank)
    requires bank.Valid()
    ensures AreSamples(bank, [], [])
  {
  }

  lemma DecodedFits(bank: Bank, start: nat, n: nat, d: Brr.Decoded)
    requires bank.Valid() && Brr.Decodes(bank.ram, start, n, d)
    ensures 0 < n <= 7281 && |d.pcm| == 16 * n
  {
    hide Brr.ChainSamples;
  }

  lemma NewSample(bank: Bank, samples: seq<Sample>, owners: seq<Byte>, byAddress: map<(Word16, Word16), nat>,
      srcn: Byte, n: nat, d: Brr.Decoded)
    requires bank.Valid() && bank.EntryFits(srcn) && AreSamples(bank, samples, owners) &&
      Indexed(bank, owners, byAddress)
    requires bank.Addresses(srcn) !in byAddress && |d.pcm| < 0x1_0000_0000
    requires Brr.Decodes(bank.ram, bank.Addresses(srcn).0, n, d)
    ensures AreSamples(bank, samples + [SampleOf(srcn, d, bank.Addresses(srcn))], owners + [srcn])
    ensures Indexed(bank, owners + [srcn], byAddress[bank.Addresses(srcn) := |samples|])
  {
    hide Brr.Decodes, SampleOf, Bank.Addresses, Bank.EntryFits;
  }

  lemma KeptIndices(bank: Bank, owners: seq<Byte>, srcn: Byte)
    requires bank.Valid()
    ensures forall s: Byte, j: nat :: IsIndex(bank, owners, s, j) ==> IsIndex(bank, owners + [srcn], s, j)
  {
    hide Bank.Addresses, Bank.EntryFits;
  }

  lemma OldAddress(bank: Bank, samples: seq<Sample>, owners: seq<Byte>, byAddress: map<(Word16, Word16), nat>,
      srcn: Byte)
    requires bank.Valid() && bank.EntryFits(srcn) && AreSamples(bank, samples, owners) &&
      Indexed(bank, owners, byAddress)
    requires bank.Addresses(srcn) in byAddress
    ensures bank.Decodable(srcn) && IsIndex(bank, owners, srcn, byAddress[bank.Addresses(srcn)])
  {
    hide Brr.ChainSamples, Bank.Addresses, Bank.EntryFits, Brr.IsChain, SampleOf;
    assert IsSampleOf(bank, owners[byAddress[bank.Addresses(srcn)]], samples[byAddress[bank.Addresses(srcn)]]);
  }

  method ExportSf2(bank: Bank, voices: Voices) returns (r: Result<Bytes>, ghost file: File, ghost owners: seq<Byte>)
    requires bank.Valid()
    ensures r.Ok? <==> bank.Exportable()
    ensures r.Ok? ==>
      && IsExport(bank, voices, file, owners) && NumberedByUse(bank, file, owners)
      && r.value == Sf2Writer.Written(file.samples, file.instruments)
  {
    hide AreSamples, IsIndex, InstrumentOf, Sf2Writer.Written, Bank.Decodable, InFirstUse, NumberedInOrder,
      NumberedByUse;
    file, owners := File([], []), [];
    if bank.nInstr == 0 || !bank.TableFits() {
      return Err, file, [];
    }
    var order := SrcnOrder(bank);
    var exported;
    exported, owners := ExportSamples(bank, order);
    if exported == Err {
      return Err, file, [];
    }
    var (samples, bySrcn) := exported.value;
    assert forall i :: 0 <= i < bank.nInstr ==> bank.Srcn(i) in order;
    IndicesInRange(bank, samples, owners);
    var instruments := seq(bank.nInstr, i requires 0 <= i < bank.nInstr =>
      InstrumentOf(bank, voices, samples, i, bySrcn[bank.Srcn(i)]));
    file := File(samples, instruments);
    InstrumentIndices(bank, voices, samples);
    UseOrder(bank, file, order, owners, bySrcn);
    var bytes := Sf2Writer.Write(samples, instruments);
    r := Ok(bytes);
  }

  lemma UseOrder(bank: Bank, file: File, order: seq<Byte>, owners: seq<Byte>, bySrcn: map<Byte, nat>)
    requires bank.Valid() && bank.TableFits() && |file.instruments| == bank.nInstr
    requires InFirstUse(bank, order) && NumberedInOrder(order, owners, bySrcn)
    requires forall i :: 0 <= i < bank.nInstr ==>
      bank.Srcn(i) in bySrcn && file.instruments[i].sampleIndex == bySrcn[bank.Srcn(i)]
    ensures NumberedByUse(bank, file, owners)
  {
    forall j: nat | j < |owners| ensures NamedByUse(bank, file, owners[j], j) {
      assert ComesUp(order, owners[j], bySrcn, j);
      var p :| 0 <= p < |order| && order[p] == owners[j] && forall q :: 0 <= q < p ==>
        order[q] in bySrcn && bySrcn[order[q]] < j;
      assert FirstUsedAt(bank, order, p);
      var i :| 0 <= i < bank.nInstr && bank.Srcn(i) == order[p] && forall k :: 0 <= k < i ==>
        bank.Srcn(k) in order[..p];
      assert forall k :: 0 <= k < i ==> file.instruments[k].sampleIndex < j;
    }
  }

  lemma IndicesInRange(bank: Bank, samples: seq<Sample>, owners: seq<Byte>)
    requires bank.Valid() && AreSamples(bank, samples, owners)
    ensures forall s: Byte, j: nat :: IsIndex(bank, owners, s, j) ==> j < |samples|
  {
    hide IsSampleOf, Bank.Addresses;
  }

  lemma InstrumentIndices(bank: Bank, voices: Voices, samples: seq<Sample>)
    requires bank.Valid() && bank.TableFits()
    ensures forall i: nat, j: nat :: i < bank.nInstr && j < |samples| ==>
      InstrumentOf(bank, voices, samples, i, j).sampleIndex == j
  {
  }
}
