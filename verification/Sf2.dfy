/** SoundFont entities, shared by the writer and the reader, and the fixed-size records both use. */
module Sf2 {
  import opened Words
  import opened Riff

  const GEN_DELAY_VOL_ENV: Word16 := 33
  const GEN_ATTACK_VOL_ENV: Word16 := 34
  const GEN_HOLD_VOL_ENV: Word16 := 35
  const GEN_DECAY_VOL_ENV: Word16 := 36
  const GEN_SUSTAIN_VOL_ENV: Word16 := 37
  const GEN_RELEASE_VOL_ENV: Word16 := 38
  const GEN_INSTRUMENT: Word16 := 41
  const GEN_KEY_RANGE: Word16 := 43
  const GEN_INITIAL_ATTENUATION: Word16 := 48
  const GEN_COARSE_TUNE: Word16 := 51
  const GEN_FINE_TUNE: Word16 := 52
  const GEN_SAMPLE_ID: Word16 := 53
  const GEN_SAMPLE_MODES: Word16 := 54
  const GEN_OVERRIDING_ROOT_KEY: Word16 := 58

  const SFBK: FourCc := [0x73, 0x66, 0x62, 0x6B]
  const INFO: FourCc := [0x49, 0x4E, 0x46, 0x4F]
  const SDTA: FourCc := [0x73, 0x64, 0x74, 0x61]
  const PDTA: FourCc := [0x70, 0x64, 0x74, 0x61]
  const SMPL: FourCc := [0x73, 0x6D, 0x70, 0x6C]
  const PHDR: FourCc := [0x70, 0x68, 0x64, 0x72]
  const PBAG: FourCc := [0x70, 0x62, 0x61, 0x67]
  const PMOD: FourCc := [0x70, 0x6D, 0x6F, 0x64]
  const PGEN: FourCc := [0x70, 0x67, 0x65, 0x6E]
  const INST: FourCc := [0x69, 0x6E, 0x73, 0x74]
  const IBAG: FourCc := [0x69, 0x62, 0x61, 0x67]
  const IMOD: FourCc := [0x69, 0x6D, 0x6F, 0x64]
  const IGEN: FourCc := [0x69, 0x67, 0x65, 0x6E]
  const SHDR: FourCc := [0x73, 0x68, 0x64, 0x72]

  /** A sample: PCM, loop points relative to its start, tuning. A name is its bytes. */
  datatype Sample = Sample(
    name: Bytes, pcm: seq<Int16>, loopStart: Word32, loopEnd: Word32, rate: Word32, pitch: Byte, correction: Int8)

  datatype VolEnv = VolEnv(delay: Int16, attack: Int16, hold: Int16, decay: Int16, sustain: Int16, release: Int16)

  datatype Instrument = Instrument(
    name: Bytes, sampleIndex: nat, loops: bool, rootKey: Option<Byte>, coarse: Int8, fine: Int8,
    attenuation: Int16, env: VolEnv, keyRange: Option<(Byte, Byte)>)

  datatype File = File(samples: seq<Sample>, instruments: seq<Instrument>)

  /** A generator record: operator and raw amount. */
  type Amount = b: Bytes | |b| == 2 witness [0, 0]
  datatype Gen = Gen(oper: Word16, amount: Amount)

  // ----- Records of one width

  function Flat(recs: seq<Bytes>): Bytes {
    if recs == [] then [] else recs[0] + Flat(recs[1..])
  }

  /** As many whole records as there are. */
  function Split(b: Bytes, width: nat): (recs: seq<Bytes>)
    requires width > 0
    ensures forall i :: 0 <= i < |recs| ==> |recs[i]| == width
    decreases |b|
  {
    if |b| < width then [] else [b[..width]] + Split(b[width..], width)
  }

  ghost predicate AreRecords(recs: seq<Bytes>, width: nat) {
    forall i :: 0 <= i < |recs| ==> |recs[i]| == width
  }

  lemma {:induction false} FlatAppend(recs: seq<Bytes>, more: seq<Bytes>)
    ensures Flat(recs + more) == Flat(recs) + Flat(more)
    decreases |recs|
  {
    if recs == [] {
      assert [] + more == more;
    } else {
      FlatAppend(recs[1..], more);
      assert (recs + more)[1..] == recs[1..] + more;
    }
  }

  lemma FlatOne(rec: Bytes)
    ensures Flat([rec]) == rec
  {
    assert Flat([rec]) == rec + Flat([]);
  }

  lemma {:induction false} SplitFlat(recs: seq<Bytes>, width: nat)
    requires width > 0 && AreRecords(recs, width)
    ensures Split(Flat(recs), width) == recs
    decreases |recs|
  {
    if recs != [] {
      SplitFlat(recs[1..], width);
      assert Flat(recs)[..width] == recs[0] && Flat(recs)[width..] == Flat(recs[1..]);
    }
  }

  /** Records add up: |b| is a whole number of them. */
  lemma {:induction false} FlatLength(recs: seq<Bytes>, width: nat)
    requires AreRecords(recs, width)
    ensures width == 38 ==> |Flat(recs)| == 38 * |recs|
    ensures width == 46 ==> |Flat(recs)| == 46 * |recs|
    ensures width == 22 ==> |Flat(recs)| == 22 * |recs|
    ensures width == 4 ==> |Flat(recs)| == 4 * |recs|
    ensures width == 2 ==> |Flat(recs)| == 2 * |recs|
    decreases |recs|
  {
    if recs != [] {
      FlatLength(recs[1..], width);
    }
  }
}
