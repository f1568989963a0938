/** What an instrument of several zones is, by the indices of its generators: the zone search of `reader.rs`
    without its loop, its table or its order. */
module Sf2Zones {
  import opened Words
  import opened Riff
  import opened Sf2
  import opened Sf2Reader

  /** Zone z's generators are those from its bag record to the next one's; the last record has none. */
  function Begin(ibag: seq<Word16>, z: nat): nat
    requires z < |ibag|
  {
    ibag[z]
  }

  function End(ibag: seq<Word16>, z: nat): nat
    requires z < |ibag|
  {
    if z + 1 < |ibag| then ibag[z + 1] else ibag[z]
  }

  predicate WellFormed(ibag: seq<Word16>, igen: seq<Gen>, z: nat) {
    z < |ibag| && Begin(ibag, z) <= End(ibag, z) <= |igen|
  }

  /** A well-formed zone whose last generator is a sample index. */
  predicate IsSampleZone(ibag: seq<Word16>, igen: seq<Gen>, z: nat) {
    WellFormed(ibag, igen, z) && Begin(ibag, z) < End(ibag, z) && igen[End(ibag, z) - 1].oper == 53
  }

  ghost predicate IsFirstSampleZone(ibag: seq<Word16>, igen: seq<Gen>, first: nat, end: nat, s: nat) {
    first <= s < end && IsSampleZone(ibag, igen, s) && forall z :: first <= z < s ==> !IsSampleZone(ibag, igen, z)
  }

  /** The amount of the last generator of an operator among those from lo to hi, if there is one. */
  ghost predicate IsLastAmount(igen: seq<Gen>, lo: nat, hi: nat, oper: Word16, a: Option<Amount>)
    requires lo <= hi <= |igen|
  {
    match a
    case None => forall j :: lo <= j < hi ==> igen[j].oper != oper
    case Some(amount) =>
      exists j :: lo <= j < hi && igen[j].oper == oper && igen[j].amount == amount &&
        forall k :: j < k < hi ==> igen[k].oper != oper
  }

  /** An operator's amount is its last one in the sample zone s; if that has none, its last one in the first
      zone, where that is another and well-formed. */
  ghost predicate IsAmount(ibag: seq<Word16>, igen: seq<Gen>, first: nat, s: nat, oper: Word16, a: Option<Amount>)
    requires WellFormed(ibag, igen, s)
  {
    if IsLastAmount(igen, Begin(ibag, s), End(ibag, s), oper, None) then
      if first < s && WellFormed(ibag, igen, first) then
        IsLastAmount(igen, Begin(ibag, first), End(ibag, first), oper, a)
      else a == None
    else IsLastAmount(igen, Begin(ibag, s), End(ibag, s), oper, a)
  }

  // ----- An amount as a number, low byte first

  function Unsigned(a: Option<Amount>): int {
    match a
    case None => 0
    case Some(b) => b[0] + 0x100 * (b[1] as int)
  }

  function Signed(a: Option<Amount>, default: Int16): Int16 {
    if a == None then default
    else
      var n := Unsigned(a);
      if n < 0x8000 then n else n - 0x1_0000
  }

  /** The low byte alone, as a signed one. */
  function SignedLow(a: Option<Amount>): Int8 {
    var low := Unsigned(a) % 0x100;
    if low < 0x80 then low else low - 0x100
  }

  // ----- The search

  lemma ZoneFound(ibag: seq<Word16>, igen: seq<Gen>, z: nat)
    requires z < |ibag|
    ensures ZoneGens(ibag, igen, z).Some? <==> WellFormed(ibag, igen, z)
    ensures WellFormed(ibag, igen, z) ==> ZoneGens(ibag, igen, z) == Some(igen[Begin(ibag, z)..End(ibag, z)])
    ensures ZoneGens(ibag, igen, z).Some? && HasSampleId(ZoneGens(ibag, igen, z).value) <==> IsSampleZone(ibag, igen, z)
  {
  }

  /** The table the search makes of sample zone s. */
  function Combined(ibag: seq<Word16>, igen: seq<Gen>, first: nat, s: nat): GenMap
    requires WellFormed(ibag, igen, s)
  {
    var inherited: GenMap :=
      if first < s && WellFormed(ibag, igen, first) then Inserted(map[], igen[Begin(ibag, first)..End(ibag, first)])
      else map[];
    Inserted(inherited, igen[Begin(ibag, s)..End(ibag, s)])
  }

  /** Behind the first zone the search passes over every zone but the first sample zone. */
  lemma {:induction false} SearchBehindFirst(ibag: seq<Word16>, igen: seq<Gen>, first: nat, end: nat, z: nat,
      global: GenMap, s: nat)
    requires first < z <= s <= end <= |ibag| && forall y :: z <= y < s ==> !IsSampleZone(ibag, igen, y)
    requires s < end ==> IsSampleZone(ibag, igen, s)
    ensures SampleZone(ibag, igen, first, end, z, global)
         == if s < end then Some(Inserted(global, igen[Begin(ibag, s)..End(ibag, s)])) else None
    decreases s - z
  {
    hide ZoneGens, HasSampleId, Inserted, IsSampleZone, WellFormed, Begin, End;
    if z < end {
      ZoneFound(ibag, igen, z);
    }
    if s < end {
      SampleZoneIsWellFormed(ibag, igen, s);
    }
    if z < s {
      SearchBehindFirst(ibag, igen, first, end, z + 1, global, s);
    }
  }

  lemma SampleZoneIsWellFormed(ibag: seq<Word16>, igen: seq<Gen>, z: nat)
    requires IsSampleZone(ibag, igen, z)
    ensures WellFormed(ibag, igen, z) && z < |ibag| && Begin(ibag, z) <= End(ibag, z) <= |igen|
  {
  }

  /** The search takes the first sample zone, over the first zone where that is a global one. */
  lemma SearchFinds(ibag: seq<Word16>, igen: seq<Gen>, first: nat, end: nat, s: nat)
    requires end <= |ibag| && IsFirstSampleZone(ibag, igen, first, end, s)
    ensures SampleZone(ibag, igen, first, end, first, map[]) == Some(Combined(ibag, igen, first, s))
  {
    hide ZoneGens, HasSampleId, Inserted, IsSampleZone, WellFormed, Begin, End;
    SampleZoneIsWellFormed(ibag, igen, s);
    ZoneFound(ibag, igen, first);
    if first < s {
      if WellFormed(ibag, igen, first) {
        SearchBehindFirst(ibag, igen, first, end, first + 1, Inserted(map[], ZoneGens(ibag, igen, first).value), s);
      } else {
        SearchBehindFirst(ibag, igen, first, end, first + 1, map[], s);
      }
    }
  }

  lemma SearchFails(ibag: seq<Word16>, igen: seq<Gen>, first: nat, end: nat)
    requires first < end <= |ibag| && forall z :: first <= z < end ==> !IsSampleZone(ibag, igen, z)
    ensures SampleZone(ibag, igen, first, end, first, map[]) == None
  {
    hide ZoneGens, HasSampleId, Inserted, IsSampleZone, WellFormed;
    ZoneFound(ibag, igen, first);
    if WellFormed(ibag, igen, first) {
      SearchBehindFirst(ibag, igen, first, end, first + 1, Inserted(map[], ZoneGens(ibag, igen, first).value), end);
    }
    SearchBehindFirst(ibag, igen, first, end, first + 1, map[], end);
  }

  // ----- The table

  function Entry(m: GenMap, oper: Word16): Option<Amount> {
    if oper in m then Some(m[oper]) else None
  }

  /** Inserted in order, the last amount of an operator stays; without one the operator keeps what it had. */
  lemma {:induction false} LastInserted(base: GenMap, igen: seq<Gen>, lo: nat, hi: nat, oper: Word16)
    requires lo <= hi <= |igen|
    ensures var m := Inserted(base, igen[lo..hi]);
      if IsLastAmount(igen, lo, hi, oper, None) then Entry(m, oper) == Entry(base, oper)
      else oper in m && IsLastAmount(igen, lo, hi, oper, Some(m[oper]))
    decreases hi - lo
  {
    if lo < hi {
      assert igen[lo..hi][..hi - lo - 1] == igen[lo..hi - 1] && igen[lo..hi][hi - lo - 1] == igen[hi - 1];
      LastInserted(base, igen, lo, hi - 1, oper);
    }
  }

  lemma CombinedAmount(ibag: seq<Word16>, igen: seq<Gen>, first: nat, s: nat, oper: Word16)
    requires WellFormed(ibag, igen, s)
    ensures IsAmount(ibag, igen, first, s, oper, Entry(Combined(ibag, igen, first, s), oper))
  {
    hide Inserted, IsLastAmount;
    if first < s && WellFormed(ibag, igen, first) {
      var (lo, hi) := (Begin(ibag, first), End(ibag, first));
      LastInserted(map[], igen, lo, hi, oper);
      LastInserted(Inserted(map[], igen[lo..hi]), igen, Begin(ibag, s), End(ibag, s), oper);
    } else {
      LastInserted(map[], igen, Begin(ibag, s), End(ibag, s), oper);
    }
  }

  lemma OneLastAmount(igen: seq<Gen>, lo: nat, hi: nat, oper: Word16, a: Option<Amount>, b: Option<Amount>)
    requires lo <= hi <= |igen| && IsLastAmount(igen, lo, hi, oper, a) && IsLastAmount(igen, lo, hi, oper, b)
    ensures a == b
  {
  }

  lemma OneAmount(ibag: seq<Word16>, igen: seq<Gen>, first: nat, s: nat, oper: Word16, a: Option<Amount>,
      b: Option<Amount>)
    requires WellFormed(ibag, igen, s)
    requires IsAmount(ibag, igen, first, s, oper, a) && IsAmount(ibag, igen, first, s, oper, b)
    ensures a == b
  {
    hide IsLastAmount;
    if !IsLastAmount(igen, Begin(ibag, s), End(ibag, s), oper, None) {
      OneLastAmount(igen, Begin(ibag, s), End(ibag, s), oper, a, b);
    } else if first < s && WellFormed(ibag, igen, first) {
      OneLastAmount(igen, Begin(ibag, first), End(ibag, first), oper, a, b);
    }
  }

  // ----- The instrument

  /** An instrument by the amounts of its operators. */
  function Described(name: Bytes, amount: Word16 -> Option<Amount>): Instrument {
    var root := Signed(amount(58), -1);
    Instrument(
      name, Unsigned(amount(53)), Unsigned(amount(54)) == 1 || Unsigned(amount(54)) == 3,
      if 0 <= root <= 127 then Some(root) else None,
      SignedLow(amount(51)), SignedLow(amount(52)), Signed(amount(48), 0),
      VolEnv(Signed(amount(33), -12000), Signed(amount(34), -12000), Signed(amount(35), -12000),
        Signed(amount(36), -12000), Signed(amount(37), 0), Signed(amount(38), -12000)),
      match amount(43) case None => None case Some(b) => Some((b[0], b[1])))
  }

  lemma EntriesDescribe(name: Bytes, m: GenMap)
    ensures InstrumentOf(name, m) == Described(name, oper => Entry(m, oper))
  {
    hide Unsigned, Signed, SignedLow, GenI16, GenU16, ToInt8;
    EntryIsRead(m, 53, 0);
    EntryIsRead(m, 54, 0);
    EntryIsRead(m, 58, -1);
    EntryIsRead(m, 51, 0);
    EntryIsRead(m, 52, 0);
    EntryIsRead(m, 48, 0);
    EntryIsRead(m, 33, -12000);
    EntryIsRead(m, 34, -12000);
    EntryIsRead(m, 35, -12000);
    EntryIsRead(m, 36, -12000);
    EntryIsRead(m, 37, 0);
    EntryIsRead(m, 38, -12000);
  }

  lemma EntryIsRead(m: GenMap, oper: Word16, default: Int16)
    ensures GenI16(m, oper, default) == Signed(Entry(m, oper), default)
    ensures GenU16(m, oper, 0) == Unsigned(Entry(m, oper))
    ensures ToInt8(GenI16(m, oper, 0)) == SignedLow(Entry(m, oper))
  {
  }

  /** An instrument can be read if and only if its bag records lie in order within the table and one of its
      zones is a sample zone. */
  lemma WhenResolved(inst: seq<InstRec>, ibag: seq<Word16>, igen: seq<Gen>, i: nat)
    requires i + 1 < |inst|
    ensures var first, end := inst[i].bag, inst[i + 1].bag;
      Resolved(inst, ibag, igen, i).Ok? <==>
      first < end <= |ibag| && exists z: nat :: first <= z < end && IsSampleZone(ibag, igen, z)
  {
    hide SampleZone, IsSampleZone, Combined, InstrumentOf;
    var first, end := inst[i].bag, inst[i + 1].bag;
    if first < end <= |ibag| {
      if z: nat :| first <= z < end && IsSampleZone(ibag, igen, z) {
        var s := FirstSampleZone(ibag, igen, first, end, z);
        SearchFinds(ibag, igen, first, end, s);
      } else {
        SearchFails(ibag, igen, first, end);
      }
    }
  }

  lemma {:induction false} FirstSampleZone(ibag: seq<Word16>, igen: seq<Gen>, first: nat, end: nat, z: nat)
    returns (s: nat)
    requires first <= z < end && IsSampleZone(ibag, igen, z)
    ensures IsFirstSampleZone(ibag, igen, first, end, s)
    decreases z
  {
    hide IsSampleZone;
    if y :| first <= y < z && IsSampleZone(ibag, igen, y) {
      s := FirstSampleZone(ibag, igen, first, end, y);
    } else {
      s := z;
    }
  }

  /** What an instrument is, for any tables: each field is the amount of its operator, or the default, and the
      amounts are those of the first sample zone, with a well-formed first zone in front of it supplying what
      it leaves out. Malformed zones and all further zones say nothing. */
  lemma ResolvedByIndices(inst: seq<InstRec>, ibag: seq<Word16>, igen: seq<Gen>, i: nat, s: nat,
      amount: Word16 -> Option<Amount>)
    requires i + 1 < |inst| && inst[i + 1].bag <= |ibag|
    requires IsFirstSampleZone(ibag, igen, inst[i].bag, inst[i + 1].bag, s)
    requires forall oper: Word16 :: IsAmount(ibag, igen, inst[i].bag, s, oper, amount(oper))
    ensures Resolved(inst, ibag, igen, i) == Ok(Described(inst[i].name, amount))
  {
    hide SampleZone, IsAmount, Combined, InstrumentOf, Described, Entry;
    var first := inst[i].bag;
    SearchFinds(ibag, igen, first, inst[i + 1].bag, s);
    var m := Combined(ibag, igen, first, s);
    EntriesDescribe(inst[i].name, m);
    forall oper: Word16 ensures amount(oper) == Entry(m, oper) {
      CombinedAmount(ibag, igen, first, s, oper);
      OneAmount(ibag, igen, first, s, oper, amount(oper), Entry(m, oper));
    }
    SameDescription(inst[i].name, amount, oper => Entry(m, oper));
  }

  lemma SameDescription(name: Bytes, a: Word16 -> Option<Amount>, b: Word16 -> Option<Amount>)
    requires forall oper: Word16 :: a(oper) == b(oper)
    ensures Described(name, a) == Described(name, b)
  {
    hide Unsigned, Signed, SignedLow;
  }
}
