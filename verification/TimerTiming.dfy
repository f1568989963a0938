/** Closed forms for the timer of `timer.rs` while nothing is written: how often TIMA is clocked, and
    when the interrupts of a repeating overflow come. */
module TimerTiming {
  import opened Words
  import opened Timer

  /** T-cycles between two clocks of TIMA. */
  function Period(tac: nat): (p: nat)
    ensures p >= 16
  {
    match tac % 4 case 0 => 1024 case 1 => 16 case 2 => 64 case _ => 256
  }

  /** T-cycles since DIV was last a multiple of the period. */
  function Phase(tac: nat, x: nat): (r: nat)
    ensures r < Period(tac)
  {
    match tac % 4 case 0 => x % 1024 case 1 => x % 16 case 2 => x % 64 case _ => x % 256
  }

  /** Whole periods in x T-cycles: the floor of x over the period. */
  function Periods(tac: nat, x: nat): nat {
    match tac % 4 case 0 => x / 1024 case 1 => x / 16 case 2 => x / 64 case _ => x / 256
  }

  function Counted(s: State): State {
    s.(div := (s.div + 1) % 0x1_0000)
  }

  /** The next T-cycle clocks TIMA. */
  predicate Edge(s: State) {
    s.MuxOut() && !Counted(s).MuxOut()
  }

  lemma SubstepClocksOnEdge(s: State)
    requires s.Valid()
    ensures s.Substep().0 == if Edge(s) then Counted(s.Pipeline().0).ClockTima() else Counted(s.Pipeline().0)
  {
    hide State.SelectedBit;
    assert s.SelectedBit() == s.Pipeline().0.SelectedBit() &&
      Counted(s).SelectedBit() == Counted(s.Pipeline().0).SelectedBit() by {
      SameBit(s, s.Pipeline().0);
      SameBit(Counted(s), Counted(s.Pipeline().0));
    }
  }

  lemma SameBit(s: State, t: State)
    requires s.tac == t.tac && s.div == t.div
    ensures s.SelectedBit() == t.SelectedBit()
  {
  }

  lemma Step1024(x: nat)
    ensures (x + 1) % 1024 == if x % 1024 == 1023 then 0 else x % 1024 + 1
    ensures (x + 1) / 1024 == x / 1024 + if x % 1024 == 1023 then 1 else 0
  {
  }

  lemma Turns1024(x: int, y: int, k: int)
    requires x == y + 1024 * k
    ensures x % 1024 == y % 1024
  {
  }

  lemma Wrap1024(x: nat)
    ensures x % 0x1_0000 % 1024 == x % 1024
  {
    Turns1024(x, x % 0x1_0000, 64 * (x / 0x1_0000));
  }

  lemma Half1024(x: nat)
    ensures x / 512 % 2 == 1 <==> x % 1024 >= 512
  {
    assert x == 1024 * (x / 1024) + x % 1024;
  }

  lemma Step16(x: nat)
    ensures (x + 1) % 16 == if x % 16 == 15 then 0 else x % 16 + 1
    ensures (x + 1) / 16 == x / 16 + if x % 16 == 15 then 1 else 0
  {
  }

  lemma Turns16(x: int, y: int, k: int)
    requires x == y + 16 * k
    ensures x % 16 == y % 16
  {
  }

  lemma Wrap16(x: nat)
    ensures x % 0x1_0000 % 16 == x % 16
  {
    Turns16(x, x % 0x1_0000, 4096 * (x / 0x1_0000));
  }

  lemma Half16(x: nat)
    ensures x / 8 % 2 == 1 <==> x % 16 >= 8
  {
    assert x == 16 * (x / 16) + x % 16;
  }

  lemma Step64(x: nat)
    ensures (x + 1) % 64 == if x % 64 == 63 then 0 else x % 64 + 1
    ensures (x + 1) / 64 == x / 64 + if x % 64 == 63 then 1 else 0
  {
  }

  lemma Turns64(x: int, y: int, k: int)
    requires x == y + 64 * k
    ensures x % 64 == y % 64
  {
  }

  lemma Wrap64(x: nat)
    ensures x % 0x1_0000 % 64 == x % 64
  {
    Turns64(x, x % 0x1_0000, 1024 * (x / 0x1_0000));
  }

  lemma Half64(x: nat)
    ensures x / 32 % 2 == 1 <==> x % 64 >= 32
  {
    assert x == 64 * (x / 64) + x % 64;
  }

  lemma Step256(x: nat)
    ensures (x + 1) % 256 == if x % 256 == 255 then 0 else x % 256 + 1
    ensures (x + 1) / 256 == x / 256 + if x % 256 == 255 then 1 else 0
  {
  }

  lemma Turns256(x: int, y: int, k: int)
    requires x == y + 256 * k
    ensures x % 256 == y % 256
  {
  }

  lemma Wrap256(x: nat)
    ensures x % 0x1_0000 % 256 == x % 256
  {
    Turns256(x, x % 0x1_0000, 256 * (x / 0x1_0000));
  }

  lemma Half256(x: nat)
    ensures x / 128 % 2 == 1 <==> x % 256 >= 128
  {
    assert x == 256 * (x / 256) + x % 256;
  }

  lemma PhaseSteps(tac: nat, x: nat)
    ensures Phase(tac, x + 1) == if Phase(tac, x) + 1 == Period(tac) then 0 else Phase(tac, x) + 1
    ensures Periods(tac, x + 1) == Periods(tac, x) + if Phase(tac, x) + 1 == Period(tac) then 1 else 0
  {
    match tac % 4
    case 0 => Step1024(x);
    case 1 => Step16(x);
    case 2 => Step64(x);
    case _ => Step256(x);
  }

  /** The counter wraps at a whole number of periods. */
  lemma PhaseWraps(tac: nat, x: nat)
    ensures Phase(tac, x % 0x1_0000) == Phase(tac, x)
  {
    match tac % 4
    case 0 => Wrap1024(x);
    case 1 => Wrap16(x);
    case 2 => Wrap64(x);
    case _ => Wrap256(x);
  }

  /** The selected bit is set in the second half of its period. */
  lemma BitIsHalf(s: State)
    ensures s.SelectedBit() <==> 2 * Phase(s.tac, s.div) >= Period(s.tac)
  {
    match s.tac % 4
    case 0 => Half1024(s.div);
    case 1 => Half16(s.div);
    case 2 => Half64(s.div);
    case _ => Half256(s.div);
  }

  lemma EdgeEndsPeriod(s: State)
    requires s.Valid()
    ensures Edge(s) <==> s.Enabled() && Phase(s.tac, s.div) + 1 == Period(s.tac)
  {
    hide State.SelectedBit, Phase, Period;
    BitIsHalf(s);
    BitIsHalf(Counted(s));
    PhaseSteps(s.tac, s.div);
    PhaseWraps(s.tac, s.div + 1);
    PeriodIsEven(s.tac);
  }

  lemma PeriodIsEven(tac: nat)
    ensures Period(tac) % 2 == 0 && Period(tac) >= 16
  {
  }

  // ----- TIMA clocks

  /** The state after n T-cycles. */
  function After(s: State, n: nat): (r: State)
    requires s.Valid()
    ensures r.Valid()
  {
    hide State.Substep;
    if n == 0 then s else After(s, n - 1).Substep().0
  }

  /** How often TIMA is clocked in n T-cycles. */
  function Clocks(s: State, n: nat): nat
    requires s.Valid()
  {
    if n == 0 then 0 else Clocks(s, n - 1) + if Edge(After(s, n - 1)) then 1 else 0
  }

  lemma SubstepCounts(s: State)
    requires s.Valid()
    ensures s.Substep().0.div == (s.div + 1) % 0x1_0000 && s.Substep().0.tac == s.tac && s.Substep().0.tma == s.tma
  {
    hide State.MuxOut;
  }

  lemma {:induction false} AfterCounts(s: State, n: nat)
    requires s.Valid()
    ensures After(s, n).div == (s.div + n) % 0x1_0000 && After(s, n).tac == s.tac && After(s, n).tma == s.tma
  {
    hide State.Substep;
    if n > 0 {
      AfterCounts(s, n - 1);
      SubstepCounts(After(s, n - 1));
      var q := (s.div + (n - 1)) / 0x1_0000;
      assert s.div + n == 0x1_0000 * q + ((s.div + (n - 1)) % 0x1_0000 + 1);
    }
  }

  /** Over any n T-cycles TIMA is clocked floor((d + n) / P) - floor(d / P) times, through any number
      of wraps of the counter; a stopped timer never clocks it. */
  lemma {:induction false} ClocksAreFloors(s: State, n: nat)
    requires s.Valid()
    ensures Clocks(s, n) == if s.Enabled() then Periods(s.tac, s.div + n) - Periods(s.tac, s.div) else 0
  {
    hide State.Substep, Edge, Phase, Periods, Period;
    if n > 0 {
      ClocksAreFloors(s, n - 1);
      AfterCounts(s, n - 1);
      EdgeEndsPeriod(After(s, n - 1));
      PhaseWraps(s.tac, s.div + (n - 1));
      PhaseSteps(s.tac, s.div + (n - 1));
    }
  }

  // ----- Interrupt times

  /** TIMA has just overflowed on an edge of DIV. */
  predicate JustOverflowed(s: State) {
    s.Valid() && s.Enabled() && s.tima == 0 && s.reloadIn == 4 && Phase(s.tac, s.div) == 0
  }

  /** That is how an edge with TIMA at 0xFF leaves it. */
  lemma OverflowOnEdge(s: State)
    requires s.Valid() && Edge(s) && s.Pipeline().0.tima == 0xFF
    ensures JustOverflowed(s.Substep().0)
  {
    hide State.SelectedBit, Phase;
    SubstepClocksOnEdge(s);
    EdgeEndsPeriod(s);
    PhaseSteps(s.tac, s.div);
    PhaseWraps(s.tac, s.div + 1);
  }

  /** A place in the run behind an overflow: k overflows on, q clocks on, r T-cycles on. */
  datatype Place = Place(k: nat, q: nat, r: nat)

  ghost predicate At(s: State, t: State, p: Place) {
    && t.Valid() && t.tac == s.tac && t.tma == s.tma
    && Phase(t.tac, t.div) == p.r && p.q < 0x100 - s.tma
    && t.tima == (if p.q == 0 && p.r < 4 then 0 else s.tma + p.q)
    && t.reloadIn == (if p.q == 0 && p.r < 4 then 4 - p.r else 0)
  }

  function Next(s: State, p: Place): Place {
    if p.r + 1 < Period(s.tac) then Place(p.k, p.q, p.r + 1)
    else if p.q + 1 < 0x100 - s.tma then Place(p.k, p.q + 1, 0)
    else Place(p.k + 1, 0, 0)
  }

  lemma PlaceSteps(s: State, t: State, p: Place)
    requires s.Valid() && s.Enabled() && At(s, t, p)
    ensures At(s, t.Substep().0, Next(s, p))
    ensures t.Substep().1 == (p.q == 0 && p.r == 3)
  {
    hide State.SelectedBit, State.MuxOut, Phase, Edge;
    SubstepClocksOnEdge(t);
    EdgeEndsPeriod(t);
    PhaseSteps(t.tac, t.div);
    PhaseWraps(t.tac, t.div + 1);
  }

  function ClocksTo(s: State, p: Place): nat {
    p.k * (0x100 - s.tma) + p.q
  }

  /** The T-cycles up to a place. */
  function Time(s: State, p: Place): nat {
    var clocks := ClocksTo(s, p);
    match s.tac % 4
    case 0 => clocks * 1024 + p.r
    case 1 => clocks * 16 + p.r
    case 2 => clocks * 64 + p.r
    case _ => clocks * 256 + p.r
  }

  function PlaceAt(s: State, n: nat): Place {
    if n == 0 then Place(0, 0, 0) else Next(s, PlaceAt(s, n - 1))
  }

  lemma ClocksToSteps(s: State, p: Place)
    requires p.q < 0x100 - s.tma
    ensures ClocksTo(s, if p.q + 1 < 0x100 - s.tma then Place(p.k, p.q + 1, 0) else Place(p.k + 1, 0, 0))
         == ClocksTo(s, p) + 1
    ensures p.r > 0 ==> ClocksTo(s, p) == ClocksTo(s, Place(p.k, p.q, p.r - 1))
  {
    var c := 0x100 - s.tma;
    assert (p.k + 1) * c == p.k * c + c;
  }

  lemma TimeSteps(s: State, p: Place)
    requires p.q < 0x100 - s.tma && p.r < Period(s.tac)
    ensures Time(s, Next(s, p)) == Time(s, p) + 1
  {
    ClocksToSteps(s, p);
    ClocksToSteps(s, Place(p.k, p.q, p.r + 1));
    hide ClocksTo;
  }

  lemma {:induction false} PlaceReached(s: State, n: nat)
    requires JustOverflowed(s)
    ensures At(s, After(s, n), PlaceAt(s, n)) && Time(s, PlaceAt(s, n)) == n
  {
    if n == 0 {
    } else {
      PlaceReached(s, n - 1);
      hide State.Substep, Time, Next;
      PlaceSteps(s, After(s, n - 1), PlaceAt(s, n - 1));
      TimeSteps(s, PlaceAt(s, n - 1));
    }
  }

  /** T-cycles from the overflow to interrupt number k. */
  function Due(s: State, k: nat): nat {
    4 + k * ((0x100 - s.tma) * Period(s.tac))
  }

  lemma DueIsTime(s: State, k: nat)
    ensures Due(s, k) == Time(s, Place(k, 0, 3)) + 1
  {
    var c := 0x100 - s.tma;
    match s.tac % 4
    case 0 => assert k * (c * 1024) == (k * c) * 1024;
    case 1 => assert k * (c * 16) == (k * c) * 16;
    case 2 => assert k * (c * 64) == (k * c) * 64;
    case _ => assert k * (c * 256) == (k * c) * 256;
  }

  lemma {:induction false} MulGap(k: nat, j: nat, c: nat)
    requires k < j
    ensures j * c >= k * c + c
  {
    assert j * c == (j - 1) * c + c;
    if k < j - 1 {
      MulGap(k, j - 1, c);
    }
  }

  lemma Between(k: nat, q: nat, j: nat, c: nat)
    requires q < c && k * c + q == j * c
    ensures k == j && q == 0
  {
    if k < j {
      MulGap(k, j, c);
    } else if k > j {
      MulGap(j, k, c);
    }
  }

  lemma TimesDiffer(s: State, p: Place, k: nat)
    requires p.q < 0x100 - s.tma && p.r < Period(s.tac) && Time(s, p) == Time(s, Place(k, 0, 3))
    ensures p == Place(k, 0, 3)
  {
    assert ClocksTo(s, p) == ClocksTo(s, Place(k, 0, 3)) by {
      hide ClocksTo;
    }
    Between(p.k, p.q, k, 0x100 - s.tma);
  }

  /** Behind an overflow, while nothing is written, T-cycle n raises the interrupt if and only if
      n is 4 + k * (256 - TMA) * P for some k. */
  lemma InterruptTimes(s: State, n: nat)
    requires JustOverflowed(s) && n > 0
    ensures After(s, n - 1).Substep().1 <==> exists k: nat :: n == Due(s, k)
  {
    assert s.Valid() && s.Enabled();
    hide State.Substep, JustOverflowed, Time, Due, Next, After, PlaceAt;
    PlaceReached(s, n - 1);
    var p, t := PlaceAt(s, n - 1), After(s, n - 1);
    PlaceSteps(s, t, p);
    if p.q == 0 && p.r == 3 {
      DueIsTime(s, p.k);
      assert n == Due(s, p.k);
    } else {
      forall k: nat ensures n != Due(s, k) {
        DueIsTime(s, k);
        if n == Due(s, k) {
          TimesDiffer(s, p, k);
        }
      }
    }
  }

  // ----- M-cycles are T-cycles

  /** The state after m M-cycles. */
  function Ticks(s: State, m: nat): (r: State)
    requires s.Valid()
    ensures r.Valid()
  {
    hide State.Tick;
    if m == 0 then s else Ticks(s, m - 1).Tick().0
  }

  /** The same but for the reloaded latch. */
  predicate Same(t: State, a: State) {
    t.(reloaded := false) == a.(reloaded := false)
  }

  lemma SubstepKeepsSame(t: State, a: State)
    requires t.Valid() && a.Valid() && Same(t, a)
    ensures Same(t.Substep().0, a.Substep().0) && t.Substep().1 == a.Substep().1
  {
    hide State.SelectedBit;
    SameBit(t, a);
    SubstepClocksOnEdge(t);
    SubstepClocksOnEdge(a);
    SameBit(Counted(t), Counted(a));
  }

  lemma TickIsFourSubsteps(t: State, a: State)
    requires t.Valid() && a.Valid() && Same(t, a)
    ensures Same(t.Tick().0, a.Substep().0.Substep().0.Substep().0.Substep().0)
  {
    hide State.Substep, Same;
    var t0 := t.(reloaded := false);
    assert Same(t0, a) by {
      Latchless(t, a);
    }
    SubstepKeepsSame(t0, a);
    SubstepKeepsSame(t0.Substep().0, a.Substep().0);
    SubstepKeepsSame(t0.Substep().0.Substep().0, a.Substep().0.Substep().0);
    SubstepKeepsSame(t0.Substep().0.Substep().0.Substep().0, a.Substep().0.Substep().0.Substep().0);
  }

  lemma Latchless(t: State, a: State)
    requires Same(t, a)
    ensures Same(t.(reloaded := false), a)
  {
  }

  lemma AfterFour(s: State, n: nat, a: State)
    requires s.Valid() && a == After(s, n)
    ensures After(s, n + 4) == a.Substep().0.Substep().0.Substep().0.Substep().0
  {
    hide State.Substep;
    assert After(s, n + 1) == a.Substep().0;
    assert After(s, n + 2) == After(s, n + 1).Substep().0;
    assert After(s, n + 3) == After(s, n + 2).Substep().0;
  }

  /** Ticking by M-cycles reaches, but for the reloaded latch, what single T-cycles reach. */
  lemma {:induction false} TicksAreSubsteps(s: State, m: nat)
    requires s.Valid()
    ensures Same(Ticks(s, m), After(s, 4 * m))
  {
    hide State.Substep, State.Tick;
    if m > 0 {
      TicksAreSubsteps(s, m - 1);
      var t, a := Ticks(s, m - 1), After(s, 4 * (m - 1));
      TickIsFourSubsteps(t, a);
      AfterFour(s, 4 * (m - 1), a);
      assert Ticks(s, m) == t.Tick().0;
      assert 4 * (m - 1) + 4 == 4 * m;
    }
  }
}
