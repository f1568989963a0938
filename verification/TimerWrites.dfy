/** What register writes do to the timer of `timer.rs`, by the phase of the divider. */
module TimerWrites {
  import opened Words
  import opened Timer
  import opened TimerTiming

  /** The detector's input is high: the timer is on, and DIV is in the second half of its period. */
  predicate High(s: State) {
    s.tac >= 4 && 2 * Phase(s.tac, s.div) >= Period(s.tac)
  }

  lemma InputIsHigh(s: State)
    requires s.Valid()
    ensures s.MuxOut() <==> High(s)
  {
    hide Phase, Period, State.SelectedBit;
    BitIsHalf(s);
  }

  /** TIMA counted once; from 255 it goes to 0, and a reload is due in four T-cycles. */
  function Incremented(s: State): State {
    if s.tima == 255 then s.(tima := 0, reloadIn := 4) else s.(tima := s.tima + 1)
  }

  /** A DIV write counts TIMA when the input was high. A TAC write does when it takes the input from high to
      low. A TIMA write takes effect and cancels a pending reload, but is lost in the cycle of a reload; a
      TMA write goes on into TIMA in that cycle. */
  lemma RegisterWrites(s: State, value: Byte, addr: Word16)
    requires s.Valid()
    ensures s.Write(0xFF04, value) == (if High(s) then Incremented(s) else s).(div := 0)
    ensures s.Write(0xFF05, value) == if s.reloaded then s else s.(tima := value, reloadIn := 0)
    ensures s.Write(0xFF06, value) == if s.reloaded then s.(tma := value, tima := value) else s.(tma := value)
    ensures s.Write(0xFF07, value)
         == (if High(s) && !High(s.(tac := value % 8)) then Incremented(s) else s).(tac := value % 8)
    ensures addr < 0xFF04 || addr > 0xFF07 ==> s.Write(addr, value) == s
  {
    InputIsHigh(s);
    InputIsHigh(s.(div := 0));
    InputIsHigh(s.(tac := value % 8));
    assert !High(s.(div := 0));
    hide State.MuxOut, High;
  }

  /** Behind an overflow the interrupt comes in the next M-cycle, unless TIMA is written before; then there is
      none, and TIMA counts on from what was written. */
  lemma TimaWriteCancels(s: State, value: Byte)
    requires Aligned(s) && s.reloadIn == 4 && !s.reloaded
    ensures s.Tick().1 && !s.Write(0xFF05, value).Tick().1
    ensures var t := s.Write(0xFF05, value).Tick().0;
      t.tima == (if Phase(s.tac, s.div) + 4 == Period(s.tac) && s.tac >= 4 then (value + 1) % 0x100 else value)
  {
    TickKeepsAlignment(s);
    var w := s.(tima := value, reloadIn := 0);
    TickKeepsAlignment(w);
    CountedByTick(w);
    hide State.Tick, Phase, Period;
  }

  lemma CountedByTick(w: State)
    requires Aligned(w) && w.reloadIn == 0
    ensures w.Tick().0.tima
         == if Phase(w.tac, w.div) + 4 == Period(w.tac) && w.tac >= 4 then (w.tima + 1) % 0x100 else w.tima
  {
    hide State.Substep, Phase, Period;
    var s0 := w.(reloaded := false);
    QuietSubstep(s0);
    QuietSubstep(s0.(div := w.div + 1));
    QuietSubstep(s0.(div := w.div + 2));
    CountedBySubstep(s0.(div := w.div + 3));
    ThreeOn(w.tac, w.div);
  }

  lemma CountedBySubstep(s: State)
    requires s.Valid() && s.reloadIn == 0
    ensures s.Substep().0.tima
         == if Phase(s.tac, s.div) + 1 == Period(s.tac) && s.tac >= 4 then (s.tima + 1) % 0x100 else s.tima
  {
    hide State.Substep, Phase, Period, Edge;
    SubstepClocksOnEdge(s);
    EdgeEndsPeriod(s);
  }

  lemma ThreeOn(tac: nat, x: nat)
    requires x % 4 == 0
    ensures Phase(tac, x + 3) == Phase(tac, x) + 3
  {
    WholeCycles(tac, x);
    PhaseSteps(tac, x);
    PhaseSteps(tac, x + 1);
    PhaseSteps(tac, x + 2);
    hide Phase, Periods;
  }

  lemma WholeCycles(tac: nat, x: nat)
    requires x % 4 == 0
    ensures Phase(tac, x) % 4 == 0 && Phase(tac, x) + 4 <= Period(tac)
  {
    match tac % 4
    case 0 => FourDivides(x, x % 1024, 256 * (x / 1024));
    case 1 => FourDivides(x, x % 16, 4 * (x / 16));
    case 2 => FourDivides(x, x % 64, 16 * (x / 64));
    case _ => FourDivides(x, x % 256, 64 * (x / 256));
  }

  lemma FourDivides(x: nat, r: nat, k: nat)
    requires x % 4 == 0 && x == 4 * k + r
    ensures r % 4 == 0
  {
    assert r == 4 * (x / 4 - k);
  }

  /** In the M-cycle of the reload a TIMA write is lost, and a TMA write is in TIMA at once. */
  lemma WritesInReloadCycle(s: State, value: Byte)
    requires Aligned(s) && s.reloadIn == 4
    ensures var t := s.Tick().0;
      && t.Write(0xFF05, value) == t
      && t.Write(0xFF06, value).tima == value && t.Write(0xFF06, value).tma == value
  {
    TickKeepsAlignment(s);
    hide State.Tick;
  }
}
