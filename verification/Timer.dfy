/** The DIV/TIMA timer: `timer.rs`. */
module Timer {
  import opened Words

  datatype State = State(div: Word16, tima: Byte, tma: Byte, tac: nat, reloadIn: nat, reloaded: bool)
  {
    predicate Valid() {
      tac < 8 && reloadIn <= 4
    }

    predicate Enabled() {
      tac / 4 % 2 == 1
    }

    /** The DIV bit TAC selects: bit 9, 3, 5 or 7. */
    predicate SelectedBit() {
      match tac % 4
      case 0 => div / 512 % 2 == 1
      case 1 => div / 8 % 2 == 1
      case 2 => div / 32 % 2 == 1
      case _ => div / 128 % 2 == 1
    }

    /** The edge detector's input. */
    predicate MuxOut() {
      Enabled() && SelectedBit()
    }

    function ClockTima(): (r: State)
      requires Valid()
      ensures r.Valid()
    {
      var t := (tima + 1) % 0x100;
      this.(tima := t, reloadIn := if t == 0 then 4 else reloadIn)
    }

    /** This state, reached from `before`: a falling edge of the detector's input clocks TIMA. */
    function DrivenFrom(before: State): (r: State)
      requires Valid()
      ensures r.Valid()
    {
      if before.MuxOut() && !MuxOut() then ClockTima() else this
    }

    /** The pending reload one T-cycle on, and whether it fires. */
    function Pipeline(): (r: (State, bool))
      requires Valid()
      ensures r.0.Valid()
    {
      if reloadIn == 0 then (this, false)
      else if reloadIn > 1 then (this.(reloadIn := reloadIn - 1), false)
      else (this.(reloadIn := 0, tima := tma, reloaded := true), true)
    }

    /** One T-cycle: the next state, and whether the timer interrupt is requested. */
    function Substep(): (r: (State, bool))
      requires Valid()
      ensures r.0.Valid()
    {
      hide State.MuxOut;
      var (p, fires) := Pipeline();
      (p.(div := (p.div + 1) % 0x1_0000).DrivenFrom(p), fires)
    }

    /** One M-cycle: the next state, whether the interrupt is requested, and whether that happened
        in the second half. */
    function Tick(): (r: (State, bool, bool))
      requires Valid()
      ensures r.0.Valid()
    {
      hide State.Substep;
      var (s1, f0) := this.(reloaded := false).Substep();
      var (s2, f1) := s1.Substep();
      var (s3, f2) := s2.Substep();
      var (s4, f3) := s3.Substep();
      (s4, f0 || f1 || f2 || f3, f2 || f3)
    }

    function Write(addr: Word16, value: Byte): (r: State)
      requires Valid()
      ensures r.Valid()
    {
      hide State.MuxOut;
      match addr
      case 0xFF04 => this.(div := 0).DrivenFrom(this)
      case 0xFF05 => if reloaded then this else this.(tima := value, reloadIn := 0)
      case 0xFF06 => this.(tma := value, tima := if reloaded then value else tima)
      case 0xFF07 => this.(tac := value % 8).DrivenFrom(this)
      case _ => this
    }
  }

  class Timer {
    var div: Word16
    var tima: Byte
    var tma: Byte
    var tac: nat
    var reloadIn: nat
    var reloaded: bool

    function Value(): State
      reads this
    {
      State(div, tima, tma, tac, reloadIn, reloaded)
    }

    ghost predicate Valid()
      reads this
    {
      Value().Valid()
    }

    constructor ()
      ensures Valid() && Value() == State(0, 0, 0, 0, 0, false)
    {
      div, tima, tma, tac, reloadIn, reloaded := 0, 0, 0, 0, 0, false;
    }

    function MuxOut(): bool
      reads this
    {
      Value().MuxOut()
    }

    method ClockTima()
      requires Valid()
      modifies this`tima, this`reloadIn
      ensures Valid() && Value() == old(Value()).ClockTima()
    {
      tima := (tima + 1) % 0x100;
      if tima == 0 {
        reloadIn := 4;
      }
    }

    method TickSubstep(substep: nat) returns (iff: bool, late: bool)
      requires Valid()
      modifies this
      ensures Valid() && (Value(), iff) == old(Value()).Substep() && late == (iff && substep >= 2)
    {
      hide State.MuxOut;
      iff, late := false, false;
      if reloadIn > 0 {
        reloadIn := reloadIn - 1;
        if reloadIn == 0 {
          tima := tma;
          reloaded := true;
          iff := true;
          late := substep >= 2;
        }
      }
      var before := MuxOut();
      div := (div + 1) % 0x1_0000;
      if before && !MuxOut() {
        ClockTima();
      }
    }

    method Tick() returns (iff: bool, late: bool)
      requires Valid()
      modifies this
      ensures Valid() && (Value(), iff, late) == old(Value()).Tick()
    {
      hide State.Substep;
      reloaded := false;
      iff, late := false, false;
      ghost var s0 := Value();
      var i, l := TickSubstep(0);
      iff, late := iff || i, late || l;
      i, l := TickSubstep(1);
      iff, late := iff || i, late || l;
      i, l := TickSubstep(2);
      iff, late := iff || i, late || l;
      i, l := TickSubstep(3);
      iff, late := iff || i, late || l;
    }

    method Write(addr: Word16, value: Byte)
      requires Valid()
      modifies this
      ensures Valid() && Value() == old(Value()).Write(addr, value)
    {
      hide State.MuxOut;
      if addr == 0xFF04 {
        var before := MuxOut();
        div := 0;
        if before && !MuxOut() {
          ClockTima();
        }
      } else if addr == 0xFF05 {
        if !reloaded {
          tima := value;
          reloadIn := 0;
        }
      } else if addr == 0xFF06 {
        tma := value;
        if reloaded {
          tima := value;
        }
      } else if addr == 0xFF07 {
        var before := MuxOut();
        tac := value % 8;
        if before && !MuxOut() {
          ClockTima();
        }
      }
    }
  }

  // ----- M-cycle alignment

  /** Whole M-cycles of DIV, and a reload whole M-cycles away. */
  predicate Aligned(s: State) {
    s.Valid() && s.div % 4 == 0 && (s.reloadIn == 0 || s.reloadIn == 4)
  }

  /** A falling edge needs DIV to reach a multiple of sixteen. */
  lemma NoEdgeInside(s: State, p: State)
    requires s.Valid() && p.Valid() && p.tac == s.tac && p.div == s.div + 1 && s.div % 4 != 3
    ensures p.DrivenFrom(s) == p
  {
    Same8(s.div);
    Same32(s.div);
    Same128(s.div);
    Same512(s.div);
  }

  lemma Same8(d: nat)
    requires d % 4 != 3
    ensures (d + 1) / 8 == d / 8
  {
  }

  lemma Same32(d: nat)
    requires d % 4 != 3
    ensures (d + 1) / 32 == d / 32
  {
  }

  lemma Same128(d: nat)
    requires d % 4 != 3
    ensures (d + 1) / 128 == d / 128
  {
  }

  lemma Same512(d: nat)
    requires d % 4 != 3
    ensures (d + 1) / 512 == d / 512
  {
  }

  /** The first three substeps only count. */
  lemma QuietSubstep(s: State)
    requires s.Valid() && s.div % 4 != 3 && s.reloadIn != 1
    ensures s.Substep() == (s.(div := s.div + 1, reloadIn := Max(s.reloadIn - 1, 0)), false)
  {
    hide State.DrivenFrom;
    NoEdgeInside(s.Pipeline().0, s.Pipeline().0.(div := s.div + 1));
  }

  /** In an aligned M-cycle a pending reload fires on the last substep and nowhere else; the
      interrupt is late, and TIMA counts as reloaded in exactly that cycle. */
  lemma TickKeepsAlignment(s: State)
    requires Aligned(s)
    ensures var (t, iff, late) := s.Tick();
      Aligned(t) && iff == (s.reloadIn == 4) && late == iff && t.reloaded == iff
    ensures var s0 := s.(reloaded := false);
      && !s0.Substep().1 && !s0.Substep().0.Substep().1 && !s0.Substep().0.Substep().0.Substep().1
  {
    var s0 := s.(reloaded := false);
    var s3 := s0.(div := s.div + 3, reloadIn := Max(s.reloadIn - 3, 0));
    hide State.Substep;
    QuietSubstep(s0);
    QuietSubstep(s0.Substep().0);
    QuietSubstep(s0.Substep().0.Substep().0);
    assert s0.Substep().0.Substep().0.Substep().0 == s3;
    LastSubstep(s3);
  }

  lemma LastSubstep(s: State)
    requires s.Valid() && s.div % 4 == 3 && s.reloadIn <= 1 && !s.reloaded
    ensures var (t, iff) := s.Substep();
      Aligned(t) && iff == (s.reloadIn == 1) && t.reloaded == iff
  {
    hide State.MuxOut;
  }

  lemma WriteKeepsAlignment(s: State, addr: Word16, value: Byte)
    requires Aligned(s)
    ensures Aligned(s.Write(addr, value)) && s.Write(addr, value).reloaded == s.reloaded
  {
    hide State.MuxOut;
  }

  datatype Event = TickEvent | WriteEvent(addr: Word16, value: Byte)

  /** The state after the first n events. */
  function Run(s: State, events: seq<Event>, n: nat): (r: State)
    requires s.Valid() && n <= |events|
    ensures r.Valid()
  {
    hide State.Tick, State.Write;
    if n == 0 then s
    else
      match events[n - 1]
      case TickEvent => Run(s, events, n - 1).Tick().0
      case WriteEvent(addr, value) => Run(s, events, n - 1).Write(addr, value)
  }

  /** Alignment holds at every M-cycle boundary of every run, whatever is written in between; so
      every interrupt of the run is late, and comes four T-cycles behind its overflow. */
  lemma {:induction false} RunStaysAligned(s: State, events: seq<Event>, n: nat)
    requires Aligned(s) && n <= |events|
    ensures Aligned(Run(s, events, n))
    ensures n < |events| && events[n].TickEvent? ==>
      var r := Run(s, events, n);
      var (t, iff, late) := r.Tick();
      iff == (r.reloadIn == 4) && late == iff && t.reloaded == iff
  {
    assert s.Valid();
    hide State.Tick, State.Write, Aligned;
    if n > 0 {
      RunStaysAligned(s, events, n - 1);
      match events[n - 1]
      case TickEvent => TickKeepsAlignment(Run(s, events, n - 1));
      case WriteEvent(addr, value) => WriteKeepsAlignment(Run(s, events, n - 1), addr, value);
    }
    TickKeepsAlignment(Run(s, events, n));
  }
}
