/** The clocking pump of `flush.rs`: batching, the vblank edges, and the chips' clock targets. */
module Flush {
  import opened Words

  const FLUSH_CHUNK := 4096
  const GB_FRAME_CYCLES := 70_224
  const SNES_LINES := 262
  const SNES_VBLANK_LINE := 225
  const SPC_NUM := 125
  const SPC_DEN := 512
  const CPU_NUM := 5
  const CPU_DEN := 8
  const MSU_RATE := 44_100
  const GB_CLOCK_HZ := 4_194_304

  /** What the pump does to the guest's shadows: vblank begins (with or without an NMI, and with or
      without an autopoll) or ends, and the joypad shadow is published. */
  datatype Effect = VblankBegins(nmi: bool, autopoll: bool) | VblankEnds | Joy1Published

  /** A chip's clock: its target, and the fraction carried. */
  datatype ChipClock = ChipClock(target: nat, acc: nat)
  {
    function Advance(span: nat, num: nat, den: nat): ChipClock
      requires den > 0
    {
      var a := acc + span * num;
      ChipClock(target + a / den, a % den)
    }
  }

  datatype State = State(
    pendingGb: nat, gbPos: nat, inVblank: bool, joyBusy: bool, nmitimen: Byte,
    spc: ChipClock, cpu: ChipClock, hasMsu: bool, msu: ChipClock, effects: seq<Effect>)
  {
    /** The frame clock and the vblank edge detector. */
    function Frame(span: nat): State {
      var pos := (gbPos + span) % GB_FRAME_CYCLES;
      var vblank := pos * SNES_LINES / GB_FRAME_CYCLES >= SNES_VBLANK_LINE;
      var s := this.(gbPos := pos);
      if vblank != inVblank then
        if vblank then
          var autopoll := nmitimen % 2 == 1;
          s.(inVblank := true, joyBusy := autopoll, effects := effects + [VblankBegins(nmitimen >= 0x80, autopoll)])
        else s.(inVblank := false, effects := effects + [VblankEnds])
      else if joyBusy then s.(joyBusy := false, effects := effects + [Joy1Published])
      else s
    }

    /** One pass of the pump. */
    function Flush(span: nat): (r: State)
      ensures r.pendingGb == pendingGb
    {
      this.Frame(span).(
        spc := spc.Advance(span, SPC_NUM, SPC_DEN),
        cpu := cpu.Advance(span, CPU_NUM, CPU_DEN),
        msu := if hasMsu then msu.Advance(span, MSU_RATE, GB_CLOCK_HZ) else msu)
    }

    function Flushes(n: nat): State {
      if n == 0 then this else Flushes(n - 1).Flush(FLUSH_CHUNK)
    }

    function Clock(cycles: nat): State {
      var total := pendingGb + cycles;
      this.(pendingGb := total % FLUSH_CHUNK).Flushes(total / FLUSH_CHUNK)
    }
  }

  function Start(hasMsu: bool): State {
    State(0, 0, false, false, 0, ChipClock(0, 0), ChipClock(0, 0), hasMsu, ChipClock(0, 0), [])
  }

  class Pump {
    var pendingGb: nat
    var gbPos: nat
    var inVblank: bool
    var joyBusy: bool
    var nmitimen: Byte
    var spcTarget: nat
    var spcAcc: nat
    var cpuTarget: nat
    var cpuAcc: nat
    const hasMsu: bool
    var msuCycle: nat
    var msuAcc: nat
    var effects: seq<Effect>

    function Value(): State
      reads this
    {
      State(pendingGb, gbPos, inVblank, joyBusy, nmitimen, ChipClock(spcTarget, spcAcc), ChipClock(cpuTarget, cpuAcc),
        hasMsu, ChipClock(msuCycle, msuAcc), effects)
    }

    constructor (hasMsu: bool)
      ensures Value() == Start(hasMsu)
    {
      this.hasMsu := hasMsu;
      pendingGb, gbPos, inVblank, joyBusy, nmitimen := 0, 0, false, false, 0;
      spcTarget, spcAcc, cpuTarget, cpuAcc, msuCycle, msuAcc := 0, 0, 0, 0, 0, 0;
      effects := [];
    }

    method AdvanceSpc(span: nat)
      modifies this`spcAcc, this`spcTarget
      ensures ChipClock(spcTarget, spcAcc) == ChipClock(old(spcTarget), old(spcAcc)).Advance(span, SPC_NUM, SPC_DEN)
    {
      spcAcc := spcAcc + span * SPC_NUM;
      var adv := spcAcc / SPC_DEN;
      spcAcc := spcAcc - adv * SPC_DEN;
      spcTarget := spcTarget + adv;
    }

    method AdvanceCpu(span: nat)
      modifies this`cpuAcc, this`cpuTarget
      ensures ChipClock(cpuTarget, cpuAcc) == ChipClock(old(cpuTarget), old(cpuAcc)).Advance(span, CPU_NUM, CPU_DEN)
    {
      cpuAcc := cpuAcc + span * CPU_NUM;
      var adv := cpuAcc / CPU_DEN;
      cpuAcc := cpuAcc - adv * CPU_DEN;
      cpuTarget := cpuTarget + adv;
    }

    method PumpMsu(span: nat)
      modifies this`msuAcc, this`msuCycle
      ensures hasMsu ==>
        ChipClock(msuCycle, msuAcc) == ChipClock(old(msuCycle), old(msuAcc)).Advance(span, MSU_RATE, GB_CLOCK_HZ)
      ensures !hasMsu ==> msuCycle == old(msuCycle) && msuAcc == old(msuAcc)
    {
      if !hasMsu {
        return;
      }
      msuAcc := msuAcc + span * MSU_RATE;
      var adv := msuAcc / GB_CLOCK_HZ;
      msuAcc := msuAcc - adv * GB_CLOCK_HZ;
      msuCycle := msuCycle + adv;
    }

    method PumpFrame(span: nat)
      modifies this`gbPos, this`inVblank, this`joyBusy, this`effects
      ensures Value() == old(Value()).Frame(span)
    {
      gbPos := (gbPos + span) % GB_FRAME_CYCLES;
      var vblank := gbPos * SNES_LINES / GB_FRAME_CYCLES >= SNES_VBLANK_LINE;
      if vblank != inVblank {
        inVblank := vblank;
        if vblank {
          effects := effects + [VblankBegins(nmitimen >= 0x80, nmitimen % 2 == 1)];
          joyBusy := nmitimen % 2 == 1;
        } else {
          effects := effects + [VblankEnds];
        }
      } else if joyBusy {
        joyBusy := false;
        effects := effects + [Joy1Published];
      }
    }

    method Flush(span: nat)
      modifies this
      ensures Value() == old(Value()).Flush(span)
    {
      hide State.Frame, ChipClock.Advance;
      PumpFrame(span);
      AdvanceSpc(span);
      AdvanceCpu(span);
      PumpMsu(span);
    }

    /** The guest's captured $4200 write. */
    method WriteNmitimen(v: Byte)
      modifies this`nmitimen
      ensures Value() == old(Value()).(nmitimen := v)
    {
      nmitimen := v;
    }

    method Clock(cycles: nat)
      modifies this
      ensures Value() == old(Value()).Clock(cycles)
    {
      hide State.Flush;
      pendingGb := pendingGb + cycles;
      ghost var total, n, s := pendingGb, 0, old(Value());
      while pendingGb >= FLUSH_CHUNK
        invariant total == FLUSH_CHUNK * n + pendingGb
        invariant Value() == s.(pendingGb := pendingGb).Flushes(n)
        decreases pendingGb
      {
        pendingGb := pendingGb - FLUSH_CHUNK;
        FlushesKeepPending(s, pendingGb, n);
        FlushesKeepPending(s, pendingGb + FLUSH_CHUNK, n);
        Flush(FLUSH_CHUNK);
        FlushesKeepPending(s, pendingGb, n + 1);
        n := n + 1;
      }
      assert total / FLUSH_CHUNK == n && total % FLUSH_CHUNK == pendingGb;
    }
  }

  lemma {:induction false} FlushesKeepPending(s: State, p: nat, n: nat)
    ensures s.(pendingGb := p).Flushes(n) == s.Flushes(n).(pendingGb := p)
  {
    hide State.Frame, ChipClock.Advance;
    if n > 0 {
      FlushesKeepPending(s, p, n - 1);
      FrameKeepsPending(s.Flushes(n - 1), p, FLUSH_CHUNK);
    }
  }

  lemma FrameKeepsPending(s: State, p: nat, span: nat)
    ensures s.(pendingGb := p).Frame(span) == s.Frame(span).(pendingGb := p)
    ensures s.Frame(span).spc == s.spc && s.Frame(span).cpu == s.cpu && s.Frame(span).msu == s.msu
    ensures s.Frame(span).hasMsu == s.hasMsu && s.Frame(span).pendingGb == s.pendingGb
  {
  }
}
