/** Closed forms for the pump of `flush.rs`, over every way its clock calls split the cycles. */
module FlushTiming {
  import opened Words
  import opened Flush

  /** The cycles of vblank's share of a frame begin here: line 225 of 262. */
  const VBLANK_START := 60_307

  lemma VblankIsTail(pos: nat)
    ensures pos * SNES_LINES / GB_FRAME_CYCLES >= SNES_VBLANK_LINE <==> pos >= VBLANK_START
  {
  }

  predicate IsEdge(e: Effect) {
    e.VblankBegins? || e.VblankEnds?
  }

  /** The vblank edges among the effects. */
  function Edges(effects: seq<Effect>): seq<Effect> {
    if effects == [] then []
    else
      var before, e := Edges(effects[..|effects| - 1]), effects[|effects| - 1];
      if IsEdge(e) then before + [e] else before
  }

  /** Autopolls begun, less joypad shadows published. */
  function Owed(effects: seq<Effect>): int {
    if effects == [] then 0
    else
      Owed(effects[..|effects| - 1]) +
      match effects[|effects| - 1]
      case VblankBegins(_, autopoll) => (if autopoll then 1 else 0)
      case VblankEnds => 0
      case Joy1Published => -1
  }

  lemma EffectSnoc(effects: seq<Effect>, e: Effect)
    ensures Edges(effects + [e]) == if IsEdge(e) then Edges(effects) + [e] else Edges(effects)
    ensures Owed(effects + [e]) == Owed(effects) +
      match e
      case VblankBegins(_, autopoll) => (if autopoll then 1 else 0)
      case VblankEnds => 0
      case Joy1Published => -1
  {
    assert (effects + [e])[..|effects|] == effects;
  }

  ghost predicate Alternate(edges: seq<Effect>) {
    forall i :: 0 <= i < |edges| ==> IsEdge(edges[i]) && (edges[i].VblankBegins? <==> i % 2 == 0)
  }

  /** The beginnings of vblank in F cycles, and the ends. */
  function Begun(f: nat): nat { (f + 9917) / 70_224 }
  function Ended(f: nat): nat { f / 70_224 }

  /** The frame clock after F flushed cycles. */
  ghost predicate FrameAt(s: State, f: nat) {
    && s.gbPos == f % 70_224
    && s.inVblank == (s.gbPos >= VBLANK_START)
    && Alternate(Edges(s.effects)) && |Edges(s.effects)| == Begun(f) + Ended(f)
    && Owed(s.effects) == (if s.joyBusy then 1 else 0)
    && (s.joyBusy ==> s.inVblank && s.gbPos < VBLANK_START + FLUSH_CHUNK)
  }

  lemma FrameSteps(f: nat)
    ensures var x, y := f % GB_FRAME_CYCLES, (f + FLUSH_CHUNK) % GB_FRAME_CYCLES;
      && y == (if x + FLUSH_CHUNK < GB_FRAME_CYCLES then x + FLUSH_CHUNK else x + FLUSH_CHUNK - GB_FRAME_CYCLES)
      && Ended(f + FLUSH_CHUNK) == Ended(f) + (if y < x then 1 else 0)
      && Begun(f) == Ended(f) + (if x >= VBLANK_START then 1 else 0)
      && Begun(f + FLUSH_CHUNK) == Ended(f + FLUSH_CHUNK) + (if y >= VBLANK_START then 1 else 0)
  {
    Counts(f);
    Counts(f + FLUSH_CHUNK);
    var q, x := f / GB_FRAME_CYCLES, f % GB_FRAME_CYCLES;
    assert f == GB_FRAME_CYCLES * q + x;
  }

  lemma Counts(f: nat)
    ensures Begun(f) == Ended(f) + (if f % GB_FRAME_CYCLES >= VBLANK_START then 1 else 0)
  {
    var q, x := f / GB_FRAME_CYCLES, f % GB_FRAME_CYCLES;
    assert f == GB_FRAME_CYCLES * q + x;
  }

  lemma EdgesGrow(edges: seq<Effect>, e: Effect)
    requires Alternate(edges) && IsEdge(e) && (e.VblankBegins? <==> |edges| % 2 == 0)
    ensures Alternate(edges + [e])
  {
  }

  /** No flush steps over a vblank or over the display: each one sees the edge it crosses. */
  lemma FrameKeeps(s: State, f: nat)
    requires FrameAt(s, f)
    ensures FrameAt(s.Frame(FLUSH_CHUNK), f + FLUSH_CHUNK)
  {
    hide Edges, Owed, Alternate, Begun, Ended;
    FrameSteps(f);
    var pos := (s.gbPos + FLUSH_CHUNK) % GB_FRAME_CYCLES;
    SamePosition(f);
    VblankIsTail(pos);
    var r := s.Frame(FLUSH_CHUNK);
    if r.inVblank != s.inVblank {
      var e := r.effects[|s.effects|];
      assert r.effects == s.effects + [e];
      EffectSnoc(s.effects, e);
      EdgesGrow(Edges(s.effects), e);
    } else if s.joyBusy {
      EffectSnoc(s.effects, Joy1Published);
    }
  }

  lemma SamePosition(f: nat)
    ensures (f % GB_FRAME_CYCLES + FLUSH_CHUNK) % GB_FRAME_CYCLES == (f + FLUSH_CHUNK) % GB_FRAME_CYCLES
  {
    var q, x := f / GB_FRAME_CYCLES, f % GB_FRAME_CYCLES;
    assert f + FLUSH_CHUNK == GB_FRAME_CYCLES * q + (x + FLUSH_CHUNK);
  }

  // ----- Chip clocks

  /** The chips' targets are the floors of F times their ratios; the rest is carried. */
  ghost predicate ChipsAt(s: State, f: nat) {
    && s.spc == ChipClock(f * 125 / 512, f * 125 % 512)
    && s.cpu == ChipClock(f * 5 / 8, f * 5 % 8)
    && s.msu == (if s.hasMsu then ChipClock(f * 44_100 / 4_194_304, f * 44_100 % 4_194_304) else ChipClock(0, 0))
  }

  lemma SpcSteps(f: nat, span: nat)
    ensures ChipClock(f * SPC_NUM / SPC_DEN, f * SPC_NUM % SPC_DEN).Advance(span, SPC_NUM, SPC_DEN)
         == ChipClock((f + span) * SPC_NUM / SPC_DEN, (f + span) * SPC_NUM % SPC_DEN)
  {
    var q, x := f * SPC_NUM / SPC_DEN, f * SPC_NUM % SPC_DEN;
    assert (f + span) * SPC_NUM == SPC_DEN * q + (x + span * SPC_NUM);
  }

  lemma CpuSteps(f: nat, span: nat)
    ensures ChipClock(f * CPU_NUM / CPU_DEN, f * CPU_NUM % CPU_DEN).Advance(span, CPU_NUM, CPU_DEN)
         == ChipClock((f + span) * CPU_NUM / CPU_DEN, (f + span) * CPU_NUM % CPU_DEN)
  {
    var q, x := f * CPU_NUM / CPU_DEN, f * CPU_NUM % CPU_DEN;
    assert (f + span) * CPU_NUM == CPU_DEN * q + (x + span * CPU_NUM);
  }

  lemma MsuSteps(f: nat, span: nat)
    ensures ChipClock(f * MSU_RATE / GB_CLOCK_HZ, f * MSU_RATE % GB_CLOCK_HZ).Advance(span, MSU_RATE, GB_CLOCK_HZ)
         == ChipClock((f + span) * MSU_RATE / GB_CLOCK_HZ, (f + span) * MSU_RATE % GB_CLOCK_HZ)
  {
    var q, x := f * MSU_RATE / GB_CLOCK_HZ, f * MSU_RATE % GB_CLOCK_HZ;
    assert (f + span) * MSU_RATE == GB_CLOCK_HZ * q + (x + span * MSU_RATE);
  }

  // ----- Runs

  datatype Op = ClockOp(cycles: nat) | NmitimenOp(value: Byte)

  function Run(hasMsu: bool, ops: seq<Op>): State {
    if ops == [] then Start(hasMsu)
    else
      var s := Run(hasMsu, ops[..|ops| - 1]);
      match ops[|ops| - 1]
      case ClockOp(cycles) => s.Clock(cycles)
      case NmitimenOp(v) => s.(nmitimen := v)
  }

  /** All cycles clocked. */
  function Total(ops: seq<Op>): nat {
    if ops == [] then 0
    else Total(ops[..|ops| - 1]) + if ops[|ops| - 1].ClockOp? then ops[|ops| - 1].cycles else 0
  }

  ghost predicate At(s: State, f: nat, hasMsu: bool) {
    s.hasMsu == hasMsu && FrameAt(s, f) && ChipsAt(s, f)
  }

  lemma FlushKeeps(s: State, f: nat, hasMsu: bool)
    requires At(s, f, hasMsu)
    ensures At(s.Flush(FLUSH_CHUNK), f + FLUSH_CHUNK, hasMsu)
  {
    hide FrameAt, State.Frame, ChipClock.Advance;
    FrameKeeps(s, f);
    FrameKeepsPending(s, 0, FLUSH_CHUNK);
    SpcSteps(f, FLUSH_CHUNK);
    CpuSteps(f, FLUSH_CHUNK);
    MsuSteps(f, FLUSH_CHUNK);
    FrameOfFlush(s, f + FLUSH_CHUNK);
  }

  lemma FrameOfFlush(s: State, f: nat)
    requires FrameAt(s.Frame(FLUSH_CHUNK), f)
    ensures FrameAt(s.Flush(FLUSH_CHUNK), f)
  {
    hide State.Frame, ChipClock.Advance, Edges, Owed, Alternate, Begun, Ended;
  }

  lemma {:induction false} FlushesKeep(s: State, f: nat, n: nat, hasMsu: bool)
    requires At(s, f, hasMsu)
    ensures At(s.Flushes(n), f + FLUSH_CHUNK * n, hasMsu) && s.Flushes(n).pendingGb == s.pendingGb
  {
    hide At, State.Flush;
    if n > 0 {
      FlushesKeep(s, f, n - 1, hasMsu);
      FlushKeeps(s.Flushes(n - 1), f + FLUSH_CHUNK * (n - 1), hasMsu);
    }
  }

  /** However the clock calls split the cycles, and whatever NMITIMEN is set to between them: after
      T cycles exactly the whole chunks are flushed, F of them in cycles; vblank has begun
      floor((F + 9917) / 70224) times, beginnings and ends alternating; every autopoll but perhaps
      the one just begun has been published once; and each chip's target is the floor of F times
      its ratio. */
  lemma {:induction false} PumpIsExact(hasMsu: bool, ops: seq<Op>)
    ensures var s, t := Run(hasMsu, ops), Total(ops);
      At(s, 4096 * (t / 4096), hasMsu) && s.pendingGb == t % 4096
  {
    hide At, State.Clock;
    if ops == [] {
      StartHolds(hasMsu);
    } else {
      var before := ops[..|ops| - 1];
      PumpIsExact(hasMsu, before);
      var s, t := Run(hasMsu, before), Total(before);
      match ops[|ops| - 1]
      case ClockOp(cycles) =>
        ClockKeeps(s, t, cycles, hasMsu);
      case NmitimenOp(v) =>
        NmitimenKeeps(s, FLUSH_CHUNK * (t / FLUSH_CHUNK), v, hasMsu);
    }
  }

  lemma ClockKeeps(s: State, t: nat, cycles: nat, hasMsu: bool)
    requires At(s, FLUSH_CHUNK * (t / FLUSH_CHUNK), hasMsu) && s.pendingGb == t % FLUSH_CHUNK
    ensures var r := s.Clock(cycles);
      At(r, FLUSH_CHUNK * ((t + cycles) / FLUSH_CHUNK), hasMsu) && r.pendingGb == (t + cycles) % FLUSH_CHUNK
  {
    hide At, State.Flushes;
    var total := s.pendingGb + cycles;
    var f := FLUSH_CHUNK * (t / FLUSH_CHUNK);
    PendingKeeps(s, f, total % FLUSH_CHUNK, hasMsu);
    FlushesKeep(s.(pendingGb := total % FLUSH_CHUNK), f, total / FLUSH_CHUNK, hasMsu);
    Carry(t, cycles);
  }

  lemma StartHolds(hasMsu: bool)
    ensures At(Start(hasMsu), 0, hasMsu)
  {
    StartFrame(Start(hasMsu));
    StartChips(hasMsu);
    hide FrameAt, ChipsAt;
  }

  lemma StartFrame(s: State)
    requires s.gbPos == 0 && !s.inVblank && !s.joyBusy && s.effects == []
    ensures FrameAt(s, 0)
  {
    assert Edges([]) == [] && Owed([]) == 0;
    hide Edges, Owed;
  }

  lemma StartChips(hasMsu: bool)
    ensures ChipsAt(Start(hasMsu), 0)
  {
  }

  lemma PendingKeeps(s: State, f: nat, p: nat, hasMsu: bool)
    requires At(s, f, hasMsu)
    ensures At(s.(pendingGb := p), f, hasMsu)
  {
    hide Edges, Owed, Alternate, Begun, Ended;
  }

  lemma NmitimenKeeps(s: State, f: nat, v: Byte, hasMsu: bool)
    requires At(s, f, hasMsu)
    ensures At(s.(nmitimen := v), f, hasMsu)
  {
    hide Edges, Owed, Alternate, Begun, Ended;
  }

  /** The carried part of one call goes into the next. */
  lemma Carry(t: nat, cycles: nat)
    ensures (t % FLUSH_CHUNK + cycles) % FLUSH_CHUNK == (t + cycles) % FLUSH_CHUNK
    ensures t / FLUSH_CHUNK + (t % FLUSH_CHUNK + cycles) / FLUSH_CHUNK == (t + cycles) / FLUSH_CHUNK
  {
    assert t + cycles == FLUSH_CHUNK * (t / FLUSH_CHUNK) + (t % FLUSH_CHUNK + cycles);
  }

  function Beginnings(edges: seq<Effect>): nat {
    if edges == [] then 0 else Beginnings(edges[..|edges| - 1]) + if edges[|edges| - 1].VblankBegins? then 1 else 0
  }

  lemma {:induction false} HalfBegin(edges: seq<Effect>)
    requires Alternate(edges)
    ensures Beginnings(edges) == (|edges| + 1) / 2
  {
    if edges != [] {
      HalfBegin(edges[..|edges| - 1]);
    }
  }

  /** Exactly one vblank begins per frame, from cycle 60307 of the first on. */
  lemma VblankEntries(hasMsu: bool, ops: seq<Op>)
    ensures Beginnings(Edges(Run(hasMsu, ops).effects))
         == (4096 * (Total(ops) / 4096) + 9917) / 70_224
  {
    hide Run, Total, Edges, Beginnings, ChipsAt, Owed;
    PumpIsExact(hasMsu, ops);
    var f := FLUSH_CHUNK * (Total(ops) / FLUSH_CHUNK);
    HalfBegin(Edges(Run(hasMsu, ops).effects));
    Counts(f);
  }

  // ----- NMITIMEN

  /** Every vblank begun from effect `from` on has an NMI if bit 7 of v is set, and an autopoll if bit 0 is. */
  ghost predicate Follow(effects: seq<Effect>, from: nat, v: Byte) {
    from <= |effects| && forall i :: from <= i < |effects| && effects[i].VblankBegins? ==>
      (effects[i].nmi <==> v / 0x80 == 1) && (effects[i].autopoll <==> v % 2 == 1)
  }

  /** t comes behind s, NMITIMEN untouched, and its vblanks follow it. */
  ghost predicate Behind(s: State, t: State) {
    t.nmitimen == s.nmitimen && s.effects <= t.effects && Follow(t.effects, |s.effects|, s.nmitimen)
  }

  lemma FlushIsBehind(s: State, span: nat)
    ensures Behind(s, s.Flush(span))
  {
    hide ChipClock.Advance;
  }

  lemma BehindBoth(s: State, t: State, u: State)
    requires Behind(s, t) && Behind(t, u)
    ensures Behind(s, u)
  {
    assert forall i :: 0 <= i < |t.effects| ==> u.effects[i] == t.effects[i];
  }

  lemma {:induction false} FlushesAreBehind(s: State, n: nat)
    ensures Behind(s, s.Flushes(n))
  {
    hide State.Flush;
    if n > 0 {
      hide Behind;
      FlushesAreBehind(s, n - 1);
      FlushIsBehind(s.Flushes(n - 1), FLUSH_CHUNK);
      BehindBoth(s, s.Flushes(n - 1), s.Flushes(n));
    }
  }

  lemma ClockIsBehind(s: State, cycles: nat)
    ensures Behind(s, s.Clock(cycles))
  {
    hide State.Flushes;
    var total := s.pendingGb + cycles;
    FlushesAreBehind(s.(pendingGb := total % FLUSH_CHUNK), total / FLUSH_CHUNK);
  }

  /** However long the clock runs on, the last value of NMITIMEN decides which vblanks come with an NMI and
      which with an autopoll; before the first, none does. */
  lemma {:induction false} LastNmitimenDecides(hasMsu: bool, ops: seq<Op>, clocks: seq<Op>)
    requires ops == [] || ops[|ops| - 1].NmitimenOp?
    requires forall i :: 0 <= i < |clocks| ==> clocks[i].ClockOp?
    ensures var s, t := Run(hasMsu, ops), Run(hasMsu, ops + clocks);
      var v: Byte := if ops == [] then 0 else ops[|ops| - 1].value;
      s.nmitimen == v && t.nmitimen == v && s.effects <= t.effects && Follow(t.effects, |s.effects|, v)
  {
    hide State.Clock;
    if clocks == [] {
      assert ops + clocks == ops;
    } else {
      hide Follow;
      var n := |clocks| - 1;
      LastNmitimenDecides(hasMsu, ops, clocks[..n]);
      assert (ops + clocks)[..|ops| + n] == ops + clocks[..n];
      var s, t := Run(hasMsu, ops), Run(hasMsu, ops + clocks[..n]);
      ClockIsBehind(t, clocks[n].cycles);
      BehindBoth(s, t, t.Clock(clocks[n].cycles));
    }
  }
}
