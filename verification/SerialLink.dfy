/** Two linked machines: a master and an armed slave, and the frontends that carry their bytes
    (`serial.rs` with the packet routing of the frontend's `link.rs`). */
module SerialLink {
  import opened Words
  import opened Serial

  const IN_QUEUE_CAP := 1024

  /** A byte from the side that clocks, or the other side's answer. */
  datatype Packet = Sync1(byte: Bits) | Sync2(byte: Bits)

  /** A machine with its frontend: the port, the peer bytes the frontend buffers, the packets on
      their way to it, and the interrupts its port has raised. */
  datatype Machine = Machine(port: Port, pending: seq<Bits>, inbox: seq<Packet>, irqs: nat)
  {
    predicate Valid() {
      port.Valid()
    }

    function With(r: (Port, bool)): Machine {
      this.(port := r.0, irqs := irqs + if r.1 then 1 else 0)
    }

    /** What an armed port makes of a master byte: the machine, and its answer. */
    function Answer(byte: Bits): Option<(Machine, seq<Packet>)>
      requires Valid()
    {
      match port.SlaveTransfer(byte)
      case (p, Some(out)) => Some((With((p, true)), [Sync2(out)]))
      case _ => None
    }

    /** The frontend takes the next packet. A master byte is answered at once by an armed port, unless
        others wait in front of it; an answer is taken by a stalled master only. */
    function Receive(): (Machine, seq<Packet>)
      requires Valid()
    {
      if inbox == [] then (this, [])
      else
        var m := this.(inbox := inbox[1..]);
        match inbox[0]
        case Sync1(byte) =>
          var answer := m.Answer(byte);
          if pending == [] && answer.Some? then answer.value
          else if |pending| < IN_QUEUE_CAP then (m.(pending := pending + [byte]), [])
          else (m, [])
        case Sync2(byte) =>
          if port.waiting then (m.With(port.PushLinkIn(byte)), []) else (m, [])
    }

    /** The frontend offers the oldest buffered byte: to an armed port, or to a stalled master. */
    function Drain(): (Machine, seq<Packet>)
      requires Valid()
    {
      if pending == [] then (this, [])
      else
        var m := this.(pending := pending[1..]);
        var answer := m.Answer(pending[0]);
        if answer.Some? then answer.value
        else if port.waiting then (m.With(port.PushLinkIn(pending[0])), [])
        else (this, [])
    }

    /** The frontend sends a byte the port has clocked out. */
    function Ship(): (Machine, seq<Packet>) {
      if port.linkOut == [] then (this, [])
      else (this.(port := port.(linkOut := port.linkOut[1..])), [Sync1(port.linkOut[0])])
    }

    /** One action: the machine behind it, and the packets it sends. */
    function Act(action: Action): (r: (Machine, seq<Packet>))
      requires Valid()
      ensures r.0.Valid()
    {
      match action
      case Tick(div) => (With(port.Tick(div)), [])
      case DivWrite(before) => (With(port.DivWrite(before)), [])
      case Ship => Ship()
      case Receive => Receive()
      case Drain => Drain()
    }
  }

  /** The port is clocked, or the frontend moves one byte. */
  datatype Action = Tick(div: Word16) | DivWrite(before: Word16) | Ship | Receive | Drain

  /** SC values that arm a port for an external clock. */
  type Arming = v: Bits | v[0] && !v[7] witness [true, false, false, false, false, false, false, false]

  /** Both machines, and how often the slave's program has armed its port. */
  datatype System = System(master: Machine, slave: Machine, armings: nat)
  {
    predicate Valid() {
      master.Valid() && slave.Valid()
    }
  }

  datatype Step = Master(action: Action) | Slave(action: Action) | Arm(value: Arming)

  function Next(s: System, step: Step): (r: System)
    requires s.Valid()
    ensures r.Valid()
  {
    match step
    case Master(action) =>
      var (m, sent) := s.master.Act(action);
      s.(master := m, slave := s.slave.(inbox := s.slave.inbox + sent))
    case Slave(action) =>
      var (m, sent) := s.slave.Act(action);
      s.(slave := m, master := s.master.(inbox := s.master.inbox + sent))
    case Arm(value) =>
      s.(slave := s.slave.(port := s.slave.port.WriteSc(value)), armings := s.armings + 1)
  }

  function Run(s: System, steps: seq<Step>): (r: System)
    requires s.Valid()
    ensures r.Valid()
  {
    if steps == [] then s else Next(Run(s, steps[..|steps| - 1]), steps[|steps| - 1])
  }

  // ----- The frontend's buffer

  /** The buffer never holds more than 1024 bytes. A master byte goes behind those that wait, never past them, and
      is dropped only when the buffer is full; only an armed port with nothing waiting takes one at once. */
  lemma BytesWaitInOrder(m: Machine, byte: Bits, rest: seq<Packet>)
    requires m.Valid() && m.inbox == [Sync1(byte)] + rest && |m.pending| <= 1024
    ensures var (r, sent) := m.Receive();
      && |r.pending| <= 1024 && r.inbox == rest
      && if m.pending == [] && m.port.Armed() then
           && r.pending == [] && sent == [Sync2(m.port.sb)]
           && r.port.sb == byte && !r.port.sc.active && r.irqs == m.irqs + 1
         else
           && r == m.(inbox := rest, pending := r.pending) && sent == []
           && r.pending == if |m.pending| < 1024 then m.pending + [byte] else m.pending
  {
    assert m.inbox[1..] == rest;
  }

  /** The oldest byte that waits goes to an armed port, which answers, or to a stalled master, which does not;
      otherwise it goes on waiting. */
  lemma OldestByteGoesFirst(m: Machine)
    requires m.Valid()
    ensures var (r, sent) := m.Drain();
      if m.pending != [] && m.port.Armed() then
        && r.pending == m.pending[1..] && sent == [Sync2(m.port.sb)]
        && r.port.sb == m.pending[0] && !r.port.sc.active && r.irqs == m.irqs + 1
      else if m.pending != [] && m.port.waiting then
        && r.pending == m.pending[1..] && sent == []
        && r.port.sb == m.pending[0] && !r.port.sc.active && r.irqs == m.irqs + 1
      else r == m && sent == []
  {
  }

  /** An answer completes a stalled master, and is dropped by any other port. */
  lemma AnswerNeedsStall(m: Machine, byte: Bits, rest: seq<Packet>)
    requires m.Valid() && m.inbox == [Sync2(byte)] + rest
    ensures var (r, sent) := m.Receive();
      && sent == [] && r.inbox == rest && r.pending == m.pending
      && if m.port.waiting then r.port.sb == byte && !r.port.sc.active && r.irqs == m.irqs + 1
         else r == m.(inbox := rest)
  {
    assert m.inbox[1..] == rest;
  }

  // ----- The phases of an exchange of a (master) and b (slave)

  datatype Phase = Clocking | Queued | InFlight | Buffered | Replied | Exchanged

  /** A byte that finds the slave armed is not buffered. */
  predicate Follows(ph: Phase, ph': Phase) {
    match ph
    case Clocking => ph'.Queued?
    case Queued => ph'.InFlight?
    case InFlight => ph'.Buffered? || ph'.Replied?
    case Buffered => ph'.Replied?
    case Replied => ph'.Exchanged?
    case Exchanged => false
  }

  /** After k shifts the bits clocked out are the top bits of a, and SB begins with the rest of a. */
  predicate ShiftingOut(outShift: Bits, sb: Bits, k: nat, a: Bits) {
    && k <= 8
    && (forall j :: 8 - k <= j < 8 ==> outShift[j] == a[j + k - 8])
    && (forall i :: 0 <= i < 8 - k ==> sb[i] == a[k + i])
  }

  lemma ShiftOut(outShift: Bits, sb: Bits, k: nat, a: Bits, incoming: bool)
    requires k < 8 && ShiftingOut(outShift, sb, k, a)
    ensures ShiftingOut(outShift[1..] + [sb[0]], sb[1..] + [incoming], k + 1, a)
    ensures k == 7 ==> outShift[1..] + [sb[0]] == a
  {
    var out := outShift[1..] + [sb[0]];
    assert forall j :: 8 - k - 1 <= j < 7 ==> out[j] == outShift[j + 1];
    assert sb[0] == a[k];
  }

  predicate ClockingOut(p: Port, a: Bits) {
    p.connected && p.Shifting() && p.linkIn == [] && p.linkOut == [] && ShiftingOut(p.outShift, p.sb, p.shifted, a)
  }

  predicate Stalled(p: Port, queue: seq<Bits>) {
    p.waiting && p.linkOut == queue
  }

  /** The slave has not been served: it holds b, armed or not yet armed. */
  predicate Before(s: System, b: Bits) {
    var p := s.slave.port;
    p.sb == b && s.slave.irqs == 0 && (p.sc.active ==> !p.sc.internal) && (p.sc.active <==> s.armings > 0)
  }

  /** The slave has been served: it holds a, and its transfer flag is clear unless it was armed again. */
  predicate After(s: System, a: Bits) {
    var p := s.slave.port;
    p.sb == a && s.slave.irqs == 1 && (p.sc.active ==> !p.sc.internal && s.armings > 1) && s.armings > 0
  }

  predicate InPhase(s: System, a: Bits, b: Bits, ph: Phase) {
    && s.Valid() && s.master.pending == [] && s.slave.port.linkOut == []
    && s.master.irqs == (if ph.Exchanged? then 1 else 0)
    && s.slave.inbox == (if ph.InFlight? then [Sync1(a)] else [])
    && s.slave.pending == (if ph.Buffered? then [a] else [])
    && s.master.inbox == (if ph.Replied? then [Sync2(b)] else [])
    && (if ph.Replied? || ph.Exchanged? then After(s, a) else Before(s, b))
    && match ph
       case Clocking => ClockingOut(s.master.port, a)
       case Queued => Stalled(s.master.port, [a])
       case InFlight => Stalled(s.master.port, [])
       case Buffered => Stalled(s.master.port, [])
       case Replied => Stalled(s.master.port, [])
       case Exchanged => !s.master.port.sc.active && s.master.port.linkOut == [] && s.master.port.sb == b
  }

  /** Edges a clocking master needs before it stalls. */
  function EdgesLeft(p: Port): int {
    16 - 2 * p.shifted - if p.masterClock then 1 else 0
  }

  /** An edge brings a clocking master nearer to its stall, and the last one ships the byte. */
  lemma EdgeOfClockingMaster(p: Port, a: Bits)
    requires p.Valid() && ClockingOut(p, a)
    ensures var (q, irq) := p.MasterEdge();
      && !irq
      && (EdgesLeft(p) > 1 ==> ClockingOut(q, a) && EdgesLeft(q) == EdgesLeft(p) - 1)
      && (EdgesLeft(p) == 1 ==> Stalled(q, [a]))
      && EdgesLeft(p) >= 1
  {
    hide ShiftingOut;
    if p.masterClock {
      ShiftOut(p.outShift, p.sb, p.shifted, a, p.Incoming());
    }
  }

  predicate IsMasterEdge(s: System, step: Step) {
    match step
    case Master(Tick(div)) => s.master.port.Falls(div)
    case Master(DivWrite(before)) => s.master.port.ClockBit(before)
    case _ => false
  }

  predicate IsClockStep(step: Step) {
    !step.Arm? && (step.action.Tick? || step.action.DivWrite?)
  }

  lemma ClockingMasterActs(s: System, a: Bits, step: Step)
    requires s.Valid() && ClockingOut(s.master.port, a) && step.Master? && IsClockStep(step)
    ensures var p, q := s.master.port, Next(s, step).master.port;
      && Next(s, step) == s.(master := s.master.(port := q))
      && if IsMasterEdge(s, step) && EdgesLeft(p) == 1 then Stalled(q, [a])
         else ClockingOut(q, a) && EdgesLeft(q) == EdgesLeft(p) - (if IsMasterEdge(s, step) then 1 else 0)
  {
    hide Port.MasterEdge, ShiftingOut, Port.ClockBit;
    var p := s.master.port;
    match step.action
    case Tick(div) =>
      EdgeOfClockingMaster(p.(prevDiv := div), a);
    case DivWrite(_) =>
      EdgeOfClockingMaster(p.(prevDiv := 0), a);
  }

  lemma OnlyMastersEdge(s: System, step: Step)
    ensures !step.Master? ==> !IsMasterEdge(s, step)
  {
  }

  /** A port with nothing to shift keeps everything but its clock phase. */
  lemma IdlePortClocks(p: Port, div: Word16)
    requires p.Valid() && !p.Shifting()
    ensures var q := p.Tick(div).0;
      p.Tick(div) == (p.(masterClock := q.masterClock, prevDiv := q.prevDiv), false)
    ensures var q := p.DivWrite(div).0;
      p.DivWrite(div) == (p.(masterClock := q.masterClock, prevDiv := q.prevDiv), false)
  {
  }

  lemma IdlePortArms(p: Port, value: Arming)
    requires p.Valid() && !p.Shifting() && !p.waiting
    ensures var q := p.WriteSc(value);
      q.sb == p.sb && q.linkOut == p.linkOut && q.sc.active && !q.sc.internal
  {
  }

  /** A clocking master loses one edge to a falling clock bit and nothing to other steps, and stops
      clocking when none is left. */
  predicate ClockedBy(s: System, ph: Phase, step: Step, s': System, ph': Phase) {
    if !ph.Clocking? then !ph'.Clocking?
    else
      var left := EdgesLeft(s.master.port) - if IsMasterEdge(s, step) then 1 else 0;
      left >= 0 && if ph'.Clocking? then left > 0 && EdgesLeft(s'.master.port) == left else left == 0
  }

  lemma ClockStepKeepsPhase(s: System, a: Bits, b: Bits, ph: Phase, step: Step) returns (ph': Phase)
    requires InPhase(s, a, b, ph) && IsClockStep(step)
    ensures InPhase(Next(s, step), a, b, ph') && ClockedBy(s, ph, step, Next(s, step), ph')
    ensures ph' == ph || Follows(ph, ph')
  {
    hide ShiftingOut, Port.Tick, Port.DivWrite, IsMasterEdge;
    var m := if step.Master? then s.master else s.slave;
    if step.Master? && ph.Clocking? {
      ClockingMasterActs(s, a, step);
      ph' := if Next(s, step).master.port.waiting then Queued else Clocking;
    } else {
      IdlePortClocks(m.port, if step.action.Tick? then step.action.div else step.action.before);
      OnlyMastersEdge(s, step);
      ph' := ph;
    }
  }

  lemma ArmKeepsPhase(s: System, a: Bits, b: Bits, ph: Phase, value: Arming) returns (ph': Phase)
    requires InPhase(s, a, b, ph)
    ensures InPhase(Next(s, Arm(value)), a, b, ph') && ph' == ph
    ensures ClockedBy(s, ph, Arm(value), Next(s, Arm(value)), ph')
    ensures Next(s, Arm(value)).armings == s.armings + 1
  {
    hide ShiftingOut, Port.WriteSc, Machine.Act;
    IdlePortArms(s.slave.port, value);
    ph' := ph;
  }

  lemma ShipKeepsPhase(s: System, a: Bits, b: Bits, ph: Phase, step: Step) returns (ph': Phase)
    requires InPhase(s, a, b, ph) && (step == Master(Ship) || step == Slave(Ship))
    ensures InPhase(Next(s, step), a, b, ph') && (ph' == ph || Follows(ph, ph'))
    ensures (ph'.Clocking? <==> ph.Clocking?) && (ph.Clocking? ==> Next(s, step).master.port == s.master.port)
    ensures Next(s, step).armings == s.armings
    ensures step.Master? ==> !ph'.Queued?
  {
    hide ShiftingOut, Port.ClockBit;
    ph' := if step.Master? && ph.Queued? then InFlight else ph;
  }

  lemma ReceiveKeepsPhase(s: System, a: Bits, b: Bits, ph: Phase, step: Step) returns (ph': Phase)
    requires InPhase(s, a, b, ph) && (step == Master(Receive) || step == Slave(Receive))
    ensures InPhase(Next(s, step), a, b, ph') && (ph' == ph || Follows(ph, ph'))
    ensures (ph'.Clocking? <==> ph.Clocking?) && (ph.Clocking? ==> Next(s, step).master.port == s.master.port)
    ensures Next(s, step).armings == s.armings
    ensures step.Slave? ==> !ph'.InFlight?
    ensures step.Master? ==> !ph'.Replied?
  {
    hide ShiftingOut, Port.ClockBit;
    if step.Master? {
      ph' := if ph.Replied? then Exchanged else ph;
    } else if ph.InFlight? {
      ph' := if s.slave.port.Armed() then Replied else Buffered;
    } else {
      ph' := ph;
    }
  }

  lemma DrainKeepsPhase(s: System, a: Bits, b: Bits, ph: Phase, step: Step) returns (ph': Phase)
    requires InPhase(s, a, b, ph) && (step == Master(Drain) || step == Slave(Drain))
    ensures InPhase(Next(s, step), a, b, ph') && (ph' == ph || Follows(ph, ph'))
    ensures (ph'.Clocking? <==> ph.Clocking?) && (ph.Clocking? ==> Next(s, step).master.port == s.master.port)
    ensures Next(s, step).armings == s.armings
    ensures step.Slave? && s.armings > 0 ==> !ph'.Buffered?
  {
    hide ShiftingOut, Port.ClockBit;
    ph' := if step.Slave? && ph.Buffered? && s.slave.port.Armed() then Replied else ph;
  }

  lemma FrontendStepKeepsPhase(s: System, a: Bits, b: Bits, ph: Phase, step: Step) returns (ph': Phase)
    requires InPhase(s, a, b, ph) && !step.Arm? && !IsClockStep(step)
    ensures InPhase(Next(s, step), a, b, ph') && (ph' == ph || Follows(ph, ph'))
    ensures ClockedBy(s, ph, step, Next(s, step), ph') && Next(s, step).armings == s.armings
    ensures step == Master(Ship) ==> !ph'.Queued?
    ensures step == Slave(Receive) ==> !ph'.InFlight?
    ensures step == Slave(Drain) && s.armings > 0 ==> !ph'.Buffered?
    ensures step == Master(Receive) ==> !ph'.Replied?
  {
    ClockingHasEdgesLeft(s, a, b, ph);
    hide InPhase, Next, System.Valid;
    if step.action.Ship? {
      ph' := ShipKeepsPhase(s, a, b, ph, step);
    } else if step.action.Receive? {
      ph' := ReceiveKeepsPhase(s, a, b, ph, step);
    } else {
      ph' := DrainKeepsPhase(s, a, b, ph, step);
    }
  }

  lemma ClockingHasEdgesLeft(s: System, a: Bits, b: Bits, ph: Phase)
    requires InPhase(s, a, b, ph)
    ensures s.Valid() && (ph.Clocking? ==> EdgesLeft(s.master.port) > 0)
  {
    hide ShiftingOut;
  }

  /** No step leaves the phases, goes back or skips one. */
  lemma StepKeepsPhase(s: System, a: Bits, b: Bits, ph: Phase, step: Step) returns (ph': Phase)
    requires InPhase(s, a, b, ph)
    ensures InPhase(Next(s, step), a, b, ph') && (ph' == ph || Follows(ph, ph'))
    ensures ClockedBy(s, ph, step, Next(s, step), ph')
  {
    hide InPhase, Next, ClockedBy;
    if step.Arm? {
      ph' := ArmKeepsPhase(s, a, b, ph, step.value);
    } else if IsClockStep(step) {
      ph' := ClockStepKeepsPhase(s, a, b, ph, step);
    } else {
      ph' := FrontendStepKeepsPhase(s, a, b, ph, step);
    }
  }

  // ----- Whole runs

  /** A connected idle master whose SC write has just started a transfer of a, opposite a slave that
      holds b and clocks nothing of its own; nothing is in flight either way. */
  predicate Started(s: System, was: Port, value: Bits, a: Bits, b: Bits)
    requires was.Valid()
  {
    && was.connected && !was.Shifting() && was.linkIn == [] && was.linkOut == [] && was.sb == a
    && value[0] && value[7] && s.master == Machine(was.WriteSc(value), [], [], 0)
    && s.Valid() && Before(s, b) && s.slave.port.linkOut == [] && s.slave.pending == [] && s.slave.inbox == []
  }

  lemma StartedIsClocking(s: System, was: Port, value: Bits, a: Bits, b: Bits)
    requires was.Valid() && Started(s, was, value, a, b)
    ensures InPhase(s, a, b, Clocking) && EdgesLeft(s.master.port) == 16
  {
  }

  /** Falling clock edges the master has had in a run. */
  function MasterEdges(s: System, steps: seq<Step>): nat
    requires s.Valid()
  {
    if steps == [] then 0
    else
      var rest := steps[..|steps| - 1];
      MasterEdges(s, rest) + if IsMasterEdge(Run(s, rest), steps[|steps| - 1]) then 1 else 0
  }

  /** Under every interleaving the pair is in one of the phases, and it is still clocking exactly
      while the master has had fewer edges than its transfer needs. */
  lemma {:induction false} RunStaysInPhase(s: System, a: Bits, b: Bits, steps: seq<Step>) returns (ph: Phase)
    requires InPhase(s, a, b, Clocking)
    ensures InPhase(Run(s, steps), a, b, ph)
    ensures ph.Clocking? ==> EdgesLeft(Run(s, steps).master.port) == EdgesLeft(s.master.port) - MasterEdges(s, steps)
    ensures ph.Clocking? <==> MasterEdges(s, steps) < EdgesLeft(s.master.port)
  {
    hide Next, IsMasterEdge;
    if steps == [] {
      ph := Clocking;
    } else {
      var rest, step := steps[..|steps| - 1], steps[|steps| - 1];
      var before := RunStaysInPhase(s, a, b, rest);
      ph := StepKeepsPhase(Run(s, rest), a, b, before, step);
    }
  }

  predicate Swapped(s: System, a: Bits, b: Bits) {
    && After(s, a)
    && !s.master.port.sc.active && s.master.port.sb == b && s.master.irqs == 1
    && s.master.port.linkOut == [] && s.master.pending == [] && s.master.inbox == []
    && s.slave.port.linkOut == [] && s.slave.pending == [] && s.slave.inbox == []
  }

  /** The master has not completed. The slave is untouched, with the master's byte in one place on its
      way once it is clocked out; or the slave holds a and its own byte is on its way back. */
  predicate Outstanding(s: System, a: Bits, b: Bits) {
    var out, wire, buffered, back := s.master.port.linkOut, s.slave.inbox, s.slave.pending, s.master.inbox;
    && s.master.port.sc.active && s.master.irqs == 0 && s.master.pending == [] && s.slave.port.linkOut == []
    && if After(s, a) then s.master.port.waiting && out == [] && wire == [] && buffered == [] && back == [Sync2(b)]
       else
         && Before(s, b) && back == []
         && if !s.master.port.waiting then out == [] && wire == [] && buffered == []
            else
              || (out == [a] && wire == [] && buffered == [])
              || (out == [] && wire == [Sync1(a)] && buffered == [])
              || (out == [] && wire == [] && buffered == [a])
  }

  /** From the SC write on, under every interleaving of clock edges, DIV resets, armings of the slave and
      frontend steps on both sides, the exchange is outstanding or the bytes are swapped with the
      master's transfer flag clear, one interrupt on each side and nothing left in flight. It cannot be
      past clocking before the sixteenth edge, and it is past clocking from then on. */
  lemma ExchangeIsExact(s: System, was: Port, value: Bits, a: Bits, b: Bits, steps: seq<Step>)
    requires was.Valid() && Started(s, was, value, a, b)
    ensures var t := Run(s, steps);
      && (Outstanding(t, a, b) || Swapped(t, a, b))
      && (t.master.port.waiting || Swapped(t, a, b) <==> MasterEdges(s, steps) >= 16)
  {
    StartedIsClocking(s, was, value, a, b);
    hide Started, Port.WriteSc, Run, MasterEdges, ShiftingOut;
    var ph := RunStaysInPhase(s, a, b, steps);
  }

  /** Nothing is lost: from any point past clocking, once the slave is armed, moving each byte once
      completes the exchange, whether or not the byte came before the slave was armed. */
  lemma PumpCompletes(s: System, a: Bits, b: Bits, ph: Phase, value: Arming)
    requires InPhase(s, a, b, ph) && !ph.Clocking?
    ensures s.armings > 0 ==>
      Swapped(Run(s, [Master(Ship), Slave(Receive), Slave(Drain), Master(Receive)]), a, b)
    ensures s.armings == 0 ==>
      Swapped(Run(s, [Master(Ship), Slave(Receive), Arm(value), Slave(Drain), Master(Receive)]), a, b)
  {
    hide Next, Run, InPhase, Swapped, System.Valid;
    var t, p := Delivered(s, a, b, ph);
    if s.armings > 0 {
      Drained(t, a, b, p);
      RunFour(s, Master(Ship), Slave(Receive), Slave(Drain), Master(Receive));
    } else {
      var q := ArmKeepsPhase(t, a, b, p, value);
      Drained(Next(t, Arm(value)), a, b, q);
      var steps := [Master(Ship), Slave(Receive), Arm(value), Slave(Drain)];
      RunFour(s, Master(Ship), Slave(Receive), Arm(value), Slave(Drain));
      RunOn(s, steps, Master(Receive), [Master(Ship), Slave(Receive), Arm(value), Slave(Drain), Master(Receive)]);
    }
  }

  /** Shipped and received, the byte is at the slave's frontend or beyond. */
  lemma Delivered(s: System, a: Bits, b: Bits, ph: Phase) returns (t: System, p: Phase)
    requires InPhase(s, a, b, ph) && !ph.Clocking?
    ensures s.Valid() && t == Next(Next(s, Master(Ship)), Slave(Receive)) && t.armings == s.armings
    ensures InPhase(t, a, b, p) && (p.Buffered? || p.Replied? || p.Exchanged?)
  {
    assert s.Valid();
    hide Next, InPhase;
    var shipped := Next(s, Master(Ship));
    t := Next(shipped, Slave(Receive));
    var q := FrontendStepKeepsPhase(s, a, b, ph, Master(Ship));
    p := FrontendStepKeepsPhase(shipped, a, b, q, Slave(Receive));
  }

  lemma Drained(s: System, a: Bits, b: Bits, ph: Phase)
    requires InPhase(s, a, b, ph) && (ph.Buffered? || ph.Replied? || ph.Exchanged?) && s.armings > 0
    ensures Swapped(Next(Next(s, Slave(Drain)), Master(Receive)), a, b)
  {
    hide Next, ShiftingOut;
    var p := FrontendStepKeepsPhase(s, a, b, ph, Slave(Drain));
    var q := FrontendStepKeepsPhase(Next(s, Slave(Drain)), a, b, p, Master(Receive));
  }

  lemma RunFour(s: System, w: Step, x: Step, y: Step, z: Step)
    requires s.Valid()
    ensures Run(s, [w, x, y, z]) == Next(Next(Next(Next(s, w), x), y), z)
  {
    hide Next, Run, System.Valid;
    RunNone(s);
    RunOn(s, [], w, [w]);
    RunOn(s, [w], x, [w, x]);
    RunOn(s, [w, x], y, [w, x, y]);
    RunOn(s, [w, x, y], z, [w, x, y, z]);
  }

  lemma RunNone(s: System)
    requires s.Valid()
    ensures Run(s, []) == s
  {
  }

  lemma RunOn(s: System, steps: seq<Step>, x: Step, more: seq<Step>)
    requires s.Valid() && more == steps + [x]
    ensures Run(s, more) == Next(Run(s, steps), x)
  {
    hide Next, System.Valid;
    assert more[..|more| - 1] == steps;
  }
}
