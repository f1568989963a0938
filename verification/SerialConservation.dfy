/** No peer byte is lost, invented or reordered by a connected port, whatever reaches it. */
module SerialConservation {
  import opened Words
  import opened Serial

  /** Everything that can happen to a port while its cable stays attached. */
  datatype Op =
    | Clock(div: Word16) | DivReset(before: Word16)
    | WriteSb(value: Bits) | WriteSc(value: Bits) | SetCgb(on: bool)
    | Attach | Push(byte: Bits) | TakeSend | Serve(byte: Bits) | TakeOutput

  /** A port with a record of its traffic: peer bytes it accepted, what SB held at each master
      completion, bytes queued for the peer and bytes handed over, eighth shifts, and stalls that an
      SC write abandoned. */
  datatype Traffic = Traffic(port: Port, accepted: seq<Bits>, received: seq<Bits>,
                             sent: seq<Bits>, taken: seq<Bits>, eighths: nat, abandoned: nat)

  function Outcome(p: Port, op: Op): (r: (Port, bool))
    requires p.Valid() && p.connected
    ensures r.0.Valid() && r.0.connected
  {
    hide Port.MasterEdge;
    match op
    case Clock(div) => p.Tick(div)
    case DivReset(before) => p.DivWrite(before)
    case WriteSb(value) => (p.(sb := value), false)
    case WriteSc(value) => (p.WriteSc(value), false)
    case SetCgb(on) => (p.(cgb := on), false)
    case Attach => p.SetConnected(true)
    case Push(byte) => p.PushLinkIn(byte)
    case TakeSend => (if p.linkOut == [] then p else p.(linkOut := p.linkOut[1..]), false)
    case Serve(byte) => (p.SlaveTransfer(byte).0, false)
    case TakeOutput => (p.(outBuf := []), false)
  }

  predicate IsEdge(p: Port, op: Op) {
    match op
    case Clock(div) => p.Falls(div)
    case DivReset(before) => p.ClockBit(before)
    case _ => false
  }

  /** The edge shifts the last bit of a byte. */
  predicate IsEighthShift(p: Port, op: Op) {
    IsEdge(p, op) && p.masterClock && p.Shifting() && p.shifted == 7
  }

  function Next(t: Traffic, op: Op): (r: Traffic)
    requires t.port.Valid() && t.port.connected
    ensures r.port.Valid() && r.port.connected
  {
    var p := t.port;
    var (q, completed) := Outcome(p, op);
    var eighth := IsEighthShift(p, op);
    Traffic(
      q,
      if op.Push? && (p.waiting || |p.linkIn| < LINK_QUEUE_CAP) then t.accepted + [op.byte] else t.accepted,
      if completed then t.received + [q.sb] else t.received,
      if eighth && |p.linkOut| < LINK_QUEUE_CAP then t.sent + [p.outShift[1..] + [p.sb[0]]] else t.sent,
      if op.TakeSend? && p.linkOut != [] then t.taken + [p.linkOut[0]] else t.taken,
      if eighth then t.eighths + 1 else t.eighths,
      if op.WriteSc? && p.waiting then t.abandoned + 1 else t.abandoned)
  }

  function Run(t: Traffic, ops: seq<Op>): (r: Traffic)
    requires t.port.Valid() && t.port.connected
    ensures r.port.Valid() && r.port.connected
  {
    if ops == [] then t else Next(Run(t, ops[..|ops| - 1]), ops[|ops| - 1])
  }

  predicate Conserved(t: Traffic) {
    && t.accepted == t.received + t.port.linkIn
    && t.sent == t.taken + t.port.linkOut
    && t.eighths == |t.received| + t.abandoned + if t.port.waiting then 1 else 0
  }

  function Begin(p: Port): Traffic {
    Traffic(p, p.linkIn, [], p.linkOut, [], if p.waiting then 1 else 0, 0)
  }

  lemma EdgeConserves(p: Port)
    requires p.Valid() && p.connected
    ensures var (q, completed) := p.MasterEdge();
      var eighth := p.masterClock && p.Shifting() && p.shifted == 7;
      && q.linkOut == (if eighth && |p.linkOut| < LINK_QUEUE_CAP then p.linkOut + [p.outShift[1..] + [p.sb[0]]]
        else p.linkOut)
      && (completed <==> eighth && p.linkIn != [])
      && (completed ==> p.linkIn == [q.sb] + q.linkIn && !q.waiting)
      && (!completed ==> p.linkIn == q.linkIn && (q.waiting <==> p.waiting || eighth))
  {
  }

  /** Moving the head of a queue behind what was taken from it. */
  lemma Reassociate<T>(taken: seq<T>, head: T, queue: seq<T>)
    ensures taken + ([head] + queue) == taken + [head] + queue
  {
  }

  lemma ClockConserves(t: Traffic, op: Op)
    requires t.port.Valid() && t.port.connected && Conserved(t)
    requires op.Clock? || op.DivReset?
    ensures Conserved(Next(t, op))
  {
    hide Port.MasterEdge, Port.ClockBit;
    var p, q := t.port, Outcome(t.port, op).0;
    EdgeConserves(p.(prevDiv := if op.Clock? then op.div else 0));
    Reassociate(t.received, q.sb, q.linkIn);
    assert t.taken + (p.linkOut + [p.outShift[1..] + [p.sb[0]]]) == t.taken + p.linkOut + [p.outShift[1..] + [p.sb[0]]];
  }

  lemma WriteScConserves(t: Traffic, op: Op)
    requires t.port.Valid() && t.port.connected && Conserved(t)
    requires op.WriteSc?
    ensures Conserved(Next(t, op))
  {
    hide Port.MasterEdge;
    EdgeConserves(t.port.(shifted := 0));
  }

  lemma QueueOpConserves(t: Traffic, op: Op)
    requires t.port.Valid() && t.port.connected && Conserved(t)
    requires !op.Clock? && !op.DivReset? && !op.WriteSc?
    ensures Conserved(Next(t, op))
  {
    hide Port.MasterEdge;
    var p := t.port;
    match op
    case Push(byte) => assert t.received + (p.linkIn + [byte]) == t.received + p.linkIn + [byte];
    case TakeSend =>
      if p.linkOut != [] {
        Reassociate(t.taken, p.linkOut[0], p.linkOut[1..]);
        assert p.linkOut == [p.linkOut[0]] + p.linkOut[1..];
      }
    case _ =>
  }

  lemma OpConserves(t: Traffic, op: Op)
    requires t.port.Valid() && t.port.connected && Conserved(t)
    ensures Conserved(Next(t, op))
  {
    hide Next, Conserved;
    match op
    case Clock(_) => ClockConserves(t, op);
    case DivReset(_) => ClockConserves(t, op);
    case WriteSc(_) => WriteScConserves(t, op);
    case _ => QueueOpConserves(t, op);
  }

  /** Over every run of a port that stays connected: the peer bytes accepted are, in order, the SB
      values at the master completions followed by what is still queued; every eighth shift ships one
      byte while the send queue has room; and each of them is a completion, the stall in progress, or
      a stall that an SC write abandoned. */
  lemma {:induction false} RunConserves(p: Port, ops: seq<Op>)
    requires p.Valid() && p.connected
    ensures Conserved(Run(Begin(p), ops))
  {
    hide Next;
    if ops != [] {
      RunConserves(p, ops[..|ops| - 1]);
      OpConserves(Run(Begin(p), ops[..|ops| - 1]), ops[|ops| - 1]);
    }
  }
}
