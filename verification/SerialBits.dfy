/** What a transfer without a cable shifts in and out. */
module SerialBits {
  import opened Words
  import opened Serial
  import opened SerialTiming

  /** The byte a port shifts in: the peer's next one, or all ones where there is none. */
  function PeerByte(p: Port): Bits {
    if p.linkIn == [] then ONES else p.linkIn[0]
  }

  /** k bits of `start` are out and as many of `incoming` are in, the rest of `start` in front of them. */
  predicate Halfway(p: Port, start: Bits, incoming: Bits, k: nat) {
    && k <= 8 && p.shifted == k % 8
    && p.sb == start[k..] + incoming[..k]
    && p.outShift[8 - k..] == start[..k]
  }

  predicate NoSbWrite(events: seq<Event>) {
    forall i :: 0 <= i < |events| ==> !events[i].SbWrite?
  }

  /** Bytes captured: up to the cap, one more. */
  function Captured(before: seq<Bits>, byte: Bits): seq<Bits> {
    if |before| < 0x1_0000 then before + [byte] else before
  }

  lemma ShiftMovesOneBit(p: Port, start: Bits, incoming: Bits, k: nat)
    requires p.Valid() && k < 8 && Halfway(p, start, incoming, k) && incoming == PeerByte(p)
    ensures p.shifted == k && p.Shift().shifted == k + 1
    ensures k < 7 ==> Halfway(p.Shift(), start, incoming, k + 1)
    ensures k == 7 ==> p.Shift().sb == incoming && p.Shift().outShift == start
  {
    var q := p.Shift();
    assert p.Incoming() == incoming[k];
    assert start[k..] == [start[k]] + start[k + 1..];
    assert incoming[..k + 1] == incoming[..k] + [incoming[k]];
    assert start[..k + 1] == start[..k] + [start[k]];
    assert q.outShift[7 - k..] == start[..k + 1];
    if k == 7 {
      assert q.outShift == q.outShift[0..] && start == start[..8] && incoming == incoming[..8];
    }
  }

  /** Bits moved after c of n edges. */
  function BitsMoved(n: nat, c: nat): int {
    (16 - n + c) / 2
  }

  /** The port after c of the n edges of a transfer of `start`. */
  predicate Moved(p: Port, was: Port, n: nat, c: nat, start: Bits) {
    && AfterEdges(p, n, c) && p.linkIn == was.linkIn
    && var k := if c < n then BitsMoved(n, c) else 8;
       && 0 <= k <= 8 && Halfway(p, start, PeerByte(was), k)
       && p.outBuf == if c < n then was.outBuf else Captured(was.outBuf, start)
  }

  /** The edges at which a shifting port without a cable shifts, and what else they change. */
  lemma ShiftingEdge(p: Port)
    requires p.Valid() && p.Shifting() && p.masterClock && !p.connected
    ensures var q, t := p.MasterEdge().0, p.(masterClock := false).Shift();
      && q.linkIn == p.linkIn && q.sb == t.sb && q.outShift == t.outShift && q.shifted == t.shifted % 8
      && q.outBuf == if p.shifted < 7 then p.outBuf else Captured(p.outBuf, t.outShift)
  {
    hide Port.Incoming;
  }

  lemma OneMoreBit(n: nat, c: nat)
    requires (n == 14 || n == 16) && c % 2 == 1 && c < n
    ensures 0 <= BitsMoved(n, c) < 8 && BitsMoved(n, c + 1) == BitsMoved(n, c) + 1
    ensures BitsMoved(n, c) == 7 <==> c + 1 == n
  {
  }

  lemma BitMoves(p: Port, start: Bits, incoming: Bits, k: nat)
    requires p.Valid() && p.Shifting() && p.masterClock && !p.connected
    requires k < 8 && Halfway(p, start, incoming, k) && incoming == PeerByte(p)
    ensures var q := p.MasterEdge().0;
      && Halfway(q, start, incoming, k + 1) && q.linkIn == p.linkIn
      && q.outBuf == if k < 7 then p.outBuf else Captured(p.outBuf, start)
  {
    hide Port.MasterEdge, Port.Shift, Captured, Halfway, PeerByte;
    var q, low := p.MasterEdge().0, p.(masterClock := false);
    ShiftingEdge(p);
    SameBits(p, low, start, incoming, k);
    SamePeer(p, low);
    ShiftMovesOneBit(low, start, incoming, k);
    if k < 7 {
      SameBits(low.Shift(), q, start, incoming, k + 1);
    } else {
      AllMoved(q, start, incoming);
    }
  }

  lemma SamePeer(p: Port, q: Port)
    requires p.linkIn == q.linkIn
    ensures PeerByte(p) == PeerByte(q)
  {
  }

  lemma SameBits(p: Port, q: Port, start: Bits, incoming: Bits, k: nat)
    requires Halfway(p, start, incoming, k) && q.sb == p.sb && q.outShift == p.outShift && q.shifted == p.shifted % 8
    ensures Halfway(q, start, incoming, k)
  {
  }

  lemma AllMoved(q: Port, start: Bits, incoming: Bits)
    requires q.sb == incoming && q.outShift == start && q.shifted == 0
    ensures Halfway(q, start, incoming, 8)
  {
    assert start[8..] + incoming[..8] == incoming && start[..8] == start && q.outShift[0..] == start;
  }

  lemma AfterOddEdges(p: Port, n: nat, c: nat)
    requires AfterEdges(p, n, c) && c % 2 == 1 && c < n
    ensures p.Valid() && p.Shifting() && p.masterClock && !p.connected
  {
  }

  /** A falling edge of the port's own clock flip-flop moves one bit; the last one completes. */
  lemma FallingEdgeMoves(p: Port, was: Port, n: nat, c: nat, start: Bits)
    requires (n == 14 || n == 16) && Moved(p, was, n, c, start) && c % 2 == 1 && c < n
    ensures Moved(p.MasterEdge().0, was, n, c + 1, start)
  {
    hide Port.MasterEdge, Port.Valid, Port.Shifting, AfterEdges, Halfway, PeerByte, Captured, BitsMoved;
    AfterOddEdges(p, n, c);
    SamePeer(p, was);
    OneMoreBit(n, c);
    OneMoreEdge(p, n, c);
    BitMoves(p, start, PeerByte(was), BitsMoved(n, c));
  }

  lemma OneMoreEdge(p: Port, n: nat, c: nat)
    requires (n == 14 || n == 16) && AfterEdges(p, n, c)
    ensures AfterEdges(p.MasterEdge().0, n, c + 1)
  {
  }

  lemma OtherEdgeMovesNothing(p: Port, was: Port, n: nat, c: nat, start: Bits)
    requires (n == 14 || n == 16) && Moved(p, was, n, c, start) && (c % 2 == 0 || c >= n)
    ensures Moved(p.MasterEdge().0, was, n, c + 1, start)
  {
    hide Halfway;
    assert p.MasterEdge().0 == p.(masterClock := !p.masterClock);
    SameBits(p, p.MasterEdge().0, start, PeerByte(was), if c < n then BitsMoved(n, c) else 8);
  }

  lemma EdgeMoves(p: Port, was: Port, n: nat, c: nat, start: Bits)
    requires (n == 14 || n == 16) && Moved(p, was, n, c, start)
    ensures Moved(p.MasterEdge().0, was, n, c + 1, start)
  {
    hide Moved, Port.MasterEdge;
    if c % 2 == 1 && c < n {
      FallingEdgeMoves(p, was, n, c, start);
    } else {
      OtherEdgeMovesNothing(p, was, n, c, start);
    }
  }

  lemma CounterMovesNothing(p: Port, was: Port, n: nat, c: nat, start: Bits, div: Word16)
    requires Moved(p, was, n, c, start)
    ensures Moved(p.(prevDiv := div), was, n, c, start)
  {
  }

  lemma MovedByEvent(p: Port, was: Port, e: Event, n: nat, c: nat, start: Bits)
    requires (n == 14 || n == 16) && Moved(p, was, n, c, start) && !e.SbWrite? && p.Valid()
    ensures Moved(Apply(p, e).0, was, n, if IsEdge(p, e) then c + 1 else c, start)
  {
    hide Port.MasterEdge, Port.ClockBit, Moved;
    var div := match e case Clock(div) => div case DivReset(_) => 0;
    CounterMovesNothing(p, was, n, c, start, div);
    EdgeMoves(p.(prevDiv := div), was, n, c, start);
  }

  lemma {:induction false} MovedByEvents(p: Port, was: Port, events: seq<Event>, n: nat, start: Bits)
    requires (n == 14 || n == 16) && p.Valid() && Moved(p, was, n, 0, start) && NoSbWrite(events)
    ensures Moved(Run(p, events), was, n, EdgeCount(p, events), start)
  {
    hide Moved, Apply, IsEdge;
    if events != [] {
      var rest := events[..|events| - 1];
      MovedByEvents(p, was, rest, n, start);
      MovedByEvent(Run(p, rest), was, events[|events| - 1], n, EdgeCount(p, rest), start);
    }
  }

  lemma StartMoves(was: Port, value: Bits)
    requires was.Valid() && !was.connected && value[0] && value[7]
    ensures Moved(was.WriteSc(value), was, EdgesNeeded(was), 0, was.sb)
  {
    TransferStart(was, value);
    if was.masterClock && was.Shifting() {
      ShiftMovesOneBit(was.(shifted := 0, masterClock := false), was.sb, PeerByte(was), 0);
    }
  }

  /** From the SC write on, while nobody writes SB: with every second falling edge SB loses its top bit and
      takes in a one, the bit that the write forced out counted; when the transfer completes SB is all ones,
      and the byte captured is what SB held at the write. */
  lemma TransferMovesByte(was: Port, value: Bits, events: seq<Event>)
    requires was.Valid() && !was.connected && was.linkIn == [] && value[0] && value[7] && NoSbWrite(events)
    ensures var p := was.WriteSc(value);
      var q, n, c := Run(p, events), EdgesNeeded(was), EdgeCount(p, events);
      if c < n then
        && 0 <= BitsMoved(n, c) < 8 && q.sc.active && q.outBuf == was.outBuf
        && q.sb == was.sb[BitsMoved(n, c)..] + ONES[..BitsMoved(n, c)]
      else
        !q.sc.active && q.sb == ONES && q.outBuf == Captured(was.outBuf, was.sb)
  {
    StartMoves(was, value);
    hide Port.WriteSc, Run, EdgeCount;
    MovedByEvents(was.WriteSc(value), was, events, EdgesNeeded(was), was.sb);
  }

  // ----- Unplugging

  /** p without its cable. */
  function Unplugged(p: Port): Port
    requires p.Valid()
  {
    p.SetConnected(false).0
  }

  /** Nothing comes from the peer, and what has been shifted in so far is ones. */
  predicate Unanswered(p: Port) {
    p.Valid() && p.linkIn == [] && (p.Shifting() ==> forall i :: 8 - p.shifted <= i < 8 ==> p.sb[i])
  }

  lemma UnansweredEdge(p: Port)
    requires Unanswered(p)
    ensures Unanswered(p.MasterEdge().0)
    ensures Unplugged(p.MasterEdge().0) == Unplugged(p).MasterEdge().0
  {
    var low := p.(masterClock := false);
    if p.masterClock && p.Shifting() {
      var q := low.Shift();
      assert forall i :: 7 - p.shifted <= i < 7 ==> q.sb[i] == p.sb[i + 1];
      assert p.shifted == 7 ==> q.sb == ONES;
      assert Unplugged(p).(masterClock := false).Shift() == q.(connected := false, linkOut := []);
    }
  }

  lemma UnansweredEvent(p: Port, e: Event)
    requires Unanswered(p) && !e.SbWrite?
    ensures Unanswered(Apply(p, e).0) && Unplugged(Apply(p, e).0) == Apply(Unplugged(p), e).0
  {
    hide Port.MasterEdge;
    var div := match e case Clock(div) => div case DivReset(_) => 0;
    UnansweredEdge(p.(prevDiv := div));
  }

  lemma {:induction false} UnansweredRun(p: Port, events: seq<Event>)
    requires p.Valid() && Unanswered(p) && NoSbWrite(events)
    ensures Unanswered(Run(p, events)) && Unplugged(Run(p, events)) == Run(Unplugged(p), events)
  {
    hide Unanswered, Unplugged, Apply;
    if events != [] {
      var n := |events| - 1;
      UnansweredRun(p, events[..n]);
      UnansweredEvent(Run(p, events[..n]), events[n]);
    }
  }

  /** A transfer whose peer stays silent, unplugged at any time, a stall included, leaves the port as if
      there had been no cable. */
  lemma UnpluggingIsNoCable(was: Port, value: Bits, events: seq<Event>)
    requires was.Valid() && !was.waiting && was.linkIn == [] && value[0] && value[7] && NoSbWrite(events)
    ensures var p := was.WriteSc(value);
      p.Valid() && Unplugged(Run(p, events)) == Run(Unplugged(was).WriteSc(value), events)
  {
    var p := was.WriteSc(value);
    assert Unanswered(p) && Unplugged(p) == Unplugged(was).WriteSc(value);
    hide Unanswered, Unplugged, Port.WriteSc;
    UnansweredRun(p, events);
  }

  // ----- With a peer

  /** The eighth shift of a cabled transfer of `start`: the byte goes out, unless 256 wait already; the peer's
      oldest byte comes in and completes the transfer with an interrupt, or there is none and the port stalls. */
  lemma CabledCompletion(p: Port, start: Bits)
    requires p.Valid() && p.Shifting() && p.masterClock && p.connected && Halfway(p, start, PeerByte(p), 7)
    ensures var (q, irq) := p.MasterEdge();
      && q.outBuf == Captured(p.outBuf, start) && q.shifted == 0
      && q.linkOut == (if |p.linkOut| < 256 then p.linkOut + [start] else p.linkOut)
      && if p.linkIn != [] then
           irq && !q.sc.active && !q.waiting && q.sb == p.linkIn[0] && q.linkIn == p.linkIn[1..]
         else !irq && q.sc.active && q.waiting && q.linkIn == []
  {
    var low := p.(masterClock := false);
    SameBits(p, low, start, PeerByte(p), 7);
    SamePeer(p, low);
    ShiftMovesOneBit(low, start, PeerByte(p), 7);
    hide Halfway, PeerByte, Port.Incoming;
    assert p.MasterEdge() == low.Shift().Complete();
  }

  /** A peer byte completes a stalled transfer, or waits behind at most 255 others; the rest of the port stays. */
  lemma PeerByteArrives(p: Port, byte: Bits)
    requires p.Valid()
    ensures p.PushLinkIn(byte) ==
      if p.waiting then (p.(sb := byte, sc := p.sc.(active := false), waiting := false), true)
      else (p.(linkIn := if |p.linkIn| < 256 then p.linkIn + [byte] else p.linkIn), false)
  {
  }

  /** A port that waits for a clock from outside swaps its byte for the peer's and is done; another one does not
      take part. */
  lemma SlaveSwaps(p: Port, byte: Bits)
    requires p.Valid()
    ensures p.SlaveTransfer(byte) ==
      if p.sc.active && !p.sc.internal then
        (p.(sb := byte, sc := p.sc.(active := false), shifted := 0), Some(p.sb))
      else (p, None)
  {
  }

  /** A cable that is plugged in changes nothing else; one that is pulled out takes both queues with it, and
      completes a stalled transfer, and only that, with an interrupt and eight ones. */
  lemma CableChanges(p: Port, on: bool)
    requires p.Valid()
    ensures p.SetConnected(true) == (p.(connected := true), false)
    ensures var bare := p.(connected := false, linkIn := [], linkOut := [], waiting := false);
      p.SetConnected(false) ==
        if p.waiting then (bare.(sb := seq(8, _ => true), sc := p.sc.(active := false)), true) else (bare, false)
  {
    assert ONES == seq(8, _ => true);
  }

  // ----- Registers

  /** A byte as a number, its bits most significant first. */
  function Number(bits: Bits): nat {
    (if bits[0] then 128 else 0) + (if bits[1] then 64 else 0) + (if bits[2] then 32 else 0)
    + (if bits[3] then 16 else 0) + (if bits[4] then 8 else 0) + (if bits[5] then 4 else 0)
    + (if bits[6] then 2 else 0) + (if bits[7] then 1 else 0)
  }

  /** SC: bit 7 starts a transfer, bit 0 selects the internal clock, and bit 1, on CGB alone, the fast one; the
      port is clocked by DIV bit 7, or bit 2 when fast. */
  lemma ControlByNumber(value: Bits, p: Port)
    ensures var v, c := Number(value), ControlOf(value, p.cgb);
      && (c.active <==> v / 0x80 == 1) && (c.internal <==> v % 2 == 1) && (c.fast <==> p.cgb && v / 2 % 2 == 1)
    ensures forall div: Word16 :: p.ClockBit(div) <==>
      if p.cgb && p.sc.fast then div / 4 % 2 == 1 else div / 0x80 % 2 == 1
  {
    NumberFields(value);
    forall div: Word16
      ensures p.ClockBit(div) <==> if p.cgb && p.sc.fast then div / 4 % 2 == 1 else div / 0x80 % 2 == 1
    {
      DivBit2(div);
      DivBit7(div);
    }
  }

  lemma NumberFields(value: Bits)
    ensures Number(value) / 0x80 == (if value[0] then 1 else 0) && Number(value) % 2 == (if value[7] then 1 else 0)
    ensures Number(value) / 2 % 2 == if value[6] then 1 else 0
  {
    var half := Number(value) / 2;
    assert half == (if value[0] then 64 else 0) + (if value[1] then 32 else 0) + (if value[2] then 16 else 0)
      + (if value[3] then 8 else 0) + (if value[4] then 4 else 0) + (if value[5] then 2 else 0)
      + (if value[6] then 1 else 0);
  }

  lemma DivBit2(div: Word16)
    ensures div % 8 >= 4 <==> div / 4 % 2 == 1
  {
    assert div / 4 == 2 * (div / 8) + (if div % 8 >= 4 then 1 else 0);
  }

  lemma DivBit7(div: Word16)
    ensures div % 256 >= 128 <==> div / 0x80 % 2 == 1
  {
    assert div / 0x80 == 2 * (div / 256) + (if div % 256 >= 128 then 1 else 0);
  }

  /** After power-up: SB and SC zero, nothing shifted, captured, connected or queued. */
  lemma FreshPort(cgb: bool)
    ensures var zero := seq(8, _ => false);
      Fresh(cgb) == Port(cgb, zero, Control(false, false, false), 0, false, 0, zero, [], false, [], [], false)
  {
    assert ZERO == seq(8, _ => false);
  }
}
