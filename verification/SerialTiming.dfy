/** When a transfer completes, and what it has shifted by then. */
module SerialTiming {
  import opened Words
  import opened Serial

  /** What can reach the port between two SC writes when no cable is attached. */
  datatype Event = Clock(div: Word16) | DivReset(before: Word16) | SbWrite(value: Bits)

  function Apply(p: Port, e: Event): (r: (Port, bool))
    requires p.Valid()
    ensures r.0.Valid()
  {
    match e
    case Clock(div) => p.Tick(div)
    case DivReset(before) => p.DivWrite(before)
    case SbWrite(value) => (p.(sb := value), false)
  }

  function Run(p: Port, events: seq<Event>): (r: Port)
    requires p.Valid()
    ensures r.Valid()
  {
    if events == [] then p
    else
      var q := Run(p, events[..|events| - 1]);
      Apply(q, events[|events| - 1]).0
  }

  predicate RaisesIrq(p: Port, events: seq<Event>, i: nat)
    requires p.Valid() && i < |events|
  {
    Apply(Run(p, events[..i]), events[i]).1
  }

  /** The event is a falling edge of the DIV bit that clocks the port. */
  predicate IsEdge(p: Port, e: Event) {
    match e
    case Clock(div) => p.Falls(div)
    case DivReset(before) => p.ClockBit(before)
    case SbWrite(_) => false
  }

  function EdgeCount(p: Port, events: seq<Event>): nat
    requires p.Valid()
  {
    if events == [] then 0
    else
      var rest := events[..|events| - 1];
      EdgeCount(p, rest) + if IsEdge(Run(p, rest), events[|events| - 1]) then 1 else 0
  }

  lemma RunNothing(p: Port)
    requires p.Valid()
    ensures Run(p, []) == p && EdgeCount(p, []) == 0
  {
  }

  lemma RunStep(p: Port, events: seq<Event>, e: Event)
    requires p.Valid()
    ensures Run(p, events + [e]) == Apply(Run(p, events), e).0
    ensures EdgeCount(p, events + [e]) == EdgeCount(p, events) + if IsEdge(Run(p, events), e) then 1 else 0
  {
    hide Apply, IsEdge;
    assert (events + [e])[..|events|] == events;
  }

  /** Edges a fresh transfer needs: two for each bit, but a bit that the SC write itself forced
      out of the old transfer counts. */
  function EdgesNeeded(was: Port): nat {
    if was.masterClock && was.Shifting() then 14 else 16
  }

  /** The transfer after c edges, when it needs n. */
  predicate AfterEdges(p: Port, n: nat, c: nat) {
    && p.Valid() && !p.connected
    && p.masterClock == (c % 2 == 1)
    && if c < n then p.Shifting() && 2 * p.shifted + n == 16 + c - c % 2 else !p.sc.active
  }

  lemma OneMoreEvent(p: Port, e: Event, n: nat, c: nat)
    requires (n == 14 || n == 16) && AfterEdges(p, n, c)
    ensures var (q, irq) := Apply(p, e);
      && AfterEdges(q, n, if IsEdge(p, e) then c + 1 else c)
      && q.cgb == p.cgb && q.sc.fast == p.sc.fast
      && (irq <==> IsEdge(p, e) && c == n - 1)
  {
  }

  lemma {:induction false} TransferAfterEvents(p: Port, events: seq<Event>, n: nat)
    requires p.Valid() && (n == 14 || n == 16) && AfterEdges(p, n, 0)
    ensures AfterEdges(Run(p, events), n, EdgeCount(p, events))
    ensures Run(p, events).Period() == p.Period()
  {
    hide AfterEdges;
    if events == [] {
    } else {
      var rest := events[..|events| - 1];
      TransferAfterEvents(p, rest, n);
      OneMoreEvent(Run(p, rest), events[|events| - 1], n, EdgeCount(p, rest));
    }
  }

  lemma TransferStart(was: Port, value: Bits)
    requires was.Valid() && !was.connected && value[0] && value[7]
    ensures AfterEdges(was.WriteSc(value), EdgesNeeded(was), 0)
  {
  }

  lemma InterruptEdge(p: Port, needed: nat, events: seq<Event>, i: nat)
    requires p.Valid() && (needed == 14 || needed == 16) && AfterEdges(p, needed, 0)
    requires i < |events|
    ensures RaisesIrq(p, events, i)
       <==> IsEdge(Run(p, events[..i]), events[i]) && EdgeCount(p, events[..i]) + 1 == needed
  {
    hide AfterEdges, Apply, IsEdge;
    TransferAfterEvents(p, events[..i], needed);
    OneMoreEvent(Run(p, events[..i]), events[i], needed, EdgeCount(p, events[..i]));
  }

  /** After an SC write that starts an internal-clock transfer without a cable, the interrupt comes
      with the 16th falling edge of the clock bit and no other event, DIV resets included; with the
      14th when the write forced a bit of an old transfer out. */
  lemma CompletionTime(was: Port, value: Bits, events: seq<Event>, i: nat)
    requires was.Valid() && !was.connected && value[0] && value[7]
    requires i < |events|
    ensures var p := was.WriteSc(value);
      RaisesIrq(p, events, i)
      <==> IsEdge(Run(p, events[..i]), events[i]) && EdgeCount(p, events[..i]) + 1 == EdgesNeeded(was)
  {
    TransferStart(was, value);
    hide Port.WriteSc, AfterEdges, Apply, IsEdge;
    InterruptEdge(was.WriteSc(value), EdgesNeeded(was), events, i);
  }

  // ----- A free-running divider

  /** M-cycles 1 to n after the counter stood at d: it advances by 4 and wraps at sixteen bits. */
  function FreeRun(d: Word16, n: nat): (events: seq<Event>)
    ensures |events| == n
  {
    if n == 0 then [] else FreeRun(d, n - 1) + [Clock((d + 4 * n) % 0x1_0000)]
  }

  lemma WrapKeepsLowBits(x: nat)
    ensures x % 0x1_0000 % 8 == x % 8 && x % 0x1_0000 % 256 == x % 256
  {
    var q, r := x / 0x1_0000, x % 0x1_0000;
    RemainderBy8(x, 8192 * q + r / 8, r % 8);
    RemainderBy256(x, 256 * q + r / 256, r % 256);
  }

  lemma RemainderBy8(x: nat, k: nat, r: nat)
    requires x == 8 * k + r && r < 8
    ensures x % 8 == r
  {
  }

  lemma RemainderBy256(x: nat, k: nat, r: nat)
    requires x == 256 * k + r && r < 256
    ensures x % 256 == r
  {
  }

  /** How often a counter that runs from 0 to x passes a multiple of the period. */
  function Multiples(x: nat, period: nat): nat
    requires period == 8 || period == 256
  {
    if period == 8 then x / 8 else x / 256
  }

  /** The counter, not wrapped, after `needed` more multiples of the period behind d. */
  function CompletionAt(d: nat, period: nat, needed: nat): nat
    requires period == 8 || period == 256
  {
    if period == 8 then d - d % 8 + 8 * needed else d - d % 256 + 256 * needed
  }

  /** The clock bit falls when the counter reaches a multiple of its period. */
  lemma ClockBitFalls(x: nat, period: nat)
    requires period == 8 || period == 256
    ensures (x % 0x1_0000 % period >= period / 2 && (x + 4) % 0x1_0000 % period < period / 2)
       <==> Multiples(x + 4, period) == Multiples(x, period) + 1
    ensures Multiples(x, period) <= Multiples(x + 4, period) <= Multiples(x, period) + 1
  {
    WrapKeepsLowBits(x);
    WrapKeepsLowBits(x + 4);
  }

  lemma CycleEdge(p: Port, x: nat)
    requires p.Valid() && p.prevDiv == x % 0x1_0000
    ensures var e, period := Clock((x + 4) % 0x1_0000), p.Period();
      && Multiples(x + 4, period) == Multiples(x, period) + (if IsEdge(p, e) then 1 else 0)
      && Apply(p, e).0.prevDiv == (x + 4) % 0x1_0000
  {
    hide Port.Period, Multiples;
    ClockBitFalls(x, p.Period());
  }

  lemma {:induction false} FreeRunEdges(p: Port, needed: nat, n: nat)
    requires p.Valid() && (needed == 14 || needed == 16) && AfterEdges(p, needed, 0)
    ensures var d := p.prevDiv;
      && EdgeCount(p, FreeRun(d, n)) == Multiples(d + 4 * n, p.Period()) - Multiples(d, p.Period())
      && Run(p, FreeRun(d, n)).prevDiv == (d + 4 * n) % 0x1_0000
  {
    hide AfterEdges, Apply, IsEdge, Port.Period, Multiples, Run, EdgeCount;
    var d := p.prevDiv;
    RunNothing(p);
    if n > 0 {
      FreeRunEdges(p, needed, n - 1);
      var rest, x := FreeRun(d, n - 1), d + 4 * (n - 1);
      TransferAfterEvents(p, rest, needed);
      CycleEdge(Run(p, rest), x);
      RunStep(p, rest, Clock((x + 4) % 0x1_0000));
    }
  }

  lemma FreeRunInterrupt(p: Port, needed: nat, m: nat, n: nat)
    requires p.Valid() && (needed == 14 || needed == 16) && AfterEdges(p, needed, 0)
    requires p.prevDiv % 4 == 0 && m < n
    ensures var d := p.prevDiv;
      RaisesIrq(p, FreeRun(d, n), m) <==> d + 4 * (m + 1) == CompletionAt(d, p.Period(), needed)
  {
    hide AfterEdges, Apply, IsEdge, Run, EdgeCount, FreeRun, RaisesIrq, Port.Period, Multiples, CompletionAt;
    var d, period := p.prevDiv, p.Period();
    InterruptEdge(p, needed, FreeRun(d, n), m);
    FreeRunEdges(p, needed, m);
    FreeRunEdges(p, needed, m + 1);
    EdgeOfCycle(p, d, m, n);
    var x := d + 4 * m;
    assert d + 4 * (m + 1) == x + 4;
    CompletionCounter(d, 4 * m, period, needed);
  }

  /** On a free-running divider whose last sample was d, a multiple of 4, the interrupt comes in the
      M-cycle that brings the counter to d - d % P + 16 * P (14 * P after a forced bit), where P is
      256, or 8 on the fast clock: on the slow clock, 4096 cycles after the last falling edge. */
  lemma FreeRunningCompletion(was: Port, value: Bits, m: nat, n: nat)
    requires was.Valid() && !was.connected && value[0] && value[7]
    requires was.prevDiv % 4 == 0 && m < n
    ensures var p, d := was.WriteSc(value), was.prevDiv;
      RaisesIrq(p, FreeRun(d, n), m) <==>
        d + 4 * (m + 1) == CompletionAt(d, if was.cgb && value[6] then 8 else 256, EdgesNeeded(was))
  {
    TransferStart(was, value);
    WriteScKeepsCounter(was, value);
    hide Port.WriteSc, AfterEdges, RaisesIrq, FreeRun;
    FreeRunInterrupt(was.WriteSc(value), EdgesNeeded(was), m, n);
  }

  lemma WriteScKeepsCounter(was: Port, value: Bits)
    requires was.Valid()
    ensures was.WriteSc(value).prevDiv == was.prevDiv && was.WriteSc(value).connected == was.connected
    ensures was.WriteSc(value).Period() == if was.cgb && value[6] then 8 else 256
  {
  }

  lemma EdgeOfCycle(p: Port, d: Word16, m: nat, n: nat)
    requires p.Valid() && m < n
    ensures FreeRun(d, n)[..m] == FreeRun(d, m)
    ensures EdgeCount(p, FreeRun(d, m + 1))
         == EdgeCount(p, FreeRun(d, m)) + if IsEdge(Run(p, FreeRun(d, m)), FreeRun(d, n)[m]) then 1 else 0
  {
    hide IsEdge, Run;
    FreeRunPrefix(d, m, n);
    FreeRunPrefix(d, m + 1, n);
    FreeRunPrefix(d, m, m + 1);
    assert FreeRun(d, n)[m] == FreeRun(d, n)[..m + 1][m];
  }

  lemma FreeRunPrefix(d: Word16, m: nat, n: nat)
    requires m <= n
    ensures FreeRun(d, n)[..m] == FreeRun(d, m)
  {
    if m < n {
      FreeRunPrefix(d, m, n - 1);
    }
  }

  /** The edge number `needed` is the one at which the counter arrives at its multiple of the period. */
  lemma CompletionCounter(d: nat, x: nat, period: nat, needed: nat)
    requires d % 4 == 0 && x % 4 == 0 && (period == 8 || period == 256)
    ensures Multiples(d + x + 4, period) == Multiples(d + x, period) + 1
         && Multiples(d + x, period) - Multiples(d, period) + 1 == needed
       <==> d + x + 4 == CompletionAt(d, period, needed)
  {
    var quarter := WholeQuarters(d, x);
    if period == 8 {
      CompletionCounter8(d, quarter, needed);
    } else {
      CompletionCounter256(d, quarter, needed);
    }
  }

  lemma WholeQuarters(d: nat, x: nat) returns (quarter: nat)
    requires d % 4 == 0 && x % 4 == 0
    ensures d + x == 4 * quarter
  {
    quarter := d / 4 + x / 4;
  }

  lemma CompletionCounter8(d: nat, quarter: nat, needed: nat)
    ensures (4 * quarter + 4) / 8 == 4 * quarter / 8 + 1 && 4 * quarter / 8 - d / 8 + 1 == needed
       <==> 4 * quarter + 4 == d - d % 8 + 8 * needed
  {
    assert d - d % 8 == 8 * (d / 8);
  }

  lemma CompletionCounter256(d: nat, quarter: nat, needed: nat)
    ensures (4 * quarter + 4) / 256 == 4 * quarter / 256 + 1 && 4 * quarter / 256 - d / 256 + 1 == needed
       <==> 4 * quarter + 4 == d - d % 256 + 256 * needed
  {
    assert d - d % 256 == 256 * (d / 256);
  }
}
