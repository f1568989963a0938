/** Every DATA_TRN payload reaches its own packet's destination exactly once: the pairing `poll` in
    `commands.rs` relies on, over all runs of a source that captures one screen per packet. */
module DataTrnPairing {
  import opened Words
  import opened DataTrn

  // ----- The source

  /** Where the source stands with its last DATA_TRN packet: its capture is taken (or there is no
      packet yet), it waits in the tee, or it is polled and its capture is still to come. */
  datatype Phase = Idle | Queued | Polled

  datatype Event = Issue(packet: Packet) | Capture(data: Payload) | PollEvent

  /** The host and the source: `issued` are the DATA_TRN packets and `captured` the payloads so far,
      `seen` the captures there were at the last poll. `counted` says whether the source numbers its
      captures. */
  datatype World = World(
    host: State, counted: bool, queue: seq<Packet>, issued: seq<Packet>, captured: seq<Payload>, phase: Phase,
      seen: nat)
  {
    function Latest(): Option<Payload> {
      if captured == [] then None else Some(captured[|captured| - 1])
    }

    function CaptureSeq(): Option<nat> {
      if counted then Some(|captured|) else None
    }

    /** Packets and captures alternate, and a packet is polled before its capture. Packets of other
        commands come at any time. */
    predicate Allows(e: Event) {
      match e
      case Issue(p) => IsDataTrn(p) ==> phase.Idle?
      case Capture(_) => phase.Polled?
      case PollEvent => true
    }

    function Step(e: Event): World {
      match e
      case Issue(p) =>
        if IsDataTrn(p) then this.(queue := queue + [p], issued := issued + [p], phase := Queued)
        else this.(queue := queue + [p])
      case Capture(d) => this.(captured := captured + [d], phase := Idle)
      case PollEvent =>
        this.(host := host.Poll(queue, Latest(), CaptureSeq()), queue := [], seen := |captured|,
          phase := if phase.Queued? then Polled else phase)
    }
  }

  function Begin(counted: bool): World {
    World(START, counted, [], [], [], Idle, 0)
  }

  function Run(counted: bool, events: seq<Event>): World {
    if events == [] then Begin(counted) else Run(counted, events[..|events| - 1]).Step(events[|events| - 1])
  }

  ghost predicate WellFormed(counted: bool, events: seq<Event>) {
    forall i :: 0 <= i < |events| ==> Run(counted, events[..i]).Allows(events[i])
  }

  // ----- What has landed

  function LandedOf(trace: seq<Effect>): seq<(int, Payload)> {
    if trace == [] then []
    else
      var before := LandedOf(trace[..|trace| - 1]);
      match trace[|trace| - 1]
      case Landed(dest, data) => before + [(dest, data)]
      case _ => before
  }

  lemma LandedSnoc(trace: seq<Effect>, e: Effect)
    ensures LandedOf(trace + [e]) == if e.Landed? then LandedOf(trace) + [(e.dest, e.data)] else LandedOf(trace)
  {
    assert (trace + [e])[..|trace|] == trace;
  }

  /** The first m packets' destinations, each with its own capture. */
  function Pairs(issued: seq<Packet>, captured: seq<Payload>, m: nat): seq<(int, Payload)>
    requires m <= |issued| && m <= |captured|
  {
    seq(m, i requires 0 <= i < m => (Dest(issued[i]), captured[i]))
  }

  /** The signature after k captures: none at first. */
  function SigOf(captured: seq<Payload>, k: nat): bv64
    requires k <= |captured|
  {
    if k == 0 then 0 else Checksum(captured[k - 1])
  }

  /** Every packet but perhaps the last has had its own payload, once and in order; if the last has
      not, it is the one packet pending, and its capture is not there yet or has the checksum of the
      payload before it. */
  ghost predicate Paired(w: World) {
    var landed := LandedOf(w.host.trace);
    var m := |landed|;
    && m <= |w.captured| <= |w.issued| && landed == Pairs(w.issued, w.captured, m)
    && w.host.pending == w.issued[m..]
    && (m == |w.issued| || (m == |w.issued| - 1 &&
         (|w.captured| == m || (|w.captured| == m + 1 && Checksum(w.captured[m]) == SigOf(w.captured, m)))))
  }

  // ----- The host, one poll at a time

  lemma ApplyLands(s: State, data: Payload)
    ensures var r := s.Apply(data);
      && r.sig == s.sig && r.seqSeen == s.seqSeen
      && r.pending == (if s.pending == [] then [] else s.pending[1..])
      && LandedOf(r.trace) == LandedOf(s.trace) + if s.pending == [] then [] else [(Dest(s.pending[0]), data)]
  {
    hide LandedOf;
    var staging := if s.flip then STAGING_B else STAGING_A;
    var t := s.trace + [Staged(staging, data)];
    LandedSnoc(s.trace, Staged(staging, data));
    if s.pending != [] {
      var p := s.pending[0];
      LandedSnoc(t, Landed(Dest(p), data));
      LandedSnoc(t + [Landed(Dest(p), data)], Delivered(p, Some(staging)));
      assert t + [Landed(Dest(p), data), Delivered(p, Some(staging))]
          == t + [Landed(Dest(p), data)] + [Delivered(p, Some(staging))];
    }
  }

  /** The DATA_TRN packets among others. */
  function Trns(packets: seq<Packet>): seq<Packet> {
    if packets == [] then []
    else
      var before, p := Trns(packets[..|packets| - 1]), packets[|packets| - 1];
      if IsDataTrn(p) then before + [p] else before
  }

  /** The same to the pairing. */
  ghost predicate Alike(r: State, s: State) {
    r.pending == s.pending && r.sig == s.sig && r.seqSeen == s.seqSeen && LandedOf(r.trace) == LandedOf(s.trace)
  }

  lemma OtherPacket(s: State, p: Packet, data: Option<Payload>)
    requires !IsDataTrn(p)
    ensures Alike(s.TakePacket(p, data), s)
  {
    hide LandedOf, Command;
    LandedSnoc(s.trace, Delivered(p, None));
    LandedSnoc(s.trace, NmiVector(p[4..7]));
    LandedSnoc(s.trace + [NmiVector(p[4..7])], Delivered(p, None));
    assert s.trace + [NmiVector(p[4..7]), Delivered(p, None)] == s.trace + [NmiVector(p[4..7])] + [Delivered(p, None)];
    assert p[0] / 8 != 0x10 by {
      NotTrn(p);
    }
  }

  lemma NotTrn(p: Packet)
    requires !IsDataTrn(p)
    ensures p[0] / 8 != 0x10
  {
  }

  lemma {:induction false} NoTrnKeeps(s: State, packets: seq<Packet>, data: Option<Payload>)
    requires Trns(packets) == []
    ensures Alike(s.TakePackets(packets, data), s)
  {
    hide State.TakePacket, LandedOf;
    if packets != [] {
      var n := |packets| - 1;
      NoTrnKeeps(s, packets[..n], data);
      OtherPacket(s.TakePackets(packets[..n], data), packets[n], data);
    }
  }

  /** What a DATA_TRN packet does: a packet still pending has its payload first. */
  ghost predicate Entered(r: State, s: State, p: Packet, data: Option<Payload>) {
    && r.seqSeen == s.seqSeen && r.pending == [p]
    && (s.pending == [] ==> r.sig == s.sig && LandedOf(r.trace) == LandedOf(s.trace))
    && (s.pending != [] && data.Some? ==>
         r.sig == Checksum(data.value) && LandedOf(r.trace) == LandedOf(s.trace) + [(Dest(s.pending[0]), data.value)])
  }

  lemma TrnPacket(s: State, p: Packet, data: Option<Payload>)
    requires IsDataTrn(p) && |s.pending| <= 1 && (s.pending == [] || data.Some?)
    ensures Entered(s.TakePacket(p, data), s, p, data)
  {
    hide LandedOf, Checksum, IsDataTrn, State.Apply;
    if s.pending != [] {
      ApplyLands(s.(sig := Checksum(data.value)), data.value);
    }
  }

  lemma {:induction false} OneTrn(s: State, packets: seq<Packet>, p: Packet, data: Option<Payload>)
    requires Trns(packets) == [p] && |s.pending| <= 1 && (s.pending == [] || data.Some?)
    ensures Entered(s.TakePackets(packets, data), s, p, data)
  {
    hide State.TakePacket, LandedOf, Checksum, IsDataTrn;
    var n := |packets| - 1;
    var before := s.TakePackets(packets[..n], data);
    if IsDataTrn(packets[n]) {
      NoTrnKeeps(s, packets[..n], data);
      TrnPacket(before, packets[n], data);
    } else {
      OneTrn(s, packets[..n], p, data);
      OtherPacket(before, packets[n], data);
    }
  }

  // ----- The invariant

  function PolledCount(w: World): int {
    if w.phase.Queued? then |w.issued| - 1 else |w.issued|
  }

  /** The host's side: what has landed, what is pending, and what it has seen. */
  ghost predicate HostKnows(w: World) {
    var m := |LandedOf(w.host.trace)|;
    && 0 <= PolledCount(w) && m <= PolledCount(w) <= m + 1 && m <= |w.captured| <= |w.issued|
    && LandedOf(w.host.trace) == Pairs(w.issued, w.captured, m)
    && w.host.pending == w.issued[m..PolledCount(w)]
    && w.seen <= |w.captured| <= w.seen + 1 && w.host.sig == SigOf(w.captured, w.seen)
    && (w.counted ==> w.host.seqSeen == Some(w.seen) || (w.host.seqSeen == None && w.seen == 0))
    && (m == |w.captured| ==> w.seen == |w.captured|)
    && (m < |w.captured| == w.seen ==> Checksum(w.captured[m]) == SigOf(w.captured, m))
  }

  ghost predicate Inv(w: World) {
    && HostKnows(w)
    && |w.captured| == (if w.phase.Idle? then |w.issued| else |w.issued| - 1)
    && Trns(w.queue) == w.issued[PolledCount(w)..]
    && (w.phase.Polled? ==> w.seen == |w.captured|)
    && (!w.phase.Polled? ==> NewLanded(w.captured, |LandedOf(w.host.trace)|))
  }

  /** The last capture has landed before the next packet only for its new checksum. */
  ghost predicate NewLanded(captured: seq<Payload>, m: nat) {
    m == |captured| > 0 ==> Checksum(captured[m - 1]) != SigOf(captured, m - 1)
  }

  lemma TrnsSnoc(packets: seq<Packet>, p: Packet)
    ensures Trns(packets + [p]) == if IsDataTrn(p) then Trns(packets) + [p] else Trns(packets)
  {
    assert (packets + [p])[..|packets|] == packets;
  }

  lemma OtherIssueKeeps(w: World, p: Packet)
    requires Inv(w) && !IsDataTrn(p)
    ensures Inv(w.(queue := w.queue + [p]))
  {
    hide LandedOf, Checksum, IsDataTrn, Pairs, Trns, SigOf;
    TrnsSnoc(w.queue, p);
  }

  lemma TrnIssueKeeps(w: World, p: Packet)
    requires Inv(w) && IsDataTrn(p) && w.phase.Idle?
    ensures Inv(w.(queue := w.queue + [p], issued := w.issued + [p], phase := Queued))
  {
    hide LandedOf, Checksum, IsDataTrn, Trns, SigOf, Dest;
    TrnsSnoc(w.queue, p);
    var issued, m := w.issued + [p], |LandedOf(w.host.trace)|;
    assert issued[m..|w.issued|] == w.issued[m..|w.issued|];
    assert Pairs(issued, w.captured, m) == Pairs(w.issued, w.captured, m);
    assert w.issued[|w.issued|..] == [] && issued[|w.issued|..] == [p];
  }

  lemma IssueKeeps(w: World, p: Packet)
    requires Inv(w) && w.Allows(Issue(p))
    ensures Inv(w.Step(Issue(p)))
  {
    hide Inv, IsDataTrn;
    if IsDataTrn(p) {
      TrnIssueKeeps(w, p);
    } else {
      OtherIssueKeeps(w, p);
    }
  }

  lemma CaptureKeeps(w: World, d: Payload)
    requires Inv(w) && w.Allows(Capture(d))
    ensures Inv(w.Step(Capture(d)))
  {
    hide LandedOf, Checksum, Trns;
    var r, m := w.Step(Capture(d)), |LandedOf(w.host.trace)|;
    assert Pairs(r.issued, r.captured, m) == Pairs(w.issued, w.captured, m);
  }

  /** The host after the packets of a poll, before the payload check. */
  function Drained(w: World): World {
    w.(host := w.host.TakePackets(w.queue, w.Latest()), queue := [],
       phase := if w.phase.Queued? then Polled else w.phase)
  }

  lemma DrainKeeps(w: World)
    requires Inv(w)
    ensures var r := Drained(w);
      var m := |LandedOf(r.host.trace)|;
      && m <= |r.issued| <= m + 1 && m <= |r.captured| <= |r.issued|
      && LandedOf(r.host.trace) == Pairs(r.issued, r.captured, m) && r.host.pending == r.issued[m..]
      && r.host.seqSeen == w.host.seqSeen
      && (m == |r.captured| > 0 ==> r.host.sig == Checksum(r.captured[m - 1]))
      && (m == |r.captured| == 0 ==> r.host.sig == 0)
      && (m < |r.captured| ==> Alike(r.host, w.host) && !w.phase.Queued?)
  {
    hide LandedOf, Checksum, IsDataTrn, Trns, State.TakePackets, Dest;
    var m, data := |LandedOf(w.host.trace)|, w.Latest();
    if w.phase.Queued? {
      var p := w.issued[|w.issued| - 1];
      assert w.issued[PolledCount(w)..] == [p];
      if w.host.pending != [] {
        assert w.host.pending == [w.issued[m]];
        assert Pairs(w.issued, w.captured, m + 1)
            == Pairs(w.issued, w.captured, m) + [(Dest(w.issued[m]), w.captured[m])];
      }
      OneTrn(w.host, w.queue, p, data);
    } else {
      assert w.issued[PolledCount(w)..] == [];
      NoTrnKeeps(w.host, w.queue, data);
    }
  }

  lemma CheckLands(s: State, data: Option<Payload>, captureSeq: Option<nat>)
    ensures var r := s.TakeCapture(data, captureSeq);
      && r.seqSeen == captureSeq
      && (data == None || (captureSeq.Some? && captureSeq == s.seqSeen) || Checksum(data.value) == s.sig ==>
           r.pending == s.pending && r.sig == s.sig && r.trace == s.trace)
      && (data.Some? && !(captureSeq.Some? && captureSeq == s.seqSeen) && Checksum(data.value) != s.sig ==>
           && r.sig == Checksum(data.value)
           && r.pending == (if s.pending == [] then [] else s.pending[1..])
           && LandedOf(r.trace)
                == LandedOf(s.trace) + if s.pending == [] then [] else [(Dest(s.pending[0]), data.value)])
  {
    hide LandedOf, Checksum, State.Apply;
    if data.Some? {
      ApplyLands(s.(seqSeen := captureSeq, sig := Checksum(data.value)), data.value);
    }
  }

  /** A host that has seen every capture: only a repeated one can be waiting. */
  ghost predicate Settled(h: State, issued: seq<Packet>, captured: seq<Payload>) {
    var m := |LandedOf(h.trace)|;
    && m <= |issued| <= m + 1 && m <= |captured| <= |issued|
    && LandedOf(h.trace) == Pairs(issued, captured, m) && h.pending == issued[m..]
    && h.sig == SigOf(captured, |captured|)
    && (m < |captured| ==> Checksum(captured[m]) == SigOf(captured, m))
  }

  lemma PollSettles(w: World)
    requires Inv(w)
    ensures var h := w.host.Poll(w.queue, w.Latest(), w.CaptureSeq());
      Settled(h, w.issued, w.captured) && h.seqSeen == w.CaptureSeq()
  {
    hide LandedOf, Checksum, State.TakePackets, State.TakeCapture, Dest;
    DrainKeeps(w);
    var h := Drained(w).host;
    CheckLands(h, w.Latest(), w.CaptureSeq());
    var m := |LandedOf(h.trace)|;
    if m < |w.captured| {
      assert Pairs(w.issued, w.captured, m + 1)
          == Pairs(w.issued, w.captured, m) + [(Dest(w.issued[m]), w.captured[m])];
      assert h.pending == [w.issued[m]];
    }
  }

  lemma PollLandsNew(w: World)
    requires Inv(w) && w.phase.Idle?
    ensures NewLanded(w.captured, |LandedOf(w.host.Poll(w.queue, w.Latest(), w.CaptureSeq()).trace)|)
  {
    hide LandedOf, Checksum, State.TakePackets, State.TakeCapture, Dest, Trns, Pairs;
    assert w.issued[PolledCount(w)..] == [];
    NoTrnKeeps(w.host, w.queue, w.Latest());
    CheckLands(w.host.TakePackets(w.queue, w.Latest()), w.Latest(), w.CaptureSeq());
  }

  lemma PollKeeps(w: World)
    requires Inv(w)
    ensures Inv(w.Step(PollEvent)) && Paired(w.Step(PollEvent))
  {
    hide LandedOf, Checksum, State.Poll, Pairs, NewLanded;
    PollSettles(w);
    if w.phase.Idle? {
      PollLandsNew(w);
    }
    assert Trns([]) == [];
  }

  lemma {:induction false} RunKeeps(counted: bool, events: seq<Event>)
    requires WellFormed(counted, events)
    ensures Inv(Run(counted, events))
  {
    hide Inv, World.Step, World.Allows;
    if events == [] {
      BeginHolds(counted);
    } else {
      var n := |events| - 1;
      forall i | 0 <= i < n ensures Run(counted, events[..n][..i]).Allows(events[..n][i]) {
        assert events[..n][..i] == events[..i];
      }
      RunKeeps(counted, events[..n]);
      match events[n]
      case Issue(p) => IssueKeeps(Run(counted, events[..n]), p);
      case Capture(d) => CaptureKeeps(Run(counted, events[..n]), d);
      case PollEvent => PollKeeps(Run(counted, events[..n]));
    }
  }

  lemma BeginHolds(counted: bool)
    ensures Inv(Begin(counted))
  {
    assert Pairs([], [], 0) == [];
  }

  /** After every poll of every run in which packets and captures alternate and each packet is polled
      before its capture, the payloads are paired. */
  lemma PollsPair(counted: bool, events: seq<Event>)
    requires WellFormed(counted, events) && events != [] && events[|events| - 1].PollEvent?
    ensures Paired(Run(counted, events))
  {
    hide Inv, Paired, World.Step, World.Allows;
    var n := |events| - 1;
    forall i | 0 <= i < n ensures Run(counted, events[..n][..i]).Allows(events[..n][i]) {
      assert events[..n][..i] == events[..i];
    }
    RunKeeps(counted, events[..n]);
    PollKeeps(Run(counted, events[..n]));
  }

  /** Payloads with one checksum are one payload, and none has the checksum the host starts with. */
  ghost predicate Injective(captured: seq<Payload>) {
    && (forall i, j :: 0 <= i < j < |captured| && Checksum(captured[i]) == Checksum(captured[j]) ==>
      captured[i] == captured[j])
    && (forall i :: 0 <= i < |captured| ==> Checksum(captured[i]) != 0)
  }

  /** With checksums that tell payloads apart, a packet whose capture is there and has not landed has
      a capture identical to the payload before it. */
  lemma OnlyRepeatsWait(w: World)
    requires Paired(w) && Injective(w.captured) && |LandedOf(w.host.trace)| < |w.captured|
    ensures var m := |LandedOf(w.host.trace)|;
      && m == |w.issued| - 1 == |w.captured| - 1 && w.host.pending == [w.issued[m]]
      && m > 0 && w.captured[m] == w.captured[m - 1]
  {
    hide LandedOf, Checksum, Pairs;
  }

  // ----- Exactly when a packet stays pending

  /** The last packet's capture is still to come, or no poll has seen it, or it came with the checksum
      of the payload before it. */
  ghost predicate Waits(w: World) {
    || w.phase.Polled?
    || (w.captured != [] &&
         (w.seen < |w.captured| || Checksum(w.captured[|w.captured| - 1]) == SigOf(w.captured, |w.captured| - 1)))
  }

  lemma WaitsExactly(w: World)
    requires Inv(w)
    ensures w.host.pending != [] <==> Waits(w)
    ensures |w.host.pending| <= 1
  {
    hide LandedOf, Checksum, Trns, Pairs, SigOf;
  }

  /** In every run a packet is pending if and only if one of the three reasons holds. */
  lemma PendingExactly(counted: bool, events: seq<Event>)
    requires WellFormed(counted, events)
    ensures Run(counted, events).host.pending != [] <==> Waits(Run(counted, events))
  {
    hide Run, Inv, Waits;
    RunKeeps(counted, events);
    WaitsExactly(Run(counted, events));
  }

  /** Every capture is polled before the next packet. */
  ghost predicate Prompt(counted: bool, events: seq<Event>) {
    forall i :: 0 <= i < |events| && events[i].Issue? && IsDataTrn(events[i].packet) ==>
      Run(counted, events[..i]).seen == |Run(counted, events[..i]).captured|
  }

  lemma StepHasSeen(w: World, e: Event)
    requires w.Allows(e) && (w.phase.Queued? ==> w.seen == |w.captured|)
    requires e.Issue? && IsDataTrn(e.packet) ==> w.seen == |w.captured|
    ensures w.Step(e).phase.Queued? ==> w.Step(e).seen == |w.Step(e).captured|
  {
    hide State.Poll, IsDataTrn;
  }

  lemma {:induction false} PromptRunsHaveSeen(counted: bool, events: seq<Event>)
    requires WellFormed(counted, events) && Prompt(counted, events)
    ensures var w := Run(counted, events); w.phase.Queued? ==> w.seen == |w.captured|
  {
    hide World.Step, World.Allows, IsDataTrn;
    if events != [] {
      var n := |events| - 1;
      var before := events[..n];
      forall i | 0 <= i < n ensures before[..i] == events[..i] && before[i] == events[i] {
      }
      PromptRunsHaveSeen(counted, before);
      StepHasSeen(Run(counted, before), events[n]);
    }
  }

  /** Where every capture is polled before the next packet, that packet finds one pending if and only
      if the payload in between repeated the checksum before it; with checksums that tell payloads
      apart, if and only if it was identical to the payload before it. */
  lemma PromptRunsWaitForRepeats(counted: bool, events: seq<Event>)
    requires WellFormed(counted, events) && Prompt(counted, events) && Run(counted, events).phase.Queued?
    ensures var w := Run(counted, events);
      var n := |w.captured|;
      && (w.host.pending != [] <==> n > 0 && Checksum(w.captured[n - 1]) == SigOf(w.captured, n - 1))
      && (Injective(w.captured) ==>
           (w.host.pending != [] <==> n > 1 && w.captured[n - 1] == w.captured[n - 2]))
  {
    PendingExactly(counted, events);
    PromptRunsHaveSeen(counted, events);
    hide Run, WellFormed, Prompt, Checksum;
  }

  // ----- A packet can stay pending without a repeated payload

  lemma OneMore(counted: bool, events: seq<Event>, e: Event)
    requires WellFormed(counted, events) && Run(counted, events).Allows(e)
    ensures WellFormed(counted, events + [e]) && Run(counted, events + [e]) == Run(counted, events).Step(e)
  {
    hide World.Step, World.Allows;
    var more := events + [e];
    assert more[..|events|] == events;
    forall i | 0 <= i < |more| ensures Run(counted, more[..i]).Allows(more[i]) {
      assert i < |events| ==> more[..i] == events[..i];
    }
  }

  lemma PendingIsLastPolled(counted: bool, events: seq<Event>)
    requires WellFormed(counted, events)
    ensures var w := Run(counted, events);
      var k := PolledCount(w);
      Waits(w) ==> 0 < k <= |w.issued| && w.host.pending == [w.issued[k - 1]]
  {
    hide Run, LandedOf, Pairs, Checksum, SigOf, Trns;
    RunKeeps(counted, events);
    WaitsExactly(Run(counted, events));
  }

  /** A packet p, polled, and its capture d, which no poll has seen. */
  lemma Captured(counted: bool, events: seq<Event>, p: Packet, d: Payload, more: seq<Event>)
    requires IsDataTrn(p) && WellFormed(counted, events)
    requires Run(counted, events).phase.Idle? && Run(counted, events).queue == []
    requires more == events + [Issue(p), PollEvent, Capture(d)]
    ensures WellFormed(counted, more)
    ensures var v, w := Run(counted, events), Run(counted, more);
      && w.phase.Idle? && w.queue == [] && w.captured == v.captured + [d] && w.issued == v.issued + [p]
      && w.seen == |v.captured|
  {
    hide State.Poll, IsDataTrn, Run, WellFormed;
    var e1 := events + [Issue(p)];
    var e2 := e1 + [PollEvent];
    OneMore(counted, events, Issue(p));
    OneMore(counted, e1, PollEvent);
    OneMore(counted, e2, Capture(d));
    assert e2 + [Capture(d)] == more;
  }

  /** The next packet comes before a poll has seen the capture. */
  lemma Overtaken(counted: bool, events: seq<Event>, p: Packet, d: Payload, next: Packet, more: seq<Event>)
    requires IsDataTrn(p) && IsDataTrn(next) && WellFormed(counted, events)
    requires Run(counted, events).phase.Idle? && Run(counted, events).queue == []
    requires more == events + [Issue(p), PollEvent, Capture(d), Issue(next)]
    ensures WellFormed(counted, more)
    ensures var v, w := Run(counted, events), Run(counted, more);
      w.queue == [next] && w.captured == v.captured + [d] && w.host.pending == [p]
  {
    hide IsDataTrn, Run, WellFormed;
    var front := events + [Issue(p), PollEvent, Capture(d)];
    Captured(counted, events, p, d, front);
    OneMore(counted, front, Issue(next));
    assert front + [Issue(next)] == more;
    PendingIsLastPolled(counted, more);
  }

  /** A packet can be found pending though its payload has none before it. */
  lemma FirstPayloadCanWait(counted: bool, p0: Packet, d: Payload, p1: Packet)
    requires IsDataTrn(p0) && IsDataTrn(p1)
    ensures var events := [Issue(p0), PollEvent, Capture(d), Issue(p1)];
      var w := Run(counted, events);
      && WellFormed(counted, events) && w.queue == [p1] && w.host.pending == [p0] && w.captured == [d]
  {
    hide World.Step, IsDataTrn;
    var events := [Issue(p0), PollEvent, Capture(d), Issue(p1)];
    assert events == [] + events;
    Overtaken(counted, [], p0, d, p1, events);
  }

  /** And though its payload is any other than the one before it. */
  lemma NewPayloadCanWait(counted: bool, p0: Packet, d0: Payload, p1: Packet, d1: Payload, p2: Packet)
    requires IsDataTrn(p0) && IsDataTrn(p1) && IsDataTrn(p2)
    ensures var events := [Issue(p0), PollEvent, Capture(d0), PollEvent, Issue(p1), PollEvent, Capture(d1), Issue(p2)];
      var w := Run(counted, events);
      && WellFormed(counted, events) && w.queue == [p2] && w.host.pending == [p1] && w.captured == [d0, d1]
  {
    var start := [Issue(p0), PollEvent, Capture(d0), PollEvent];
    var events := [Issue(p0), PollEvent, Capture(d0), PollEvent, Issue(p1), PollEvent, Capture(d1), Issue(p2)];
    SeenCapture(counted, p0, d0);
    hide Run, WellFormed, IsDataTrn;
    assert events == start + [Issue(p1), PollEvent, Capture(d1), Issue(p2)];
    Overtaken(counted, start, p1, d1, p2, events);
  }

  lemma SeenCapture(counted: bool, p: Packet, d: Payload)
    requires IsDataTrn(p)
    ensures var events := [Issue(p), PollEvent, Capture(d), PollEvent];
      var w := Run(counted, events);
      WellFormed(counted, events) && w.phase.Idle? && w.queue == [] && w.captured == [d]
  {
    var none: seq<Event> := [];
    assert WellFormed(counted, none) && Run(counted, none) == Begin(counted);
    hide State.Poll, IsDataTrn, Run, WellFormed;
    var front := [Issue(p), PollEvent, Capture(d)];
    assert none + front == front && front + [PollEvent] == [Issue(p), PollEvent, Capture(d), PollEvent];
    Captured(counted, none, p, d, front);
    OneMore(counted, front, PollEvent);
  }
}
