/** Where payloads are put and what goes with them: the order of effects `poll` of `commands.rs` has on the
    guest, over all runs. */
module DataTrnStaging {
  import opened Words
  import opened DataTrn
  import opened DataTrnPairing

  /** The destination is the packet's bytes 1 to 3, low byte first. */
  lemma NamedAddress(p: Packet, address: nat)
    requires address < 0x100_0000
    requires p[1] == address % 0x100 && p[2] == address / 0x100 % 0x100 && p[3] == address / 0x1_0000
    ensures Dest(p) == address
  {
    var q := address / 0x100;
    assert address == 0x100 * q + p[1] && q == 0x100 * (address / 0x1_0000) + p[2];
  }

  /** DATA_TRN is command 0x10, in the upper five bits of the first byte. */
  lemma DataTrnHeader(p: Packet)
    ensures IsDataTrn(p) <==> 0x80 <= p[0] <= 0x87
  {
  }

  /** A JUMP, command 0x12, sets the NMI vector from bytes 4 to 6 unless they are all zero; every packet but
      DATA_TRN goes to the mailbox at once, without a pointer. */
  lemma JumpSetsVector(s: State, p: Packet, data: Option<Payload>)
    requires !(0x80 <= p[0] <= 0x87)
    ensures var vector := [p[4], p[5], p[6]];
      s.TakePacket(p, data)
        == s.(trace := s.trace
                + (if 0x90 <= p[0] <= 0x97 && (p[4] != 0 || p[5] != 0 || p[6] != 0) then [NmiVector(vector)] else [])
                + [Delivered(p, None)])
  {
    assert p[4..7] == [p[4], p[5], p[6]];
    assert p[4..7] == [0, 0, 0] <==> p[4] == 0 && p[5] == 0 && p[6] == 0;
  }

  // ----- Staging

  /** The buffers staged, in order. */
  function Buffers(trace: seq<Effect>): seq<int> {
    if trace == [] then []
    else
      var before, e := Buffers(trace[..|trace| - 1]), trace[|trace| - 1];
      if e.Staged? then before + [e.staging] else before
  }

  ghost predicate InTurn(buffers: seq<int>) {
    forall k :: 0 <= k < |buffers| ==> buffers[k] == if k % 2 == 0 then 0x7E_5000 else 0x7E_6000
  }

  /** A packet delivered with a pointer comes right behind its payload: the payload was staged where the
      pointer says, and landed at the packet's destination. */
  ghost predicate PointersFollow(trace: seq<Effect>) {
    forall i :: 0 <= i < |trace| && trace[i].Delivered? && trace[i].pointer.Some? ==>
      && i >= 2 && trace[i - 1].Landed? && trace[i - 2].Staged?
      && trace[i - 2].staging == trace[i].pointer.value && trace[i - 1].dest == Dest(trace[i].packet)
      && trace[i - 1].data == trace[i - 2].data
  }

  ghost predicate Orderly(s: State) {
    InTurn(Buffers(s.trace)) && PointersFollow(s.trace) && s.flip == (|Buffers(s.trace)| % 2 == 1)
  }

  lemma OneMoreEffect(trace: seq<Effect>, e: Effect)
    ensures Buffers(trace + [e]) == if e.Staged? then Buffers(trace) + [e.staging] else Buffers(trace)
    ensures PointersFollow(trace) && !(e.Delivered? && e.pointer.Some?) ==> PointersFollow(trace + [e])
  {
    assert (trace + [e])[..|trace|] == trace;
  }

  lemma StagingIsOrderly(s: State, data: Payload)
    requires Orderly(s)
    ensures var staging := if s.flip then STAGING_B else STAGING_A;
      Orderly(s.(flip := !s.flip, trace := s.trace + [Staged(staging, data)]))
  {
    hide Buffers, PointersFollow;
    OneMoreEffect(s.trace, Staged(if s.flip then STAGING_B else STAGING_A, data));
  }

  lemma DeliveryIsOrderly(trace: seq<Effect>, staging: int, p: Packet, data: Payload)
    requires PointersFollow(trace + [Staged(staging, data)])
    ensures var t := trace + [Staged(staging, data)];
      var u := t + [Landed(Dest(p), data), Delivered(p, Some(staging))];
      PointersFollow(u) && Buffers(u) == Buffers(t)
  {
    hide Buffers, Dest;
    var t := trace + [Staged(staging, data)];
    var v := t + [Landed(Dest(p), data)];
    var u := t + [Landed(Dest(p), data), Delivered(p, Some(staging))];
    OneMoreEffect(t, Landed(Dest(p), data));
    OneMoreEffect(v, Delivered(p, Some(staging)));
    assert u == v + [Delivered(p, Some(staging))];
  }

  lemma ApplyIsOrderly(s: State, data: Payload)
    requires Orderly(s)
    ensures Orderly(s.Apply(data))
  {
    StagingIsOrderly(s, data);
    if s.pending != [] {
      DeliveryIsOrderly(s.trace, if s.flip then STAGING_B else STAGING_A, s.pending[0], data);
    }
    hide Buffers, PointersFollow, InTurn, Dest;
  }

  lemma TakeTrnIsOrderly(s: State, p: Packet, data: Option<Payload>)
    requires Orderly(s) && IsDataTrn(p)
    ensures Orderly(s.TakePacket(p, data))
  {
    hide State.Apply, Orderly, Checksum, IsDataTrn;
    if s.pending != [] && data.Some? {
      var t := s.(sig := Checksum(data.value));
      SameTrace(s, t);
      ApplyIsOrderly(t, data.value);
      SameTrace(t.Apply(data.value), t.Apply(data.value).Enqueue(p));
    } else {
      SameTrace(s, s.Enqueue(p));
    }
  }

  lemma TakeOtherIsOrderly(s: State, p: Packet, data: Option<Payload>)
    requires Orderly(s) && !IsDataTrn(p)
    ensures Orderly(s.TakePacket(p, data))
  {
    hide Buffers, PointersFollow, State.Apply, State.Enqueue;
    var vector := s.trace + [NmiVector(p[4..7])];
    OneMoreEffect(s.trace, NmiVector(p[4..7]));
    OneMoreEffect(s.trace, Delivered(p, None));
    OneMoreEffect(vector, Delivered(p, None));
    assert s.trace + [NmiVector(p[4..7]), Delivered(p, None)] == vector + [Delivered(p, None)];
  }

  lemma TakePacketIsOrderly(s: State, p: Packet, data: Option<Payload>)
    requires Orderly(s)
    ensures Orderly(s.TakePacket(p, data))
  {
    hide Orderly, State.TakePacket, IsDataTrn;
    if IsDataTrn(p) {
      TakeTrnIsOrderly(s, p, data);
    } else {
      TakeOtherIsOrderly(s, p, data);
    }
  }

  lemma SameTrace(s: State, t: State)
    requires Orderly(s) && t.trace == s.trace && t.flip == s.flip
    ensures Orderly(t)
  {
  }

  lemma {:induction false} TakePacketsIsOrderly(s: State, packets: seq<Packet>, data: Option<Payload>)
    requires Orderly(s)
    ensures Orderly(s.TakePackets(packets, data))
  {
    hide State.TakePacket, Orderly;
    if packets != [] {
      var n := |packets| - 1;
      TakePacketsIsOrderly(s, packets[..n], data);
      TakePacketIsOrderly(s.TakePackets(packets[..n], data), packets[n], data);
    }
  }

  lemma PollIsOrderly(s: State, packets: seq<Packet>, data: Option<Payload>, captureSeq: Option<nat>)
    requires Orderly(s)
    ensures Orderly(s.Poll(packets, data, captureSeq))
  {
    hide State.TakePackets, Orderly, State.Apply, Checksum;
    TakePacketsIsOrderly(s, packets, data);
    var t := s.TakePackets(packets, data);
    SameTrace(t, t.(seqSeen := captureSeq));
    if data.Some? {
      var u := t.(seqSeen := captureSeq, sig := Checksum(data.value));
      SameTrace(t, u);
      ApplyIsOrderly(u, data.value);
    }
  }

  /** Over every run, allowed or not, payloads are staged in the two buffers in turn, and each packet delivered
      with a pointer points at the payload that has just landed at its own destination. */
  lemma {:induction false} RunIsOrderly(counted: bool, events: seq<Event>)
    ensures Orderly(Run(counted, events).host)
  {
    hide State.Poll;
    if events == [] {
      assert Buffers([]) == [];
    } else {
      hide Orderly;
      var n := |events| - 1;
      RunIsOrderly(counted, events[..n]);
      var w := Run(counted, events[..n]);
      PollIsOrderly(w.host, w.queue, w.Latest(), w.CaptureSeq());
    }
  }
}
