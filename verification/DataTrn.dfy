/** How DATA_TRN packets meet their screen captures: the packet and payload halves of `poll` in
    `commands.rs`. */
module DataTrn {
  import opened Words

  type Payload = seq<Byte>
  type Packet = p: seq<Byte> | |p| == 16 witness [0, 0, 0, 0, 0, 0, 0, 0, 0, 0, 0, 0, 0, 0, 0, 0]

  const PACKET_QUEUE_CAP := 16

  /** The two staging buffers, used in turn. */
  const STAGING_A := 0x7E_5000
  const STAGING_B := 0x7E_6000

  function Mix(h: bv64, b: Byte): bv64 {
    (h ^ (b as bv64)) * 0x0000_0100_0000_01B3
  }

  /** FNV-1a. */
  function Checksum(data: Payload): bv64 {
    if data == [] then 0xCBF2_9CE4_8422_2325 else Mix(Checksum(data[..|data| - 1]), data[|data| - 1])
  }

  method ComputeChecksum(data: Payload) returns (h: bv64)
    ensures h == Checksum(data)
  {
    hide Mix;
    h := 0xCBF2_9CE4_8422_2325;
    for i := 0 to |data|
      invariant h == Checksum(data[..i])
    {
      assert data[..i + 1][..i] == data[..i];
      h := Mix(h, data[i]);
    }
    assert data[..|data|] == data;
  }

  function Command(p: Packet): int {
    p[0] / 8
  }

  predicate IsDataTrn(p: Packet) {
    Command(p) == 0x10
  }

  /** The 24-bit destination a DATA_TRN packet names. */
  function Dest(p: Packet): int {
    var low: int, mid: int, bank: int := p[1], p[2], p[3];
    low + 0x100 * mid + 0x1_0000 * bank
  }

  /** What goes out to the guest CPU, in order: a payload into a staging buffer, a payload to a
      packet's destination, a JUMP vector, a packet into the delivery mailbox. */
  datatype Effect =
    | Staged(staging: int, data: Payload)
    | Landed(dest: int, data: Payload)
    | NmiVector(vector: seq<Byte>)
    | Delivered(packet: Packet, pointer: Option<int>)

  datatype State = State(pending: seq<Packet>, sig: bv64, seqSeen: Option<nat>, flip: bool, trace: seq<Effect>)
  {
    /** The oldest pending packet meets its payload. */
    function Apply(data: Payload): State {
      var staging := if flip then STAGING_B else STAGING_A;
      var s := this.(flip := !flip, trace := trace + [Staged(staging, data)]);
      if pending == [] then s
      else
        var p := pending[0];
        s.(pending := pending[1..], trace := s.trace + [Landed(Dest(p), data), Delivered(p, Some(staging))])
    }

    function Enqueue(p: Packet): State {
      var kept := if |pending| < PACKET_QUEUE_CAP then pending else pending[|pending| - PACKET_QUEUE_CAP + 1..];
      this.(pending := kept + [p])
    }

    /** One packet off the tee, while the source's last capture is `data`. */
    function TakePacket(p: Packet, data: Option<Payload>): State {
      if IsDataTrn(p) then
        (if pending != [] && data.Some? then this.(sig := Checksum(data.value)).Apply(data.value) else this).Enqueue(p)
      else if Command(p) == 0x12 && p[4..7] != [0, 0, 0] then
        this.(trace := trace + [NmiVector(p[4..7]), Delivered(p, None)])
      else
        this.(trace := trace + [Delivered(p, None)])
    }

    function TakePackets(packets: seq<Packet>, data: Option<Payload>): State {
      if packets == [] then this
      else TakePackets(packets[..|packets| - 1], data).TakePacket(packets[|packets| - 1], data)
    }

    /** The payload edge: a capture with a new checksum. */
    function TakeCapture(data: Option<Payload>, captureSeq: Option<nat>): State {
      if captureSeq.Some? && captureSeq == seqSeen then this
      else
        var s := this.(seqSeen := captureSeq);
        if data.Some? && Checksum(data.value) != sig then s.(sig := Checksum(data.value)).Apply(data.value) else s
    }

    function Poll(packets: seq<Packet>, data: Option<Payload>, captureSeq: Option<nat>): State {
      TakePackets(packets, data).TakeCapture(data, captureSeq)
    }
  }

  const START := State([], 0, None, false, [])

  class Host {
    var pending: seq<Packet>
    var sig: bv64
    var seqSeen: Option<nat>
    var flip: bool
    var trace: seq<Effect>

    function Value(): State
      reads this
    {
      State(pending, sig, seqSeen, flip, trace)
    }

    constructor ()
      ensures Value() == START
    {
      pending, sig, seqSeen, flip, trace := [], 0, None, false, [];
    }

    method ApplyPending(data: Payload)
      modifies this
      ensures Value() == old(Value()).Apply(data)
    {
      var staging := if flip then STAGING_B else STAGING_A;
      flip := !flip;
      trace := trace + [Staged(staging, data)];
      if pending != [] {
        var p := pending[0];
        pending := pending[1..];
        trace := trace + [Landed(Dest(p), data), Delivered(p, Some(staging))];
      }
    }

    /** The oldest packets make room. */
    method Enqueue(p: Packet)
      modifies this`pending
      ensures Value() == old(Value()).Enqueue(p)
    {
      ghost var before := pending;
      while |pending| >= PACKET_QUEUE_CAP
        invariant |pending| <= |before| && pending == before[|before| - |pending|..]
        invariant |before| < PACKET_QUEUE_CAP ==> pending == before
        invariant |pending| >= Min(|before|, PACKET_QUEUE_CAP - 1)
      {
        pending := pending[1..];
      }
      assert pending == if |before| < PACKET_QUEUE_CAP then before else before[|before| - PACKET_QUEUE_CAP + 1..];
      pending := pending + [p];
    }

    method TakePacket(p: Packet, data: Option<Payload>)
      modifies this
      ensures Value() == old(Value()).TakePacket(p, data)
    {
      hide Checksum;
      if IsDataTrn(p) {
        if pending != [] && data.Some? {
          sig := ComputeChecksum(data.value);
          ApplyPending(data.value);
        }
        Enqueue(p);
      } else if Command(p) == 0x12 && p[4..7] != [0, 0, 0] {
        trace := trace + [NmiVector(p[4..7]), Delivered(p, None)];
      } else {
        trace := trace + [Delivered(p, None)];
      }
    }

    method Poll(packets: seq<Packet>, data: Option<Payload>, captureSeq: Option<nat>)
      modifies this
      ensures Value() == old(Value()).Poll(packets, data, captureSeq)
    {
      hide Checksum, State.TakePacket;
      ghost var s := Value();
      for i := 0 to |packets|
        invariant Value() == s.TakePackets(packets[..i], data)
      {
        assert packets[..i + 1][..i] == packets[..i];
        TakePacket(packets[i], data);
      }
      assert packets[..|packets|] == packets;
      if captureSeq == None || captureSeq != seqSeen {
        seqSeen := captureSeq;
        if data.Some? {
          var h := ComputeChecksum(data.value);
          if h != sig {
            sig := h;
            ApplyPending(data.value);
          }
        }
      }
    }
  }
}
