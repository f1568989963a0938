/** Pulse trains, packets and multi-packet commands, decoded by the receiver of `joypad.rs`. */
module SgbPackets {
  import opened Words
  import opened SgbReceiver

  /** The receiver after a run of writes to P1, and the last select lines. */
  function Run(r: Receiver, select: Lines, writes: seq<Lines>): (q: (Receiver, Lines))
    requires r.Valid()
    ensures q.0.Valid()
  {
    if writes == [] then (r, select)
    else
      var n := |writes| - 1;
      var (before, was) := Run(r, select, writes[..n]);
      WriteKeepsValid(before, was, writes[n]);
      (before.Write(was, writes[n]).0, writes[n])
  }

  lemma {:induction false} RunSplit(r: Receiver, select: Lines, first: seq<Lines>, second: seq<Lines>)
    requires r.Valid()
    ensures Run(r, select, first + second)
         == Run(Run(r, select, first).0, Run(r, select, first).1, second)
  {
    hide Receiver.Write, Receiver.Valid;
    if second == [] {
      assert first + second == first;
    } else {
      var n := |second| - 1;
      RunSplit(r, select, first, second[..n]);
      assert (first + second)[..|first| + n] == first + second[..n];
    }
  }

  lemma RunPair(r: Receiver, select: Lines, x: Lines, y: Lines)
    requires r.Valid()
    ensures r.Write(select, x).0.Valid()
    ensures Run(r, select, [x, y]) == (r.Write(select, x).0.Write(x, y).0, y)
  {
    hide Receiver.Write, Receiver.Valid;
    WriteKeepsValid(r, select, x);
    assert [x, y][..1] == [x] && [x][..0] == [];
    assert Run(r, select, []) == (r, select);
    assert Run(r, select, [x]) == (r.Write(select, x).0, x);
  }

  /** One bit and the idle line behind it: P15 is low for a one, P14 for a zero. */
  function Pulse(bit: bool): seq<Lines> {
    [Lines(bit, !bit), Lines(true, true)]
  }

  function BitPulses(bits: seq<bool>): seq<Lines> {
    if bits == [] then [] else BitPulses(bits[..|bits| - 1]) + Pulse(bits[|bits| - 1])
  }

  /** A whole packet: the reset pulse, 128 data bits, and the "0" stop bit. */
  function Train(p: Packet): seq<Lines> {
    [Lines(false, false), Lines(true, true)] + BitPulses(p) + [Lines(false, true), Lines(true, true)]
  }

  function Ones(bits: seq<bool>): nat {
    if bits == [] then 0 else Ones(bits[..|bits| - 1]) + if bits[|bits| - 1] then 1 else 0
  }

  /** The accumulator holds `content` and zeros behind it. */
  function Holding(content: seq<bool>): seq<bool>
    requires |content| <= COMMAND_BITS
  {
    content + Zeros(COMMAND_BITS - |content|)
  }

  // ----- The three parts of a train

  /** A packet is open and its next data bit goes behind `content`. */
  predicate Open(r: Receiver, content: seq<bool>) {
    && r.Valid() && r.readyForPulse && r.readyForWrite
    && |content| <= COMMAND_BITS && r.writeIndex == |content| && r.command == Holding(content)
  }

  /** What the command already holds when the next reset pulse comes: nothing, or its whole packets. */
  function Base(r: Receiver): (base: seq<bool>)
    requires r.Valid()
    ensures IsBoundary(|base|) && |base| + PACKET_BITS <= COMMAND_BITS
  {
    if r.StartsCommand() then [] else r.command[..r.writeIndex]
  }

  /** r with a packet open behind `content`. */
  function Opened(r: Receiver, content: seq<bool>): Receiver
    requires |content| <= COMMAND_BITS
  {
    r.(command := Holding(content), writeIndex := |content|,
       readyForPulse := true, readyForWrite := true, readyForStop := false,
       currentPlayer := Advance(r.currentPlayer, r.playerCount, 1))
  }

  lemma OpenTrain(r: Receiver, select: Lines)
    requires r.Valid() && r.readyForPulse
    ensures Run(r, select, [RESET, IDLE]) == (Opened(r, Base(r)), IDLE)
    ensures Open(Opened(r, Base(r)), Base(r))
  {
    RunPair(r, select, RESET, IDLE);
    WriteKeepsValid(r, select, RESET);
    WriteKeepsValid(r.Write(select, RESET).0, RESET, IDLE);
    hide PacketCount;
    if r.StartsCommand() {
      assert Zeros(COMMAND_BITS) == Holding([]);
    } else {
      assert r.command == Holding(r.command[..r.writeIndex]);
    }
  }

  /** r with one bit received behind `content`. */
  function NextBit(r: Receiver, content: seq<bool>, bit: bool): Receiver
    requires |content| < COMMAND_BITS
  {
    r.(command := Holding(content + [bit]), writeIndex := |content| + 1, readyForStop := IsBoundary(|content| + 1),
       currentPlayer := Advance(r.currentPlayer, r.playerCount, if bit then 1 else 0))
  }

  lemma OneDataBit(r: Receiver, content: seq<bool>, bit: bool)
    requires Open(r, content) && !r.readyForStop && |content| < COMMAND_BITS
    ensures Run(r, IDLE, Pulse(bit)) == (NextBit(r, content, bit), IDLE)
    ensures Open(NextBit(r, content, bit), content + [bit])
  {
    var pulse := if bit then ONE else ZERO;
    PulseWrites(r, bit);
    hide Receiver.Write, Receiver.DataBit, Receiver.Valid;
    RunPair(r, IDLE, pulse, IDLE);
    assert Holding(content + [bit]) == if bit then r.command[|content| := true] else r.command;
    WriteKeepsValid(r, IDLE, pulse);
    WriteKeepsValid(r.Write(IDLE, pulse).0, pulse, IDLE);
  }

  lemma PulseWrites(r: Receiver, bit: bool)
    requires r.Valid() && r.readyForPulse && r.readyForWrite && !r.readyForStop && r.writeIndex < COMMAND_BITS
    ensures var pulse := if bit then ONE else ZERO;
      var t := r.Write(IDLE, pulse).0;
      && t == r.(command := if bit then r.command[r.writeIndex := true] else r.command,
                 writeIndex := r.writeIndex + 1, readyForPulse := false,
                 readyForStop := IsBoundary(r.writeIndex + 1))
      && t.Valid()
      && t.Write(pulse, IDLE).0
         == t.(readyForPulse := true, currentPlayer := Advance(t.currentPlayer, t.playerCount, if bit then 1 else 0))
  {
    WriteKeepsValid(r, IDLE, if bit then ONE else ZERO);
    hide PacketCount;
  }

  /** r with bits received behind `content` and the controllers advanced by their "1" pulses. */
  function Received(r: Receiver, content: seq<bool>, bits: seq<bool>): Receiver
    requires |content| + |bits| <= COMMAND_BITS
  {
    r.(command := Holding(content + bits), writeIndex := |content| + |bits|, readyForStop := |bits| == PACKET_BITS,
       currentPlayer := Advance(r.currentPlayer, r.playerCount, Ones(bits)))
  }

  lemma {:induction false} DataBits(r: Receiver, content: seq<bool>, bits: seq<bool>)
    requires Open(r, content) && !r.readyForStop
    requires IsBoundary(|content|) && |bits| <= PACKET_BITS && |content| + PACKET_BITS <= COMMAND_BITS
    ensures Run(r, IDLE, BitPulses(bits)) == (Received(r, content, bits), IDLE)
    ensures Open(Received(r, content, bits), content + bits)
  {
    if bits == [] {
      assert content + bits == content;
    } else {
      hide Receiver.Write, Receiver.Valid, Holding, Advance, Run, BitPulses, Ones;
      var front, bit := bits[..|bits| - 1], bits[|bits| - 1];
      assert bits == front + [bit];
      DataBits(r, content, front);
      NextDataBit(r, content, front, bit);
    }
  }

  lemma NextDataBit(r: Receiver, content: seq<bool>, front: seq<bool>, bit: bool)
    requires r.Valid() && |front| < PACKET_BITS
    requires IsBoundary(|content|) && |content| + PACKET_BITS <= COMMAND_BITS
    requires Open(Received(r, content, front), content + front)
    requires Run(r, IDLE, BitPulses(front)) == (Received(r, content, front), IDLE)
    ensures Run(r, IDLE, BitPulses(front + [bit])) == (Received(r, content, front + [bit]), IDLE)
    ensures Open(Received(r, content, front + [bit]), content + (front + [bit]))
  {
    NextBitIsReceived(r, content, front, bit);
    OneMoreBit(content, front, bit);
    hide Receiver.Valid, Run, Open, BitPulses, Pulse, NextBit, Received;
    var q := Received(r, content, front);
    OneDataBit(q, content + front, bit);
    RunSplit(r, IDLE, BitPulses(front), Pulse(bit));
  }

  lemma NextBitIsReceived(r: Receiver, content: seq<bool>, front: seq<bool>, bit: bool)
    requires |front| < PACKET_BITS && IsBoundary(|content|) && |content| + PACKET_BITS <= COMMAND_BITS
    ensures !Received(r, content, front).readyForStop
    ensures NextBit(Received(r, content, front), content + front, bit) == Received(r, content, front + [bit])
  {
    OneMoreBit(content, front, bit);
    PacketEnd(|content|, |front| + 1);
    StepsAdd(r.currentPlayer, r.playerCount, Ones(front), if bit then 1 else 0);
    hide Holding, Advance, Ones, IsBoundary;
  }

  lemma OneMoreBit(content: seq<bool>, front: seq<bool>, bit: bool)
    ensures content + (front + [bit]) == content + front + [bit]
    ensures BitPulses(front + [bit]) == BitPulses(front) + Pulse(bit)
    ensures Ones(front + [bit]) == Ones(front) + if bit then 1 else 0
  {
    assert (front + [bit])[..|front|] == front;
  }

  lemma PacketEnd(start: nat, bits: nat)
    requires IsBoundary(start) && 0 < bits <= PACKET_BITS
    ensures IsBoundary(start + bits) <==> bits == PACKET_BITS
  {
    var k := start / PACKET_BITS;
    if bits == PACKET_BITS {
      assert start + bits == PACKET_BITS * (k + 1);
    } else {
      assert start + bits == PACKET_BITS * k + bits;
    }
  }

  lemma StepsAdd(player: nat, count: nat, a: nat, b: nat)
    ensures Advance(Advance(player, count, a), count, b) == Advance(player, count, a + b)
  {
    AddMod2(player + a, b);
    AddMod4(player + a, b);
  }

  lemma CloseTrain(r: Receiver)
    requires r.Valid() && r.readyForPulse && r.readyForWrite && r.readyForStop
    ensures Run(r, IDLE, [ZERO, IDLE]) == (r.StopBit().(readyForPulse := true), IDLE)
  {
    hide Receiver.StopBit, Receiver.Valid, Receiver.DataBit;
    RunPair(r, IDLE, ZERO, IDLE);
  }

  // ----- Whole packets

  /** The queue the SNES side reads, at most sixteen packets, the oldest dropped. */
  function Newest(packets: seq<Packet>): seq<Packet> {
    if |packets| <= 16 then packets else packets[|packets| - 16..]
  }

  /** What a complete command does to the controllers. */
  function Players(command: seq<bool>, count: nat, player: nat): (nat, nat)
    requires |command| >= PACKET_BITS
  {
    if !IsMultiplayerRequest(command) then (count, player)
    else if !command[8] && !command[9] then (1, 0)
    else if command[8] && !command[9] then (2, player % 2)
    else if command[8] && command[9] then (4, player % 4)
    else (3, (player + 1) / 2 % 2 * 2)
  }

  /** The receiver after a packet that makes the command `full`: the packet is queued whole; the
      command goes on, or is complete and is handed over or executed. */
  function Decoded(r: Receiver, full: seq<bool>): Receiver
    requires PACKET_BITS <= |full| <= COMMAND_BITS
  {
    var p: Packet := full[|full| - PACKET_BITS..];
    var done := |full| == PacketCount(full) * PACKET_BITS;
    var player := Advance(r.currentPlayer, r.playerCount, 1 + Ones(p));
    var players := if done then Players(full, r.playerCount, player) else (r.playerCount, player);
    Receiver(
      if done then Zeros(COMMAND_BITS) else Holding(full), if done then 0 else |full|,
      true, false, false, players.0, players.1,
      if done && !IsMultiplayerRequest(full) then Some(full) else r.pending,
      Newest(r.packets + [p]))
  }

  lemma HoldingHeader(full: seq<bool>)
    requires PACKET_BITS <= |full| <= COMMAND_BITS
    ensures PacketCount(Holding(full)) == PacketCount(full)
    ensures IsMultiplayerRequest(Holding(full)) == IsMultiplayerRequest(full)
    ensures Holding(full)[8] == full[8] && Holding(full)[9] == full[9]
    ensures Holding(full)[..|full|] == full
    ensures Holding(full)[|full| - PACKET_BITS..|full|] == full[|full| - PACKET_BITS..]
  {
  }

  lemma StopBitDecodes(r: Receiver, base: seq<bool>, p: Packet)
    requires r.Valid() && IsBoundary(|base|) && |base| + PACKET_BITS <= COMMAND_BITS
    ensures Received(Opened(r, base), base, p).StopBit().(readyForPulse := true) == Decoded(r, base + p)
  {
    var full := base + p;
    assert full[|base|..] == p;
    HoldingHeader(full);
    StepsAdd(r.currentPlayer, r.playerCount, 1, Ones(p));
    var q := Received(Opened(r, base), base, p);
    TeeQueues(q, p);
    hide Advance, PacketCount, IsMultiplayerRequest, Holding, Ones, IsBoundary, Receiver.Valid, Receiver.Tee, Newest;
    assert q.StopBit() == if |full| == q.Size() then
        q.Tee().CommandReady().Discard().(readyForPulse := false, readyForWrite := false, readyForStop := false)
      else q.Tee().(readyForPulse := false, readyForWrite := false, readyForStop := false);
  }

  lemma TeeQueues(r: Receiver, p: Packet)
    requires |r.command| == COMMAND_BITS && PACKET_BITS <= r.writeIndex <= COMMAND_BITS && IsBoundary(r.writeIndex)
    requires |r.packets| <= PACKET_QUEUE_CAP
    requires r.command[r.writeIndex - PACKET_BITS..r.writeIndex] == p
    ensures r.Tee() == r.(packets := Newest(r.packets + [p]))
  {
    WholeBytes(r.writeIndex - PACKET_BITS);
  }

  lemma WholeBytes(n: nat)
    requires IsBoundary(n)
    ensures (n + PACKET_BITS) / 8 * 8 == n + PACKET_BITS
  {
    var k := n / PACKET_BITS;
    assert n + PACKET_BITS == 8 * (16 * k + 16);
  }

  /** From every reachable state in which the line is idle, the pulse train of a packet is decoded to
      that packet: it is queued for the SNES side, and it extends or completes the command. */
  lemma TrainDecodes(r: Receiver, select: Lines, p: Packet)
    requires r.Valid() && r.readyForPulse
    ensures Run(r, select, Train(p)) == (Decoded(r, Base(r) + p), IDLE)
    ensures Decoded(r, Base(r) + p).Valid()
  {
    var base := Base(r);
    OpenTrain(r, select);
    DataBits(Opened(r, base), base, p);
    CloseTrain(Received(Opened(r, base), base, p));
    hide Receiver.StopBit, Receiver.Valid, Run, Received, Opened, BitPulses, Decoded, Base, Open;
    StopBitDecodes(r, base, p);
    RunSplit(r, select, [RESET, IDLE], BitPulses(p));
    RunSplit(r, select, [RESET, IDLE] + BitPulses(p), [ZERO, IDLE]);
  }

  // ----- Whole commands

  function Trains(packets: seq<Packet>): seq<Lines> {
    if packets == [] then [] else Trains(packets[..|packets| - 1]) + Train(packets[|packets| - 1])
  }

  function Bits(packets: seq<Packet>): (bits: seq<bool>)
    ensures |bits| == |packets| * PACKET_BITS
  {
    if packets == [] then [] else Bits(packets[..|packets| - 1]) + packets[|packets| - 1]
  }

  lemma NewestAgain(queue: seq<Packet>, packets: seq<Packet>, p: Packet)
    ensures Newest(Newest(queue + packets) + [p]) == Newest(queue + (packets + [p]))
  {
    hide Newest;
    assert queue + packets + [p] == queue + (packets + [p]);
    NewestOfMore(queue + packets, p);
  }

  lemma NewestOfMore(s: seq<Packet>, p: Packet)
    ensures Newest(Newest(s) + [p]) == Newest(s + [p])
  {
    if |s| > 16 {
      assert (s[|s| - 16..] + [p])[1..] == (s + [p])[|s| - 15..];
    }
  }

  lemma HeaderOfFirst(packets: seq<Packet>)
    requires packets != []
    ensures PacketCount(Bits(packets)) == PacketCount(packets[0])
    ensures IsMultiplayerRequest(Bits(packets)) == IsMultiplayerRequest(packets[0])
  {
    hide PacketCount, IsMultiplayerRequest;
    FirstPacket(packets);
    SamePrefix(Bits(packets), packets[0]);
  }

  lemma FirstPacket(packets: seq<Packet>)
    requires packets != []
    ensures Bits(packets)[..PACKET_BITS] == packets[0]
  {
    if |packets| > 1 {
      FirstPacket(packets[..|packets| - 1]);
    }
  }

  lemma SamePrefix(full: seq<bool>, p: Packet)
    requires |full| >= PACKET_BITS && full[..PACKET_BITS] == p
    ensures PacketCount(full) == PacketCount(p) && IsMultiplayerRequest(full) == IsMultiplayerRequest(p)
  {
    assert forall k :: 0 <= k < 8 ==> full[k] == full[..PACKET_BITS][k];
  }

  // ----- The header byte as a number

  /** The number whose bits these are, least significant first. */
  function Value(bits: seq<bool>): nat {
    if bits == [] then 0 else (if bits[0] then 1 else 0) + 2 * Value(bits[1..])
  }

  function Bit(bits: seq<bool>, k: nat): (b: nat)
    requires k < |bits|
    ensures b <= 1
  {
    if bits[k] then 1 else 0
  }

  lemma ValueFrom(bits: seq<bool>, k: nat)
    requires k < |bits|
    ensures Value(bits[k..]) == Bit(bits, k) + 2 * Value(bits[k + 1..])
  {
    assert bits[k..][1..] == bits[k + 1..];
  }

  lemma ByteValue(bits: seq<bool>)
    requires |bits| == 8
    ensures Value(bits)
         == Bit(bits, 0) + 2 * Bit(bits, 1) + 4 * Bit(bits, 2) + 8 * Bit(bits, 3)
          + 16 * Bit(bits, 4) + 32 * Bit(bits, 5) + 64 * Bit(bits, 6) + 128 * Bit(bits, 7)
  {
    hide Value, Bit;
    ValueFrom(bits, 0);
    ValueFrom(bits, 1);
    ValueFrom(bits, 2);
    ValueFrom(bits, 3);
    ValueFrom(bits, 4);
    ValueFrom(bits, 5);
    ValueFrom(bits, 6);
    ValueFrom(bits, 7);
    assert bits[0..] == bits && bits[8..] == [];
    ValueOfNothing();
  }

  lemma ValueOfNothing()
    ensures Value([]) == 0
  {
  }

  /** Byte n of a packet. */
  function ByteOf(p: Packet, n: nat): nat
    requires n < 16
  {
    Value(p[8 * n..8 * n + 8])
  }

  /** How many packets a first packet announces: its header byte modulo 8, but one for 0 and for a header that
      has the bits of 0xF1. */
  function Announced(p: Packet): (n: nat)
    ensures 1 <= n <= 7
  {
    var header := ByteOf(p, 0);
    if (header % 2 == 1 && header / 16 == 0xF) || header % 8 == 0 then 1 else header % 8
  }

  /** Command number 0x11. */
  predicate AsksForPlayers(p: Packet) {
    ByteOf(p, 0) / 8 == 0x11
  }

  /** The fields of a byte with these bits. */
  lemma ByteFields(v: nat, b0: nat, b1: nat, b2: nat, b3: nat, b4: nat, b5: nat, b6: nat, b7: nat)
    requires b0 <= 1 && b1 <= 1 && b2 <= 1 && b3 <= 1 && b4 <= 1 && b5 <= 1 && b6 <= 1 && b7 <= 1
    requires v == b0 + 2 * b1 + 4 * b2 + 8 * b3 + 16 * b4 + 32 * b5 + 64 * b6 + 128 * b7
    ensures v % 2 == b0 && v % 4 == b0 + 2 * b1 && v % 8 == b0 + 2 * b1 + 4 * b2
    ensures v / 8 == b3 + 2 * b4 + 4 * b5 + 8 * b6 + 16 * b7
    ensures v / 16 == b4 + 2 * b5 + 4 * b6 + 8 * b7
  {
  }

  lemma FieldsOfByte(p: Packet, n: nat)
    requires n < 2
    ensures var v, k := ByteOf(p, n), 8 * n;
      && v % 2 == Bit(p, k) && v % 4 == Bit(p, k) + 2 * Bit(p, k + 1)
      && v % 8 == Bit(p, k) + 2 * Bit(p, k + 1) + 4 * Bit(p, k + 2)
      && v / 8 == Bit(p, k + 3) + 2 * Bit(p, k + 4) + 4 * Bit(p, k + 5) + 8 * Bit(p, k + 6) + 16 * Bit(p, k + 7)
      && v / 16 == Bit(p, k + 4) + 2 * Bit(p, k + 5) + 4 * Bit(p, k + 6) + 8 * Bit(p, k + 7)
  {
    var k := 8 * n;
    var byte := p[k..k + 8];
    forall j: nat | j < 8 ensures Bit(byte, j) == Bit(p, k + j) {
    }
    hide Value, Bit;
    ByteValue(byte);
    ByteFields(Value(byte), Bit(byte, 0), Bit(byte, 1), Bit(byte, 2), Bit(byte, 3), Bit(byte, 4), Bit(byte, 5),
      Bit(byte, 6), Bit(byte, 7));
  }

  lemma HeaderBits(p: Packet)
    ensures PacketCount(p) == Announced(p)
    ensures IsMultiplayerRequest(p) <==> AsksForPlayers(p)
    ensures ByteOf(p, 1) % 4 == Bit(p, 8) + 2 * Bit(p, 9)
  {
    hide ByteOf;
    FieldsOfByte(p, 0);
    FieldsOfByte(p, 1);
  }

  /** The player count a request sets, and what it makes of the selected controller. */
  function NumberOfPlayers(p: Packet): nat {
    ByteOf(p, 1) % 4 + 1
  }

  function PlayerKept(p: Packet, player: nat): nat {
    match NumberOfPlayers(p)
    case 1 => 0
    case 2 => player % 2
    case 3 => if player % 4 == 0 || player % 4 == 3 then 0 else 2
    case _ => player % 4
  }

  lemma PlayersByValue(packets: seq<Packet>, count: nat, player: nat)
    requires packets != [] && player < 4
    ensures Players(Bits(packets), count, player)
         == if AsksForPlayers(packets[0]) then (NumberOfPlayers(packets[0]), PlayerKept(packets[0], player))
            else (count, player)
  {
    HeaderOfFirst(packets);
    FirstPacket(packets);
    HeaderBits(packets[0]);
    assert Bits(packets)[8] == Bits(packets)[..PACKET_BITS][8] && Bits(packets)[9] == Bits(packets)[..PACKET_BITS][9];
    hide IsMultiplayerRequest, AsksForPlayers, ByteOf, Bits;
  }

  lemma {:induction false} OnesAppend(a: seq<bool>, b: seq<bool>)
    ensures Ones(a + b) == Ones(a) + Ones(b)
  {
    if b == [] {
      assert a + b == a;
    } else {
      var n := |b| - 1;
      OnesAppend(a, b[..n]);
      assert (a + b)[..|a| + n] == a + b[..n];
    }
  }

  /** The controller selected after these trains: each reset pulse and each one ends with a rising P15, and at each
      of them an even number of controllers takes turns. */
  function SelectedBehind(r: Receiver, packets: seq<Packet>): nat {
    var steps := |packets| + Ones(Bits(packets));
    match r.playerCount
    case 2 => (r.currentPlayer + steps) % 2
    case 4 => (r.currentPlayer + steps) % 4
    case _ => r.currentPlayer
  }

  lemma SelectedByAdvance(r: Receiver, packets: seq<Packet>)
    ensures SelectedBehind(r, packets)
         == Advance(r.currentPlayer, r.playerCount, |packets| + Ones(Bits(packets)))
  {
    hide Ones, Bits;
  }

  /** q comes behind trains of these packets sent to r: each packet is queued; before as many as announced nothing
      is handed over, and with the last the command is exactly their concatenation, but a multiplayer
      request sets the player count instead. */
  ghost predicate Assembled(r: Receiver, packets: seq<Packet>, q: Receiver)
    requires packets != [] && |packets| <= Announced(packets[0])
  {
    var player := SelectedBehind(r, packets);
    && q.readyForPulse && !q.readyForWrite && !q.readyForStop
    && q.packets == Newest(r.packets + packets)
    && if |packets| < Announced(packets[0]) then
         q.pending == r.pending && q.playerCount == r.playerCount && q.currentPlayer == player
         && q.writeIndex == |Bits(packets)| && q.command == Holding(Bits(packets))
       else if AsksForPlayers(packets[0]) then
         q.writeIndex == 0 && q.pending == r.pending
         && q.playerCount == NumberOfPlayers(packets[0]) && q.currentPlayer == PlayerKept(packets[0], player)
       else
         q.writeIndex == 0 && q.pending == Some(Bits(packets))
         && q.playerCount == r.playerCount && q.currentPlayer == player
  }

  lemma DecodedIsAssembled(r: Receiver, front: seq<Packet>, p: Packet, packets: seq<Packet>, q: Receiver)
    requires r.Valid() && packets == front + [p] && |packets| <= Announced(packets[0])
    requires q.pending == r.pending && q.playerCount == r.playerCount
    requires q.currentPlayer == SelectedBehind(r, front) && q.packets == Newest(r.packets + front)
    ensures Assembled(r, packets, Decoded(q, Bits(front) + p))
  {
    hide PacketCount, IsMultiplayerRequest, Holding, Receiver.Valid, Newest, Advance, Players, Announced,
      AsksForPlayers, NumberOfPlayers, PlayerKept, Ones, SelectedBehind;
    var n := |front|;
    assert packets[..n] == front && packets[n] == p && Bits(packets) == Bits(front) + p;
    HeaderOfFirst(packets);
    HeaderBits(packets[0]);
    NewestAgain(r.packets, front, p);
    SelectedStep(r, front, p, packets);
    PlayersByValue(packets, r.playerCount, SelectedBehind(r, packets));
  }

  lemma SelectedStep(r: Receiver, front: seq<Packet>, p: Packet, packets: seq<Packet>)
    requires r.Valid() && packets == front + [p]
    ensures Advance(SelectedBehind(r, front), r.playerCount, 1 + Ones(p)) == SelectedBehind(r, packets) < 4
  {
    assert packets[..|front|] == front;
    hide Advance, Ones, SelectedBehind, Receiver.Valid;
    OnesAppend(Bits(front), p);
    StepsAdd(r.currentPlayer, r.playerCount, |front| + Ones(Bits(front)), 1 + Ones(p));
    AdvanceInRange(r, |packets| + Ones(Bits(packets)));
    SelectedByAdvance(r, packets);
    SelectedByAdvance(r, front);
  }

  /** The trains of packets that start a command assemble it. */
  lemma {:induction false} CommandAssembles(r: Receiver, select: Lines, packets: seq<Packet>)
    requires r.Valid() && r.readyForPulse && r.StartsCommand()
    requires packets != [] && |packets| <= Announced(packets[0])
    ensures Assembled(r, packets, Run(r, select, Trains(packets)).0)
  {
    hide PacketCount, Run, Train, Holding, Newest, IsBoundary, Announced, AsksForPlayers, NumberOfPlayers, PlayerKept,
      SelectedBehind, Decoded, Receiver.Valid;
    var n := |packets| - 1;
    var front, p := packets[..n], packets[n];
    RunSplit(r, select, Trains(front), Train(p));
    var (q, line) := Run(r, select, Trains(front));
    if n == 0 {
      FirstTrain(r, select);
    } else {
      CommandAssembles(r, select, front);
      BaseIsContent(q, Bits(front));
    }
    TrainDecodes(q, line, p);
    DecodedIsAssembled(r, front, p, packets, q);
  }

  lemma AdvanceInRange(r: Receiver, steps: nat)
    requires r.Valid()
    ensures Advance(r.currentPlayer, r.playerCount, steps) < 4
  {
  }

  lemma FirstTrain(r: Receiver, select: Lines)
    requires r.Valid()
    ensures Run(r, select, Trains([])) == (r, select)
    ensures r.StartsCommand() ==> Base(r) == Bits([])
    ensures Newest(r.packets + []) == r.packets && SelectedBehind(r, []) == r.currentPlayer
  {
  }

  lemma BaseIsContent(q: Receiver, content: seq<bool>)
    requires q.Valid() && !q.readyForStop && 0 < |content| <= COMMAND_BITS && IsBoundary(|content|)
    requires q.writeIndex == |content| && q.command == Holding(content)
    ensures Base(q) == content
  {
  }

  lemma AddMod2(x: nat, b: nat)
    ensures (x % 2 + b) % 2 == (x + b) % 2
  {
    assert x + b == 2 * (x / 2 + (x % 2 + b) / 2) + (x % 2 + b) % 2;
  }

  lemma AddMod4(x: nat, b: nat)
    ensures (x % 4 + b) % 4 == (x + b) % 4
  {
    assert x + b == 4 * (x / 4 + (x % 4 + b) / 4) + (x % 4 + b) % 4;
  }

  // ----- Pulses that are no part of a good train

  /** The receiver after power-up: nothing received, one controller, no pulse expected before the line is idle. */
  lemma FreshReceiver()
    ensures FRESH == Receiver(seq(896, _ => false), 0, false, false, false, 1, 0, None, [])
  {
  }

  /** A write tells of a started transfer only for a reset pulse behind an idle line, and then exactly when
      nothing, or no whole packets, or a packet with a bad stop bit lies in front of it; both select lines
      high expect a pulse; and a pulse behind no idle line does nothing but select a controller. */
  lemma PulsesExpected(r: Receiver, was: Lines, now: Lines)
    requires r.Valid()
    ensures var (q, started) := r.Write(was, now);
      && (started <==>
            (now == Lines(false, false) && r.readyForPulse &&
             (r.writeIndex == 0 || r.writeIndex % 128 != 0 || r.readyForStop)))
      && (now == Lines(true, true) ==>
            q == r.(readyForPulse := true, currentPlayer := q.currentPlayer))
      && (now != Lines(true, true) && !r.readyForPulse ==> q == r.(currentPlayer := q.currentPlayer))
      && (now.p14 != now.p15 && !r.readyForWrite ==> q == r.(currentPlayer := q.currentPlayer))
  {
    hide PacketCount, Receiver.StopBit, Receiver.DataBit;
  }

  /** The receiver in front of a stop bit takes a one as a bad packet: what the command held is dropped, nothing
      is queued or handed over, no more bits are taken, and the next reset pulse starts afresh. */
  lemma BadStopBit(r: Receiver, select: Lines, p: Packet)
    requires r.Valid() && r.readyForPulse
    ensures var q := Run(r, select, [Lines(false, false), Lines(true, true)] + BitPulses(p) + Pulse(true)).0;
      && q.packets == r.packets && q.pending == r.pending && q.playerCount == r.playerCount
      && q.command == seq(896, _ => false) && q.writeIndex == 0 && q.readyForPulse && !q.readyForWrite
      && q.StartsCommand()
  {
    var base := Base(r);
    OpenTrain(r, select);
    DataBits(Opened(r, base), base, p);
    var t := Received(Opened(r, base), base, p);
    RunPair(t, IDLE, ONE, IDLE);
    OneAtStop(t);
    hide Receiver.Write, Receiver.Valid, Run, BitPulses, Base, Open;
    RunSplit(r, select, [RESET, IDLE], BitPulses(p));
    RunSplit(r, select, [RESET, IDLE] + BitPulses(p), Pulse(true));
  }

  lemma OneAtStop(t: Receiver)
    requires t.Valid() && t.readyForPulse && t.readyForWrite && t.readyForStop
    requires t.Write(IDLE, ONE).0.Valid()
    ensures var q := t.Write(IDLE, ONE).0.Write(ONE, IDLE).0;
      q == t.(command := Zeros(COMMAND_BITS), writeIndex := 0, readyForWrite := false,
              currentPlayer := q.currentPlayer)
  {
    hide PacketCount, Receiver.DataBit;
  }

  /** A reset pulse in the middle of a packet drops it, and the train it begins is decoded as from scratch. */
  lemma ResetRestarts(r: Receiver, select: Lines, p: Packet)
    requires r.Valid() && r.readyForPulse && r.writeIndex % 128 != 0
    ensures Run(r, select, Train(p)) == (Decoded(r, p), IDLE)
  {
    TrainDecodes(r, select, p);
    assert Base(r) == [];
    assert [] + p == p;
  }
}
