/** The ICD2 side of a Super Game Boy: the command-packet receiver and the controller multiplexer
    of `joypad.rs`.

    Command bytes are kept as bits, least significant first, the order in which they arrive: bit k
    of the command is bit k % 8 of byte k / 8. */
module SgbReceiver {
  import opened Words

  const PACKET_BITS: nat := 128
  const COMMAND_BITS: nat := 896
  const PACKET_QUEUE_CAP: nat := 16

  /** The select lines P14 and P15 of a write to P1, true for high. */
  datatype Lines = Lines(p14: bool, p15: bool)

  const IDLE := Lines(true, true)
  const ZERO := Lines(false, true)
  const ONE := Lines(true, false)
  const RESET := Lines(false, false)

  /** n bits are whole packets. */
  predicate IsBoundary(n: nat) {
    n % PACKET_BITS == 0
  }

  type Packet = p: seq<bool> | |p| == PACKET_BITS witness seq(PACKET_BITS, _ => false)

  function Zeros(n: nat): seq<bool> {
    seq(n, _ => false)
  }

  /** Packets the command has, by its first byte: its three low bits, 0 meaning 1; the $F1 family
      always has one. */
  function PacketCount(command: seq<bool>): (n: nat)
    requires |command| >= 8
    ensures 1 <= n <= 7
  {
    var n := (if command[0] then 1 else 0) + (if command[1] then 2 else 0) + (if command[2] then 4 else 0);
    if command[0] && command[4] && command[5] && command[6] && command[7] then 1
    else if n == 0 then 1 else n
  }

  /** Command number $11 in the upper five bits of the first byte. */
  predicate IsMultiplayerRequest(command: seq<bool>)
    requires |command| >= 8
  {
    command[3] && !command[4] && !command[5] && !command[6] && command[7]
  }

  /** The controller selected `steps` rising edges of P15 later: two or four controllers take turns,
      one or three do not. */
  function Advance(player: nat, count: nat, steps: nat): nat {
    if count == 2 then (player + steps) % 2
    else if count == 4 then (player + steps) % 4
    else player
  }

  datatype Receiver = Receiver(
    command: seq<bool>, writeIndex: nat,
    readyForPulse: bool, readyForWrite: bool, readyForStop: bool,
    playerCount: nat, currentPlayer: nat,
    pending: Option<seq<bool>>, packets: seq<Packet>)
  {
    /** What the types and a save state's checks guarantee; the write index may be anything. */
    predicate Sane() {
      && |command| == COMMAND_BITS
      && 1 <= playerCount <= 4 && currentPlayer < playerCount
      && |packets| <= PACKET_QUEUE_CAP
    }

    /** A packet ending here does not lie within the command. */
    predicate Overruns() {
      writeIndex / 8 * 8 > COMMAND_BITS
    }

    /** A "0" pulse would be the stop bit of a packet that is not there. */
    predicate Primed() {
      readyForWrite && readyForStop && Overruns()
    }

    /** A write of these lines would be a panic. */
    predicate Traps(now: Lines) {
      now == ZERO && readyForPulse && Primed()
    }

    /** What every state reached by writes alone satisfies. */
    predicate Valid(): (v: bool)
      ensures v ==> Sane() && !Overruns()
    {
      && |command| == COMMAND_BITS && writeIndex <= COMMAND_BITS
      && (forall k :: writeIndex <= k < COMMAND_BITS ==> !command[k])
      && (readyForWrite && readyForStop ==> writeIndex > 0 && IsBoundary(writeIndex))
      && (writeIndex >= 8 ==> writeIndex <= PacketCount(command) * PACKET_BITS)
      && (IsBoundary(writeIndex) && writeIndex > 0 && !(readyForWrite && readyForStop)
          ==> writeIndex < PacketCount(command) * PACKET_BITS)
      && 1 <= playerCount <= 4 && currentPlayer < playerCount
      && |packets| <= PACKET_QUEUE_CAP
    }

    function Size(): nat
      requires |command| == COMMAND_BITS
    {
      PacketCount(command) * PACKET_BITS
    }

    function Discard(): Receiver {
      this.(writeIndex := 0, command := Zeros(COMMAND_BITS))
    }

    function Tee(): Receiver
      requires |command| == COMMAND_BITS && !Overruns()
    {
      var end := writeIndex / 8 * 8;
      if end < PACKET_BITS then this
      else
        var kept := if |packets| >= PACKET_QUEUE_CAP then packets[|packets| - PACKET_QUEUE_CAP + 1..] else packets;
        this.(packets := kept + [command[end - PACKET_BITS..end]])
    }

    function CommandReady(): Receiver
      requires |command| == COMMAND_BITS
    {
      if !IsMultiplayerRequest(command) then this.(pending := Some(command[..Size()]))
      else if !command[8] && !command[9] then this.(playerCount := 1, currentPlayer := 0)
      else if command[8] && !command[9] then this.(playerCount := 2, currentPlayer := currentPlayer % 2)
      else if command[8] && command[9] then this.(playerCount := 4, currentPlayer := currentPlayer % 4)
      else this.(playerCount := 3, currentPlayer := (currentPlayer + 1) / 2 % 2 * 2)
    }

    function StopBit(): Receiver
      requires |command| == COMMAND_BITS && !Overruns()
    {
      var t := Tee();
      var u := if writeIndex == Size() then t.CommandReady().Discard() else t;
      u.(readyForPulse := false, readyForWrite := false, readyForStop := false)
    }

    function DataBit(bit: bool): Receiver
      requires |command| == COMMAND_BITS
    {
      if writeIndex >= COMMAND_BITS then this
      else
        this.(command := if bit then command[writeIndex := true] else command,
              writeIndex := writeIndex + 1, readyForPulse := false,
              readyForStop := readyForStop || IsBoundary(writeIndex + 1))
    }

    function ZeroPulse(): Receiver
      requires |command| == COMMAND_BITS && !Traps(ZERO)
    {
      if !readyForPulse || !readyForWrite then this
      else if readyForStop then StopBit()
      else DataBit(false)
    }

    /** In stop position a "1" corrupts the packet; the stop flag itself stays up. */
    function OnePulse(): Receiver
      requires |command| == COMMAND_BITS
    {
      if !readyForPulse || !readyForWrite then this
      else if readyForStop then this.(readyForPulse := false, readyForWrite := false).Discard()
      else DataBit(true)
    }

    /** The reset pulse would open a fresh command. */
    predicate StartsCommand() {
      !IsBoundary(writeIndex) || writeIndex == 0 || readyForStop
    }

    function ResetPulse(): (Receiver, bool) {
      if !readyForPulse then (this, false)
      else
        var t := this.(readyForWrite := true, readyForPulse := false);
        if StartsCommand() then (t.Discard().(readyForStop := false), true) else (t, false)
    }

    /** P15 rising selects the next controller, when their number is even. */
    function NextPlayer(was: Lines, now: Lines): Receiver {
      if now.p15 && !was.p15 then this.(currentPlayer := Advance(currentPlayer, playerCount, 1)) else this
    }

    /** A write to P1 and whether it started a command transfer. */
    function Write(was: Lines, now: Lines): (r: (Receiver, bool))
      requires Sane() && !Traps(now)
    {
      var t := NextPlayer(was, now);
      if now == IDLE then (t.(readyForPulse := true), false)
      else if now == ZERO then (t.ZeroPulse(), false)
      else if now == ONE then (t.OnePulse(), false)
      else t.ResetPulse()
    }
  }

  const FRESH := Receiver(Zeros(COMMAND_BITS), 0, false, false, false, 1, 0, None, [])

  // ----- What every write keeps

  lemma WriteKeepsSane(r: Receiver, was: Lines, now: Lines)
    requires r.Sane() && !r.Traps(now)
    ensures r.Write(was, now).0.Sane()
  {
    hide PacketCount, Receiver.StopBit;
    var t := r.NextPlayer(was, now);
    if now == ZERO && t.readyForPulse && t.readyForWrite && t.readyForStop {
      StopBitKeepsSane(t);
    }
  }

  lemma StopBitKeepsSane(r: Receiver)
    requires r.Sane() && !r.Overruns()
    ensures r.StopBit().Sane()
  {
    hide PacketCount, Receiver.Tee, Receiver.CommandReady;
    TeeKeepsSane(r);
    CommandReadyKeepsSane(r.Tee());
  }

  lemma TeeKeepsSane(r: Receiver)
    requires r.Sane() && !r.Overruns()
    ensures r.Tee().Sane()
  {
  }

  lemma CommandReadyKeepsSane(r: Receiver)
    requires r.Sane()
    ensures r.CommandReady().Sane()
  {
    hide PacketCount, IsMultiplayerRequest;
  }

  // ----- Every reachable state is valid

  lemma DataBitKeepsValid(r: Receiver, bit: bool)
    requires r.Valid() && r.readyForPulse && r.readyForWrite && !r.readyForStop
    ensures r.DataBit(bit).Valid()
  {
  }

  lemma StopBitKeepsValid(r: Receiver)
    requires r.Valid() && r.readyForPulse && r.readyForWrite && r.readyForStop
    ensures r.StopBit().Valid()
  {
  }

  lemma WriteKeepsValid(r: Receiver, was: Lines, now: Lines)
    requires r.Valid()
    ensures r.Write(was, now).0.Valid()
  {
    hide PacketCount, Receiver.DataBit, Receiver.StopBit;
    var t := r.NextPlayer(was, now);
    if t.readyForPulse && t.readyForWrite && (now == ZERO || now == ONE) {
      if !t.readyForStop {
        DataBitKeepsValid(t, now == ONE);
      } else {
        StopBitKeepsValid(t);
      }
    }
  }

  /** The receiver object. Each method's effect is the operation of the same name on `View()`. */
  class Sgb {
    var command: seq<bool>
    var writeIndex: nat
    var readyForPulse: bool
    var readyForWrite: bool
    var readyForStop: bool
    var playerCount: nat
    var currentPlayer: nat
    var pending: Option<seq<bool>>
    var packets: seq<Packet>

    ghost function View(): Receiver
      reads this
    {
      Receiver(command, writeIndex, readyForPulse, readyForWrite, readyForStop,
               playerCount, currentPlayer, pending, packets)
    }

    ghost predicate Valid()
      reads this
    {
      View().Valid()
    }

    constructor ()
      ensures Valid() && View() == FRESH
    {
      command, writeIndex := Zeros(COMMAND_BITS), 0;
      readyForPulse, readyForWrite, readyForStop := false, false, false;
      playerCount, currentPlayer, pending, packets := 1, 0, None, [];
    }

    method TeePacket()
      requires |command| == COMMAND_BITS && !View().Overruns()
      modifies `packets
      ensures View() == old(View()).Tee()
    {
      var end := writeIndex / 8 * 8;
      if end < PACKET_BITS {
        return;
      }
      ghost var n := |packets|;
      while |packets| >= PACKET_QUEUE_CAP
        invariant |packets| <= n && packets == old(packets)[n - |packets|..]
        invariant n < PACKET_QUEUE_CAP ==> |packets| == n
        invariant n >= PACKET_QUEUE_CAP ==> |packets| >= PACKET_QUEUE_CAP - 1
      {
        packets := packets[1..];
      }
      packets := packets + [command[end - PACKET_BITS..end]];
    }

    method CommandReady()
      requires |command| == COMMAND_BITS
      modifies `pending, `playerCount, `currentPlayer
      ensures View() == old(View()).CommandReady()
    {
      if !IsMultiplayerRequest(command) {
        pending := Some(command[..PacketCount(command) * PACKET_BITS]);
      } else if !command[9] {
        if command[8] {
          playerCount, currentPlayer := 2, currentPlayer % 2;
        } else {
          playerCount, currentPlayer := 1, 0;
        }
      } else if command[8] {
        playerCount, currentPlayer := 4, currentPlayer % 4;
      } else {
        playerCount, currentPlayer := 3, (currentPlayer + 1) / 2 % 2 * 2;
      }
    }

    method DiscardCommand()
      modifies `command, `writeIndex
      ensures View() == old(View()).Discard()
    {
      writeIndex, command := 0, Zeros(COMMAND_BITS);
    }

    method ZeroPulse()
      requires |command| == COMMAND_BITS && !View().Traps(ZERO)
      modifies this
      ensures View() == old(View()).ZeroPulse()
    {
      hide Receiver.Tee, Receiver.CommandReady, PacketCount;
      if !readyForPulse || !readyForWrite {
        return;
      }
      if readyForStop {
        TeePacket();
        if writeIndex == PacketCount(command) * PACKET_BITS {
          CommandReady();
          DiscardCommand();
        }
        readyForPulse, readyForWrite, readyForStop := false, false, false;
      } else if writeIndex < COMMAND_BITS {
        writeIndex, readyForPulse := writeIndex + 1, false;
        if IsBoundary(writeIndex) {
          readyForStop := true;
        }
      }
    }

    method OnePulse()
      requires |command| == COMMAND_BITS
      modifies this
      ensures View() == old(View()).OnePulse()
    {
      if !readyForPulse || !readyForWrite {
        return;
      }
      if readyForStop {
        readyForPulse, readyForWrite := false, false;
        DiscardCommand();
      } else if writeIndex < COMMAND_BITS {
        command := command[writeIndex := true];
        writeIndex, readyForPulse := writeIndex + 1, false;
        if IsBoundary(writeIndex) {
          readyForStop := true;
        }
      }
    }

    method ResetPulse() returns (started: bool)
      modifies this
      ensures (View(), started) == old(View()).ResetPulse()
    {
      if !readyForPulse {
        return false;
      }
      started := !IsBoundary(writeIndex) || writeIndex == 0 || readyForStop;
      readyForWrite, readyForPulse := true, false;
      if started {
        DiscardCommand();
        readyForStop := false;
      }
    }

    /** Observes a write to P1; tells whether it started a command transfer. */
    method JoypWrite(was: Lines, now: Lines) returns (started: bool)
      requires View().Sane() && !View().Traps(now)
      modifies this
      ensures (View(), started) == old(View()).Write(was, now)
      ensures View().Sane() && (old(Valid()) ==> Valid())
    {
      WriteKeepsSane(View(), was, now);
      if View().Valid() {
        WriteKeepsValid(View(), was, now);
      }
      hide Receiver.ZeroPulse, Receiver.OnePulse, Receiver.ResetPulse;
      if now.p15 && !was.p15 {
        currentPlayer := Advance(currentPlayer, playerCount, 1);
      }
      started := false;
      if now.p14 && now.p15 {
        readyForPulse := true;
      } else if now.p15 {
        ZeroPulse();
      } else if now.p14 {
        OnePulse();
      } else {
        started := ResetPulse();
      }
    }
  }
}
