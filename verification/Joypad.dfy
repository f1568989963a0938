/** The key matrix, its interrupt, and the save state of `joypad.rs`. */
module Joypad {
  import opened Words
  import opened SgbReceiver

  /** Four active-low lines. */
  type Nibble = bv4

  /** A controller byte from the SNES side: d-pad and buttons. */
  datatype Pad = Pad(dpad: Nibble, buttons: Nibble)

  /** The columns that are selected, combined. */
  function Exposed(select: Lines, pad: Pad): Nibble {
    (if select.p14 then 0xF else pad.dpad) & (if select.p15 then 0xF else pad.buttons)
  }

  /** Everything a joypad holds. `feed` are the four controller latches, once the SNES side wrote them. */
  datatype State = State(select: Lines, dpad: Nibble, buttons: Nibble, irq: bool,
                         sgb: Option<Receiver>, feed: Option<seq<Pad>>)
  {
    /** What holds of every state, loaded ones included. */
    predicate Sane() {
      && (sgb.Some? ==> sgb.value.Sane())
      && (feed.Some? ==> sgb.Some? && |feed.value| == 4)
    }

    /** What holds of every state that writes and keys reach. */
    predicate Valid(): (v: bool)
      ensures v ==> Sane()
    {
      Sane() && (sgb.Some? ==> sgb.value.Valid())
    }

    /** The pad whose lines are exposed: the selected controller's latch, or the local keys. */
    function Source(): Pad
      requires Sane()
    {
      if feed.Some? then feed.value[sgb.value.currentPlayer] else Pad(dpad, buttons)
    }

    function InputLines(): Nibble
      requires Sane()
    {
      Exposed(select, Source())
    }
  }

  function Without(keys: Nibble, mask: Nibble): Nibble {
    keys & !mask
  }

  /** Some line is high before and low after. */
  predicate LineFell(before: Nibble, after: Nibble) {
    before & !after != 0
  }

  datatype Button = Right | Left | Up | Down | A | B | Select | Start
  {
    predicate IsDpad() {
      Right? || Left? || Up? || Down?
    }

    function Mask(): Nibble {
      if Right? || A? then 1 else if Left? || B? then 2 else if Up? || Select? then 4 else 8
    }
  }

  class KeyMatrix {
    var select: Lines
    var dpad: Nibble
    var buttons: Nibble
    var irq: bool
    var sgb: Sgb?
    var feed: Option<seq<Pad>>

    ghost function View(): State
      reads this, sgb
    {
      State(select, dpad, buttons, irq, if sgb == null then None else Some(sgb.View()), feed)
    }

    ghost predicate Sane()
      reads this, sgb
    {
      View().Sane()
    }

    ghost predicate Valid()
      reads this, sgb
    {
      View().Valid()
    }

    constructor (hasSgb: bool)
      ensures Valid() && View() == State(RESET, 0xF, 0xF, false, if hasSgb then Some(FRESH) else None, None)
      ensures sgb != null ==> fresh(sgb)
    {
      select, dpad, buttons, irq, feed := RESET, 0xF, 0xF, false, None;
      if hasSgb {
        sgb := new Sgb();
      } else {
        sgb := null;
      }
    }

    method InputLines() returns (lines: Nibble)
      requires Sane()
      ensures lines == View().InputLines()
    {
      var d, b := dpad, buttons;
      if sgb != null && feed.Some? {
        d, b := feed.value[sgb.currentPlayer].dpad, feed.value[sgb.currentPlayer].buttons;
      }
      lines := 0xF;
      if !select.p14 {
        lines := lines & d;
      }
      if !select.p15 {
        lines := lines & b;
      }
    }

    method LatchEdges(before: Nibble)
      requires Sane()
      modifies `irq
      ensures View() == old(View()).(irq := old(irq) || LineFell(before, old(View()).InputLines()))
    {
      var after := InputLines();
      if before & !after != 0 {
        irq := true;
      }
    }

    /** A write to P1: the SGB port sees it, and a line that falls, by the new selection or by the
        next controller's keys, latches the interrupt. */
    method Write(p1: Lines) returns (started: bool)
      requires Sane() && (sgb != null ==> !sgb.View().Traps(p1))
      modifies this, sgb
      ensures Sane() && (old(Valid()) ==> Valid()) && sgb == old(sgb)
      ensures select == p1 && dpad == old(dpad) && buttons == old(buttons) && feed == old(feed)
      ensures sgb != null ==> (sgb.View(), started) == old(sgb.View()).Write(old(select), p1)
      ensures sgb == null ==> !started
      ensures irq <==> old(irq) || LineFell(old(View()).InputLines(), View().InputLines())
    {
      hide Receiver.Write, Exposed, LineFell, Receiver.Sane, Receiver.Valid;
      var before := InputLines();
      started := false;
      if sgb != null {
        started := sgb.JoypWrite(select, p1);
      }
      select := p1;
      LatchEdges(before);
    }

    method Press(b: Button)
      requires Sane()
      modifies `dpad, `buttons, `irq
      ensures Sane() && (old(Valid()) ==> Valid())
      ensures dpad == (if b.IsDpad() then Without(old(dpad), b.Mask()) else old(dpad))
      ensures buttons == (if b.IsDpad() then old(buttons) else Without(old(buttons), b.Mask()))
      ensures irq <==> old(irq) || LineFell(old(View()).InputLines(), View().InputLines())
    {
      hide Exposed, LineFell, Button.Mask, Button.IsDpad, Without, Receiver.Sane, Receiver.Valid;
      var before := InputLines();
      if b.IsDpad() {
        dpad := Without(dpad, b.Mask());
      } else {
        buttons := Without(buttons, b.Mask());
      }
      LatchEdges(before);
    }

    method SetSgbFeed(pads: seq<Pad>)
      requires Sane() && |pads| == 4
      modifies this
      ensures Sane() && (old(Valid()) ==> Valid()) && sgb == old(sgb)
      ensures sgb == null ==> View() == old(View())
      ensures sgb != null ==> View() == old(View()).(
                feed := Some(pads), irq := old(irq) || LineFell(old(View()).InputLines(), View().InputLines()))
    {
      hide Exposed, LineFell, Receiver.Sane, Receiver.Valid;
      if sgb == null {
        return;
      }
      var before := InputLines();
      feed := Some(pads);
      LatchEdges(before);
    }

    method TakeIrq() returns (was: bool)
      requires Sane()
      modifies `irq
      ensures was == old(irq) && View() == old(View()).(irq := false)
    {
      was, irq := irq, false;
    }

    method TakeSgbPacket() returns (p: Option<Packet>)
      requires Sane()
      modifies sgb
      ensures Sane() && (old(Valid()) ==> Valid()) && sgb == old(sgb)
      ensures sgb == null ==> p == None
      ensures sgb != null ==>
                (if old(sgb.packets) == [] then p == None && sgb.View() == old(sgb.View())
                 else
                   && p == Some(old(sgb.packets)[0])
                   && sgb.View() == old(sgb.View()).(packets := old(sgb.packets)[1..]))
    {
      p := None;
      if sgb != null && sgb.packets != [] {
        p, sgb.packets := Some(sgb.packets[0]), sgb.packets[1..];
      }
    }

    method TakeSgbCommand() returns (command: Option<seq<bool>>)
      requires Sane()
      modifies sgb
      ensures Sane() && (old(Valid()) ==> Valid()) && sgb == old(sgb)
      ensures sgb == null ==> command == None
      ensures sgb != null ==> command == old(sgb.pending) && sgb.View() == old(sgb.View()).(pending := None)
    {
      command := None;
      if sgb != null {
        command, sgb.pending := sgb.pending, None;
      }
    }
  }

  // ----- Line by line

  /** Line k of four, true for high. */
  predicate Line(lines: Nibble, k: nat) {
    match k
    case 0 => lines & 1 != 0
    case 1 => lines & 2 != 0
    case 2 => lines & 4 != 0
    case _ => lines & 8 != 0
  }

  /** The line a button pulls low. */
  function LineOf(b: Button): nat {
    match b
    case Right => 0
    case A => 0
    case Left => 1
    case B => 1
    case Up => 2
    case Select => 2
    case Down => 3
    case Start => 3
  }

  /** An input line is low if and only if a selected column has it low, in the latch of the selected controller
      where pads are fed, in the keys otherwise. */
  lemma InputLine(s: State, k: nat)
    requires s.Sane() && k < 4
    ensures var dpad := if s.feed.Some? then s.feed.value[s.sgb.value.currentPlayer].dpad else s.dpad;
      var buttons := if s.feed.Some? then s.feed.value[s.sgb.value.currentPlayer].buttons else s.buttons;
      !Line(s.InputLines(), k) <==> (!s.select.p14 && !Line(dpad, k)) || (!s.select.p15 && !Line(buttons, k))
  {
    var pad := s.Source();
    ExposedLine(s.select, pad, k);
    hide Exposed, Line;
  }

  lemma ExposedLine(select: Lines, pad: Pad, k: nat)
    requires k < 4
    ensures Line(Exposed(select, pad), k) <==>
      (select.p14 || Line(pad.dpad, k)) && (select.p15 || Line(pad.buttons, k))
  {
    BothLines(if select.p14 then 0xF else pad.dpad, if select.p15 then 0xF else pad.buttons, k);
  }

  lemma BothLines(a: Nibble, b: Nibble, k: nat)
    requires k < 4
    ensures Line(a & b, k) <==> Line(a, k) && Line(b, k)
  {
  }

  /** The interrupt is for a line that is high before and low after. */
  lemma FallingLine(before: Nibble, after: Nibble)
    ensures LineFell(before, after) <==> exists k: nat :: k < 4 && Line(before, k) && !Line(after, k)
  {
    var fell := before & !after;
    if LineFell(before, after) {
      assert Line(fell, 0) || Line(fell, 1) || Line(fell, 2) || Line(fell, 3);
      assert (Line(before, 0) && !Line(after, 0)) || (Line(before, 1) && !Line(after, 1)) ||
        (Line(before, 2) && !Line(after, 2)) || (Line(before, 3) && !Line(after, 3));
    }
  }

  /** A pressed key has its own line low in its own column, and no other. */
  lemma PressedLine(keys: Nibble, b: Button, k: nat)
    requires k < 4
    ensures Line(Without(keys, b.Mask()), k) <==> Line(keys, k) && k != LineOf(b)
    ensures b.IsDpad() <==> b == Right || b == Left || b == Up || b == Down
  {
  }

  // ----- Save states, as the fields written and read in order

  datatype Field = SelectField(lines: Lines) | NibbleField(keys: Nibble) | FlagField(b: bool)
                 | CountField(n: Word32) | BitsField(bits: seq<bool>)

  function SavePackets(packets: seq<Packet>): (fields: seq<Field>)
    ensures |fields| == |packets|
  {
    seq(|packets|, i requires 0 <= i < |packets| => BitsField(packets[i]))
  }

  function SaveSgb(r: Receiver): seq<Field>
    requires r.Sane()
  {
    [BitsField(r.command), CountField(r.writeIndex % 0x1_0000_0000),
     FlagField(r.readyForPulse), FlagField(r.readyForWrite), FlagField(r.readyForStop),
     CountField(r.playerCount), CountField(r.currentPlayer), CountField(|r.packets|)] + SavePackets(r.packets)
  }

  function Save(s: State): seq<Field>
    requires s.Sane()
  {
    [SelectField(s.select), NibbleField(s.dpad), NibbleField(s.buttons), FlagField(s.irq), FlagField(s.sgb.Some?)]
    + if s.sgb.None? then [] else SaveSgb(s.sgb.value)
  }

  function LoadPackets(fields: seq<Field>): Result<seq<Packet>> {
    if fields == [] then Ok([])
    else if !fields[0].BitsField? || |fields[0].bits| != PACKET_BITS then Err
    else
      match LoadPackets(fields[1..])
      case Err => Err
      case Ok(rest) => Ok([fields[0].bits] + rest)
  }

  /** Rejects a controller selection that the port could not be in, and a queue over its cap. */
  function LoadSgb(fields: seq<Field>): Result<Receiver> {
    if |fields| < 8 then Err
    else
      match (fields[0], fields[1], fields[2], fields[3], fields[4], fields[5], fields[6], fields[7])
      case (BitsField(command), CountField(index), FlagField(pulse), FlagField(write), FlagField(stop),
            CountField(count), CountField(player), CountField(n)) =>
        if count == 0 || count > 4 || player >= count || n > PACKET_QUEUE_CAP || |fields| < 8 + n
           || |command| != COMMAND_BITS then Err
        else
          (match LoadPackets(fields[8..8 + n])
           case Err => Err
           case Ok(packets) => Ok(Receiver(command, index, pulse, write, stop, count, player, None, packets)))
      case _ => Err
  }

  function Load(fields: seq<Field>): Result<State> {
    if |fields| < 5 then Err
    else
      match (fields[0], fields[1], fields[2], fields[3], fields[4])
      case (SelectField(select), NibbleField(dpad), NibbleField(buttons), FlagField(irq), FlagField(hasSgb)) =>
        if !hasSgb then Ok(State(select, dpad, buttons, irq, None, None))
        else
          (match LoadSgb(fields[5..])
           case Err => Err
           case Ok(r) => Ok(State(select, dpad, buttons, irq, Some(r), None)))
      case _ => Err
  }

  /** What a save state keeps: all but the controller latches and a command not yet forwarded. */
  function Kept(s: State): State {
    s.(feed := None, sgb := if s.sgb.None? then None else Some(s.sgb.value.(pending := None)))
  }

  lemma {:induction false} PacketsRoundTrip(packets: seq<Packet>)
    ensures LoadPackets(SavePackets(packets)) == Ok(packets)
  {
    if packets != [] {
      assert SavePackets(packets)[1..] == SavePackets(packets[1..]);
      PacketsRoundTrip(packets[1..]);
      assert packets == [packets[0]] + packets[1..];
    }
  }

  lemma SgbRoundTrip(r: Receiver, trailing: seq<Field>)
    requires r.Sane() && r.writeIndex < 0x1_0000_0000
    ensures LoadSgb(SaveSgb(r) + trailing) == Ok(r.(pending := None))
  {
    hide PacketCount, IsBoundary;
    assert (SaveSgb(r) + trailing)[8..8 + |r.packets|] == SavePackets(r.packets);
    PacketsRoundTrip(r.packets);
  }

  /** Loading what was saved always succeeds and restores it, whatever follows it; what writes alone
      have reached stays such a state. */
  lemma SaveStateRoundTrip(s: State, trailing: seq<Field>)
    requires s.Sane() && (s.sgb.Some? ==> s.sgb.value.writeIndex < 0x1_0000_0000)
    ensures Load(Save(s) + trailing) == Ok(Kept(s)) && (s.Valid() ==> Kept(s).Valid())
  {
    hide PacketCount, IsBoundary, SaveSgb, LoadSgb;
    if s.sgb.Some? {
      SgbRoundTrip(s.sgb.value, trailing);
      assert (Save(s) + trailing)[5..] == SaveSgb(s.sgb.value) + trailing;
    }
  }

  /** The fields of a save state by their places. */
  lemma LoadedFields(fields: seq<Field>)
    requires Load(fields).Ok?
    ensures var s := Load(fields).value;
      && |fields| >= 5 && fields[0] == SelectField(s.select) && fields[1] == NibbleField(s.dpad)
      && fields[2] == NibbleField(s.buttons) && fields[3] == FlagField(s.irq) && fields[4] == FlagField(s.sgb.Some?)
      && s.feed == None
      && (s.sgb.Some? ==>
            var r, n := s.sgb.value, |s.sgb.value.packets|;
            && |fields| >= 13 + n && fields[5] == BitsField(r.command) && fields[6] == CountField(r.writeIndex)
            && fields[7] == FlagField(r.readyForPulse) && fields[8] == FlagField(r.readyForWrite)
            && fields[9] == FlagField(r.readyForStop) && fields[10] == CountField(r.playerCount)
            && fields[11] == CountField(r.currentPlayer) && fields[12].CountField? && fields[12].n == n
            && r.pending == None && forall i :: 0 <= i < n ==> fields[13 + i] == BitsField(r.packets[i]))
  {
    if Load(fields).value.sgb.Some? {
      LoadedPackets(fields[5..][8..8 + fields[12].n]);
    }
  }

  lemma {:induction false} LoadedPackets(fields: seq<Field>)
    ensures LoadPackets(fields).Ok? ==>
      |LoadPackets(fields).value| == |fields| &&
        forall i :: 0 <= i < |fields| ==> fields[i] == BitsField(LoadPackets(fields).value[i])
  {
    if fields != [] {
      LoadedPackets(fields[1..]);
      assert forall i :: 0 < i < |fields| ==> fields[i] == fields[1..][i - 1];
    }
  }

  /** Whatever loads has its controllers, its queue and its command buffer in range. */
  lemma LoadedControllersAreSane(fields: seq<Field>)
    ensures Load(fields).Ok? ==> Load(fields).value.Sane()
    ensures Load(fields).Ok? && Load(fields).value.sgb.Some? ==>
              var r := Load(fields).value.sgb.value; 1 <= r.playerCount <= 4 && r.currentPlayer < r.playerCount
  {
    if |fields| >= 5 && Load(fields).Ok? && Load(fields).value.sgb.Some? {
      LoadedSgbIsSane(fields[5..]);
    }
  }

  lemma LoadedSgbIsSane(fields: seq<Field>)
    ensures LoadSgb(fields).Ok? ==> LoadSgb(fields).value.Sane()
  {
    if LoadSgb(fields).Ok? {
      LoadedPackets(fields[8..8 + fields[7].n]);
    }
  }

  // ----- Which loaded states can trap

  /** A run of writes to P1 from any state that can be loaded; none, once a write is a panic. */
  function Survived(r: Receiver, select: Lines, writes: seq<Lines>): (q: Option<(Receiver, Lines)>)
    requires r.Sane()
    ensures q.Some? ==> q.value.0.Sane()
  {
    if writes == [] then Some((r, select))
    else
      var n := |writes| - 1;
      match Survived(r, select, writes[..n])
      case None => None
      case Some((before, was)) =>
        if before.Traps(writes[n]) then None
        else
          WriteKeepsSane(before, was, writes[n]);
          Some((before.Write(was, writes[n]).0, writes[n]))
  }

  /** A stop bit is only ever due behind a whole packet. */
  lemma WriteKeepsUnprimed(r: Receiver, was: Lines, now: Lines)
    requires r.Sane() && !r.Primed()
    ensures !r.Traps(now) && !r.Write(was, now).0.Primed()
  {
    hide PacketCount, Receiver.CommandReady;
  }

  lemma {:induction false} UnprimedSurvives(r: Receiver, select: Lines, writes: seq<Lines>)
    requires r.Sane() && !r.Primed()
    ensures Survived(r, select, writes).Some? && !Survived(r, select, writes).value.0.Primed()
  {
    hide Receiver.Write, Receiver.Sane, Receiver.Primed, Receiver.Traps;
    if writes != [] {
      var n := |writes| - 1;
      UnprimedSurvives(r, select, writes[..n]);
      var (before, was) := Survived(r, select, writes[..n]).value;
      WriteKeepsUnprimed(before, was, writes[n]);
    }
  }

  lemma PrimedTraps(r: Receiver, select: Lines)
    requires r.Sane() && r.Primed()
    ensures Survived(r, select, [IDLE, ZERO]) == None
  {
    assert [IDLE, ZERO][..1] == [IDLE] && [IDLE][..0] == [];
    assert Survived(r, select, []) == Some((r, select));
    assert Survived(r, select, [IDLE]) == Some((r.Write(select, IDLE).0, IDLE));
  }

  /** A loaded receiver has a run of writes that ends in a panic if and only if it was saved with its
      write and stop flags set and a write index whose whole bytes lie beyond the command buffer. */
  lemma LoadedReceiverCanTrap(fields: seq<Field>)
    requires Load(fields).Ok? && Load(fields).value.sgb.Some?
    ensures var s := Load(fields).value;
      var r := s.sgb.value;
      && r.Sane()
      && ((exists writes :: Survived(r, s.select, writes) == None)
          <==> r.readyForWrite && r.readyForStop && r.writeIndex / 8 * 8 > COMMAND_BITS)
  {
    LoadedControllersAreSane(fields);
    hide Load, Survived, Receiver.Sane, Receiver.Write;
    var s := Load(fields).value;
    var r := s.sgb.value;
    if r.Primed() {
      PrimedTraps(r, s.select);
    } else {
      forall writes ensures Survived(r, s.select, writes) != None {
        UnprimedSurvives(r, s.select, writes);
      }
    }
  }

  /** Such a save exists: a write index of 1024 with all three flags set. */
  function CorruptSave(): seq<Field> {
    [SelectField(IDLE), NibbleField(0xF), NibbleField(0xF), FlagField(false), FlagField(true),
     BitsField(Zeros(COMMAND_BITS)), CountField(1024), FlagField(true), FlagField(true), FlagField(true),
     CountField(1), CountField(0), CountField(0)]
  }

  lemma CorruptSaveTraps()
    ensures Load(CorruptSave()).Ok? && Load(CorruptSave()).value.sgb.Some?
    ensures var s := Load(CorruptSave()).value;
      s.sgb.value.Sane() && s.sgb.value.Traps(ZERO) && Survived(s.sgb.value, s.select, [ZERO]) == None
  {
    var fields := CorruptSave();
    assert fields[5..][8..8] == [];
    var s := Load(fields).value;
    LoadedControllersAreSane(fields);
    assert [ZERO][..0] == [];
    assert Survived(s.sgb.value, s.select, []) == Some((s.sgb.value, s.select));
  }
}
