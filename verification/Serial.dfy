/** The serial port and its link cable: `serial.rs`.

    A byte is its eight bits, most significant first. SC keeps the three bits the port
    implements; every write masks the others away. */
module Serial {
  import opened Words

  type Bits = b: seq<bool> | |b| == 8 witness [false, false, false, false, false, false, false, false]

  const ZERO: Bits := [false, false, false, false, false, false, false, false]
  const ONES: Bits := [true, true, true, true, true, true, true, true]

  const OUT_CAPTURE_CAP := 64 * 1024
  const LINK_QUEUE_CAP := 256

  datatype Control = Control(active: bool, fast: bool, internal: bool)

  function ControlOf(value: Bits, cgb: bool): Control {
    Control(value[0], cgb && value[6], value[7])
  }

  /** Everything the port holds, with each operation as a function to the next state and
      whether it raises the serial interrupt. */
  datatype Port = Port(
    cgb: bool, sb: Bits, sc: Control, shifted: nat, masterClock: bool, prevDiv: Word16, outShift: Bits,
    outBuf: seq<Bits>, connected: bool, linkIn: seq<Bits>, linkOut: seq<Bits>, waiting: bool)
  {
    predicate Valid() {
      && shifted < 8
      && |linkIn| <= LINK_QUEUE_CAP && |linkOut| <= LINK_QUEUE_CAP
      && (waiting ==> connected && sc.active && sc.internal && shifted == 0 && linkIn == [])
    }

    /** An internal-clock transfer that advances on shift clocks. */
    predicate Shifting() {
      sc.active && sc.internal && !waiting
    }

    /** The DIV period whose falling half-way bit clocks the port: bit 2 or bit 7. */
    function Period(): (p: nat)
      ensures p == 8 || p == 256
    {
      if cgb && sc.fast then 8 else 256
    }

    predicate ClockBit(div: Word16) {
      div % Period() >= Period() / 2
    }

    function Incoming(): bool
      requires Valid()
    {
      linkIn == [] || linkIn[0][shifted]
    }

    function Shift(): Port
      requires Valid()
    {
      this.(outShift := outShift[1..] + [sb[0]], sb := sb[1..] + [Incoming()], shifted := shifted + 1)
    }

    /** The eighth shift: captures the byte, and completes or stalls. */
    function Complete(): (Port, bool) {
      var captured := if |outBuf| < OUT_CAPTURE_CAP then outBuf + [outShift] else outBuf;
      var p := this.(shifted := 0, outBuf := captured);
      if !connected then
        (p.(sc := sc.(active := false)), true)
      else
        var q := if |linkOut| < LINK_QUEUE_CAP then p.(linkOut := linkOut + [outShift]) else p;
        if linkIn == [] then (q.(waiting := true), false)
        else (q.(sb := linkIn[0], linkIn := linkIn[1..], sc := sc.(active := false)), true)
    }

    function MasterEdge(): (r: (Port, bool))
      requires Valid()
      ensures r.0.Valid() && r.0.connected == connected
    {
      var p := this.(masterClock := !masterClock);
      if p.masterClock || !Shifting() then (p, false)
      else
        var q := p.Shift();
        if q.shifted == 8 then q.Complete() else (q, false)
    }

    predicate Falls(div: Word16) {
      ClockBit(prevDiv) && !ClockBit(div)
    }

    function Tick(div: Word16): (r: (Port, bool))
      requires Valid()
      ensures r.0.Valid() && r.0.connected == connected
    {
      hide Port.MasterEdge;
      var p := this.(prevDiv := div);
      if Falls(div) then p.MasterEdge() else (p, false)
    }

    function DivWrite(before: Word16): (r: (Port, bool))
      requires Valid()
      ensures r.0.Valid() && r.0.connected == connected
    {
      hide Port.MasterEdge;
      var p := this.(prevDiv := 0);
      if ClockBit(before) then p.MasterEdge() else (p, false)
    }

    function WriteSc(value: Bits): (r: Port)
      requires Valid()
      ensures r.Valid() && r.connected == connected
    {
      hide Port.MasterEdge;
      var p := this.(shifted := 0);
      var q := if masterClock then p.MasterEdge().0 else p;
      q.(sc := ControlOf(value, cgb), waiting := false)
    }

    function SetConnected(on: bool): (r: (Port, bool))
      requires Valid()
      ensures r.0.Valid()
    {
      if on then (this.(connected := true), false)
      else
        var p := this.(connected := false, linkIn := [], linkOut := [], waiting := false);
        if waiting then (p.(sb := ONES, sc := sc.(active := false), shifted := 0), true) else (p, false)
    }

    function PushLinkIn(byte: Bits): (r: (Port, bool))
      requires Valid()
      ensures r.0.Valid()
    {
      if waiting then
        (this.(sb := byte, sc := sc.(active := false), shifted := 0, waiting := false), true)
      else if |linkIn| < LINK_QUEUE_CAP then (this.(linkIn := linkIn + [byte]), false)
      else (this, false)
    }

    predicate Armed() {
      sc.active && !sc.internal
    }

    /** An armed slave takes the master's byte; its own goes back. */
    function SlaveTransfer(byte: Bits): (r: (Port, Option<Bits>))
      requires Valid()
      ensures r.0.Valid()
    {
      if Armed() then (this.(sb := byte, sc := sc.(active := false), shifted := 0), Some(sb))
      else (this, None)
    }
  }

  function Fresh(cgb: bool): Port {
    Port(cgb, ZERO, Control(false, false, false), 0, false, 0, ZERO, [], false, [], [], false)
  }

  /** The port object. Each method's effect is the operation of the same name on `View()`. */
  class SerialPort {
    var cgb: bool
    var sb: Bits
    var sc: Control
    var shifted: nat
    var masterClock: bool
    var prevDiv: Word16
    var outShift: Bits
    var outBuf: seq<Bits>
    var connected: bool
    var linkIn: seq<Bits>
    var linkOut: seq<Bits>
    var waiting: bool

    ghost function View(): Port
      reads this
    {
      Port(cgb, sb, sc, shifted, masterClock, prevDiv, outShift, outBuf, connected, linkIn, linkOut, waiting)
    }

    ghost predicate Valid()
      reads this
    {
      View().Valid()
    }

    constructor (cgb: bool)
      ensures Valid() && View() == Fresh(cgb)
    {
      this.cgb := cgb;
      sb, sc, shifted, masterClock := ZERO, Control(false, false, false), 0, false;
      prevDiv, outShift, outBuf := 0, ZERO, [];
      connected, linkIn, linkOut, waiting := false, [], [], false;
    }

    /** The part of a master edge behind the eighth shift. */
    method CompleteByte() returns (irq: bool)
      modifies this
      ensures (View(), irq) == old(View()).Complete()
    {
      shifted := 0;
      if |outBuf| < OUT_CAPTURE_CAP {
        outBuf := outBuf + [outShift];
      }
      irq := true;
      if !connected {
        sc := sc.(active := false);
      } else {
        if |linkOut| < LINK_QUEUE_CAP {
          linkOut := linkOut + [outShift];
        }
        if linkIn == [] {
          waiting, irq := true, false;
        } else {
          sb, linkIn, sc := linkIn[0], linkIn[1..], sc.(active := false);
        }
      }
    }

    method MasterEdge() returns (irq: bool)
      requires Valid()
      modifies this
      ensures (View(), irq) == old(View()).MasterEdge() && Valid()
    {
      hide Port.Complete;
      masterClock := !masterClock;
      irq := false;
      if !masterClock && sc.active && sc.internal && !waiting {
        var incoming := if linkIn == [] then true else linkIn[0][shifted];
        outShift, sb, shifted := outShift[1..] + [sb[0]], sb[1..] + [incoming], shifted + 1;
        if shifted == 8 {
          irq := CompleteByte();
        }
      }
    }

    method Tick(div: Word16) returns (irq: bool)
      requires Valid()
      modifies this
      ensures Valid() && (View(), irq) == old(View()).Tick(div)
    {
      var period := if cgb && sc.fast then 8 else 256;
      var falling := prevDiv % period >= period / 2 && div % period < period / 2;
      prevDiv := div;
      irq := false;
      if falling {
        irq := MasterEdge();
      }
    }

    method DivWrite(before: Word16) returns (irq: bool)
      requires Valid()
      modifies this
      ensures Valid() && (View(), irq) == old(View()).DivWrite(before)
    {
      var period := if cgb && sc.fast then 8 else 256;
      prevDiv := 0;
      irq := false;
      if before % period >= period / 2 {
        irq := MasterEdge();
      }
    }

    method SetLinkConnected(on: bool) returns (irq: bool)
      requires Valid()
      modifies this
      ensures Valid() && (View(), irq) == old(View()).SetConnected(on)
    {
      connected, irq := on, false;
      if !on {
        irq := waiting;
        if waiting {
          sb, sc, shifted, waiting := ONES, sc.(active := false), 0, false;
        }
        linkIn, linkOut := [], [];
      }
    }

    method PushLinkIn(byte: Bits) returns (irq: bool)
      requires Valid()
      modifies this
      ensures Valid() && (View(), irq) == old(View()).PushLinkIn(byte)
    {
      irq := waiting;
      if waiting {
        sb, sc, shifted, waiting := byte, sc.(active := false), 0, false;
      } else if |linkIn| < LINK_QUEUE_CAP {
        linkIn := linkIn + [byte];
      }
    }

    method TakeLinkSend() returns (byte: Option<Bits>)
      requires Valid()
      modifies this
      ensures Valid()
      ensures byte == if old(linkOut) == [] then None else Some(old(linkOut)[0])
      ensures View() == old(View()).(linkOut := if old(linkOut) == [] then [] else old(linkOut)[1..])
    {
      byte := None;
      if linkOut != [] {
        byte, linkOut := Some(linkOut[0]), linkOut[1..];
      }
    }

    method LinkSlaveTransfer(masterByte: Bits) returns (out: Option<Bits>, irq: bool)
      requires Valid()
      modifies this
      ensures Valid() && (View(), out) == old(View()).SlaveTransfer(masterByte) && irq == out.Some?
    {
      if !sc.active || sc.internal {
        return None, false;
      }
      out, irq := Some(sb), true;
      sb, sc, shifted := masterByte, sc.(active := false), 0;
    }

    /** FF01 is SB and FF02 is SC; the write to SC cannot raise the interrupt. */
    method Write(addr: Word16, value: Bits)
      requires Valid()
      modifies this
      ensures Valid()
      ensures View() == if addr == 0xFF01 then old(View()).(sb := value)
                        else if addr == 0xFF02 then old(View()).WriteSc(value)
                        else old(View())
    {
      if addr == 0xFF01 {
        sb := value;
      } else if addr == 0xFF02 {
        shifted := 0;
        if masterClock {
          var irq := MasterEdge();
          assert !irq;
        }
        sc := ControlOf(value, cgb);
        waiting := false;
      }
    }
  }
}
