/** The host-side GP-DMA engine, between the A bus and the B bus: `dma.rs` with the register dispatch
    of `mmio.rs`. */
module Dma {
  import opened Words

  /** The PPU is sent a byte, or asked for one. */
  datatype Access = Sent(port: Byte, v: Byte) | Asked(port: Byte)

  /** What the transfers can read and the model does not look into: memory other than work RAM, which
      answers by what has been stored to it; the PPU's ports, which answer by all accesses before; and
      the ICD2 window, where a read may answer by all the reads before it. A bulk read of n window
      bytes is n successive reads. */
  datatype Guest = Guest(
    memory: (seq<(nat, Byte)>, nat) -> Byte, port: (seq<Access>, Byte) -> Byte, icd2: (seq<nat>, nat) -> Byte)

  /** What a transfer can change: work RAM behind WMDATA, the WMDATA address, and in their order the
      accesses the PPU has had, the window reads the ICD2 has had, and the bytes stored to memory other
      than work RAM. */
  datatype Machine = Machine(
    wram: seq<Byte>, wmadd: nat, ppu: seq<Access>, icd2: seq<nat>, stored: seq<(nat, Byte)>)
  {
    predicate Valid() {
      |wram| == 0x2_0000 && wmadd < 0x2_0000
    }
  }

  /** A transfer to the B bus, or to the A bus. The A-bus address steps by 1, 0 or -1 within its bank. */
  datatype Channel = Channel(
    toA: bool, bank: Byte, start: Word16, bbad: Byte, mode: nat, step: int, count: nat)
  {
    predicate Valid() {
      mode < 8 && -1 <= step <= 1 && 1 <= count <= 0x1_0000
    }

    predicate Chunkable() {
      Valid() && !toA && step == 1
    }
  }

  function Word(low: int, high: int): int {
    low + 0x100 * high
  }

  /** A channel's seven registers: DMAP, BBAD, A1T low and high, A1B, DAS low and high. */
  type Registers = r: seq<Byte> | |r| == 7 witness [0, 0, 0, 0, 0, 0, 0]

  function ChannelOf(r: Registers): (c: Channel)
    ensures c.Valid()
  {
    var step := match r[0] / 8 % 4 case 0 => 1 case 2 => -1 case _ => 0;
    var das := Word(r[5], r[6]);
    Channel(r[0] >= 0x80, r[4], Word(r[2], r[3]), r[1], r[0] % 8, step, if das == 0 then 0x1_0000 else das)
  }

  /** The registers after the transfer: A1T stepped past the last byte, DAS run out. */
  function After(r: Registers): Registers {
    var c := ChannelOf(r);
    var a := Source(c, c.count);
    [r[0], r[1], a % 0x100, a / 0x100, r[4], 0, 0]
  }

  /** B-bus port offsets of a transfer unit. */
  function Unit(mode: nat): (u: seq<Byte>)
    requires mode < 8
    ensures u != []
  {
    match mode
    case 0 => [0]
    case 1 => [0, 1]
    case 2 => [0, 0]
    case 3 => [0, 0, 1, 1]
    case 4 => [0, 1, 2, 3]
    case 5 => [0, 1, 0, 1]
    case 6 => [0, 0]
    case 7 => [0, 0, 1, 1]
  }

  predicate IsSystemBank(bank: Byte) {
    bank / 0x40 % 2 == 0
  }

  predicate IsWram(bank: Byte, addr: Word16) {
    bank == 0x7E || bank == 0x7F || (IsSystemBank(bank) && addr < 0x2000)
  }

  predicate IsIcd2(bank: Byte, addr: Word16) {
    IsSystemBank(bank) && bank != 0x7E && 0x6000 <= addr < 0x8000
  }

  function WramOffset(bank: Byte, addr: Word16): (o: nat)
    requires IsWram(bank, addr)
    ensures o < 0x2_0000
  {
    if bank == 0x7F then 0x1_0000 + addr else addr
  }

  /** One A-bus byte. */
  function ReadA(g: Guest, m: Machine, bank: Byte, addr: Word16): Byte
    requires m.Valid()
  {
    if IsIcd2(bank, addr) then g.icd2(m.icd2, addr % 0x2000)
    else if IsWram(bank, addr) then m.wram[WramOffset(bank, addr)]
    else g.memory(m.stored, bank * 0x1_0000 + addr)
  }

  /** What s has written, on the window as u has read it. */
  function Merged(s: Machine, u: Machine): Machine {
    s.(icd2 := u.icd2)
  }

  function AfterRead(m: Machine, bank: Byte, addr: Word16): (r: Machine)
    ensures r == Merged(m, r) && (m.Valid() ==> r.Valid())
  {
    if IsIcd2(bank, addr) then m.(icd2 := m.icd2 + [addr % 0x2000]) else m
  }

  /** One B-bus write: the WRAM access ports act here, every other port is the PPU's. */
  function WriteB(m: Machine, port: Byte, v: Byte): (r: Machine)
    requires m.Valid()
    ensures r.Valid() && r.icd2 == m.icd2 && r.stored == m.stored
  {
    if port == 0x80 then m.(wram := m.wram[m.wmadd := v], wmadd := (m.wmadd + 1) % 0x2_0000)
    else if port == 0x81 then m.(wmadd := m.wmadd / 0x100 * 0x100 + v)
    else if port == 0x82 then m.(wmadd := m.wmadd / 0x1_0000 * 0x1_0000 + v * 0x100 + m.wmadd % 0x100)
    else if port == 0x83 then m.(wmadd := v % 2 * 0x1_0000 + m.wmadd % 0x1_0000)
    else m.(ppu := m.ppu + [Sent(port, v)])
  }

  /** One B-bus byte: WMDATA reads work RAM and steps, every other port is the PPU's. */
  function ReadB(g: Guest, m: Machine, port: Byte): Byte
    requires m.Valid()
  {
    if port == 0x80 then m.wram[m.wmadd] else g.port(m.ppu, port)
  }

  function AfterReadB(m: Machine, port: Byte): (r: Machine)
    ensures m.Valid() ==> r.Valid()
  {
    if port == 0x80 then m.(wmadd := (m.wmadd + 1) % 0x2_0000) else m.(ppu := m.ppu + [Asked(port)])
  }

  /** One A-bus write. It goes to memory even inside the ICD2 window. */
  function WriteA(m: Machine, bank: Byte, addr: Word16, v: Byte): (r: Machine)
    requires m.Valid()
    ensures r.Valid()
  {
    if IsWram(bank, addr) then m.(wram := m.wram[WramOffset(bank, addr) := v])
    else m.(stored := m.stored + [(bank * 0x1_0000 + addr, v)])
  }

  function Source(c: Channel, i: nat): Word16 {
    if c.step == 1 then (c.start + i) % 0x1_0000
    else if c.step == -1 then (c.start - i) % 0x1_0000
    else c.start
  }

  function Port(c: Channel, i: nat): Byte
    requires c.mode < 8
  {
    (c.bbad + Unit(c.mode)[i % |Unit(c.mode)|]) % 0x100
  }

  /** The one WRAM chip cannot serve both sides: such bytes are not transferred. */
  predicate Clashes(c: Channel, i: nat)
    requires c.mode < 8
  {
    0x80 <= Port(c, i) <= 0x83 && IsWram(c.bank, Source(c, i))
  }

  /** The byte-at-a-time transfer: byte i is read, then written. */
  function TransferByte(g: Guest, m: Machine, c: Channel, i: nat): (r: Machine)
    requires m.Valid() && c.mode < 8
    ensures r.Valid()
  {
    if Clashes(c, i) then m
    else if c.toA then WriteA(AfterReadB(m, Port(c, i)), c.bank, Source(c, i), ReadB(g, m, Port(c, i)))
    else WriteB(AfterRead(m, c.bank, Source(c, i)), Port(c, i), ReadA(g, m, c.bank, Source(c, i)))
  }

  /** The machine after the first n bytes of the transfer. */
  function Transfer(g: Guest, m: Machine, c: Channel, n: nat): (r: Machine)
    requires m.Valid() && c.mode < 8
    ensures r.Valid()
  {
    if n == 0 then m else TransferByte(g, Transfer(g, m, c, n - 1), c, n - 1)
  }

  // ----- Bulk reads

  function AfterRun(m: Machine, bank: Byte, addr: Word16, n: nat): (r: Machine)
    requires addr + n <= 0x1_0000
    ensures r == Merged(m, r) && (m.Valid() ==> r.Valid())
  {
    if n == 0 then m else AfterRead(AfterRun(m, bank, addr, n - 1), bank, addr + n - 1)
  }

  /** n bytes from addr on, read before anything is written. */
  function ReadRun(g: Guest, m: Machine, bank: Byte, addr: Word16, n: nat): (bytes: seq<Byte>)
    requires m.Valid() && addr + n <= 0x1_0000
    ensures |bytes| == n
  {
    if n == 0 then []
    else ReadRun(g, m, bank, addr, n - 1) + [ReadA(g, AfterRun(m, bank, addr, n - 1), bank, addr + n - 1)]
  }

  /** How far one bulk read may go: to the end of the bank, and not across an edge of the window. */
  function RunLength(c: Channel, done: nat): (n: nat)
    requires done < c.count
    ensures 0 < n <= c.count - done && Source(c, done) + n <= 0x1_0000
    ensures forall x: Word16 :: Source(c, done) <= x < Source(c, done) + n ==>
      IsIcd2(c.bank, x) == IsIcd2(c.bank, Source(c, done))
  {
    var a := Source(c, done);
    var toWrap := 0x1_0000 - a;
    var toEdge :=
      if IsIcd2(c.bank, a) then 0x8000 - a
      else if IsSystemBank(c.bank) && c.bank != 0x7E && a < 0x6000 then 0x6000 - a
      else toWrap;
    Min(Min(c.count - done, toWrap), toEdge)
  }

  /** Bytes i..j written in order, from a bulk read that began with byte `first`. */
  function WriteRun(m: Machine, c: Channel, first: nat, bytes: seq<Byte>, n: nat): (r: Machine)
    requires m.Valid() && c.mode < 8 && n <= |bytes|
    ensures r.Valid() && r.icd2 == m.icd2 && r.stored == m.stored
  {
    if n == 0 then m
    else
      var t := WriteRun(m, c, first, bytes, n - 1);
      if Clashes(c, first + n - 1) then t else WriteB(t, Port(c, first + n - 1), bytes[n - 1])
  }

  /** The chunked transfer from byte `done` on: read a run, then write it, then go on. */
  function Chunked(g: Guest, m: Machine, c: Channel, done: nat): (r: Machine)
    requires m.Valid() && c.Chunkable() && done <= c.count
    ensures r.Valid()
    decreases c.count - done
  {
    if done == c.count then m
    else
      var n, a := RunLength(c, done), Source(c, done);
      Chunked(g, WriteRun(AfterRun(m, c.bank, a, n), c, done, ReadRun(g, m, c.bank, a, n), n), c, done + n)
  }

  // ----- One chunk transfers what its bytes would

  /** Work RAM a chunk reads is still what it was: every byte in front of a WRAM byte of the same
      chunk is a WRAM byte too, so no WMDATA write has happened. */
  lemma WramUntouched(m: Machine, c: Channel, done: nat, bytes: seq<Byte>, k: nat)
    requires m.Valid() && c.Chunkable() && done < c.count && k < RunLength(c, done) && k <= |bytes|
    requires IsWram(c.bank, Source(c, done) + k)
    ensures WriteRun(m, c, done, bytes, k).wram == m.wram
  {
    if k > 0 {
      WramUntouched(m, c, done, bytes, k - 1);
      SourceInRun(c, done, k - 1);
    }
  }

  lemma SourceInRun(c: Channel, done: nat, k: nat)
    requires c.step == 1 && done < c.count && Source(c, done) + k < 0x1_0000
    ensures Source(c, done + k) == Source(c, done) + k
  {
    var q := (c.start + done) / 0x1_0000;
    assert c.start + (done + k) == 0x1_0000 * q + (Source(c, done) + k);
  }

  /** Writes pay no heed to later bytes or to window reads. */
  lemma {:induction false} WriteRunLocal(m: Machine, c: Channel, first: nat, bytes: seq<Byte>, v: Byte, u: Machine,
      n: nat)
    requires m.Valid() && u == Merged(m, u) && c.mode < 8 && n <= |bytes|
    ensures WriteRun(u, c, first, bytes + [v], n) == Merged(WriteRun(m, c, first, bytes, n), u)
  {
    hide Clashes, Port;
    if n > 0 {
      WriteRunLocal(m, c, first, bytes, v, u, n - 1);
    }
  }

  function TransferFrom(g: Guest, m: Machine, c: Channel, i: nat, n: nat): (r: Machine)
    requires m.Valid() && c.mode < 8
    ensures r.Valid()
  {
    if n == 0 then m else TransferByte(g, TransferFrom(g, m, c, i, n - 1), c, i + n - 1)
  }

  /** A byte read ahead has the value, and the effect, it has when read in turn. */
  lemma ReadAheadIsReadInTurn(g: Guest, t: Machine, c: Channel, done: nat, bytes: seq<Byte>, k: nat)
    requires t.Valid() && c.Chunkable() && done < c.count && k < RunLength(c, done) && k <= |bytes|
    ensures var s, a := WriteRun(t, c, done, bytes, k), Source(c, done) + k;
      && ReadA(g, s, c.bank, a) == ReadA(g, t, c.bank, a)
      && AfterRead(s, c.bank, a) == Merged(s, AfterRead(t, c.bank, a))
  {
    if IsWram(c.bank, Source(c, done) + k) {
      WramUntouched(t, c, done, bytes, k);
    }
  }

  /** The last byte of a run is written over what the bytes before it left. */
  lemma WriteLast(u: Machine, c: Channel, first: nat, bytes: seq<Byte>, v: Byte, w: Machine)
    requires u.Valid() && c.mode < 8 && w.Valid()
    requires WriteRun(u, c, first, bytes + [v], |bytes|) == w
    ensures WriteRun(u, c, first, bytes + [v], |bytes| + 1)
         == if Clashes(c, first + |bytes|) then w else WriteB(w, Port(c, first + |bytes|), v)
  {
    hide Clashes, Port, WriteB;
  }

  lemma ByteInTurn(g: Guest, s: Machine, c: Channel, i: nat, a: Word16, v: Byte, w: Machine)
    requires s.Valid() && !c.toA && c.mode < 8 && w.Valid() && a == Source(c, i)
    requires ReadA(g, s, c.bank, a) == v && AfterRead(s, c.bank, a) == w
    ensures TransferByte(g, s, c, i) == if Clashes(c, i) then w else WriteB(w, Port(c, i), v)
  {
    hide Port, WriteB, ReadA, Source;
  }

  lemma ByteStep(g: Guest, t: Machine, c: Channel, done: nat, bytes: seq<Byte>, a: Word16, v: Byte, u: Machine,
      s: Machine)
    requires t.Valid() && c.Chunkable() && done < c.count && |bytes| < RunLength(c, done)
    requires a == Source(c, done) + |bytes| && v == ReadA(g, t, c.bank, a) && u == AfterRead(t, c.bank, a)
    requires s == WriteRun(t, c, done, bytes, |bytes|)
    ensures WriteRun(u, c, done, bytes + [v], |bytes| + 1) == TransferByte(g, s, c, done + |bytes|)
  {
    hide ReadA, WriteB, Port, RunLength, Source, IsWram, IsIcd2, Clashes, WriteRun, TransferByte, AfterRead, Merged;
    var k := |bytes|;
    SourceInRun(c, done, k);
    ReadAheadIsReadInTurn(g, t, c, done, bytes, k);
    WriteRunLocal(t, c, done, bytes, v, u, k);
    WriteLast(u, c, done, bytes, v, Merged(s, u));
    ByteInTurn(g, s, c, done + k, a, v, Merged(s, u));
  }

  /** Reading ahead and writing behind meet in the same machine as one byte after the other. */
  lemma {:induction false} ChunkIsBytes(g: Guest, m: Machine, c: Channel, done: nat, k: nat)
    requires m.Valid() && c.Chunkable() && done < c.count && k <= RunLength(c, done)
    ensures var a := Source(c, done);
      WriteRun(AfterRun(m, c.bank, a, k), c, done, ReadRun(g, m, c.bank, a, k), k) == TransferFrom(g, m, c, done, k)
  {
    hide ReadA, AfterRead, WriteB, Port, RunLength, Source, IsWram, IsIcd2, WriteRun, TransferByte;
    if k == 0 {
      NoBytes(m, c, done);
    } else {
      ChunkIsBytes(g, m, c, done, k - 1);
      var a := Source(c, done);
      var t, bytes := AfterRun(m, c.bank, a, k - 1), ReadRun(g, m, c.bank, a, k - 1);
      var v, u := ReadA(g, t, c.bank, a + k - 1), AfterRead(t, c.bank, a + k - 1);
      ByteStep(g, t, c, done, bytes, a + k - 1, v, u, WriteRun(t, c, done, bytes, k - 1));
    }
  }

  lemma NoBytes(m: Machine, c: Channel, first: nat)
    requires m.Valid() && c.mode < 8
    ensures WriteRun(m, c, first, [], 0) == m
  {
  }

  /** A transfer is the transfer of its first part, then of the rest. */
  lemma {:induction false} TransferInTwo(g: Guest, m: Machine, c: Channel, i: nat, n: nat)
    requires m.Valid() && c.mode < 8
    ensures TransferFrom(g, Transfer(g, m, c, i), c, i, n) == Transfer(g, m, c, i + n)
  {
    hide TransferByte;
    if n > 0 {
      TransferInTwo(g, m, c, i, n - 1);
    }
  }

  lemma {:induction false} ChunkedFrom(g: Guest, m: Machine, c: Channel, done: nat)
    requires m.Valid() && c.Chunkable() && done <= c.count
    ensures Chunked(g, Transfer(g, m, c, done), c, done) == Transfer(g, m, c, c.count)
    decreases c.count - done
  {
    hide RunLength, Source, ReadRun, AfterRun, WriteRun, TransferFrom, Transfer;
    if done < c.count {
      var n := RunLength(c, done);
      ChunkIsBytes(g, Transfer(g, m, c, done), c, done, n);
      TransferInTwo(g, m, c, done, n);
      ChunkedFrom(g, m, c, done + n);
    }
  }

  lemma NoTransfer(g: Guest, m: Machine, c: Channel)
    requires m.Valid() && c.mode < 8
    ensures Transfer(g, m, c, 0) == m
  {
  }

  /** The chunked engine does to the machine what the byte-at-a-time engine does: the same port
      writes in the same order, the same work RAM, the same window reads. */
  lemma ChunkedIsBytewise(g: Guest, m: Machine, c: Channel)
    requires m.Valid() && c.Chunkable()
    ensures Chunked(g, m, c, 0) == Transfer(g, m, c, c.count)
  {
    hide Chunked;
    NoTransfer(g, m, c);
    ChunkedFrom(g, m, c, 0);
  }

  // ----- What a transfer is for

  /** Byte i comes from memory that no transfer writes. */
  predicate IsPlain(c: Channel, i: nat) {
    !IsIcd2(c.bank, Source(c, i)) && !IsWram(c.bank, Source(c, i))
  }

  /** The A-bus address of byte i. */
  function Target(c: Channel, i: nat): nat {
    c.bank * 0x1_0000 + Source(c, i)
  }

  /** The memory byte that byte i of a transfer from it is. */
  function SourceByte(g: Guest, m: Machine, c: Channel, i: nat): Byte {
    g.memory(m.stored, Target(c, i))
  }

  lemma PlainByte(g: Guest, m: Machine, c: Channel, i: nat)
    requires m.Valid() && !c.toA && c.mode < 8 && IsPlain(c, i)
    ensures TransferByte(g, m, c, i) == WriteB(m, Port(c, i), SourceByte(g, m, c, i))
  {
    hide IsIcd2, IsWram, Source, Port, WriteB;
  }

  /** The port of byte i by arithmetic: one port, two in turn, two twice each, or four in turn. */
  function PortOf(bbad: Byte, mode: nat, i: nat): nat {
    var offset :=
      match mode
      case 1 => i % 2
      case 5 => i % 2
      case 3 => i / 2 % 2
      case 7 => i / 2 % 2
      case 4 => i % 4
      case _ => 0;
    (bbad + offset) % 0x100
  }

  lemma PortByMode(c: Channel, i: nat)
    requires c.mode < 8
    ensures Port(c, i) == PortOf(c.bbad, c.mode, i)
  {
  }

  function AddressOf(c: Channel, i: nat): nat {
    c.bank * 0x1_0000 + (c.start + c.step * i) % 0x1_0000
  }

  lemma SourceByStep(c: Channel, i: nat)
    requires c.Valid()
    ensures Source(c, i) == (c.start + c.step * i) % 0x1_0000
  {
  }

  lemma AddressByStep(c: Channel, i: nat)
    requires c.Valid()
    ensures Target(c, i) == AddressOf(c, i)
  {
    SourceByStep(c, i);
  }

  /** What the seven registers say: DMAP is the direction in bit 7, the step in bits 4 and 3, 0 for up and 2 for
      down, and the mode in bits 2 to 0; then the B-bus port, the A-bus address, its bank, and the count. */
  lemma RegistersSay(r: Registers, toA: bool, unused: nat, stepping: nat, mode: nat)
    requires unused < 4 && stepping < 4 && mode < 8
    requires r[0] == (if toA then 0x80 else 0) + 0x20 * unused + 8 * stepping + mode
    ensures var c := ChannelOf(r);
      && c.toA == toA && c.mode == mode && c.bbad == r[1] && c.bank == r[4]
      && c.step == (if stepping == 0 then 1 else if stepping == 2 then -1 else 0)
      && c.start == r[2] + 0x100 * (r[3] as int)
      && c.count == if r[5] == 0 && r[6] == 0 then 0x1_0000 else r[5] + 0x100 * (r[6] as int)
  {
    assert r[0] / 8 == (if toA then 16 else 0) + 4 * unused + stepping;
    assert r[0] / 8 % 4 == stepping;
    assert r[0] % 8 == mode;
  }

  /** The address map: work RAM is banks 0x7E and 0x7F, and the first 8 KiB of banks 0x00 to 0x3F and 0x80 to
      0xBF; the ICD2 window is 0x6000 to 0x7FFF of those banks. */
  lemma AddressMap(bank: Byte, addr: Word16)
    ensures IsWram(bank, addr) <==> 0x7E <= bank <= 0x7F || (bank % 0x80 < 0x40 && addr <= 0x1FFF)
    ensures IsIcd2(bank, addr) <==> bank % 0x80 < 0x40 && 0x6000 <= addr <= 0x7FFF
    ensures IsWram(bank, addr) ==> WramOffset(bank, addr) == if bank == 0x7F then 0x1_0000 + addr else addr
  {
  }

  /** WMADD has 17 bits, written through three ports of which each leaves the others' bits alone. */
  lemma WmaddPorts(m: Machine, low: Byte, middle: Byte, high: Byte, v: Byte)
    requires m.Valid() && high < 2 && m.wmadd == low + 0x100 * (middle as int) + 0x1_0000 * (high as int)
    ensures WriteB(m, 0x81, v) == m.(wmadd := v + 0x100 * (middle as int) + 0x1_0000 * (high as int))
    ensures WriteB(m, 0x82, v) == m.(wmadd := low + 0x100 * (v as int) + 0x1_0000 * (high as int))
    ensures WriteB(m, 0x83, v) == m.(wmadd := low + 0x100 * (middle as int) + 0x1_0000 * (v % 2))
  {
    assert m.wmadd / 0x100 == middle + 0x100 * (high as int);
    assert m.wmadd / 0x1_0000 == high && m.wmadd % 0x100 == low;
    assert m.wmadd % 0x1_0000 == low + 0x100 * (middle as int);
  }

  /** One byte between work RAM, the ICD2 window or other memory and a port of the PPU; between work RAM and
      its own ports nothing is transferred, in either direction. */
  lemma TransferredByte(g: Guest, m: Machine, c: Channel, i: nat)
    requires m.Valid() && c.Valid()
    ensures var port, addr: Word16 := PortOf(c.bbad, c.mode, i), (c.start + c.step * i) % 0x1_0000;
      var toPpu, v := !(0x80 <= port <= 0x83), g.port(m.ppu, port);
      && (!toPpu && IsWram(c.bank, addr) ==> TransferByte(g, m, c, i) == m)
      && (toPpu && !c.toA ==>
            TransferByte(g, m, c, i) ==
            if IsIcd2(c.bank, addr) then
              m.(icd2 := m.icd2 + [addr - 0x6000], ppu := m.ppu + [Sent(port, g.icd2(m.icd2, addr - 0x6000))])
            else if IsWram(c.bank, addr) then
              m.(ppu := m.ppu + [Sent(port, m.wram[WramOffset(c.bank, addr)])])
            else m.(ppu := m.ppu + [Sent(port, g.memory(m.stored, c.bank * 0x1_0000 + addr))]))
      && (toPpu && c.toA ==>
            TransferByte(g, m, c, i) ==
            if IsWram(c.bank, addr) then
              m.(ppu := m.ppu + [Asked(port)], wram := m.wram[WramOffset(c.bank, addr) := v])
            else m.(ppu := m.ppu + [Asked(port)], stored := m.stored + [(c.bank * 0x1_0000 + addr, v)]))
  {
    PortByMode(c, i);
    AddressByStep(c, i);
    hide Port, PortOf, Source, IsWram;
    assert Source(c, i) == (c.start + c.step * i) % 0x1_0000;
  }

  /** An upload to PPU ports puts the source bytes, in order, on the ports of the mode. */
  lemma PpuUpload(g: Guest, m: Machine, c: Channel, n: nat)
    requires m.Valid() && c.Valid() && !c.toA
    requires forall i: nat :: i < n ==> !(0x80 <= PortOf(c.bbad, c.mode, i) <= 0x83)
    requires forall i: nat :: i < n ==> IsPlain(c, i)
    ensures Transfer(g, m, c, n)
         == m.(ppu := m.ppu + seq(n, i requires 0 <= i < n =>
                 Sent(PortOf(c.bbad, c.mode, i), g.memory(m.stored, AddressOf(c, i)))))
  {
    hide PortOf, AddressOf, Port, IsPlain, Source, Transfer;
    forall i: nat ensures Port(c, i) == PortOf(c.bbad, c.mode, i) && Target(c, i) == AddressOf(c, i) {
      PortByMode(c, i);
      AddressByStep(c, i);
    }
    UploadToPorts(g, m, c, n);
  }

  lemma {:induction false} UploadToPorts(g: Guest, m: Machine, c: Channel, n: nat)
    requires m.Valid() && !c.toA && c.mode < 8
    requires forall i: nat :: i < n ==> !(0x80 <= Port(c, i) <= 0x83)
    requires forall i: nat :: i < n ==> IsPlain(c, i)
    ensures Transfer(g, m, c, n)
         == m.(ppu := m.ppu + seq(n, i requires 0 <= i < n => Sent(Port(c, i), SourceByte(g, m, c, i))))
  {
    hide Port, IsPlain, Source, TransferByte;
    if n > 0 {
      UploadToPorts(g, m, c, n - 1);
      PlainByte(g, Transfer(g, m, c, n - 1), c, n - 1);
    }
  }

  /** What an upload of n bytes through WMDATA leaves at work RAM address x: it fills from WMADD on,
      and around the end. */
  function Uploaded(g: Guest, m: Machine, c: Channel, n: nat, x: nat): Byte
    requires m.Valid() && x < 0x2_0000
  {
    var i := (x - m.wmadd) % 0x2_0000;
    if i < n then SourceByte(g, m, c, i) else m.wram[x]
  }

  lemma Around(x: nat, w: nat, k: nat)
    requires x < 0x2_0000 && w < 0x2_0000 && k < 0x2_0000
    ensures x == (w + k) % 0x2_0000 <==> (x - w) % 0x2_0000 == k
  {
  }

  lemma UploadedStep(g: Guest, m: Machine, c: Channel, n: nat, x: nat)
    requires m.Valid() && x < 0x2_0000 && n < 0x2_0000
    ensures Uploaded(g, m, c, n + 1, x)
         == if x == (m.wmadd + n) % 0x2_0000 then SourceByte(g, m, c, n)
           else Uploaded(g, m, c, n, x)
  {
    hide Source;
    Around(x, m.wmadd, n);
  }

  /** The machine m after n bytes through WMDATA: WMADD is behind the last of them. */
  ghost predicate IsUploaded(g: Guest, m: Machine, c: Channel, n: nat, r: Machine): (b: bool)
    requires m.Valid()
    ensures b ==> r.stored == m.stored
  {
    && r.Valid() && r == m.(wram := r.wram, wmadd := (m.wmadd + n) % 0x2_0000)
    && forall x: nat :: x < 0x2_0000 ==> r.wram[x] == Uploaded(g, m, c, n, x)
  }

  function Pushed(m: Machine, v: Byte): Machine
    requires m.Valid()
  {
    m.(wram := m.wram[m.wmadd := v], wmadd := (m.wmadd + 1) % 0x2_0000)
  }

  lemma IsUploadedStep(g: Guest, m: Machine, c: Channel, n: nat, r: Machine)
    requires m.Valid() && n < 0x2_0000 && IsUploaded(g, m, c, n, r)
    ensures IsUploaded(g, m, c, n + 1, Pushed(r, SourceByte(g, m, c, n)))
  {
    hide Source, Uploaded;
    Advance(m.wmadd, n);
    forall x: nat {:trigger Uploaded(g, m, c, n + 1, x)} | x < 0x2_0000
      ensures Pushed(r, SourceByte(g, m, c, n)).wram[x] == Uploaded(g, m, c, n + 1, x)
    {
      UploadedStep(g, m, c, n, x);
    }
  }

  lemma WmdataByte(g: Guest, m: Machine, c: Channel, n: nat, t: Machine, r: Machine)
    requires m.Valid() && !c.toA && c.mode == 0 && c.bbad == 0x80 && n < 0x2_0000 && IsPlain(c, n)
    requires IsUploaded(g, m, c, n, t) && t.Valid() && r == TransferByte(g, t, c, n)
    ensures IsUploaded(g, m, c, n + 1, r)
  {
    hide IsPlain, Source, Port, TransferByte, IsUploaded;
    PlainByte(g, t, c, n);
    PortOfMode0(c, n);
    IsUploadedStep(g, m, c, n, t);
  }

  /** An upload through WMDATA fills work RAM from WMADD on, around its end, and changes nothing else. */
  lemma {:induction false} WramUpload(g: Guest, m: Machine, c: Channel, n: nat)
    requires m.Valid() && !c.toA && c.mode == 0 && c.bbad == 0x80 && n <= 0x1_0000
    requires forall i: nat :: i < n ==> IsPlain(c, i)
    ensures IsUploaded(g, m, c, n, Transfer(g, m, c, n))
  {
    if n > 0 {
      hide IsPlain, TransferByte, IsUploaded;
      WramUpload(g, m, c, n - 1);
      WmdataByte(g, m, c, n - 1, Transfer(g, m, c, n - 1), Transfer(g, m, c, n));
    }
  }

  lemma Advance(w: nat, k: nat)
    ensures ((w + k) % 0x2_0000 + 1) % 0x2_0000 == (w + (k + 1)) % 0x2_0000
  {
    assert w + (k + 1) == 0x2_0000 * ((w + k) / 0x2_0000) + ((w + k) % 0x2_0000 + 1);
  }

  lemma PortOfMode0(c: Channel, i: nat)
    requires c.mode == 0
    ensures Port(c, i) == c.bbad
  {
  }

  lemma SourceSteps(c: Channel, i: nat, n: nat)
    requires c.step == 1
    ensures Source(c, i + n) == (Source(c, i) + n) % 0x1_0000
  {
    var q := (c.start + i) / 0x1_0000;
    assert c.start + (i + n) == 0x1_0000 * q + (Source(c, i) + n);
  }

  lemma SourceStart(c: Channel)
    requires c.Valid()
    ensures Source(c, 0) == c.start
  {
  }

  lemma SourceSteps1(c: Channel, i: nat)
    requires c.Valid()
    ensures Source(c, i + 1) == (Source(c, i) + c.step) % 0x1_0000
  {
    if c.step == 1 {
      SourceSteps(c, i, 1);
    } else if c.step == -1 {
      var q := (c.start - i) / 0x1_0000;
      assert c.start - (i + 1) == 0x1_0000 * q + (Source(c, i) - 1);
    }
  }

  lemma AfterA1(r: Registers)
    ensures Word(After(r)[2], After(r)[3]) == Source(ChannelOf(r), ChannelOf(r).count)
  {
    var a := Source(ChannelOf(r), ChannelOf(r).count);
    assert a == a % 0x100 + 0x100 * (a / 0x100);
  }

  lemma AfterOthers(r: Registers)
    ensures After(r)[0] == r[0] && After(r)[1] == r[1] && After(r)[4] == r[4] && After(r)[5] == 0 && After(r)[6] == 0
  {
    hide ChannelOf, Source;
  }

  /** A transfer leaves A1T stepped once for each byte, modulo 64 KiB, DAS at zero, and the other registers as
      they were. */
  lemma AfterIsStepped(r: Registers)
    ensures var c := ChannelOf(r); Word(After(r)[2], After(r)[3]) == (c.start + c.step * c.count) % 0x1_0000
    ensures Word(After(r)[5], After(r)[6]) == 0
    ensures After(r)[0] == r[0] && After(r)[1] == r[1] && After(r)[4] == r[4]
  {
    hide ChannelOf, Source, After;
    AfterA1(r);
    AfterOthers(r);
    SourceByStep(ChannelOf(r), ChannelOf(r).count);
  }

  // ----- From the B bus

  /** Reading work RAM back through WMDATA stores it in order, from WMADD on and around its end, where
      the target is not work RAM itself; there nothing is transferred. */
  lemma {:induction false} WramDownload(g: Guest, m: Machine, c: Channel, n: nat)
    requires m.Valid() && c.toA && c.mode == 0 && c.bbad == 0x80
    ensures (forall i: nat :: i < n ==> !IsWram(c.bank, Source(c, i))) ==>
      Transfer(g, m, c, n)
        == m.(wmadd := (m.wmadd + n) % 0x2_0000,
              stored := m.stored + seq(n, i requires 0 <= i < n => (Target(c, i), m.wram[(m.wmadd + i) % 0x2_0000])))
    ensures (forall i: nat :: i < n ==> IsWram(c.bank, Source(c, i))) ==> Transfer(g, m, c, n) == m
  {
    hide Source, Port, IsWram, Target, TransferByte;
    if n > 0 {
      WramDownload(g, m, c, n - 1);
      Advance(m.wmadd, n - 1);
      DownloadByte(g, Transfer(g, m, c, n - 1), c, n - 1);
    }
  }

  lemma DownloadByte(g: Guest, m: Machine, c: Channel, i: nat)
    requires m.Valid() && c.toA && c.mode == 0 && c.bbad == 0x80
    ensures TransferByte(g, m, c, i)
         == if IsWram(c.bank, Source(c, i)) then m
            else m.(wmadd := (m.wmadd + 1) % 0x2_0000, stored := m.stored + [(Target(c, i), m.wram[m.wmadd])])
  {
    hide Source, IsWram;
    PortOfMode0(c, i);
  }

  /** Bytes uploaded through WMDATA and read back from the same WMADD are the source bytes, in order. */
  lemma UploadComesBack(g: Guest, m: Machine, up: Channel, down: Channel, n: nat)
    requires m.Valid() && n <= 0x1_0000
    requires !up.toA && up.mode == 0 && up.bbad == 0x80 && forall i: nat :: i < n ==> IsPlain(up, i)
    requires down.toA && down.mode == 0 && down.bbad == 0x80
    requires forall i: nat :: i < n ==> !IsWram(down.bank, Source(down, i))
    ensures Transfer(g, Transfer(g, m, up, n).(wmadd := m.wmadd), down, n).stored
         == m.stored + seq(n, i requires 0 <= i < n => (Target(down, i), SourceByte(g, m, up, i)))
  {
    hide Source, IsWram, IsPlain, Transfer, Target, SourceByte;
    WramUpload(g, m, up, n);
    var t := Transfer(g, m, up, n).(wmadd := m.wmadd);
    WramDownload(g, t, down, n);
    assert t.stored == m.stored;
    forall i: nat | i < n ensures t.wram[(m.wmadd + i) % 0x2_0000] == SourceByte(g, m, up, i) {
      Around((m.wmadd + i) % 0x2_0000, m.wmadd, i);
    }
  }

  // ----- The engine

  /** PPU writes still held back do not matter to a read. */
  lemma {:induction false} ReadRunIgnoresPpu(g: Guest, m: Machine, p: seq<Access>, bank: Byte, addr: Word16,
      n: nat)
    requires m.Valid() && addr + n <= 0x1_0000
    ensures ReadRun(g, m.(ppu := p), bank, addr, n) == ReadRun(g, m, bank, addr, n)
    ensures AfterRun(m.(ppu := p), bank, addr, n) == AfterRun(m, bank, addr, n).(ppu := p)
  {
    hide IsIcd2, IsWram;
    if n > 0 {
      ReadRunIgnoresPpu(g, m, p, bank, addr, n - 1);
    }
  }

  lemma ChunkedEnd(g: Guest, m: Machine, c: Channel)
    requires m.Valid() && c.Chunkable()
    ensures Chunked(g, m, c, c.count) == m
  {
  }

  lemma ChunkedStep(g: Guest, m: Machine, c: Channel, done: nat, held: seq<Access>)
    requires m.Valid() && c.Chunkable() && done < c.count
    ensures var n, a := RunLength(c, done), Source(c, done);
      var bytes, t := ReadRun(g, m, c.bank, a, n), AfterRun(m, c.bank, a, n);
      Chunked(g, m.(ppu := m.ppu + held), c, done)
        == Chunked(g, WriteRun(t.(ppu := t.ppu + held), c, done, bytes, n), c, done + n)
  {
    hide ReadRun, AfterRun, WriteRun, RunLength, Source;
    ReadRunIgnoresPpu(g, m, m.ppu + held, c.bank, Source(c, done), RunLength(c, done));
  }

  /** The coprocessor's share of a transfer: the channel registers, WMADD, and the memories and
      devices its plugins hold. `ppu` is everything the PPU plugin has been sent. */
  class Engine {
    const guest: Guest
    var regs: seq<Registers>
    var wram: seq<Byte>
    var wmadd: nat
    var ppu: seq<Access>
    var icd2: seq<nat>
    var stored: seq<(nat, Byte)>

    function State(): Machine
      reads this
    {
      Machine(wram, wmadd, ppu, icd2, stored)
    }

    ghost predicate Valid()
      reads this
    {
      |regs| == 8 && State().Valid()
    }

    constructor (guest: Guest, regs: seq<Registers>, m: Machine)
      requires |regs| == 8 && m.Valid()
      ensures Valid() && State() == m && this.regs == regs && this.guest == guest
    {
      this.guest := guest;
      this.regs := regs;
      wram, wmadd, ppu, icd2, stored := m.wram, m.wmadd, m.ppu, m.icd2, m.stored;
    }

    method ReadRam(bank: Byte, addr: Word16, n: nat) returns (bytes: seq<Byte>)
      requires Valid() && addr + n <= 0x1_0000
      modifies this`icd2
      ensures Valid() && bytes == ReadRun(guest, old(State()), bank, addr, n)
      ensures State() == AfterRun(old(State()), bank, addr, n)
    {
      hide ReadA, AfterRead;
      bytes := [];
      for i := 0 to n
        invariant Valid() && bytes == ReadRun(guest, old(State()), bank, addr, i)
        invariant State() == AfterRun(old(State()), bank, addr, i)
      {
        var v := ReadABus(bank, addr + i);
        bytes := bytes + [v];
      }
    }

    method ReadABus(bank: Byte, addr: Word16) returns (v: Byte)
      requires Valid()
      modifies this`icd2
      ensures Valid() && v == ReadA(guest, old(State()), bank, addr) && State() == AfterRead(old(State()), bank, addr)
    {
      if IsIcd2(bank, addr) {
        v := guest.icd2(icd2, addr % 0x2000);
        icd2 := icd2 + [addr % 0x2000];
      } else if IsWram(bank, addr) {
        v := wram[WramOffset(bank, addr)];
      } else {
        v := guest.memory(stored, bank * 0x1_0000 + addr);
      }
    }

    method BBusWrite(port: Byte, v: Byte)
      requires Valid()
      modifies this`wram, this`wmadd, this`ppu
      ensures Valid() && State() == WriteB(old(State()), port, v)
    {
      if port == 0x80 {
        wram := wram[wmadd := v];
        wmadd := (wmadd + 1) % 0x2_0000;
      } else if port == 0x81 {
        wmadd := wmadd / 0x100 * 0x100 + v;
      } else if port == 0x82 {
        wmadd := wmadd / 0x1_0000 * 0x1_0000 + v * 0x100 + wmadd % 0x100;
      } else if port == 0x83 {
        wmadd := v % 2 * 0x1_0000 + wmadd % 0x1_0000;
      } else {
        ppu := ppu + [Sent(port, v)];
      }
    }

    method BBusRead(port: Byte) returns (v: Byte)
      requires Valid()
      modifies this`wmadd, this`ppu
      ensures Valid() && v == ReadB(guest, old(State()), port) && State() == AfterReadB(old(State()), port)
    {
      if port == 0x80 {
        v := wram[wmadd];
        wmadd := (wmadd + 1) % 0x2_0000;
      } else {
        v := guest.port(ppu, port);
        ppu := ppu + [Asked(port)];
      }
    }

    method WriteRam(bank: Byte, addr: Word16, v: Byte)
      requires Valid()
      modifies this`wram, this`stored
      ensures Valid() && State() == WriteA(old(State()), bank, addr, v)
    {
      if IsWram(bank, addr) {
        wram := wram[WramOffset(bank, addr) := v];
      } else {
        stored := stored + [(bank * 0x1_0000 + addr, v)];
      }
    }

    /** Sends a batch of PPU writes. */
    method FlushPpuRun(run: seq<Access>)
      requires Valid()
      modifies this`ppu
      ensures Valid() && State() == old(State()).(ppu := old(ppu) + run)
    {
      ppu := ppu + run;
    }

    /** The machine once the batch still held back is sent. */
    function Settled(run: seq<Access>): Machine
      reads this
    {
      State().(ppu := ppu + run)
    }

    /** The writes of one chunk: PPU ports 0x01 to 0x3F are held back in `run`, and any other port
        first sends what is held back. */
    method WriteChunk(c: Channel, done: nat, bytes: seq<Byte>, held: seq<Access>) returns (run: seq<Access>)
      requires Valid() && c.Valid()
      modifies this`wram, this`wmadd, this`ppu
      ensures Valid() && Settled(run) == WriteRun(old(Settled(held)), c, done, bytes, |bytes|)
    {
      hide Clashes, Port;
      run := held;
      for i := 0 to |bytes|
        invariant Valid() && Settled(run) == WriteRun(old(Settled(held)), c, done, bytes, i)
      {
        var port := Port(c, done + i);
        if !Clashes(c, done + i) {
          if 0x01 <= port <= 0x3F {
            run := run + [Sent(port, bytes[i])];
          } else {
            FlushPpuRun(run);
            run := [];
            BBusWrite(port, bytes[i]);
          }
        }
      }
    }

    method ChunkedTransfer(c: Channel) returns (addr: Word16)
      requires Valid() && c.Chunkable()
      modifies this`wram, this`wmadd, this`ppu, this`icd2
      ensures Valid() && State() == Chunked(guest, old(State()), c, 0)
      ensures addr == Source(c, c.count)
    {
      hide ReadRun, AfterRun, WriteRun, RunLength, Chunked, Source;
      var done, run := 0, [];
      addr := c.start;
      SourceStart(c);
      assert Settled([]) == State();
      while done < c.count
        invariant Valid() && done <= c.count && addr == Source(c, done)
        invariant Chunked(guest, Settled(run), c, done) == Chunked(guest, old(State()), c, 0)
        decreases c.count - done
      {
        ChunkedStep(guest, State(), c, done, run);
        var n := RunLength(c, done);
        var bytes := ReadRam(c.bank, addr, n);
        run := WriteChunk(c, done, bytes, run);
        SourceSteps(c, done, n);
        addr := (addr + n) % 0x1_0000;
        done := done + n;
      }
      ChunkedEnd(guest, Settled(run), c);
      FlushPpuRun(run);
    }

    method BytewiseTransfer(c: Channel) returns (addr: Word16)
      requires Valid() && c.Valid()
      modifies this`wram, this`wmadd, this`ppu, this`icd2, this`stored
      ensures Valid() && State() == Transfer(guest, old(State()), c, c.count)
      ensures addr == Source(c, c.count)
    {
      hide ReadA, AfterRead, WriteB, ReadB, AfterReadB, WriteA, Port, Source, Clashes;
      addr := c.start;
      SourceStart(c);
      for i := 0 to c.count
        invariant Valid() && addr == Source(c, i)
        invariant State() == Transfer(guest, old(State()), c, i)
      {
        if !Clashes(c, i) {
          if c.toA {
            var v := BBusRead(Port(c, i));
            WriteRam(c.bank, addr, v);
          } else {
            var v := ReadABus(c.bank, addr);
            BBusWrite(Port(c, i), v);
          }
        }
        SourceSteps1(c, i);
        addr := (addr + c.step) % 0x1_0000;
      }
    }

    /** A channel's whole transfer: whichever path runs it, byte by byte in effect. */
    method DmaChannel(ch: nat)
      requires Valid() && ch < 8
      modifies this
      ensures Valid() && regs == old(regs)[ch := After(old(regs[ch]))]
      ensures var c := ChannelOf(old(regs[ch])); State() == Transfer(guest, old(State()), c, c.count)
    {
      hide Transfer, Chunked, Source;
      var c := ChannelOf(regs[ch]);
      var addr;
      if !c.toA && c.step == 1 {
        addr := ChunkedTransfer(c);
        ChunkedIsBytewise(guest, old(State()), c);
      } else {
        addr := BytewiseTransfer(c);
      }
      assert old(regs[ch])[2 := addr % 0x100][3 := addr / 0x100][5 := 0][6 := 0] == After(old(regs[ch]));
      regs := regs[ch := regs[ch][2 := addr % 0x100][3 := addr / 0x100][5 := 0][6 := 0]];
    }
  }
}
