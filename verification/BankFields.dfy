/** When a bank can be exported, and what its samples and instruments are called, by the bytes of the bank. */
module BankFields {
  import opened Words
  import opened Riff
  import opened Sf2
  import opened BankExport
  import Brr
  import Sf2Lookup

  /** A bank can be exported if and only if it has instruments, its table of six-byte entries lies in memory, and
      each entry's sample number has a four-byte directory entry in memory whose first word is where a chain
      begins. */
  lemma WhenExportable(bank: Bank)
    requires bank.Valid()
    ensures bank.Exportable() <==>
      && bank.nInstr > 0 && bank.instrBase + 6 * bank.nInstr <= 0x1_0000
      && forall i :: 0 <= i < bank.nInstr ==> HasChain(bank, SampleNumber(bank, i))
  {
    hide HasChain, Bank.Decodable;
    if bank.TableFits() {
      forall i: nat | i < bank.nInstr
        ensures bank.Decodable(bank.Srcn(i)) <==> HasChain(bank, SampleNumber(bank, i))
      {
        DecodableByBytes(bank, bank.Srcn(i));
        assert bank.Srcn(i) == SampleNumber(bank, i);
      }
    }
  }

  /** The word at an address, low byte first. */
  function WordAt(ram: Bytes, e: nat): nat
    requires e + 2 <= |ram|
  {
    ram[e] + 0x100 * (ram[e + 1] as int)
  }

  ghost predicate HasChain(bank: Bank, srcn: Byte)
    requires bank.Valid()
  {
    && srcn < bank.nDir && bank.dirBase + 4 * (srcn as int) + 4 <= 0x1_0000
    && ChainAt(bank.ram, WordAt(bank.ram, bank.dirBase + 4 * (srcn as int)))
  }

  ghost predicate ChainAt(ram: Bytes, start: nat) {
    exists n: nat :: Brr.IsChain(ram, start, n)
  }

  /** Byte 0 of an instrument's entry. */
  function SampleNumber(bank: Bank, i: nat): Byte
    requires bank.Valid() && bank.instrBase + 6 * i < 0x1_0000
  {
    bank.ram[bank.instrBase + 6 * i]
  }

  /** A directory entry holds a start address and, behind it, a loop address. */
  lemma EntryByBytes(bank: Bank, srcn: Byte)
    requires bank.Valid() && bank.EntryFits(srcn)
    ensures var e := bank.dirBase + 4 * (srcn as int);
      bank.Addresses(srcn) == (WordAt(bank.ram, e), WordAt(bank.ram, e + 2))
  {
  }

  lemma DecodableByBytes(bank: Bank, srcn: Byte)
    requires bank.Valid()
    ensures bank.Decodable(srcn) <==> HasChain(bank, srcn)
  {
    hide Brr.IsChain;
    if bank.EntryFits(srcn) {
      EntryByBytes(bank, srcn);
    }
  }

  /** An exported sample loops if its chain does and its loop address does not lie in front of it; then it loops
      from the first sample of the block that address is in, to its end. */
  lemma LoopPoint(srcn: Byte, d: Brr.Decoded, start: Word16, loop: Word16)
    requires 0 < |d.pcm| < 0x1_0000_0000
    ensures var s := SampleOf(srcn, d, (start, loop));
      && s.pcm == d.pcm && (s.loopEnd > 0 <==> d.loops && start <= loop)
      && (s.loopEnd > 0 ==>
            && s.loopEnd == |d.pcm| && s.loopStart % 16 == 0
            && 9 * (s.loopStart / 16) <= loop - start < 9 * (s.loopStart / 16) + 9)
      && (s.loopEnd == 0 ==> s.loopStart == 0)
  {
    hide Hex2;
    var b := (loop - start) / 9;
    assert b * 16 / 16 == b && b * 16 % 16 == 0;
  }

  // ----- Names

  /** The value of an upper-case hexadecimal digit. */
  function DigitValue(c: int): Option<nat> {
    if '0' as int <= c <= '9' as int then Some(c - '0' as int)
    else if 'A' as int <= c <= 'F' as int then Some(c - 'A' as int + 10)
    else None
  }

  ghost predicate IsHex(s: Bytes) {
    forall i :: 0 <= i < |s| ==> DigitValue(s[i]).Some?
  }

  function HexValue(s: Bytes): nat
    requires IsHex(s)
  {
    if s == [] then 0 else 16 * HexValue(s[..|s| - 1]) + DigitValue(s[|s| - 1]).value
  }

  lemma {:induction false} DigitsSay(n: nat)
    ensures IsHex(HexDigits(n)) && HexValue(HexDigits(n)) == n
    ensures n > 0 ==> HexDigits(n)[0] != '0' as int
    ensures n < 16 ==> |HexDigits(n)| == 1
  {
    if n < 16 {
      var s := [HexDigit(n)];
      assert s[..0] == [] && HexValue([]) == 0;
    } else {
      DigitsSay(n / 16);
      var front, last := HexDigits(n / 16), HexDigit(n % 16);
      assert (front + [last])[..|front|] == front;
    }
  }

  /** Samples and instruments are called by their numbers, in hexadecimal of two digits or as many as needed. */
  lemma Names(n: nat)
    ensures SRCN_ == Sf2Lookup.Ascii("srcn_") && INST_ == Sf2Lookup.Ascii("inst_")
    ensures IsHex(Hex2(n)) && HexValue(Hex2(n)) == n
    ensures |Hex2(n)| >= 2 && (|Hex2(n)| > 2 ==> Hex2(n)[0] != '0' as int)
  {
    DigitsSay(n);
    var d := HexDigits(n);
    if |d| < 2 {
      assert ([0x30] + d)[..1] == [0x30] && [0x30][..0] == [];
      assert HexValue([0x30]) == 0;
      assert d[..0] == [] && HexValue(d) == DigitValue(d[0]).value;
    }
  }
}
