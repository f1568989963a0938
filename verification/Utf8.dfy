/** Names as UTF-8 text, and the lossy decoding of bytes that need not be any: `String::from_utf8_lossy`,
    on the well-formed sequences of table 3-7 of the Unicode standard. */
module Utf8 {
  import opened Words

  /** U+FFFD. */
  const REPLACEMENT: seq<Byte> := [0xEF, 0xBF, 0xBD]

  /** Bytes of the character a lead byte begins; none if it begins no character. */
  function Width(lead: Byte): nat {
    if lead < 0x80 then 1
    else if lead < 0xC2 then 0
    else if lead < 0xE0 then 2
    else if lead < 0xF0 then 3
    else if lead < 0xF5 then 4
    else 0
  }

  predicate Trail(x: Byte) {
    0x80 <= x <= 0xBF
  }

  /** Which bytes may follow a lead byte: no overlong forms, surrogates or code points past U+10FFFF. */
  predicate Second(lead: Byte, x: Byte) {
    match lead
    case 0xE0 => 0xA0 <= x <= 0xBF
    case 0xED => 0x80 <= x <= 0x9F
    case 0xF0 => 0x90 <= x <= 0xBF
    case 0xF4 => 0x80 <= x <= 0x8F
    case _ => Trail(x)
  }

  /** How many bytes of its first character a nonempty string has. */
  function Matched(b: seq<Byte>): (n: nat)
    requires b != []
    ensures n <= |b| && n <= Width(b[0]) && (n == 0 <==> Width(b[0]) == 0)
  {
    var w := Width(b[0]);
    if w <= 1 then w
    else if |b| < 2 || !Second(b[0], b[1]) then 1
    else if w == 2 || |b| < 3 || !Trail(b[2]) then 2
    else if w == 3 || |b| < 4 || !Trail(b[3]) then 3
    else 4
  }

  predicate BeginsWithChar(b: seq<Byte>) {
    b != [] && Matched(b) == Width(b[0]) > 0
  }

  predicate IsText(b: seq<Byte>) {
    b == [] || (BeginsWithChar(b) && IsText(b[Width(b[0])..]))
  }

  /** Each stretch of bytes that begins a character but does not finish it becomes U+FFFD, and so does
      each byte that begins none. */
  function Lossy(b: seq<Byte>): seq<Byte> {
    if b == [] then []
    else if BeginsWithChar(b) then b[..Width(b[0])] + Lossy(b[Width(b[0])..])
    else REPLACEMENT + Lossy(b[Max(Matched(b), 1)..])
  }

  // ----- Text and only text decodes to itself

  lemma {:induction false} TextStays(b: seq<Byte>)
    requires IsText(b)
    ensures Lossy(b) == b
  {
    if b != [] {
      TextStays(b[Width(b[0])..]);
    }
  }

  lemma CharInFront(c: seq<Byte>, rest: seq<Byte>)
    requires BeginsWithChar(c) && |c| == Width(c[0]) && IsText(rest)
    ensures IsText(c + rest)
  {
    var b := c + rest;
    assert b[0] == c[0] && b[|c|..] == rest;
    assert |c| > 1 ==> b[1] == c[1];
    assert |c| > 2 ==> b[2] == c[2];
    assert |c| > 3 ==> b[3] == c[3];
  }

  lemma {:induction false} LossyIsText(b: seq<Byte>)
    ensures IsText(Lossy(b))
    ensures 0 !in b ==> 0 !in Lossy(b)
  {
    hide IsText;
    if b == [] {
      NoText();
    } else if BeginsWithChar(b) {
      var w := Width(b[0]);
      LossyIsText(b[w..]);
      CharInFront(b[..w], Lossy(b[w..]));
    } else {
      LossyIsText(b[Max(Matched(b), 1)..]);
      CharInFront(REPLACEMENT, Lossy(b[Max(Matched(b), 1)..]));
    }
  }

  lemma NoText()
    ensures IsText([])
  {
  }

  lemma {:induction false} AsciiIsText(b: seq<Byte>)
    requires forall i :: 0 <= i < |b| ==> b[i] < 0x80
    ensures IsText(b)
  {
    if b != [] {
      AsciiIsText(b[1..]);
    }
  }

  // ----- Text that is cut

  /** The cut falls inside a last character that is U+FFFD already. */
  predicate EndsInReplacement(b: seq<Byte>, width: nat) {
    3 <= |b| && width < |b| < width + 3 && b[|b| - 3..] == REPLACEMENT
  }

  /** Text cut short decodes to the whole of it only where the cut leaves a piece of a last U+FFFD. */
  lemma {:induction false} CutText(b: seq<Byte>, width: nat)
    requires IsText(b) && width < |b|
    ensures Lossy(b[..width]) == b <==> EndsInReplacement(b, width)
    decreases |b|
  {
    hide Lossy, Matched, Width, EndsInReplacement;
    var w := Width(b[0]);
    if w <= width {
      assert b == b[..w] + b[w..];
      CutText(b[w..], width - w);
      CutBehindChar(b, width);
      CharThenReplacement(b, w, width);
    } else {
      CutInChar(b, width);
    }
  }

  lemma CutBehindChar(b: seq<Byte>, width: nat)
    requires BeginsWithChar(b) && Width(b[0]) <= width < |b|
    ensures Lossy(b[..width]) == b[..Width(b[0])] + Lossy(b[Width(b[0])..][..width - Width(b[0])])
  {
    var w, cut := Width(b[0]), b[..width];
    assert cut[..w] == b[..w] && cut[w..] == b[w..][..width - w];
  }

  lemma CharThenReplacement(b: seq<Byte>, w: nat, width: nat)
    requires BeginsWithChar(b) && w == Width(b[0]) <= width < |b|
    ensures EndsInReplacement(b, width) <==> EndsInReplacement(b[w..], width - w)
  {
    var rest := b[w..];
    if |rest| >= 3 {
      assert rest[|rest| - 3..] == b[|b| - 3..];
    } else if |b| >= 3 && b[|b| - 3..] == REPLACEMENT {
      assert false;
    }
  }

  lemma CutInChar(b: seq<Byte>, width: nat)
    requires BeginsWithChar(b) && width < |b| && width < Width(b[0])
    ensures Lossy(b[..width]) == b <==> EndsInReplacement(b, width)
  {
    var cut := b[..width];
    if width > 0 {
      assert Matched(cut) == width;
      assert Lossy(cut) == REPLACEMENT + Lossy(cut[width..]) == REPLACEMENT;
      if |b| >= 3 && b[|b| - 3..] == REPLACEMENT {
        assert b[|b| - 3] == REPLACEMENT[0] == 0xEF;
      }
    }
  }
}
