/** The byte tables of `Utf8` against the definition of UTF-8: a scalar value and its one to four bytes. */
module Utf8Table {
  import opened Words
  import opened Utf8

  /** Code points but for the surrogates. */
  predicate IsScalar(c: nat) {
    c < 0xD800 || 0xE000 <= c < 0x11_0000
  }

  function Encode(c: nat): seq<Byte>
    requires IsScalar(c)
  {
    if c < 0x80 then [c]
    else if c < 0x800 then [0xC0 + c / 0x40, 0x80 + c % 0x40]
    else if c < 0x1_0000 then [0xE0 + c / 0x1000, 0x80 + c / 0x40 % 0x40, 0x80 + c % 0x40]
    else [0xF0 + c / 0x4_0000, 0x80 + c / 0x1000 % 0x40, 0x80 + c / 0x40 % 0x40, 0x80 + c % 0x40]
  }

  lemma Replacement()
    ensures REPLACEMENT == Encode(0xFFFD)
  {
  }

  /** The encoding of a scalar value is one character. */
  lemma EncodedIsChar(c: nat)
    requires IsScalar(c)
    ensures BeginsWithChar(Encode(c)) && Width(Encode(c)[0]) == |Encode(c)|
  {
  }

  /** The six bits of a byte behind the first. */
  function Low(x: int): int {
    x - 0x80
  }

  /** The number a character's bytes stand for. */
  function Value(b: seq<Byte>): int
    requires BeginsWithChar(b)
  {
    var lead: int := b[0];
    match Width(b[0])
    case 1 => lead
    case 2 => (lead - 0xC0) * 0x40 + Low(b[1])
    case 3 => (lead - 0xE0) * 0x1000 + Low(b[1]) * 0x40 + Low(b[2])
    case _ => (lead - 0xF0) * 0x4_0000 + Low(b[1]) * 0x1000 + Low(b[2]) * 0x40 + Low(b[3])
  }

  lemma Digits(w: int, x: int, y: int, z: int)
    requires 0 <= x < 0x40 && 0 <= y < 0x40 && 0 <= z < 0x40
    ensures var c := w * 0x4_0000 + x * 0x1000 + y * 0x40 + z;
      c / 0x4_0000 == w && c / 0x1000 == 0x40 * w + x && c / 0x1000 % 0x40 == x && c / 0x40 % 0x40 == y && c % 0x40 == z
  {
    var c := w * 0x4_0000 + x * 0x1000 + y * 0x40 + z;
    assert c == 0x40 * (w * 0x1000 + x * 0x40 + y) + z;
    assert c / 0x40 == 0x40 * (w * 0x40 + x) + y;
    assert c / 0x1000 == 0x40 * w + x;
  }

  /** Each character is the encoding of a scalar value. */
  lemma CharIsEncoded(b: seq<Byte>)
    requires BeginsWithChar(b)
    ensures Value(b) >= 0 && IsScalar(Value(b)) && Encode(Value(b)) == b[..Width(b[0])]
  {
    var w := Width(b[0]);
    if w == 2 {
      Digits(0, 0, b[0] - 0xC0, Low(b[1]));
    } else if w == 3 {
      Digits(0, b[0] - 0xE0, Low(b[1]), Low(b[2]));
    } else if w == 4 {
      Digits(b[0] - 0xF0, Low(b[1]), Low(b[2]), Low(b[3]));
    }
  }

  // ----- How much of a character there is

  /** The bytes of b that begin some character's encoding. */
  ghost predicate Begins(b: seq<Byte>, k: nat, c: nat) {
    IsScalar(c) && k <= |b| && k <= |Encode(c)| && Encode(c)[..k] == b[..k]
  }

  /** What is matched is the longest beginning of any character: the stretch that one U+FFFD stands for. */
  lemma MatchedIsLongest(b: seq<Byte>, k: nat, c: nat)
    requires b != [] && Begins(b, k, c)
    ensures k <= Matched(b)
  {
    EncodedIsChar(c);
    if k > 0 {
      assert b[0] == Encode(c)[0];
      assert forall i :: 0 <= i < k ==> b[i] == Encode(c)[i];
    }
  }

  /** A scalar value whose encoding goes on from the matched bytes. */
  function Continued(b: seq<Byte>): seq<Byte>
    requires b != []
  {
    var n, w := Matched(b), Width(b[0]);
    if n == w then b[..n]
    else if n == 1 then
      [b[0], if b[0] == 0xE0 then 0xA0 else if b[0] == 0xF0 then 0x90 else 0x80] + seq(w - 2, _ => 0x80)
    else b[..n] + seq(w - n, _ => 0x80)
  }

  lemma MatchedIsReached(b: seq<Byte>)
    requires b != [] && Matched(b) > 0
    ensures exists c: nat :: Begins(b, Matched(b), c)
  {
    var t := Continued(b);
    ContinuedIsChar(b);
    CharIsEncoded(t);
    assert Begins(b, Matched(b), Value(t));
  }

  lemma ContinuedIsChar(b: seq<Byte>)
    requires b != [] && Matched(b) > 0
    ensures var t := Continued(b);
      BeginsWithChar(t) && |t| == Width(t[0]) && Matched(b) <= |t| && t[..Matched(b)] == b[..Matched(b)]
  {
  }
}
