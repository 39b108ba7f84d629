/** A 32-bit length as four bytes, least significant first. Bytes are bit vectors and lengths are
    numbers, so this is where the two meet. */
module LengthField {

  type Length = n: nat | n < 0x1_0000_0000

  /** Eight bits as a byte and as a number, least significant first. */
  function Pack(b0: bool, b1: bool, b2: bool, b3: bool, b4: bool, b5: bool, b6: bool, b7: bool): bv8 {
    (if b0 then 1 else 0) | (if b1 then 2 else 0) | (if b2 then 4 else 0) | (if b3 then 8 else 0)
    | (if b4 then 16 else 0) | (if b5 then 32 else 0) | (if b6 then 64 else 0) | (if b7 then 128 else 0)
  }

  function Value(b0: bool, b1: bool, b2: bool, b3: bool, b4: bool, b5: bool, b6: bool, b7: bool): (n: nat)
    ensures n < 256
  {
    Nibble(b0, b1, b2, b3) + 16 * Nibble(b4, b5, b6, b7)
  }

  function Nibble(b0: bool, b1: bool, b2: bool, b3: bool): (n: nat)
    ensures n < 16
  {
    One(b0) + 2 * (One(b1) + 2 * (One(b2) + 2 * One(b3)))
  }

  function One(b: bool): nat { if b then 1 else 0 }

  predicate HasBit(b: bv8, mask: bv8) { b & mask == mask }

  /** Bit `k` of a number. */
  predicate HasDigit(n: nat, k: nat)
    decreases k
  {
    if k == 0 then n % 2 == 1 else HasDigit(n / 2, k - 1)
  }

  function ToByte(n: nat): bv8
    requires n < 256
  {
    Pack(HasDigit(n, 0), HasDigit(n, 1), HasDigit(n, 2), HasDigit(n, 3), HasDigit(n, 4), HasDigit(n, 5), HasDigit(n, 6), HasDigit(n, 7))
  }

  function FromByte(b: bv8): (n: nat)
    ensures n < 256
  {
    Value(HasBit(b, 1), HasBit(b, 2), HasBit(b, 4), HasBit(b, 8), HasBit(b, 16), HasBit(b, 32), HasBit(b, 64), HasBit(b, 128))
  }

  lemma UnpackPack(b0: bool, b1: bool, b2: bool, b3: bool, b4: bool, b5: bool, b6: bool, b7: bool)
    ensures
      var p := Pack(b0, b1, b2, b3, b4, b5, b6, b7);
      && HasBit(p, 1) == b0 && HasBit(p, 2) == b1 && HasBit(p, 4) == b2 && HasBit(p, 8) == b3
      && HasBit(p, 16) == b4 && HasBit(p, 32) == b5 && HasBit(p, 64) == b6 && HasBit(p, 128) == b7
  {
  }

  lemma PackUnpack(b: bv8)
    ensures Pack(HasBit(b, 1), HasBit(b, 2), HasBit(b, 4), HasBit(b, 8), HasBit(b, 16), HasBit(b, 32), HasBit(b, 64), HasBit(b, 128)) == b
  {
  }

  lemma FourDigits(n: nat)
    ensures n == Nibble(HasDigit(n, 0), HasDigit(n, 1), HasDigit(n, 2), HasDigit(n, 3)) + 16 * (n / 16)
  {
    var p := n / 2;
    var q := p / 2;
    var r := q / 2;
    assert n == One(n % 2 == 1) + 2 * p && p == One(p % 2 == 1) + 2 * q && q == One(q % 2 == 1) + 2 * r && r == One(r % 2 == 1) + 2 * (r / 2);
    assert r / 2 == n / 16;
    assert HasDigit(n, 2) == HasDigit(q, 0) && HasDigit(n, 3) == HasDigit(q, 1);
  }

  lemma HigherDigits(n: nat)
    ensures HasDigit(n, 4) == HasDigit(n / 16, 0) && HasDigit(n, 5) == HasDigit(n / 16, 1)
    ensures HasDigit(n, 6) == HasDigit(n / 16, 2) && HasDigit(n, 7) == HasDigit(n / 16, 3)
  {
    var p := n / 2;
    var q := p / 2;
    var r := q / 2;
    assert r / 2 == n / 16;
    forall k: nat
      ensures HasDigit(n, k + 4) == HasDigit(n / 16, k)
    {
      assert HasDigit(n, k + 4) == HasDigit(p, k + 3) == HasDigit(q, k + 2);
      assert HasDigit(q, k + 2) == HasDigit(r, k + 1) == HasDigit(r / 2, k);
    }
    assert HasDigit(n, 0 + 4) == HasDigit(n / 16, 0) && HasDigit(n, 1 + 4) == HasDigit(n / 16, 1);
    assert HasDigit(n, 2 + 4) == HasDigit(n / 16, 2) && HasDigit(n, 3 + 4) == HasDigit(n / 16, 3);
  }

  lemma BinaryDigits(n: nat)
    requires n < 256
    ensures n == Value(HasDigit(n, 0), HasDigit(n, 1), HasDigit(n, 2), HasDigit(n, 3), HasDigit(n, 4), HasDigit(n, 5), HasDigit(n, 6), HasDigit(n, 7))
  {
    hide HasDigit, Nibble;
    var high := n / 16;
    FourDigits(n);
    FourDigits(high);
    assert high / 16 == 0;
    HigherDigits(n);
  }

  lemma DigitsOfNibble(b0: bool, b1: bool, b2: bool, b3: bool, rest: nat)
    ensures
      var n := Nibble(b0, b1, b2, b3) + 16 * rest;
      HasDigit(n, 0) == b0 && HasDigit(n, 1) == b1 && HasDigit(n, 2) == b2 && HasDigit(n, 3) == b3 && n / 16 == rest
  {
    var r := One(b3) + 2 * rest;
    var q := One(b2) + 2 * r;
    var p := One(b1) + 2 * q;
    var n := One(b0) + 2 * p;
    assert n / 2 == p && p / 2 == q && q / 2 == r;
    assert HasDigit(n, 2) == HasDigit(q, 0) && HasDigit(n, 3) == HasDigit(q, 1);
  }

  lemma DigitsOfValue(b0: bool, b1: bool, b2: bool, b3: bool, b4: bool, b5: bool, b6: bool, b7: bool)
    ensures
      var n := Value(b0, b1, b2, b3, b4, b5, b6, b7);
      && HasDigit(n, 0) == b0 && HasDigit(n, 1) == b1 && HasDigit(n, 2) == b2 && HasDigit(n, 3) == b3
      && HasDigit(n, 4) == b4 && HasDigit(n, 5) == b5 && HasDigit(n, 6) == b6 && HasDigit(n, 7) == b7
  {
    hide HasDigit, Nibble;
    DigitsOfNibble(b4, b5, b6, b7, 0);
    DigitsOfNibble(b0, b1, b2, b3, Nibble(b4, b5, b6, b7));
    HigherDigits(Value(b0, b1, b2, b3, b4, b5, b6, b7));
  }

  lemma ByteFits(n: nat)
    requires n < 256
    ensures FromByte(ToByte(n)) == n
  {
    hide Pack, Value, HasBit, HasDigit;
    UnpackPack(HasDigit(n, 0), HasDigit(n, 1), HasDigit(n, 2), HasDigit(n, 3), HasDigit(n, 4), HasDigit(n, 5), HasDigit(n, 6), HasDigit(n, 7));
    BinaryDigits(n);
  }

  lemma ByteReturns(b: bv8)
    ensures ToByte(FromByte(b)) == b
  {
    hide Pack, Value, HasBit, HasDigit;
    DigitsOfValue(HasBit(b, 1), HasBit(b, 2), HasBit(b, 4), HasBit(b, 8), HasBit(b, 16), HasBit(b, 32), HasBit(b, 64), HasBit(b, 128));
    PackUnpack(b);
  }

  function Weigh(b0: nat, b1: nat, b2: nat, b3: nat): Length
    requires b0 < 256 && b1 < 256 && b2 < 256 && b3 < 256
  {
    b0 + 256 * (b1 + 256 * (b2 + 256 * b3))
  }

  function DigitOf(n: Length, place: nat): (d: nat)
    requires place < 4
    ensures d < 256
  {
    if place == 0 then n % 256 else DigitOf(n / 256, place - 1)
  }

  lemma DigitsWeigh(n: Length)
    ensures Weigh(DigitOf(n, 0), DigitOf(n, 1), DigitOf(n, 2), DigitOf(n, 3)) == n
  {
    var q1 := n / 256;
    var q2 := q1 / 256;
    assert DigitOf(n, 2) == DigitOf(q2, 0);
    assert DigitOf(n, 3) == DigitOf(q2, 1) == q2 / 256;
  }

  lemma WeighDigits(b0: nat, b1: nat, b2: nat, b3: nat)
    requires b0 < 256 && b1 < 256 && b2 < 256 && b3 < 256
    ensures
      var n := Weigh(b0, b1, b2, b3);
      DigitOf(n, 0) == b0 && DigitOf(n, 1) == b1 && DigitOf(n, 2) == b2 && DigitOf(n, 3) == b3
  {
    var n := Weigh(b0, b1, b2, b3);
    var m := b1 + 256 * (b2 + 256 * b3);
    assert n % 256 == b0 && n / 256 == m;
    assert m % 256 == b1 && m / 256 == b2 + 256 * b3;
    assert DigitOf(n, 1) == DigitOf(m, 0);
    assert DigitOf(n, 2) == DigitOf(m, 1) == DigitOf(b2 + 256 * b3, 0);
    assert DigitOf(n, 3) == DigitOf(m, 2) == DigitOf(b2 + 256 * b3, 1) == DigitOf(b3, 0);
  }

  function PutLength(n: Length): (b: seq<bv8>)
    ensures |b| == 4
  {
    [ToByte(DigitOf(n, 0)), ToByte(DigitOf(n, 1)), ToByte(DigitOf(n, 2)), ToByte(DigitOf(n, 3))]
  }

  function GetLength(b: seq<bv8>): Length
    requires |b| == 4
  {
    Weigh(FromByte(b[0]), FromByte(b[1]), FromByte(b[2]), FromByte(b[3]))
  }

  lemma RoundTripLength(n: Length)
    ensures GetLength(PutLength(n)) == n
  {
    hide Weigh, DigitOf, ToByte, FromByte;
    ByteFits(DigitOf(n, 0));
    ByteFits(DigitOf(n, 1));
    ByteFits(DigitOf(n, 2));
    ByteFits(DigitOf(n, 3));
    DigitsWeigh(n);
  }

  lemma RebuildLength(b: seq<bv8>)
    requires |b| == 4
    ensures PutLength(GetLength(b)) == b
  {
    hide Weigh, DigitOf, ToByte, FromByte;
    WeighDigits(FromByte(b[0]), FromByte(b[1]), FromByte(b[2]), FromByte(b[3]));
    ByteReturns(b[0]);
    ByteReturns(b[1]);
    ByteReturns(b[2]);
    ByteReturns(b[3]);
  }
}
