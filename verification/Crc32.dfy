/** The header checksum: a table-driven CRC-32, its bit-at-a-time definition and what it detects. */
module Crc32 {

  /** The reflected polynomial of section 8 of RFC 1952. */
  const POLYNOMIAL: bv32 := 0xEDB8_8320

  const ALL_ONES: bv32 := 0xFFFF_FFFF

  // ---- Bit at a time ----------------------------------------------------------------------

  function Xor(x: bv32, y: bv32): bv32 { x ^ y }

  function Half(x: bv32): bv32 { x >> 1 }

  predicate Odd(x: bv32) { x & 1 == 1 }

  function Shift(x: bv32): bv32 { if Odd(x) then Xor(POLYNOMIAL, Half(x)) else Half(x) }

  /** Takes one message bit into the register. */
  function TakeBit(crc: bv32, bit: bool): bv32 { Shift(if bit then Xor(crc, 1) else crc) }

  /** Takes the low `n` bits of a byte, least significant first. */
  function TakeBits(crc: bv32, b: bv8, n: nat): bv32
    decreases n
  {
    if n == 0 then crc else TakeBits(TakeBit(crc, OddByte(b)), HalfByte(b), n - 1)
  }

  predicate OddByte(b: bv8) { b & 1 == 1 }

  function HalfByte(b: bv8): bv8 { b >> 1 }

  /** The register after a message, one bit at a time. */
  function Register(crc: bv32, data: seq<bv8>): bv32
    decreases |data|
  {
    if data == [] then crc else Register(TakeBits(crc, data[0], 8), data[1..])
  }

  function Checksum(data: seq<bv8>): bv32 { Xor(Register(ALL_ONES, data), ALL_ONES) }

  // ---- Shifting is linear and loses nothing -----------------------------------------------

  function ShiftBy(x: bv32, n: nat): bv32
    decreases n
  {
    if n == 0 then x else ShiftBy(Shift(x), n - 1)
  }

  lemma XorLaws(x: bv32, y: bv32, z: bv32)
    ensures Xor(x, y) == Xor(y, x) && Xor(Xor(x, y), z) == Xor(x, Xor(y, z)) && Xor(x, Xor(x, y)) == y
  {
  }

  lemma BitsOfXor(x: bv32, y: bv32)
    ensures Half(Xor(x, y)) == Xor(Half(x), Half(y))
    ensures Odd(Xor(x, y)) == (Odd(x) != Odd(y))
  {
  }

  lemma ShiftIsLinear(x: bv32, y: bv32)
    ensures Shift(Xor(x, y)) == Xor(Shift(x), Shift(y))
  {
    BitsOfXor(x, y);
    Mixes(POLYNOMIAL, Half(x), Half(y));
    hide Xor, Half, Odd, POLYNOMIAL;
  }

  lemma Mixes(p: bv32, a: bv32, b: bv32)
    ensures Xor(Xor(p, a), Xor(p, b)) == Xor(a, b)
    ensures Xor(Xor(p, a), b) == Xor(p, Xor(a, b)) && Xor(a, Xor(p, b)) == Xor(p, Xor(a, b))
  {
    hide Xor;
    XorLaws(p, a, b);
    XorLaws(a, p, b);
    XorLaws(p, a, Xor(p, b));
    XorLaws(p, Xor(a, b), b);
  }

  lemma {:induction false} ShiftByIsLinear(x: bv32, y: bv32, n: nat)
    ensures ShiftBy(Xor(x, y), n) == Xor(ShiftBy(x, n), ShiftBy(y, n))
    decreases n
  {
    hide Xor, Shift;
    if n > 0 {
      ShiftIsLinear(x, y);
      ShiftByIsLinear(Shift(x), Shift(y), n - 1);
    }
  }

  lemma ShiftIsInjective(x: bv32, y: bv32)
    requires Shift(x) == Shift(y)
    ensures x == y
  {
  }

  lemma {:induction false} ShiftByIsInjective(x: bv32, y: bv32, n: nat)
    requires ShiftBy(x, n) == ShiftBy(y, n)
    ensures x == y
    decreases n
  {
    hide Shift;
    if n > 0 {
      ShiftByIsInjective(Shift(x), Shift(y), n - 1);
      ShiftIsInjective(x, y);
    }
  }

  lemma {:induction false} ShiftBySum(x: bv32, n: nat, m: nat)
    ensures ShiftBy(ShiftBy(x, n), m) == ShiftBy(x, n + m)
    decreases n
  {
    hide Shift;
    if n > 0 { ShiftBySum(Shift(x), n - 1, m); }
  }

  // ---- Zero low bits slide out ------------------------------------------------------------

  predicate EvenFor(x: bv32, n: nat)
    decreases n
  {
    n == 0 || (!Odd(x) && EvenFor(Half(x), n - 1))
  }

  function HalfBy(x: bv32, n: nat): bv32
    decreases n
  {
    if n == 0 then x else HalfBy(Half(x), n - 1)
  }

  lemma {:induction false} EvenSlides(x: bv32, n: nat)
    requires EvenFor(x, n)
    ensures ShiftBy(x, n) == HalfBy(x, n)
    decreases n
  {
    hide Xor, Half, Odd;
    if n > 0 { EvenSlides(Half(x), n - 1); }
  }

  const LOW: bv32 := 0xFF
  const HIGH: bv32 := 0xFFFF_FF00

  /** The bits above the low byte. */
  function Top(x: bv32): bv32 { x & HIGH }

  function LowByte(x: bv32): bv32 { x & LOW }

  function Dropped(x: bv32): bv32 { x >> 8 }

  lemma HighBitsAreEven(x: bv32)
    ensures EvenFor(Top(x), 8) && HalfBy(Top(x), 8) == Dropped(x)
  {
    hide *;
    TopHalves(x);
    var a := Top(x);
    var b := Half(a);
    var c := Half(b);
    var d := Half(c);
    var e := Half(d);
    var f := Half(e);
    var g := Half(f);
    var h := Half(g);
    EightHalves(a, b, c, d, e, f, g, h, Half(h));
  }

  lemma TopHalves(x: bv32)
    ensures
      var a := Top(x);
      var b := Half(a);
      var c := Half(b);
      var d := Half(c);
      var e := Half(d);
      var f := Half(e);
      var g := Half(f);
      var h := Half(g);
      !Odd(a) && !Odd(b) && !Odd(c) && !Odd(d) && !Odd(e) && !Odd(f) && !Odd(g) && !Odd(h) && Half(h) == Dropped(x)
  {
  }

  lemma EightHalves(a: bv32, b: bv32, c: bv32, d: bv32, e: bv32, f: bv32, g: bv32, h: bv32, i: bv32)
    requires !Odd(a) && Half(a) == b && !Odd(b) && Half(b) == c && !Odd(c) && Half(c) == d && !Odd(d) && Half(d) == e
    requires !Odd(e) && Half(e) == f && !Odd(f) && Half(f) == g && !Odd(g) && Half(g) == h && !Odd(h) && Half(h) == i
    ensures EvenFor(a, 8) && HalfBy(a, 8) == i
  {
    FourHalves(a, b, c, d, e);
    FourHalves(e, f, g, h, i);
    hide *;
    EvenForSum(a, 4, 4);
  }

  lemma FourHalves(a: bv32, b: bv32, c: bv32, d: bv32, e: bv32)
    requires !Odd(a) && Half(a) == b && !Odd(b) && Half(b) == c && !Odd(c) && Half(c) == d && !Odd(d) && Half(d) == e
    ensures EvenFor(a, 4) && HalfBy(a, 4) == e
  {
    hide Odd, Half;
    assert EvenFor(c, 2) && HalfBy(c, 2) == e;
  }

  lemma {:induction false} EvenForSum(x: bv32, n: nat, m: nat)
    requires EvenFor(x, n) && EvenFor(HalfBy(x, n), m)
    ensures EvenFor(x, n + m) && HalfBy(x, n + m) == HalfBy(HalfBy(x, n), m)
    decreases n
  {
    hide Odd, Half;
    if n > 0 { EvenForSum(Half(x), n - 1, m); }
  }

  // ---- Byte at a time ---------------------------------------------------------------------

  function Widen(b: bv8): bv32 { b as bv32 }

  /** Takes a whole byte into the register. */
  function TakeByte(crc: bv32, b: bv8): bv32 { ShiftBy(Xor(crc, Widen(b)), 8) }

  /** One table lookup advances the register by a byte. */
  lemma LookupIsEightShifts(x: bv32)
    ensures ShiftBy(x, 8) == Xor(ShiftBy(LowByte(x), 8), Dropped(x))
  {
    hide *;
    SplitLow(x);
    ShiftByIsLinear(LowByte(x), Top(x), 8);
    HighBitsAreEven(x);
    EvenSlides(Top(x), 8);
  }

  lemma SplitLow(x: bv32)
    ensures x == Xor(LowByte(x), Top(x))
  {
  }

  // ---- Eight bits make a byte -------------------------------------------------------------

  function HalfByteBy(b: bv8, n: nat): bv8
    decreases n
  {
    if n == 0 then b else HalfByteBy(HalfByte(b), n - 1)
  }

  lemma BitOfByte(crc: bv32, b: bv8)
    ensures
      var taken := if OddByte(b) then Xor(crc, 1) else crc;
      && Odd(Xor(crc, Widen(b))) == Odd(taken)
      && Half(Xor(crc, Widen(b))) == Xor(Half(taken), Widen(HalfByte(b)))
  {
  }

  lemma OneBit(crc: bv32, b: bv8)
    ensures Shift(Xor(crc, Widen(b))) == Xor(TakeBit(crc, OddByte(b)), Widen(HalfByte(b)))
  {
    BitOfByte(crc, b);
    hide Xor, Half, Odd, OddByte, HalfByte, Widen, POLYNOMIAL;
    var taken := if OddByte(b) then Xor(crc, 1) else crc;
    XorLaws(POLYNOMIAL, Half(taken), Widen(HalfByte(b)));
  }

  lemma {:induction false} BitsLeaveRest(crc: bv32, b: bv8, n: nat)
    ensures ShiftBy(Xor(crc, Widen(b)), n) == Xor(TakeBits(crc, b, n), Widen(HalfByteBy(b, n)))
    decreases n
  {
    hide Xor, Shift, TakeBit, OddByte, HalfByte, Widen;
    if n > 0 {
      OneBit(crc, b);
      BitsLeaveRest(TakeBit(crc, OddByte(b)), HalfByte(b), n - 1);
    }
  }

  lemma NothingLeft(b: bv8)
    ensures HalfByteBy(b, 8) == 0
  {
    var c := HalfByte(HalfByte(HalfByte(HalfByte(b))));
    assert HalfByteBy(b, 8) == HalfByteBy(HalfByte(HalfByte(b)), 6);
    assert HalfByteBy(HalfByte(HalfByte(b)), 6) == HalfByteBy(c, 4);
    assert HalfByteBy(c, 4) == HalfByteBy(HalfByte(HalfByte(c)), 2);
    assert HalfByte(HalfByte(HalfByte(HalfByte(c)))) == 0;
  }

  lemma XorZero(x: bv32)
    ensures Xor(x, Widen(0)) == x
  {
  }

  /** Taking the eight bits of a byte is one exclusive or and eight shifts. */
  lemma BitsMakeByte(crc: bv32, b: bv8)
    ensures TakeBits(crc, b, 8) == TakeByte(crc, b)
  {
    hide *;
    BitsLeaveRest(crc, b, 8);
    NothingLeft(b);
    XorZero(TakeBits(crc, b, 8));
    ByteStep(crc, b);
  }

  lemma ByteStep(crc: bv32, b: bv8)
    ensures TakeByte(crc, b) == ShiftBy(Xor(crc, Widen(b)), 8)
  {
  }

  lemma {:induction false} RegisterSnoc(crc: bv32, data: seq<bv8>, b: bv8)
    ensures Register(crc, data + [b]) == TakeByte(Register(crc, data), b)
    decreases |data|
  {
    hide TakeBits, TakeByte;
    if data == [] {
      assert ([b])[1..] == [] && [] + [b] == [b];
      BitsMakeByte(crc, b);
    } else {
      assert (data + [b])[1..] == data[1..] + [b];
      RegisterSnoc(TakeBits(crc, data[0], 8), data[1..], b);
    }
  }

  // ---- The table-driven form --------------------------------------------------------------

  lemma IndexRoundTrip(x: bv32)
    requires x < 256
    ensures 0 <= x as int < 256 && (x as int) as bv32 == x
  {
  }

  function Entry(i: int): bv32
    requires 0 <= i < 256
  {
    ShiftBy(i as bv32, 8)
  }

  method ComputeEntry(i: int) returns (value: bv32)
    requires 0 <= i < 256
    ensures value == Entry(i)
  {
    hide Shift;
    value := i as bv32;
    for bit := 0 to 8
      invariant value == ShiftBy(i as bv32, bit)
    {
      ShiftBySum(i as bv32, bit, 1);
      value := Shift(value);
    }
  }

  method BuildTable() returns (table: array<bv32>)
    ensures fresh(table) && table.Length == 256
    ensures forall i :: 0 <= i < 256 ==> table[i] == Entry(i)
  {
    hide Entry;
    table := new bv32[256];
    for i := 0 to 256
      invariant forall j :: 0 <= j < i ==> table[j] == Entry(j)
    {
      table[i] := ComputeEntry(i);
    }
  }

  lemma LookupAdvances(crc: bv32, b: bv8, x: bv32)
    requires x == LowByte(Xor(crc, Widen(b)))
    ensures 0 <= x as int < 256 && Xor(Entry(x as int), Dropped(crc)) == TakeByte(crc, b)
  {
    assert x < 256;
    IndexRoundTrip(x);
    assert Entry(x as int) == ShiftBy(x, 8);
    hide *;
    ByteStep(crc, b);
    LookupIsEightShifts(Xor(crc, Widen(b)));
    DropIgnoresByte(crc, b);
  }

  lemma DropIgnoresByte(crc: bv32, b: bv8)
    ensures Dropped(Xor(crc, Widen(b))) == Dropped(crc)
  {
  }

  /** The table-driven loop computes the bit-at-a-time checksum of every byte string. */
  method Compute(data: seq<bv8>) returns (checksum: bv32)
    ensures checksum == Checksum(data)
  {
    hide Entry, TakeByte, Register, Xor, Dropped, LowByte, Widen, ALL_ONES;
    var table := BuildTable();
    var crc := ALL_ONES;
    assert crc == Register(ALL_ONES, data[..0]) by { EmptyRegister(ALL_ONES); assert data[..0] == []; }
    for i := 0 to |data|
      invariant crc == Register(ALL_ONES, data[..i])
      invariant forall j :: 0 <= j < 256 ==> table[j] == Entry(j)
    {
      var x := LowByte(Xor(crc, Widen(data[i])));
      LookupAdvances(crc, data[i], x);
      assert data[..i + 1] == data[..i] + [data[i]];
      RegisterSnoc(ALL_ONES, data[..i], data[i]);
      crc := Xor(table[x as int], Dropped(crc));
    }
    assert data[..|data|] == data;
    return Xor(crc, ALL_ONES);
  }

  lemma EmptyRegister(crc: bv32)
    ensures Register(crc, []) == crc
  {
  }

  lemma {:induction false} RegisterConcat(crc: bv32, a: seq<bv8>, b: seq<bv8>)
    ensures Register(crc, a + b) == Register(Register(crc, a), b)
    decreases |a|
  {
    hide TakeBits;
    if a == [] {
      assert a + b == b;
    } else {
      assert (a + b)[1..] == a[1..] + b;
      RegisterConcat(TakeBits(crc, a[0], 8), a[1..], b);
    }
  }

  // ---- Messages as bits -------------------------------------------------------------------

  /** The low `n` bits of a byte in the order in which they are taken. */
  function BitsOf(b: bv8, n: nat): (bits: seq<bool>)
    ensures |bits| == n
    decreases n
  {
    if n == 0 then [] else [OddByte(b)] + BitsOf(HalfByte(b), n - 1)
  }

  function Bits(data: seq<bv8>): (bits: seq<bool>)
    ensures |bits| == 8 * |data|
  {
    if data == [] then [] else BitsOf(data[0], 8) + Bits(data[1..])
  }

  function RegisterBits(crc: bv32, bits: seq<bool>): bv32
    decreases |bits|
  {
    if bits == [] then crc else RegisterBits(TakeBit(crc, bits[0]), bits[1..])
  }

  lemma {:induction false} RegisterBitsConcat(crc: bv32, a: seq<bool>, b: seq<bool>)
    ensures RegisterBits(crc, a + b) == RegisterBits(RegisterBits(crc, a), b)
    decreases |a|
  {
    hide TakeBit;
    if a == [] {
      assert a + b == b;
    } else {
      assert (a + b)[1..] == a[1..] + b;
      RegisterBitsConcat(TakeBit(crc, a[0]), a[1..], b);
    }
  }

  lemma {:induction false} ByteIsItsBits(crc: bv32, b: bv8, n: nat)
    ensures TakeBits(crc, b, n) == RegisterBits(crc, BitsOf(b, n))
    decreases n
  {
    hide TakeBit, OddByte, HalfByte;
    if n > 0 {
      assert BitsOf(b, n)[1..] == BitsOf(HalfByte(b), n - 1);
      ByteIsItsBits(TakeBit(crc, OddByte(b)), HalfByte(b), n - 1);
    }
  }

  /** The register after a message is the register after its bits. */
  lemma {:induction false} RegisterIsBits(crc: bv32, data: seq<bv8>)
    ensures Register(crc, data) == RegisterBits(crc, Bits(data))
    decreases |data|
  {
    hide TakeBits, TakeBit, BitsOf;
    if data != [] {
      ByteIsItsBits(crc, data[0], 8);
      RegisterBitsConcat(crc, BitsOf(data[0], 8), Bits(data[1..]));
      RegisterIsBits(TakeBits(crc, data[0], 8), data[1..]);
    }
  }

  lemma {:induction false} BitsConcat(a: seq<bv8>, b: seq<bv8>)
    ensures Bits(a + b) == Bits(a) + Bits(b)
    decreases |a|
  {
    hide BitsOf;
    if a == [] {
      assert a + b == b;
    } else {
      assert (a + b)[1..] == a[1..] + b;
      BitsConcat(a[1..], b);
    }
  }

  lemma BitsSplit(data: seq<bv8>, i: nat)
    requires i <= |data|
    ensures Bits(data)[..8 * i] == Bits(data[..i]) && Bits(data)[8 * i..] == Bits(data[i..])
  {
    hide Bits;
    assert data == data[..i] + data[i..];
    BitsConcat(data[..i], data[i..]);
  }

  function Place(bit: bool, weight: bv8): bv8 { if bit then weight else 0 }

  /** The byte with these bits. */
  function ByteOf(u: seq<bool>): bv8
    requires |u| == 8
  {
    Place(u[0], 1) | Place(u[1], 2) | Place(u[2], 4) | Place(u[3], 8) | Place(u[4], 16) | Place(u[5], 32) | Place(u[6], 64) | Place(u[7], 128)
  }

  lemma BitsOfFour(b: bv8)
    ensures
      var c := HalfByte(b);
      var d := HalfByte(c);
      var e := HalfByte(d);
      BitsOf(b, 4) == [OddByte(b), OddByte(c), OddByte(d), OddByte(e)]
  {
    hide OddByte, HalfByte;
    assert BitsOf(HalfByte(HalfByte(b)), 2) == [OddByte(HalfByte(HalfByte(b))), OddByte(HalfByte(HalfByte(HalfByte(b))))];
  }

  lemma {:induction false} BitsOfSum(b: bv8, n: nat, m: nat)
    ensures BitsOf(b, n + m) == BitsOf(b, n) + BitsOf(HalfByteBy(b, n), m)
    decreases n
  {
    hide OddByte, HalfByte;
    if n > 0 { BitsOfSum(HalfByte(b), n - 1, m); }
  }

  lemma BitsOfEight(a: bv8)
    ensures
      var b := HalfByte(a);
      var c := HalfByte(b);
      var d := HalfByte(c);
      var e := HalfByte(d);
      var f := HalfByte(e);
      var g := HalfByte(f);
      var h := HalfByte(g);
      BitsOf(a, 8) == [OddByte(a), OddByte(b), OddByte(c), OddByte(d), OddByte(e), OddByte(f), OddByte(g), OddByte(h)]
  {
    hide OddByte, HalfByte;
    var e := HalfByte(HalfByte(HalfByte(HalfByte(a))));
    BitsOfSum(a, 4, 4);
    assert HalfByteBy(a, 4) == HalfByteBy(HalfByte(HalfByte(a)), 2) == e;
    hide BitsOf;
    BitsOfFour(a);
    BitsOfFour(e);
  }

  lemma BitsOfByteOf(u: seq<bool>)
    requires |u| == 8
    ensures BitsOf(ByteOf(u), 8) == u
  {
    hide BitsOf;
    BitsOfEight(ByteOf(u));
  }

  lemma ByteOfBitsOf(b: bv8)
    ensures ByteOf(BitsOf(b, 8)) == b
  {
    hide BitsOf;
    BitsOfEight(b);
  }

  /** Messages with the same bits are the same. */
  lemma {:induction false} BitsAreFaithful(a: seq<bv8>, b: seq<bv8>)
    requires |a| == |b| && Bits(a) == Bits(b)
    ensures a == b
  {
    hide BitsOf, ByteOf;
    if a != [] {
      assert BitsOf(a[0], 8) == Bits(a)[..8] == Bits(b)[..8] == BitsOf(b[0], 8);
      assert Bits(a[1..]) == Bits(a)[8..] == Bits(b)[8..] == Bits(b[1..]);
      ByteOfBitsOf(a[0]);
      ByteOfBitsOf(b[0]);
      BitsAreFaithful(a[1..], b[1..]);
    }
  }

  // ---- What the checksum detects ----------------------------------------------------------

  lemma TakeBitIsInjective(crc: bv32, other: bv32, bit: bool)
    requires TakeBit(crc, bit) == TakeBit(other, bit)
    ensures crc == other
  {
    hide Shift, Xor;
    ShiftIsInjective(if bit then Xor(crc, 1) else crc, if bit then Xor(other, 1) else other);
    XorLaws(1, crc, crc);
    XorLaws(1, other, other);
    XorLaws(crc, 1, crc);
    XorLaws(other, 1, other);
  }

  /** Equal bits never bring two different registers together. */
  lemma {:induction false} RegisterIsInjective(crc: bv32, other: bv32, bits: seq<bool>)
    requires RegisterBits(crc, bits) == RegisterBits(other, bits)
    ensures crc == other
    decreases |bits|
  {
    hide TakeBit;
    if bits != [] {
      RegisterIsInjective(TakeBit(crc, bits[0]), TakeBit(other, bits[0]), bits[1..]);
      TakeBitIsInjective(crc, other, bits[0]);
    }
  }

  function Up(x: bv32): bv32 { x << 8 }

  predicate Below24(x: bv32) { x & 0xFF00_0000 == 0 }

  lemma UpComesDown(x: bv32)
    requires Below24(x)
    ensures ShiftBy(Up(x), 8) == x
  {
    assert Top(Up(x)) == Up(x) && Dropped(Up(x)) == x;
    hide *;
    HighBitsAreEven(Up(x));
    EvenSlides(Up(x), 8);
  }

  /** A later byte acts like a higher byte of an earlier word. */
  lemma Defer(x: bv32, w: bv32)
    requires Below24(w)
    ensures Xor(ShiftBy(x, 8), w) == ShiftBy(Xor(x, Up(w)), 8)
  {
    hide *;
    UpComesDown(w);
    ShiftByIsLinear(x, Up(w), 8);
  }

  /** Four bytes as one little-endian word. */
  function WordOf(b: seq<bv8>): bv32
    requires |b| == 4
  {
    Xor(Xor(Xor(Widen(b[0]), Up(Widen(b[1]))), Up(Up(Widen(b[2])))), Up(Up(Up(Widen(b[3])))))
  }

  function ByteShift(x: bv32): bv32 { ShiftBy(x, 8) }

  lemma DeferTwice(x: bv32, w: bv32)
    requires Below24(w) && Below24(Up(w))
    ensures Xor(ByteShift(ByteShift(x)), w) == ByteShift(ByteShift(Xor(x, Up(Up(w)))))
  {
    hide Xor, Up, Below24, ShiftBy;
    Defer(ByteShift(x), w);
    Defer(x, Up(w));
  }

  lemma DeferThrice(x: bv32, w: bv32)
    requires Below24(w) && Below24(Up(w)) && Below24(Up(Up(w)))
    ensures Xor(ByteShift(ByteShift(ByteShift(x))), w) == ByteShift(ByteShift(ByteShift(Xor(x, Up(Up(Up(w)))))))
  {
    hide Xor, Up, Below24, ShiftBy;
    DeferTwice(ByteShift(x), w);
    Defer(x, Up(Up(w)));
  }

  lemma SmallWords(b: bv8)
    ensures Below24(Widen(b)) && Below24(Up(Widen(b))) && Below24(Up(Up(Widen(b))))
  {
  }

  /** Four bytes enter the register as one word. */
  lemma FourBytes(crc: bv32, b0: bv8, b1: bv8, b2: bv8, b3: bv8)
    ensures TakeByte(TakeByte(TakeByte(TakeByte(crc, b0), b1), b2), b3)
            == ByteShift(ByteShift(ByteShift(ByteShift(Xor(crc, WordOf([b0, b1, b2, b3]))))))
  {
    var w0, w1, w2, w3 := Widen(b0), Widen(b1), Widen(b2), Widen(b3);
    assert WordOf([b0, b1, b2, b3]) == Xor(Xor(Xor(w0, Up(w1)), Up(Up(w2))), Up(Up(Up(w3))));
    SmallWords(b1);
    SmallWords(b2);
    SmallWords(b3);
    hide Xor, Widen, Up, WordOf, Below24, ShiftBy;
    var x1 := Xor(crc, w0);
    var x2 := Xor(x1, Up(w1));
    var x3 := Xor(x2, Up(Up(w2)));
    var x4 := Xor(x3, Up(Up(Up(w3))));
    Defer(x1, w1);
    DeferTwice(x2, w2);
    DeferThrice(x3, w3);
    Associate(crc, w0, Up(w1), Up(Up(w2)), Up(Up(Up(w3))));
  }

  lemma Associate(r: bv32, a: bv32, b: bv32, c: bv32, d: bv32)
    ensures Xor(r, Xor(Xor(Xor(a, b), c), d)) == Xor(Xor(Xor(Xor(r, a), b), c), d)
  {
    XorLaws(r, Xor(Xor(a, b), c), d);
    XorLaws(r, Xor(a, b), c);
    XorLaws(r, a, b);
    hide Xor;
  }

  /** The bytes of a word are found again in its quarters. */
  function Quarter(w: bv32, n: nat): bv8
    requires n < 4
  {
    if n == 0 then (w & LOW) as bv8
    else if n == 1 then ((w >> 8) & LOW) as bv8
    else if n == 2 then ((w >> 16) & LOW) as bv8
    else ((w >> 24) & LOW) as bv8
  }

  lemma Quarters(b0: bv8, b1: bv8, b2: bv8, b3: bv8)
    ensures
      var w := Xor(Xor(Xor(Widen(b0), Up(Widen(b1))), Up(Up(Widen(b2)))), Up(Up(Up(Widen(b3)))));
      Quarter(w, 0) == b0 && Quarter(w, 1) == b1 && Quarter(w, 2) == b2 && Quarter(w, 3) == b3
  {
  }

  lemma WordIsInjective(a: seq<bv8>, b: seq<bv8>)
    requires |a| == |b| == 4 && WordOf(a) == WordOf(b)
    ensures a == b
  {
    hide Quarter, Xor, Up, Widen;
    Quarters(a[0], a[1], a[2], a[3]);
    Quarters(b[0], b[1], b[2], b[3]);
  }

  lemma FourBytesAreInjective(crc: bv32, a: seq<bv8>, b: seq<bv8>)
    requires |a| == |b| == 4 && Register(crc, a) == Register(crc, b)
    ensures a == b
  {
    hide *;
    RegisterOfFour(crc, a);
    RegisterOfFour(crc, b);
    UndoShifts(Xor(crc, WordOf(a)), Xor(crc, WordOf(b)));
    XorLaws(crc, WordOf(a), crc);
    XorLaws(crc, WordOf(b), crc);
    WordIsInjective(a, b);
  }

  lemma UndoShifts(x: bv32, y: bv32)
    requires ByteShift(ByteShift(ByteShift(ByteShift(x)))) == ByteShift(ByteShift(ByteShift(ByteShift(y))))
    ensures x == y
  {
    hide ShiftBy;
    ShiftByIsInjective(ByteShift(ByteShift(ByteShift(x))), ByteShift(ByteShift(ByteShift(y))), 8);
    ShiftByIsInjective(ByteShift(ByteShift(x)), ByteShift(ByteShift(y)), 8);
    ShiftByIsInjective(ByteShift(x), ByteShift(y), 8);
    ShiftByIsInjective(x, y, 8);
  }

  lemma RegisterOfFour(crc: bv32, b: seq<bv8>)
    requires |b| == 4
    ensures Register(crc, b) == ByteShift(ByteShift(ByteShift(ByteShift(Xor(crc, WordOf(b))))))
  {
    hide Xor, WordOf, TakeByte, ByteShift;
    FourBytes(crc, b[0], b[1], b[2], b[3]);
    assert b == [b[0], b[1], b[2], b[3]];
    RegisterSnoc(crc, [], b[0]);
    RegisterSnoc(crc, [b[0]], b[1]);
    RegisterSnoc(crc, [b[0], b[1]], b[2]);
    RegisterSnoc(crc, [b[0], b[1], b[2]], b[3]);
    EmptyRegister(crc);
    assert [] + [b[0]] == [b[0]] && [b[0]] + [b[1]] == [b[0], b[1]] && [b[0], b[1]] + [b[2]] == [b[0], b[1], b[2]];
    assert [b[0], b[1], b[2]] + [b[3]] == b;
  }

  /** Thirty-two bits as four bytes. */
  function Packed(u: seq<bool>): seq<bv8>
    requires |u| == 32
  {
    [ByteOf(u[..8]), ByteOf(u[8..16]), ByteOf(u[16..24]), ByteOf(u[24..])]
  }

  lemma PackedBits(u: seq<bool>)
    requires |u| == 32
    ensures Bits(Packed(u)) == u
  {
    hide ByteOf, BitsOf;
    BitsOfByteOf(u[..8]);
    BitsOfByteOf(u[8..16]);
    BitsOfByteOf(u[16..24]);
    BitsOfByteOf(u[24..]);
    var p := Packed(u);
    assert p[1..] == [p[1], p[2], p[3]] && p[1..][1..] == [p[2], p[3]] && p[1..][1..][1..] == [p[3]] && p[1..][1..][1..][1..] == [];
    assert Bits([p[3]]) == u[24..] + [];
    assert Bits([p[2], p[3]]) == u[16..24] + u[24..];
    assert Bits([p[1], p[2], p[3]]) == u[8..16] + (u[16..24] + u[24..]);
    assert Bits(p) == u[..8] + (u[8..16] + (u[16..24] + u[24..]));
  }

  lemma ThirtyTwoBitsAreInjective(crc: bv32, u: seq<bool>, v: seq<bool>)
    requires |u| == |v| == 32 && RegisterBits(crc, u) == RegisterBits(crc, v)
    ensures u == v
  {
    hide *;
    PackedBits(u);
    PackedBits(v);
    RegisterIsBits(crc, Packed(u));
    RegisterIsBits(crc, Packed(v));
    PackedLength(u);
    PackedLength(v);
    FourBytesAreInjective(crc, Packed(u), Packed(v));
  }

  lemma PackedLength(u: seq<bool>)
    requires |u| == 32
    ensures |Packed(u)| == 4
  {
  }

  /** Any change confined to thirty-two consecutive bits, wherever they begin, changes the register. */
  lemma BurstChangesRegister(crc: bv32, a: seq<bool>, b: seq<bool>, i: nat)
    requires |a| == |b| && i + 32 <= |a| && a[..i] == b[..i] && a[i + 32..] == b[i + 32..] && a != b
    ensures RegisterBits(crc, a) != RegisterBits(crc, b)
  {
    hide RegisterBits;
    var before, u, v, rest := a[..i], a[i..i + 32], b[i..i + 32], a[i + 32..];
    assert a == before + (u + rest) && b == before + (v + rest);
    RegisterBitsConcat(crc, before, u + rest);
    RegisterBitsConcat(crc, before, v + rest);
    var r := RegisterBits(crc, before);
    RegisterBitsConcat(r, u, rest);
    RegisterBitsConcat(r, v, rest);
    if RegisterBits(crc, a) == RegisterBits(crc, b) {
      RegisterIsInjective(RegisterBits(r, u), RegisterBits(r, v), rest);
      ThirtyTwoBitsAreInjective(r, u, v);
    }
  }
}
