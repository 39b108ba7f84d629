/** The bounded byte codec: little-endian fields, counted text, and a reader that never runs past
    its buffer and never recovers from its first failure. */
module Bytes {
  import opened Prelude

  type Byte = b: int | 0 <= b < 256

  // ---- Fixed-width numbers ----------------------------------------------------------------

  function Range(n: nat): (r: nat)
    ensures r >= 1
  {
    if n == 0 then 1 else 256 * Range(n - 1)
  }

  /** The `n` low-order bytes of a number, least significant first. */
  function Little(v: nat, n: nat): (bytes: seq<Byte>)
    ensures |bytes| == n
  {
    if n == 0 then [] else [v % 256] + Little(v / 256, n - 1)
  }

  function Value(bytes: seq<Byte>): nat {
    if bytes == [] then 0 else bytes[0] + 256 * Value(bytes[1..])
  }

  lemma {:induction false} ValueOfLittle(v: nat, n: nat)
    requires v < Range(n)
    ensures Value(Little(v, n)) == v
  {
    if n > 0 {
      assert v / 256 < Range(n - 1);
      ValueOfLittle(v / 256, n - 1);
      assert Little(v, n)[1..] == Little(v / 256, n - 1);
    }
  }

  lemma {:induction false} LittleOfValue(bytes: seq<Byte>)
    ensures Value(bytes) < Range(|bytes|) && Little(Value(bytes), |bytes|) == bytes
  {
    if bytes != [] {
      var rest := Value(bytes[1..]);
      LittleOfValue(bytes[1..]);
      assert (bytes[0] + 256 * rest) % 256 == bytes[0] && (bytes[0] + 256 * rest) / 256 == rest;
      assert bytes == [bytes[0]] + bytes[1..];
    }
  }

  /** Two's complement, in 64 bits. */
  function ToUnsigned(i: int): nat
    requires -0x8000_0000_0000_0000 <= i < 0x8000_0000_0000_0000
  {
    if i >= 0 then i else i + 0x1_0000_0000_0000_0000
  }

  function ToSigned(v: nat): int
    requires v < 0x1_0000_0000_0000_0000
  {
    if v < 0x8000_0000_0000_0000 then v else v - 0x1_0000_0000_0000_0000
  }

  // ---- Text -------------------------------------------------------------------------------

  predicate IsText(s: string) { forall i :: 0 <= i < |s| ==> (s[i] as int) < 256 }

  function TextBytes(s: string): (bytes: seq<Byte>)
    requires IsText(s)
    ensures |bytes| == |s|
  {
    seq(|s|, i requires 0 <= i < |s| => s[i] as int)
  }

  function BytesText(bytes: seq<Byte>): (s: string)
    ensures |s| == |bytes| && IsText(s)
  {
    seq(|bytes|, i requires 0 <= i < |bytes| => bytes[i] as char)
  }

  lemma TextRoundTrip(s: string)
    requires IsText(s)
    ensures BytesText(TextBytes(s)) == s
  {
  }

  // ---- Fields -----------------------------------------------------------------------------

  /** What a reader is told to expect. `Word(n)` is an unsigned number of `n` bytes. */
  datatype Shape = Word(width: nat) | Flag | Signed | Block(size: nat) | Text(limit: nat)

  datatype Item = Number(number: nat) | Truth(truth: bool) | Quantity(quantity: int) | Raw(raw: seq<Byte>) | Str(str: string)

  /** The item is one the shape can carry and the reader will accept. */
  predicate Fits(shape: Shape, item: Item) {
    match (shape, item)
    case (Word(n), Number(v)) => v < Range(n)
    case (Flag, Truth(_)) => true
    case (Signed, Quantity(i)) => -0x8000_0000_0000_0000 <= i < 0x8000_0000_0000_0000
    case (Block(n), Raw(s)) => |s| == n
    case (Text(limit), Str(s)) => IsText(s) && |s| <= limit && |s| < 0x1_0000_0000
    case _ => false
  }

  function Encoded(shape: Shape, item: Item): seq<Byte>
    requires Fits(shape, item)
  {
    match (shape, item)
    case (Word(n), Number(v)) => Little(v, n)
    case (Flag, Truth(b)) => [if b then 1 else 0]
    case (Signed, Quantity(i)) => Little(ToUnsigned(i), 8)
    case (Block(_), Raw(s)) => s
    case (Text(_), Str(s)) => Little(|s|, 4) + TextBytes(s)
  }

  // ---- The reader, on values --------------------------------------------------------------

  datatype Cursor = Cursor(data: seq<Byte>, offset: nat, error: Option<ErrorCode>)

  predicate InBounds(c: Cursor) { c.offset <= |c.data| }

  function Failed(c: Cursor, code: ErrorCode): Cursor { if c.error.Some? then c else c.(error := Some(code)) }

  datatype Read<T> = Read(cursor: Cursor, value: Option<T>)

  /** A read never leaves the buffer, never goes back, changes nothing once something failed, and
      either yields a value or leaves an error behind. */
  predicate Sound<T>(c: Cursor, r: Read<T>) {
    && r.cursor.data == c.data && c.offset <= r.cursor.offset <= |c.data|
    && (c.error.Some? ==> r.cursor == c)
    && (r.value.Some? <==> r.cursor.error.None?)
  }

  /** Takes the next `n` bytes. */
  function Take(c: Cursor, n: nat): (r: Read<seq<Byte>>)
    requires InBounds(c)
    ensures Sound(c, r) && (r.value.Some? ==> |r.value.value| == n)
  {
    if c.error.Some? then Read(c, None)
    else if n > |c.data| - c.offset then Read(Failed(c, TruncatedFrame), None)
    else Read(c.(offset := c.offset + n), Some(c.data[c.offset..c.offset + n]))
  }

  function TakeWord(c: Cursor, n: nat): (r: Read<nat>)
    requires InBounds(c)
    ensures Sound(c, r) && (r.value.Some? ==> r.value.value < Range(n))
  {
    var r := Take(c, n);
    if r.value.None? then Read(r.cursor, None)
    else
      LittleOfValue(r.value.value);
      Read(r.cursor, Some(Value(r.value.value)))
  }

  function TakeItem(c: Cursor, shape: Shape): (r: Read<Item>)
    requires InBounds(c)
    ensures Sound(c, r) && (r.value.Some? ==> Fits(shape, r.value.value))
  {
    match shape
    case Word(n) =>
      var r := TakeWord(c, n);
      Read(r.cursor, match r.value case Some(v) => Some(Number(v)) case None => None)
    case Flag =>
      var r := TakeWord(c, 1);
      if r.value.None? then Read(r.cursor, None)
      else if r.value.value > 1 then Read(Failed(r.cursor, MalformedData), None)
      else Read(r.cursor, Some(Truth(r.value.value == 1)))
    case Signed =>
      var r := Take(c, 8);
      if r.value.None? then Read(r.cursor, None)
      else
        EightBytes(r.value.value);
        Read(r.cursor, Some(Quantity(ToSigned(Value(r.value.value)))))
    case Block(n) =>
      var r := Take(c, n);
      Read(r.cursor, match r.value case Some(b) => Some(Raw(b)) case None => None)
    case Text(limit) =>
      var r := TakeWord(c, 4);
      if r.value.None? then Read(r.cursor, None)
      else if r.value.value > limit then Read(Failed(r.cursor, BoundsExceeded), None)
      else
        RangeOfEight();
        var t := Take(r.cursor, r.value.value);
        Read(t.cursor, match t.value case Some(b) => Some(Str(BytesText(b))) case None => None)
  }

  lemma EightBytes(b: seq<Byte>)
    requires |b| == 8
    ensures Value(b) < 0x1_0000_0000_0000_0000
  {
    LittleOfValue(b);
    RangeOfEight();
  }

  lemma RangeOfEight()
    ensures Range(4) == 0x1_0000_0000 && Range(8) == 0x1_0000_0000_0000_0000
  {
    assert Range(2) == 0x1_0000;
    assert Range(4) == 0x1_0000_0000;
    assert Range(6) == 0x1_0000_0000_0000;
  }

  /** Reads fields in order and stops at the first that fails. */
  function TakeItems(c: Cursor, shapes: seq<Shape>): (r: Read<seq<Item>>)
    requires InBounds(c)
    ensures Sound(c, r) && (r.value.Some? ==> AllFit(shapes, r.value.value))
    decreases |shapes|
  {
    if c.error.Some? then Read(c, None)
    else if shapes == [] then Read(c, Some([]))
    else
      var first := TakeItem(c, shapes[0]);
      if first.value.None? then Read(first.cursor, None)
      else
        var rest := TakeItems(first.cursor, shapes[1..]);
        Read(rest.cursor, match rest.value case Some(items) => Some([first.value.value] + items) case None => None)
  }

  /** A count that sizes a loop: bounded, and plausible for what is left of the buffer. */
  function TakeCount(c: Cursor, most: nat, bytesPerItem: nat): (r: Read<nat>)
    requires InBounds(c)
    ensures Sound(c, r) && (r.value.Some? ==> r.value.value <= most)
  {
    var r := TakeWord(c, 4);
    if r.value.None? then r
    else if r.value.value > most then Read(Failed(r.cursor, BoundsExceeded), None)
    else if bytesPerItem != 0 && r.value.value * bytesPerItem > |c.data| - r.cursor.offset then Read(Failed(r.cursor, TruncatedFrame), None)
    else r
  }

  // ---- What was written is what is read ---------------------------------------------------

  /** The cursor stands, unfailed, at the beginning of these bytes. */
  predicate At(c: Cursor, bytes: seq<Byte>) {
    InBounds(c) && c.error.None? && |bytes| <= |c.data| - c.offset && c.data[c.offset..c.offset + |bytes|] == bytes
  }

  function Past(c: Cursor, bytes: seq<Byte>): Cursor { c.(offset := c.offset + |bytes|) }

  lemma AtParts(c: Cursor, a: seq<Byte>, b: seq<Byte>)
    requires At(c, a + b)
    ensures At(c, a) && At(Past(c, a), b) && Past(Past(c, a), b) == Past(c, a + b)
  {
    assert c.data[c.offset..c.offset + |a|] == (a + b)[..|a|];
    assert c.data[c.offset + |a|..c.offset + |a| + |b|] == (a + b)[|a|..];
  }

  lemma WordRoundTrip(c: Cursor, v: nat, n: nat)
    requires v < Range(n) && At(c, Little(v, n))
    ensures TakeWord(c, n) == Read(Past(c, Little(v, n)), Some(v))
  {
    ValueOfLittle(v, n);
  }

  /** Reading an encoded item, whatever follows it, returns the item and consumes exactly its
      bytes. */
  lemma ItemRoundTrip(c: Cursor, shape: Shape, item: Item)
    requires Fits(shape, item) && At(c, Encoded(shape, item))
    ensures TakeItem(c, shape) == Read(Past(c, Encoded(shape, item)), Some(item))
  {
    hide Little, Range, Value, TextBytes, BytesText, IsText;
    match (shape, item)
    case (Word(n), Number(v)) => WordRoundTrip(c, v, n);
    case (Flag, Truth(b)) => FlagRoundTrip(c, b);
    case (Signed, Quantity(i)) =>
      RangeOfEight();
      ValueOfLittle(ToUnsigned(i), 8);
    case (Block(n), Raw(s)) =>
    case (Text(limit), Str(s)) =>
      RangeOfEight();
      AtParts(c, Little(|s|, 4), TextBytes(s));
      WordRoundTrip(c, |s|, 4);
      TextRoundTrip(s);
  }

  lemma FlagRoundTrip(c: Cursor, b: bool)
    requires At(c, [if b then 1 else 0])
    ensures TakeItem(c, Flag) == Read(Past(c, [if b then 1 else 0]), Some(Truth(b)))
  {
    var v := if b then 1 else 0;
    assert Little(v, 1) == [v] by { assert Little(v / 256, 0) == []; }
    assert v < Range(1) by { assert Range(0) == 1; }
    WordRoundTrip(c, v, 1);
  }

  predicate AllFit(shapes: seq<Shape>, items: seq<Item>) {
    |shapes| == |items| && forall i :: 0 <= i < |shapes| ==> Fits(shapes[i], items[i])
  }

  function EncodedAll(shapes: seq<Shape>, items: seq<Item>): seq<Byte>
    requires AllFit(shapes, items)
    decreases |shapes|
  {
    if shapes == [] then [] else Encoded(shapes[0], items[0]) + EncodedAll(shapes[1..], items[1..])
  }

  lemma {:induction false} ItemsRoundTrip(c: Cursor, shapes: seq<Shape>, items: seq<Item>)
    requires AllFit(shapes, items) && At(c, EncodedAll(shapes, items))
    ensures TakeItems(c, shapes) == Read(Past(c, EncodedAll(shapes, items)), Some(items))
    decreases |shapes|
  {
    hide Encoded, TakeItem, Fits;
    if shapes != [] {
      var first, rest := Encoded(shapes[0], items[0]), EncodedAll(shapes[1..], items[1..]);
      AtParts(c, first, rest);
      ItemRoundTrip(c, shapes[0], items[0]);
      ItemsRoundTrip(Past(c, first), shapes[1..], items[1..]);
      assert items == [items[0]] + items[1..];
    }
  }

  lemma CountRoundTrip(c: Cursor, n: nat, most: nat, bytesPerItem: nat, items: seq<Byte>)
    requires n <= most && n < 0x1_0000_0000 && At(c, Little(n, 4) + items) && n * bytesPerItem <= |items|
    ensures TakeCount(c, most, bytesPerItem) == Read(Past(c, Little(n, 4)), Some(n))
  {
    hide Little;
    RangeOfEight();
    AtParts(c, Little(n, 4), items);
    WordRoundTrip(c, n, 4);
  }

  // ---- The writer -------------------------------------------------------------------------

  class ByteWriter {
    var bytes: seq<Byte>

    constructor ()
      ensures bytes == []
    {
      bytes := [];
    }

    method PutWord(v: nat, width: nat)
      modifies this
      ensures bytes == old(bytes) + Little(v, width)
    {
      var rest := v;
      for i := 0 to width
        invariant bytes + Little(rest, width - i) == old(bytes) + Little(v, width)
      {
        bytes := bytes + [rest % 256];
        rest := rest / 256;
      }
    }

    method PutRaw(s: seq<Byte>)
      modifies this
      ensures bytes == old(bytes) + s
    {
      bytes := bytes + s;
    }

    method Put(shape: Shape, item: Item)
      requires Fits(shape, item)
      modifies this
      ensures bytes == old(bytes) + Encoded(shape, item)
    {
      hide Little;
      match (shape, item)
      case (Word(n), Number(v)) => PutWord(v, n);
      case (Flag, Truth(b)) => PutRaw([if b then 1 else 0]);
      case (Signed, Quantity(i)) => PutWord(ToUnsigned(i), 8);
      case (Block(_), Raw(s)) => PutRaw(s);
      case (Text(_), Str(s)) =>
        PutWord(|s|, 4);
        PutRaw(TextBytes(s));
    }

    method PutAll(shapes: seq<Shape>, items: seq<Item>)
      requires AllFit(shapes, items)
      modifies this
      ensures bytes == old(bytes) + EncodedAll(shapes, items)
    {
      hide Encoded, Fits;
      for i := 0 to |shapes|
        invariant bytes + EncodedAll(shapes[i..], items[i..]) == old(bytes) + EncodedAll(shapes, items)
      {
        assert shapes[i..][1..] == shapes[i + 1..] && items[i..][1..] == items[i + 1..];
        assert Fits(shapes[i], items[i]);
        Put(shapes[i], items[i]);
      }
    }
  }

  // ---- The reader -------------------------------------------------------------------------

  class ByteReader {
    const data: seq<Byte>
    var offset: nat
    var error: Option<ErrorCode>

    ghost function Position(): Cursor
      reads this
    {
      Cursor(data, offset, error)
    }

    ghost predicate Valid()
      reads this
    {
      InBounds(Position())
    }

    constructor (data: seq<Byte>)
      ensures Valid() && Position() == Cursor(data, 0, None)
    {
      this.data := data;
      offset, error := 0, None;
    }

    /** Only the first failure is remembered. */
    method Fail(code: ErrorCode)
      modifies this`error
      ensures Position() == Failed(old(Position()), code)
    {
      if error.None? { error := Some(code); }
    }

    method Get(n: nat) returns (b: Option<seq<Byte>>)
      requires Valid()
      modifies this
      ensures Valid() && Read(Position(), b) == Take(old(Position()), n)
    {
      if error.Some? { return None; }
      if n > |data| - offset {
        Fail(TruncatedFrame);
        return None;
      }
      offset := offset + n;
      return Some(data[offset - n..offset]);
    }

    method GetWord(width: nat) returns (v: Option<nat>)
      requires Valid()
      modifies this
      ensures Valid() && Read(Position(), v) == TakeWord(old(Position()), width)
    {
      var b := Get(width);
      if b.None? { return None; }
      var value := Assemble(b.value);
      return Some(value);
    }

    method GetItem(shape: Shape) returns (item: Option<Item>)
      requires Valid()
      modifies this
      ensures Valid() && Read(Position(), item) == TakeItem(old(Position()), shape)
    {
      hide Value;
      match shape
      case Word(n) =>
        var v := GetWord(n);
        return if v.Some? then Some(Number(v.value)) else None;
      case Flag =>
        var v := GetWord(1);
        if v.None? { return None; }
        if v.value > 1 { Fail(MalformedData); return None; }
        return Some(Truth(v.value == 1));
      case Signed =>
        var b := Get(8);
        if b.None? { return None; }
        EightBytes(b.value);
        var v := Assemble(b.value);
        return Some(Quantity(ToSigned(v)));
      case Block(n) =>
        var b := Get(n);
        return if b.Some? then Some(Raw(b.value)) else None;
      case Text(limit) =>
        var declared := GetWord(4);
        if declared.None? { return None; }
        if declared.value > limit { Fail(BoundsExceeded); return None; }
        var b := Get(declared.value);
        return if b.Some? then Some(Str(BytesText(b.value))) else None;
    }

    method GetItems(shapes: seq<Shape>) returns (items: Option<seq<Item>>)
      requires Valid()
      modifies this
      ensures Valid() && Read(Position(), items) == TakeItems(old(Position()), shapes)
    {
      hide TakeItem;
      if error.Some? { return None; }
      var found: seq<Item> := [];
      ghost var start := Position();
      BehindNone(TakeItems(start, shapes));
      assert shapes[0..] == shapes;
      for i := 0 to |shapes|
        invariant Valid() && error.None? && |found| == i
        invariant TakeItems(start, shapes) == Behind(found, TakeItems(Position(), shapes[i..]))
      {
        assert shapes[i..][0] == shapes[i] && shapes[i..][1..] == shapes[i + 1..];
        var item := GetItem(shapes[i]);
        if item.None? { return None; }
        BehindOne(found, item.value, TakeItems(Position(), shapes[i + 1..]));
        found := found + [item.value];
      }
      assert shapes[|shapes|..] == [] && found + [] == found;
      return Some(found);
    }

    method GetCount(most: nat, bytesPerItem: nat) returns (n: Option<nat>)
      requires Valid()
      modifies this
      ensures Valid() && Read(Position(), n) == TakeCount(old(Position()), most, bytesPerItem)
    {
      hide TakeWord;
      n := GetWord(4);
      if n.None? { return None; }
      if n.value > most { Fail(BoundsExceeded); return None; }
      if bytesPerItem != 0 && n.value * bytesPerItem > |data| - offset { Fail(TruncatedFrame); return None; }
    }
  }

  /** The value of little-endian bytes, accumulated from the front. */
  method Assemble(b: seq<Byte>) returns (v: nat)
    ensures v == Value(b)
  {
    v := 0;
    var weight: nat := 1;
    for i := 0 to |b|
      invariant v + weight * Value(b[i..]) == Value(b)
    {
      assert b[i..][1..] == b[i + 1..];
      Weighted(weight, b[i], Value(b[i + 1..]));
      v := v + b[i] * weight;
      weight := weight * 256;
    }
    assert b[|b|..] == [];
  }

  lemma Weighted(weight: nat, b: nat, rest: nat)
    ensures weight * (b + 256 * rest) == b * weight + (weight * 256) * rest
  {
  }

  /** What has been found already, in front of what a read finds. */
  ghost function Behind<T>(found: seq<T>, r: Read<seq<T>>): Read<seq<T>> {
    Read(r.cursor, match r.value case Some(rest) => Some(found + rest) case None => None)
  }

  lemma BehindNone<T>(r: Read<seq<T>>)
    ensures Behind([], r) == r
  {
    if r.value.Some? { assert [] + r.value.value == r.value.value; }
  }

  lemma BehindOne<T>(found: seq<T>, x: T, r: Read<seq<T>>)
    ensures Behind(found, Behind([x], r)) == Behind(found + [x], r)
  {
    if r.value.Some? { assert found + ([x] + r.value.value) == (found + [x]) + r.value.value; }
  }
}
