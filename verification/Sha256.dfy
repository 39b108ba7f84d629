/** The streaming form of SHA-256: bytes arrive in pieces of any size, are buffered into blocks of
    64 and compressed. The compression function is a parameter, so everything here holds for
    whatever it computes. */
module Sha256 {

  type Byte = b: int | 0 <= b < 256

  type Word = w: int | 0 <= w < 0x1_0000_0000

  type Compression = (seq<Word>, seq<Byte>) -> seq<Word>

  const BLOCK := 64
  const LENGTH_RANGE := 0x1_0000_0000_0000_0000

  /** Section 5.3.3 of FIPS 180-4. */
  const INITIAL: seq<Word> :=
    [0x6a09e667, 0xbb67ae85, 0x3c6ef372, 0xa54ff53a, 0x510e527f, 0x9b05688c, 0x1f83d9ab, 0x5be0cd19]

  // ---- The one-shot definition ------------------------------------------------------------

  /** Compresses whole blocks in order: sections 5.2.1 and 6.2.2 of FIPS 180-4. */
  ghost function Fold(compress: Compression, state: seq<Word>, data: seq<Byte>): seq<Word>
    decreases |data|
  {
    if |data| < BLOCK then state else Fold(compress, compress(state, data[..BLOCK]), data[BLOCK..])
  }

  function Power(n: nat): (p: nat)
    ensures p >= 1
  {
    if n == 0 then 1 else 256 * Power(n - 1)
  }

  function ByteOf(v: nat, place: nat): Byte { v / Power(place) % 256 }

  /** The `n` low-order bytes of a number, most significant first. */
  function BigEndian(v: nat, n: nat): (bytes: seq<Byte>)
    ensures |bytes| == n
  {
    seq(n, i requires 0 <= i < n => ByteOf(v, n - 1 - i))
  }

  ghost function Zeros(n: nat): (bytes: seq<Byte>)
    ensures |bytes| == n
  {
    seq(n, _ => 0)
  }

  /** After a message of `n` bytes, its marker and `zeros` zeros, exactly eight bytes remain to
      the end of a block. */
  predicate LeavesEight(n: nat, zeros: nat) { (n + 1 + zeros) % BLOCK == 56 }

  /** How many zero bytes bring a message and its marker to 56 bytes past a block boundary. */
  function ZeroCount(n: nat): (k: nat) { (55 - n) % BLOCK }

  ghost function Pad(data: seq<Byte>): (padded: seq<Byte>) {
    data + [0x80] + Zeros(ZeroCount(|data|)) + BigEndian(8 * |data| % LENGTH_RANGE, 8)
  }

  function DigestOf(state: seq<Word>): seq<Byte> {
    if state == [] then [] else BigEndian(state[0], 4) + DigestOf(state[1..])
  }

  /** The digest of a whole message. */
  ghost function Digest(compress: Compression, data: seq<Byte>): seq<Byte> {
    DigestOf(Fold(compress, INITIAL, Pad(data)))
  }

  // ---- The padding is that of the standard ------------------------------------------------

  ghost function ValueOf(bytes: seq<Byte>): nat {
    if bytes == [] then 0 else 256 * ValueOf(bytes[..|bytes| - 1]) + bytes[|bytes| - 1]
  }

  lemma {:induction false} BigEndianValue(v: nat, n: nat)
    ensures ValueOf(BigEndian(v, n)) == v % Power(n)
  {
    if n > 0 {
      var bytes := BigEndian(v, n);
      forall i | 0 <= i < n - 1
        ensures bytes[i] == BigEndian(v / 256, n - 1)[i]
      {
        DivideTwice(v, Power(n - 2 - i));
        assert Power(n - 1 - i) == 256 * Power(n - 2 - i);
        assert bytes[i] == ByteOf(v, n - 1 - i) && BigEndian(v / 256, n - 1)[i] == ByteOf(v / 256, n - 2 - i);
      }
      assert bytes[..n - 1] == BigEndian(v / 256, n - 1);
      BigEndianValue(v / 256, n - 1);
      assert bytes[n - 1] == ByteOf(v, 0) && Power(0) == 1;
      SplitRemainder(v, Power(n - 1));
    }
  }

  lemma DivideTwice(v: nat, p: nat)
    requires p >= 1
    ensures v / (256 * p) == v / 256 / p
  {
    var q, r := v / 256, v % 256;
    var a, b := q / p, q % p;
    assert v == 256 * (p * a + b) + r;
    assert v == (256 * p) * a + (256 * b + r);
    assert 0 <= 256 * b + r < 256 * p;
    DivisionIsUnique(v, 256 * p, a, 256 * b + r);
  }

  lemma DivisionIsUnique(v: nat, d: nat, q: nat, r: nat)
    requires d >= 1 && v == d * q + r && r < d
    ensures v / d == q && v % d == r
  {
    var k := v / d - q;
    assert v == d * (v / d) + v % d;
    assert d * k == r - v % d;
    if k != 0 { MultipleIsLarge(d, k); }
  }

  lemma MultipleIsLarge(d: nat, k: int)
    requires d >= 1 && k != 0
    ensures d * k >= d || d * k <= -(d as int)
  {
    if k >= 1 { assert d * (k - 1) >= 0; } else { assert d * (-k - 1) >= 0; }
  }

  lemma SplitRemainder(v: nat, p: nat)
    requires p >= 1
    ensures v % (256 * p) == 256 * (v / 256 % p) + v % 256
  {
    var q, r := v / 256, v % 256;
    var a, b := q / p, q % p;
    assert v == 256 * (p * a + b) + r;
    assert v == (256 * p) * a + (256 * b + r);
    DivisionIsUnique(v, 256 * p, a, 256 * b + r);
  }

  /** Section 5.1.1 of FIPS 180-4, in bytes: the marker, the least number of zeros that leaves
      exactly eight bytes to the end of a block, and the length in bits. */
  lemma PaddingIsStandard(data: seq<Byte>)
    requires |data| < 0x2000_0000_0000_0000
    ensures
      var k, padded := ZeroCount(|data|), Pad(data);
      && LeavesEight(|data|, k) && (forall j: nat :: j < k ==> !LeavesEight(|data|, j))
      && |padded| == |data| + 1 + k + 8 && |padded| % BLOCK == 0
      && padded[..|data|] == data && padded[|data|] == 0x80
      && (forall i :: |data| < i < |padded| - 8 ==> padded[i] == 0)
      && ValueOf(padded[|padded| - 8..]) == 8 * |data|
  {
    hide ValueOf, BigEndian, ZeroCount, LeavesEight, Pad;
    LeastZeros(|data|);
    PadShape(data);
    LengthField(|data|);
  }

  lemma PadShape(data: seq<Byte>)
    ensures
      var padded := Pad(data);
      && |padded| == |data| + 1 + ZeroCount(|data|) + 8
      && padded[..|data|] == data && padded[|data|] == 0x80
      && (forall i :: |data| < i < |padded| - 8 ==> padded[i] == 0)
      && padded[|padded| - 8..] == BigEndian(8 * |data| % LENGTH_RANGE, 8)
  {
    hide BigEndian, ZeroCount;
  }

  lemma LengthField(n: nat)
    requires n < 0x2000_0000_0000_0000
    ensures ValueOf(BigEndian(8 * n % LENGTH_RANGE, 8)) == 8 * n
  {
    hide BigEndian, ValueOf;
    PowerOfEight();
    BigEndianValue(8 * n, 8);
  }

  lemma LeastZeros(n: nat)
    ensures LeavesEight(n, ZeroCount(n)) && (n + 1 + ZeroCount(n) + 8) % BLOCK == 0
    ensures forall j: nat :: j < ZeroCount(n) ==> !LeavesEight(n, j)
  {
    forall j: nat | j < BLOCK && LeavesEight(n, j)
      ensures j == ZeroCount(n)
    {
      OnlyZeros(n, j);
    }
  }

  lemma OnlyZeros(n: nat, j: nat)
    requires j < BLOCK && LeavesEight(n, j)
    ensures j == ZeroCount(n)
  {
    var a := (n + 1 + j) / BLOCK;
    assert 55 - n == j + BLOCK * (-a);
    assert (55 - n) % BLOCK == j % BLOCK;
  }

  lemma PowerOfEight()
    ensures Power(8) == LENGTH_RANGE
  {
    assert Power(2) == 0x1_0000;
    assert Power(4) == 0x1_0000_0000;
    assert Power(6) == 0x1_0000_0000_0000;
  }

  // ---- Folding in pieces ------------------------------------------------------------------

  lemma {:induction false} FoldStep(compress: Compression, state: seq<Word>, data: seq<Byte>, done: nat)
    requires done % BLOCK == 0 && done + BLOCK <= |data|
    ensures Fold(compress, state, data[..done + BLOCK]) == compress(Fold(compress, state, data[..done]), data[done..done + BLOCK])
    decreases done
  {
    var whole := data[..done + BLOCK];
    if done == 0 {
      assert whole[BLOCK..] == [] && whole[..BLOCK] == data[0..BLOCK];
    } else {
      var head, rest := data[..BLOCK], data[BLOCK..];
      assert whole[..BLOCK] == head && whole[BLOCK..] == rest[..done];
      assert data[..done][..BLOCK] == head && data[..done][BLOCK..] == rest[..done - BLOCK];
      FoldStep(compress, compress(state, head), rest, done - BLOCK);
      assert rest[done - BLOCK..done] == data[done..done + BLOCK];
    }
  }

  // ---- The streaming object ---------------------------------------------------------------

  class Hasher {
    const compress: Compression
    var state: seq<Word>
    const buffer: array<Byte>
    var buffered: nat
    var totalBits: nat
    ghost var seen: seq<Byte>

    /** `done` bytes of `all` are compressed and the next `buffered` wait in the buffer. */
    ghost predicate Holds(all: seq<Byte>, done: nat)
      reads this`state, this`buffered, buffer
    {
      && buffer.Length == BLOCK && buffered <= BLOCK && done % BLOCK == 0 && done + buffered <= |all|
      && state == Fold(compress, INITIAL, all[..done])
      && buffer[..buffered] == all[done..done + buffered]
    }

    ghost predicate Valid()
      reads this, buffer
    {
      && buffered < BLOCK && buffered <= |seen| && Holds(seen, |seen| - buffered)
      && totalBits == 8 * |seen| % LENGTH_RANGE
    }

    constructor (compress: Compression)
      ensures Valid() && seen == [] && this.compress == compress && fresh(buffer)
    {
      this.compress := compress;
      state := INITIAL;
      buffer := new Byte[BLOCK](_ => 0);
      buffered, totalBits := 0, 0;
      seen := [];
    }

    method CompressBuffer(ghost all: seq<Byte>, ghost done: nat)
      requires buffered == BLOCK && Holds(all, done)
      modifies this`state, this`buffered
      ensures buffered == 0 && Holds(all, done + BLOCK)
    {
      FoldStep(compress, INITIAL, all, done);
      state := compress(state, buffer[..]);
      assert buffer[..] == buffer[..BLOCK];
      buffered := 0;
      assert all[done + BLOCK..done + BLOCK] == [];
    }

    method Push(b: Byte, ghost all: seq<Byte>, ghost done: nat)
      requires buffered < BLOCK && Holds(all, done) && done + buffered < |all| && all[done + buffered] == b
      modifies this`buffered, buffer
      ensures buffered == old(buffered) + 1 && Holds(all, done)
    {
      buffer[buffered] := b;
      buffered := buffered + 1;
      assert buffer[..buffered] == buffer[..buffered - 1] + [b];
      assert all[done..done + buffered] == all[done..done + buffered - 1] + [b];
    }

    lemma Extends(all: seq<Byte>, more: seq<Byte>, done: nat)
      requires Holds(all, done)
      ensures Holds(all + more, done)
    {
      hide Fold;
      assert (all + more)[..done] == all[..done] && (all + more)[done..done + buffered] == all[done..done + buffered];
    }

    /** Tops up a partly filled buffer and compresses it once it is full. */
    method TopUp(bytes: seq<Byte>, ghost all: seq<Byte>, ghost done: nat) returns (offset: nat, ghost done': nat)
      requires 0 < buffered < BLOCK && Holds(all, done) && |all| == done + buffered + |bytes| && all[done + buffered..] == bytes
      modifies this`state, this`buffered, buffer
      ensures offset <= |bytes| && Holds(all, done') && done' + buffered == |all| - |bytes| + offset && buffered < BLOCK
      ensures buffered == 0 || offset == |bytes|
    {
      offset, done' := 0, done;
      while offset < |bytes| && buffered < BLOCK
        invariant offset <= |bytes| && Holds(all, done) && done + buffered == |all| - |bytes| + offset
      {
        assert all[done + buffered] == all[|all| - |bytes|..][offset];
        Push(bytes[offset], all, done);
        offset := offset + 1;
      }
      if buffered == BLOCK {
        CompressBuffer(all, done);
        done' := done + BLOCK;
      }
    }

    /** Compresses whole blocks straight from the input. */
    method CompressWhole(bytes: seq<Byte>, start: nat, ghost all: seq<Byte>, ghost done: nat) returns (offset: nat, ghost done': nat)
      requires start <= |bytes| <= |all| && all[|all| - |bytes|..] == bytes && Holds(all, done)
      requires done + buffered == |all| - |bytes| + start && (buffered == 0 || start == |bytes|)
      modifies this`state
      ensures offset <= |bytes| && Holds(all, done') && done' + buffered == |all| - |bytes| + offset
      ensures |bytes| - offset < BLOCK && (buffered == 0 || offset == |bytes|)
    {
      offset, done' := start, done;
      while |bytes| - offset >= BLOCK
        invariant offset <= |bytes| && Holds(all, done') && done' + buffered == |all| - |bytes| + offset
        invariant buffered == 0 || offset == |bytes|
      {
        FoldStep(compress, INITIAL, all, done');
        assert all[done'..done' + BLOCK] == all[|all| - |bytes|..][offset..offset + BLOCK];
        state := compress(state, bytes[offset..offset + BLOCK]);
        done' := done' + BLOCK;
        offset := offset + BLOCK;
        assert all[done'..done' + buffered] == [];
      }
    }

    /** Keeps what is left for the next block. */
    method KeepRest(bytes: seq<Byte>, start: nat, ghost all: seq<Byte>, ghost done: nat)
      requires start <= |bytes| <= |all| && all[|all| - |bytes|..] == bytes && Holds(all, done)
      requires done + buffered == |all| - |bytes| + start && buffered + (|bytes| - start) < BLOCK
      modifies this`buffered, buffer
      ensures Holds(all, done) && done + buffered == |all| && buffered < BLOCK
    {
      var offset := start;
      while offset < |bytes|
        invariant offset <= |bytes| && Holds(all, done) && done + buffered == |all| - |bytes| + offset
        invariant buffered + (|bytes| - offset) < BLOCK
      {
        assert all[done + buffered] == all[|all| - |bytes|..][offset];
        Push(bytes[offset], all, done);
        offset := offset + 1;
      }
    }

    /** Compresses what fills whole blocks and buffers the rest. */
    method Absorb(bytes: seq<Byte>, ghost all: seq<Byte>, ghost done: nat)
      requires buffered < BLOCK && Holds(all, done) && done + buffered + |bytes| == |all| && all[done + buffered..] == bytes
      modifies this`state, this`buffered, buffer
      ensures buffered < BLOCK && buffered <= |all| && Holds(all, |all| - buffered)
    {
      hide Holds;
      var offset := 0;
      ghost var done' := done;
      if buffered != 0 { offset, done' := TopUp(bytes, all, done'); }
      offset, done' := CompressWhole(bytes, offset, all, done');
      KeepRest(bytes, offset, all, done');
    }

    /** Adds bytes to the message. */
    method Update(bytes: seq<Byte>)
      requires Valid()
      modifies this, buffer
      ensures Valid() && seen == old(seen) + bytes
    {
      hide Holds;
      BitsAdd(|seen|, |bytes|);
      totalBits := (totalBits + 8 * |bytes|) % LENGTH_RANGE;
      Extends(seen, bytes, |seen| - buffered);
      seen := seen + bytes;
      assert seen[|seen| - |bytes|..] == bytes;
      Absorb(bytes, seen, |seen| - |bytes| - buffered);
    }

    /** Appends the marker and the zeros. */
    method PadToLength()
      requires Valid()
      modifies this, buffer
      ensures Valid() && buffered == 56 && seen == old(seen) + [0x80] + Zeros(ZeroCount(|old(seen)|))
    {
      hide Fold, ZeroCount;
      ghost var data := seen;
      Update([0x80]);
      ghost var zeros := 0;
      LeastZeros(|data|);
      assert data + [0x80] + Zeros(0) == data + [0x80];
      while buffered != 56
        invariant Valid() && zeros <= ZeroCount(|data|) && seen == data + [0x80] + Zeros(zeros)
        decreases ZeroCount(|data|) - zeros
      {
        Remainder(|seen|, buffered);
        assert !LeavesEight(|data|, zeros);
        Update([0]);
        MoreZeros(data + [0x80], zeros);
        zeros := zeros + 1;
      }
      Remainder(|seen|, buffered);
      assert LeavesEight(|data|, zeros);
    }

    /** Finishes the message and returns its digest; the object is spent. */
    method Finalize() returns (digest: seq<Byte>)
      requires Valid()
      modifies this, buffer
      ensures digest == Digest(compress, old(seen))
    {
      hide Fold, BigEndian, ByteOf, ZeroCount, DigestOf;
      ghost var data := seen;
      var bits := totalBits;
      PadToLength();
      ghost var all := seen + BigEndian(bits, 8);
      assert all == Pad(data);
      ghost var done := |seen| - buffered;
      Extends(seen, BigEndian(bits, 8), done);
      assert all[done + 56..] == BigEndian(bits, 8);
      WriteLength(bits, all, done);
      CompressBuffer(all, done);
      assert all[..done + BLOCK] == all;
      digest := Render();
    }

    method WriteLength(bits: nat, ghost all: seq<Byte>, ghost done: nat)
      requires buffered == 56 && Holds(all, done) && |all| == done + BLOCK && all[done + 56..] == BigEndian(bits, 8)
      modifies this`buffered, buffer
      ensures buffered == BLOCK && Holds(all, done)
    {
      var i := 8;
      while i > 0
        invariant 0 <= i <= 8 && buffered == BLOCK - i && Holds(all, done)
      {
        i := i - 1;
        assert all[done + buffered] == all[done + 56..][7 - i];
        Push(ByteOf(bits, i), all, done);
      }
    }

    method Render() returns (digest: seq<Byte>)
      ensures digest == DigestOf(state)
    {
      digest := [];
      var i := 0;
      while i < |state|
        invariant i <= |state| && digest + DigestOf(state[i..]) == DigestOf(state)
      {
        assert state[i..][0] == state[i] && state[i..][1..] == state[i + 1..];
        ghost var before := digest;
        digest := digest + [ByteOf(state[i], 3), ByteOf(state[i], 2), ByteOf(state[i], 1), ByteOf(state[i], 0)];
        assert digest == before + BigEndian(state[i], 4);
        i := i + 1;
      }
    }
  }

  lemma BitsAdd(n: nat, m: nat)
    ensures (8 * n % LENGTH_RANGE + 8 * m) % LENGTH_RANGE == 8 * (n + m) % LENGTH_RANGE
  {
  }

  lemma MoreZeros(data: seq<Byte>, zeros: nat)
    ensures data + Zeros(zeros) + [0] == data + Zeros(zeros + 1)
  {
    assert Zeros(zeros) + [0] == Zeros(zeros + 1);
  }

  lemma Remainder(n: nat, r: nat)
    requires r < BLOCK && r <= n && (n - r) % BLOCK == 0
    ensures n % BLOCK == r
  {
  }

  // ---- Chunking does not matter -----------------------------------------------------------

  function Concat(chunks: seq<seq<Byte>>): seq<Byte> {
    if chunks == [] then [] else Concat(chunks[..|chunks| - 1]) + chunks[|chunks| - 1]
  }

  /** However a message is cut into updates, the digest is that of the whole message. */
  method HashChunks(compress: Compression, chunks: seq<seq<Byte>>) returns (digest: seq<Byte>)
    ensures digest == Digest(compress, Concat(chunks))
  {
    var hasher := new Hasher(compress);
    assert chunks[..0] == [];
    for i := 0 to |chunks|
      invariant hasher.Valid() && hasher.seen == Concat(chunks[..i])
      invariant fresh(hasher) && fresh(hasher.buffer) && hasher.compress == compress
    {
      hasher.Update(chunks[i]);
      assert chunks[..i + 1][..i] == chunks[..i];
    }
    assert chunks[..|chunks|] == chunks;
    digest := hasher.Finalize();
  }
}
