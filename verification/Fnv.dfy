/** The 64-bit FNV-1a digest that closes every frame. */
module Fnv {

  const OFFSET_BASIS: bv64 := 0xCBF2_9CE4_8422_2325

  /** Multiplication by the FNV prime, modulo 2^64. */
  function Scale(x: bv64): bv64 { x * 0x0000_0100_0000_01B3 }

  function Mix(state: bv64, b: bv8): bv64 { state ^ (b as bv64) }

  function Step(state: bv64, b: bv8): bv64 { Scale(Mix(state, b)) }

  function Digest(state: bv64, data: seq<bv8>): bv64
    decreases |data|
  {
    if data == [] then state else Digest(Step(state, data[0]), data[1..])
  }

  method Update(state: bv64, data: seq<bv8>) returns (digest: bv64)
    ensures digest == Digest(state, data)
  {
    hide Step;
    digest := state;
    for i := 0 to |data|
      invariant Digest(digest, data[i..]) == Digest(state, data)
    {
      assert data[i..][0] == data[i] && data[i..][1..] == data[i + 1..];
      digest := Step(digest, data[i]);
    }
  }

  /** The digests of the empty message and of the letter a. */
  lemma KnownDigests()
    ensures Digest(OFFSET_BASIS, []) == 0xCBF2_9CE4_8422_2325 && Digest(OFFSET_BASIS, [0x61]) == 0xAF63_DC4C_8601_EC8C
  {
    assert [0x61 as bv8][1..] == [];
    assert Step(OFFSET_BASIS, 0x61) == 0xAF63_DC4C_8601_EC8C;
  }

  predicate IsScaled(x: bv64, p: bv64) { p == x * 0x0000_0100_0000_01B3 }

  /** The prime is odd, so multiplying by it loses nothing. */
  lemma PrimeIsInvertible(x: bv64, y: bv64, p: bv64)
    requires IsScaled(x, p) && IsScaled(y, p)
    ensures x == y
  {
  }

  lemma ScaleScales(x: bv64)
    ensures IsScaled(x, Scale(x))
  {
  }

  lemma ScaleIsInjective(x: bv64, y: bv64)
    requires Scale(x) == Scale(y)
    ensures x == y
  {
    hide Scale, IsScaled;
    ScaleScales(x);
    ScaleScales(y);
    PrimeIsInvertible(x, y, Scale(x));
  }

  lemma MixIsInjective(s: bv64, t: bv64, b: bv8, c: bv8)
    ensures Mix(s, b) == Mix(t, b) ==> s == t
    ensures Mix(s, b) == Mix(s, c) ==> b == c
  {
  }

  lemma {:induction false} DigestIsInjective(s: bv64, t: bv64, data: seq<bv8>)
    requires Digest(s, data) == Digest(t, data)
    ensures s == t
    decreases |data|
  {
    hide Scale, Mix;
    if data != [] {
      DigestIsInjective(Step(s, data[0]), Step(t, data[0]), data[1..]);
      ScaleIsInjective(Mix(s, data[0]), Mix(t, data[0]));
      MixIsInjective(s, t, data[0], data[0]);
    }
  }

  /** Changing exactly one byte changes the digest. */
  lemma {:induction false} OneByteChangesDigest(state: bv64, data: seq<bv8>, i: nat, b: bv8)
    requires i < |data| && data[i] != b
    ensures Digest(state, data[i := b]) != Digest(state, data)
    decreases |data|
  {
    hide Scale, Mix;
    if i == 0 {
      assert data[0 := b][1..] == data[1..];
      MixIsInjective(state, state, data[0], b);
      if Digest(state, data[0 := b]) == Digest(state, data) {
        DigestIsInjective(Step(state, b), Step(state, data[0]), data[1..]);
        ScaleIsInjective(Mix(state, b), Mix(state, data[0]));
      }
    } else {
      assert data[i := b][1..] == data[1..][i - 1 := b];
      OneByteChangesDigest(Step(state, data[0]), data[1..], i - 1, b);
    }
  }
}
