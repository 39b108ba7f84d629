/** Canonical taxonomy tokens: trimmed, lower case, drawn from a small alphabet. */
module Token {
  import opened Prelude

  /** The white space of the C locale. */
  predicate IsSpace(c: char) { c as int in {9, 10, 11, 12, 13, 32} }

  function Lower(c: char): char { if 'A' <= c <= 'Z' then (c as int + 32) as char else c }

  predicate IsTokenChar(c: char) { 'a' <= c <= 'z' || '0' <= c <= '9' || c in {'.', '_', '+', '-'} }

  function TrimLeft(s: string): string { if s != "" && IsSpace(s[0]) then TrimLeft(s[1..]) else s }

  function TrimRight(s: string): string { if s != "" && IsSpace(s[|s| - 1]) then TrimRight(s[..|s| - 1]) else s }

  function Lowered(s: string): (t: string)
    ensures |t| == |s|
  {
    seq(|s|, i requires 0 <= i < |s| => Lower(s[i]))
  }

  predicate AllTokenChars(s: string) { forall i :: 0 <= i < |s| ==> IsTokenChar(s[i]) }

  function Canonical(token: string, limit: nat): Result<string> {
    var core := Lowered(TrimRight(TrimLeft(token)));
    if core == "" then Err(InvalidArgument)
    else if !AllTokenChars(core) then Err(InvalidArgument)
    else if |core| > limit then Err(BoundsExceeded)
    else Ok(core)
  }

  lemma TrimLeftAt(s: string, i: nat)
    requires i <= |s|
    ensures TrimLeft(s[i..]) == if i < |s| && IsSpace(s[i]) then TrimLeft(s[i + 1..]) else s[i..]
  {
    if i < |s| { assert s[i..][1..] == s[i + 1..]; }
  }

  lemma TrimRightAt(s: string, i: nat, j: nat)
    requires i <= j <= |s|
    ensures TrimRight(s[i..j]) == if i < j && IsSpace(s[j - 1]) then TrimRight(s[i..j - 1]) else s[i..j]
  {
    if i < j { assert s[i..j][..j - 1 - i] == s[i..j - 1]; }
  }

  /** Finds where the text begins and ends without the space around it. */
  method Trim(token: string) returns (begin: nat, end: nat)
    ensures begin <= end <= |token| && token[begin..end] == TrimRight(TrimLeft(token))
  {
    hide IsSpace, TrimLeft, TrimRight;
    begin := 0;
    assert token[0..] == token;
    TrimLeftAt(token, 0);
    while begin < |token| && IsSpace(token[begin])
      invariant begin <= |token| && TrimLeft(token[begin..]) == TrimLeft(token)
    {
      TrimLeftAt(token, begin);
      begin := begin + 1;
    }
    TrimLeftAt(token, begin);
    end := |token|;
    assert token[begin..end] == token[begin..] == TrimLeft(token);
    while end > begin && IsSpace(token[end - 1])
      invariant begin <= end <= |token| && TrimRight(token[begin..end]) == TrimRight(TrimLeft(token))
    {
      TrimRightAt(token, begin, end);
      end := end - 1;
    }
    TrimRightAt(token, begin, end);
  }

  method Canonicalize(token: string, limit: nat) returns (r: Result<string>)
    ensures r == Canonical(token, limit)
  {
    hide IsSpace, Lower, IsTokenChar, TrimLeft, TrimRight;
    var begin, end := Trim(token);
    ghost var core := token[begin..end];
    if begin == end { return Err(InvalidArgument); }
    var out := "";
    for i := begin to end
      invariant out == Lowered(core)[..i - begin] && AllTokenChars(out)
    {
      var lowered := Lower(token[i]);
      assert Lowered(core)[i - begin] == lowered;
      if !IsTokenChar(lowered) { return Err(InvalidArgument); }
      out := out + [lowered];
    }
    assert out == Lowered(core);
    return if |out| > limit then Err(BoundsExceeded) else Ok(out);
  }

  // ---- Canonical tokens are their own canonical form --------------------------------------

  lemma TokenCharsAreSettled(c: char)
    requires IsTokenChar(c)
    ensures !IsSpace(c) && Lower(c) == c
  {
  }

  /** Canonicalization is idempotent. */
  lemma CanonicalIsIdempotent(token: string, limit: nat)
    requires Canonical(token, limit).Ok?
    ensures
      var t := Canonical(token, limit).value;
      t != "" && AllTokenChars(t) && |t| <= limit && Canonical(t, limit) == Ok(t)
  {
    hide IsSpace, Lower, IsTokenChar;
    var t := Canonical(token, limit).value;
    TokenCharsAreSettled(t[0]);
    TokenCharsAreSettled(t[|t| - 1]);
    forall i | 0 <= i < |t|
      ensures Lower(t[i]) == t[i]
    {
      TokenCharsAreSettled(t[i]);
    }
    assert Lowered(t) == t;
  }

  /** Lower-case letters, digits, plus, minus, full stop and underscore, by their ASCII codes. */
  predicate PlainCharacter(c: char) { 97 <= c as int <= 122 || 48 <= c as int <= 57 || c as int in {43, 45, 46, 95} }

  predicate Plain(s: string) { forall i :: 0 <= i < |s| ==> PlainCharacter(s[i]) }

  /** A text of these characters that is not too long is its own canonical form, and nothing else is. */
  lemma CanonicalIff(t: string, limit: nat)
    ensures Canonical(t, limit) == Ok(t) <==> t != "" && |t| <= limit && Plain(t)
  {
    assert forall c :: IsTokenChar(c) <==> PlainCharacter(c);
    if Canonical(t, limit) == Ok(t) {
      CanonicalIsIdempotent(t, limit);
    }
    if t != "" && Plain(t) {
      forall i | 0 <= i < |t| ensures !IsSpace(t[i]) && Lower(t[i]) == t[i] { TokenCharsAreSettled(t[i]); }
      assert TrimLeft(t) == t && TrimRight(t) == t && Lowered(t) == t;
    }
  }

  /** Space before a text does not matter, and neither does the case of its letters. */
  lemma CanonicalIgnoresSpace(t: string, limit: nat, c: char)
    requires IsSpace(c)
    ensures Canonical([c] + t, limit) == Canonical(t, limit)
  {
    assert ([c] + t)[1..] == t;
    hide Lowered, TrimRight;
  }

  lemma CanonicalIgnoresCase(t: string, limit: nat)
    requires t != "" && |t| <= limit && Plain(Lowered(t)) && !IsSpace(t[0]) && !IsSpace(t[|t| - 1])
    ensures Canonical(t, limit) == Ok(Lowered(t))
  {
    assert forall c :: IsTokenChar(c) <==> PlainCharacter(c);
    assert TrimLeft(t) == t && TrimRight(t) == t;
  }
}
