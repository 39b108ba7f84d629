/** Semantic versions, their precedence, and version ranges. */
module Version {
  import opened Prelude
  import opened Ordering

  type U32 = n: nat | n < 0x1_0000_0000

  datatype SemanticVersion = SemanticVersion(major: U32, minor: U32, patch: U32, prerelease: string, build: string)

  const ZERO_VERSION := SemanticVersion(0, 0, 0, "", "")

  datatype Order = Less | Equal | Greater {
    function Flip(): Order {
      match this
      case Less => Greater
      case Equal => Equal
      case Greater => Less
    }
  }

  // ---- Text helpers -----------------------------------------------------------------------

  /** First index at or after `from` that holds `c`, or the length when there is none. */
  function IndexOf(s: string, c: char, from: nat): (i: nat)
    requires from <= |s|
    ensures from <= i <= |s|
    ensures i < |s| ==> s[i] == c
    ensures forall k :: from <= k < i ==> s[k] != c
    decreases |s| - from
  {
    if from == |s| || s[from] == c then from else IndexOf(s, c, from + 1)
  }

  predicate IsDigit(c: char) { '0' <= c <= '9' }

  predicate IsIdentifierChar(c: char) {
    IsDigit(c) || 'a' <= c <= 'z' || 'A' <= c <= 'Z' || c == '-'
  }

  predicate IsSpace(c: char) {
    c == ' ' || c == '\t' || c == '\n' || c == '\r' || c == '\U{0B}' || c == '\U{0C}'
  }

  predicate AllDigits(s: string) { forall i :: 0 <= i < |s| ==> IsDigit(s[i]) }

  predicate IsNumeric(s: string) { s != "" && AllDigits(s) }

  function Value(s: string): nat
    requires AllDigits(s)
  {
    if s == "" then 0 else Value(s[..|s| - 1]) * 10 + (s[|s| - 1] as int - '0' as int)
  }

  function ParseU32(s: string): Option<U32> {
    if 1 <= |s| <= 10 && AllDigits(s) && Value(s) < 0x1_0000_0000 then Some(Value(s)) else None
  }

  function Decimal(n: nat): string {
    (if n < 10 then "" else Decimal(n / 10)) + [('0' as int + n % 10) as char]
  }

  lemma {:induction false} DecimalReads(n: nat)
    ensures IsNumeric(Decimal(n)) && Value(Decimal(n)) == n
  {
    var s := Decimal(n);
    if n >= 10 {
      DecimalReads(n / 10);
      assert s[..|s| - 1] == Decimal(n / 10);
    } else {
      assert s[..|s| - 1] == "";
    }
  }

  lemma DecimalLength(n: nat)
    ensures n < 0x1_0000_0000 ==> |Decimal(n)| <= 10
  {
    var a := n / 10; var b := a / 10; var c := b / 10; var d := c / 10; var e := d / 10;
    var f := e / 10; var g := f / 10; var h := g / 10; var i := h / 10;
    if n < 0x1_0000_0000 {
      assert i < 10;
      assert |Decimal(i)| == 1;
      assert |Decimal(h)| <= 2 && |Decimal(g)| <= 3 && |Decimal(f)| <= 4 && |Decimal(e)| <= 5;
      assert |Decimal(d)| <= 6 && |Decimal(c)| <= 7 && |Decimal(b)| <= 8 && |Decimal(a)| <= 9;
    }
  }

  /** Printing a 32-bit number and reading it back is the identity. */
  lemma DecimalRoundTrip(n: U32)
    ensures ParseU32(Decimal(n)) == Some(n)
  {
    DecimalReads(n);
    DecimalLength(n);
  }

  /** The dot-separated identifiers of a text; one empty identifier for the empty text. */
  function Split(s: string): (parts: seq<string>)
    ensures |parts| >= 1
    decreases |s|
  {
    var d := IndexOf(s, '.', 0);
    if d == |s| then [s] else [s[..d]] + Split(s[d + 1..])
  }

  predicate ValidIdentifier(p: string) { p != "" && forall i :: 0 <= i < |p| ==> IsIdentifierChar(p[i]) }

  predicate ValidIdentifiers(s: string) {
    var parts := Split(s);
    forall i :: 0 <= i < |parts| ==> ValidIdentifier(parts[i])
  }

  // ---- Precedence -------------------------------------------------------------------------

  function CompareNat(a: nat, b: nat): Order {
    if a < b then Less else if a == b then Equal else Greater
  }

  /** A numeric identifier that does not fit 32 bits is read as zero. */
  function NumericKey(s: string): U32 {
    match ParseU32(s) case Some(n) => n case None => 0
  }

  function CompareIdentifier(x: string, y: string): Order {
    if IsNumeric(x) && IsNumeric(y) then CompareNat(NumericKey(x), NumericKey(y))
    else if IsNumeric(x) then Less
    else if IsNumeric(y) then Greater
    else if x == y then Equal
    else if StringLess(x, y) then Less else Greater
  }

  function HeadOrEmpty(xs: seq<string>): string { if xs == [] then "" else xs[0] }

  function Tail(xs: seq<string>): seq<string> { if xs == [] then [] else xs[1..] }

  /** Identifier by identifier, a list that has run out supplying empty identifiers. */
  function ComparePadded(xs: seq<string>, ys: seq<string>): Order
    decreases |xs| + |ys|
  {
    if xs == [] && ys == [] then Equal
    else
      var c := CompareIdentifier(HeadOrEmpty(xs), HeadOrEmpty(ys));
      if c != Equal then c else ComparePadded(Tail(xs), Tail(ys))
  }

  function ComparePrerelease(a: string, b: string): Order {
    if a == "" && b == "" then Equal
    else if a == "" then Greater
    else if b == "" then Less
    else ComparePadded(Split(a), Split(b))
  }

  function Compare(a: SemanticVersion, b: SemanticVersion): Order {
    if a.major != b.major then CompareNat(a.major, b.major)
    else if a.minor != b.minor then CompareNat(a.minor, b.minor)
    else if a.patch != b.patch then CompareNat(a.patch, b.patch)
    else ComparePrerelease(a.prerelease, b.prerelease)
  }

  lemma SplitAt(s: string, from: nat)
    requires from <= |s|
    ensures var d := IndexOf(s, '.', from);
            Split(s[from..]) == if d == |s| then [s[from..]] else [s[from..d]] + Split(s[d + 1..])
  {
    var t := s[from..];
    var d, e := IndexOf(s, '.', from), IndexOf(t, '.', 0);
    assert forall k :: 0 <= k < |t| ==> t[k] == s[from + k];
    assert d == from + e by {
      assert forall k :: from <= k < |s| ==> s[k] == t[k - from];
    }
    if d < |s| {
      assert t[..e] == s[from..d] && t[e + 1..] == s[d + 1..];
    }
  }

  lemma PaddedStep(xs: seq<string>, ys: seq<string>)
    ensures var c := CompareIdentifier(HeadOrEmpty(xs), HeadOrEmpty(ys));
            ComparePadded(xs, ys) == if c != Equal then c else ComparePadded(Tail(xs), Tail(ys))
  {
    assert CompareIdentifier("", "") == Equal;
  }

  lemma OneEmptyIdentifierIsPadding(ys: seq<string>)
    ensures ComparePadded([""], ys) == ComparePadded([], ys)
    ensures ComparePadded(ys, [""]) == ComparePadded(ys, [])
  {
    if ys == [] {
      assert CompareIdentifier("", "") == Equal;
    }
  }

  lemma BothEnded()
    ensures ComparePadded(Split(""), Split("")) == Equal
  {
    assert Split("") == [""];
    OneEmptyIdentifierIsPadding([""]);
    OneEmptyIdentifierIsPadding([]);
  }

  /** Where the scan continues after the identifier that starts at `from`. */
  function Cursor(s: string, from: nat): (i: nat)
    requires from <= |s|
    ensures from <= i <= |s| && (from < |s| ==> from < i)
  {
    var d := IndexOf(s, '.', from);
    if d == |s| then |s| else d + 1
  }

  lemma CursorSplits(s: string, from: nat, ys: seq<string>)
    requires from <= |s|
    ensures var rest := Split(s[from..])[1..];
            && ComparePadded(rest, ys) == ComparePadded(Split(s[Cursor(s, from)..]), ys)
            && ComparePadded(ys, rest) == ComparePadded(ys, Split(s[Cursor(s, from)..]))
  {
    hide ComparePadded, IndexOf;
    SplitAt(s, from);
    OneEmptyIdentifierIsPadding(ys);
    NothingSplits();
    hide Split;
    var d := IndexOf(s, '.', from);
    if d == |s| {
      assert s[|s|..] == "" && [s[from..]][1..] == [];
    } else {
      assert ([s[from..d]] + Split(s[d + 1..]))[1..] == Split(s[d + 1..]);
    }
  }

  lemma NothingSplits()
    ensures Split("") == [""]
  {
  }

  /** The verdict that remains to be found when the cursors stand at `ai` and `bi`. */
  ghost function Remaining(a: string, ai: nat, b: string, bi: nat): Order
    requires ai <= |a| && bi <= |b|
  {
    ComparePadded(Split(a[ai..]), Split(b[bi..]))
  }

  /** One turn of the scan compares one identifier of each list. */
  lemma ScanStep(a: string, ai: nat, b: string, bi: nat)
    requires ai <= |a| && bi <= |b|
    ensures var c := CompareIdentifier(a[ai..IndexOf(a, '.', ai)], b[bi..IndexOf(b, '.', bi)]);
            Remaining(a, ai, b, bi) ==
            if c != Equal then c else Remaining(a, Cursor(a, ai), b, Cursor(b, bi))
  {
    var xs, ys := Split(a[ai..]), Split(b[bi..]);
    var ap, bp := a[ai..IndexOf(a, '.', ai)], b[bi..IndexOf(b, '.', bi)];
    assert xs[0] == ap by { SplitAt(a, ai); assert a[ai..|a|] == a[ai..]; }
    assert ys[0] == bp by { SplitAt(b, bi); assert b[bi..|b|] == b[bi..]; }
    PaddedStep(xs, ys);
    var xs', ys' := Split(a[Cursor(a, ai)..]), Split(b[Cursor(b, bi)..]);
    calc {
      ComparePadded(xs[1..], ys[1..]);
      { CursorSplits(a, ai, ys[1..]); }
      ComparePadded(xs', ys[1..]);
      { CursorSplits(b, bi, xs'); }
      ComparePadded(xs', ys');
    }
  }

  /** The scan over both texts with two cursors agrees with the comparison of identifier lists. */
  method ScanPrerelease(a: string, b: string) returns (order: Order)
    ensures order == ComparePrerelease(a, b)
  {
    if a == "" && b == "" { return Equal; }
    if a == "" { return Greater; }
    if b == "" { return Less; }
    var ai, bi := 0, 0;
    assert a[0..] == a && b[0..] == b;
    ghost var expected := ComparePrerelease(a, b);
    while ai < |a| || bi < |b|
      invariant 0 <= ai <= |a| && 0 <= bi <= |b|
      invariant Remaining(a, ai, b, bi) == expected
      decreases |a| - ai + |b| - bi
    {
      var adot, bdot := IndexOf(a, '.', ai), IndexOf(b, '.', bi);
      var ap, bp := a[ai..adot], b[bi..bdot];
      ghost var c := CompareIdentifier(ap, bp);
      ScanStep(a, ai, b, bi);
      assert c != Equal ==> expected == c;
      var an, bn := IsNumeric(ap), IsNumeric(bp);
      if an && bn {
        var av, bv := NumericKey(ap), NumericKey(bp);
        if av != bv {
          return if av < bv then Less else Greater;
        }
      } else if an != bn {
        return if an then Less else Greater;
      } else if ap != bp {
        return if StringLess(ap, bp) then Less else Greater;
      }
      assert c == Equal;
      ghost var ai', bi' := Cursor(a, ai), Cursor(b, bi);
      assert Remaining(a, ai', b, bi') == expected;
      ai := if adot == |a| then |a| else adot + 1;
      bi := if bdot == |b| then |b| else bdot + 1;
      assert ai == ai' && bi == bi';
      assert Remaining(a, ai, b, bi) == expected;
      if ai >= |a| && bi >= |b| {
        break;
      }
    }
    assert a[ai..] == "" && b[bi..] == "";
    BothEnded();
    order := Equal;
  }

  // ---- The comparison is a total preorder -------------------------------------------------

  lemma IdentifierFlips(x: string, y: string)
    ensures CompareIdentifier(y, x) == CompareIdentifier(x, y).Flip()
  {
    StringLessTotal(x, y);
  }

  lemma IdentifierTransitive(x: string, y: string, z: string)
    requires CompareIdentifier(x, y) != Greater && CompareIdentifier(y, z) != Greater
    ensures CompareIdentifier(x, z) != Greater
    ensures CompareIdentifier(x, z) == Equal ==> CompareIdentifier(x, y) == Equal && CompareIdentifier(y, z) == Equal
  {
    StringLessTotal(x, y);
    StringLessTotal(y, z);
    StringLessTotal(x, z);
    if StringLess(x, y) && StringLess(y, z) {
      StringLessTransitive(x, y, z);
    }
  }

  lemma {:induction false} PaddedFlips(xs: seq<string>, ys: seq<string>)
    ensures ComparePadded(ys, xs) == ComparePadded(xs, ys).Flip()
    decreases |xs| + |ys|
  {
    if xs != [] || ys != [] {
      IdentifierFlips(HeadOrEmpty(xs), HeadOrEmpty(ys));
      PaddedFlips(Tail(xs), Tail(ys));
    }
  }

  lemma {:induction false} PaddedTransitive(xs: seq<string>, ys: seq<string>, zs: seq<string>)
    requires ComparePadded(xs, ys) != Greater && ComparePadded(ys, zs) != Greater
    ensures ComparePadded(xs, zs) != Greater
    decreases |xs| + |ys| + |zs|
  {
    if xs != [] || ys != [] || zs != [] {
      var x, y, z := HeadOrEmpty(xs), HeadOrEmpty(ys), HeadOrEmpty(zs);
      assert CompareIdentifier("", "") == Equal;
      PaddedStep(xs, ys);
      PaddedStep(ys, zs);
      PaddedStep(xs, zs);
      IdentifierTransitive(x, y, z);
      if CompareIdentifier(x, z) == Equal {
        PaddedTransitive(Tail(xs), Tail(ys), Tail(zs));
      }
    }
  }

  /** Comparing the other way round gives the mirrored verdict; a version equals itself. */
  lemma CompareFlips(a: SemanticVersion, b: SemanticVersion)
    ensures Compare(b, a) == Compare(a, b).Flip()
    ensures Compare(a, a) == Equal
  {
    PaddedFlips(Split(a.prerelease), Split(b.prerelease));
    PaddedFlips(Split(a.prerelease), Split(a.prerelease));
  }

  lemma CompareTransitive(a: SemanticVersion, b: SemanticVersion, c: SemanticVersion)
    requires Compare(a, b) != Greater && Compare(b, c) != Greater
    ensures Compare(a, c) != Greater
  {
    if a.prerelease != "" && b.prerelease != "" && c.prerelease != "" {
      var xs, ys, zs := Split(a.prerelease), Split(b.prerelease), Split(c.prerelease);
      if ComparePadded(xs, ys) != Greater && ComparePadded(ys, zs) != Greater {
        PaddedTransitive(xs, ys, zs);
      }
    }
  }

  // ---- Precedence as Semantic Versioning 2.0.0 item 11 states it --------------------------

  function SemVerIdentifier(x: string, y: string): Order {
    if IsNumeric(x) && IsNumeric(y) then CompareNat(Value(x), Value(y))
    else if IsNumeric(x) then Less
    else if IsNumeric(y) then Greater
    else if x == y then Equal
    else if StringLess(x, y) then Less else Greater
  }

  /** A larger set of identifiers outranks a smaller one when all the preceding ones are equal. */
  function SemVerIdentifiers(xs: seq<string>, ys: seq<string>): Order {
    if xs == [] && ys == [] then Equal
    else if xs == [] then Less
    else if ys == [] then Greater
    else
      var c := SemVerIdentifier(xs[0], ys[0]);
      if c != Equal then c else SemVerIdentifiers(xs[1..], ys[1..])
  }

  function SemVerPrecedence(a: SemanticVersion, b: SemanticVersion): Order {
    if a.major != b.major then CompareNat(a.major, b.major)
    else if a.minor != b.minor then CompareNat(a.minor, b.minor)
    else if a.patch != b.patch then CompareNat(a.patch, b.patch)
    else if a.prerelease == "" && b.prerelease == "" then Equal
    else if a.prerelease == "" then Greater
    else if b.prerelease == "" then Less
    else SemVerIdentifiers(Split(a.prerelease), Split(b.prerelease))
  }

  predicate WellFormed(v: SemanticVersion) {
    (v.prerelease == "" || ValidIdentifiers(v.prerelease)) && (v.build == "" || ValidIdentifiers(v.build))
  }

  predicate FitsU32(xs: seq<string>) {
    forall i :: 0 <= i < |xs| && IsNumeric(xs[i]) ==> ParseU32(xs[i]).Some?
  }

  /** `xs` is exhausted while everything so far was equal, and `ys` continues with a number. */
  predicate EndsBeforeNumber(xs: seq<string>, ys: seq<string>) {
    && |xs| < |ys|
    && IsNumeric(ys[|xs|])
    && forall i :: 0 <= i < |xs| ==> SemVerIdentifier(xs[i], ys[i]) == Equal
  }

  /** One list is an equal initial part of the other, which continues with a number. */
  predicate ExtraNumber(xs: seq<string>, ys: seq<string>) { EndsBeforeNumber(xs, ys) || EndsBeforeNumber(ys, xs) }

  lemma {:induction false} PaddedAgainstSemVer(xs: seq<string>, ys: seq<string>)
    requires FitsU32(xs) && FitsU32(ys)
    requires forall i :: 0 <= i < |xs| ==> xs[i] != ""
    requires forall i :: 0 <= i < |ys| ==> ys[i] != ""
    ensures ComparePadded(xs, ys) == if ExtraNumber(xs, ys) then SemVerIdentifiers(xs, ys).Flip() else SemVerIdentifiers(xs, ys)
    ensures ExtraNumber(xs, ys) ==> SemVerIdentifiers(xs, ys) != Equal
    decreases |xs| + |ys|
  {
    if xs == [] && ys == [] {
    } else if xs == [] {
      assert StringLess("", ys[0]);
    } else if ys == [] {
      assert StringLess("", xs[0]);
      StringLessTotal("", xs[0]);
    } else {
      assert CompareIdentifier(xs[0], ys[0]) == SemVerIdentifier(xs[0], ys[0]);
      IdentifierFlips(xs[0], ys[0]);
      assert SemVerIdentifier(ys[0], xs[0]) == CompareIdentifier(ys[0], xs[0]);
      PaddedAgainstSemVer(xs[1..], ys[1..]);
      EndsBeforeNumberStep(xs, ys);
      EndsBeforeNumberStep(ys, xs);
    }
  }

  lemma EndsBeforeNumberStep(xs: seq<string>, ys: seq<string>)
    requires xs != [] && ys != []
    ensures EndsBeforeNumber(xs, ys) <==>
            SemVerIdentifier(xs[0], ys[0]) == Equal && EndsBeforeNumber(xs[1..], ys[1..])
  {
    var us, vs := xs[1..], ys[1..];
    assert forall i :: 0 <= i < |us| ==> us[i] == xs[i + 1];
    assert forall i :: 0 <= i < |vs| ==> vs[i] == ys[i + 1];
    if SemVerIdentifier(xs[0], ys[0]) == Equal && EndsBeforeNumber(us, vs) {
      forall i | 0 <= i < |xs|
        ensures SemVerIdentifier(xs[i], ys[i]) == Equal
      {
        if i > 0 { assert SemVerIdentifier(us[i - 1], vs[i - 1]) == Equal; }
      }
    }
  }

  /** How an identifier is read: a number that does not fit 32 bits as zero. */
  function ReadAs(x: string): string { if IsNumeric(x) && ParseU32(x).None? then "0" else x }

  function AllReadAs(xs: seq<string>): seq<string> { seq(|xs|, i requires 0 <= i < |xs| => ReadAs(xs[i])) }

  lemma ZeroReads()
    ensures IsNumeric("0") && ParseU32("0") == Some(0)
  {
    assert "0"[..0] == "";
  }

  lemma ReadAsFits(x: string)
    ensures IsNumeric(ReadAs(x)) ==> ParseU32(ReadAs(x)).Some?
    ensures x != "" ==> ReadAs(x) != ""
    ensures IsNumeric(ReadAs(x)) == IsNumeric(x) && (IsNumeric(x) ==> NumericKey(ReadAs(x)) == NumericKey(x))
    ensures !IsNumeric(x) || ParseU32(x).Some? ==> ReadAs(x) == x
  {
    ZeroReads();
  }

  lemma ReadAsCompares(x: string, y: string)
    ensures CompareIdentifier(ReadAs(x), ReadAs(y)) == CompareIdentifier(x, y)
  {
    hide ParseU32, IsNumeric, NumericKey, ReadAs;
    ReadAsFits(x);
    ReadAsFits(y);
  }

  lemma {:induction false} PaddedReadsAlike(xs: seq<string>, ys: seq<string>)
    ensures ComparePadded(AllReadAs(xs), AllReadAs(ys)) == ComparePadded(xs, ys)
    decreases |xs| + |ys|
  {
    if xs != [] || ys != [] {
      ReadAsFits("");
      ReadAsCompares(HeadOrEmpty(xs), HeadOrEmpty(ys));
      assert ReadAs("") == "";
      assert Tail(AllReadAs(xs)) == AllReadAs(Tail(xs)) && Tail(AllReadAs(ys)) == AllReadAs(Tail(ys));
      hide CompareIdentifier, ReadAs;
      PaddedReadsAlike(Tail(xs), Tail(ys));
    }
  }

  lemma AllReadAsFits(xs: seq<string>)
    ensures FitsU32(AllReadAs(xs)) && ((forall i :: 0 <= i < |xs| ==> xs[i] != "") ==> (forall i :: 0 <= i < |xs| ==> AllReadAs(xs)[i] != ""))
    ensures FitsU32(xs) ==> AllReadAs(xs) == xs
  {
    hide ParseU32, IsNumeric;
    forall i | 0 <= i < |xs|
      ensures IsNumeric(AllReadAs(xs)[i]) ==> ParseU32(AllReadAs(xs)[i]).Some?
      ensures xs[i] != "" ==> AllReadAs(xs)[i] != ""
    {
      ReadAsFits(xs[i]);
    }
  }

  /** The order of two pre-releases that the standard and the code see. */
  lemma ReadOrder(xs: seq<string>, ys: seq<string>)
    requires forall i :: 0 <= i < |xs| ==> xs[i] != ""
    requires forall i :: 0 <= i < |ys| ==> ys[i] != ""
    ensures
      var us, vs := AllReadAs(xs), AllReadAs(ys);
      ComparePadded(xs, ys) == if ExtraNumber(us, vs) then SemVerIdentifiers(us, vs).Flip() else SemVerIdentifiers(us, vs)
  {
    hide ComparePadded, SemVerIdentifiers, FitsU32, ExtraNumber, ReadAs;
    AllReadAsFits(xs);
    AllReadAsFits(ys);
    PaddedReadsAlike(xs, ys);
    PaddedAgainstSemVer(AllReadAs(xs), AllReadAs(ys));
  }

  /** The two versions are told apart by their pre-releases. */
  predicate PrereleasesDecide(a: SemanticVersion, b: SemanticVersion) {
    a.major == b.major && a.minor == b.minor && a.patch == b.patch && a.prerelease != "" && b.prerelease != ""
  }

  /** Exactly when the implemented order is the standard one. Reading oversized numbers as zero must
      not change the standard order, or must reverse it in the very case in which the code reverses
      it as well: when one pre-release is an equal initial part of the other and the first extra
      identifier is a number. */
  lemma PrecedenceMatchesSemVer(a: SemanticVersion, b: SemanticVersion)
    requires WellFormed(a) && WellFormed(b)
    ensures
      var xs, ys := Split(a.prerelease), Split(b.prerelease);
      var us, vs := AllReadAs(xs), AllReadAs(ys);
      var seen := SemVerIdentifiers(us, vs);
      Compare(a, b) == SemVerPrecedence(a, b) <==>
      (PrereleasesDecide(a, b) ==> SemVerIdentifiers(xs, ys) == if ExtraNumber(us, vs) then seen.Flip() else seen)
    ensures
      var xs, ys := Split(a.prerelease), Split(b.prerelease);
      FitsU32(xs) && FitsU32(ys) ==>
        (Compare(a, b) == SemVerPrecedence(a, b) <==> !(PrereleasesDecide(a, b) && ExtraNumber(xs, ys)))
  {
    if PrereleasesDecide(a, b) {
      var xs, ys := Split(a.prerelease), Split(b.prerelease);
      ReadOrder(xs, ys);
      if FitsU32(xs) && FitsU32(ys) {
        AllReadAsFits(xs);
        AllReadAsFits(ys);
        PaddedAgainstSemVer(xs, ys);
      }
    }
    hide AllReadAs, SemVerIdentifiers, ExtraNumber, FitsU32, ComparePadded, Split;
  }

  /** The shortest disagreement: 1.0.0-alpha is ranked above 1.0.0-alpha.1. */
  lemma ShorterPrereleaseRanksHigher()
    ensures var a, b := SemanticVersion(1, 0, 0, "alpha", ""), SemanticVersion(1, 0, 0, "alpha.1", "");
            Compare(a, b) == Greater && SemVerPrecedence(a, b) == Less
  {
    assert Split("alpha") == ["alpha"];
    var t := "alpha.1";
    assert IndexOf(t, '.', 0) == 5;
    assert t[..5] == "alpha" && t[6..] == "1";
    assert Split("1") == ["1"];
    assert Split(t) == ["alpha", "1"];
    PaddedStep(["alpha"], ["alpha", "1"]);
    PaddedStep([], ["1"]);
    assert IsNumeric("1") && !IsNumeric("");
    assert SemVerIdentifiers([], ["1"]) == Less;
  }

  /** A number too large for 32 bits counts as zero. */
  lemma OversizedNumberReadsAsZero(n: nat)
    requires n >= 0x1_0000_0000
    ensures CompareIdentifier(Decimal(n), Decimal(0)) == Equal
    ensures SemVerIdentifier(Decimal(n), Decimal(0)) == Greater
  {
    DecimalReads(n);
    DecimalReads(0);
  }
}
