/** What version ranges admit, said in terms of the order of versions alone: from the text of a
    range to the versions it lets through. */
module RangeMeaning {
  import opened Prelude
  import opened Version
  import opened VersionRange

  /** The clause with this operator and bound admits the version. */
  predicate Admits(op: Operator, c: SemanticVersion, v: SemanticVersion) { Holds(Clause(op, c), v) }

  // ---- The order of versions --------------------------------------------------------------

  /** The three numbers of a version as one. */
  function Combined(v: SemanticVersion): nat { (v.major * 0x1_0000_0000 + v.minor) * 0x1_0000_0000 + v.patch }

  /** Releases are ordered as their combined numbers are. A prerelease comes before its release and
      after every earlier release. */
  lemma NumbersDecide(v: SemanticVersion, w: SemanticVersion)
    ensures Combined(v) < Combined(w) ==> Compare(v, w) == Less
    ensures Combined(v) == Combined(w) && v.prerelease == "" && w.prerelease == "" ==> Compare(v, w) == Equal
    ensures Combined(v) == Combined(w) && v.prerelease != "" && w.prerelease == "" ==> Compare(v, w) == Less
  {
    Digits(v.major * 0x1_0000_0000 + v.minor, w.major * 0x1_0000_0000 + w.minor, v.patch, w.patch);
    Digits(v.major, w.major, v.minor, w.minor);
    hide ComparePadded, Split;
  }

  lemma Digits(a: nat, b: nat, x: U32, y: U32)
    ensures a * 0x1_0000_0000 + x < b * 0x1_0000_0000 + y <==> a < b || (a == b && x < y)
    ensures a * 0x1_0000_0000 + x == b * 0x1_0000_0000 + y <==> a == b && x == y
  {
  }

  // ---- Half-lines -------------------------------------------------------------------------

  /** What `>=c` admits contains `c` and everything that is not below something it admits. */
  lemma AtLeastGoesUp(c: SemanticVersion, v: SemanticVersion, w: SemanticVersion)
    requires Compare(v, w) != Greater
    ensures Admits(AtLeast, c, c) && (Admits(AtLeast, c, v) ==> Admits(AtLeast, c, w))
  {
    hide Compare;
    CompareFlips(c, c);
    CompareFlips(v, c);
    CompareFlips(w, c);
    if Compare(v, c) != Less { CompareTransitive(c, v, w); }
  }

  /** What `<=c` admits contains `c` and everything that is not above something it admits. */
  lemma AtMostGoesDown(c: SemanticVersion, v: SemanticVersion, w: SemanticVersion)
    requires Compare(w, v) != Greater
    ensures Admits(AtMost, c, c) && (Admits(AtMost, c, v) ==> Admits(AtMost, c, w))
  {
    hide Compare;
    CompareFlips(c, c);
    if Compare(v, c) != Greater { CompareTransitive(w, v, c); }
  }

  /** The two half-lines cover everything and meet where the versions are equal; the other
      operators are their complements and their meeting. */
  lemma OperatorsFit(c: SemanticVersion, v: SemanticVersion)
    ensures Admits(AtLeast, c, v) || Admits(AtMost, c, v)
    ensures Admits(AtLeast, c, v) && Admits(AtMost, c, v) <==> Compare(v, c) == Equal
    ensures Admits(Exactly, c, v) <==> Admits(AtLeast, c, v) && Admits(AtMost, c, v)
    ensures Admits(Below, c, v) <==> !Admits(AtLeast, c, v)
    ensures Admits(Above, c, v) <==> !Admits(AtMost, c, v)
    ensures Admits(Not, c, v) <==> !Admits(Exactly, c, v)
  {
    hide Compare;
  }

  /** Sets of versions: one closed upward and one closed downward, both with `c`, that meet only
      in versions equal to `c`. */
  ghost predicate HalfLines(up: SemanticVersion -> bool, down: SemanticVersion -> bool, c: SemanticVersion) {
    && up(c) && down(c)
    && (forall v, w :: up(v) && Compare(v, w) != Greater ==> up(w))
    && (forall v, w :: down(v) && Compare(w, v) != Greater ==> down(w))
    && (forall v :: up(v) && down(v) ==> Compare(v, c) == Equal)
  }

  /** There is only one such pair of sets, and it is what `>=c` and `<=c` admit. */
  lemma OnlyTheseHalfLines(up: SemanticVersion -> bool, down: SemanticVersion -> bool, c: SemanticVersion, v: SemanticVersion)
    requires HalfLines(up, down, c)
    ensures up(v) <==> Admits(AtLeast, c, v)
    ensures down(v) <==> Admits(AtMost, c, v)
  {
    hide Compare;
    CompareFlips(v, c);
    if Compare(v, c) != Less { assert up(c) && Compare(c, v) != Greater; }
    if Compare(v, c) != Greater { assert down(c) && Compare(v, c) != Greater; }
  }

  // ---- Compatible versions ----------------------------------------------------------------

  /** The version without its pre-release. */
  function Release(v: SemanticVersion): SemanticVersion { v.(prerelease := "") }

  /** The first release of the next major version, if there is one. */
  function NextMajor(c: SemanticVersion): Option<SemanticVersion> {
    if c.major == 0xFFFF_FFFF then None else Some(SemanticVersion(c.major + 1, 0, 0, "", ""))
  }

  function NextMinor(c: SemanticVersion): Option<SemanticVersion> {
    if c.minor == 0xFFFF_FFFF then NextMajor(c) else Some(SemanticVersion(c.major, c.minor + 1, 0, "", ""))
  }

  /** The release is below this one, if there is one. */
  predicate ReleasedBefore(v: SemanticVersion, limit: Option<SemanticVersion>) {
    match limit case None => true case Some(n) => Compare(Release(v), n) == Less
  }

  /** `^c` admits what `>=c` admits and is released before the next major version; `~c` likewise
      before the next minor version. Hence pre-releases of the next version are not admitted. */
  lemma CompatibleVersions(c: SemanticVersion, v: SemanticVersion)
    ensures Admits(Compatible, c, v) <==> Admits(AtLeast, c, v) && ReleasedBefore(v, NextMajor(c))
    ensures Admits(Tilde, c, v) <==> Admits(AtLeast, c, v) && ReleasedBefore(v, NextMinor(c))
    ensures Admits(Tilde, c, v) ==> Admits(Compatible, c, v)
    ensures Admits(Compatible, c, v) ==> Admits(AtLeast, c, v)
  {
    assert ComparePrerelease("", "") == Equal;
    hide ComparePrerelease;
  }

  /** The same by parts of the version. */
  lemma CompatibleParts(c: SemanticVersion, v: SemanticVersion)
    ensures Admits(Compatible, c, v) <==> Admits(AtLeast, c, v) && v.major == c.major
    ensures Admits(Tilde, c, v) <==> Admits(Compatible, c, v) && v.minor == c.minor
    ensures match NextMajor(c) case Some(n) => (Admits(Compatible, c, v) ==> Admits(Below, n, v)) case None => true
  {
    hide ComparePrerelease;
  }

  // ---- From the text ----------------------------------------------------------------------

  /** The text is a range, and it admits the version. */
  ghost predicate Lets(text: string, v: SemanticVersion) {
    match ParseRange(text) case Ok(cs) => Matches(cs, v) case Err(_) => false
  }

  lemma OneClause(text: string, c: Clause, v: SemanticVersion)
    requires text != "" && (forall i :: 0 <= i < |text| ==> !IsSeparator(text[i])) && ParseClause(text) == Some(c)
    ensures ParseRange(text) == Ok([c]) && (Lets(text, v) <==> Holds(c, v))
  {
    hide ParseClause, Words, Holds, IsSeparator;
    WordsOfWord(text, "");
    OneWord(text, c);
    assert [c][0] == c;
  }

  lemma SymbolReads(op: Operator, c: SemanticVersion, v: SemanticVersion)
    requires WellFormed(c) && op != Any
    ensures Lets(Symbol(op) + Text(c), v) <==> Admits(op, c, v)
  {
    hide ParseClause, Text, Symbol, IsSeparator, Holds, Lets;
    ClauseReread(Clause(op, c));
    OneClause(Symbol(op) + Text(c), Reread(Clause(op, c)), v);
    HoldsIgnoresBuild(Clause(op, c), v);
  }

  lemma PlainReads(c: SemanticVersion, v: SemanticVersion)
    requires WellFormed(c)
    ensures Lets(Text(c), v) <==> Admits(Exactly, c, v)
    ensures Lets("==" + Text(c), v) <==> Admits(Exactly, c, v)
  {
    hide Parse, Text, Holds, Lets;
    TextChars(c);
    VersionRoundTrip(c);
    var t := Text(c);
    assert t[0..] == t && ("==" + t)[2..] == t;
    assert t != "*" && t != "any";
    assert "==" + t != "*" && "==" + t != "any" by { assert ("==" + t)[0] == '='; }
    assert Leading(t) == (Exactly, 0) && Leading("==" + t) == (Exactly, 2) by {
      assert ("==" + t)[..2] == "==" && ("==" + t)[..1] == "=";
      assert forall p: string {:trigger StartsWith(t, p)} :: |p| > 0 && !IsDigit(p[0]) ==> !StartsWith(t, p);
    }
    var k := Clause(Exactly, c.(build := ""));
    OneClause(t, k, v);
    OneClause("==" + t, k, v);
    HoldsIgnoresBuild(Clause(Exactly, c), v);
  }

  /** What each way of writing a bound admits. */
  lemma TextsMean(c: SemanticVersion, v: SemanticVersion)
    requires WellFormed(c)
    ensures Lets(">=" + Text(c), v) <==> Compare(v, c) != Less
    ensures Lets("<=" + Text(c), v) <==> Compare(v, c) != Greater
    ensures Lets(">" + Text(c), v) <==> Compare(v, c) == Greater
    ensures Lets("<" + Text(c), v) <==> Compare(v, c) == Less
    ensures Lets("=" + Text(c), v) <==> Compare(v, c) == Equal
    ensures Lets("==" + Text(c), v) <==> Compare(v, c) == Equal
    ensures Lets(Text(c), v) <==> Compare(v, c) == Equal
    ensures Lets("!=" + Text(c), v) <==> Compare(v, c) != Equal
    ensures Lets("^" + Text(c), v) <==> Compare(v, c) != Less && ReleasedBefore(v, NextMajor(c))
    ensures Lets("~" + Text(c), v) <==> Compare(v, c) != Less && ReleasedBefore(v, NextMinor(c))
  {
    hide Lets, Text, Compare, ReleasedBefore, NextMajor, NextMinor;
    SymbolReads(AtLeast, c, v);
    SymbolReads(AtMost, c, v);
    SymbolReads(Above, c, v);
    SymbolReads(Below, c, v);
    SymbolReads(Exactly, c, v);
    SymbolReads(Not, c, v);
    SymbolReads(Compatible, c, v);
    SymbolReads(Tilde, c, v);
    PlainReads(c, v);
    CompatibleVersions(c, v);
  }

  /** Nothing, a star and the word for it admit every version. */
  lemma OpenTextsMean(v: SemanticVersion)
    ensures Lets("", v) && Lets("*", v) && Lets("any", v)
  {
    NothingParsed();
    assert Words("") == [];
    assert Lets("", v);
    hide Lets;
    OneClause("*", Clause(Any, ZERO_VERSION), v);
    assert forall i :: 0 <= i < |"any"| ==> !IsSeparator("any"[i]);
    OneClause("any", Clause(Any, ZERO_VERSION), v);
  }

  /** A range admits what both of its parts admit. */
  lemma RangesMeet(cs: seq<Clause>, ds: seq<Clause>, v: SemanticVersion)
    ensures Matches(cs + ds, v) <==> Matches(cs, v) && Matches(ds, v)
  {
    hide Holds;
    var all := cs + ds;
    assert forall i :: 0 <= i < |cs| ==> all[i] == cs[i];
    assert forall i :: 0 <= i < |ds| ==> all[|cs| + i] == ds[i];
    if Matches(all, v) {
      forall i | 0 <= i < |ds| ensures Holds(ds[i], v) { assert Holds(all[|cs| + i], v); }
    }
  }
}
