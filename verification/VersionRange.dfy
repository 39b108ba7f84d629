/** The textual forms of versions and version ranges. */
module VersionRange {
  import opened Prelude
  import opened Version

  // ---- Versions ---------------------------------------------------------------------------

  function Parse(text: string): (r: Option<SemanticVersion>)
    ensures r.Some? ==> WellFormed(r.value)
  {
    if text == "" then None else
    var plus := IndexOf(text, '+', 0);
    var build := if plus == |text| then "" else text[plus + 1..];
    if plus < |text| && !ValidIdentifiers(build) then None else ParseBody(text[..plus], build)
  }

  function ParseBody(body: string, build: string): (r: Option<SemanticVersion>)
    ensures r.Some? ==> (r.value.prerelease == "" || ValidIdentifiers(r.value.prerelease)) && r.value.build == build
  {
    var dash := IndexOf(body, '-', 0);
    var pre := if dash == |body| then "" else body[dash + 1..];
    if dash < |body| && !ValidIdentifiers(pre) then None else ParseNumbers(Split(body[..dash]), pre, build)
  }

  function ParseNumbers(parts: seq<string>, pre: string, build: string): Option<SemanticVersion> {
    if |parts| != 3 then None else
    var x, y, z := ParseU32(parts[0]), ParseU32(parts[1]), ParseU32(parts[2]);
    if x.None? || y.None? || z.None? then None else Some(SemanticVersion(x.value, y.value, z.value, pre, build))
  }

  /** Canonical text; build metadata carries no precedence and is omitted. */
  function Text(v: SemanticVersion): string {
    Core(v) + if v.prerelease == "" then "" else "-" + v.prerelease
  }

  function Core(v: SemanticVersion): string {
    Decimal(v.major) + "." + Decimal(v.minor) + "." + Decimal(v.patch)
  }

  lemma IndexOfAfter(a: string, c: char, b: string)
    requires c !in a
    ensures IndexOf(a + [c] + b, c, 0) == |a|
    ensures IndexOf(a, c, 0) == |a|
  {
    var s := a + [c] + b;
    assert s[|a|] == c;
    assert forall k :: 0 <= k < |a| ==> s[k] == a[k];
  }

  lemma SplitPrefix(p: string, rest: string)
    requires '.' !in p
    ensures Split(p + "." + rest) == [p] + Split(rest)
    ensures Split(p) == [p]
  {
    IndexOfAfter(p, '.', rest);
    var s := p + "." + rest;
    assert s[..|p|] == p && s[|p| + 1..] == rest;
  }

  lemma SplitThree(a: string, b: string, c: string)
    requires '.' !in a && '.' !in b && '.' !in c
    ensures Split(a + "." + b + "." + c) == [a, b, c]
  {
    hide Split;
    var tail := b + "." + c;
    assert a + "." + b + "." + c == a + "." + tail;
    SplitPrefix(a, tail);
    SplitPrefix(b, c);
    SplitPrefix(c, "");
  }

  lemma DecimalHasNoDot(n: nat)
    ensures '.' !in Decimal(n)
  {
    DecimalReads(n);
  }

  lemma SplitCore(v: SemanticVersion)
    ensures Split(Core(v)) == [Decimal(v.major), Decimal(v.minor), Decimal(v.patch)]
  {
    DecimalHasNoDot(v.major);
    DecimalHasNoDot(v.minor);
    DecimalHasNoDot(v.patch);
    SplitThree(Decimal(v.major), Decimal(v.minor), Decimal(v.patch));
  }

  lemma CoreChars(v: SemanticVersion)
    ensures Core(v) != "" && IsDigit(Core(v)[0])
    ensures forall c :: c in Core(v) ==> IsDigit(c) || c == '.'
  {
    DecimalReads(v.major);
    DecimalReads(v.minor);
    DecimalReads(v.patch);
  }

  lemma {:induction false} ValidIdentifierChars(s: string)
    requires ValidIdentifiers(s)
    ensures s != "" && forall c :: c in s ==> IsIdentifierChar(c) || c == '.'
    decreases |s|
  {
    var d := IndexOf(s, '.', 0);
    var parts := Split(s);
    assert ValidIdentifier(parts[0]);
    if d < |s| {
      assert parts[1..] == Split(s[d + 1..]);
      assert forall i :: 0 <= i < |parts[1..]| ==> parts[1..][i] == parts[i + 1];
      ValidIdentifierChars(s[d + 1..]);
      assert s == s[..d] + "." + s[d + 1..];
    }
  }

  /** Where `Parse` finds the parts of a text without build metadata. */
  lemma ParseParts(core: string, pre: string)
    requires core != "" && '+' !in core && '-' !in core
    requires pre == "" || ValidIdentifiers(pre)
    ensures Parse(if pre == "" then core else core + "-" + pre) == ParseNumbers(Split(core), pre, "")
  {
    hide Split, ParseNumbers, ValidIdentifiers;
    var text := if pre == "" then core else core + ['-'] + pre;
    assert '+' !in text by {
      if pre != "" { ValidIdentifierChars(pre); }
    }
    assert IndexOf(text, '+', 0) == |text| && text[..|text|] == text;
    assert Parse(text) == ParseBody(text, "");
    if pre == "" {
      assert IndexOf(text, '-', 0) == |text|;
    } else {
      IndexOfAfter(core, '-', pre);
      assert text[..|core|] == core && text[|core| + 1..] == pre;
    }
  }

  /** Every well-formed version is read back from its text, without its build metadata. */
  lemma VersionRoundTrip(v: SemanticVersion)
    requires WellFormed(v)
    ensures Parse(Text(v)) == Some(v.(build := ""))
  {
    hide Parse, Core, Split, ParseU32, ValidIdentifiers;
    CoreChars(v);
    SplitCore(v);
    DecimalRoundTrip(v.major);
    DecimalRoundTrip(v.minor);
    DecimalRoundTrip(v.patch);
    ParseParts(Core(v), v.prerelease);
    assert Text(v) == if v.prerelease == "" then Core(v) else Core(v) + "-" + v.prerelease;
  }

  // ---- Ranges -----------------------------------------------------------------------------

  datatype Operator = Any | Exactly | Not | Below | AtMost | Above | AtLeast | Compatible | Tilde

  datatype Clause = Clause(op: Operator, version: SemanticVersion)

  predicate Holds(c: Clause, v: SemanticVersion) {
    var order := Compare(v, c.version);
    match c.op
    case Any => true
    case Exactly => order == Equal
    case Not => order != Equal
    case Below => order == Less
    case AtMost => order != Greater
    case Above => order == Greater
    case AtLeast => order != Less
    case Compatible => order != Less && v.major == c.version.major
    case Tilde => order != Less && v.major == c.version.major && v.minor == c.version.minor
  }

  /** A range is the conjunction of its clauses. */
  predicate Matches(cs: seq<Clause>, v: SemanticVersion) {
    forall i :: 0 <= i < |cs| ==> Holds(cs[i], v)
  }

  function Symbol(op: Operator): string {
    match op
    case Any => "*"
    case Exactly => "="
    case Not => "!="
    case Below => "<"
    case AtMost => "<="
    case Above => ">"
    case AtLeast => ">="
    case Compatible => "^"
    case Tilde => "~"
  }

  function ClauseText(c: Clause): string {
    if c.op == Any then "*" else Symbol(c.op) + Text(c.version)
  }

  function Joined(cs: seq<Clause>): string {
    if cs == [] then ""
    else if |cs| == 1 then ClauseText(cs[0])
    else ClauseText(cs[0]) + " " + Joined(cs[1..])
  }

  function RangeText(cs: seq<Clause>): string { if cs == [] then "*" else Joined(cs) }

  predicate StartsWith(s: string, p: string) { |p| <= |s| && s[..|p|] == p }

  /** The operator a token starts with and the number of characters it takes. */
  function Leading(token: string): (r: (Operator, nat))
    ensures r.1 <= |token|
  {
    if StartsWith(token, ">=") then (AtLeast, 2)
    else if StartsWith(token, "<=") then (AtMost, 2)
    else if StartsWith(token, "!=") then (Not, 2)
    else if StartsWith(token, "==") then (Exactly, 2)
    else if StartsWith(token, ">") then (Above, 1)
    else if StartsWith(token, "<") then (Below, 1)
    else if StartsWith(token, "=") then (Exactly, 1)
    else if StartsWith(token, "^") then (Compatible, 1)
    else if StartsWith(token, "~") then (Tilde, 1)
    else (Exactly, 0)
  }

  function ParseClause(token: string): (r: Option<Clause>)
    ensures r.Some? ==> WellFormed(r.value.version)
  {
    if token == "*" || token == "any" then Some(Clause(Any, ZERO_VERSION))
    else
      var (op, n) := Leading(token);
      match Parse(token[n..])
      case Some(v) => Some(Clause(op, v))
      case None => None
  }

  predicate IsSeparator(c: char) { c == ',' || IsSpace(c) }

  function WordEnd(s: string, from: nat): (e: nat)
    requires from <= |s|
    ensures from <= e <= |s|
    ensures forall k :: from <= k < e ==> !IsSeparator(s[k])
    ensures e < |s| ==> IsSeparator(s[e])
    decreases |s| - from
  {
    if from == |s| || IsSeparator(s[from]) then from else WordEnd(s, from + 1)
  }

  function Words(s: string): seq<string>
    decreases |s|
  {
    if s == "" then []
    else if IsSeparator(s[0]) then Words(s[1..])
    else var e := WordEnd(s, 0); [s[..e]] + Words(s[e..])
  }

  function ParseClauses(words: seq<string>): Result<seq<Clause>> {
    if words == [] then Ok([])
    else match ParseClause(words[0])
      case None => Err(MalformedVersionRange)
      case Some(c) =>
        match ParseClauses(words[1..])
        case Ok(cs) => Ok([c] + cs)
        case Err(e) => Err(e)
  }

  function ParseRange(text: string): Result<seq<Clause>> { ParseClauses(Words(text)) }

  function Prepend(done: seq<Clause>, rest: Result<seq<Clause>>): Result<seq<Clause>> {
    match rest case Ok(cs) => Ok(done + cs) case Err(e) => Err(e)
  }

  lemma WordsAt(s: string, from: nat)
    requires from <= |s|
    ensures from == |s| ==> Words(s[from..]) == []
    ensures from < |s| && IsSeparator(s[from]) ==> Words(s[from..]) == Words(s[from + 1..])
    ensures from < |s| && !IsSeparator(s[from]) ==>
              var e := WordEnd(s, from);
              Words(s[from..]) == [s[from..e]] + Words(s[e..])
  {
    var t := s[from..];
    if from < |s| {
      assert t[1..] == s[from + 1..] && t[0] == s[from];
      if !IsSeparator(s[from]) {
        var e, f := WordEnd(s, from), WordEnd(t, 0);
        assert forall k :: 0 <= k < |t| ==> t[k] == s[from + k];
        assert e == from + f by {
          assert forall k :: from <= k < |s| ==> s[k] == t[k - from];
        }
        assert t[..f] == s[from..e] && t[f..] == s[e..];
      }
    }
  }

  /** One more clause done, one fewer to do. */
  lemma ClauseMoves(done: seq<Clause>, token: string, rest: seq<string>)
    ensures match ParseClause(token)
            case Some(c) => Prepend(done + [c], ParseClauses(rest)) == Prepend(done, ParseClauses([token] + rest))
            case None => Prepend(done, ParseClauses([token] + rest)) == Err(MalformedVersionRange)
  {
    hide ParseClause;
    assert ([token] + rest)[1..] == rest;
    if ParseClause(token).Some? && ParseClauses(rest).Ok? {
      var c, cs := ParseClause(token).value, ParseClauses(rest).value;
      assert done + ([c] + cs) == done + [c] + cs;
    }
  }

  lemma NothingDone(rest: Result<seq<Clause>>)
    ensures Prepend([], rest) == rest
  {
    if rest.Ok? { assert [] + rest.value == rest.value; }
  }

  lemma AllDone(done: seq<Clause>)
    ensures Prepend(done, ParseClauses([])) == Ok(done)
  {
    assert done + [] == done;
  }

  /** The tokenizing parser computes `ParseRange`. */
  method ScanRange(text: string) returns (r: Result<seq<Clause>>)
    ensures r == ParseRange(text)
  {
    hide ParseClause, ParseClauses, Words, Prepend, IsSeparator;
    var clauses: seq<Clause> := [];
    var index := 0;
    assert text[0..] == text;
    NothingDone(ParseClauses(Words(text)));
    while index < |text|
      invariant 0 <= index <= |text|
      invariant Prepend(clauses, ParseClauses(Words(text[index..]))) == ParseRange(text)
    {
      WordsAt(text, index);
      if IsSeparator(text[index]) {
        index := index + 1;
        continue;
      }
      var start := index;
      index := WordEnd(text, start);
      var token := text[start..index];
      ClauseMoves(clauses, token, Words(text[index..]));
      var clause := ParseClause(token);
      if clause.None? {
        return Err(MalformedVersionRange);
      }
      clauses := clauses + [clause.value];
    }
    WordsAt(text, index);
    AllDone(clauses);
    r := Ok(clauses);
  }

  // ---- Printing a range and reading it back ------------------------------------------------

  /** A clause as it comes back from its text. */
  function Reread(c: Clause): Clause {
    if c.op == Any then Clause(Any, ZERO_VERSION) else Clause(c.op, c.version.(build := ""))
  }

  lemma TextChars(v: SemanticVersion)
    requires WellFormed(v)
    ensures Text(v) != "" && IsDigit(Text(v)[0])
    ensures forall i :: 0 <= i < |Text(v)| ==> !IsSeparator(Text(v)[i])
  {
    CoreChars(v);
    if v.prerelease != "" {
      ValidIdentifierChars(v.prerelease);
    }
    assert forall c :: c in Text(v) ==> IsIdentifierChar(c) || c == '.';
    assert forall c :: IsIdentifierChar(c) || c == '.' ==> !IsSeparator(c);
  }

  lemma LeadingSymbol(op: Operator, body: string)
    requires op != Any && body != "" && IsDigit(body[0])
    ensures Leading(Symbol(op) + body) == (op, |Symbol(op)|)
    ensures Symbol(op) + body != "*" && Symbol(op) + body != "any"
  {
    var token := Symbol(op) + body;
    assert token[|Symbol(op)|] == body[0];
    assert |token| >= 2;
    assert token[..1] == [token[0]] && token[..2] == [token[0], token[1]];
    assert token[0] != 'a';
  }

  lemma ClauseReread(c: Clause)
    requires WellFormed(c.version)
    ensures ParseClause(ClauseText(c)) == Some(Reread(c))
    ensures ClauseText(c) != "" && forall i :: 0 <= i < |ClauseText(c)| ==> !IsSeparator(ClauseText(c)[i])
  {
    if c.op != Any {
      TextChars(c.version);
      LeadingSymbol(c.op, Text(c.version));
      VersionRoundTrip(c.version);
      assert (Symbol(c.op) + Text(c.version))[|Symbol(c.op)|..] == Text(c.version);
    }
  }

  lemma WordsOfWord(w: string, rest: string)
    requires w != "" && forall i :: 0 <= i < |w| ==> !IsSeparator(w[i])
    ensures Words(w) == [w]
    ensures Words(w + " " + rest) == [w] + Words(rest)
  {
    assert WordEnd(w, 0) == |w| && w[..|w|] == w && w[|w|..] == "";
    var s := w + " " + rest;
    assert s[|w|] == ' ';
    assert forall k :: 0 <= k < |w| ==> s[k] == w[k];
    assert WordEnd(s, 0) == |w|;
    assert s[..|w|] == w;
    var t := s[|w|..];
    assert t[0] == ' ' && t[1..] == rest;
  }

  function RereadAll(cs: seq<Clause>): (r: seq<Clause>)
    ensures |r| == |cs| && forall i :: 0 <= i < |cs| ==> r[i] == Reread(cs[i])
  {
    if cs == [] then [] else [Reread(cs[0])] + RereadAll(cs[1..])
  }

  lemma OneWord(w: string, c: Clause)
    requires ParseClause(w) == Some(c)
    ensures ParseClauses([w]) == Ok([c])
  {
    var ws := [w];
    assert ws[1..] == [];
    assert ParseClauses(ws[1..]) == Ok([]);
    assert [c] + [] == [c];
  }

  lemma {:induction false} JoinedReread(cs: seq<Clause>)
    requires cs != [] && forall i :: 0 <= i < |cs| ==> WellFormed(cs[i].version)
    ensures ParseRange(Joined(cs)) == Ok(RereadAll(cs))
  {
    ClauseReread(cs[0]);
    var w := ClauseText(cs[0]);
    if |cs| == 1 {
      WordsOfWord(w, "");
      OneWord(w, Reread(cs[0]));
      assert RereadAll(cs[1..]) == [];
    } else {
      JoinedReread(cs[1..]);
      WordsOfWord(w, Joined(cs[1..]));
      var ws := Words(Joined(cs[1..]));
      assert ([w] + ws)[1..] == ws;
    }
  }

  lemma HoldsIgnoresBuild(c: Clause, v: SemanticVersion)
    ensures Holds(Reread(c), v) == Holds(c, v)
  {
  }

  /** Printing a parsed range and parsing the text again gives a range that admits exactly the
      same versions, and the same operators unless the range was empty. */
  lemma RangeRoundTrip(text: string)
    requires ParseRange(text).Ok?
    ensures
      var cs := ParseRange(text).value;
      var again := ParseRange(RangeText(cs));
      && again.Ok?
      && (forall v :: Matches(again.value, v) <==> Matches(cs, v))
      && (cs == [] <==> |again.value| != |cs|)
      && (cs != [] ==> again.value == RereadAll(cs))
  {
    var cs := ParseRange(text).value;
    ParsedIsFormed(Words(text));
    RangeTextReread(cs);
    if cs != [] {
      var ds := RereadAll(cs);
      forall v
        ensures Matches(ds, v) <==> Matches(cs, v)
      {
        forall i | 0 <= i < |cs|
          ensures Holds(ds[i], v) == Holds(cs[i], v)
        {
          HoldsIgnoresBuild(cs[i], v);
        }
        if Matches(ds, v) {
          forall i | 0 <= i < |cs| ensures Holds(cs[i], v) { assert Holds(ds[i], v); }
        }
      }
    }
  }

  // ---- Ranges in the store ----------------------------------------------------------------

  predicate ClauseFormed(c: Clause) { WellFormed(c.version) && (c.op == Any ==> c.version == ZERO_VERSION) }

  /** Ranges are only made by the parser, so this holds of every one of them. */
  predicate Formed(cs: seq<Clause>) { forall i :: 0 <= i < |cs| ==> ClauseFormed(cs[i]) }

  lemma {:induction false} ParsedIsFormed(words: seq<string>)
    requires ParseClauses(words).Ok?
    ensures Formed(ParseClauses(words).value)
  {
    if words != [] {
      ParsedIsFormed(words[1..]);
      OperatorIsRead(words[0]);
    }
  }

  lemma OperatorIsRead(word: string)
    requires ParseClause(word).Some?
    ensures ClauseFormed(ParseClause(word).value)
  {
  }

  /** A range as it comes back from its own text. */
  function RereadRange(cs: seq<Clause>): seq<Clause> { if cs == [] then [Clause(Any, ZERO_VERSION)] else RereadAll(cs) }

  lemma {:induction false} JoinedIgnoresBuild(cs: seq<Clause>)
    ensures Joined(RereadAll(cs)) == Joined(cs)
  {
    if |cs| > 1 {
      assert RereadAll(cs)[1..] == RereadAll(cs[1..]);
      JoinedIgnoresBuild(cs[1..]);
    }
  }

  /** Every formed range is read back from its text, and has the same text again. */
  lemma RangeTextReread(cs: seq<Clause>)
    requires Formed(cs)
    ensures ParseRange(RangeText(cs)) == Ok(RereadRange(cs)) && RangeText(RereadRange(cs)) == RangeText(cs)
    ensures Formed(RereadRange(cs))
  {
    if cs == [] {
      WordsOfWord("*", "");
      OneWord("*", Clause(Any, ZERO_VERSION));
    } else {
      JoinedReread(cs);
      JoinedIgnoresBuild(cs);
    }
  }

  /** The text a stored requirement's clauses are put into before they are parsed again. */
  function RebuiltClause(c: Clause): string { Symbol(c.op) + Text(c.version) }

  function RebuiltText(cs: seq<Clause>): string {
    if cs == [] then ""
    else if |cs| == 1 then RebuiltClause(cs[0])
    else RebuiltClause(cs[0]) + " " + RebuiltText(cs[1..])
  }

  predicate HasAny(cs: seq<Clause>) { exists i :: 0 <= i < |cs| && cs[i].op == Any }

  lemma StarLeads(text: string)
    requires |text| >= 2 && text[0] == '*'
    ensures text != "*" && text != "any" && Leading(text) == (Exactly, 0)
  {
    assert "any"[0] == 'a';
    assert text[..1][0] == '*' && text[..2][0] == '*';
  }

  lemma StarHasNoDigits(s: string)
    ensures ParseU32("*" + s).None?
  {
    assert ("*" + s)[0] == '*';
  }

  lemma StarParses(v: SemanticVersion)
    ensures Parse("*" + Core(v)).None?
  {
    hide Parse, Split, ParseU32, Decimal, ValidIdentifiers;
    CoreChars(v);
    ParseParts("*" + Core(v), "");
    DecimalHasNoDot(v.major);
    DecimalHasNoDot(v.minor);
    DecimalHasNoDot(v.patch);
    SplitThree("*" + Decimal(v.major), Decimal(v.minor), Decimal(v.patch));
    assert "*" + Core(v) == "*" + Decimal(v.major) + "." + Decimal(v.minor) + "." + Decimal(v.patch);
    StarHasNoDigits(Decimal(v.major));
  }

  lemma StarIsNoOperator(v: SemanticVersion)
    ensures ParseClause("*" + Core(v)).None?
  {
    hide Parse, Leading, Core;
    CoreChars(v);
    var text := "*" + Core(v);
    StarLeads(text);
    StarParses(v);
    assert text[0..] == text;
  }

  lemma RebuiltClauseReread(c: Clause)
    requires ClauseFormed(c)
    ensures ParseClause(RebuiltClause(c)) == if c.op == Any then None else Some(Reread(c))
    ensures RebuiltClause(c) != "" && forall i :: 0 <= i < |RebuiltClause(c)| ==> !IsSeparator(RebuiltClause(c)[i])
  {
    if c.op == Any {
      assert RebuiltClause(c) == "*" + Core(ZERO_VERSION);
      StarIsNoOperator(ZERO_VERSION);
      TextChars(ZERO_VERSION);
    } else {
      ClauseReread(c);
    }
  }

  lemma AnyStep(cs: seq<Clause>)
    requires cs != []
    ensures HasAny(cs) <==> cs[0].op == Any || HasAny(cs[1..])
  {
    assert forall i :: 1 <= i < |cs| ==> cs[i] == cs[1..][i - 1];
    assert forall i :: 0 <= i < |cs| - 1 ==> cs[1..][i] == cs[i + 1];
  }

  lemma ParseStep(w: string, ws: seq<string>)
    ensures ParseClauses([w] + ws) ==
            match ParseClause(w) case None => Err(MalformedVersionRange) case Some(c) => Prepend([c], ParseClauses(ws))
  {
    hide ParseClause;
    assert ([w] + ws)[0] == w && ([w] + ws)[1..] == ws;
  }

  /** A stored range is read back exactly when no clause admits every version. */
  lemma {:induction false} RebuiltReread(cs: seq<Clause>)
    requires Formed(cs) && cs != []
    ensures ParseRange(RebuiltText(cs)) == if HasAny(cs) then Err(MalformedVersionRange) else Ok(RereadAll(cs))
  {
    hide Words, ParseClause, RebuiltClause, HasAny, ParseClauses, ClauseFormed, Reread;
    RebuiltClauseReread(cs[0]);
    AnyStep(cs);
    var w := RebuiltClause(cs[0]);
    if |cs| == 1 {
      WordsOfWord(w, "");
      ParseStep(w, []);
      assert [w] + [] == [w] && cs[1..] == [] && ParseClauses([]) == Ok([]) by { NothingParsed(); }
      NothingIsAny();
      assert RereadAll(cs) == [Reread(cs[0])] == [Reread(cs[0])] + [];
    } else {
      RebuiltReread(cs[1..]);
      WordsOfWord(w, RebuiltText(cs[1..]));
      ParseStep(w, Words(RebuiltText(cs[1..])));
    }
  }

  lemma NothingParsed()
    ensures ParseClauses([]) == Ok([])
  {
  }

  lemma NothingIsAny()
    ensures !HasAny([])
  {
  }
}
