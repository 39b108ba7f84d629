/** The stored form of a capability set: records sorted by key, found by binary search. */
module CapabilityTable {
  import opened Prelude
  import opened Ordering
  import opened Version
  import opened Vocabulary
  import opened Capability
  import Token

  datatype Entry = Entry(key: string, record: CapabilityRecord)

  const MAX_VERSION_COMPONENT := 100_000

  // ---- Sorted and without repetition ------------------------------------------------------

  ghost predicate StrictlySorted(s: seq<string>) { forall i, j :: 0 <= i < j < |s| ==> StringLess(s[i], s[j]) }

  /** Drops repetitions of a sorted sequence. */
  function Unique(s: seq<string>): seq<string> {
    if |s| <= 1 then s
    else if s[0] == s[1] then Unique(s[1..])
    else [s[0]] + Unique(s[1..])
  }

  lemma {:induction false} UniqueKeeps(s: seq<string>)
    requires Sorted(StringLess, s)
    ensures StrictlySorted(Unique(s)) && forall x :: x in Unique(s) <==> x in s
    ensures |Unique(s)| <= |s| && (s != [] ==> Unique(s) != [] && Unique(s)[0] == s[0])
  {
    hide StringLess;
    if |s| > 1 {
      var rest := s[1..];
      assert Sorted(StringLess, rest);
      UniqueKeeps(rest);
      assert s == [s[0]] + rest;
      if s[0] != s[1] {
        var u := Unique(rest);
        forall j | 0 <= j < |u|
          ensures StringLess(s[0], u[j])
        {
          StringLessTotal(s[0], s[1]);
          if j > 0 { StringLessTransitive(s[0], s[1], u[j]); }
        }
      }
    }
  }

  lemma {:induction false} StrictlySortedIsUnique(s: seq<string>)
    requires StrictlySorted(s)
    ensures Unique(s) == s && Sort(StringLess, s) == s
  {
    hide StringLess;
    StringsAreOrdered();
    forall i, j | 0 <= i < j < |s|
      ensures !StringLess(s[j], s[i])
    {
      StringLessTotal(s[i], s[j]);
    }
    SortSorts(StringLess, s);
    SortPermutes(StringLess, s);
    StringsSeparate(s);
    SortedUnique(StringLess, s, Sort(StringLess, s));
    UniqueOfStrict(s);
  }

  lemma {:induction false} UniqueOfStrict(s: seq<string>)
    requires StrictlySorted(s)
    ensures Unique(s) == s
  {
    if |s| > 1 {
      assert StringLess(s[0], s[1]);
      StringLessTotal(s[0], s[1]);
      UniqueOfStrict(s[1..]);
      assert s == [s[0]] + s[1..];
    }
  }

  // ---- Canonical values -------------------------------------------------------------------

  /** The canonical form of every token, or nothing if one of them has none. */
  function CanonicalTokens(tokens: seq<string>): Option<seq<string>> {
    if tokens == [] then Some([])
    else
      var last := |tokens| - 1;
      match (CanonicalTokens(tokens[..last]), Token.Canonical(tokens[last], MAX_TOKEN_BYTES))
      case (Some(rest), Ok(t)) => Some(rest + [t])
      case _ => None
  }

  function CanonicalValue(v: CapabilityValue): Result<CapabilityValue> {
    match v
    case VersionValue(version) =>
      if version.major > MAX_VERSION_COMPONENT || version.minor > MAX_VERSION_COMPONENT || version.patch > MAX_VERSION_COMPONENT
      then Err(ImpossibleQuantity) else Ok(v)
    case Enumeration(token) =>
      (match Token.Canonical(token, MAX_TOKEN_BYTES) case Ok(t) => Ok(Enumeration(t)) case Err(e) => Err(e))
    case TokenSet(tokens) =>
      if |tokens| > MAX_TOKENS then Err(MalformedData)
      else (match CanonicalTokens(tokens)
            case Some(ts) => Ok(TokenSet(Unique(Sort(StringLess, ts))))
            case None => Err(MalformedData))
    case Presence(_) | Integer(_) | Scalar(_) => Ok(v)
  }

  /** Every token is canonical already. */
  ghost predicate AllCanonical(tokens: seq<string>) {
    forall i :: 0 <= i < |tokens| ==> Token.Canonical(tokens[i], MAX_TOKEN_BYTES) == Ok(tokens[i])
  }

  lemma {:induction false} CanonicalTokensSettle(tokens: seq<string>)
    requires CanonicalTokens(tokens).Some?
    ensures AllCanonical(CanonicalTokens(tokens).value) && |CanonicalTokens(tokens).value| == |tokens|
  {
    hide Token.Canonical;
    if tokens != [] {
      var last := |tokens| - 1;
      CanonicalTokensSettle(tokens[..last]);
      Token.CanonicalIsIdempotent(tokens[last], MAX_TOKEN_BYTES);
    }
  }

  lemma {:induction false} SettledTokensStay(tokens: seq<string>)
    requires AllCanonical(tokens)
    ensures CanonicalTokens(tokens) == Some(tokens)
  {
    hide Token.Canonical;
    if tokens != [] {
      var last := |tokens| - 1;
      SettledTokensStay(tokens[..last]);
      assert tokens == tokens[..last] + [tokens[last]];
    }
  }

  lemma SortedTokensAreCanonical(ts: seq<string>)
    requires AllCanonical(ts)
    ensures
      var u := Unique(Sort(StringLess, ts));
      AllCanonical(u) && StrictlySorted(u) && |u| <= |ts| && forall x :: x in u <==> x in ts
  {
    hide StringLess, Token.Canonical, Sort, Unique;
    var s := Sort(StringLess, ts);
    StringsAreOrdered();
    SortSorts(StringLess, ts);
    SortPermutes(StringLess, ts);
    UniqueKeeps(s);
    var u := Unique(s);
    assert forall x :: x in s <==> x in multiset(s);
    assert forall x :: x in ts <==> x in multiset(ts);
    forall i | 0 <= i < |u|
      ensures Token.Canonical(u[i], MAX_TOKEN_BYTES) == Ok(u[i])
    {
      assert u[i] in u;
      assert u[i] in ts;
    }
  }

  /** Canonicalization of a value is idempotent. */
  lemma CanonicalValueIsIdempotent(v: CapabilityValue)
    requires CanonicalValue(v).Ok?
    ensures CanonicalValue(CanonicalValue(v).value) == CanonicalValue(v)
  {
    hide StringLess, Token.Canonical, Sort, Unique, CanonicalTokens;
    match v
    case Enumeration(token) => Token.CanonicalIsIdempotent(token, MAX_TOKEN_BYTES);
    case TokenSet(tokens) =>
      var ts := CanonicalTokens(tokens).value;
      CanonicalTokensSettle(tokens);
      SortedTokensAreCanonical(ts);
      var u := Unique(Sort(StringLess, ts));
      SettledTokensStay(u);
      StrictlySortedIsUnique(u);
    case _ =>
  }

  // ---- Records ----------------------------------------------------------------------------

  /** Whether the key registry lets a key carry a value of this kind. */
  type Registry = (string, CapabilityValue) -> bool

  function EntryFault(e: Entry, admits: Registry): Option<ErrorCode> {
    if e.key == "" then Some(UnknownCapability)
    else if !admits(e.key, e.record.value) then Some(CapabilityMismatch)
    else if e.record.state in {Supported, CapabilityState.Degraded} && (e.record.value == Enumeration("") || e.record.value == TokenSet([]))
    then Some(MalformedData)
    else if |e.record.unit| > MAX_TOKEN_BYTES then Some(BoundsExceeded)
    else None
  }

  /** One record as it is stored. */
  function Prepared(e: Entry, admits: Registry): Result<Entry> {
    match CanonicalValue(e.record.value)
    case Err(code) => Err(code)
    case Ok(v) =>
      var stored := e.(record := e.record.(value := v));
      match EntryFault(stored, admits) case Some(code) => Err(code) case None => Ok(stored)
  }

  /** All records as they are stored, or the first fault. */
  function PreparedAll(es: seq<Entry>, admits: Registry): Result<seq<Entry>> {
    if es == [] then Ok([])
    else
      var last := |es| - 1;
      match PreparedAll(es[..last], admits)
      case Err(code) => Err(code)
      case Ok(rest) => match Prepared(es[last], admits) case Err(code) => Err(code) case Ok(e) => Ok(rest + [e])
  }

  predicate KeyLess(a: Entry, b: Entry) { StringLess(a.key, b.key) }

  predicate HasRepeat(s: seq<Entry>) { exists i :: 1 <= i < |s| && s[i].key == s[i - 1].key }

  function Stored(es: seq<Entry>, admits: Registry): Result<seq<Entry>> {
    if |es| > MAX_CAPABILITIES then Err(BoundsExceeded)
    else
      match PreparedAll(es, admits)
      case Err(code) => Err(code)
      case Ok(working) =>
        var sorted := Sort(KeyLess, working);
        if HasRepeat(sorted) then Err(DuplicateIdentity) else Ok(sorted)
  }

  ghost predicate StrictKeys(s: seq<Entry>) { forall i, j :: 0 <= i < j < |s| ==> StringLess(s[i].key, s[j].key) }

  ghost function MapOf(s: seq<Entry>): map<string, CapabilityRecord> {
    if s == [] then map[] else MapOf(s[..|s| - 1])[s[|s| - 1].key := s[|s| - 1].record]
  }

  lemma {:induction false} MapOfStrict(s: seq<Entry>)
    requires StrictKeys(s)
    ensures forall i :: 0 <= i < |s| ==> s[i].key in MapOf(s) && MapOf(s)[s[i].key] == s[i].record
    ensures forall k :: k in MapOf(s) ==> exists i :: 0 <= i < |s| && s[i].key == k
  {
    hide StringLess;
    if s != [] {
      var front, last := s[..|s| - 1], |s| - 1;
      MapOfStrict(front);
      forall i | 0 <= i < |s|
        ensures s[i].key in MapOf(s) && MapOf(s)[s[i].key] == s[i].record
      {
        if i < last {
          assert front[i] == s[i];
          StringLessTotal(s[i].key, s[last].key);
        }
      }
      forall k | k in MapOf(s)
        ensures exists i :: 0 <= i < |s| && s[i].key == k
      {
        if k != s[last].key {
          assert k in MapOf(front);
          var i :| 0 <= i < |front| && front[i].key == k;
          assert s[i].key == k;
        }
      }
    }
  }

  lemma KeysAreOrdered()
    ensures WeakOrder(KeyLess)
  {
    hide StringLess;
    StringsAreOrdered();
  }

  lemma {:induction false} NoRepeatIsStrict(s: seq<Entry>, i: nat, j: nat)
    requires Sorted(KeyLess, s) && !HasRepeat(s) && i < j < |s|
    ensures StringLess(s[i].key, s[j].key)
    decreases j
  {
    hide StringLess;
    assert !KeyLess(s[j], s[j - 1]) && s[j].key != s[j - 1].key;
    StringLessTotal(s[j - 1].key, s[j].key);
    if i < j - 1 {
      NoRepeatIsStrict(s, i, j - 1);
      StringLessTransitive(s[i].key, s[j - 1].key, s[j].key);
    }
  }

  /** What is stored is strictly ordered by key. */
  lemma StoredIsStrict(es: seq<Entry>, admits: Registry)
    requires Stored(es, admits).Ok?
    ensures StrictKeys(Stored(es, admits).value)
  {
    hide StringLess, PreparedAll, Sort;
    var working := PreparedAll(es, admits).value;
    var sorted := Sort(KeyLess, working);
    KeysAreOrdered();
    SortSorts(KeyLess, working);
    forall i, j | 0 <= i < j < |sorted|
      ensures StringLess(sorted[i].key, sorted[j].key)
    {
      NoRepeatIsStrict(sorted, i, j);
    }
  }

  // ---- The order of the input does not matter ---------------------------------------------

  lemma {:induction false} PreparedAllIff(es: seq<Entry>, admits: Registry)
    ensures PreparedAll(es, admits).Ok? <==> forall i :: 0 <= i < |es| ==> Prepared(es[i], admits).Ok?
    ensures PreparedAll(es, admits).Ok? ==>
      && |PreparedAll(es, admits).value| == |es|
      && forall i :: 0 <= i < |es| ==> Prepared(es[i], admits) == Ok(PreparedAll(es, admits).value[i])
  {
    hide Prepared;
    if es != [] {
      var front := es[..|es| - 1];
      PreparedAllIff(front, admits);
      assert forall i :: 0 <= i < |front| ==> front[i] == es[i];
    }
  }

  lemma PreparedWithout(fs: seq<Entry>, admits: Registry, j: nat)
    requires j < |fs| && PreparedAll(fs, admits).Ok?
    ensures PreparedAll(RemoveAt(fs, j), admits).Ok? && Prepared(fs[j], admits).Ok?
    ensures multiset(PreparedAll(fs, admits).value) == multiset(PreparedAll(RemoveAt(fs, j), admits).value) + multiset{Prepared(fs[j], admits).value}
  {
    hide Prepared, PreparedAll;
    var rest := RemoveAt(fs, j);
    PreparedAllIff(fs, admits);
    PreparedAllIff(rest, admits);
    var p := PreparedAll(fs, admits).value;
    forall i | 0 <= i < |rest|
      ensures Prepared(rest[i], admits) == Ok(RemoveAt(p, j)[i])
    {
      if i < j { assert rest[i] == fs[i]; } else { assert rest[i] == fs[i + 1]; }
    }
    hide RemoveAt;
    assert PreparedAll(rest, admits).value == RemoveAt(p, j);
    RemoveCounts(p, j);
  }

  lemma {:induction false} PreparedPermutes(es: seq<Entry>, fs: seq<Entry>, admits: Registry)
    requires multiset(es) == multiset(fs) && PreparedAll(es, admits).Ok? && PreparedAll(fs, admits).Ok?
    ensures multiset(PreparedAll(es, admits).value) == multiset(PreparedAll(fs, admits).value)
    decreases |es|
  {
    hide Prepared, PreparedAll, RemoveAt;
    assert |es| == |multiset(es)| == |multiset(fs)| == |fs|;
    if es != [] {
      var j := FindIn(es, fs, 0);
      RemoveCounts(es, 0);
      RemoveCounts(fs, j);
      PreparedWithout(es, admits, 0);
      PreparedWithout(fs, admits, j);
      PreparedPermutes(RemoveAt(es, 0), RemoveAt(fs, j), admits);
    }
  }

  /** The stored set is the same for every order in which its records are given. */
  lemma StoredIgnoresOrder(es: seq<Entry>, fs: seq<Entry>, admits: Registry)
    requires multiset(es) == multiset(fs) && Stored(es, admits).Ok?
    ensures Stored(fs, admits) == Stored(es, admits)
  {
    hide StringLess, PreparedAll, Sort, Prepared;
    assert |es| == |multiset(es)| == |multiset(fs)| == |fs|;
    PreparedAllIff(es, admits);
    PreparedAllIff(fs, admits);
    forall i | 0 <= i < |fs|
      ensures Prepared(fs[i], admits).Ok?
    {
      assert fs[i] in multiset(es);
      var k :| 0 <= k < |es| && es[k] == fs[i];
    }
    PreparedPermutes(es, fs, admits);
    var a, b := PreparedAll(es, admits).value, PreparedAll(fs, admits).value;
    KeysAreOrdered();
    SortSorts(KeyLess, a);
    SortSorts(KeyLess, b);
    SortPermutes(KeyLess, a);
    SortPermutes(KeyLess, b);
    StoredIsStrict(es, admits);
    assert Separates(KeyLess, Sort(KeyLess, a));
    SortedUnique(KeyLess, Sort(KeyLess, a), Sort(KeyLess, b));
  }

  /** A stored set answers for exactly the records it was given, in canonical form. */
  lemma StoredKeepsRecords(es: seq<Entry>, admits: Registry)
    requires Stored(es, admits).Ok?
    ensures
      var m := MapOf(Stored(es, admits).value);
      && (forall i :: 0 <= i < |es| ==>
            Prepared(es[i], admits).Ok? && es[i].key in m && m[es[i].key] == Prepared(es[i], admits).value.record)
      && (forall k :: k in m ==> exists i :: 0 <= i < |es| && es[i].key == k)
  {
    hide StringLess, PreparedAll, Sort, Prepared, MapOf;
    PreparedAllIff(es, admits);
    var working, stored := PreparedAll(es, admits).value, Stored(es, admits).value;
    SortPermutes(KeyLess, working);
    StoredIsStrict(es, admits);
    MapOfStrict(stored);
    forall i | 0 <= i < |es|
      ensures es[i].key in MapOf(stored) && MapOf(stored)[es[i].key] == Prepared(es[i], admits).value.record
    {
      PreparedKeepsKey(es[i], admits);
      var k := FindIn(working, stored, i);
    }
    forall k | k in MapOf(stored)
      ensures exists i :: 0 <= i < |es| && es[i].key == k
    {
      var j :| 0 <= j < |stored| && stored[j].key == k;
      var i := FindIn(stored, working, j);
      PreparedKeepsKey(es[i], admits);
    }
  }

  lemma PreparedKeepsKey(e: Entry, admits: Registry)
    requires Prepared(e, admits).Ok?
    ensures Prepared(e, admits).value.key == e.key
  {
    hide CanonicalValue, EntryFault;
  }

  // ---- Closed namespaces ------------------------------------------------------------------

  function CanonicalNamespace(name: string): Result<string> {
    match Token.Canonical(name, MAX_NAME_BYTES)
    case Err(code) => Err(code)
    case Ok(t) => if '.' in t then Err(InvalidArgument) else Ok(t)
  }

  function CanonicalNamespaces(names: seq<string>): Result<seq<string>> {
    if names == [] then Ok([])
    else
      var last := |names| - 1;
      match CanonicalNamespaces(names[..last])
      case Err(code) => Err(code)
      case Ok(rest) => match CanonicalNamespace(names[last]) case Err(code) => Err(code) case Ok(t) => Ok(rest + [t])
  }

  // ---- The table --------------------------------------------------------------------------

  class Table {
    const admits: Registry
    var records: seq<Entry>
    var closed: seq<string>

    ghost predicate Valid()
      reads this
    {
      StrictKeys(records) && StrictlySorted(closed)
    }

    /** The set this table stands for. */
    ghost function Contents(): CapabilitySet
      reads this
    {
      CapabilitySet(MapOf(records), set x | x in closed)
    }

    constructor (admits: Registry)
      ensures Valid() && Contents() == CapabilitySet(map[], {}) && this.admits == admits
    {
      this.admits := admits;
      records, closed := [], [];
    }

    /** Replaces the records, or reports the fault and changes nothing. */
    method SetRecords(es: seq<Entry>) returns (code: Option<ErrorCode>)
      requires Valid()
      modifies this`records
      ensures Valid()
      ensures code == (match Stored(es, admits) case Ok(_) => None case Err(e) => Some(e))
      ensures records == (match Stored(es, admits) case Ok(s) => s case Err(_) => old(records))
    {
      hide StrictKeys, StrictlySorted, KeyLess, Sort, CanonicalValue, EntryFault;
      if |es| > MAX_CAPABILITIES { return Some(BoundsExceeded); }
      var working: seq<Entry> := [];
      assert es[..0] == [];
      for i := 0 to |es|
        invariant PreparedAll(es[..i], admits) == Ok(working)
      {
        assert es[..i + 1][..i] == es[..i];
        var v := CanonicalValue(es[i].record.value);
        if v.Err? { FaultIsFinal(es, admits, i + 1); return Some(v.code); }
        var e := es[i].(record := es[i].record.(value := v.value));
        var fault := EntryFault(e, admits);
        if fault.Some? { FaultIsFinal(es, admits, i + 1); return fault; }
        working := working + [e];
      }
      assert es[..|es|] == es;
      working := Sort(KeyLess, working);
      var i := 1;
      while i < |working|
        invariant 1 <= i && forall j :: 1 <= j < i && j < |working| ==> working[j].key != working[j - 1].key
      {
        if working[i].key == working[i - 1].key { return Some(DuplicateIdentity); }
        i := i + 1;
      }
      records := working;
      StoredIsStrict(es, admits);
      return None;
    }

    /** Binary search finds what a plain map lookup finds, with absence counting as evidence
        only inside a closed namespace. */
    method Find(key: string) returns (l: Lookup)
      requires Valid()
      ensures l == LookUp(Contents(), key)
    {
      hide StringLess, MapOf;
      var keys := KeysOf(records);
      var position := LowerBound(keys, key);
      MapOfStrict(records);
      if position < |records| && records[position].key == key {
        return Lookup(records[position].record.state, Some(records[position].record.value), true, false);
      }
      Misses(keys, key, position);
      assert forall i :: 0 <= i < |records| ==> records[i].key == keys[i];
      var name := Namespace(key);
      position := LowerBound(closed, name);
      if position < |closed| && closed[position] == name { return Lookup(Unsupported, None, false, true); }
      Misses(closed, name, position);
      return ABSENT;
    }

    /** Replaces the closed namespaces, or reports the fault and changes nothing. */
    method SetClosedNamespaces(names: seq<string>) returns (code: Option<ErrorCode>)
      requires Valid()
      modifies this`closed
      ensures Valid()
      ensures |names| > MAX_CAPABILITIES ==> code == Some(BoundsExceeded)
      ensures |names| <= MAX_CAPABILITIES ==> code == (match CanonicalNamespaces(names) case Ok(_) => None case Err(e) => Some(e))
      ensures code.Some? ==> closed == old(closed)
      ensures code.None? ==> CanonicalNamespaces(names).Ok? && forall x :: x in closed <==> x in CanonicalNamespaces(names).value
    {
      hide StrictKeys, StrictlySorted, CanonicalNamespaces;
      if |names| > MAX_CAPABILITIES { return Some(BoundsExceeded); }
      var working := CanonicalizeNamespaces(names);
      if working.Err? { return Some(working.code); }
      closed := SortUnique(working.value);
      return None;
    }
  }

  function KeysOf(s: seq<Entry>): (keys: seq<string>)
    ensures |keys| == |s|
  {
    seq(|s|, i requires 0 <= i < |s| => s[i].key)
  }

  /** The first position of a sorted sequence whose element is not below `x`. */
  method LowerBound(keys: seq<string>, x: string) returns (position: nat)
    requires StrictlySorted(keys)
    ensures position <= |keys|
    ensures forall j :: 0 <= j < position ==> StringLess(keys[j], x)
    ensures forall j :: position <= j < |keys| ==> !StringLess(keys[j], x)
  {
    hide StringLess;
    var low, high := 0, |keys|;
    while low < high
      invariant 0 <= low <= high <= |keys|
      invariant forall j :: 0 <= j < low ==> StringLess(keys[j], x)
      invariant forall j :: high <= j < |keys| ==> !StringLess(keys[j], x)
    {
      var middle := (low + high) / 2;
      BelowSpreads(keys, x, middle);
      if StringLess(keys[middle], x) { low := middle + 1; } else { high := middle; }
    }
    return low;
  }

  lemma BelowSpreads(keys: seq<string>, x: string, middle: nat)
    requires StrictlySorted(keys) && middle < |keys|
    ensures StringLess(keys[middle], x) ==> forall j :: 0 <= j <= middle ==> StringLess(keys[j], x)
    ensures !StringLess(keys[middle], x) ==> forall j :: middle <= j < |keys| ==> !StringLess(keys[j], x)
  {
    hide StringLess;
    forall i, j | 0 <= i < j < |keys| && StringLess(keys[j], x)
      ensures StringLess(keys[i], x)
    {
      StringLessTransitive(keys[i], keys[j], x);
    }
  }

  /** If the lower bound is not the element, the element is nowhere. */
  lemma Misses(keys: seq<string>, x: string, position: nat)
    requires StrictlySorted(keys) && position <= |keys|
    requires forall j :: 0 <= j < position ==> StringLess(keys[j], x)
    requires forall j :: position <= j < |keys| ==> !StringLess(keys[j], x)
    requires position < |keys| ==> keys[position] != x
    ensures x !in keys
  {
    hide StringLess;
    forall j | 0 <= j < |keys|
      ensures keys[j] != x
    {
      if j < position {
        StringLessTotal(keys[j], x);
      } else if j > position {
        StringLessTotal(keys[position], x);
        StringLessTransitive(x, keys[position], keys[j]);
        StringLessTotal(x, keys[j]);
      }
    }
  }

  method CanonicalizeNamespaces(names: seq<string>) returns (r: Result<seq<string>>)
    ensures r == CanonicalNamespaces(names)
  {
    hide Token.Canonical;
    var working: seq<string> := [];
    assert names[..0] == [];
    for i := 0 to |names|
      invariant CanonicalNamespaces(names[..i]) == Ok(working)
    {
      assert names[..i + 1][..i] == names[..i];
      var t := Token.Canonicalize(names[i], MAX_NAME_BYTES);
      if t.Err? { NamespaceFaultIsFinal(names, i + 1); return Err(t.code); }
      if '.' in t.value { NamespaceFaultIsFinal(names, i + 1); return Err(InvalidArgument); }
      working := working + [t.value];
    }
    assert names[..|names|] == names;
    return Ok(working);
  }

  /** Sorts and drops repetitions. */
  method SortUnique(s: seq<string>) returns (u: seq<string>)
    ensures u == Unique(Sort(StringLess, s)) && StrictlySorted(u) && forall x :: x in u <==> x in s
  {
    hide StringLess, Sort;
    SortPermutes(StringLess, s);
    StringsAreOrdered();
    SortSorts(StringLess, s);
    var sorted := Sort(StringLess, s);
    assert forall x :: x in s <==> x in multiset(s);
    assert forall x :: x in sorted <==> x in multiset(sorted);
    UniqueKeeps(sorted);
    u := DropRepeats(sorted);
  }

  method DropRepeats(s: seq<string>) returns (u: seq<string>)
    ensures u == Unique(s)
  {
    u := [];
    var i := 0;
    assert s[0..] == s;
    while i < |s|
      invariant i <= |s| && u + Unique(s[i..]) == Unique(s)
    {
      UniqueStep(s, i);
      if i + 1 == |s| || s[i] != s[i + 1] { u := u + [s[i]]; }
      i := i + 1;
    }
    assert s[|s|..] == [] && Unique([]) == [];
  }

  lemma UniqueStep(s: seq<string>, i: nat)
    requires i < |s|
    ensures Unique(s[i..]) == (if i + 1 == |s| || s[i] != s[i + 1] then [s[i]] else []) + Unique(s[i + 1..])
  {
    assert s[i..][1..] == s[i + 1..];
    if i + 1 == |s| { assert s[i..] == [s[i]]; }
  }

  lemma {:induction false} FaultIsFinal(es: seq<Entry>, admits: Registry, i: nat)
    requires i <= |es| && PreparedAll(es[..i], admits).Err?
    ensures PreparedAll(es, admits) == PreparedAll(es[..i], admits)
    decreases |es|
  {
    hide Prepared;
    if i == |es| {
      assert es[..i] == es;
    } else {
      var front := es[..|es| - 1];
      assert front[..i] == es[..i];
      FaultIsFinal(front, admits, i);
    }
  }

  lemma {:induction false} NamespaceFaultIsFinal(names: seq<string>, i: nat)
    requires i <= |names| && CanonicalNamespaces(names[..i]).Err?
    ensures CanonicalNamespaces(names) == CanonicalNamespaces(names[..i])
    decreases |names|
  {
    hide CanonicalNamespace;
    if i == |names| {
      assert names[..i] == names;
    } else {
      var front := names[..|names| - 1];
      assert front[..i] == names[..i];
      NamespaceFaultIsFinal(front, i);
    }
  }
}
