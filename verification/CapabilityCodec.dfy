/** The stored form of a capability set. */
module CapabilityCodec {
  import opened Prelude
  import opened Ordering
  import opened Version
  import opened Vocabulary
  import opened Capability
  import opened CapabilityTable
  import opened Bytes
  import Token

  type Id = s: seq<Byte> | |s| == 16 witness seq(16, _ => 0)

  /** How numbers with fractions are laid out in 64 bits; patterns that are not finite numbers
      have no value. */
  datatype FloatFormat = FloatFormat(bits: real -> nat, value: nat -> Option<real>)

  /** What the key registry says about a name: the kind of value it carries, or why it is no key. */
  type Names = string -> Result<nat>

  function KindOf(v: CapabilityValue): (k: nat)
    ensures k <= 5
  {
    match v
    case Presence(_) => 0
    case VersionValue(_) => 1
    case Integer(_) => 2
    case Scalar(_) => 3
    case Enumeration(_) => 4
    case TokenSet(_) => 5
  }

  function Admits(names: Names): Registry { (key: string, v: CapabilityValue) => names(key) == Ok(KindOf(v)) }

  // ---- Texts ------------------------------------------------------------------------------

  function TakeText(c: Cursor, limit: nat): (r: Read<string>)
    requires InBounds(c)
    ensures Sound(c, r)
  {
    var r := TakeItem(c, Text(limit));
    Read(r.cursor, match r.value case Some(i) => Some(i.str) case None => None)
  }

  function TakeTexts(c: Cursor, n: nat, limit: nat): (r: Read<seq<string>>)
    requires InBounds(c)
    ensures Sound(c, r)
    decreases n
  {
    if c.error.Some? then Read(c, None)
    else if n == 0 then Read(c, Some([]))
    else
      var first := TakeText(c, limit);
      if first.value.None? then Read(first.cursor, None)
      else
        var rest := TakeTexts(first.cursor, n - 1, limit);
        Read(rest.cursor, match rest.value case Some(ss) => Some([first.value.value] + ss) case None => None)
  }

  predicate TextFits(s: string, limit: nat) { Fits(Text(limit), Str(s)) }

  predicate TextsFit(ss: seq<string>, limit: nat) { forall i :: 0 <= i < |ss| ==> TextFits(ss[i], limit) }

  function PutText(s: string, limit: nat): (b: seq<Byte>)
    requires TextFits(s, limit)
    ensures |b| >= 4
  {
    Encoded(Text(limit), Str(s))
  }

  function PutTexts(ss: seq<string>, limit: nat): (b: seq<Byte>)
    requires TextsFit(ss, limit)
    ensures |b| >= 4 * |ss|
  {
    if ss == [] then [] else PutText(ss[0], limit) + PutTexts(ss[1..], limit)
  }

  lemma TextRoundTrips(c: Cursor, s: string, limit: nat)
    requires TextFits(s, limit) && At(c, PutText(s, limit))
    ensures TakeText(c, limit) == Read(Past(c, PutText(s, limit)), Some(s))
  {
    hide Encoded, TakeItem;
    ItemRoundTrip(c, Text(limit), Str(s));
  }

  /** The longest text a length field can announce. */
  const MAX_WRITTEN := 0xFFFF_FFFF

  lemma ShortTextRoundTrips(c: Cursor, s: string, limit: nat)
    requires TextFits(s, MAX_WRITTEN) && |s| <= limit && At(c, PutText(s, MAX_WRITTEN))
    ensures TakeText(c, limit) == Read(Past(c, PutText(s, MAX_WRITTEN)), Some(s))
  {
    assert PutText(s, MAX_WRITTEN) == PutText(s, limit);
    TextRoundTrips(c, s, limit);
  }

  lemma LongTextFails(c: Cursor, s: string, limit: nat)
    requires TextFits(s, MAX_WRITTEN) && |s| > limit && At(c, PutText(s, MAX_WRITTEN))
    ensures TakeText(c, limit).value.None? && TakeText(c, limit).cursor.error == Some(BoundsExceeded)
  {
    hide Little, TextBytes, IsText;
    RangeOfEight();
    AtParts(c, Little(|s|, 4), TextBytes(s));
    WordRoundTrip(c, |s|, 4);
  }

  lemma {:induction false} TextsRoundTrip(c: Cursor, ss: seq<string>, limit: nat)
    requires TextsFit(ss, limit) && At(c, PutTexts(ss, limit))
    ensures TakeTexts(c, |ss|, limit) == Read(Past(c, PutTexts(ss, limit)), Some(ss))
    decreases |ss|
  {
    hide PutText, TakeText, TextFits;
    if ss != [] {
      AtParts(c, PutText(ss[0], limit), PutTexts(ss[1..], limit));
      TextRoundTrips(c, ss[0], limit);
      TextsRoundTrip(Past(c, PutText(ss[0], limit)), ss[1..], limit);
      assert ss == [ss[0]] + ss[1..];
    }
  }

  // ---- Values -----------------------------------------------------------------------------

  /** The writer can express the value. */
  predicate ValueFits(v: CapabilityValue, f: FloatFormat) {
    match v
    case Presence(_) => true
    case VersionValue(x) => TextFits(x.prerelease, MAX_WRITTEN)
    case Integer(i) => Fits(Signed, Quantity(i))
    case Scalar(x) => f.bits(x) < 0x1_0000_0000_0000_0000 && f.value(f.bits(x)) == Some(x)
    case Enumeration(t) => TextFits(t, MAX_TOKEN_BYTES)
    case TokenSet(ts) => |ts| <= MAX_TOKENS && TextsFit(ts, MAX_TOKEN_BYTES)
  }

  function PutPayload(v: CapabilityValue, f: FloatFormat): (b: seq<Byte>)
    requires ValueFits(v, f)
  {
    match v
    case Presence(flag) => Encoded(Flag, Truth(flag))
    case VersionValue(x) => PutVersion(x)
    case Integer(i) => Encoded(Signed, Quantity(i))
    case Scalar(x) => Little(f.bits(x), 8)
    case Enumeration(t) => PutText(t, MAX_TOKEN_BYTES)
    case TokenSet(ts) => Little(|ts|, 4) + PutTexts(ts, MAX_TOKEN_BYTES)
  }

  function PutValue(v: CapabilityValue, f: FloatFormat): (b: seq<Byte>)
    requires ValueFits(v, f)
    ensures |b| >= 1
  {
    Little(KindOf(v), 1) + PutPayload(v, f)
  }

  function TakeVersion(c: Cursor): (r: Read<CapabilityValue>)
    requires InBounds(c)
    ensures Sound(c, r)
  {
    RangeOfEight();
    var major := TakeWord(c, 4);
    if major.value.None? then Read(major.cursor, None) else
    var minor := TakeWord(major.cursor, 4);
    if minor.value.None? then Read(minor.cursor, None) else
    var patch := TakeWord(minor.cursor, 4);
    if patch.value.None? then Read(patch.cursor, None) else
    var prerelease := TakeText(patch.cursor, MAX_TOKEN_BYTES);
    if prerelease.value.None? then Read(prerelease.cursor, None) else
    Read(prerelease.cursor, Some(VersionValue(SemanticVersion(major.value.value, minor.value.value, patch.value.value, prerelease.value.value, ""))))
  }

  function TakeScalar(c: Cursor, f: FloatFormat): (r: Read<CapabilityValue>)
    requires InBounds(c)
    ensures Sound(c, r)
  {
    var bits := TakeWord(c, 8);
    if bits.value.None? then Read(bits.cursor, None)
    else match f.value(bits.value.value)
      case Some(x) => Read(bits.cursor, Some(Scalar(x)))
      case None => Read(Failed(bits.cursor, NonFiniteQuantity), None)
  }

  function TakeTokens(c: Cursor): (r: Read<CapabilityValue>)
    requires InBounds(c)
    ensures Sound(c, r)
  {
    var n := TakeCount(c, MAX_TOKENS, 4);
    if n.value.None? then Read(n.cursor, None)
    else
      var ts := TakeTexts(n.cursor, n.value.value, MAX_TOKEN_BYTES);
      Read(ts.cursor, match ts.value case Some(ss) => Some(TokenSet(ss)) case None => None)
  }

  function TakePayload(c: Cursor, kind: nat, f: FloatFormat): (r: Read<CapabilityValue>)
    requires InBounds(c) && kind <= 5
    ensures Sound(c, r)
  {
    if kind == 0 then
      var r := TakeItem(c, Flag);
      Read(r.cursor, match r.value case Some(i) => Some(Presence(i.truth)) case None => None)
    else if kind == 1 then TakeVersion(c)
    else if kind == 2 then
      var r := TakeItem(c, Signed);
      Read(r.cursor, match r.value case Some(i) => Some(Integer(i.quantity)) case None => None)
    else if kind == 3 then TakeScalar(c, f)
    else if kind == 4 then
      var r := TakeText(c, MAX_TOKEN_BYTES);
      Read(r.cursor, match r.value case Some(t) => Some(Enumeration(t)) case None => None)
    else TakeTokens(c)
  }

  function TakeValue(c: Cursor, f: FloatFormat): (r: Read<CapabilityValue>)
    requires InBounds(c)
    ensures Sound(c, r)
  {
    var kind := TakeWord(c, 1);
    if kind.value.None? then Read(kind.cursor, None)
    else if kind.value.value > 5 then Read(Failed(kind.cursor, MalformedData), None)
    else TakePayload(kind.cursor, kind.value.value, f)
  }

  function PutVersion(x: SemanticVersion): seq<Byte>
    requires TextFits(x.prerelease, MAX_WRITTEN)
  {
    Little(x.major, 4) + (Little(x.minor, 4) + (Little(x.patch, 4) + PutText(x.prerelease, MAX_WRITTEN)))
  }

  /** A version comes back, without build metadata, exactly when its prerelease is short enough. */
  lemma VersionRoundTrips(c: Cursor, x: SemanticVersion)
    requires TextFits(x.prerelease, MAX_WRITTEN) && At(c, PutVersion(x))
    ensures |x.prerelease| <= MAX_TOKEN_BYTES ==> TakeVersion(c) == Read(Past(c, PutVersion(x)), Some(VersionValue(x.(build := ""))))
    ensures |x.prerelease| > MAX_TOKEN_BYTES ==> TakeVersion(c).value.None? && TakeVersion(c).cursor.error == Some(BoundsExceeded)
  {
    hide Little, PutText, TakeText, TakeWord, At, TextFits;
    RangeOfEight();
    var a, b, d, t := Little(x.major, 4), Little(x.minor, 4), Little(x.patch, 4), PutText(x.prerelease, MAX_WRITTEN);
    AtParts(c, a, b + (d + t));
    AtParts(Past(c, a), b, d + t);
    AtParts(Past(Past(c, a), b), d, t);
    WordRoundTrip(c, x.major, 4);
    WordRoundTrip(Past(c, a), x.minor, 4);
    WordRoundTrip(Past(Past(c, a), b), x.patch, 4);
    if |x.prerelease| <= MAX_TOKEN_BYTES {
      ShortTextRoundTrips(Past(Past(Past(c, a), b), d), x.prerelease, MAX_TOKEN_BYTES);
    } else {
      LongTextFails(Past(Past(Past(c, a), b), d), x.prerelease, MAX_TOKEN_BYTES);
    }
  }

  lemma TokensRoundTrip(c: Cursor, ts: seq<string>)
    requires |ts| <= MAX_TOKENS && TextsFit(ts, MAX_TOKEN_BYTES) && At(c, Little(|ts|, 4) + PutTexts(ts, MAX_TOKEN_BYTES))
    ensures TakeTokens(c) == Read(Past(c, Little(|ts|, 4) + PutTexts(ts, MAX_TOKEN_BYTES)), Some(TokenSet(ts)))
  {
    hide Little, PutTexts, TakeTexts, TakeCount, TextsFit;
    AtParts(c, Little(|ts|, 4), PutTexts(ts, MAX_TOKEN_BYTES));
    CountRoundTrip(c, |ts|, MAX_TOKENS, 4, PutTexts(ts, MAX_TOKEN_BYTES));
    TextsRoundTrip(Past(c, Little(|ts|, 4)), ts, MAX_TOKEN_BYTES);
  }

  lemma PayloadRoundTrip(c: Cursor, v: CapabilityValue, f: FloatFormat)
    requires ValueFits(v, f) && At(c, PutPayload(v, f))
    ensures PrereleaseFits(v) ==> TakePayload(c, KindOf(v), f) == Read(Past(c, PutPayload(v, f)), Some(Carried(v)))
    ensures !PrereleaseFits(v) ==> TakePayload(c, KindOf(v), f).value.None? && TakePayload(c, KindOf(v), f).cursor.error == Some(BoundsExceeded)
  {
    hide Little, PutText, PutTexts, TakeText, TakeVersion, TakeTokens, TextFits, TextsFit, Encoded, TakeItem, At, TakeWord, PutVersion;
    match v
    case Presence(flag) => ItemRoundTrip(c, Flag, Truth(flag));
    case VersionValue(x) => VersionRoundTrips(c, x);
    case Integer(i) => ItemRoundTrip(c, Signed, Quantity(i));
    case Scalar(x) =>
      RangeOfEight();
      WordRoundTrip(c, f.bits(x), 8);
    case Enumeration(t) => TextRoundTrips(c, t, MAX_TOKEN_BYTES);
    case TokenSet(ts) => TokensRoundTrip(c, ts);
  }

  /** Decoding an encoded value returns what the wire carries of it, unless its prerelease is too
      long. */
  lemma ValueRoundTrip(c: Cursor, v: CapabilityValue, f: FloatFormat)
    requires ValueFits(v, f) && At(c, PutValue(v, f))
    ensures PrereleaseFits(v) ==> TakeValue(c, f) == Read(Past(c, PutValue(v, f)), Some(Carried(v)))
    ensures !PrereleaseFits(v) ==> TakeValue(c, f).value.None? && TakeValue(c, f).cursor.error == Some(BoundsExceeded)
  {
    hide Little, PutPayload, TakePayload, At, TakeWord, Carried, ValueFits, PrereleaseFits;
    SmallRange();
    AtParts(c, Little(KindOf(v), 1), PutPayload(v, f));
    WordRoundTrip(c, KindOf(v), 1);
    PayloadRoundTrip(Past(c, Little(KindOf(v), 1)), v, f);
  }

  lemma SmallRange()
    ensures Range(1) == 256
  {
    assert Range(0) == 1;
  }

  // ---- Records ----------------------------------------------------------------------------

  function StateNumber(s: CapabilityState): (n: nat)
    ensures n <= 3
  {
    match s case Unknown => 0 case Supported => 1 case Unsupported => 2 case Degraded => 3
  }

  function StateFrom(n: nat): CapabilityState
    requires n <= 3
  {
    if n == 0 then Unknown else if n == 1 then Supported else if n == 2 then Unsupported else CapabilityState.Degraded
  }

  predicate EntryFits(e: Entry, f: FloatFormat) {
    TextFits(e.key, MAX_NAME_BYTES) && TextFits(e.record.unit, MAX_TOKEN_BYTES) && ValueFits(e.record.value, f)
  }

  function PutEntry(e: Entry, f: FloatFormat): (b: seq<Byte>)
    requires EntryFits(e, f)
    ensures |b| >= 8
  {
    PutText(e.key, MAX_NAME_BYTES) + (Little(StateNumber(e.record.state), 1) + (PutText(e.record.unit, MAX_TOKEN_BYTES) + PutValue(e.record.value, f)))
  }

  function CarriedEntry(e: Entry): Entry { e.(record := e.record.(value := Carried(e.record.value))) }

  /** The rest of a record once its texts are read: the key must exist, the value must be of the
      key's kind and have a canonical form. */
  function FinishEntry(c: Cursor, key: string, state: nat, unit: string, f: FloatFormat, names: Names): (r: Read<Entry>)
    requires InBounds(c) && state <= 3
    ensures Sound(c, r)
  {
    if c.error.Some? then Read(c, None)
    else match names(key)
      case Err(code) => Read(Failed(c, code), None)
      case Ok(kind) =>
        var v := TakeValue(c, f);
        if v.value.None? then Read(v.cursor, None)
        else if KindOf(v.value.value) != kind then Read(Failed(v.cursor, CapabilityMismatch), None)
        else match CanonicalValue(v.value.value)
          case Err(code) => Read(Failed(v.cursor, code), None)
          case Ok(value) => Read(v.cursor, Some(Entry(key, CapabilityRecord(StateFrom(state), value, unit))))
  }

  function TakeEntry(c: Cursor, f: FloatFormat, names: Names): (r: Read<Entry>)
    requires InBounds(c)
    ensures Sound(c, r)
  {
    var key := TakeText(c, MAX_NAME_BYTES);
    if key.value.None? then Read(key.cursor, None) else
    var state := TakeWord(key.cursor, 1);
    if state.value.None? then Read(state.cursor, None) else
    if state.value.value > 3 then Read(Failed(state.cursor, MalformedData), None) else
    var unit := TakeText(state.cursor, MAX_TOKEN_BYTES);
    if unit.value.None? then Read(unit.cursor, None) else
    FinishEntry(unit.cursor, key.value.value, state.value.value, unit.value.value, f, names)
  }

  function TakeEntries(c: Cursor, n: nat, f: FloatFormat, names: Names): (r: Read<seq<Entry>>)
    requires InBounds(c)
    ensures Sound(c, r)
    decreases n
  {
    if c.error.Some? then Read(c, None)
    else if n == 0 then Read(c, Some([]))
    else
      var first := TakeEntry(c, f, names);
      if first.value.None? then Read(first.cursor, None)
      else
        var rest := TakeEntries(first.cursor, n - 1, f, names);
        Read(rest.cursor, match rest.value case Some(es) => Some([first.value.value] + es) case None => None)
  }

  predicate EntriesFit(es: seq<Entry>, f: FloatFormat) { forall i :: 0 <= i < |es| ==> EntryFits(es[i], f) }

  function PutEntries(es: seq<Entry>, f: FloatFormat): (b: seq<Byte>)
    requires EntriesFit(es, f)
    ensures |b| >= 8 * |es|
  {
    if es == [] then [] else PutEntry(es[0], f) + PutEntries(es[1..], f)
  }

  /** A record in the form a stored set holds it, as far as the wire carries it. */
  ghost predicate EntryCanonical(e: Entry, names: Names) {
    && Prepared(e, Admits(names)) == Ok(e)
    && CanonicalValue(Carried(e.record.value)) == Ok(Carried(e.record.value))
  }

  lemma CarriedKeepsKind(v: CapabilityValue)
    ensures KindOf(Carried(v)) == KindOf(v)
  {
  }

  lemma CanonicalKeyHasKind(e: Entry, names: Names)
    requires EntryCanonical(e, names)
    ensures names(e.key) == Ok(KindOf(e.record.value))
  {
    hide CanonicalValue;
  }

  lemma FinishRoundTrip(c: Cursor, e: Entry, f: FloatFormat, names: Names)
    requires ValueFits(e.record.value, f) && EntryCanonical(e, names) && At(c, PutValue(e.record.value, f))
    ensures
      var r := FinishEntry(c, e.key, StateNumber(e.record.state), e.record.unit, f, names);
      && (PrereleaseFits(e.record.value) ==> r == Read(Past(c, PutValue(e.record.value, f)), Some(CarriedEntry(e))))
      && (!PrereleaseFits(e.record.value) ==> r.value.None? && r.cursor.error == Some(BoundsExceeded))
  {
    hide PutValue, TakeValue, ValueFits, CanonicalValue, Carried, Prepared, KindOf, At, StateNumber, StateFrom, PrereleaseFits;
    CanonicalKeyHasKind(e, names);
    CarriedKeepsKind(e.record.value);
    StateReturns(e.record.state);
    AtIsReady(c, PutValue(e.record.value, f));
    ValueRoundTrip(c, e.record.value, f);
  }

  lemma StateReturns(s: CapabilityState)
    ensures StateFrom(StateNumber(s)) == s
  {
  }

  lemma AtIsReady(c: Cursor, b: seq<Byte>)
    requires At(c, b)
    ensures InBounds(c) && c.error.None?
  {
  }

  lemma EntryRoundTrip(c: Cursor, e: Entry, f: FloatFormat, names: Names)
    requires EntryFits(e, f) && EntryCanonical(e, names) && At(c, PutEntry(e, f))
    ensures PrereleaseFits(e.record.value) ==> TakeEntry(c, f, names) == Read(Past(c, PutEntry(e, f)), Some(CarriedEntry(e)))
    ensures !PrereleaseFits(e.record.value) ==> TakeEntry(c, f, names).value.None? && TakeEntry(c, f, names).cursor.error == Some(BoundsExceeded)
  {
    hide Little, PutText, PutValue, TakeText, TakeWord, FinishEntry, At, TextFits, ValueFits, EntryCanonical, CarriedEntry, StateNumber;
    hide PrereleaseFits;
    SmallRange();
    var n := StateNumber(e.record.state);
    var k, s, u, v := PutText(e.key, MAX_NAME_BYTES), Little(n, 1), PutText(e.record.unit, MAX_TOKEN_BYTES), PutValue(e.record.value, f);
    AtParts(c, k, s + (u + v));
    AtParts(Past(c, k), s, u + v);
    AtParts(Past(Past(c, k), s), u, v);
    TextRoundTrips(c, e.key, MAX_NAME_BYTES);
    WordRoundTrip(Past(c, k), n, 1);
    TextRoundTrips(Past(Past(c, k), s), e.record.unit, MAX_TOKEN_BYTES);
    FinishRoundTrip(Past(Past(Past(c, k), s), u), e, f, names);
  }

  function CarriedEntries(es: seq<Entry>): (r: seq<Entry>)
    ensures |r| == |es|
  {
    seq(|es|, i requires 0 <= i < |es| => CarriedEntry(es[i]))
  }

  predicate PrereleasesFit(es: seq<Entry>) { forall i :: 0 <= i < |es| ==> PrereleaseFits(es[i].record.value) }

  lemma PrereleasesStep(es: seq<Entry>)
    requires es != []
    ensures PrereleasesFit(es) <==> PrereleaseFits(es[0].record.value) && PrereleasesFit(es[1..])
  {
    hide PrereleaseFits;
    assert forall i :: 1 <= i < |es| ==> es[i] == es[1..][i - 1];
  }

  lemma {:induction false} EntriesRoundTrip(c: Cursor, es: seq<Entry>, f: FloatFormat, names: Names)
    requires EntriesFit(es, f) && (forall i :: 0 <= i < |es| ==> EntryCanonical(es[i], names)) && At(c, PutEntries(es, f))
    ensures PrereleasesFit(es) ==> TakeEntries(c, |es|, f, names) == Read(Past(c, PutEntries(es, f)), Some(CarriedEntries(es)))
    ensures !PrereleasesFit(es) ==>
              TakeEntries(c, |es|, f, names).value.None? && TakeEntries(c, |es|, f, names).cursor.error == Some(BoundsExceeded)
    decreases |es|
  {
    hide PutEntry, TakeEntry, EntryFits, EntryCanonical, CarriedEntry, PrereleaseFits;
    if es != [] {
      PrereleasesStep(es);
      AtParts(c, PutEntry(es[0], f), PutEntries(es[1..], f));
      EntryRoundTrip(c, es[0], f, names);
      EntriesRoundTrip(Past(c, PutEntry(es[0], f)), es[1..], f, names);
      assert CarriedEntries(es) == [CarriedEntry(es[0])] + CarriedEntries(es[1..]);
      hide PrereleasesFit;
    }
  }

  // ---- Sets -------------------------------------------------------------------------------

  datatype SetRow = SetRow(id: Id, generation: nat, records: seq<Entry>, closed: seq<string>)

  /** The identity a set's content gives it. */
  type Identity = (seq<Entry>, seq<string>) -> Id

  function PutLists(s: SetRow, f: FloatFormat): seq<Byte>
    requires EntriesFit(s.records, f) && TextsFit(s.closed, MAX_NAME_BYTES)
  {
    Little(|s.records|, 4) + (PutEntries(s.records, f) + (Little(|s.closed|, 4) + PutTexts(s.closed, MAX_NAME_BYTES)))
  }

  function PutSet(s: SetRow, f: FloatFormat): seq<Byte>
    requires EntriesFit(s.records, f) && TextsFit(s.closed, MAX_NAME_BYTES)
  {
    s.id + (Little(s.generation, 8) + PutLists(s, f))
  }

  datatype Lists = Lists(records: seq<Entry>, closed: seq<string>)

  function TakeLists(c: Cursor, f: FloatFormat, names: Names): (r: Read<Lists>)
    requires InBounds(c)
    ensures Sound(c, r)
  {
    var n := TakeCount(c, MAX_CAPABILITIES, 8);
    if n.value.None? then Read(n.cursor, None) else
    var es := TakeEntries(n.cursor, n.value.value, f, names);
    if es.value.None? then Read(es.cursor, None) else
    var m := TakeCount(es.cursor, MAX_CAPABILITIES, 4);
    if m.value.None? then Read(m.cursor, None) else
    var closed := TakeTexts(m.cursor, m.value.value, MAX_NAME_BYTES);
    Read(closed.cursor, match closed.value case Some(ss) => Some(Lists(es.value.value, ss)) case None => None)
  }

  /** Rebuilds the set from what was read and checks the identity that came with it. */
  function Rebuild(id: Id, generation: nat, l: Lists, names: Names, identify: Identity): Result<SetRow> {
    match Stored(l.records, Admits(names))
    case Err(code) => Err(code)
    case Ok(records) =>
      match CanonicalNamespaces(l.closed)
      case Err(code) => Err(code)
      case Ok(closed) =>
        var kept := Unique(Sort(StringLess, closed));
        if identify(records, kept) != id then Err(IntegrityFailure) else Ok(SetRow(id, generation, records, kept))
  }

  function DecodeSet(c: Cursor, f: FloatFormat, names: Names, identify: Identity): (r: Read<SetRow>)
    requires InBounds(c)
    ensures Sound(c, r)
  {
    var id := Take(c, 16);
    if id.value.None? then Read(id.cursor, None) else
    var generation := TakeWord(id.cursor, 8);
    if generation.value.None? then Read(generation.cursor, None) else
    var l := TakeLists(generation.cursor, f, names);
    if l.value.None? then Read(l.cursor, None) else
    match Rebuild(id.value.value, generation.value.value, l.value.value, names, identify)
    case Err(code) => Read(Failed(l.cursor, code), None)
    case Ok(s) => Read(l.cursor, Some(s))
  }

  /** What the wire carries of a set. */
  function CarriedSet(s: SetRow): SetRow { s.(records := CarriedEntries(s.records)) }

  /** A set as `SetRecords` and `SetClosedNamespaces` leave it. */
  ghost predicate SetCanonical(s: SetRow, names: Names) {
    && StrictKeys(s.records) && |s.records| <= MAX_CAPABILITIES
    && (forall i :: 0 <= i < |s.records| ==> Prepared(s.records[i], Admits(names)) == Ok(s.records[i]))
    && StrictlySorted(s.closed) && |s.closed| <= MAX_CAPABILITIES
    && (forall i :: 0 <= i < |s.closed| ==> CanonicalNamespace(s.closed[i]) == Ok(s.closed[i]))
  }

  lemma {:induction false} CanonicalNamespacesStay(names: seq<string>)
    requires forall i :: 0 <= i < |names| ==> CanonicalNamespace(names[i]) == Ok(names[i])
    ensures CanonicalNamespaces(names) == Ok(names)
  {
    hide CanonicalNamespace;
    if names != [] {
      var front, x := names[..|names| - 1], names[|names| - 1];
      assert forall i :: 0 <= i < |front| ==> front[i] == names[i];
      CanonicalNamespacesStay(front);
      assert CanonicalNamespace(x) == Ok(x);
      assert names == front + [x];
    }
  }

  lemma CanonicalRecordsStay(es: seq<Entry>, admits: Registry)
    requires StrictKeys(es) && |es| <= MAX_CAPABILITIES && forall i :: 0 <= i < |es| ==> Prepared(es[i], admits) == Ok(es[i])
    ensures Stored(es, admits) == Ok(es)
  {
    hide StringLess, PreparedAll, Prepared, Sort;
    PreparedAllIff(es, admits);
    assert PreparedAll(es, admits).value == es;
    forall i, j | 0 <= i < j < |es|
      ensures !KeyLess(es[j], es[i]) && es[i].key != es[j].key
    {
      StringLessTotal(es[i].key, es[j].key);
    }
    KeysAreOrdered();
    SortSorts(KeyLess, es);
    SortPermutes(KeyLess, es);
    assert Separates(KeyLess, es);
    SortedUnique(KeyLess, es, Sort(KeyLess, es));
  }

  lemma CarriedStaysCanonical(e: Entry, names: Names)
    requires Prepared(e, Admits(names)) == Ok(e)
    ensures EntryCanonical(e, names) && Prepared(CarriedEntry(e), Admits(names)) == Ok(CarriedEntry(e))
  {
    hide Token.Canonical, CanonicalTokens, Unique, Sort;
  }

  lemma CarriedSetIsCanonical(s: SetRow, names: Names)
    requires SetCanonical(s, names)
    ensures SetCanonical(CarriedSet(s), names)
    ensures forall i :: 0 <= i < |s.records| ==> EntryCanonical(s.records[i], names)
  {
    hide CanonicalValue, EntryFault, Carried, Prepared, StringLess, CanonicalNamespace, EntryCanonical;
    forall i | 0 <= i < |s.records|
      ensures EntryCanonical(s.records[i], names) && Prepared(CarriedEntry(s.records[i]), Admits(names)) == Ok(CarriedEntry(s.records[i]))
    {
      CarriedStaysCanonical(s.records[i], names);
    }
  }

  lemma ListsRoundTrip(c: Cursor, s: SetRow, f: FloatFormat, names: Names)
    requires EntriesFit(s.records, f) && TextsFit(s.closed, MAX_NAME_BYTES) && SetCanonical(s, names)
    requires At(c, PutLists(s, f))
    ensures PrereleasesFit(s.records) ==>
              TakeLists(c, f, names) == Read(Past(c, PutLists(s, f)), Some(Lists(CarriedEntries(s.records), s.closed)))
    ensures !PrereleasesFit(s.records) ==> TakeLists(c, f, names).value.None? && TakeLists(c, f, names).cursor.error == Some(BoundsExceeded)
  {
    CarriedSetIsCanonical(s, names);
    CountsFit(s, names);
    hide Little, PutEntries, PutTexts, TakeCount, TakeEntries, TakeTexts, At, EntriesFit, TextsFit, SetCanonical, CarriedEntries, EntryCanonical;
    hide PrereleasesFit;
    var a, es, b, ts := Little(|s.records|, 4), PutEntries(s.records, f), Little(|s.closed|, 4), PutTexts(s.closed, MAX_NAME_BYTES);
    AtParts(c, a, es + (b + ts));
    AtParts(Past(c, a), es, b + ts);
    AtParts(Past(Past(c, a), es), b, ts);
    CountRoundTrip(c, |s.records|, MAX_CAPABILITIES, 8, es + (b + ts));
    EntriesRoundTrip(Past(c, a), s.records, f, names);
    CountRoundTrip(Past(Past(c, a), es), |s.closed|, MAX_CAPABILITIES, 4, ts);
    TextsRoundTrip(Past(Past(Past(c, a), es), b), s.closed, MAX_NAME_BYTES);
  }

  lemma CountsFit(s: SetRow, names: Names)
    requires SetCanonical(s, names)
    ensures |s.records| <= MAX_CAPABILITIES && |s.closed| <= MAX_CAPABILITIES
  {
  }

  lemma CanonicalSetRebuilds(s: SetRow, names: Names, identify: Identity)
    requires SetCanonical(s, names)
    ensures identify(s.records, s.closed) == s.id ==> Rebuild(s.id, s.generation, Lists(s.records, s.closed), names, identify) == Ok(s)
    ensures identify(s.records, s.closed) != s.id ==> Rebuild(s.id, s.generation, Lists(s.records, s.closed), names, identify) == Err(IntegrityFailure)
  {
    CanonicalRecordsStay(s.records, Admits(names));
    CanonicalNamespacesStay(s.closed);
    StrictlySortedIsUnique(s.closed);
    hide Stored, CanonicalNamespaces, Unique, Sort, SetCanonical, Admits;
  }

  /** Decoding an encoded canonical set, whatever follows it, returns everything the wire carries
      of it and consumes exactly its bytes, if and only if its prereleases are short enough and it
      comes with the identity of its content. */
  lemma SetRoundTrip(c: Cursor, s: SetRow, f: FloatFormat, names: Names, identify: Identity)
    requires EntriesFit(s.records, f) && TextsFit(s.closed, MAX_NAME_BYTES) && SetCanonical(s, names)
    requires s.generation <= MAX_GENERATION && At(c, PutSet(s, f))
    ensures
      var short, genuine := PrereleasesFit(s.records), identify(CarriedEntries(s.records), s.closed) == s.id;
      && (short && genuine ==> DecodeSet(c, f, names, identify) == Read(Past(c, PutSet(s, f)), Some(CarriedSet(s))))
      && (short && !genuine ==> DecodeSet(c, f, names, identify).cursor.error == Some(IntegrityFailure))
      && (!short ==> DecodeSet(c, f, names, identify).cursor.error == Some(BoundsExceeded))
  {
    CarriedSetIsCanonical(s, names);
    hide Little, PutLists, TakeLists, TakeWord, Rebuild, EntriesFit, TextsFit, SetCanonical, CarriedEntries, PrereleasesFit;
    RangeOfEight();
    AtParts(c, s.id, Little(s.generation, 8) + PutLists(s, f));
    AtParts(Past(c, s.id), Little(s.generation, 8), PutLists(s, f));
    WordRoundTrip(Past(c, s.id), s.generation, 8);
    ListsRoundTrip(Past(Past(c, s.id), Little(s.generation, 8)), s, f, names);
    CanonicalSetRebuilds(CarriedSet(s), names, identify);
  }

  // ---- Reading and writing in place -------------------------------------------------------

  method ReadText(reader: ByteReader, limit: nat) returns (s: Option<string>)
    requires reader.Valid()
    modifies reader
    ensures reader.Valid() && Read(reader.Position(), s) == TakeText(old(reader.Position()), limit)
  {
    hide TakeItem;
    var i := reader.GetItem(Text(limit));
    return if i.Some? then Some(i.value.str) else None;
  }

  method ReadTexts(reader: ByteReader, n: nat, limit: nat) returns (ss: Option<seq<string>>)
    requires reader.Valid()
    modifies reader
    ensures reader.Valid() && Read(reader.Position(), ss) == TakeTexts(old(reader.Position()), n, limit)
  {
    hide TakeText;
    if reader.error.Some? { return None; }
    var found: seq<string> := [];
    ghost var whole := TakeTexts(reader.Position(), n, limit);
    BehindNone(whole);
    for i := 0 to n
      invariant reader.Valid() && reader.error.None? && whole == Behind(found, TakeTexts(reader.Position(), n - i, limit))
    {
      var s := ReadText(reader, limit);
      if s.None? { return None; }
      BehindOne(found, s.value, TakeTexts(reader.Position(), n - i - 1, limit));
      found := found + [s.value];
    }
    assert found + [] == found;
    return Some(found);
  }

  method ReadVersion(reader: ByteReader) returns (v: Option<CapabilityValue>)
    requires reader.Valid()
    modifies reader
    ensures reader.Valid() && Read(reader.Position(), v) == TakeVersion(old(reader.Position()))
  {
    RangeOfEight();
    hide TakeWord, TakeText, Range;
    var major := reader.GetWord(4);
    if major.None? { return None; }
    var minor := reader.GetWord(4);
    if minor.None? { return None; }
    var patch := reader.GetWord(4);
    if patch.None? { return None; }
    var prerelease := ReadText(reader, MAX_TOKEN_BYTES);
    if prerelease.None? { return None; }
    return Some(VersionValue(SemanticVersion(major.value, minor.value, patch.value, prerelease.value, "")));
  }

  method ReadTokens(reader: ByteReader) returns (v: Option<CapabilityValue>)
    requires reader.Valid()
    modifies reader
    ensures reader.Valid() && Read(reader.Position(), v) == TakeTokens(old(reader.Position()))
  {
    hide TakeCount, TakeTexts;
    var n := reader.GetCount(MAX_TOKENS, 4);
    if n.None? { return None; }
    var ts := ReadTexts(reader, n.value, MAX_TOKEN_BYTES);
    return if ts.Some? then Some(TokenSet(ts.value)) else None;
  }

  method ReadValue(reader: ByteReader, f: FloatFormat) returns (v: Option<CapabilityValue>)
    requires reader.Valid()
    modifies reader
    ensures reader.Valid() && Read(reader.Position(), v) == TakeValue(old(reader.Position()), f)
  {
    hide TakeWord, TakeItem, TakeText, TakeVersion, TakeTokens;
    var kind := reader.GetWord(1);
    if kind.None? { return None; }
    if kind.value > 5 { reader.Fail(MalformedData); return None; }
    if kind.value == 0 {
      var i := reader.GetItem(Flag);
      return if i.Some? then Some(Presence(i.value.truth)) else None;
    } else if kind.value == 1 {
      v := ReadVersion(reader);
    } else if kind.value == 2 {
      var i := reader.GetItem(Signed);
      return if i.Some? then Some(Integer(i.value.quantity)) else None;
    } else if kind.value == 3 {
      var bits := reader.GetWord(8);
      if bits.None? { return None; }
      var x := f.value(bits.value);
      if x.None? { reader.Fail(NonFiniteQuantity); return None; }
      return Some(Scalar(x.value));
    } else if kind.value == 4 {
      var t := ReadText(reader, MAX_TOKEN_BYTES);
      return if t.Some? then Some(Enumeration(t.value)) else None;
    } else {
      v := ReadTokens(reader);
    }
  }

  method ReadEntry(reader: ByteReader, f: FloatFormat, names: Names) returns (e: Option<Entry>)
    requires reader.Valid()
    modifies reader
    ensures reader.Valid() && Read(reader.Position(), e) == TakeEntry(old(reader.Position()), f, names)
  {
    hide TakeWord, TakeText, TakeValue, CanonicalValue, KindOf;
    var key := ReadText(reader, MAX_NAME_BYTES);
    if key.None? { return None; }
    var state := reader.GetWord(1);
    if state.None? { return None; }
    if state.value > 3 { reader.Fail(MalformedData); return None; }
    var unit := ReadText(reader, MAX_TOKEN_BYTES);
    if unit.None? { return None; }
    var kind := names(key.value);
    if kind.Err? { reader.Fail(kind.code); return None; }
    var v := ReadValue(reader, f);
    if v.None? { return None; }
    if KindOf(v.value) != kind.value { reader.Fail(CapabilityMismatch); return None; }
    var value := CanonicalValue(v.value);
    if value.Err? { reader.Fail(value.code); return None; }
    return Some(Entry(key.value, CapabilityRecord(StateFrom(state.value), value.value, unit.value)));
  }

  method ReadEntries(reader: ByteReader, n: nat, f: FloatFormat, names: Names) returns (es: Option<seq<Entry>>)
    requires reader.Valid()
    modifies reader
    ensures reader.Valid() && Read(reader.Position(), es) == TakeEntries(old(reader.Position()), n, f, names)
  {
    hide TakeEntry;
    if reader.error.Some? { return None; }
    var found: seq<Entry> := [];
    ghost var whole := TakeEntries(reader.Position(), n, f, names);
    BehindNone(whole);
    for i := 0 to n
      invariant reader.Valid() && reader.error.None? && whole == Behind(found, TakeEntries(reader.Position(), n - i, f, names))
    {
      var e := ReadEntry(reader, f, names);
      if e.None? { return None; }
      BehindOne(found, e.value, TakeEntries(reader.Position(), n - i - 1, f, names));
      found := found + [e.value];
    }
    assert found + [] == found;
    return Some(found);
  }

  method ReadSet(reader: ByteReader, f: FloatFormat, names: Names, identify: Identity) returns (s: Option<SetRow>)
    requires reader.Valid()
    modifies reader
    ensures reader.Valid() && Read(reader.Position(), s) == DecodeSet(old(reader.Position()), f, names, identify)
  {
    hide TakeWord, TakeCount, TakeEntries, TakeTexts, Rebuild;
    var id := reader.Get(16);
    if id.None? { return None; }
    var generation := reader.GetWord(8);
    if generation.None? { return None; }
    var n := reader.GetCount(MAX_CAPABILITIES, 8);
    if n.None? { return None; }
    var es := ReadEntries(reader, n.value, f, names);
    if es.None? { return None; }
    var m := reader.GetCount(MAX_CAPABILITIES, 4);
    if m.None? { return None; }
    var closed := ReadTexts(reader, m.value, MAX_NAME_BYTES);
    if closed.None? { return None; }
    var rebuilt := Rebuild(id.value, generation.value, Lists(es.value, closed.value), names, identify);
    if rebuilt.Err? { reader.Fail(rebuilt.code); return None; }
    return Some(rebuilt.value);
  }

  method WriteTexts(writer: ByteWriter, ss: seq<string>, limit: nat)
    requires TextsFit(ss, limit)
    modifies writer
    ensures writer.bytes == old(writer.bytes) + PutTexts(ss, limit)
  {
    hide PutText, TextFits;
    for i := 0 to |ss|
      invariant writer.bytes + PutTexts(ss[i..], limit) == old(writer.bytes) + PutTexts(ss, limit)
    {
      assert ss[i..][0] == ss[i] && ss[i..][1..] == ss[i + 1..];
      writer.PutRaw(PutText(ss[i], limit));
    }
    assert ss[|ss|..] == [];
  }

  method WriteEntries(writer: ByteWriter, es: seq<Entry>, f: FloatFormat)
    requires EntriesFit(es, f)
    modifies writer
    ensures writer.bytes == old(writer.bytes) + PutEntries(es, f)
  {
    hide PutEntry, EntryFits;
    for i := 0 to |es|
      invariant writer.bytes + PutEntries(es[i..], f) == old(writer.bytes) + PutEntries(es, f)
    {
      assert es[i..][0] == es[i] && es[i..][1..] == es[i + 1..];
      writer.PutRaw(PutEntry(es[i], f));
    }
    assert es[|es|..] == [];
  }

  method WriteSet(writer: ByteWriter, s: SetRow, f: FloatFormat)
    requires EntriesFit(s.records, f) && TextsFit(s.closed, MAX_NAME_BYTES)
    modifies writer
    ensures writer.bytes == old(writer.bytes) + PutSet(s, f)
  {
    hide Little, PutEntries, PutTexts, EntriesFit, TextsFit;
    writer.PutRaw(s.id);
    writer.PutWord(s.generation, 8);
    ghost var start := writer.bytes;
    writer.PutWord(|s.records|, 4);
    WriteEntries(writer, s.records, f);
    writer.PutWord(|s.closed|, 4);
    WriteTexts(writer, s.closed, MAX_NAME_BYTES);
    assert writer.bytes == start + PutLists(s, f);
    hide PutLists;
  }
}
