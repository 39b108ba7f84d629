/** Capability evidence: typed values, the three-valued lookup and the key names the engines read. */
module Capability {
  import opened Prelude
  import opened Version
  import opened Vocabulary
  import VersionRange

  datatype CapabilityState = Unknown | Supported | Unsupported | Degraded

  datatype CapabilityValue =
    | Presence(flag: bool)
    | VersionValue(version: SemanticVersion)
    | Integer(integer: int)
    | Scalar(scalar: real)
    | Enumeration(token: string)
    | TokenSet(tokens: seq<string>)
  {
    function KindOf(): Kind {
      match this
      case Presence(_) => PresenceKind
      case VersionValue(_) => VersionKind
      case Integer(_) => IntegerKind
      case Scalar(_) => ScalarKind
      case Enumeration(_) => EnumerationKind
      case TokenSet(_) => TokenSetKind
    }

    /** Accessors answer with a default when the payload has another kind. */
    function AsVersion(): SemanticVersion { if VersionValue? then version else ZERO_VERSION }

    function AsInteger(): int { if Integer? then integer else 0 }

    function AsTokens(): seq<string> { if TokenSet? then tokens else [] }

    /** The rendering of an enumeration payload, the only kind the vendor and architecture keys admit. */
    function AsToken(): string { if Enumeration? then token else "" }

    /** The tokens the set operators compare. */
    function TokenVector(): seq<string> {
      if TokenSet? then tokens else if Enumeration? then [token] else []
    }

    predicate Same(other: CapabilityValue) {
      if VersionValue? then other.VersionValue? && Compare(version, other.version) == Equal else this == other
    }

    /** Where the value stands to a bound; values of incomparable kinds stand nowhere. */
    predicate AtLeast(bound: CapabilityValue) {
      if VersionValue? then bound.VersionValue? && Compare(version, bound.version) != Less
      else IsNumber() && bound.IsNumber() && AsNumber() >= bound.AsNumber()
    }

    predicate AtMost(bound: CapabilityValue) {
      if VersionValue? then bound.VersionValue? && Compare(version, bound.version) != Greater
      else IsNumber() && bound.IsNumber() && AsNumber() <= bound.AsNumber()
    }

    predicate IsNumber() { Integer? || Scalar? }

    function AsNumber(): real { if Integer? then integer as real else if Scalar? then scalar else 0.0 }
  }

  // ---- Texts ------------------------------------------------------------------------------

  function IntegerText(i: int): string { if i < 0 then "-" + Decimal(-i) else Decimal(i) }

  function JoinTokens(ts: seq<string>): string {
    if ts == [] then "" else if |ts| == 1 then ts[0] else JoinTokens(ts[..|ts| - 1]) + "," + ts[|ts| - 1]
  }

  /** The printed value. No name carries a scalar, so the rendering of one is never seen. */
  function Render(v: CapabilityValue): string {
    match v
    case Presence(flag) => if flag then "present" else "absent"
    case VersionValue(x) => VersionRange.Text(x)
    case Integer(i) => IntegerText(i)
    case Scalar(_) => ""
    case Enumeration(t) => t
    case TokenSet(ts) => JoinTokens(ts)
  }

  // ---- Advertisements ---------------------------------------------------------------------

  datatype CapabilityRecord = CapabilityRecord(state: CapabilityState, value: CapabilityValue, unit: string)

  /** Advertised records by key, and the namespaces the advertiser speaks for completely. */
  datatype CapabilitySet = CapabilitySet(records: map<string, CapabilityRecord>, closed: set<string>)

  datatype Lookup = Lookup(state: CapabilityState, value: Option<CapabilityValue>, present: bool, namespaceClosed: bool)

  const ABSENT := Lookup(Unknown, None, false, false)

  function Namespace(key: string): string { key[..IndexOf(key, '.', 0)] }

  /** Absence inside a closed namespace is evidence of absence; anywhere else it is no evidence. */
  function LookUp(caps: CapabilitySet, key: string): Lookup {
    if key in caps.records then
      var record := caps.records[key];
      Lookup(record.state, Some(record.value), true, false)
    else if Namespace(key) in caps.closed then Lookup(Unsupported, None, false, true)
    else ABSENT
  }

  predicate Supports(caps: CapabilitySet, key: string) {
    var l := LookUp(caps, key);
    l.present && l.state == Supported
  }

  predicate Known(caps: CapabilitySet, key: string) { LookUp(caps, key).state != Unknown }

  const MAX_CAPABILITIES := 4096
  const MAX_TOKEN_BYTES := 128
  const MAX_TOKENS := 512

  /** A claim of support needs a payload, and units are short. */
  predicate RecordValid(r: CapabilityRecord) {
    && (r.state == Supported || r.state == Degraded ==> r.value != Enumeration("") && r.value != TokenSet([]))
    && |r.unit| <= MAX_TOKEN_BYTES
  }

  /** The key is a canonical name and the record carries a value of its kind. */
  predicate EntryValid(key: string, r: CapabilityRecord) {
    KeyName(key) == Some(key) && KeyKind(key) == Some(r.value.KindOf()) && RecordValid(r)
  }

  predicate CapabilitiesValid(caps: CapabilitySet) {
    |caps.records| <= MAX_CAPABILITIES && forall key :: key in caps.records ==> EntryValid(key, caps.records[key])
  }

  // ---- What digests and the store keep ----------------------------------------------------

  /** A value as its encoding carries it: without build metadata. */
  function Carried(v: CapabilityValue): CapabilityValue {
    if v.VersionValue? then VersionValue(v.version.(build := "")) else v
  }

  /** The decoder's limit on a prerelease, which nothing enforces before a value is stored. */
  predicate PrereleaseFits(v: CapabilityValue) { v.VersionValue? ==> |v.version.prerelease| <= MAX_TOKEN_BYTES }

  /** What the digest of an advertisement covers, and what the store gives back of it. */
  function Content(caps: CapabilitySet): CapabilitySet {
    caps.(records := map key | key in caps.records :: caps.records[key].(value := Carried(caps.records[key].value)))
  }

  lemma ContentIsIdempotent(caps: CapabilitySet)
    ensures Content(Content(caps)) == Content(caps)
    ensures Content(caps).records.Keys == caps.records.Keys && Content(caps).closed == caps.closed
  {
  }

  /** The advertisement without its record for `key`. */
  function Without(caps: CapabilitySet, key: string): CapabilitySet {
    caps.(records := caps.records - {key})
  }

  const VENDOR := "vendor.id"
  const ARCHITECTURE := "architecture.family"
  const DEVICE_GENERATION := "architecture.device_generation"
  const RUNTIME_FAMILY := "runtime.family"
  const RUNTIME_VERSION := "runtime.version"
  const DRIVER_VERSION := "driver.version"
  const CODE_OBJECT_TARGETS := "isa.code_object_targets"
  const COMPUTE_CAPABILITY := "compute.capability"
  const MEMORY_TOTAL := "memory.total_bytes"
  const MEMORY_FREE := "memory.free_bytes"
  const CONCURRENT_STREAMS := "queue.concurrent_streams"
  const LIVE_TRANSFER := "migration.live_state_transfer"
  const CHECKPOINT_RESTORE := "migration.checkpoint_restore"
  const STATE_RECONSTRUCTION := "migration.state_reconstruction"
  const CROSS_VENDOR_STATE := "migration.cross_vendor_state"
  const RECOMPILE := "portability.recompile_available"
  const REPACKAGE := "portability.repackage_available"

  predicate HasPrefix(s: string, p: string) { |p| <= |s| && s[..|p|] == p }

  /** Observations that decay and are therefore subject to freshness. */
  predicate IsDynamic(key: string) {
    HasPrefix(key, "health.") || key == MEMORY_FREE || key == CONCURRENT_STREAMS
  }
}
