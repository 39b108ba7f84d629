/** What a requirement asks of the evidence, operator by operator, in terms of the offered value
    and the required one. */
module RequirementMeaning {
  import opened Prelude
  import opened Version
  import opened Vocabulary
  import opened Capability
  import opened Portability
  import opened Compatibility
  import opened CompatibilityTheorems
  import VersionRange

  // ---- Usable evidence --------------------------------------------------------------------

  /** The advertisement holds a valid record for a valid requirement, in this state and with this value. */
  ghost predicate Offers(r: Requirement, e: Evidence, state: CapabilityState, v: CapabilityValue) {
    && RequirementValid(r) && CapabilitiesValid(e.caps)
    && r.capability in e.caps.records && e.caps.records[r.capability].state == state && e.caps.records[r.capability].value == v
  }

  /** Evidence that decays is recent enough. */
  predicate Timely(r: Requirement, e: Evidence) { e.live || !IsDynamic(r.capability) }

  /** The record counts: it is timely, and supported or degraded where that is allowed. */
  ghost predicate Usable(r: Requirement, e: Evidence, v: CapabilityValue) {
    Timely(r, e) && (Offers(r, e, Supported, v) || (Offers(r, e, Degraded, v) && e.allowDegraded))
  }

  const DECAYING := {"health.error_state", "health.readiness", "health.thermal_state", "memory.free_bytes", "queue.concurrent_streams"}

  /** The observations that decay are the three on health and the two on what is left to use. */
  lemma DecayingKeys(key: string)
    requires CoreKind(key).Some?
    ensures IsDynamic(key) <==> key in DECAYING
  {
    if NamesEnumeration(key) {
      DecayingEnumerations(key);
    } else if NamesVersion(key) || NamesInteger(key) {
      DecayingQuantities(key);
    } else if NamesTokenSet(key) {
      TokenSetsLast(key);
    } else if NamesPlatformFeature(key) {
      FeaturesLast(key);
    } else {
      MovementsLast(key);
      ArithmeticLasts(key);
    }
  }

  lemma NoHealth(key: string)
    requires |key| >= 1 && key[0] != 'h' && key[0] != 'q' && (key[0] == 'm' ==> |key| >= 8 && key[7] != 'f')
    ensures !IsDynamic(key) && key !in DECAYING
  {
    assert "health."[0] == 'h' && "health.error_state"[0] == 'h' && "health.readiness"[0] == 'h' && "health.thermal_state"[0] == 'h';
    assert "memory.free_bytes"[7] == 'f' && "memory.free_bytes"[0] == 'm' && "queue.concurrent_streams"[0] == 'q';
  }

  lemma HealthDecays(key: string, rest: string)
    requires key == "health." + rest
    ensures IsDynamic(key)
  {
    assert key[..7] == "health.";
  }

  lemma DecayingEnumerations(key: string)
    requires NamesEnumeration(key)
    ensures IsDynamic(key) <==> key in DECAYING
  {
    if key == "health.error_state" { HealthDecays(key, "error_state"); }
    else if key == "health.readiness" { HealthDecays(key, "readiness"); }
    else if key == "health.thermal_state" { HealthDecays(key, "thermal_state"); }
    else { NoHealth(key); }
  }

  lemma DecayingQuantities(key: string)
    requires NamesVersion(key) || NamesInteger(key)
    ensures IsDynamic(key) <==> key in DECAYING
  {
    if key !in {"memory.free_bytes", "queue.concurrent_streams"} { NoHealth(key); }
  }

  lemma TokenSetsLast(key: string)
    requires NamesTokenSet(key)
    ensures !IsDynamic(key) && key !in DECAYING
  {
    NoHealth(key);
  }

  lemma FeaturesLast(key: string)
    requires NamesPlatformFeature(key)
    ensures !IsDynamic(key) && key !in DECAYING
  {
    NoHealth(key);
  }

  lemma MovementsLast(key: string)
    ensures NamesMovement(key) ==> !IsDynamic(key) && key !in DECAYING
  {
    if NamesMovement(key) { NoHealth(key); }
  }

  lemma ArithmeticLasts(key: string)
    ensures NamesArithmetic(key) ==> !IsDynamic(key) && key !in DECAYING
  {
    if NamesArithmetic(key) { NoHealth(key); }
  }

  // ---- States -----------------------------------------------------------------------------

  /** There is no record, and the advertiser speaks for the namespace completely. */
  predicate DeniedByClosure(caps: CapabilitySet, key: string) { key !in caps.records && Namespace(key) in caps.closed }

  predicate RecordedAs(caps: CapabilitySet, key: string, state: CapabilityState) { key in caps.records && caps.records[key].state == state }

  predicate SilentOn(caps: CapabilitySet, key: string) {
    RecordedAs(caps, key, Unknown) || (key !in caps.records && Namespace(key) !in caps.closed)
  }

  /** Stale evidence and silence decide nothing. Degraded support, where it is not allowed, violates
      everything. Positive lack of support meets exactly the demand for absence. */
  lemma StatesDecide(r: Requirement, e: Evidence)
    ensures !Timely(r, e) || SilentOn(e.caps, r.capability) ==> !IsSatisfied(r, e) && !IsViolated(r, e)
    ensures Timely(r, e) && RecordedAs(e.caps, r.capability, Degraded) && !e.allowDegraded ==> IsViolated(r, e) && !IsSatisfied(r, e)
    ensures Timely(r, e) && (RecordedAs(e.caps, r.capability, Unsupported) || DeniedByClosure(e.caps, r.capability)) ==>
              (IsSatisfied(r, e) <==> r.op == Absent) && (IsViolated(r, e) <==> r.op != Absent)
  {
    hide IsDynamic, Namespace;
  }

  /** What is usable is present and not absent, and every operator decides on it one way or the other. */
  lemma UsableDecides(r: Requirement, e: Evidence, v: CapabilityValue)
    requires Usable(r, e, v)
    ensures IsViolated(r, e) <==> !IsSatisfied(r, e)
    ensures r.op == Present ==> IsSatisfied(r, e)
    ensures r.op == Absent ==> IsViolated(r, e)
  {
    hide IsStale, LookUp, Usable, SubsetTokens, SharesAny, VersionRange.Matches;
    hide CapabilityValue.AtLeast, CapabilityValue.AtMost, CapabilityValue.Same, CapabilityValue.TokenVector, CapabilityValue.KindOf;
    Found(r, e, v);
    SatisfiesVersions(r, e, v);
  }

  lemma SatisfiesVersions(r: Requirement, e: Evidence, v: CapabilityValue)
    requires Usable(r, e, v)
    ensures r.op == VersionSatisfies ==> r.value.VersionValue? && v.VersionValue?
    ensures v.KindOf() == r.value.KindOf()
  {
    hide KeyKind, IsDynamic, CapabilitiesValid, VersionRange.Formed;
    KindsAgree(r, e.caps);
  }

  lemma Found(r: Requirement, e: Evidence, v: CapabilityValue)
    requires Usable(r, e, v)
    ensures !IsStale(r, e) && LookUp(e.caps, r.capability).value == Some(v)
    ensures LookUp(e.caps, r.capability).state == Supported || (LookUp(e.caps, r.capability).state == Degraded && e.allowDegraded)
  {
    hide IsDynamic, CapabilitiesValid, RequirementValid;
  }

  // ---- Sets of tokens ---------------------------------------------------------------------

  /** The tokens of a value; an enumeration is a set of one. */
  ghost function Tokens(v: CapabilityValue): set<string> {
    match v case TokenSet(ts) => (set t | t in ts) case Enumeration(t) => {t} case _ => {}
  }

  lemma VectorIsTokens(v: CapabilityValue)
    ensures forall t :: t in v.TokenVector() <==> t in Tokens(v)
    ensures v.TokenVector() == [] <==> Tokens(v) == {}
  {
    if v.TokenVector() != [] { assert v.TokenVector()[0] in Tokens(v); }
  }

  lemma SubsetMeans(a: CapabilityValue, b: CapabilityValue)
    ensures SubsetTokens(a.TokenVector(), b.TokenVector()) <==> Tokens(a) <= Tokens(b)
    ensures SharesAny(a.TokenVector(), b.TokenVector()) <==> Tokens(a) * Tokens(b) != {}
  {
    VectorIsTokens(a);
    VectorIsTokens(b);
    var x, y := a.TokenVector(), b.TokenVector();
    hide Tokens, CapabilityValue.TokenVector;
    if SubsetTokens(x, y) {
      forall t | t in Tokens(a) ensures t in Tokens(b) { var i :| 0 <= i < |x| && x[i] == t; }
    }
    if Tokens(a) <= Tokens(b) {
      forall i | 0 <= i < |x| ensures x[i] in y { assert x[i] in Tokens(a); }
    }
    if SharesAny(x, y) {
      var i :| 0 <= i < |x| && x[i] in y;
      assert x[i] in Tokens(a) * Tokens(b);
    }
    if Tokens(a) * Tokens(b) != {} {
      var t :| t in Tokens(a) * Tokens(b);
      var i :| 0 <= i < |x| && x[i] == t;
    }
  }

  /** The set operators compare the offered tokens with the required ones as sets. */
  lemma SetOperators(r: Requirement, e: Evidence, v: CapabilityValue)
    requires Usable(r, e, v)
    ensures r.op == SupersetOf ==> (IsSatisfied(r, e) <==> Tokens(r.value) <= Tokens(v))
    ensures r.op == SubsetOf ==> (IsSatisfied(r, e) <==> Tokens(v) <= Tokens(r.value))
    ensures r.op == InSet ==> (IsSatisfied(r, e) <==> Tokens(v) != {} && Tokens(v) <= Tokens(r.value))
    ensures r.op == IntersectsWith ==> (IsSatisfied(r, e) <==> Tokens(v) * Tokens(r.value) != {})
  {
    hide IsStale, LookUp, Usable, SubsetTokens, SharesAny, Tokens, CapabilityValue.TokenVector, VersionRange.Matches;
    Found(r, e, v);
    VectorIsTokens(v);
    SubsetMeans(r.value, v);
    SubsetMeans(v, r.value);
  }

  /** More tokens never spoil a demand for tokens, and never save a limit on them. */
  lemma MoreTokens(r: Requirement, before: Evidence, after: Evidence, v: CapabilityValue, u: CapabilityValue)
    requires Usable(r, before, v) && Usable(r, after, u) && Tokens(v) <= Tokens(u)
    ensures r.op in {SupersetOf, IntersectsWith} && IsSatisfied(r, before) ==> IsSatisfied(r, after)
    ensures r.op in {SubsetOf, InSet} && Tokens(v) != {} && IsViolated(r, before) ==> IsViolated(r, after)
  {
    hide Usable, IsSatisfied, IsViolated, Tokens;
    SetOperators(r, before, v);
    SetOperators(r, after, u);
    UsableDecides(r, before, v);
    UsableDecides(r, after, u);
  }

  // ---- Equality, order and ranges ---------------------------------------------------------

  /** The values are the same, versions up to what their order ignores. */
  predicate SameValue(v: CapabilityValue, u: CapabilityValue) {
    match v case VersionValue(x) => u.VersionValue? && Compare(x, u.version) == Equal case _ => v == u
  }

  lemma EqualityOperators(r: Requirement, e: Evidence, v: CapabilityValue)
    requires Usable(r, e, v)
    ensures r.op == Equals ==> (IsSatisfied(r, e) <==> SameValue(v, r.value))
    ensures r.op == NotEquals ==> (IsSatisfied(r, e) <==> !SameValue(v, r.value))
    ensures r.op == Equals ==> (IsSatisfied(r, e) <==> IsViolated(r.(op := NotEquals), e))
  {
    hide IsDynamic, LookUp, Usable, SubsetTokens, SharesAny, VersionRange.Matches, Compare;
    Found(r, e, v);
  }

  /** Where the offered value stands to the required one: numbers by size, versions by precedence. */
  ghost predicate Reaches(v: CapabilityValue, u: CapabilityValue) {
    match (v, u)
    case (Integer(a), Integer(b)) => b <= a
    case (VersionValue(a), VersionValue(b)) => Compare(a, b) != Less
    case _ => false
  }

  lemma ReachesIsAtLeast(v: CapabilityValue, u: CapabilityValue)
    requires v.KindOf() == u.KindOf() && (u.Integer? || u.VersionValue?)
    ensures v.AtLeast(u) <==> Reaches(v, u)
    ensures v.AtMost(u) <==> Reaches(u, v)
    ensures v.Same(u) <==> Reaches(v, u) && Reaches(u, v)
  {
    hide Compare;
    if u.VersionValue? { CompareFlips(v.version, u.version); }
  }

  /** The four bounds, on every kind of value that a valid requirement can bound. */
  lemma OrderOperators(r: Requirement, e: Evidence, v: CapabilityValue)
    requires Usable(r, e, v)
    ensures r.op == AtLeast ==> (IsSatisfied(r, e) <==> Reaches(v, r.value))
    ensures r.op == AtMost ==> (IsSatisfied(r, e) <==> Reaches(r.value, v))
    ensures r.op == GreaterThan ==> (IsSatisfied(r, e) <==> Reaches(v, r.value) && !Reaches(r.value, v))
    ensures r.op == LessThan ==> (IsSatisfied(r, e) <==> Reaches(r.value, v) && !Reaches(v, r.value))
  {
    hide IsStale, LookUp, Usable, SubsetTokens, SharesAny, VersionRange.Matches;
    hide CapabilityValue.AtLeast, CapabilityValue.AtMost, CapabilityValue.Same, Reaches, CapabilityValue.KindOf;
    if r.op in {AtLeast, AtMost, GreaterThan, LessThan} {
      Found(r, e, v);
      BoundsAreOrdered(r, e, v);
      ReachesIsAtLeast(v, r.value);
    }
  }

  lemma BoundsAreOrdered(r: Requirement, e: Evidence, v: CapabilityValue)
    requires Usable(r, e, v) && r.op in {AtLeast, AtMost, GreaterThan, LessThan}
    ensures v.KindOf() == r.value.KindOf() && (r.value.Integer? || r.value.VersionValue?)
  {
    hide IsDynamic, CapabilitiesValid, KeyKind, VersionRange.Formed, CapabilityValue.KindOf;
    SatisfiesVersions(r, e, v);
    NumbersOnly(r);
    NoScalars(r.capability);
    ScalarKinds(r.value);
  }

  lemma ScalarKinds(v: CapabilityValue)
    ensures v.KindOf() == ScalarKind <==> v.Scalar?
  {
  }

  /** A range is met when every clause admits the offered version. */
  lemma RangeOperator(r: Requirement, e: Evidence, v: CapabilityValue)
    requires Usable(r, e, v) && r.op == VersionSatisfies
    ensures v.VersionValue?
    ensures IsSatisfied(r, e) <==> forall i :: 0 <= i < |r.range| ==> VersionRange.Holds(r.range[i], v.version)
  {
    hide IsStale, LookUp, Usable, SubsetTokens, SharesAny, VersionRange.Holds;
    Found(r, e, v);
    SatisfiesVersions(r, e, v);
  }

  // ---- What this means for eligibility ----------------------------------------------------

  ghost predicate HardIn(w: Workload, r: Requirement) { r in w.requirements && r.strength == Hard }

  function EvidenceFor(p: PolicyBody, t: Target, caps: CapabilitySet): Evidence { Evidence(caps, t.evidenceFresh, p.allowDegraded) }

  /** A violated hard requirement makes the target ineligible, and an eligible target meets all of them. */
  lemma HardRequirementsDecide(w: Workload, p: PolicyBody, t: Target, caps: CapabilitySet, source: Option<Source>, r: Requirement)
    requires HardIn(w, r)
    ensures IsViolated(r, EvidenceFor(p, t, caps)) ==> OutcomeOf(w, p, t, caps, source) == Ineligible
    ensures OutcomeOf(w, p, t, caps, source) == Eligible ==> IsSatisfied(r, EvidenceFor(p, t, caps))
  {
    hide IsViolated, IsSatisfied, PolicyBreached, PolicyOpen, ClassOf, PortabilityRequest, ClassRefused;
    var i :| 0 <= i < |w.requirements| && w.requirements[i] == r;
  }

  /** An eligible target offers every token that a hard requirement wants included. */
  lemma EligibleOffersEveryToken(w: Workload, p: PolicyBody, t: Target, caps: CapabilitySet, source: Option<Source>, r: Requirement, v: CapabilityValue)
    requires HardIn(w, r) && r.op == SupersetOf && Offers(r, EvidenceFor(p, t, caps), Supported, v)
    requires OutcomeOf(w, p, t, caps, source) == Eligible
    ensures Tokens(r.value) <= Tokens(v)
  {
    hide OutcomeOf, IsSatisfied, IsViolated, Offers, Tokens;
    HardRequirementsDecide(w, p, t, caps, source, r);
    StatesDecide(r, EvidenceFor(p, t, caps));
    SetOperators(r, EvidenceFor(p, t, caps), v);
  }

  // ---- Preferences ------------------------------------------------------------------------

  lemma RoundIsNearest(x: real)
    ensures x - 0.5 < Round(x) as real <= x + 0.5
  {
  }

  /** A satisfied preference adds its weight in thousandths, a violated one takes half of that away. */
  lemma PreferencesArePriced(r: Requirement, e: Evidence)
    requires r.strength == Soft && r.weight >= 0.0
    ensures IsSatisfied(r, e) ==> r.weight * 1000.0 - 0.5 < RequirementScore(r, e) as real <= r.weight * 1000.0 + 0.5
    ensures IsViolated(r, e) ==> -r.weight * 500.0 - 0.5 <= RequirementScore(r, e) as real < -r.weight * 500.0 + 0.5
    ensures !IsSatisfied(r, e) && !IsViolated(r, e) ==> RequirementScore(r, e) == 0
  {
    hide Match, LookUp, IsStale, Round;
    RoundIsNearest(r.weight * 1000.0);
    RoundIsNearest(r.weight * 500.0);
  }

  // ---- How a violation is named -----------------------------------------------------------

  /** Violations are named after what is missing: a few keys have names of their own, arithmetic and
      movement have one each, and everything else is an unsupported capability. */
  lemma ViolationsAreNamed(r: Requirement, e: Evidence, rest: string)
    requires IsViolated(r, e)
    ensures RequirementReasons(r, e) == [Reason(RejectionCode(r.capability), r.capability, r.strength, LookUp(e.caps, r.capability).state)]
    ensures r.capability == "vendor.id" ==> RejectionCode(r.capability) == VendorMismatch
    ensures r.capability in {"architecture.family", "architecture.device_generation"} ==> RejectionCode(r.capability) == ArchitectureMismatch
    ensures r.capability == "runtime.family" ==> RejectionCode(r.capability) == RuntimeMismatch
    ensures r.capability in {"runtime.version", "driver.version"} ==> RejectionCode(r.capability) == RuntimeVersionUnsupported
    ensures r.capability in {"isa.code_object_targets", "compute.capability"} ==> RejectionCode(r.capability) == IsaIncompatible
    ensures r.capability in {"memory.total_bytes", "memory.free_bytes"} ==> RejectionCode(r.capability) == InsufficientMemory
    ensures r.capability == "numeric." + rest ==> RejectionCode(r.capability) == NumericModeUnsupported
    ensures r.capability == "migration." + rest || r.capability == "portability." + rest ==> RejectionCode(r.capability) == MigrationUnsupported
  {
    hide RejectionCode, IsViolated, IsSatisfied, IsStale, LookUp;
    NeverSatisfiedToo(r, e);
    CodesByName(r.capability);
    CodesByFamily(r.capability, rest);
  }

  lemma NeverSatisfiedToo(r: Requirement, e: Evidence)
    requires IsViolated(r, e)
    ensures !IsSatisfied(r, e) && !IsStale(r, e)
  {
    hide Match, LookUp, IsStale;
  }

  lemma CodesByName(key: string)
    ensures key == "vendor.id" ==> RejectionCode(key) == VendorMismatch
    ensures key in {"architecture.family", "architecture.device_generation"} ==> RejectionCode(key) == ArchitectureMismatch
    ensures key == "runtime.family" ==> RejectionCode(key) == RuntimeMismatch
    ensures key in {"runtime.version", "driver.version"} ==> RejectionCode(key) == RuntimeVersionUnsupported
    ensures key in {"isa.code_object_targets", "compute.capability"} ==> RejectionCode(key) == IsaIncompatible
    ensures key in {"memory.total_bytes", "memory.free_bytes"} ==> RejectionCode(key) == InsufficientMemory
  {
    hide HasPrefix;
    assert VENDOR[0] == 'v' && ARCHITECTURE[0] == 'a' && DEVICE_GENERATION[0] == 'a' && RUNTIME_FAMILY[0] == 'r' && RUNTIME_VERSION[0] == 'r';
    assert DRIVER_VERSION[0] == 'd' && CODE_OBJECT_TARGETS[0] == 'i' && COMPUTE_CAPABILITY[0] == 'c';
    assert RUNTIME_FAMILY[8] != RUNTIME_VERSION[8] && MEMORY_TOTAL[0] == 'm' && MEMORY_FREE[0] == 'm';
  }

  lemma CodesByFamily(key: string, rest: string)
    ensures key == "numeric." + rest ==> RejectionCode(key) == NumericModeUnsupported
    ensures key == "migration." + rest || key == "portability." + rest ==> RejectionCode(key) == MigrationUnsupported
  {
    assert key == "numeric." + rest ==> key[..8] == "numeric." && key[0] == 'n';
    assert key == "migration." + rest ==> key[..10] == "migration." && key[0] == 'm' && key[1] == 'i';
    assert key == "portability." + rest ==> key[..12] == "portability." && key[0] == 'p';
    assert "numeric."[0] == 'n' && MEMORY_TOTAL[1] == 'e' && MEMORY_FREE[1] == 'e';
    assert VENDOR[0] == 'v' && ARCHITECTURE[0] == 'a' && DEVICE_GENERATION[0] == 'a' && RUNTIME_FAMILY[0] == 'r' && RUNTIME_VERSION[0] == 'r';
    assert DRIVER_VERSION[0] == 'd' && CODE_OBJECT_TARGETS[0] == 'i' && COMPUTE_CAPABILITY[0] == 'c';
  }
}
