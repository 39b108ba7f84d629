/** The compatibility engine: workload requirements and federation policy against the evidence
    of one accelerator. */
module Compatibility {
  import opened Prelude
  import opened Ordering
  import opened Version
  import VersionRange
  import opened Vocabulary
  import opened Capability
  import opened Portability

  // ---- Requirements and workloads ---------------------------------------------------------

  datatype Operator =
    | Present | Absent | Equals | NotEquals | AtLeast | AtMost | GreaterThan | LessThan
    | InSet | SupersetOf | SubsetOf | IntersectsWith | VersionSatisfies
  {
    function Number(): nat {
      match this
      case Present => 0 case Absent => 1 case Equals => 2 case NotEquals => 3 case AtLeast => 4
      case AtMost => 5 case GreaterThan => 6 case LessThan => 7 case InSet => 8 case SupersetOf => 9
      case SubsetOf => 10 case IntersectsWith => 11 case VersionSatisfies => 12
    }
  }

  datatype Requirement = Requirement(
    capability: string,
    strength: RequirementStrength,
    op: Operator,
    value: CapabilityValue,
    range: seq<VersionRange.Clause>,
    weight: real)

  datatype ExecutionMode = ExactBinary | EquivalentAllowed | AnyPortability

  /** `shapeOk` is the verdict on the name, the description, the rationales and the requirement
      identities, which nothing else reads. */
  datatype Workload = Workload(
    classId: WorkloadId,
    requirementId: nat,
    requirements: seq<Requirement>,
    mode: ExecutionMode,
    minimumPortability: PortabilityClass,
    need: MigrationNeed,
    reconstructionAllowed: bool,
    tags: seq<string>,
    shapeOk: bool)

  const MAX_REQUIREMENTS := 4096
  const MAX_WEIGHT := 1000000000.0

  const MAX_DIMENSIONS := 1024

  /** The value is of the kind its capability carries. */
  predicate RequirementValid(r: Requirement) {
    && |r.capability| <= MAX_NAME_BYTES && KeyKind(r.capability) == Some(r.value.KindOf())
    && VersionRange.Formed(r.range)
    && 0.0 <= r.weight <= MAX_WEIGHT
    && (r.strength == Hard ==> r.weight == 0.0)
    && (r.op == VersionSatisfies ==> r.value.VersionValue? && r.range != [])
    && (r.op in {InSet, SupersetOf, SubsetOf, IntersectsWith} ==> r.value.TokenSet? || r.value.Enumeration?)
    && (r.op in {AtLeast, AtMost, GreaterThan, LessThan} ==>
          r.value.Integer? || r.value.Scalar? || r.value.VersionValue?)
  }

  predicate SameSlot(a: Requirement, b: Requirement) {
    a.capability == b.capability && a.strength == b.strength && a.op == b.op
  }

  predicate WorkloadValid(w: Workload) {
    && w.classId != 0 && w.requirementId != 0 && w.shapeOk
    && |w.requirements| <= MAX_REQUIREMENTS
    && (forall i :: 0 <= i < |w.requirements| ==> RequirementValid(w.requirements[i]))
    && (forall i, j :: 0 <= i < j < |w.requirements| ==> !SameSlot(w.requirements[i], w.requirements[j]))
    && |w.tags| <= MAX_DIMENSIONS && (forall i :: 0 <= i < |w.tags| ==> 0 < |w.tags[i]| <= MAX_TOKEN_BYTES)
    && (forall i, j :: 0 <= i < j < |w.tags| ==> w.tags[i] != w.tags[j])
    && (w.minimumPortability == LiveMigrationSupported ==> w.need == LiveStateTransfer)
  }

  /** Processing order: key, strength, operator. Two requirements of a valid workload always
      differ in one of them, so the payload tie-break of the comparator is never reached. */
  predicate RequirementLess(a: Requirement, b: Requirement) {
    if a.capability != b.capability then StringLess(a.capability, b.capability)
    else if a.strength != b.strength then a.strength == Hard
    else a.op.Number() < b.op.Number()
  }

  function Canonical(rs: seq<Requirement>): seq<Requirement> { Sort(RequirementLess, rs) }

  // ---- Policy -----------------------------------------------------------------------------

  datatype SyntheticPolicy = RejectSynthetic | AllowSynthetic | RequireSynthetic

  datatype PolicyBody = PolicyBody(
    name: string,
    allowedVendors: seq<string>,
    forbiddenVendors: seq<string>,
    forbiddenAccelerators: seq<AcceleratorId>,
    deprecatedArchitectures: seq<string>,
    minimumRuntime: seq<VersionRange.Clause>,
    freshnessNanos: nat,
    synthetic: SyntheticPolicy,
    requireRealForActive: bool,
    requiredCapabilities: seq<string>,
    deniedCapabilities: seq<string>,
    allowedClasses: seq<PortabilityClass>,
    allowCrossVendorMigration: bool,
    allowCrossVendorReconstruction: bool,
    allowDegraded: bool,
    minimumMemory: nat,
    tags: seq<string>)

  /** What the digest of a policy covers. Lists are sorted before they are hashed, so their order
      does not show; neither does the repetition of a class nor the build metadata of a bound. */
  datatype PolicyPrint = PolicyPrint(
    name: string,
    allowedVendors: multiset<string>,
    forbiddenVendors: multiset<string>,
    forbiddenAccelerators: multiset<AcceleratorId>,
    deprecatedArchitectures: multiset<string>,
    minimumRuntime: string,
    freshnessNanos: nat,
    synthetic: SyntheticPolicy,
    requireRealForActive: bool,
    requiredCapabilities: multiset<string>,
    deniedCapabilities: multiset<string>,
    allowedClasses: set<PortabilityClass>,
    allowCrossVendorMigration: bool,
    allowCrossVendorReconstruction: bool,
    allowDegraded: bool,
    minimumMemory: nat,
    tags: multiset<string>)

  function PrintOf(p: PolicyBody): PolicyPrint {
    PolicyPrint(
      p.name, multiset(p.allowedVendors), multiset(p.forbiddenVendors), multiset(p.forbiddenAccelerators),
      multiset(p.deprecatedArchitectures), VersionRange.RangeText(p.minimumRuntime), p.freshnessNanos, p.synthetic,
      p.requireRealForActive, multiset(p.requiredCapabilities), multiset(p.deniedCapabilities),
      (set c | c in p.allowedClasses), p.allowCrossVendorMigration, p.allowCrossVendorReconstruction, p.allowDegraded,
      p.minimumMemory, multiset(p.tags))
  }

  /** A policy's identity and generation are derived from its content, or were assigned by
      whoever configured the first policy. */
  datatype PolicyStamp = Assigned(tag: nat) | Derived(content: PolicyPrint)

  datatype Policy = Policy(id: PolicyStamp, generation: PolicyStamp, body: PolicyBody)

  function PolicyOf(body: PolicyBody): Policy { Policy(Derived(PrintOf(body)), Derived(PrintOf(body)), body) }

  const MAX_MINIMUM_MEMORY := 0x4000_0000_0000_0000
  const MAX_FRESHNESS := 3_600_000_000_000

  predicate KeysResolve(keys: seq<string>) { forall i :: 0 <= i < |keys| ==> KeyKind(keys[i]).Some? }

  /** The check for contradictions looks things up by halving, whether or not the list is sorted. */
  predicate Contradicts(wanted: seq<string>, unwanted: seq<string>) {
    exists i :: 0 <= i < |wanted| && Finds(unwanted, wanted[i])
  }

  predicate PolicyBodyValid(p: PolicyBody) {
    && VersionRange.Formed(p.minimumRuntime)
    && |p.name| <= MAX_NAME_BYTES
    && |p.allowedVendors| <= MAX_DIMENSIONS && |p.forbiddenVendors| <= MAX_DIMENSIONS
    && |p.forbiddenAccelerators| <= MAX_DIMENSIONS && |p.deprecatedArchitectures| <= MAX_DIMENSIONS
    && |p.requiredCapabilities| <= MAX_DIMENSIONS && |p.deniedCapabilities| <= MAX_DIMENSIONS && |p.tags| <= MAX_DIMENSIONS
    && KeysResolve(p.requiredCapabilities) && KeysResolve(p.deniedCapabilities)
    && !Contradicts(p.requiredCapabilities, p.deniedCapabilities) && !Contradicts(p.allowedVendors, p.forbiddenVendors)
    && p.minimumMemory <= MAX_MINIMUM_MEMORY && p.freshnessNanos <= MAX_FRESHNESS
  }

  predicate PolicyValid(p: Policy) { p.id != Assigned(0) && PolicyBodyValid(p.body) }

  // ---- Evaluation context and decisions ---------------------------------------------------

  datatype Provenance = Real | Synthetic | NoEvidence

  datatype SupportLevel = NativeSupport | Translated | SyntheticSupport | UnsupportedLevel | UnknownLevel

  datatype Target = Target(
    accelerator: AcceleratorId,
    deviceGeneration: Generation,
    capabilityGeneration: Generation,
    evidenceGeneration: Generation,
    supportLevel: SupportLevel,
    provenance: Provenance,
    capabilities: Option<CapabilitySet>,
    evidenceFresh: bool,
    acceptsNewWork: bool)

  datatype Source = Source(capabilities: CapabilitySet, vendor: string)

  /** What the digest of a workload covers: values and ranges as they print, tags in any order. */
  datatype RequirementPrint = RequirementPrint(
    capability: string, strength: RequirementStrength, op: Operator, value: string, range: string, weight: real)

  datatype WorkloadPrint = WorkloadPrint(
    classId: WorkloadId,
    mode: ExecutionMode,
    minimumPortability: PortabilityClass,
    need: MigrationNeed,
    reconstructionAllowed: bool,
    requirements: seq<RequirementPrint>,
    tags: multiset<string>)

  function RequirementPrintOf(r: Requirement): RequirementPrint {
    RequirementPrint(r.capability, r.strength, r.op, Render(r.value), VersionRange.RangeText(r.range), r.weight)
  }

  function WorkloadPrintOf(w: Workload): WorkloadPrint {
    var rs := Canonical(w.requirements);
    WorkloadPrint(w.classId, w.mode, w.minimumPortability, w.need, w.reconstructionAllowed,
                  seq(|rs|, i requires 0 <= i < |rs| => RequirementPrintOf(rs[i])), multiset(w.tags))
  }

  datatype Revision = Unrevised | RevisionOf(content: WorkloadPrint)

  datatype Context = Context(
    federation: FederationId,
    federationGeneration: Generation,
    epoch: Generation,
    policyGeneration: PolicyStamp,
    policy: Option<Policy>,
    revision: Revision,
    target: Target,
    source: Option<Source>)

  datatype CompatibilityOutcome = Eligible | Ineligible | Undecided

  /** What a decision's fingerprint covers; it serves as the decision's identity. Of the texts that
      explain its reasons only the length of the longest is kept: the store's decoder bounds it. */
  datatype Decision = Decision(
    federation: FederationId,
    federationGeneration: Generation,
    epoch: Generation,
    accelerator: AcceleratorId,
    deviceGeneration: Generation,
    capabilityGeneration: Generation,
    evidenceGeneration: Generation,
    policy: PolicyStamp,
    policyGeneration: PolicyStamp,
    workload: WorkloadId,
    workloadRequirement: nat,
    workloadRevision: Revision,
    outcome: CompatibilityOutcome,
    portability: PortabilityClass,
    supportLevel: SupportLevel,
    provenance: Provenance,
    score: int,
    reasons: seq<Reason>,
    longestText: nat)

  // ---- One requirement against one lookup -------------------------------------------------

  datatype MatchOutcome = Satisfied | Violated | Indeterminate

  function Verdict(holds: bool): MatchOutcome { if holds then Satisfied else Violated }

  predicate SubsetTokens(a: seq<string>, b: seq<string>) { forall i :: 0 <= i < |a| ==> a[i] in b }

  predicate SharesAny(a: seq<string>, b: seq<string>) { exists i :: 0 <= i < |a| && a[i] in b }

  function Match(r: Requirement, l: Lookup, allowDegraded: bool): MatchOutcome {
    if l.state == Unknown then Indeterminate
    else if l.state == Degraded && !allowDegraded then Violated
    else if r.op == Absent then Verdict(l.state == Unsupported)
    else if l.state == Unsupported then Violated
    else if l.value.None? then Indeterminate
    else
      var v := l.value.value;
      match r.op
      case Present => Satisfied
      case Absent => Violated
      case Equals => Verdict(v.Same(r.value))
      case NotEquals => Verdict(!v.Same(r.value))
      case AtLeast => Verdict(v.AtLeast(r.value))
      case AtMost => Verdict(v.AtMost(r.value))
      case GreaterThan => Verdict(v.AtLeast(r.value) && !v.Same(r.value))
      case LessThan => Verdict(v.AtMost(r.value) && !v.Same(r.value))
      case InSet => Verdict(v.TokenVector() != [] && SubsetTokens(v.TokenVector(), r.value.TokenVector()))
      case SupersetOf => Verdict(SubsetTokens(r.value.TokenVector(), v.TokenVector()))
      case SubsetOf => Verdict(SubsetTokens(v.TokenVector(), r.value.TokenVector()))
      case IntersectsWith => Verdict(SharesAny(v.TokenVector(), r.value.TokenVector()))
      case VersionSatisfies =>
        if v.VersionValue? then Verdict(VersionRange.Matches(r.range, v.version)) else Indeterminate
  }

  function RejectionCode(key: string): ErrorCode {
    if key == VENDOR then VendorMismatch
    else if key == ARCHITECTURE || key == DEVICE_GENERATION then ArchitectureMismatch
    else if key == RUNTIME_FAMILY then RuntimeMismatch
    else if key == RUNTIME_VERSION || key == DRIVER_VERSION then RuntimeVersionUnsupported
    else if key == CODE_OBJECT_TARGETS || key == COMPUTE_CAPABILITY then IsaIncompatible
    else if key == MEMORY_TOTAL || key == MEMORY_FREE then InsufficientMemory
    else if HasPrefix(key, "numeric.") then NumericModeUnsupported
    else if HasPrefix(key, "migration.") || HasPrefix(key, "portability.") then MigrationUnsupported
    else UnsupportedCapability
  }

  /** The evidence a requirement is judged on. */
  datatype Evidence = Evidence(caps: CapabilitySet, live: bool, allowDegraded: bool)

  predicate IsStale(r: Requirement, e: Evidence) { IsDynamic(r.capability) && !e.live }

  predicate IsViolated(r: Requirement, e: Evidence) {
    !IsStale(r, e) && Match(r, LookUp(e.caps, r.capability), e.allowDegraded) == Violated
  }

  predicate IsSatisfied(r: Requirement, e: Evidence) {
    !IsStale(r, e) && Match(r, LookUp(e.caps, r.capability), e.allowDegraded) == Satisfied
  }

  function Round(x: real): int { (x + 0.5).Floor }

  function RequirementScore(r: Requirement, e: Evidence): int {
    if r.strength == Hard then 0
    else if IsSatisfied(r, e) then Round(r.weight * 1000.0)
    else if IsViolated(r, e) then -Round(r.weight * 500.0)
    else 0
  }

  function RequirementReasons(r: Requirement, e: Evidence): seq<Reason> {
    var state := LookUp(e.caps, r.capability).state;
    if IsStale(r, e) then [Reason(StaleEvidence, r.capability, r.strength, state)]
    else if IsSatisfied(r, e) then
      if r.strength == Soft then [Reason(Success, r.capability, Soft, state)] else []
    else if IsViolated(r, e) then [Reason(RejectionCode(r.capability), r.capability, r.strength, state)]
    else [Reason(UnknownCapability, r.capability, r.strength, state)]
  }

  // ---- Explanations -----------------------------------------------------------------------

  function OperatorText(op: Operator): string {
    match op
    case Present => "PRESENT" case Absent => "ABSENT" case Equals => "EQUALS" case NotEquals => "NOT_EQUALS"
    case AtLeast => "AT_LEAST" case AtMost => "AT_MOST" case GreaterThan => "GREATER_THAN" case LessThan => "LESS_THAN"
    case InSet => "IN_SET" case SupersetOf => "SUPERSET_OF" case SubsetOf => "SUBSET_OF"
    case IntersectsWith => "INTERSECTS_WITH" case VersionSatisfies => "VERSION_SATISFIES"
  }

  function StateText(state: CapabilityState): string {
    match state
    case Unknown => "UNKNOWN" case Supported => "SUPPORTED" case Unsupported => "UNSUPPORTED" case Degraded => "DEGRADED"
  }

  /** What a requirement asks for, in words. */
  function Expectation(r: Requirement): string {
    OperatorText(r.op) +
    if r.op == VersionSatisfies then " " + VersionRange.RangeText(r.range)
    else if r.op in {Present, Absent} then ""
    else " " + Render(r.value)
  }

  /** The text that goes with the reason a requirement leaves behind. */
  function RequirementText(r: Requirement, e: Evidence): string {
    var l := LookUp(e.caps, r.capability);
    if IsStale(r, e) then
      if r.strength == Hard then "required capability is decay-prone and its evidence exceeded the policy freshness budget"
      else "soft preference skipped because its evidence is stale"
    else if IsSatisfied(r, e) then if r.strength == Soft then "soft preference satisfied: " + Expectation(r) else ""
    else if IsViolated(r, e) then
      "observed " + StateText(l.state) + (if l.present && l.value.Some? then " (" + Render(l.value.value) + ")" else "")
      + "; required " + Expectation(r)
    else "required capability has no evidence: observed UNKNOWN; required " + Expectation(r)
  }

  function Longer(a: nat, b: nat): nat { if a < b then b else a }

  function LongestText(rs: seq<Requirement>, e: Evidence): nat {
    if rs == [] then 0 else Longer(LongestText(rs[..|rs| - 1], e), |RequirementText(rs[|rs| - 1], e)|)
  }

  function TotalScore(rs: seq<Requirement>, e: Evidence): int {
    if rs == [] then 0 else TotalScore(rs[..|rs| - 1], e) + RequirementScore(rs[|rs| - 1], e)
  }

  function AllReasons(rs: seq<Requirement>, e: Evidence): seq<Reason> {
    if rs == [] then [] else AllReasons(rs[..|rs| - 1], e) + RequirementReasons(rs[|rs| - 1], e)
  }

  predicate SomeHardViolated(rs: seq<Requirement>, e: Evidence) {
    exists i :: 0 <= i < |rs| && rs[i].strength == Hard && IsViolated(rs[i], e)
  }

  predicate SomeHardOpen(rs: seq<Requirement>, e: Evidence) {
    exists i :: 0 <= i < |rs| && rs[i].strength == Hard && !IsViolated(rs[i], e) && !IsSatisfied(rs[i], e)
  }

  /** One requirement: what it adds to the flags, the score and the explanation. */
  method JudgeRequirement(r: Requirement, e: Evidence)
    returns (violated: bool, open: bool, score: int, reasons: seq<Reason>, text: string)
    ensures violated <==> r.strength == Hard && IsViolated(r, e)
    ensures open <==> r.strength == Hard && !IsViolated(r, e) && !IsSatisfied(r, e)
    ensures score == RequirementScore(r, e)
    ensures reasons == RequirementReasons(r, e) && text == RequirementText(r, e)
  {
    hide Match, RejectionCode, IsDynamic, LookUp, Round, Expectation, StateText, Render;
    violated, open, score, reasons, text := false, false, 0, [], "";
    var lookup := LookUp(e.caps, r.capability);
    if IsDynamic(r.capability) && !e.live {
      if r.strength == Hard {
        open := true;
        text := "required capability is decay-prone and its evidence exceeded the policy freshness budget";
      } else {
        text := "soft preference skipped because its evidence is stale";
      }
      reasons := [Reason(StaleEvidence, r.capability, r.strength, lookup.state)];
      return;
    }
    var outcome := Match(r, lookup, e.allowDegraded);
    if outcome == Satisfied {
      if r.strength == Soft {
        score := Round(r.weight * 1000.0);
        reasons := [Reason(Success, r.capability, r.strength, lookup.state)];
        text := "soft preference satisfied: " + Expectation(r);
      }
      return;
    }
    if outcome == Violated {
      reasons := [Reason(RejectionCode(r.capability), r.capability, r.strength, lookup.state)];
      text := "observed " + StateText(lookup.state) +
        (if lookup.present && lookup.value.Some? then " (" + Render(lookup.value.value) + ")" else "") + "; required " + Expectation(r);
      if r.strength == Hard {
        violated := true;
      } else {
        score := -Round(r.weight * 500.0);
      }
      return;
    }
    if r.strength == Hard {
      open := true;
    }
    reasons := [Reason(UnknownCapability, r.capability, r.strength, lookup.state)];
    text := "required capability has no evidence: observed UNKNOWN; required " + Expectation(r);
  }

  /** The requirement loop. */
  method JudgeRequirements(rs: seq<Requirement>, e: Evidence)
    returns (violated: bool, open: bool, score: int, reasons: seq<Reason>, longest: nat)
    ensures violated == SomeHardViolated(rs, e)
    ensures open == SomeHardOpen(rs, e)
    ensures score == TotalScore(rs, e)
    ensures reasons == AllReasons(rs, e) && longest == LongestText(rs, e)
  {
    hide *;
    NoRequirements(e);
    violated, open, score, reasons, longest := false, false, 0, [], 0;
    for i := 0 to |rs|
      invariant violated == SomeHardViolated(rs[..i], e)
      invariant open == SomeHardOpen(rs[..i], e)
      invariant score == TotalScore(rs[..i], e)
      invariant reasons == AllReasons(rs[..i], e) && longest == LongestText(rs[..i], e)
    {
      assert rs[..i + 1] == rs[..i] + [rs[i]];
      LastRequirement(rs[..i], rs[i], e);
      var v, o, s, more, text := JudgeRequirement(rs[i], e);
      violated, open, score, reasons, longest := violated || v, open || o, score + s, reasons + more, Longer(longest, |text|);
    }
    assert rs[..|rs|] == rs;
  }

  lemma NoRequirements(e: Evidence)
    ensures !SomeHardViolated([], e) && !SomeHardOpen([], e) && TotalScore([], e) == 0
    ensures AllReasons([], e) == [] && LongestText([], e) == 0
  {
  }

  lemma LastRequirement(rs: seq<Requirement>, r: Requirement, e: Evidence)
    ensures SomeHardViolated(rs + [r], e) <==> SomeHardViolated(rs, e) || (r.strength == Hard && IsViolated(r, e))
    ensures SomeHardOpen(rs + [r], e) <==>
            SomeHardOpen(rs, e) || (r.strength == Hard && !IsViolated(r, e) && !IsSatisfied(r, e))
    ensures TotalScore(rs + [r], e) == TotalScore(rs, e) + RequirementScore(r, e)
    ensures AllReasons(rs + [r], e) == AllReasons(rs, e) + RequirementReasons(r, e)
    ensures LongestText(rs + [r], e) == Longer(LongestText(rs, e), |RequirementText(r, e)|)
  {
    hide IsViolated, IsSatisfied, RequirementScore, RequirementReasons, RequirementText;
    var all := rs + [r];
    assert all[..|all| - 1] == rs && all[|rs|] == r;
    assert forall i :: 0 <= i < |rs| ==> all[i] == rs[i];
    if SomeHardViolated(rs, e) {
      var i :| 0 <= i < |rs| && rs[i].strength == Hard && IsViolated(rs[i], e);
      assert all[i] == rs[i];
    }
    if SomeHardOpen(rs, e) {
      var i :| 0 <= i < |rs| && rs[i].strength == Hard && !IsViolated(rs[i], e) && !IsSatisfied(rs[i], e);
      assert all[i] == rs[i];
    }
  }

  const FORBIDDEN_ACCELERATORS := "policy.forbidden_accelerators"
  const SYNTHETIC_EVIDENCE := "policy.synthetic_evidence"
  const MEMBERSHIP_STATE := "membership.state"
  const PORTABILITY := "portability"
  const EXECUTION_MODE := "execution_mode"
  const ALLOWED_CLASSES := "policy.allowed_portability_classes"
  const MIGRATION_NEED := "workload.migration_need"

  // ---- Policy constraints -----------------------------------------------------------------

  /** A supported enumeration payload, or nothing. */
  function SupportedToken(caps: CapabilitySet, key: string): string {
    var l := LookUp(caps, key);
    if l.present && l.value.Some? && l.state == Supported then l.value.value.AsToken() else ""
  }

  predicate VendorForbidden(p: PolicyBody, vendor: string) { vendor != "" && vendor in p.forbiddenVendors }

  predicate VendorNotAllowed(p: PolicyBody, vendor: string) {
    vendor != "" && p.allowedVendors != [] && vendor !in p.allowedVendors
  }

  predicate ArchitectureDeprecated(p: PolicyBody, architecture: string) {
    architecture != "" && architecture in p.deprecatedArchitectures
  }

  predicate RuntimeOpen(p: PolicyBody, caps: CapabilitySet) {
    p.minimumRuntime != [] && LookUp(caps, RUNTIME_VERSION).state == Unknown
  }

  predicate RuntimeTooOld(p: PolicyBody, caps: CapabilitySet) {
    var l := LookUp(caps, RUNTIME_VERSION);
    && p.minimumRuntime != [] && l.state != Unknown && l.present && l.value.Some?
    && !VersionRange.Matches(p.minimumRuntime, l.value.value.AsVersion())
  }

  predicate MemoryOpen(p: PolicyBody, caps: CapabilitySet) {
    p.minimumMemory > 0 && LookUp(caps, MEMORY_TOTAL).state == Unknown
  }

  /** The signed quantity is reinterpreted as unsigned before it is compared. */
  predicate MemoryTooSmall(p: PolicyBody, caps: CapabilitySet) {
    var l := LookUp(caps, MEMORY_TOTAL);
    && p.minimumMemory > 0 && l.state != Unknown && l.present && l.value.Some?
    && l.value.value.AsInteger() % 0x1_0000_0000_0000_0000 < p.minimumMemory
  }

  predicate RequiredOpen(caps: CapabilitySet, key: string) { LookUp(caps, key).state == Unknown }

  predicate RequiredMissing(caps: CapabilitySet, key: string) { LookUp(caps, key).state !in {Unknown, Supported} }

  predicate DeniedPresent(caps: CapabilitySet, key: string) { LookUp(caps, key).state in {Supported, Degraded} }

  predicate ProvenanceRefused(p: PolicyBody, provenance: Provenance) {
    || (p.synthetic == RejectSynthetic && provenance != Real)
    || (p.synthetic == RequireSynthetic && provenance != Synthetic)
  }

  /** The rules about the device itself. */
  predicate DeviceBreached(p: PolicyBody, t: Target, caps: CapabilitySet) {
    || t.accelerator in p.forbiddenAccelerators
    || VendorForbidden(p, SupportedToken(caps, VENDOR))
    || VendorNotAllowed(p, SupportedToken(caps, VENDOR))
    || ArchitectureDeprecated(p, SupportedToken(caps, ARCHITECTURE))
    || RuntimeTooOld(p, caps)
    || MemoryTooSmall(p, caps)
    || ProvenanceRefused(p, t.provenance)
    || !t.acceptsNewWork
  }

  /** Some policy rule is positively broken. */
  predicate PolicyBreached(p: PolicyBody, w: Workload, t: Target, caps: CapabilitySet) {
    || DeviceBreached(p, t, caps)
    || (exists i :: 0 <= i < |p.requiredCapabilities| && RequiredMissing(caps, p.requiredCapabilities[i]))
    || (exists i :: 0 <= i < |p.deniedCapabilities| && DeniedPresent(caps, p.deniedCapabilities[i]))
    || (exists i :: 0 <= i < |w.tags| && w.tags[i] !in p.tags)
  }

  /** Some policy rule cannot be decided for lack of evidence. */
  predicate PolicyOpen(p: PolicyBody, caps: CapabilitySet) {
    || RuntimeOpen(p, caps)
    || MemoryOpen(p, caps)
    || (exists i :: 0 <= i < |p.requiredCapabilities| && RequiredOpen(caps, p.requiredCapabilities[i]))
  }

  function When(condition: bool, reason: Reason): seq<Reason> { if condition then [reason] else [] }

  function RequiredReasons(keys: seq<string>, caps: CapabilitySet): seq<Reason> {
    if keys == [] then []
    else
      var key := keys[|keys| - 1];
      var state := LookUp(caps, key).state;
      RequiredReasons(keys[..|keys| - 1], caps) +
      When(RequiredOpen(caps, key), Reason(UnknownCapability, key, Hard, state)) +
      When(RequiredMissing(caps, key), Reason(MissingMandatoryCapability, key, Hard, state))
  }

  function DeniedReasons(keys: seq<string>, caps: CapabilitySet): seq<Reason> {
    if keys == [] then []
    else
      var key := keys[|keys| - 1];
      DeniedReasons(keys[..|keys| - 1], caps) +
      When(DeniedPresent(caps, key), Reason(PolicyMismatch, key, Hard, LookUp(caps, key).state))
  }

  function TagReasons(tags: seq<string>, p: PolicyBody): seq<Reason> {
    if tags == [] then []
    else
      var tag := tags[|tags| - 1];
      TagReasons(tags[..|tags| - 1], p) +
      When(tag !in p.tags, Reason(PolicyMismatch, "policy.tag." + tag, Hard, Unsupported))
  }

  function DeviceReasons(p: PolicyBody, t: Target, caps: CapabilitySet): seq<Reason> {
    var vendor := SupportedToken(caps, VENDOR);
    When(t.accelerator in p.forbiddenAccelerators, Reason(PolicyMismatch, FORBIDDEN_ACCELERATORS, Hard, Unsupported)) +
    When(VendorForbidden(p, vendor), Reason(VendorMismatch, VENDOR, Hard, Supported)) +
    When(VendorNotAllowed(p, vendor), Reason(VendorMismatch, VENDOR, Hard, Supported)) +
    When(ArchitectureDeprecated(p, SupportedToken(caps, ARCHITECTURE)), Reason(ArchitectureMismatch, ARCHITECTURE, Hard, Supported)) +
    When(RuntimeOpen(p, caps), Reason(UnknownCapability, RUNTIME_VERSION, Hard, Unknown)) +
    When(RuntimeTooOld(p, caps), Reason(RuntimeVersionUnsupported, RUNTIME_VERSION, Hard, LookUp(caps, RUNTIME_VERSION).state)) +
    When(MemoryOpen(p, caps), Reason(UnknownCapability, MEMORY_TOTAL, Hard, Unknown)) +
    When(MemoryTooSmall(p, caps), Reason(InsufficientMemory, MEMORY_TOTAL, Hard, LookUp(caps, MEMORY_TOTAL).state))
  }

  function StandingReasons(p: PolicyBody, t: Target): seq<Reason> {
    When(ProvenanceRefused(p, t.provenance), Reason(PolicyMismatch, SYNTHETIC_EVIDENCE, Hard, Unsupported)) +
    When(!t.acceptsNewWork, Reason(PolicyMismatch, MEMBERSHIP_STATE, Hard, Unsupported))
  }

  function PolicyReasons(p: PolicyBody, w: Workload, t: Target, caps: CapabilitySet): seq<Reason> {
    DeviceReasons(p, t, caps) +
    RequiredReasons(p.requiredCapabilities, caps) +
    DeniedReasons(p.deniedCapabilities, caps) +
    TagReasons(w.tags, p) +
    StandingReasons(p, t)
  }

  method CheckRequired(keys: seq<string>, caps: CapabilitySet) returns (breached: bool, open: bool, reasons: seq<Reason>)
    ensures breached <==> exists i :: 0 <= i < |keys| && RequiredMissing(caps, keys[i])
    ensures open <==> exists i :: 0 <= i < |keys| && RequiredOpen(caps, keys[i])
    ensures reasons == RequiredReasons(keys, caps)
  {
    hide LookUp;
    breached, open, reasons := false, false, [];
    for n := 0 to |keys|
      invariant breached <==> exists i :: 0 <= i < n && RequiredMissing(caps, keys[i])
      invariant open <==> exists i :: 0 <= i < n && RequiredOpen(caps, keys[i])
      invariant reasons == RequiredReasons(keys[..n], caps)
    {
      assert keys[..n + 1][..n] == keys[..n] && keys[..n + 1][n] == keys[n];
      var state := LookUp(caps, keys[n]).state;
      if state == Unknown {
        open := true;
        reasons := reasons + [Reason(UnknownCapability, keys[n], Hard, state)];
      } else if state != Supported {
        breached := true;
        reasons := reasons + [Reason(MissingMandatoryCapability, keys[n], Hard, state)];
      }
    }
    assert keys[..|keys|] == keys;
  }

  method CheckDenied(keys: seq<string>, caps: CapabilitySet) returns (breached: bool, reasons: seq<Reason>)
    ensures breached <==> exists i :: 0 <= i < |keys| && DeniedPresent(caps, keys[i])
    ensures reasons == DeniedReasons(keys, caps)
  {
    hide LookUp;
    breached, reasons := false, [];
    for n := 0 to |keys|
      invariant breached <==> exists i :: 0 <= i < n && DeniedPresent(caps, keys[i])
      invariant reasons == DeniedReasons(keys[..n], caps)
    {
      assert keys[..n + 1][..n] == keys[..n] && keys[..n + 1][n] == keys[n];
      var state := LookUp(caps, keys[n]).state;
      if state == Supported || state == Degraded {
        breached := true;
        reasons := reasons + [Reason(PolicyMismatch, keys[n], Hard, state)];
      }
    }
    assert keys[..|keys|] == keys;
  }

  method CheckTags(tags: seq<string>, p: PolicyBody) returns (breached: bool, reasons: seq<Reason>)
    ensures breached <==> exists i :: 0 <= i < |tags| && tags[i] !in p.tags
    ensures reasons == TagReasons(tags, p)
  {
    breached, reasons := false, [];
    for n := 0 to |tags|
      invariant breached <==> exists i :: 0 <= i < n && tags[i] !in p.tags
      invariant reasons == TagReasons(tags[..n], p)
    {
      assert tags[..n + 1][..n] == tags[..n] && tags[..n + 1][n] == tags[n];
      if tags[n] !in p.tags {
        breached := true;
        reasons := reasons + [Reason(PolicyMismatch, "policy.tag." + tags[n], Hard, Unsupported)];
      }
    }
    assert tags[..|tags|] == tags;
  }

  method CheckPolicy(p: PolicyBody, w: Workload, t: Target, caps: CapabilitySet)
    returns (breached: bool, open: bool, reasons: seq<Reason>)
    ensures breached == PolicyBreached(p, w, t, caps)
    ensures open == PolicyOpen(p, caps)
    ensures reasons == PolicyReasons(p, w, t, caps)
  {
    hide DeviceBreached, DeviceReasons, RuntimeOpen, MemoryOpen, RequiredReasons, DeniedReasons, TagReasons;
    hide RequiredMissing, RequiredOpen, DeniedPresent, ProvenanceRefused;
    var b1, o1, r1 := CheckRequired(p.requiredCapabilities, caps);
    var b2, r2 := CheckDenied(p.deniedCapabilities, caps);
    var b3, r3 := CheckTags(w.tags, p);
    breached := DeviceBreached(p, t, caps) || b1 || b2 || b3;
    open := RuntimeOpen(p, caps) || MemoryOpen(p, caps) || o1;
    reasons := DeviceReasons(p, t, caps) + r1 + r2 + r3 + StandingReasons(p, t);
  }

  // ---- Portability constraints ------------------------------------------------------------

  function PortabilityRequest(p: PolicyBody, w: Workload, source: Source, caps: CapabilitySet): Request {
    Request(Some(source.capabilities), Some(caps), source.vendor, SupportedToken(caps, VENDOR), Some(w.need),
            p.allowCrossVendorMigration)
  }

  predicate BinaryMustChange(w: Workload, c: PortabilityClass) {
    w.mode == ExactBinary && c !in {Native, BinaryCompatible, LiveMigrationSupported}
  }

  predicate ClassNotPermitted(p: PolicyBody, c: PortabilityClass) {
    p.allowedClasses != [] && c != UnknownPortability && c !in p.allowedClasses
  }

  predicate LiveTransferMissing(w: Workload, c: PortabilityClass) {
    w.need == LiveStateTransfer && c != LiveMigrationSupported
  }

  predicate CheckpointMissing(w: Workload, c: PortabilityClass) {
    && w.need == CheckpointRestore
    && !MeetsThreshold(c, CheckpointRestoreSupported)
    && !(w.reconstructionAllowed && MeetsThreshold(c, RecompileRequired))
  }

  /** The class refuses the move outright. */
  predicate ClassRefused(p: PolicyBody, w: Workload, c: PortabilityClass) {
    || c == NotPortable
    || (c != UnknownPortability && !MeetsThreshold(c, w.minimumPortability))
    || BinaryMustChange(w, c)
    || ClassNotPermitted(p, c)
    || LiveTransferMissing(w, c)
    || CheckpointMissing(w, c)
  }

  function Failures(reasons: seq<Reason>): seq<Reason> {
    if reasons == [] then []
    else Failures(reasons[..|reasons| - 1]) + When(reasons[|reasons| - 1].code != Success, reasons[|reasons| - 1])
  }

  function ClassReasons(p: PolicyBody, w: Workload, c: PortabilityClass): seq<Reason> {
    When(c == UnknownPortability, Reason(UnknownCapability, PORTABILITY, Hard, Unknown)) +
    When(c == NotPortable, Reason(PortabilityConstraintViolated, PORTABILITY, Hard, Unsupported)) +
    When(c !in {UnknownPortability, NotPortable} && !MeetsThreshold(c, w.minimumPortability),
         Reason(PortabilityConstraintViolated, PORTABILITY, Hard, Supported)) +
    When(BinaryMustChange(w, c), Reason(PortabilityConstraintViolated, EXECUTION_MODE, Hard, Supported)) +
    When(ClassNotPermitted(p, c), Reason(PortabilityConstraintViolated, ALLOWED_CLASSES, Hard, Supported)) +
    When(LiveTransferMissing(w, c), Reason(MigrationUnsupported, MIGRATION_NEED, Hard, Supported)) +
    When(CheckpointMissing(w, c), Reason(MigrationUnsupported, MIGRATION_NEED, Hard, Supported))
  }

  method CopyFailures(reasons: seq<Reason>) returns (kept: seq<Reason>)
    ensures kept == Failures(reasons)
  {
    kept := [];
    for n := 0 to |reasons|
      invariant kept == Failures(reasons[..n])
    {
      assert reasons[..n + 1][..n] == reasons[..n] && reasons[..n + 1][n] == reasons[n];
      if reasons[n].code != Success {
        kept := kept + [reasons[n]];
      }
    }
    assert reasons[..|reasons|] == reasons;
  }

  // ---- The decision -----------------------------------------------------------------------

  /** Something hard is positively violated. */
  predicate Breached(w: Workload, p: PolicyBody, t: Target, caps: CapabilitySet, source: Option<Source>) {
    || SomeHardViolated(w.requirements, Evidence(caps, t.evidenceFresh, p.allowDegraded))
    || PolicyBreached(p, w, t, caps)
    || (source.Some? && ClassRefused(p, w, ClassOf(PortabilityRequest(p, w, source.value, caps))))
  }

  /** Something hard cannot be decided on the evidence at hand. */
  predicate Open(w: Workload, p: PolicyBody, t: Target, caps: CapabilitySet, source: Option<Source>) {
    || SomeHardOpen(w.requirements, Evidence(caps, t.evidenceFresh, p.allowDegraded))
    || PolicyOpen(p, caps)
    || (source.Some? && ClassOf(PortabilityRequest(p, w, source.value, caps)) == UnknownPortability)
  }

  function OutcomeOf(w: Workload, p: PolicyBody, t: Target, caps: CapabilitySet, source: Option<Source>): CompatibilityOutcome {
    if Breached(w, p, t, caps, source) then Ineligible
    else if Open(w, p, t, caps, source) then Undecided
    else Eligible
  }

  function ClassFor(w: Workload, p: PolicyBody, caps: CapabilitySet, source: Option<Source>): PortabilityClass {
    if source.Some? then ClassOf(PortabilityRequest(p, w, source.value, caps)) else Native
  }

  function MemoryBonus(t: Target, caps: CapabilitySet): int {
    var l := LookUp(caps, MEMORY_FREE);
    if l.present && l.value.Some? && l.state == Supported && t.evidenceFresh then
      var bytes := l.value.value.AsInteger();
      var gib := if bytes < 0 then 0 else bytes / 1073741824;
      if gib > 1000 then 1000 else gib
    else 0
  }

  function ProvenancePenalty(provenance: Provenance): int {
    match provenance case Real => 0 case Synthetic => 250 case NoEvidence => 500
  }

  function ScoreOf(w: Workload, p: PolicyBody, t: Target, caps: CapabilitySet, source: Option<Source>): int {
    TotalScore(Canonical(w.requirements), Evidence(caps, t.evidenceFresh, p.allowDegraded))
    - TransformationSteps(ClassFor(w, p, caps, source)) * 100
    - ProvenancePenalty(t.provenance)
    + MemoryBonus(t, caps)
  }

  function ReasonsFor(w: Workload, p: PolicyBody, t: Target, caps: CapabilitySet, source: Option<Source>): seq<Reason> {
    AllReasons(Canonical(w.requirements), Evidence(caps, t.evidenceFresh, p.allowDegraded)) +
    PolicyReasons(p, w, t, caps) +
    if source.None? then []
    else
      var classification := Classify(PortabilityRequest(p, w, source.value, caps));
      Failures(classification.reasons) + ClassReasons(p, w, classification.value)
  }

  /** The text that goes with a runtime version below the policy's bound. */
  function RuntimeText(p: PolicyBody, caps: CapabilitySet): string {
    var l := LookUp(caps, RUNTIME_VERSION);
    if RuntimeTooOld(p, caps) then
      "runtime version " + Render(l.value.value) + " does not satisfy policy minimum " + VersionRange.RangeText(p.minimumRuntime)
    else ""
  }

  /** The longest explanation. All others consist of a sentence and at most one token or key. */
  function LongestExplanation(w: Workload, p: PolicyBody, t: Target, caps: CapabilitySet): nat {
    Longer(LongestText(Canonical(w.requirements), Evidence(caps, t.evidenceFresh, p.allowDegraded)), |RuntimeText(p, caps)|)
  }

  function DecisionFor(w: Workload, c: Context, p: Policy, caps: CapabilitySet): Decision {
    Decision(
      c.federation, c.federationGeneration, c.epoch,
      c.target.accelerator, c.target.deviceGeneration, c.target.capabilityGeneration, c.target.evidenceGeneration,
      p.id, c.policyGeneration, w.classId, w.requirementId, c.revision,
      OutcomeOf(w, p.body, c.target, caps, c.source),
      ClassFor(w, p.body, caps, c.source),
      c.target.supportLevel, c.target.provenance,
      ScoreOf(w, p.body, c.target, caps, c.source),
      SortReasons(ReasonsFor(w, p.body, c.target, caps, c.source)),
      LongestExplanation(w, p.body, c.target, caps))
  }

  function Evaluate(w: Workload, c: Context): Result<Decision> {
    if !WorkloadValid(w) then Err(MalformedData)
    else if c.policy.None? || c.target.capabilities.None? || c.target.accelerator == NoAccelerator then Err(InvalidArgument)
    else if !PolicyValid(c.policy.value) then Err(MalformedData)
    else Ok(DecisionFor(w, c, c.policy.value, c.target.capabilities.value))
  }

  lemma CanonicalKeepsFlags(rs: seq<Requirement>, e: Evidence)
    ensures SomeHardViolated(Canonical(rs), e) == SomeHardViolated(rs, e)
    ensures SomeHardOpen(Canonical(rs), e) == SomeHardOpen(rs, e)
  {
    SortPermutes(RequirementLess, rs);
    FlagsFollowMembers(rs, Canonical(rs), e);
    FlagsFollowMembers(Canonical(rs), rs, e);
  }

  lemma FlagsFollowMembers(rs: seq<Requirement>, ss: seq<Requirement>, e: Evidence)
    requires multiset(rs) == multiset(ss)
    ensures SomeHardViolated(rs, e) ==> SomeHardViolated(ss, e)
    ensures SomeHardOpen(rs, e) ==> SomeHardOpen(ss, e)
  {
    if SomeHardViolated(rs, e) {
      var i :| 0 <= i < |rs| && rs[i].strength == Hard && IsViolated(rs[i], e);
      assert rs[i] in multiset(ss);
      var j :| 0 <= j < |ss| && ss[j] == rs[i];
    }
    if SomeHardOpen(rs, e) {
      var i :| 0 <= i < |rs| && rs[i].strength == Hard && !IsViolated(rs[i], e) && !IsSatisfied(rs[i], e);
      assert rs[i] in multiset(ss);
      var j :| 0 <= j < |ss| && ss[j] == rs[i];
    }
  }

  method CheckPortability(p: PolicyBody, w: Workload, source: Option<Source>, caps: CapabilitySet)
    returns (refused: bool, open: bool, class_: PortabilityClass, reasons: seq<Reason>)
    ensures class_ == ClassFor(w, p, caps, source)
    ensures refused == (source.Some? && ClassRefused(p, w, class_))
    ensures open == (source.Some? && class_ == UnknownPortability)
    ensures reasons == if source.None? then [] else
              Failures(Classify(PortabilityRequest(p, w, source.value, caps)).reasons) + ClassReasons(p, w, class_)
  {
    if source.None? {
      return false, false, Native, [];
    }
    var classification := ClassifyPortability(PortabilityRequest(p, w, source.value, caps));
    class_ := classification.value;
    var failures := CopyFailures(classification.reasons);
    refused, open := ClassRefused(p, w, class_), class_ == UnknownPortability;
    reasons := failures + ClassReasons(p, w, class_);
  }

  /** The evaluator as it runs: flags, score and reasons accumulated over the canonical
      requirement order, then policy, then portability. */
  method EvaluateCompatibility(w: Workload, c: Context) returns (r: Result<Decision>)
    ensures r == Evaluate(w, c)
  {
    hide WorkloadValid, PolicyValid, Canonical, SomeHardViolated, SomeHardOpen, TotalScore, AllReasons;
    hide PolicyBreached, PolicyOpen, PolicyReasons, ClassRefused, ClassReasons, Classify, Failures;
    hide TransformationSteps, ProvenancePenalty, MemoryBonus, SortReasons, ClassFor, PortabilityRequest, LongestText, RuntimeText;
    if !WorkloadValid(w) { return Err(MalformedData); }
    if c.policy.None? { return Err(InvalidArgument); }
    if c.target.capabilities.None? { return Err(InvalidArgument); }
    if c.target.accelerator == NoAccelerator { return Err(InvalidArgument); }
    if !PolicyValid(c.policy.value) { return Err(MalformedData); }
    var p, caps, t := c.policy.value, c.target.capabilities.value, c.target;
    var evidence := Evidence(caps, t.evidenceFresh, p.body.allowDegraded);
    var violated, open, score, reasons, longest := JudgeRequirements(Canonical(w.requirements), evidence);
    CanonicalKeepsFlags(w.requirements, evidence);
    var b1, o1, r1 := CheckPolicy(p.body, w, t, caps);
    var b2, o2, portability, r2 := CheckPortability(p.body, w, c.source, caps);
    reasons := reasons + r1 + r2;
    score := score - TransformationSteps(portability) * 100;
    score := score - ProvenancePenalty(t.provenance);
    score := score + MemoryBonus(t, caps);
    var outcome :=
      if violated || b1 || b2 then Ineligible else if open || o1 || o2 then Undecided else Eligible;
    ClassForSource(w, p.body, caps, c.source);
    assert outcome == OutcomeOf(w, p.body, t, caps, c.source);
    assert reasons == ReasonsFor(w, p.body, t, caps, c.source);
    return Ok(Decision(
      c.federation, c.federationGeneration, c.epoch,
      t.accelerator, t.deviceGeneration, t.capabilityGeneration, t.evidenceGeneration,
      p.id, c.policyGeneration, w.classId, w.requirementId, c.revision,
      outcome, portability, t.supportLevel, t.provenance, score, SortReasons(reasons),
      Longer(longest, |RuntimeText(p.body, caps)|)));
  }

  lemma ClassForSource(w: Workload, p: PolicyBody, caps: CapabilitySet, source: Option<Source>)
    ensures source.Some? ==>
              && ClassFor(w, p, caps, source) == ClassOf(PortabilityRequest(p, w, source.value, caps))
              && ClassFor(w, p, caps, source) == Classify(PortabilityRequest(p, w, source.value, caps)).value
  {
  }
}
