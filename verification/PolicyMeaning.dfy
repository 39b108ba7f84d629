/** What makes a target eligible, ineligible or undecided, rule by rule, and what a decision is worth. */
module PolicyMeaning {
  import opened Prelude
  import opened Version
  import opened Vocabulary
  import opened Capability
  import opened Portability
  import opened PortabilityMeaning
  import opened Compatibility
  import opened RequirementMeaning
  import VersionRange

  // ---- The rules of a policy --------------------------------------------------------------

  /** The enumeration that is claimed under a key. */
  ghost function ClaimedToken(caps: CapabilitySet, key: string): Option<string> {
    if !Claims(caps, key) then None
    else match caps.records[key].value case Enumeration(t) => if t == "" then None else Some(t) case _ => None
  }

  ghost predicate VendorBarred(p: PolicyBody, caps: CapabilitySet) {
    match ClaimedToken(caps, "vendor.id")
    case None => false
    case Some(v) => v in p.forbiddenVendors || (p.allowedVendors != [] && v !in p.allowedVendors)
  }

  ghost predicate ArchitectureBarred(p: PolicyBody, caps: CapabilitySet) {
    match ClaimedToken(caps, "architecture.family") case None => false case Some(a) => a in p.deprecatedArchitectures
  }

  /** Some clause of the bound does not admit the recorded runtime version. */
  ghost predicate RuntimeBarred(p: PolicyBody, caps: CapabilitySet) {
    && "runtime.version" in caps.records && caps.records["runtime.version"].state != Unknown
    && exists i :: 0 <= i < |p.minimumRuntime| && !VersionRange.Holds(p.minimumRuntime[i], caps.records["runtime.version"].value.AsVersion())
  }

  /** The number as 64 unsigned bits. */
  function Unsigned(i: int): nat { (i % 0x1_0000_0000_0000_0000) as nat }

  ghost predicate MemoryBarred(p: PolicyBody, caps: CapabilitySet) {
    && "memory.total_bytes" in caps.records && caps.records["memory.total_bytes"].state != Unknown
    && Unsigned(caps.records["memory.total_bytes"].value.AsInteger()) < p.minimumMemory
  }

  ghost predicate ProvenanceBarred(p: PolicyBody, provenance: Provenance) {
    match p.synthetic
    case RejectSynthetic => provenance != Real
    case RequireSynthetic => provenance != Synthetic
    case AllowSynthetic => false
  }

  /** Some capability is demanded, and the advertisement denies it or only half supports it. */
  ghost predicate LacksRequired(p: PolicyBody, caps: CapabilitySet) {
    exists key :: key in p.requiredCapabilities && Tells(caps, key) && !Claims(caps, key)
  }

  ghost predicate HasDenied(p: PolicyBody, caps: CapabilitySet) {
    exists key :: key in p.deniedCapabilities && (RecordedAs(caps, key, Supported) || RecordedAs(caps, key, Degraded))
  }

  ghost predicate LacksTag(p: PolicyBody, w: Workload) { exists tag :: tag in w.tags && tag !in p.tags }

  /** Some rule of the policy is broken. */
  ghost predicate PolicyForbids(p: PolicyBody, w: Workload, t: Target, caps: CapabilitySet) {
    || t.accelerator in p.forbiddenAccelerators || !t.acceptsNewWork
    || VendorBarred(p, caps) || ArchitectureBarred(p, caps) || RuntimeBarred(p, caps) || MemoryBarred(p, caps)
    || ProvenanceBarred(p, t.provenance) || LacksRequired(p, caps) || HasDenied(p, caps) || LacksTag(p, w)
  }

  /** Some rule of the policy wants evidence that is not there. */
  ghost predicate PolicyUnsure(p: PolicyBody, caps: CapabilitySet) {
    || (p.minimumRuntime != [] && !Tells(caps, "runtime.version"))
    || (p.minimumMemory > 0 && !Tells(caps, "memory.total_bytes"))
    || (exists key :: key in p.requiredCapabilities && !Tells(caps, key))
  }

  lemma TokenMeans(caps: CapabilitySet, key: string)
    ensures SupportedToken(caps, key) == match ClaimedToken(caps, key) case Some(t) => t case None => ""
    ensures ClaimedToken(caps, key) != Some("")
  {
    hide Namespace;
  }

  lemma StateMeans(caps: CapabilitySet, key: string)
    ensures LookUp(caps, key).state == Unknown <==> !Tells(caps, key)
    ensures LookUp(caps, key).state == Supported <==> Claims(caps, key)
    ensures LookUp(caps, key).state in {Supported, Degraded} <==> RecordedAs(caps, key, Supported) || RecordedAs(caps, key, Degraded)
    ensures LookUp(caps, key).present <==> key in caps.records
    ensures key in caps.records ==> LookUp(caps, key).value == Some(caps.records[key].value) && LookUp(caps, key).state == caps.records[key].state
  {
    hide Namespace;
  }

  lemma DeviceRules(p: PolicyBody, t: Target, caps: CapabilitySet)
    ensures DeviceBreached(p, t, caps) <==>
            || t.accelerator in p.forbiddenAccelerators || !t.acceptsNewWork
            || VendorBarred(p, caps) || ArchitectureBarred(p, caps) || RuntimeBarred(p, caps) || MemoryBarred(p, caps)
            || ProvenanceBarred(p, t.provenance)
  {
    TokenMeans(caps, VENDOR);
    TokenMeans(caps, ARCHITECTURE);
    RuntimeRule(p, caps);
    MemoryRule(p, caps);
    hide SupportedToken, ClaimedToken, RuntimeTooOld, RuntimeBarred, MemoryTooSmall, MemoryBarred;
  }

  lemma RuntimeRule(p: PolicyBody, caps: CapabilitySet)
    ensures RuntimeTooOld(p, caps) <==> RuntimeBarred(p, caps)
    ensures RuntimeOpen(p, caps) <==> p.minimumRuntime != [] && !Tells(caps, "runtime.version")
  {
    StateMeans(caps, RUNTIME_VERSION);
    hide LookUp, Tells, Claims, VersionRange.Holds;
  }

  lemma MemoryRule(p: PolicyBody, caps: CapabilitySet)
    ensures MemoryTooSmall(p, caps) <==> MemoryBarred(p, caps)
    ensures MemoryOpen(p, caps) <==> p.minimumMemory > 0 && !Tells(caps, "memory.total_bytes")
  {
    StateMeans(caps, MEMORY_TOTAL);
    hide LookUp, Tells, Claims;
  }

  lemma KeyRules(p: PolicyBody, caps: CapabilitySet)
    ensures (exists i :: 0 <= i < |p.requiredCapabilities| && RequiredMissing(caps, p.requiredCapabilities[i])) <==> LacksRequired(p, caps)
    ensures (exists i :: 0 <= i < |p.deniedCapabilities| && DeniedPresent(caps, p.deniedCapabilities[i])) <==> HasDenied(p, caps)
    ensures (exists i :: 0 <= i < |p.requiredCapabilities| && RequiredOpen(caps, p.requiredCapabilities[i]))
            <==> (exists key :: key in p.requiredCapabilities && !Tells(caps, key))
  {
    forall key
      ensures RequiredMissing(caps, key) <==> Tells(caps, key) && !Claims(caps, key)
      ensures RequiredOpen(caps, key) <==> !Tells(caps, key)
      ensures DeniedPresent(caps, key) <==> RecordedAs(caps, key, Supported) || RecordedAs(caps, key, Degraded)
    {
      StateMeans(caps, key);
      hide LookUp, Tells, Claims, RecordedAs;
    }
    hide RequiredMissing, RequiredOpen, DeniedPresent, Tells, Claims, RecordedAs;
  }

  /** The policy pass breaks exactly on these rules and is open exactly on these. */
  lemma PolicyMeans(p: PolicyBody, w: Workload, t: Target, caps: CapabilitySet)
    ensures PolicyBreached(p, w, t, caps) <==> PolicyForbids(p, w, t, caps)
    ensures PolicyOpen(p, caps) <==> PolicyUnsure(p, caps)
  {
    hide DeviceBreached, VendorBarred, ArchitectureBarred, RuntimeBarred, MemoryBarred, ProvenanceBarred, LacksRequired, HasDenied;
    hide RequiredMissing, RequiredOpen, DeniedPresent, RuntimeOpen, MemoryOpen, Tells;
    DeviceRules(p, t, caps);
    RuntimeRule(p, caps);
    MemoryRule(p, caps);
    KeyRules(p, caps);
  }

  // ---- The class of a move ----------------------------------------------------------------

  /** What a workload and a policy accept of a class. */
  ghost predicate ClassAccepted(p: PolicyBody, w: Workload, c: PortabilityClass) {
    && c != NotPortable
    && (c != UnknownPortability ==> MeetsThreshold(c, w.minimumPortability))
    && (w.mode == ExactBinary ==> c in {BinaryCompatible, Native, LiveMigrationSupported})
    && (p.allowedClasses != [] && c != UnknownPortability ==> c in p.allowedClasses)
    && (w.need == LiveStateTransfer ==> c == LiveMigrationSupported)
    && (w.need == CheckpointRestore ==>
          || c in {CheckpointRestoreSupported, BinaryCompatible, Native, LiveMigrationSupported}
          || (w.reconstructionAllowed && c == RecompileRequired))
  }

  lemma ClassMeans(p: PolicyBody, w: Workload, c: PortabilityClass)
    ensures ClassRefused(p, w, c) <==> !ClassAccepted(p, w, c)
  {
  }

  // ---- The outcome ------------------------------------------------------------------------

  ghost predicate SomeHardFails(w: Workload, e: Evidence) { exists r :: HardIn(w, r) && IsViolated(r, e) }

  ghost predicate SomeHardUndecided(w: Workload, e: Evidence) { exists r :: HardIn(w, r) && !IsViolated(r, e) && !IsSatisfied(r, e) }

  /** Ineligible means that something is broken, undecided that nothing is but evidence is missing. */
  lemma OutcomesMean(w: Workload, p: PolicyBody, t: Target, caps: CapabilitySet, source: Option<Source>)
    ensures
      var e, c := EvidenceFor(p, t, caps), ClassFor(w, p, caps, source);
      var broken := SomeHardFails(w, e) || PolicyForbids(p, w, t, caps) || (source.Some? && !ClassAccepted(p, w, c));
      var missing := SomeHardUndecided(w, e) || PolicyUnsure(p, caps) || (source.Some? && c == UnknownPortability);
      && (OutcomeOf(w, p, t, caps, source) == Ineligible <==> broken)
      && (OutcomeOf(w, p, t, caps, source) == Undecided <==> !broken && missing)
  {
    hide PolicyForbids, PolicyUnsure, PolicyBreached, PolicyOpen, ClassAccepted, ClassRefused, ClassOf, IsViolated, IsSatisfied;
    hide SomeHardViolated, SomeHardOpen, SomeHardFails, SomeHardUndecided;
    PolicyMeans(p, w, t, caps);
    ClassMeans(p, w, ClassFor(w, p, caps, source));
    HardFlags(w, EvidenceFor(p, t, caps));
  }

  lemma HardFlags(w: Workload, e: Evidence)
    ensures SomeHardViolated(w.requirements, e) <==> SomeHardFails(w, e)
    ensures SomeHardOpen(w.requirements, e) <==> SomeHardUndecided(w, e)
  {
    hide IsViolated, IsSatisfied;
    var rs := w.requirements;
    if SomeHardViolated(rs, e) {
      var i :| 0 <= i < |rs| && rs[i].strength == Hard && IsViolated(rs[i], e);
      assert HardIn(w, rs[i]);
    }
    if SomeHardOpen(rs, e) {
      var i :| 0 <= i < |rs| && rs[i].strength == Hard && !IsViolated(rs[i], e) && !IsSatisfied(rs[i], e);
      assert HardIn(w, rs[i]);
    }
  }

  // ---- Stricter policies ------------------------------------------------------------------

  ghost predicate Within(a: seq<string>, b: seq<string>) { forall x :: x in a ==> x in b }

  /** A list that permits everything when it is empty, and a shorter one. */
  ghost predicate Narrower<T(!new)>(a: seq<T>, b: seq<T>) { b == [] || (a != [] && forall x :: x in a ==> x in b) }

  ghost predicate TighterRange(q: seq<VersionRange.Clause>, p: seq<VersionRange.Clause>) {
    (p != [] ==> q != []) && forall v :: VersionRange.Matches(q, v) ==> VersionRange.Matches(p, v)
  }

  /** The first policy permits nothing that the second does not, list by list and bound by bound. */
  ghost predicate Stricter(q: PolicyBody, p: PolicyBody) {
    && Within(p.forbiddenVendors, q.forbiddenVendors) && Narrower(q.allowedVendors, p.allowedVendors)
    && (forall a :: a in p.forbiddenAccelerators ==> a in q.forbiddenAccelerators)
    && Within(p.deprecatedArchitectures, q.deprecatedArchitectures)
    && TighterRange(q.minimumRuntime, p.minimumRuntime) && p.minimumMemory <= q.minimumMemory
    && Within(p.requiredCapabilities, q.requiredCapabilities) && Within(p.deniedCapabilities, q.deniedCapabilities)
    && Within(q.tags, p.tags) && (p.synthetic == AllowSynthetic || p.synthetic == q.synthetic)
    && Narrower(q.allowedClasses, p.allowedClasses) && (q.allowDegraded ==> p.allowDegraded)
    && Consents(q, p)
  }

  /** The second policy consents to movement between vendors whenever the first does. Where it alone
      consents, it must not exclude the class that its consent makes possible. */
  ghost predicate Consents(q: PolicyBody, p: PolicyBody) {
    || q.allowCrossVendorMigration == p.allowCrossVendorMigration
    || (p.allowCrossVendorMigration && (p.allowedClasses == [] || LiveMigrationSupported in p.allowedClasses))
  }

  lemma StricterForbids(q: PolicyBody, p: PolicyBody, w: Workload, t: Target, caps: CapabilitySet)
    requires Stricter(q, p) && PolicyForbids(p, w, t, caps)
    ensures PolicyForbids(q, w, t, caps)
  {
    hide ClaimedToken, Tells, Claims, RecordedAs;
    if RuntimeBarred(p, caps) { RuntimeStaysBarred(q, p, caps); }
    hide RuntimeBarred, TighterRange;
  }

  lemma RuntimeStaysBarred(q: PolicyBody, p: PolicyBody, caps: CapabilitySet)
    requires TighterRange(q.minimumRuntime, p.minimumRuntime) && RuntimeBarred(p, caps)
    ensures RuntimeBarred(q, caps)
  {
    hide VersionRange.Holds;
    var v := caps.records["runtime.version"].value.AsVersion();
    assert !VersionRange.Matches(p.minimumRuntime, v);
    assert !VersionRange.Matches(q.minimumRuntime, v);
  }

  lemma StricterIsUnsure(q: PolicyBody, p: PolicyBody, caps: CapabilitySet)
    requires Stricter(q, p) && PolicyUnsure(p, caps)
    ensures PolicyUnsure(q, caps)
  {
    hide Tells, VersionRange.Matches;
  }

  lemma DegradedHelpsOnly(r: Requirement, q: PolicyBody, p: PolicyBody, t: Target, caps: CapabilitySet)
    requires (q.allowDegraded ==> p.allowDegraded) && IsSatisfied(r, EvidenceFor(q, t, caps))
    ensures IsSatisfied(r, EvidenceFor(p, t, caps))
  {
    hide LookUp, IsDynamic, SubsetTokens, SharesAny, VersionRange.Matches, CapabilityValue.Same, CapabilityValue.AtLeast, CapabilityValue.AtMost;
  }

  /** What a stricter policy approves, the more lenient one approves as well. */
  lemma StricterPolicyNeverHelps(w: Workload, q: PolicyBody, p: PolicyBody, t: Target, caps: CapabilitySet, source: Option<Source>)
    requires Stricter(q, p) && OutcomeOf(w, q, t, caps, source) == Eligible
    ensures OutcomeOf(w, p, t, caps, source) == Eligible
  {
    hide OutcomeOf, PolicyForbids, PolicyUnsure, IsViolated, IsSatisfied, ClassOf, Stricter, ClassAccepted, SomeHardFails, SomeHardUndecided;
    OutcomesMean(w, q, t, caps, source);
    OutcomesMean(w, p, t, caps, source);
    if PolicyForbids(p, w, t, caps) { StricterForbids(q, p, w, t, caps); }
    if PolicyUnsure(p, caps) { StricterIsUnsure(q, p, caps); }
    StricterClass(w, q, p, caps, source);
    StricterHard(w, q, p, t, caps);
  }

  lemma StricterHard(w: Workload, q: PolicyBody, p: PolicyBody, t: Target, caps: CapabilitySet)
    requires Stricter(q, p) && !SomeHardFails(w, EvidenceFor(q, t, caps)) && !SomeHardUndecided(w, EvidenceFor(q, t, caps))
    ensures !SomeHardFails(w, EvidenceFor(p, t, caps)) && !SomeHardUndecided(w, EvidenceFor(p, t, caps))
  {
    hide IsViolated, IsSatisfied;
    forall r | HardIn(w, r)
      ensures IsSatisfied(r, EvidenceFor(p, t, caps)) && !IsViolated(r, EvidenceFor(p, t, caps))
    {
      assert IsSatisfied(r, EvidenceFor(q, t, caps));
      DegradedHelpsOnly(r, q, p, t, caps);
      NeverBoth(r, EvidenceFor(p, t, caps));
    }
  }

  lemma NeverBoth(r: Requirement, e: Evidence)
    ensures !(IsSatisfied(r, e) && IsViolated(r, e))
  {
    hide Match, LookUp, IsStale;
  }

  /** Consent never weakens a class: it leaves it as it is or makes live movement possible. */
  lemma ConsentStrengthens(w: Workload, q: PolicyBody, p: PolicyBody, caps: CapabilitySet, source: Option<Source>)
    requires q.allowCrossVendorMigration ==> p.allowCrossVendorMigration
    ensures ClassFor(w, p, caps, source) == ClassFor(w, q, caps, source)
            || (ClassFor(w, p, caps, source) == LiveMigrationSupported && ClassFor(w, q, caps, source) != UnknownPortability && source.Some?)
  {
    hide SupportedToken, GatePasses, SharesToken, Supports, SameArchitecture;
  }

  lemma StricterClass(w: Workload, q: PolicyBody, p: PolicyBody, caps: CapabilitySet, source: Option<Source>)
    requires Stricter(q, p)
    ensures ClassFor(w, q, caps, source) != UnknownPortability ==> ClassFor(w, p, caps, source) != UnknownPortability
    ensures ClassFor(w, q, caps, source) != UnknownPortability && ClassAccepted(q, w, ClassFor(w, q, caps, source)) ==>
              ClassAccepted(p, w, ClassFor(w, p, caps, source))
  {
    if q.allowCrossVendorMigration ==> p.allowCrossVendorMigration { ConsentStrengthens(w, q, p, caps, source); }
    hide ClassFor, TighterRange, Within;
  }

  // ---- What a decision is worth -----------------------------------------------------------

  const GIBIBYTE := 0x4000_0000

  /** Whole gibibytes of claimed free memory, up to a thousand, if the observation is recent. */
  ghost function RoomWorth(t: Target, caps: CapabilitySet): int {
    if !Claims(caps, "memory.free_bytes") || !t.evidenceFresh then 0
    else match caps.records["memory.free_bytes"].value
      case Integer(b) => if b < 0 then 0 else if b / GIBIBYTE > 1000 then 1000 else b / GIBIBYTE
      case _ => 0
  }

  ghost function ProvenanceWorth(provenance: Provenance): int { match provenance case Real => 0 case Synthetic => -250 case NoEvidence => -500 }

  /** Without preferences the score is what the room is worth, less a hundred for each transformation
      and less what doubtful evidence costs. */
  lemma BareScore(w: Workload, p: PolicyBody, t: Target, caps: CapabilitySet, source: Option<Source>)
    requires w.requirements == []
    ensures ScoreOf(w, p, t, caps, source)
            == RoomWorth(t, caps) - 100 * TransformationSteps(ClassFor(w, p, caps, source)) + ProvenanceWorth(t.provenance)
  {
    StateMeans(caps, MEMORY_FREE);
    hide ClassOf, LookUp, TransformationSteps, Claims;
    assert Canonical(w.requirements) == [];
  }

  /** Between two standings and two sources the score differs by a hundred for each transformation and
      by what the evidence is worth. */
  lemma ScoresCompare(w: Workload, p: PolicyBody, t: Target, u: Target, caps: CapabilitySet, s: Option<Source>, z: Option<Source>)
    requires t.evidenceFresh == u.evidenceFresh
    ensures ScoreOf(w, p, t, caps, s) - ScoreOf(w, p, u, caps, z)
            == ProvenanceWorth(t.provenance) - ProvenanceWorth(u.provenance)
               - 100 * (TransformationSteps(ClassFor(w, p, caps, s)) - TransformationSteps(ClassFor(w, p, caps, z)))
  {
    hide ClassOf, LookUp, TransformationSteps, TotalScore, Canonical;
  }
}
