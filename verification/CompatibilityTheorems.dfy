/** What the compatibility engine promises for every workload, policy and advertisement. */
module CompatibilityTheorems {
  import opened Prelude
  import opened Ordering
  import opened Version
  import VersionRange
  import opened Vocabulary
  import opened Capability
  import opened Portability
  import opened Compatibility

  // ---- The declaration order of requirements is irrelevant ---------------------------------

  lemma RequirementOrder()
    ensures WeakOrder(RequirementLess)
  {
    forall a, b | RequirementLess(a, b)
      ensures !RequirementLess(b, a)
    {
      StringLessTotal(a.capability, b.capability);
    }
    forall a, b, c | !RequirementLess(b, a) && !RequirementLess(c, b)
      ensures !RequirementLess(c, a)
    {
      StringLessTotal(a.capability, b.capability);
      StringLessTotal(b.capability, c.capability);
      StringLessTotal(a.capability, c.capability);
      if StringLess(a.capability, b.capability) && StringLess(b.capability, c.capability) {
        StringLessTransitive(a.capability, b.capability, c.capability);
      }
    }
  }

  /** No two entries occupy the same slot. */
  ghost predicate Slots(rs: seq<Requirement>) {
    forall i, j :: 0 <= i < j < |rs| ==> !SameSlot(rs[i], rs[j])
  }

  lemma DifferentSlotsAreOrdered(a: Requirement, b: Requirement)
    requires !SameSlot(a, b)
    ensures RequirementLess(a, b) || RequirementLess(b, a)
  {
    StringLessTotal(a.capability, b.capability);
  }

  lemma SlotsSeparate(rs: seq<Requirement>)
    requires Slots(rs)
    ensures Separates(RequirementLess, rs)
  {
    forall i, j | 0 <= i < |rs| && 0 <= j < |rs| && rs[i] != rs[j]
      ensures RequirementLess(rs[i], rs[j]) || RequirementLess(rs[j], rs[i])
    {
      assert i < j || j < i;
      assert SameSlot(rs[i], rs[j]) <==> SameSlot(rs[j], rs[i]);
      DifferentSlotsAreOrdered(rs[i], rs[j]);
    }
  }

  lemma SlotsSurvivePermutation(rs: seq<Requirement>, ss: seq<Requirement>)
    requires Slots(rs) && multiset(rs) == multiset(ss)
    ensures Slots(ss)
  {
    forall i, j | 0 <= i < j < |ss|
      ensures !SameSlot(ss[i], ss[j])
    {
      if ss[i] == ss[j] {
        TwiceInMultiset(ss, ss[i], i, j);
        var a, b := TwiceInSequence(rs, ss[i]);
        assert SameSlot(rs[a], rs[b]);
        assert false;
      } else {
        assert ss[i] in multiset(rs) && ss[j] in multiset(rs);
        var a :| 0 <= a < |rs| && rs[a] == ss[i];
        var b :| 0 <= b < |rs| && rs[b] == ss[j];
        assert a < b ==> !SameSlot(rs[a], rs[b]);
        assert b < a ==> !SameSlot(rs[b], rs[a]);
      }
    }
  }

  lemma ValidSurvivesPermutation(w: Workload, rs: seq<Requirement>)
    requires WorkloadValid(w) && multiset(rs) == multiset(w.requirements)
    ensures WorkloadValid(w.(requirements := rs))
  {
    hide RequirementValid;
    SlotsSurvivePermutation(w.requirements, rs);
    assert |rs| == |multiset(rs)| == |w.requirements|;
    forall i | 0 <= i < |rs|
      ensures RequirementValid(rs[i])
    {
      assert rs[i] in multiset(w.requirements);
    }
  }

  lemma OutcomeSurvivesPermutation(w: Workload, rs: seq<Requirement>, p: PolicyBody, t: Target, caps: CapabilitySet, source: Option<Source>)
    requires multiset(rs) == multiset(w.requirements)
    ensures OutcomeOf(w.(requirements := rs), p, t, caps, source) == OutcomeOf(w, p, t, caps, source)
    ensures PolicyReasons(p, w.(requirements := rs), t, caps) == PolicyReasons(p, w, t, caps)
    ensures ClassFor(w.(requirements := rs), p, caps, source) == ClassFor(w, p, caps, source)
  {
    hide SomeHardViolated, SomeHardOpen, ClassOf, SupportedToken, DeviceBreached, PolicyOpen, RequiredMissing, DeniedPresent;
    hide DeviceReasons, StandingReasons, RequiredReasons, DeniedReasons, TagReasons, MeetsThreshold;
    var e := Evidence(caps, t.evidenceFresh, p.allowDegraded);
    FlagsFollowMembers(w.requirements, rs, e);
    FlagsFollowMembers(rs, w.requirements, e);
  }

  lemma ValidMeansSlots(w: Workload)
    requires WorkloadValid(w)
    ensures Slots(w.requirements)
  {
    hide RequirementValid;
  }

  /** Every decision is the same for every order in which the workload declares its requirements. */
  lemma DeclarationOrderIsIrrelevant(w: Workload, rs: seq<Requirement>, c: Context)
    requires WorkloadValid(w) && multiset(rs) == multiset(w.requirements)
    ensures Evaluate(w.(requirements := rs), c) == Evaluate(w, c)
  {
    hide WorkloadValid, PolicyValid, DecisionFor, RequirementLess, Slots, Separates, WeakOrder, Sort;
    ValidMeansSlots(w);
    ValidSurvivesPermutation(w, rs);
    RequirementOrder();
    SlotsSeparate(w.requirements);
    SortIgnoresOrder(RequirementLess, w.requirements, rs);
    assert Canonical(rs) == Canonical(w.requirements);
    if c.policy.Some? && c.target.capabilities.Some? {
      SameDecision(w, rs, c, c.policy.value, c.target.capabilities.value);
    }
  }

  lemma SameDecision(w: Workload, rs: seq<Requirement>, c: Context, p: Policy, caps: CapabilitySet)
    requires multiset(rs) == multiset(w.requirements) && Canonical(rs) == Canonical(w.requirements)
    ensures DecisionFor(w.(requirements := rs), c, p, caps) == DecisionFor(w, c, p, caps)
  {
    OutcomeSurvivesPermutation(w, rs, p.body, c.target, caps, c.source);
    hide OutcomeOf, Canonical, TotalScore, AllReasons, PolicyReasons, Failures, SortReasons, MemoryBonus, ProvenancePenalty;
    hide Classify, MeetsThreshold, SupportedToken, TransformationSteps, RuntimeText, LongestText, ClassReasons;
    var v := w.(requirements := rs);
    assert ScoreOf(v, p.body, c.target, caps, c.source) == ScoreOf(w, p.body, c.target, caps, c.source);
    assert ReasonsFor(v, p.body, c.target, caps, c.source) == ReasonsFor(w, p.body, c.target, caps, c.source) by {
      if c.source.Some? {
        assert PortabilityRequest(p.body, v, c.source.value, caps) == PortabilityRequest(p.body, w, c.source.value, caps);
        SameClassReasons(p.body, w, rs, Classify(PortabilityRequest(p.body, w, c.source.value, caps)).value);
      }
    }
  }

  lemma SameClassReasons(p: PolicyBody, w: Workload, rs: seq<Requirement>, k: PortabilityClass)
    ensures ClassReasons(p, w.(requirements := rs), k) == ClassReasons(p, w, k)
  {
  }

  // ---- Soft preferences never decide eligibility -------------------------------------------

  ghost predicate SameHardRequirements(rs: seq<Requirement>, ss: seq<Requirement>) {
    forall r: Requirement :: r.strength == Hard ==> (r in rs <==> r in ss)
  }

  lemma HardFlagsFollow(rs: seq<Requirement>, ss: seq<Requirement>, e: Evidence)
    requires SameHardRequirements(rs, ss)
    ensures SomeHardViolated(rs, e) ==> SomeHardViolated(ss, e)
    ensures SomeHardOpen(rs, e) ==> SomeHardOpen(ss, e)
  {
    hide IsViolated, IsSatisfied;
    if SomeHardViolated(rs, e) {
      var i :| 0 <= i < |rs| && rs[i].strength == Hard && IsViolated(rs[i], e);
      assert rs[i] in ss;
      var j :| 0 <= j < |ss| && ss[j] == rs[i];
    }
    if SomeHardOpen(rs, e) {
      var i :| 0 <= i < |rs| && rs[i].strength == Hard && !IsViolated(rs[i], e) && !IsSatisfied(rs[i], e);
      assert rs[i] in ss;
      var j :| 0 <= j < |ss| && ss[j] == rs[i];
    }
  }

  /** Adding, removing or changing soft preferences leaves the outcome as it was. */
  lemma SoftPreferencesNeverDecide(w: Workload, rs: seq<Requirement>, p: PolicyBody, t: Target, caps: CapabilitySet, source: Option<Source>)
    requires SameHardRequirements(w.requirements, rs)
    ensures OutcomeOf(w.(requirements := rs), p, t, caps, source) == OutcomeOf(w, p, t, caps, source)
  {
    hide SomeHardViolated, SomeHardOpen, ClassOf, SupportedToken, DeviceBreached, PolicyOpen, RequiredMissing, DeniedPresent, MeetsThreshold;
    var e := Evidence(caps, t.evidenceFresh, p.allowDegraded);
    HardFlagsFollow(w.requirements, rs, e);
    HardFlagsFollow(rs, w.requirements, e);
  }

  // ---- Missing evidence never helps --------------------------------------------------------

  lemma WithoutLookUp(caps: CapabilitySet, key: string, other: string)
    requires Namespace(key) !in caps.closed
    ensures LookUp(Without(caps, key), key) == ABSENT
    ensures other != key ==> LookUp(Without(caps, key), other) == LookUp(caps, other)
  {
  }

  lemma RequirementWithout(r: Requirement, caps: CapabilitySet, key: string, current: bool, degraded: bool)
    requires Namespace(key) !in caps.closed
    ensures var before, after := Evidence(caps, current, degraded), Evidence(Without(caps, key), current, degraded);
            && (r.capability == key ==> !IsSatisfied(r, after) && !IsViolated(r, after))
            && (r.capability != key ==> IsSatisfied(r, after) == IsSatisfied(r, before) && IsViolated(r, after) == IsViolated(r, before))
  {
    WithoutLookUp(caps, key, r.capability);
    hide LookUp, IsDynamic, RejectionCode;
    assert Match(r, ABSENT, degraded) == Indeterminate;
  }

  lemma RequirementsWithout(rs: seq<Requirement>, caps: CapabilitySet, key: string, current: bool, degraded: bool)
    requires Namespace(key) !in caps.closed
    requires !SomeHardViolated(rs, Evidence(Without(caps, key), current, degraded))
    requires !SomeHardOpen(rs, Evidence(Without(caps, key), current, degraded))
    ensures !SomeHardViolated(rs, Evidence(caps, current, degraded))
    ensures !SomeHardOpen(rs, Evidence(caps, current, degraded))
  {
    var before, after := Evidence(caps, current, degraded), Evidence(Without(caps, key), current, degraded);
    forall i | 0 <= i < |rs| && rs[i].strength == Hard
      ensures IsSatisfied(rs[i], before) && !IsViolated(rs[i], before)
    {
      assert IsSatisfied(rs[i], after);
      RequirementWithout(rs[i], caps, key, current, degraded);
    }
  }

  /** The rules a record can break merely by being present. */
  predicate BarredByPresence(p: PolicyBody, w: Workload, caps: CapabilitySet, source: Option<Source>, key: string) {
    || (key == VENDOR && (VendorForbidden(p, SupportedToken(caps, VENDOR)) || VendorNotAllowed(p, SupportedToken(caps, VENDOR))))
    || (key == ARCHITECTURE && ArchitectureDeprecated(p, SupportedToken(caps, ARCHITECTURE)))
    || (key in p.deniedCapabilities && DeniedPresent(caps, key))
    || (source.Some? && ClassNotPermitted(p, ClassFor(w, p, caps, source)))
  }

  lemma PolicyWithout(p: PolicyBody, w: Workload, t: Target, caps: CapabilitySet, key: string)
    requires Namespace(key) !in caps.closed
    requires !PolicyBreached(p, w, t, Without(caps, key)) && !PolicyOpen(p, Without(caps, key))
    ensures !PolicyOpen(p, caps)
    ensures PolicyBreached(p, w, t, caps) <==> BarredByPresence(p, w, caps, None, key)
  {
    WithoutLookUp(caps, key, VENDOR);
    WithoutLookUp(caps, key, ARCHITECTURE);
    WithoutLookUp(caps, key, RUNTIME_VERSION);
    WithoutLookUp(caps, key, MEMORY_TOTAL);
    forall i | 0 <= i < |p.requiredCapabilities|
      ensures !RequiredMissing(caps, p.requiredCapabilities[i]) && !RequiredOpen(caps, p.requiredCapabilities[i])
    {
      WithoutLookUp(caps, key, p.requiredCapabilities[i]);
      assert !RequiredOpen(Without(caps, key), p.requiredCapabilities[i]);
      assert !RequiredMissing(Without(caps, key), p.requiredCapabilities[i]);
    }
    forall i | 0 <= i < |p.deniedCapabilities|
      ensures DeniedPresent(caps, p.deniedCapabilities[i]) ==> p.deniedCapabilities[i] == key
    {
      WithoutLookUp(caps, key, p.deniedCapabilities[i]);
      assert !DeniedPresent(Without(caps, key), p.deniedCapabilities[i]);
    }
    hide LookUp, VersionRange.Matches, Without, Namespace;
    DeviceWithout(p, t, caps, key);
    if key in p.deniedCapabilities && DeniedPresent(caps, key) {
      var i :| 0 <= i < |p.deniedCapabilities| && p.deniedCapabilities[i] == key;
      assert DeniedPresent(caps, p.deniedCapabilities[i]);
    }
    DeviceOpenWithout(p, caps, key);
  }

  lemma DeviceOpenWithout(p: PolicyBody, caps: CapabilitySet, key: string)
    requires Namespace(key) !in caps.closed
    ensures RuntimeOpen(p, caps) ==> RuntimeOpen(p, Without(caps, key))
    ensures MemoryOpen(p, caps) ==> MemoryOpen(p, Without(caps, key))
  {
    WithoutLookUp(caps, key, RUNTIME_VERSION);
    WithoutLookUp(caps, key, MEMORY_TOTAL);
    hide LookUp, Without, Namespace;
  }

  lemma DeviceWithout(p: PolicyBody, t: Target, caps: CapabilitySet, key: string)
    requires Namespace(key) !in caps.closed
    requires !DeviceBreached(p, t, Without(caps, key)) && !PolicyOpen(p, Without(caps, key))
    ensures DeviceBreached(p, t, caps) <==>
            || (key == VENDOR && (VendorForbidden(p, SupportedToken(caps, VENDOR)) || VendorNotAllowed(p, SupportedToken(caps, VENDOR))))
            || (key == ARCHITECTURE && ArchitectureDeprecated(p, SupportedToken(caps, ARCHITECTURE)))
  {
    WithoutLookUp(caps, key, VENDOR);
    WithoutLookUp(caps, key, ARCHITECTURE);
    WithoutLookUp(caps, key, RUNTIME_VERSION);
    WithoutLookUp(caps, key, MEMORY_TOTAL);
    hide LookUp, VersionRange.Matches, Without, Namespace;
    var after := Without(caps, key);
    assert key != VENDOR ==> SupportedToken(after, VENDOR) == SupportedToken(caps, VENDOR);
    assert key != ARCHITECTURE ==> SupportedToken(after, ARCHITECTURE) == SupportedToken(caps, ARCHITECTURE);
    assert !RuntimeTooOld(p, caps);
    assert !MemoryTooSmall(p, caps);
  }

  lemma GateWithout(source: CapabilitySet, caps: CapabilitySet, key: string)
    requires Namespace(key) !in caps.closed && GatePasses(source, Without(caps, key))
    ensures GatePasses(source, caps)
    ensures key !in GATE
  {
    forall i | 0 <= i < |GATE|
      ensures GATE[i] != key && Known(source, GATE[i]) && Known(caps, GATE[i])
    {
      assert Known(source, GATE[i]) && Known(Without(caps, key), GATE[i]);
      WithoutLookUp(caps, key, GATE[i]);
    }
  }

  lemma WithoutEnriches(caps: CapabilitySet, key: string)
    requires Namespace(key) !in caps.closed && key !in GATE
    ensures Enriches(Without(caps, key), caps)
  {
    assert GATE[1] == ARCHITECTURE && GATE[2] == CODE_OBJECT_TARGETS;
    WithoutLookUp(caps, key, ARCHITECTURE);
    WithoutLookUp(caps, key, CODE_OBJECT_TARGETS);
    forall k | k in MOVEMENT_FACTS && Supports(Without(caps, key), k)
      ensures Supports(caps, k)
    {
      WithoutLookUp(caps, key, k);
    }
    hide LookUp, Without, Namespace;
  }

  /** Every portability demand that a class meets is met by every stronger class. */
  lemma StrongerClassServes(w: Workload, p: PolicyBody, weak: PortabilityClass, strong: PortabilityClass)
    requires weak != UnknownPortability && strong != UnknownPortability && Strength(weak) <= Strength(strong)
    requires !ClassRefused(p, w, weak)
    ensures ClassRefused(p, w, strong) <==> ClassNotPermitted(p, strong)
  {
  }

  lemma ClassKnownIffGatePasses(r: Request)
    requires r.source.Some? && r.destination.Some?
    ensures ClassOf(r) != UnknownPortability <==> GatePasses(r.source.value, r.destination.value)
  {
  }

  lemma EnrichesItself(caps: CapabilitySet)
    ensures Enriches(caps, caps)
  {
  }

  lemma ClassWithout(w: Workload, p: PolicyBody, caps: CapabilitySet, source: Source, key: string)
    requires Namespace(key) !in caps.closed
    requires ClassOf(PortabilityRequest(p, w, source, Without(caps, key))) != UnknownPortability
    ensures var before, after := ClassOf(PortabilityRequest(p, w, source, caps)), ClassOf(PortabilityRequest(p, w, source, Without(caps, key)));
            before != UnknownPortability && Strength(after) <= Strength(before)
  {
    hide LookUp, Namespace, Without, ClassOf, GatePasses, Enriches;
    var r, s := PortabilityRequest(p, w, source, Without(caps, key)), PortabilityRequest(p, w, source, caps);
    ClassKnownIffGatePasses(r);
    ClassKnownIffGatePasses(s);
    GateWithout(source.capabilities, caps, key);
    WithoutEnriches(caps, key);
    assert GATE[0] == VENDOR;
    WithoutLookUp(caps, key, VENDOR);
    EnrichesItself(source.capabilities);
    MoreFactsNeverWeaken(r, s);
  }

  /** Omission exactly: if an accelerator is eligible after a record outside its closed
      namespaces is deleted, it was eligible before, except when that record, or the class it
      justified, was itself barred by the policy. */
  lemma OmissionNeverHelps(w: Workload, p: PolicyBody, t: Target, caps: CapabilitySet, source: Option<Source>, key: string)
    requires Namespace(key) !in caps.closed
    requires OutcomeOf(w, p, t, Without(caps, key), source) == Eligible
    ensures OutcomeOf(w, p, t, caps, source) == Eligible <==> !BarredByPresence(p, w, caps, source, key)
  {
    hide SomeHardViolated, SomeHardOpen, PolicyBreached, PolicyOpen, ClassOf, PortabilityRequest, Without, Namespace;
    hide ClassRefused, ClassNotPermitted;
    RequirementsWithout(w.requirements, caps, key, t.evidenceFresh, p.allowDegraded);
    PolicyWithout(p, w, t, caps, key);
    if source.Some? {
      ClassWithout(w, p, caps, source.value, key);
      StrongerClassServes(w, p, ClassOf(PortabilityRequest(p, w, source.value, Without(caps, key))),
                          ClassOf(PortabilityRequest(p, w, source.value, caps)));
    }
  }

  // A target whose vendor is forbidden becomes eligible by not naming its vendor.

  const BARE_WORKLOAD := Workload(1, 1, [], AnyPortability, NotPortable, NoMigration, false, [], true)

  const NO_ACME := PolicyBody("", [], ["acme"], [], [], [], 0, AllowSynthetic, false, [], [], [], false, false, false, 0, [])

  const ACME := CapabilitySet(map[VENDOR := CapabilityRecord(Supported, Enumeration("acme"), "")], {})

  lemma AcmeIsReal()
    ensures WorkloadValid(BARE_WORKLOAD) && PolicyBodyValid(NO_ACME) && CapabilitiesValid(ACME)
  {
    assert KeyName(VENDOR) == Some(VENDOR) && KeyKind(VENDOR) == Some(EnumerationKind) by { assert NamesEnumeration(VENDOR); }
    hide KeyName, KeyKind;
    assert EntryValid(VENDOR, ACME.records[VENDOR]);
  }

  lemma OmissionCanHelp(t: Target)
    requires t.acceptsNewWork
    ensures OutcomeOf(BARE_WORKLOAD, NO_ACME, t, ACME, None) == Ineligible
    ensures OutcomeOf(BARE_WORKLOAD, NO_ACME, t, Without(ACME, VENDOR), None) == Eligible
    ensures WorkloadValid(BARE_WORKLOAD) && PolicyBodyValid(NO_ACME) && CapabilitiesValid(ACME)
  {
    AcmeIsReal();
    hide WorkloadValid, PolicyBodyValid, CapabilitiesValid, Match, Namespace;
    assert SupportedToken(ACME, VENDOR) == "acme";
    assert NO_ACME.forbiddenVendors[0] == "acme";
    assert SupportedToken(Without(ACME, VENDOR), VENDOR) == "";
    assert SupportedToken(Without(ACME, VENDOR), ARCHITECTURE) == "";
  }

  /** The documented promise, on the policies for which it holds outright. */
  lemma OmissionNeverHelpsUnderPlainPolicy(w: Workload, p: PolicyBody, t: Target, caps: CapabilitySet, source: Option<Source>, key: string)
    requires Namespace(key) !in caps.closed
    requires p.allowedClasses == [] && key !in p.deniedCapabilities
    requires key == VENDOR ==> p.allowedVendors == [] && p.forbiddenVendors == []
    requires key == ARCHITECTURE ==> p.deprecatedArchitectures == []
    ensures OutcomeOf(w, p, t, caps, source) != Eligible ==> OutcomeOf(w, p, t, Without(caps, key), source) != Eligible
  {
    if OutcomeOf(w, p, t, Without(caps, key), source) == Eligible {
      OmissionNeverHelps(w, p, t, caps, source, key);
    }
  }

  // ---- Fail-closed rules the federation relies on ------------------------------------------

  /** A member that accepts no new work is never eligible. */
  lemma IdleMemberIsIneligible(w: Workload, p: PolicyBody, t: Target, caps: CapabilitySet, source: Option<Source>)
    requires !t.acceptsNewWork
    ensures OutcomeOf(w, p, t, caps, source) == Ineligible
  {
  }

  /** A hard requirement on a decaying observation is never met by stale evidence. */
  lemma StaleEvidenceIsNeverEligible(w: Workload, p: PolicyBody, t: Target, caps: CapabilitySet, source: Option<Source>, r: Requirement)
    requires !t.evidenceFresh && r in w.requirements && r.strength == Hard && IsDynamic(r.capability)
    ensures OutcomeOf(w, p, t, caps, source) != Eligible
  {
    var e := Evidence(caps, t.evidenceFresh, p.allowDegraded);
    var i :| 0 <= i < |w.requirements| && w.requirements[i] == r;
    assert IsStale(r, e);
    assert SomeHardOpen(w.requirements, e);
  }

  // ---- Strict comparisons -----------------------------------------------------------------

  /** A record and a requirement under the same key carry values of the same kind. */
  lemma KindsAgree(r: Requirement, caps: CapabilitySet)
    requires RequirementValid(r) && CapabilitiesValid(caps) && r.capability in caps.records
    ensures caps.records[r.capability].value.KindOf() == r.value.KindOf()
  {
    hide KeyKind, KeyName, RecordValid, VersionRange.Formed;
    assert EntryValid(r.capability, caps.records[r.capability]);
  }

  lemma NumbersOnly(r: Requirement)
    requires RequirementValid(r) && r.op in {AtLeast, AtMost, GreaterThan, LessThan}
    ensures r.value.Integer? || r.value.Scalar? || r.value.VersionValue?
  {
    hide KeyKind, VersionRange.Formed;
  }

  /** For every valid requirement and advertisement, the ordering operators are decided by usable
      evidence, a strict bound is the opposite of the weak bound the other way round, and a
      value that only equals the bound never meets it. */
  lemma StrictBoundsAreStrict(r: Requirement, caps: CapabilitySet, allowDegraded: bool)
    requires RequirementValid(r) && CapabilitiesValid(caps) && r.capability in caps.records
    requires r.op in {AtLeast, AtMost, GreaterThan, LessThan}
    requires caps.records[r.capability].state == Supported || (caps.records[r.capability].state == Degraded && allowDegraded)
    ensures
      var v := caps.records[r.capability].value;
      var met := Match(r, LookUp(caps, r.capability), allowDegraded) == Satisfied;
      && Match(r, LookUp(caps, r.capability), allowDegraded) != Indeterminate
      && (r.op == GreaterThan ==> (met <==> !v.AtMost(r.value)) && !(met && v.Same(r.value)))
      && (r.op == LessThan ==> (met <==> !v.AtLeast(r.value)) && !(met && v.Same(r.value)))
      && (r.op == AtLeast ==> (met <==> !(v.AtMost(r.value) && !v.Same(r.value))))
      && (r.op == AtMost ==> (met <==> !(v.AtLeast(r.value) && !v.Same(r.value))))
  {
    hide KeyKind, KeyName, RecordValid, VersionRange.Formed, CapabilitiesValid, Compare, SubsetTokens, SharesAny, VersionRange.Matches;
    hide RequirementValid;
    KindsAgree(r, caps);
    NumbersOnly(r);
  }

  // ---- Preferences pay --------------------------------------------------------------------

  /** The requirement is met whenever it was, and violated only if it was. */
  predicate FaresBetter(r: Requirement, before: Evidence, after: Evidence) {
    (IsSatisfied(r, before) ==> IsSatisfied(r, after)) && (IsViolated(r, after) ==> IsViolated(r, before))
  }

  lemma PreferencePays(r: Requirement, before: Evidence, after: Evidence)
    requires RequirementValid(r) && FaresBetter(r, before, after)
    ensures RequirementScore(r, before) <= RequirementScore(r, after)
  {
    hide IsSatisfied, IsViolated;
    assert 0 <= Round(r.weight * 1000.0) && 0 <= Round(r.weight * 500.0);
  }

  /** Evidence under which every preference fares at least as well never lowers the score. */
  lemma {:induction false} PreferencesPay(rs: seq<Requirement>, before: Evidence, after: Evidence)
    requires forall i :: 0 <= i < |rs| ==> RequirementValid(rs[i]) && FaresBetter(rs[i], before, after)
    ensures TotalScore(rs, before) <= TotalScore(rs, after)
    decreases |rs|
  {
    hide RequirementScore, FaresBetter, RequirementValid;
    if rs != [] {
      PreferencesPay(rs[..|rs| - 1], before, after);
      PreferencePays(rs[|rs| - 1], before, after);
    }
  }

  // ---- Scores fit 64 bits ------------------------------------------------------------------

  const STEP_BOUND: int := 1_000_000_000_000

  lemma RequirementScoreBound(r: Requirement, e: Evidence)
    requires RequirementValid(r)
    ensures -STEP_BOUND <= RequirementScore(r, e) <= STEP_BOUND
  {
    hide IsSatisfied, IsViolated;
    assert 0.0 <= r.weight * 1000.0 <= 1000000000000.0;
    assert 0.0 <= r.weight * 500.0 <= 500000000000.0;
  }

  lemma {:induction false} TotalScoreBound(rs: seq<Requirement>, e: Evidence)
    requires forall i :: 0 <= i < |rs| ==> RequirementValid(rs[i])
    ensures -STEP_BOUND * |rs| <= TotalScore(rs, e) <= STEP_BOUND * |rs|
  {
    hide RequirementScore, RequirementValid;
    if rs != [] {
      var last := |rs| - 1;
      TotalScoreBound(rs[..last], e);
      RequirementScoreBound(rs[last], e);
    }
  }

  /** No valid workload can overflow the signed 64-bit score, at any point of the accumulation;
      a whole score even stays within 62 bits. */
  lemma ScoreFits64Bits(w: Workload, p: PolicyBody, t: Target, caps: CapabilitySet, source: Option<Source>, n: nat)
    requires WorkloadValid(w) && n <= |Canonical(w.requirements)|
    ensures -0x4000_0000_0000_0000 <= ScoreOf(w, p, t, caps, source) <= 0x4000_0000_0000_0000
    ensures -0x8000_0000_0000_0000 <=
            TotalScore(Canonical(w.requirements)[..n], Evidence(caps, t.evidenceFresh, p.allowDegraded)) < 0x8000_0000_0000_0000
  {
    hide RequirementValid, TotalScore, Sort, ClassOf, PortabilityRequest, LookUp;
    var rs, e := Canonical(w.requirements), Evidence(caps, t.evidenceFresh, p.allowDegraded);
    SortPermutes(RequirementLess, w.requirements);
    forall i | 0 <= i < |rs|
      ensures RequirementValid(rs[i])
    {
      assert rs[i] in multiset(w.requirements);
    }
    TotalScoreBound(rs, e);
    TotalScoreBound(rs[..n], e);
    assert rs[..|rs|] == rs;
    assert 0 <= TransformationSteps(ClassFor(w, p, caps, source)) <= 255;
    assert 0 <= MemoryBonus(t, caps) <= 1000;
  }
}
