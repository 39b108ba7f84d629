/** What a restart does to verdicts. The store loses build metadata, the order of policy lists and
    the emptiness of an empty version range; only the last of these can show in a verdict. */
module RestartVerdict {
  import opened Prelude
  import opened Ordering
  import opened Capability
  import opened Portability
  import opened Compatibility
  import opened CompatibilityTheorems
  import opened StoredForm
  import opened Federation
  import Version
  import VersionRange

  // ---- Build metadata is never read -------------------------------------------------------

  function CarriedLookup(l: Lookup): Lookup { l.(value := match l.value case Some(v) => Some(Carried(v)) case None => None) }

  lemma LookUpContent(caps: CapabilitySet, key: string)
    ensures LookUp(Content(caps), key) == CarriedLookup(LookUp(caps, key))
  {
    hide Namespace, Carried;
  }

  lemma CompareIgnoresBuild(a: Version.SemanticVersion, b: Version.SemanticVersion)
    ensures Version.Compare(a.(build := ""), b.(build := "")) == Version.Compare(a, b)
  {
    hide Version.ComparePrerelease;
  }

  lemma HoldsIgnoresAllBuild(c: VersionRange.Clause, v: Version.SemanticVersion)
    ensures VersionRange.Holds(VersionRange.Reread(c), v.(build := "")) == VersionRange.Holds(c, v)
  {
    hide Version.ComparePrerelease;
  }

  lemma RangeIgnoresBuild(cs: seq<VersionRange.Clause>, v: Version.SemanticVersion)
    ensures VersionRange.Matches(VersionRange.RereadAll(cs), v.(build := "")) == VersionRange.Matches(cs, v)
  {
    hide VersionRange.Holds, VersionRange.Reread;
    var ds := VersionRange.RereadAll(cs);
    forall i | 0 <= i < |cs|
      ensures VersionRange.Holds(ds[i], v.(build := "")) == VersionRange.Holds(cs[i], v)
    {
      HoldsIgnoresAllBuild(cs[i], v);
    }
    if VersionRange.Matches(ds, v.(build := "")) {
      forall i | 0 <= i < |cs| ensures VersionRange.Holds(cs[i], v) { assert VersionRange.Holds(ds[i], v.(build := "")); }
    }
  }

  lemma ValuesCompareAlike(v: CapabilityValue, u: CapabilityValue)
    ensures Carried(v).Same(Carried(u)) == v.Same(u)
    ensures Carried(v).AtLeast(Carried(u)) == v.AtLeast(u) && Carried(v).AtMost(Carried(u)) == v.AtMost(u)
    ensures Carried(v).TokenVector() == v.TokenVector() && Carried(v).AsToken() == v.AsToken()
    ensures Carried(v).AsTokens() == v.AsTokens() && Carried(v).AsInteger() == v.AsInteger()
    ensures Carried(v).VersionValue? == v.VersionValue? && (v.VersionValue? ==> Carried(v).version == v.version.(build := ""))
  {
    hide Version.Compare;
    if v.VersionValue? && u.VersionValue? { CompareIgnoresBuild(v.version, u.version); }
  }

  lemma BoundsSurvive(r: Requirement, l: Lookup, allowDegraded: bool)
    requires l.value.Some? && r.op in {Equals, NotEquals, AtLeast, AtMost, GreaterThan, LessThan}
    ensures Match(StoredRequirement(r), CarriedLookup(l), allowDegraded) == Match(r, l, allowDegraded)
  {
    hide CapabilityValue.Same, CapabilityValue.AtLeast, CapabilityValue.AtMost, Carried, VersionRange.RereadAll;
    ValuesCompareAlike(l.value.value, r.value);
  }

  lemma SetsSurvive(r: Requirement, l: Lookup, allowDegraded: bool)
    requires l.value.Some? && r.op in {InSet, SupersetOf, SubsetOf, IntersectsWith}
    ensures Match(StoredRequirement(r), CarriedLookup(l), allowDegraded) == Match(r, l, allowDegraded)
  {
    hide CapabilityValue.TokenVector, SubsetTokens, SharesAny, Carried, VersionRange.RereadAll;
    ValuesCompareAlike(l.value.value, r.value);
    ValuesCompareAlike(r.value, r.value);
  }

  lemma RangesSurvive(r: Requirement, l: Lookup, allowDegraded: bool)
    requires l.value.Some? && r.op == VersionSatisfies
    ensures Match(StoredRequirement(r), CarriedLookup(l), allowDegraded) == Match(r, l, allowDegraded)
  {
    hide VersionRange.Matches, VersionRange.RereadAll;
    var v := l.value.value;
    if v.VersionValue? { RangeIgnoresBuild(r.range, v.version); }
  }

  lemma MatchSurvives(r: Requirement, l: Lookup, allowDegraded: bool)
    ensures Match(StoredRequirement(r), CarriedLookup(l), allowDegraded) == Match(r, l, allowDegraded)
  {
    if l.value.None? || r.op in {Present, Absent} {
      hide VersionRange.Matches, VersionRange.RereadAll, SubsetTokens, SharesAny, Carried;
    } else {
      hide *;
      if r.op == VersionSatisfies {
        RangesSurvive(r, l, allowDegraded);
      } else if r.op in {InSet, SupersetOf, SubsetOf, IntersectsWith} {
        SetsSurvive(r, l, allowDegraded);
      } else {
        BoundsSurvive(r, l, allowDegraded);
      }
    }
  }

  lemma RequirementSurvives(r: Requirement, e: Evidence)
    ensures IsViolated(StoredRequirement(r), e.(caps := Content(e.caps))) == IsViolated(r, e)
    ensures IsSatisfied(StoredRequirement(r), e.(caps := Content(e.caps))) == IsSatisfied(r, e)
  {
    LookUpContent(e.caps, r.capability);
    MatchSurvives(r, LookUp(e.caps, r.capability), e.allowDegraded);
    hide Match, LookUp, Content, CarriedLookup, IsDynamic;
  }

  lemma RequirementsSurvive(rs: seq<Requirement>, e: Evidence)
    ensures SomeHardViolated(Mapped(StoredRequirement, rs), e.(caps := Content(e.caps))) == SomeHardViolated(rs, e)
    ensures SomeHardOpen(Mapped(StoredRequirement, rs), e.(caps := Content(e.caps))) == SomeHardOpen(rs, e)
  {
    hide IsViolated, IsSatisfied, Content;
    var ss, n := Mapped(StoredRequirement, rs), e.(caps := Content(e.caps));
    forall i | 0 <= i < |rs|
      ensures ss[i].strength == rs[i].strength && IsViolated(ss[i], n) == IsViolated(rs[i], e) && IsSatisfied(ss[i], n) == IsSatisfied(rs[i], e)
    {
      RequirementSurvives(rs[i], e);
    }
    if SomeHardViolated(rs, e) {
      var i :| 0 <= i < |rs| && rs[i].strength == Hard && IsViolated(rs[i], e);
      assert ss[i].strength == Hard && IsViolated(ss[i], n);
    }
    if SomeHardOpen(rs, e) {
      var i :| 0 <= i < |rs| && rs[i].strength == Hard && !IsViolated(rs[i], e) && !IsSatisfied(rs[i], e);
      assert ss[i].strength == Hard && !IsViolated(ss[i], n) && !IsSatisfied(ss[i], n);
    }
  }

  // ---- Portability ------------------------------------------------------------------------

  lemma SupportSurvives(caps: CapabilitySet, key: string)
    ensures Supports(Content(caps), key) == Supports(caps, key) && Known(Content(caps), key) == Known(caps, key)
    ensures TokensAt(Content(caps), key) == TokensAt(caps, key) && SupportedToken(Content(caps), key) == SupportedToken(caps, key)
  {
    LookUpContent(caps, key);
    hide LookUp, Content;
  }

  lemma ArchitectureSurvives(a: CapabilitySet, b: CapabilitySet)
    ensures SameArchitecture(Content(a), Content(b)) == SameArchitecture(a, b)
  {
    LookUpContent(a, ARCHITECTURE);
    LookUpContent(b, ARCHITECTURE);
    hide LookUp, Content;
  }

  function StoredSource(source: Option<Source>): Option<Source> {
    match source case Some(s) => Some(s.(capabilities := Content(s.capabilities))) case None => None
  }

  lemma GateSurvives(a: CapabilitySet, b: CapabilitySet)
    ensures GatePasses(Content(a), Content(b)) == GatePasses(a, b)
  {
    hide Known, Content;
    forall i | 0 <= i < |GATE|
      ensures Known(Content(a), GATE[i]) == Known(a, GATE[i]) && Known(Content(b), GATE[i]) == Known(b, GATE[i])
    {
      SupportSurvives(a, GATE[i]);
      SupportSurvives(b, GATE[i]);
    }
  }

  lemma ClassSurvives(r: Request, n: Request, a: CapabilitySet, b: CapabilitySet)
    requires r.source == Some(a) && r.destination == Some(b) && n == r.(source := Some(Content(a)), destination := Some(Content(b)))
    ensures ClassOf(n) == ClassOf(r)
  {
    hide Supports, Known, TokensAt, SameArchitecture, Content, SupportedToken, GatePasses;
    GateSurvives(a, b);
    ArchitectureSurvives(a, b);
    forall key
      ensures Supports(Content(a), key) == Supports(a, key) && Supports(Content(b), key) == Supports(b, key)
      ensures TokensAt(Content(a), key) == TokensAt(a, key) && TokensAt(Content(b), key) == TokensAt(b, key)
    {
      SupportSurvives(a, key);
      SupportSurvives(b, key);
    }
    assert SharesToken(Content(a), Content(b), CODE_OBJECT_TARGETS) == SharesToken(a, b, CODE_OBJECT_TARGETS);
    hide SharesToken;
  }

  lemma RequestClassSurvives(w: Workload, p: PolicyBody, caps: CapabilitySet, s: Source)
    ensures ClassOf(PortabilityRequest(StoredBody(p), StoredWorkload(w), StoredSource(Some(s)).value, Content(caps)))
            == ClassOf(PortabilityRequest(p, w, s, caps))
  {
    SupportSurvives(caps, VENDOR);
    hide ClassOf, Content, Sort, Mapped, SupportedToken, Supports, Known, TokensAt;
    ClassSurvives(PortabilityRequest(p, w, s, caps), PortabilityRequest(StoredBody(p), StoredWorkload(w), StoredSource(Some(s)).value, Content(caps)),
                  s.capabilities, caps);
  }

  // ---- Policy -----------------------------------------------------------------------------

  lemma SortedMembers(ts: seq<string>)
    ensures forall t :: t in Sort(StringLess, ts) <==> t in ts
    ensures Sort(StringLess, ts) == [] <==> ts == []
  {
    hide Sort, StringLess;
    SortPermutes(StringLess, ts);
    var ss := Sort(StringLess, ts);
    assert |ss| == |multiset(ss)| == |multiset(ts)| == |ts|;
    forall t ensures t in ss <==> t in ts { assert t in multiset(ss) <==> t in ss; assert t in multiset(ts) <==> t in ts; }
  }

  predicate RuntimeUnknown(caps: CapabilitySet) { LookUp(caps, RUNTIME_VERSION).state == Unknown }

  lemma RuntimeSurvives(p: PolicyBody, caps: CapabilitySet)
    ensures RuntimeTooOld(StoredBody(p), Content(caps)) == RuntimeTooOld(p, caps)
    ensures RuntimeOpen(StoredBody(p), Content(caps)) == RuntimeUnknown(caps)
    ensures RuntimeOpen(p, caps) == (p.minimumRuntime != [] && RuntimeUnknown(caps))
  {
    LookUpContent(caps, RUNTIME_VERSION);
    var l := LookUp(caps, RUNTIME_VERSION);
    if l.value.Some? {
      RangeIgnoresBuild(p.minimumRuntime, l.value.value.AsVersion());
      assert Carried(l.value.value).AsVersion() == l.value.value.AsVersion().(build := "");
    }
    AnyAdmitsAll();
    hide LookUp, Content, Sort, VersionRange.Matches;
  }

  lemma AnyAdmitsAll()
    ensures forall v :: VersionRange.Matches([VersionRange.Clause(VersionRange.Any, Version.ZERO_VERSION)], v)
  {
  }

  lemma MemorySurvives(p: PolicyBody, caps: CapabilitySet)
    ensures MemoryTooSmall(StoredBody(p), Content(caps)) == MemoryTooSmall(p, caps)
    ensures MemoryOpen(StoredBody(p), Content(caps)) == MemoryOpen(p, caps)
  {
    LookUpContent(caps, MEMORY_TOTAL);
    hide LookUp, Content, Sort;
  }

  lemma DeviceSurvives(p: PolicyBody, t: Target, caps: CapabilitySet)
    ensures DeviceBreached(StoredBody(p), t, Content(caps)) == DeviceBreached(p, t, caps)
  {
    RuntimeSurvives(p, caps);
    MemorySurvives(p, caps);
    SupportSurvives(caps, VENDOR);
    SupportSurvives(caps, ARCHITECTURE);
    SortedMembers(p.allowedVendors);
    SortedMembers(p.forbiddenVendors);
    SortedMembers(p.deprecatedArchitectures);
    hide RuntimeTooOld, RuntimeOpen, RuntimeUnknown, MemoryTooSmall, MemoryOpen, SupportedToken, Supports, Known, TokensAt, Content, Sort;
  }

  lemma StateSurvives(caps: CapabilitySet, key: string)
    ensures LookUp(Content(caps), key).state == LookUp(caps, key).state
  {
    LookUpContent(caps, key);
    hide LookUp, Content;
  }

  lemma KeysMove(keys: seq<string>, others: seq<string>, a: CapabilitySet, b: CapabilitySet)
    requires multiset(keys) == multiset(others) && forall key :: LookUp(a, key).state == LookUp(b, key).state
    ensures (exists i :: 0 <= i < |keys| && RequiredMissing(a, keys[i])) ==> (exists i :: 0 <= i < |others| && RequiredMissing(b, others[i]))
    ensures (exists i :: 0 <= i < |keys| && RequiredOpen(a, keys[i])) ==> (exists i :: 0 <= i < |others| && RequiredOpen(b, others[i]))
    ensures (exists i :: 0 <= i < |keys| && DeniedPresent(a, keys[i])) ==> (exists i :: 0 <= i < |others| && DeniedPresent(b, others[i]))
  {
    hide LookUp;
    if i :| 0 <= i < |keys| && RequiredMissing(a, keys[i]) {
      var j := FindIn(keys, others, i);
      assert RequiredMissing(b, others[j]);
    }
    if i :| 0 <= i < |keys| && RequiredOpen(a, keys[i]) {
      var j := FindIn(keys, others, i);
      assert RequiredOpen(b, others[j]);
    }
    if i :| 0 <= i < |keys| && DeniedPresent(a, keys[i]) {
      var j := FindIn(keys, others, i);
      assert DeniedPresent(b, others[j]);
    }
  }

  lemma ListsPermute(p: PolicyBody)
    ensures multiset(StoredBody(p).requiredCapabilities) == multiset(p.requiredCapabilities)
    ensures multiset(StoredBody(p).deniedCapabilities) == multiset(p.deniedCapabilities)
    ensures forall t :: t in StoredBody(p).tags <==> t in p.tags
  {
    SortPermutes(StringLess, p.requiredCapabilities);
    SortPermutes(StringLess, p.deniedCapabilities);
    SortedMembers(p.tags);
  }

  lemma PolicySurvives(p: PolicyBody, w: Workload, t: Target, caps: CapabilitySet)
    ensures PolicyBreached(StoredBody(p), StoredWorkload(w), t, Content(caps)) == PolicyBreached(p, w, t, caps)
    ensures PolicyOpen(StoredBody(p), Content(caps)) <==> PolicyOpen(p, caps) || (p.minimumRuntime == [] && RuntimeUnknown(caps))
  {
    DeviceSurvives(p, t, caps);
    RuntimeSurvives(p, caps);
    MemorySurvives(p, caps);
    ListsPermute(p);
    var q, content := StoredBody(p), Content(caps);
    forall key ensures LookUp(content, key).state == LookUp(caps, key).state { StateSurvives(caps, key); }
    hide StoredBody, LookUp, DeviceBreached, RuntimeTooOld, RuntimeOpen, RuntimeUnknown, MemoryTooSmall, MemoryOpen;
    hide RequiredMissing, RequiredOpen, DeniedPresent, Content, Sort, Mapped;
    KeysMove(p.requiredCapabilities, q.requiredCapabilities, caps, content);
    KeysMove(q.requiredCapabilities, p.requiredCapabilities, content, caps);
    KeysMove(p.deniedCapabilities, q.deniedCapabilities, caps, content);
    KeysMove(q.deniedCapabilities, p.deniedCapabilities, content, caps);
  }

  // ---- The verdict ------------------------------------------------------------------------

  /** The same question asked before the store and after it gives the same answer, except that a
      policy without a bound on the runtime has one afterwards, which nothing violates but which
      an accelerator of unknown runtime leaves open. */
  lemma StoredVerdict(w: Workload, p: PolicyBody, t: Target, caps: CapabilitySet, source: Option<Source>)
    ensures
      var before := OutcomeOf(w, p, t, caps, source);
      OutcomeOf(StoredWorkload(w), StoredBody(p), t, Content(caps), StoredSource(source))
      == if before == Eligible && p.minimumRuntime == [] && RuntimeUnknown(caps) then Undecided else before
    ensures ClassFor(StoredWorkload(w), StoredBody(p), Content(caps), StoredSource(source)) == ClassFor(w, p, caps, source)
  {
    hide SomeHardViolated, SomeHardOpen, PolicyBreached, PolicyOpen, ClassOf, PortabilityRequest, Content, Sort, Mapped, RuntimeUnknown;
    hide MeetsThreshold, StoredRequirement;
    RequirementsSurvive(w.requirements, Evidence(caps, t.evidenceFresh, p.allowDegraded));
    PolicySurvives(p, w, t, caps);
    if source.Some? { RequestClassSurvives(w, p, caps, source.value); }
  }

  /** One such case: nothing is asked for, and nothing is known about the runtime. */
  lemma RestartWithholdsApproval(t: Target)
    requires t.acceptsNewWork
    ensures OutcomeOf(BARE_WORKLOAD, PERMISSIVE_POLICY, t, ACME, None) == Eligible
    ensures OutcomeOf(StoredWorkload(BARE_WORKLOAD), StoredBody(PERMISSIVE_POLICY), t, Content(ACME), None) == Undecided
    ensures WorkloadValid(BARE_WORKLOAD) && PolicyBodyValid(PERMISSIVE_POLICY) && CapabilitiesValid(ACME)
  {
    AcmeIsReal();
    PermissiveApproves(t);
    hide StoredWorkload, StoredBody, Content, CapabilitiesValid, OutcomeOf, WorkloadValid, RuntimeUnknown;
    StoredVerdict(BARE_WORKLOAD, PERMISSIVE_POLICY, t, ACME, None);
  }

  lemma PermissiveApproves(t: Target)
    requires t.acceptsNewWork
    ensures OutcomeOf(BARE_WORKLOAD, PERMISSIVE_POLICY, t, ACME, None) == Eligible && RuntimeUnknown(ACME)
  {
    assert RUNTIME_VERSION[0] != VENDOR[0];
    assert RuntimeUnknown(ACME) by { hide Namespace; }
    hide Match, LookUp, SupportedToken, RuntimeUnknown;
  }

  function SourceIn(members: map<AcceleratorId, Member>, source: Option<AcceleratorId>): Option<Source> {
    if source.Some? && source.value in members then
      var caps := members[source.value].descriptor.capabilities;
      Some(Source(caps, VendorRendering(caps)))
    else None
  }

  lemma VendorSurvives(caps: CapabilitySet)
    ensures VendorRendering(Content(caps)) == VendorRendering(caps)
  {
    LookUpContent(caps, VENDOR);
    hide LookUp, Content;
  }

  lemma SourceSurvives(s: Snapshot, source: Option<AcceleratorId>)
    ensures SourceIn(RecoveredMembers(s), source) == StoredSource(SourceIn(s.members, source))
  {
    hide Content, VendorRendering;
    if source.Some? && source.value in s.members {
      VendorSurvives(s.members[source.value].descriptor.capabilities);
    }
  }

  /** For every stored workload, accelerator and source, a restart changes the verdict on one and
      the same standing of the accelerator exactly when the policy has no bound on the runtime, the
      accelerator's runtime is unknown, and the verdict was favourable. */
  lemma RestartedVerdict(s: Snapshot, c: Config, w: WorkloadId, a: AcceleratorId, source: Option<AcceleratorId>, t: Target)
    requires Decodes(s) && s.policy.id == PolicyOf(s.policy.body).id && w in s.workloads && a in s.members
    ensures
      var f := Recovered(s, c);
      var before := OutcomeOf(s.workloads[w].workload, s.policy.body, t, s.members[a].descriptor.capabilities, SourceIn(s.members, source));
      && w in f.workloads && a in f.members
      && OutcomeOf(f.workloads[w].workload, f.policy.body, t, f.members[a].descriptor.capabilities, SourceIn(f.members, source))
         == if before == Eligible && s.policy.body.minimumRuntime == [] && RuntimeUnknown(s.members[a].descriptor.capabilities)
            then Undecided else before
  {
    RestoredPolicy(s);
    SourceSurvives(s, source);
    hide Decodes, OutcomeOf, RuntimeUnknown, PolicyOf, RecoveredPolicy, Content, StoredWorkload, AbortAll, SourceIn, StoredSource;
    StoredVerdict(s.workloads[w].workload, s.policy.body, t, s.members[a].descriptor.capabilities, SourceIn(s.members, source));
  }

  lemma RestoredPolicy(s: Snapshot)
    requires Decodes(s) && s.policy.id == PolicyOf(s.policy.body).id
    ensures RecoveredPolicy(s.policy).body == StoredBody(s.policy.body)
  {
    hide MembersDecode, WorkloadsDecode, DecisionsDecode, PlansDecode, PolicyFits, DecodedPolicy, VersionRange.Formed, StoredBody, PrintOf;
    PolicyDecodes(s.policy.body);
    SameIdentity(s.policy);
  }

  /** The decoder looks at the body and the identity alone. */
  lemma SameIdentity(p: Policy)
    requires p.id == PolicyOf(p.body).id
    ensures DecodedPolicy(p) == DecodedPolicy(PolicyOf(p.body))
  {
    hide DecodedLists, PolicyBodyValid, PrintOf, VersionRange.ParseRange, VersionRange.RangeText;
  }
}
