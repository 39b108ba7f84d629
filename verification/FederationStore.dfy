/** When the store can be opened again. The operations accept more than the decoder of the store
    does; here is exactly how much more. */
module FederationStore {
  import opened Prelude
  import opened Ordering
  import opened Vocabulary
  import opened Capability
  import opened Portability
  import opened Compatibility
  import opened Migration
  import opened StoredForm
  import opened Federation
  import opened FederationInvariants
  import opened FederationSteps
  import opened FederationRuns
  import VersionRange

  /** A snapshot of this instance could be read back. */
  ghost predicate Readable(f: Fed) {
    && |f.name| <= MAX_NAME_BYTES && PolicyReadable(f.policy)
    && MembersDecode(f.members) && WorkloadsDecode(f.workloads) && DecisionsDecode(f.decisions.Keys) && PlansDecode(f.plans)
  }

  lemma ReadableMeansDecodes(f: Fed)
    ensures Readable(f) <==> Decodes(SnapshotOf(f))
  {
    hide PolicyReadable, MembersDecode, WorkloadsDecode, DecisionsDecode, PlansDecode;
  }

  // ---- What a caller would have to check --------------------------------------------------

  /** There is room for an entry under this key. */
  predicate Room<K, V>(m: map<K, V>, k: K) { k in m || |m| < MAX_STORED }

  ghost predicate SparesMembers(f: Fed, op: Op) {
    match op
    case Observe(d, _) => DescriptorFits(d) && Room(f.members, d.id)
    case UpdateCapabilities(a, caps, _, _) =>
      a in f.members ==>
        caps.records != map[] && VendorAgrees(f.members[a].descriptor.(capabilities := caps)) && AdvertisementFits(caps)
    case Advance(k, to, _) =>
      k in f.plans && k.source in f.members && to == Committed && f.plans[k].state != to
      && f.members[k.source].record.state in {Active, MemberState.Degraded} ==>
        f.members[k.source].record.historyLength < MAX_HISTORY
    case _ => true
  }

  ghost predicate SparesPolicy(op: Op) { match op case SetPolicy(body, _) => PolicyFits(body) case _ => true }

  ghost predicate SparesWorkloads(f: Fed, op: Op) {
    match op
    case RegisterWorkload(w, nameId, _) => WorkloadFits(w) && Room(f.workloads, StoredProfile(w, nameId).workload.classId)
    case _ => true
  }

  /** The explanations of judging `a` for `w` are not too long. */
  ghost predicate ExplainsBriefly(f: Fed, w: WorkloadId, a: AcceleratorId, now: int) {
    w in f.workloads && a in f.members ==>
      LongestExplanation(f.workloads[w].workload, f.policy.body, ContextFor(f, f.workloads[w], a, None, FreshAt(f, a, now)).target,
                         f.members[a].descriptor.capabilities) <= MAX_DESCRIPTION
  }

  /** If the decision is kept, its explanations are not too long. */
  ghost predicate KeepsBriefly(f: Fed, r: Result<Decision>, w: WorkloadId, a: AcceleratorId, now: int, kept: set<Decision>) {
    match r case Ok(d) => d in kept ==> ExplainsBriefly(f, w, a, now) case Err(_) => true
  }

  ghost predicate SparesDecisions(f: Fed, op: Op) {
    match op
    case EvaluateOp(w, a, source, now, _, kept) =>
      |kept| <= MAX_STORED && KeepsBriefly(f, EvaluateNow(f, w, a, source, now), w, a, now, kept)
    case Plan(w, s, x, now, _, _, kept) =>
      s != x ==>
        && |kept| <= MAX_STORED
        && KeepsBriefly(f, Judged(f, w, s, x, now), w, s, now, kept) && KeepsBriefly(f, Judged(f, w, x, s, now), w, x, now, kept)
    case _ => true
  }

  ghost predicate SparesPlans(f: Fed, op: Op) {
    match op
    case Plan(w, s, x, now, _, _, _) => (match PlanResult(f, w, s, x, now) case Ok(p) => Room(f.plans, p.body) case Err(_) => true)
    case Abort(_, text, _) => text <= MAX_DESCRIPTION
    case _ => true
  }

  /** What a caller would have to check to keep the store readable; the code does not. */
  ghost predicate SparesStore(f: Fed, op: Op) {
    SparesMembers(f, op) && SparesPolicy(op) && SparesWorkloads(f, op) && SparesDecisions(f, op) && SparesPlans(f, op)
  }

  lemma RoomMeansSize<K, V>(m: map<K, V>, k: K, v: V)
    requires |m| <= MAX_STORED
    ensures |m[k := v]| <= MAX_STORED <==> Room(m, k)
  {
    assert m[k := v].Keys == m.Keys + {k};
    assert |m[k := v]| == |m[k := v].Keys| && |m| == |m.Keys|;
  }

  // ---- Members ----------------------------------------------------------------------------

  lemma PutMember(members: map<AcceleratorId, Member>, a: AcceleratorId, m: Member)
    requires MembersDecode(members)
    ensures MembersDecode(members[a := m]) <==> MemberDecodes(m) && Room(members, a)
  {
    hide MemberDecodes;
    RoomMeansSize(members, a, m);
    if MembersDecode(members[a := m]) { assert a in members[a := m]; }
  }

  lemma SameDescriptor(d: Descriptor, g: Generation)
    ensures DescriptorValid(d.(capabilityGeneration := g)) == DescriptorValid(d) && DescriptorFits(d.(capabilityGeneration := g)) == DescriptorFits(d)
  {
    hide CapabilitiesValid, EvidenceValid, TopologyOrdered, TopologyFits, AdvertisementFits;
  }

  lemma RefreshedDecodes(f: Fed, m: Member, d: Descriptor)
    requires MemberDecodes(m) && DescriptorValid(d)
    ensures MemberDecodes(Refreshed(f, m, d)) <==> DescriptorFits(d)
  {
    hide DescriptorValid, DescriptorFits, Content;
    SameDescriptor(d, Next(m.record.capabilityGeneration));
  }

  lemma SupersededDecodes(members: map<AcceleratorId, Member>, d: Descriptor)
    requires MembersDecode(members)
    ensures MembersDecode(Superseded(members, d)) && Superseded(members, d).Keys == members.Keys
  {
    hide DescriptorValid, DescriptorFits, Supersedes;
    var after := Superseded(members, d);
    assert after.Keys == members.Keys;
    assert |after| == |after.Keys| == |members.Keys| == |members|;
    forall a | a in after
      ensures MemberDecodes(after[a])
    {
      assert MemberDecodes(members[a]);
    }
  }

  lemma NewMemberDecodes(f: Fed, d: Descriptor)
    requires DescriptorValid(d)
    ensures MemberDecodes(NewMember(f, d)) <==> DescriptorFits(d)
  {
    hide CapabilitiesValid, EvidenceValid, VendorAgrees, TopologyOrdered, DescriptorFits;
  }

  lemma AcceptedIsValid(f: Fed, d: Descriptor, c: Claim)
    requires ObserveRefusal(f, d, c).None?
    ensures DescriptorValid(d)
  {
    hide DescriptorValid, DuplicateLive, Authority;
  }

  lemma KnownReadable(f: Fed, d: Descriptor)
    requires MembersDecode(f.members) && DescriptorValid(d) && d.id in f.members
    ensures MembersDecode(ObserveEffect(f, d).members) <==> DescriptorFits(d) && Room(f.members, d.id)
  {
    hide DescriptorValid, MemberDecodes, Superseded, Refreshed, NewMember, MembersDecode, Room, DescriptorFits;
    HeldDecodes(f.members, d.id);
    RefreshedDecodes(f, f.members[d.id], d);
    PutMember(f.members, d.id, Refreshed(f, f.members[d.id], d));
  }

  lemma NewReadable(f: Fed, d: Descriptor)
    requires MembersDecode(f.members) && DescriptorValid(d) && d.id !in f.members
    ensures MembersDecode(ObserveEffect(f, d).members) <==> DescriptorFits(d) && Room(f.members, d.id)
  {
    hide DescriptorValid, MemberDecodes, Superseded, Refreshed, NewMember, MembersDecode, Room, DescriptorFits;
    SupersededDecodes(f.members, d);
    NewMemberDecodes(f, d);
    var others := Superseded(f.members, d);
    PutMember(others, d.id, NewMember(f, d));
    SameRoom(f.members, others, d.id);
  }

  lemma ObserveReadable(f: Fed, d: Descriptor, c: Claim)
    requires MembersDecode(f.members) && ObserveRefusal(f, d, c).None?
    ensures MembersDecode(ObserveEffect(f, d).members) <==> DescriptorFits(d) && Room(f.members, d.id)
  {
    AcceptedIsValid(f, d, c);
    hide *;
    if d.id in f.members { KnownReadable(f, d); } else { NewReadable(f, d); }
  }

  lemma HeldDecodes(members: map<AcceleratorId, Member>, a: AcceleratorId)
    requires MembersDecode(members) && a in members
    ensures MemberDecodes(members[a])
  {
    hide MemberDecodes;
  }

  lemma SameRoom<K, V>(m: map<K, V>, n: map<K, V>, k: K)
    requires m.Keys == n.Keys
    ensures Room(m, k) == Room(n, k)
  {
    assert |m| == |m.Keys| == |n.Keys| == |n|;
    assert k in m <==> k in m.Keys;
    assert k in n <==> k in n.Keys;
  }

  lemma TransitionReadable(f: Fed, a: AcceleratorId, target: MemberState)
    requires MembersDecode(f.members)
    ensures MembersDecode(TransitionEffect(f, a, target).members)
  {
    hide DescriptorValid, DescriptorFits, MembersDecode;
    if a in f.members {
      HeldDecodes(f.members, a);
      PutMember(f.members, a, TransitionEffect(f, a, target).members[a]);
    }
  }

  lemma UpdatedDecodes(f: Fed, m: Member, caps: CapabilitySet, e: EvidenceRecord)
    requires MemberDecodes(m) && CapabilitiesValid(caps) && EvidenceValid(e)
    requires e.subject == m.descriptor.id && e.provenance == m.descriptor.provenance
    ensures MemberDecodes(Updated(f, m, caps, e))
            <==> caps.records != map[] && VendorAgrees(m.descriptor.(capabilities := caps)) && AdvertisementFits(caps)
  {
    hide CapabilitiesValid, EvidenceValid, TopologyOrdered, TopologyFits, AdvertisementFits;
  }

  lemma UpdateReadable(f: Fed, a: AcceleratorId, caps: CapabilitySet, e: EvidenceRecord, c: Claim)
    requires MembersOk(f.members) && MembersDecode(f.members) && UpdateRefusal(f, a, caps, e, c).None?
    ensures MembersDecode(UpdateEffect(f, a, caps, e).members) <==> SparesMembers(f, UpdateCapabilities(a, caps, e, c))
  {
    hide Authority, ScopedAuthority, CapabilitiesValid, EvidenceValid, VendorAgrees, MembersOk, MembersDecode, MemberDecodes;
    hide AdvertisementFits, Content, Updated;
    HeldDecodes(f.members, a);
    KeyedMember(f.members, a);
    UpdatedDecodes(f, f.members[a], caps, e);
    PutMember(f.members, a, Updated(f, f.members[a], caps, e));
  }

  lemma SetPolicyReadable(f: Fed, body: PolicyBody)
    requires MembersDecode(f.members)
    ensures MembersDecode(SetPolicyEffect(f, body).members)
  {
    hide DescriptorValid, DescriptorFits, AbortAll, PrintOf;
    var after := SetPolicyEffect(f, body).members;
    assert after.Keys == f.members.Keys;
    assert |after| == |after.Keys| == |f.members.Keys| == |f.members|;
    forall a | a in after
      ensures MemberDecodes(after[a])
    {
      assert MemberDecodes(f.members[a]);
    }
  }

  lemma DrainedDecodes(m: Member)
    requires MemberDecodes(m)
    ensures MemberDecodes(Drained(m)) <==> (m.record.state in {Active, MemberState.Degraded} ==> m.record.historyLength < MAX_HISTORY)
  {
    hide DescriptorValid, DescriptorFits;
  }

  lemma AdvanceReadable(f: Fed, k: PlanBody, to: MigrationState, c: Claim)
    requires Inv(f) && MembersDecode(f.members) && AdvanceRefusal(f, k, to, c).None?
    ensures MembersDecode(AdvanceEffect(f, k, to).members) <==> SparesMembers(f, Advance(k, to, c))
  {
    hide Authority, LegalMigration, MemberDecodes, MembersOk, WorkloadsOk, DecisionOk, MembersDecode, Drained;
    assert PlanOk(k, f.plans[k], f.epoch, f.generation, f.policy.generation);
    HeldDecodes(f.members, k.source);
    DrainedDecodes(f.members[k.source]);
    PutMember(f.members, k.source, Drained(f.members[k.source]));
  }

  lemma MembersIff(f: Fed, op: Op)
    requires Inv(f) && MembersDecode(f.members) && Refusal(f, op).None?
    ensures MembersDecode(Effect(f, op).members) <==> SparesMembers(f, op)
  {
    hide ObserveRefusal, TransitionRefusal, UpdateRefusal, SetPolicyRefusal, RegisterRefusal, EvaluateNow, PlanRefusal;
    hide AdvanceRefusal, AbortRefusal, MembersDecode, PlansOk, WorkloadsOk, DecisionOk, MembersOk;
    hide ObserveEffect, TransitionEffect, UpdateEffect, SetPolicyEffect, RegisterEffect, EvaluateEffect, SweepEffect;
    hide PlanEffect, AdvanceEffect, AbortEffect, VendorAgrees, DescriptorFits, Room, AdvertisementFits;
    match op
    case Observe(d, c) => ObserveReadable(f, d, c);
    case Transition(a, target, _) => TransitionReadable(f, a, target);
    case UpdateCapabilities(a, caps, e, c) => UpdateReadable(f, a, caps, e, c);
    case SetPolicy(body, _) => SetPolicyReadable(f, body);
    case Advance(k, to, c) => AdvanceReadable(f, k, to, c);
    case _ => EffectLeaves(f, op);
  }

  // ---- Policy -----------------------------------------------------------------------------

  lemma AcceptedPolicyIsFormed(f: Fed, body: PolicyBody, c: Claim)
    requires SetPolicyRefusal(f, body, c).None?
    ensures VersionRange.Formed(body.minimumRuntime)
  {
    hide VersionRange.Formed, KeysResolve, Contradicts, PrintOf, Authority;
  }

  lemma PolicyIff(f: Fed, op: Op)
    requires PolicyReadable(f.policy) && Refusal(f, op).None?
    ensures Effect(f, op).name == f.name && (PolicyReadable(Effect(f, op).policy) <==> SparesPolicy(op))
  {
    hide Refusal, Effect, PolicyReadable, PolicyFits;
    EffectLeaves(f, op);
    match op
    case SetPolicy(body, c) => AdoptedIff(f, body, c);
    case _ =>
  }

  lemma AdoptedIff(f: Fed, body: PolicyBody, c: Claim)
    requires Refusal(f, SetPolicy(body, c)).None?
    ensures PolicyReadable(Effect(f, SetPolicy(body, c)).policy) <==> PolicyFits(body)
  {
    hide SetPolicyRefusal, SetPolicyEffect, PolicyFits, DecodedPolicy, VersionRange.Formed, PolicyOf;
    hide ObserveRefusal, TransitionRefusal, UpdateRefusal, RegisterRefusal, EvaluateNow, PlanRefusal, AdvanceRefusal, AbortRefusal;
    hide ObserveEffect, TransitionEffect, UpdateEffect, RegisterEffect, EvaluateEffect, SweepEffect, PlanEffect, AdvanceEffect, AbortEffect;
    AcceptedPolicyIsFormed(f, body, c);
    SetPolicyLeaves(f, body, c);
    PolicyDecodes(body);
    SameRange(body);
  }

  lemma SameRange(body: PolicyBody)
    ensures PolicyOf(body).body == body
  {
  }

  // ---- Workloads --------------------------------------------------------------------------

  lemma PutProfile(workloads: map<WorkloadId, Profile>, w: WorkloadId, p: Profile)
    requires WorkloadsDecode(workloads)
    ensures WorkloadsDecode(workloads[w := p]) <==> ProfileDecodes(p) && Room(workloads, w)
  {
    hide ProfileDecodes;
    RoomMeansSize(workloads, w, p);
    if WorkloadsDecode(workloads[w := p]) { assert w in workloads[w := p]; }
  }

  lemma RegisterReadable(f: Fed, w: Workload, nameId: nat, c: Claim)
    requires WorkloadsDecode(f.workloads) && RegisterRefusal(f, w, nameId, c).None?
    ensures WorkloadsDecode(RegisterEffect(f, w, nameId).workloads) <==> SparesWorkloads(f, RegisterWorkload(w, nameId, c))
  {
    hide WorkloadsDecode, WorkloadValid, RequirementsFit, Room, Authority, DeriveRevision;
    var p := StoredProfile(w, nameId);
    PutProfile(f.workloads, p.workload.classId, p);
  }

  lemma WorkloadsIff(f: Fed, op: Op)
    requires WorkloadsDecode(f.workloads) && Refusal(f, op).None?
    ensures WorkloadsDecode(Effect(f, op).workloads) <==> SparesWorkloads(f, op)
  {
    hide ObserveRefusal, TransitionRefusal, UpdateRefusal, SetPolicyRefusal, RegisterRefusal, EvaluateNow, PlanRefusal;
    hide AdvanceRefusal, AbortRefusal, WorkloadsDecode, WorkloadFits, StoredProfile, Room;
    hide ObserveEffect, TransitionEffect, UpdateEffect, SetPolicyEffect, RegisterEffect, EvaluateEffect, SweepEffect;
    hide PlanEffect, AdvanceEffect, AbortEffect;
    match op
    case RegisterWorkload(w, nameId, c) => RegisterReadable(f, w, nameId, c);
    case _ => EffectLeaves(f, op);
  }

  // ---- Decisions --------------------------------------------------------------------------

  lemma JudgedText(f: Fed, w: WorkloadId, p: Profile, a: AcceleratorId, source: Option<AcceleratorId>, now: int, mustExist: bool, d: Decision)
    requires Registered(f, w, p) && EvaluateMember(f, p, a, source, now, mustExist) == Ok(d)
    ensures DecisionFits(d) <==> ExplainsBriefly(f, w, a, now)
  {
    hide FreshAt, LongestExplanation, WorkloadValid, PolicyValid, OutcomeOf, ClassFor, ScoreOf, SortReasons, ReasonsFor, SourceFor;
  }

  lemma EvaluatedText(f: Fed, w: WorkloadId, a: AcceleratorId, source: Option<AcceleratorId>, now: int, d: Decision)
    requires EvaluateNow(f, w, a, source, now) == Ok(d)
    ensures DecisionFits(d) <==> ExplainsBriefly(f, w, a, now)
  {
    hide EvaluateMember, ExplainsBriefly, DecisionFits;
    JudgedText(f, w, f.workloads[w], a, source, now, true, d);
  }

  lemma EndpointText(f: Fed, w: WorkloadId, a: AcceleratorId, other: AcceleratorId, now: int, d: Decision)
    requires Judged(f, w, a, other, now) == Ok(d)
    ensures DecisionFits(d) <==> ExplainsBriefly(f, w, a, now)
  {
    hide EvaluateMember, ExplainsBriefly, DecisionFits;
    JudgedText(f, w, f.workloads[w], a, Some(other), now, false, d);
  }

  /** Which of the kept decisions could spoil the store. */
  lemma KeptDecode(all: map<Decision, int>, before: set<Decision>, added: set<Decision>, kept: set<Decision>)
    requires DecisionsDecode(before) && kept <= all.Keys && all.Keys <= before + added
    ensures Keep(all, kept).Keys == kept
    ensures DecisionsDecode(kept) <==> |kept| <= MAX_STORED && forall d :: d in added && d in kept ==> DecisionFits(d)
  {
    hide DecisionFits;
  }

  lemma DecisionsShrink(before: set<Decision>, after: set<Decision>)
    requires DecisionsDecode(before) && after <= before
    ensures DecisionsDecode(after)
  {
    hide DecisionFits;
    SubsetSize(after, before);
  }

  lemma EvaluateReadable(f: Fed, w: WorkloadId, a: AcceleratorId, source: Option<AcceleratorId>, now: int, wall: int, kept: set<Decision>, d: Decision)
    requires DecisionsDecode(f.decisions.Keys) && EvaluateNow(f, w, a, source, now) == Ok(d)
    requires Evicted(f.decisions[d := wall], kept, f.maxDecisions, true)
    ensures DecisionsDecode(EvaluateEffect(f, Ok(d), wall, kept).decisions.Keys)
            <==> |kept| <= MAX_STORED && KeepsBriefly(f, Ok(d), w, a, now, kept)
  {
    hide EvaluateNow, ExplainsBriefly, DecisionFits, DecisionsDecode, Keep;
    EvaluatedText(f, w, a, source, now, d);
    KeptDecode(f.decisions[d := wall], f.decisions.Keys, {d}, kept);
  }

  lemma PlanReadable(f: Fed, w: WorkloadId, s: AcceleratorId, x: AcceleratorId, now: int, wall: int, kept: set<Decision>, d: Decision, e: Decision)
    requires DecisionsDecode(f.decisions.Keys) && Judged(f, w, s, x, now) == Ok(d) && Judged(f, w, x, s, now) == Ok(e)
    requires PlanResult(f, w, s, x, now).Ok? && Evicted(PlanCache(f, w, s, x, now, wall), kept, f.maxDecisions, false)
    ensures DecisionsDecode(PlanEffect(f, w, s, x, now, wall, kept).decisions.Keys)
            <==> |kept| <= MAX_STORED && KeepsBriefly(f, Ok(d), w, s, now, kept) && KeepsBriefly(f, Ok(e), w, x, now, kept)
  {
    hide PlanResult, Judged, ExplainsBriefly, DecisionFits, DecisionsDecode, Keep;
    EndpointText(f, w, s, x, now, d);
    EndpointText(f, w, x, s, now, e);
    var cache := PlanCache(f, w, s, x, now, wall);
    TwoAdded(f.decisions, d, e, wall);
    KeptDecode(cache, f.decisions.Keys, {d, e}, kept);
    KeptBoth(d, e, kept);
  }

  lemma TwoAdded(m: map<Decision, int>, d: Decision, e: Decision, wall: int)
    ensures m[d := wall][e := wall].Keys == m.Keys + {d, e}
  {
  }

  lemma KeptBoth(d: Decision, e: Decision, kept: set<Decision>)
    ensures (forall x :: x in {d, e} && x in kept ==> DecisionFits(x)) <==> (d in kept ==> DecisionFits(d)) && (e in kept ==> DecisionFits(e))
  {
    hide DecisionFits;
  }

  lemma PlannedDecisionsIff(f: Fed, w: WorkloadId, s: AcceleratorId, x: AcceleratorId, now: int, wall: int, c: Claim, kept: set<Decision>)
    requires Inv(f) && PlanRefusal(f, w, s, x, now, c).None? && DecisionsDecode(f.decisions.Keys)
    requires PlanResult(f, w, s, x, now).Ok? ==> Evicted(PlanCache(f, w, s, x, now, wall), kept, f.maxDecisions, false)
    ensures DecisionsDecode(PlanEffect(f, w, s, x, now, wall, kept).decisions.Keys) <==> SparesDecisions(f, Op.Plan(w, s, x, now, wall, c, kept))
  {
    hide PlanResult, Judged, Keep, PlanCache, Inv, DecisionsDecode, KeepsBriefly, Evicted, PlanRefusal;
    SelfPlanFails(f, w, s, x, now, c);
    if s != x {
      BothJudged(f, w, s, x, now, c);
      hide PlanEffect;
      PlanReadable(f, w, s, x, now, wall, kept, Judged(f, w, s, x, now).value, Judged(f, w, x, s, now).value);
    }
  }

  lemma BothJudged(f: Fed, w: WorkloadId, s: AcceleratorId, x: AcceleratorId, now: int, c: Claim)
    requires PlanRefusal(f, w, s, x, now, c).None?
    ensures Judged(f, w, s, x, now).Ok? && Judged(f, w, x, s, now).Ok?
  {
    hide Authority, Judged;
  }

  lemma DecisionsIff(f: Fed, op: Op)
    requires Inv(f) && Refusal(f, op).None? && Enabled(f, op) && DecisionsDecode(f.decisions.Keys)
    ensures DecisionsDecode(Effect(f, op).decisions.Keys) <==> SparesDecisions(f, op)
  {
    hide ObserveRefusal, TransitionRefusal, UpdateRefusal, SetPolicyRefusal, RegisterRefusal, EvaluateNow, PlanRefusal;
    hide AdvanceRefusal, AbortRefusal, DecisionsDecode, KeepsBriefly, PlanResult, Judged, Evicted, PlanCache;
    hide ObserveEffect, TransitionEffect, UpdateEffect, SetPolicyEffect, RegisterEffect, EvaluateEffect, SweepEffect;
    hide AdvanceEffect, AbortEffect, PlanEffect, Inv, Keep;
    match op
    case EvaluateOp(w, a, source, now, wall, kept) =>
      EvaluateReadable(f, w, a, source, now, wall, kept, EvaluateNow(f, w, a, source, now).value);
    case Plan(w, s, x, now, wall, c, kept) =>
      PlannedDecisionsIff(f, w, s, x, now, wall, c, kept);
    case _ =>
      EffectLeaves(f, op);
      DecisionsShrink(f.decisions.Keys, Effect(f, op).decisions.Keys);
  }

  // ---- Plans ------------------------------------------------------------------------------

  lemma PutPlan(plans: map<PlanBody, Plan>, k: PlanBody, p: Plan)
    requires PlansDecode(plans)
    ensures PlansDecode(plans[k := p]) <==> PlanFits(p) && Room(plans, k)
  {
    hide PlanFits;
    RoomMeansSize(plans, k, p);
    if PlansDecode(plans[k := p]) { assert k in plans[k := p]; }
  }

  lemma AbortedPlansDecode(plans: map<PlanBody, Plan>, why: Reason)
    requires PlansDecode(plans)
    ensures PlansDecode(AbortAll(plans, why))
  {
    hide SortReasons;
    var after := AbortAll(plans, why);
    assert after.Keys == plans.Keys;
    assert |after| == |after.Keys| == |plans.Keys| == |plans|;
    forall k | k in after
      ensures PlanFits(after[k])
    {
      assert PlanFits(plans[k]);
    }
  }

  lemma HeldPlan(plans: map<PlanBody, Plan>, k: PlanBody)
    requires PlansDecode(plans) && k in plans
    ensures PlanFits(plans[k]) && Room(plans, k)
  {
  }

  lemma PlanResultFits(f: Fed, w: WorkloadId, s: AcceleratorId, x: AcceleratorId, now: int, p: Plan)
    requires PlanResult(f, w, s, x, now) == Ok(p)
    ensures PlanFits(p)
  {
    hide Judged, EndpointFor, ClassOf, EarlyRefusals, RequestOf, OutcomeFor, StepsOf, CostOf, SortReasons, BodyFor;
  }

  lemma PlansIff(f: Fed, op: Op)
    requires Refusal(f, op).None? && PlansDecode(f.plans)
    ensures PlansDecode(Effect(f, op).plans) <==> SparesPlans(f, op)
  {
    hide ObserveRefusal, TransitionRefusal, UpdateRefusal, SetPolicyRefusal, RegisterRefusal, EvaluateNow, PlanRefusal;
    hide AdvanceRefusal, AbortRefusal, PlansDecode, PlanResult, Room, AbortAll, AbortedFor;
    hide ObserveEffect, TransitionEffect, UpdateEffect, SetPolicyEffect, RegisterEffect, EvaluateEffect, SweepEffect;
    hide PlanEffect, AdvanceEffect, AbortEffect;
    match op
    case SetPolicy(body, c) =>
      SetPolicyLeaves(f, body, c);
      AbortedPlansDecode(f.plans, POLICY_ADVANCED);
    case Plan(w, s, x, now, wall, c, kept) =>
      PlanLeaves(f, w, s, x, now, wall, c, kept);
      if PlanResult(f, w, s, x, now).Ok? {
        var p := PlanResult(f, w, s, x, now).value;
        PlanResultFits(f, w, s, x, now, p);
        PutPlan(f.plans, p.body, p);
      }
    case Advance(k, to, c) => AdvancedPlansDecode(f, k, to, c);
    case Abort(k, text, c) =>
      AbortIsAStep(f, k, text, c);
      HeldPlan(f.plans, k);
      PutPlan(f.plans, k, AbortedBy(f.plans[k], text));
    case _ => EffectLeaves(f, op);
  }

  lemma AdvancedPlansDecode(f: Fed, k: PlanBody, to: MigrationState, c: Claim)
    requires AdvanceRefusal(f, k, to, c).None? && PlansDecode(f.plans)
    ensures PlansDecode(AdvanceEffect(f, k, to).plans)
  {
    hide Authority, LegalMigration, PlansDecode, Drained;
    HeldPlan(f.plans, k);
    PutPlan(f.plans, k, f.plans[k].(state := to));
  }

  // ---- All of it --------------------------------------------------------------------------

  /** An accepted operation keeps the store readable exactly when it spares it. */
  lemma ReadableIff(f: Fed, op: Op)
    requires Inv(f) && Readable(f) && Refusal(f, op).None? && Enabled(f, op)
    ensures Readable(Effect(f, op)) <==> SparesStore(f, op)
  {
    hide Refusal, Effect, Inv, Enabled, PolicyReadable, MembersDecode, WorkloadsDecode, DecisionsDecode, PlansDecode;
    hide SparesMembers, SparesPolicy, SparesWorkloads, SparesDecisions, SparesPlans;
    MembersIff(f, op);
    PolicyIff(f, op);
    WorkloadsIff(f, op);
    DecisionsIff(f, op);
    PlansIff(f, op);
  }

  // ---- Opening ----------------------------------------------------------------------------

  /** What a caller would have to check of a configuration. */
  predicate SparesOpen(disk: Option<Snapshot>, c: Config) {
    match disk
    case None => |c.name| <= MAX_NAME_BYTES && (c.policy.id == Assigned(0) || PolicyReadable(c.policy))
    case Some(s) => s.name != "" || |c.name| <= MAX_NAME_BYTES
  }

  lemma NothingFits(ts: seq<string>, namer: Namer, limit: nat)
    requires ts == []
    ensures ListFits(ts, namer, limit)
  {
  }

  lemma PermissiveFits()
    ensures PolicyReadable(PolicyOf(PERMISSIVE_POLICY))
  {
    hide ListFits, DecodedPolicy, PrintOf;
    NothingFits([], TokenName, MAX_TOKEN_BYTES);
    NothingFits([], KeyName, MAX_NAME_BYTES);
    assert PolicyFits(PERMISSIVE_POLICY);
    PolicyDecodes(PERMISSIVE_POLICY);
    SameRange(PERMISSIVE_POLICY);
  }

  /** The first open stores the configured policy unchecked. A policy that carries its own
      identity is readable exactly when it fits. */
  lemma FirstOpenReadable(c: Config)
    ensures Readable(FreshFed(c)) <==> SparesOpen(None, c)
    ensures VersionRange.Formed(c.policy.body.minimumRuntime) && c.policy == PolicyOf(c.policy.body) ==>
              (PolicyReadable(c.policy) <==> PolicyFits(c.policy.body))
  {
    PermissiveFits();
    hide PolicyReadable, ProfileDecodes, MemberDecodes, PolicyOf;
    assert Readable(FreshFed(c)) <==> SparesOpen(None, c);
    ReadableWhenFits(c.policy);
  }

  lemma ReadableWhenFits(p: Policy)
    ensures VersionRange.Formed(p.body.minimumRuntime) && p == PolicyOf(p.body) ==> (PolicyReadable(p) <==> PolicyFits(p.body))
  {
    hide PolicyOf, DecodedPolicy, PolicyFits, VersionRange.Formed;
    if VersionRange.Formed(p.body.minimumRuntime) { PolicyDecodes(p.body); }
  }

  lemma VendorSurvives(d: Descriptor)
    ensures VendorAgrees(d.(capabilities := Content(d.capabilities))) == VendorAgrees(d)
  {
    hide Namespace;
  }

  lemma RecoveredDescriptorDecodes(d: Descriptor)
    requires DescriptorValid(d) && DescriptorFits(d)
    ensures DescriptorValid(RecoveredDescriptor(d)) && DescriptorFits(RecoveredDescriptor(d))
  {
    VendorSurvives(d);
    ContentFits(d.capabilities);
    hide CapabilitiesValid, AdvertisementFits, TopologyOrdered, TopologyFits, LookUp;
    ContentIsIdempotent(d.capabilities);
    assert Content(d.capabilities).records != map[] by {
      var key :| key in d.capabilities.records;
      assert key in Content(d.capabilities).records.Keys;
    }
    hide Content;
    var n := RecoveredDescriptor(d);
    forall i | 0 <= i < |n.evidence|
      ensures EvidenceValid(n.evidence[i]) && n.evidence[i].subject == n.id && n.evidence[i].provenance == n.provenance
    {
      assert n.evidence[i] == RecoveredEvidence(d.evidence[i]);
      assert EvidenceValid(d.evidence[i]);
    }
  }

  lemma RecoveredMembersDecode(s: Snapshot)
    requires MembersDecode(s.members)
    ensures MembersDecode(RecoveredMembers(s))
  {
    hide DescriptorValid, DescriptorFits, RecoveredDescriptor;
    var after := RecoveredMembers(s);
    assert after.Keys == s.members.Keys;
    assert |after| == |after.Keys| == |s.members.Keys| == |s.members|;
    forall a | a in after
      ensures MemberDecodes(after[a])
    {
      assert MemberDecodes(s.members[a]);
      RecoveredDescriptorDecodes(s.members[a].descriptor);
    }
  }

  lemma RecoveredWorkloadsDecode(s: Snapshot)
    requires WorkloadsDecode(s.workloads)
    ensures WorkloadsDecode(RecoveredWorkloads(s))
  {
    hide WorkloadValid, WorkloadFits, StoredWorkload;
    var after := RecoveredWorkloads(s);
    assert after.Keys == s.workloads.Keys;
    assert |after| == |after.Keys| == |s.workloads.Keys| == |s.workloads|;
    forall w | w in after
      ensures ProfileDecodes(after[w])
    {
      assert ProfileDecodes(s.workloads[w]);
      StoredWorkloadValid(s.workloads[w].workload);
    }
  }

  lemma RecoveredPolicyDecodes(p: Policy)
    requires PolicyReadable(p)
    ensures PolicyReadable(RecoveredPolicy(p))
  {
    hide DecodedPolicy, PolicyFits, VersionRange.Formed;
    DecodedPolicyFits(p);
    var q := DecodedPolicy(p).value;
    PolicyDecodes(q.body);
  }

  /** What was read back can be read back again, whatever was stored. */
  lemma RecoveredReadable(s: Snapshot, c: Config)
    requires Decodes(s)
    ensures Readable(Recovered(s, c)) <==> SparesOpen(Some(s), c)
  {
    hide RecoveredMembers, RecoveredWorkloads, RecoveredPolicy, AbortAll, PolicyReadable, MembersDecode, WorkloadsDecode, PlansDecode;
    RecoveredMembersDecode(s);
    RecoveredWorkloadsDecode(s);
    RecoveredPolicyDecodes(s.policy);
    AbortedPlansDecode(s.plans, AUTHORITY_ADVANCED);
    var none: map<Decision, int> := map[];
    assert none.Keys == {} && DecisionsDecode(none.Keys);
    hide DecisionsDecode;
  }

  lemma OpenedReadable(disk: Option<Snapshot>, c: Config)
    requires OpenRefusal(disk, c).None?
    ensures Readable(Opened(disk, c)) <==> SparesOpen(disk, c)
  {
    hide Decodes, Readable, Recovered, FreshFed, SparesOpen;
    match disk
    case None => FirstOpenReadable(c);
    case Some(s) => RecoveredReadable(s, c);
  }

  // ---- Whole runs -------------------------------------------------------------------------

  ghost predicate WorldReadable(w: World) {
    && (match w.live case Some(f) => Readable(f) case None => true)
    && (match w.disk case Some(s) => Decodes(s) case None => true)
  }

  /** The event, if it succeeds, passes the checks that the code does not make. */
  ghost predicate Spares(w: World, e: Event, v: World) {
    match e
    case Run(op, _) => (match w.live case Some(f) => Refusal(f, op).None? ==> SparesStore(f, op) case None => true)
    case Open(c, _) => v.live.Some? ==> SparesOpen(w.disk, c)
  }

  lemma RunReadable(w: World, op: Op, writeOk: bool, v: World, f: Fed)
    requires IsStep(w, Run(op, writeOk), v) && w.live == Some(f) && Inv(f) && WorldReadable(w)
    ensures WorldReadable(v) <==> (Refusal(f, op).None? ==> SparesStore(f, op))
  {
    hide IsStep, Decodes, Readable, SnapshotOf, Effect, SparesStore, Inv, Enabled, Refusal;
    OperationStep(w, op, writeOk, v, f);
    if Refusal(f, op).None? { ReadableIff(f, op); }
    ReadableMeansDecodes(After(f, op));
  }

  lemma OpenReadable(w: World, c: Config, writeOk: bool, v: World)
    requires IsStep(w, Open(c, writeOk), v) && WorldReadable(w)
    ensures WorldReadable(v) <==> (v.live.Some? ==> SparesOpen(w.disk, c))
  {
    hide IsStep, Decodes, Readable, SnapshotOf, SparesOpen, Opened, OpenRefusal;
    ReopenStep(w, c, writeOk, v);
    if v.live.Some? {
      OpenedReadable(w.disk, c);
      ReadableMeansDecodes(Opened(w.disk, c));
    }
  }

  lemma StepReadable(w: World, e: Event, v: World)
    requires IsStep(w, e, v) && WorldInv(w) && WorldReadable(w)
    ensures WorldReadable(v) <==> Spares(w, e, v)
  {
    hide IsStep, WorldReadable, Inv, StoreInv, Refusal, SparesStore, SparesOpen;
    match e
    case Run(op, writeOk) =>
      OperationRuns(w, op, writeOk, v);
      RunReadable(w, op, writeOk, v, w.live.value);
    case Open(c, writeOk) => OpenReadable(w, c, writeOk, v);
  }

  ghost predicate AllReadable(ws: seq<World>, n: int) { forall i :: 0 <= i <= n ==> WorldReadable(At(ws, i)) }

  ghost predicate AllSpare(ws: seq<World>, es: seq<Event>, n: int) {
    forall i :: 0 <= i < n ==> Spares(At(ws, i), EventAt(es, i), At(ws, i + 1))
  }

  /** Along a run the store and every snapshot that could be written are readable throughout
      exactly when every accepted event passes the checks that the code does not make. */
  lemma {:induction false} StoreStaysReadable(ws: seq<World>, es: seq<Event>, n: nat)
    requires IsRun(ws, es) && EpochsRemain(ws) && n <= |es|
    ensures AllReadable(ws, n) <==> AllSpare(ws, es, n)
  {
    hide Spares, IsStep, EpochsRemain, WorldInv, WorldReadable;
    if n > 0 {
      StoreStaysReadable(ws, es, n - 1);
      LastPoint(ws, es, n);
      if WorldReadable(At(ws, n - 1)) {
        Reachable(ws, es, n - 1);
        assert IsStep(ws[n - 1], es[n - 1], ws[n - 1 + 1]);
        StepReadable(ws[n - 1], es[n - 1], ws[n]);
      }
    } else {
      StartsReadable(ws, es);
    }
  }

  lemma LastPoint(ws: seq<World>, es: seq<Event>, n: nat)
    requires n > 0
    ensures AllReadable(ws, n) <==> AllReadable(ws, n - 1) && WorldReadable(At(ws, n))
    ensures AllSpare(ws, es, n) <==> AllSpare(ws, es, n - 1) && Spares(At(ws, n - 1), EventAt(es, n - 1), At(ws, n - 1 + 1))
    ensures AllReadable(ws, n - 1) ==> WorldReadable(At(ws, n - 1))
  {
    hide WorldReadable, Spares;
  }

  lemma StartsReadable(ws: seq<World>, es: seq<Event>)
    requires IsRun(ws, es)
    ensures WorldReadable(At(ws, 0))
  {
    hide IsStep, Readable, Decodes;
  }
}
