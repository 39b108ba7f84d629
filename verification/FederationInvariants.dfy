/** What every operation of the federation keeps. */
module FederationInvariants {
  import opened Prelude
  import opened Capability
  import opened Portability
  import opened Compatibility
  import opened Migration
  import opened StoredForm
  import opened Federation

  // ---- The invariant ----------------------------------------------------------------------

  /** Record, descriptor and key of a member name the same incarnation. */
  ghost predicate MemberOk(a: AcceleratorId, m: Member) {
    && a == Incarnation(m.record.physical, m.record.agent, m.record.boot, m.record.deviceGeneration)
    && m.record.accelerator == a && m.descriptor.id == a
    && DerivedId(m.descriptor) == a
    && m.record.provenance == m.descriptor.provenance && m.record.supportLevel == m.descriptor.supportLevel
  }

  /** Two different incarnations of one device under one agent are never both unretired. */
  ghost predicate OneIncarnation(members: map<AcceleratorId, Member>) {
    forall a, b :: a in members && b in members && a != b && a.Incarnation? && b.Incarnation?
                   && a.physical == b.physical && a.agent == b.agent
                   ==> members[a].record.state == Retired || members[b].record.state == Retired
  }

  ghost predicate MembersOk(members: map<AcceleratorId, Member>) {
    && (forall a :: a in members ==> MemberOk(a, members[a]))
    && OneIncarnation(members)
  }

  /** A stored plan is never from the future, and one that can still move is bound to the
      current authority. */
  ghost predicate PlanOk(k: PlanBody, p: Plan, epoch: Generation, generation: Generation, stamp: PolicyStamp) {
    && p.body == k
    && (k.epoch < epoch || (k.epoch == epoch && k.federationGeneration <= generation))
    && (!IsTerminal(p.state) ==> k.epoch == epoch && k.policyGeneration == stamp)
  }

  ghost predicate PlansOk(plans: map<PlanBody, Plan>, epoch: Generation, generation: Generation, stamp: PolicyStamp) {
    forall k :: k in plans ==> PlanOk(k, plans[k], epoch, generation, stamp)
  }

  ghost predicate DecisionOk(f: Fed, d: Decision) {
    && d.epoch == f.epoch && d.federationGeneration <= f.generation && d.policyGeneration == f.policy.generation
    && d.accelerator in f.members && d.workload in f.workloads
  }

  ghost predicate WorkloadsOk(workloads: map<WorkloadId, Profile>) {
    forall w :: w in workloads ==> workloads[w].workload.classId == w
  }

  ghost predicate Inv(f: Fed) {
    && MembersOk(f.members)
    && WorkloadsOk(f.workloads)
    && PlansOk(f.plans, f.epoch, f.generation, f.policy.generation)
    && (forall d :: d in f.decisions ==> DecisionOk(f, d))
    && 1 <= f.maxDecisions && |f.decisions| <= f.maxDecisions
  }

  ghost predicate SnapshotInv(s: Snapshot) {
    MembersOk(s.members) && WorkloadsOk(s.workloads) && PlansOk(s.plans, s.epoch, s.generation, s.policy.generation)
  }

  ghost predicate StoreInv(disk: Option<Snapshot>) { disk.Some? ==> SnapshotInv(disk.value) }

  /** The stored epoch has not reached the end of its 64-bit range. */
  ghost predicate Renewable(disk: Option<Snapshot>) { disk.Some? ==> disk.value.epoch < MAX_GENERATION }

  ghost predicate WorldInv(w: World) { (w.live.Some? ==> Inv(w.live.value)) && StoreInv(w.disk) }

  // ---- Parts that a step may carry over ---------------------------------------------------

  lemma PlansCarryOver(plans: map<PlanBody, Plan>, epoch: Generation, generation: Generation, stamp: PolicyStamp)
    requires PlansOk(plans, epoch, generation, stamp)
    ensures PlansOk(plans, epoch, Next(generation), stamp)
  {
    forall k | k in plans
      ensures PlanOk(k, plans[k], epoch, Next(generation), stamp)
    {
      assert PlanOk(k, plans[k], epoch, generation, stamp);
    }
  }

  /** A step that adds members or workloads, moves the generation on and leaves the rest alone. */
  lemma DecisionsCarryOver(f: Fed, g: Fed)
    requires forall d :: d in f.decisions ==> DecisionOk(f, d)
    requires g.decisions == f.decisions && g.epoch == f.epoch && g.policy == f.policy && f.generation <= g.generation
    requires f.members.Keys <= g.members.Keys && f.workloads.Keys <= g.workloads.Keys
    ensures forall d :: d in g.decisions ==> DecisionOk(g, d)
  {
    forall d | d in g.decisions
      ensures DecisionOk(g, d)
    {
      assert DecisionOk(f, d);
      assert d.accelerator in f.members.Keys && d.workload in f.workloads.Keys;
    }
  }

  lemma KeepBound(all: map<Decision, int>, kept: set<Decision>, bound: nat, byAge: bool)
    requires Evicted(all, kept, bound, byAge)
    ensures Keep(all, kept).Keys == kept && |Keep(all, kept)| <= bound
  {
    assert Keep(all, kept).Keys == kept;
  }

  // ---- Members ----------------------------------------------------------------------------

  lemma ReplaceMember(members: map<AcceleratorId, Member>, a: AcceleratorId, m: Member)
    requires MembersOk(members) && a in members && MemberOk(a, m)
    requires members[a].record.state == Retired ==> m.record.state == Retired
    ensures MembersOk(members[a := m])
  {
  }

  lemma SupersededOk(members: map<AcceleratorId, Member>, d: Descriptor, fresh_: Member)
    requires MembersOk(members) && d.id !in members && MemberOk(d.id, fresh_)
    requires d.id == DerivedId(d)
    ensures MembersOk(Superseded(members, d)[d.id := fresh_])
  {
    var result := Superseded(members, d)[d.id := fresh_];
    forall a | a in result
      ensures MemberOk(a, result[a])
    {
      if a != d.id { assert MemberOk(a, members[a]); }
    }
    forall a, b | a in result && b in result && a != b && a.Incarnation? && b.Incarnation? && a.physical == b.physical && a.agent == b.agent
      ensures result[a].record.state == Retired || result[b].record.state == Retired
    {
      if a != d.id { assert MemberOk(a, members[a]); }
      if b != d.id { assert MemberOk(b, members[b]); }
    }
  }

  lemma ObserveMembers(f: Fed, d: Descriptor, c: Claim)
    requires MembersOk(f.members) && ObserveRefusal(f, d, c).None?
    ensures MembersOk(ObserveEffect(f, d).members)
    ensures f.members.Keys <= ObserveEffect(f, d).members.Keys
  {
    hide DescriptorValid, DuplicateLive, Authority, MembersOk, Superseded;
    assert d.id == DerivedId(d);
    if d.id !in f.members {
      SupersededOk(f.members, d, NewMember(f, d));
      assert Superseded(f.members, d).Keys == f.members.Keys by { SupersededKeys(f.members, d); }
    } else {
      KeyedMember(f.members, d.id);
      ReplaceMember(f.members, d.id, Refreshed(f, f.members[d.id], d));
    }
  }

  lemma SupersededKeys(members: map<AcceleratorId, Member>, d: Descriptor)
    ensures Superseded(members, d).Keys == members.Keys
  {
  }

  lemma KeyedMember(members: map<AcceleratorId, Member>, a: AcceleratorId)
    requires MembersOk(members) && a in members
    ensures MemberOk(a, members[a])
  {
  }

  /** Everything but the members is carried over by a step that only touches members. */
  lemma CarryOver(f: Fed, g: Fed)
    requires Inv(f) && MembersOk(g.members) && f.members.Keys <= g.members.Keys
    requires g == f.(members := g.members, generation := Next(f.generation))
    ensures Inv(g)
  {
    PlansCarryOver(f.plans, f.epoch, f.generation, f.policy.generation);
    DecisionsCarryOver(f, g);
  }

  lemma ObserveFrame(f: Fed, d: Descriptor)
    ensures ObserveEffect(f, d) == f.(members := ObserveEffect(f, d).members, generation := Next(f.generation))
  {
  }

  lemma ObserveInv(f: Fed, d: Descriptor, c: Claim)
    requires Inv(f) && ObserveRefusal(f, d, c).None?
    ensures Inv(ObserveEffect(f, d))
  {
    ObserveFrame(f, d);
    hide ObserveRefusal, ObserveEffect, MembersOk, PlansOk;
    ObserveMembers(f, d, c);
    hide *;
    CarryOver(f, ObserveEffect(f, d));
  }

  lemma TransitionInv(f: Fed, a: AcceleratorId, target: MemberState, c: Claim)
    requires Inv(f) && TransitionRefusal(f, a, target, c).None?
    ensures Inv(TransitionEffect(f, a, target))
  {
    hide Authority, ScopedAuthority, MembersOk, PlansOk;
    KeyedMember(f.members, a);
    var g := TransitionEffect(f, a, target);
    if f.members[a].record.state != target {
      ReplaceMember(f.members, a, g.members[a]);
      assert g == f.(members := f.members[a := g.members[a]], generation := Next(f.generation));
      hide *;
      CarryOver(f, g);
    }
  }

  lemma UpdateInv(f: Fed, a: AcceleratorId, caps: CapabilitySet, e: EvidenceRecord, c: Claim)
    requires Inv(f) && UpdateRefusal(f, a, caps, e, c).None?
    ensures Inv(UpdateEffect(f, a, caps, e))
  {
    hide Authority, ScopedAuthority, MembersOk, PlansOk, CapabilitiesValid, EvidenceValid;
    KeyedMember(f.members, a);
    var g := UpdateEffect(f, a, caps, e);
    ReplaceMember(f.members, a, g.members[a]);
    assert g == f.(members := f.members[a := g.members[a]], generation := Next(f.generation));
    hide *;
    CarryOver(f, g);
  }

  lemma StampedOk(members: map<AcceleratorId, Member>, stamp: PolicyStamp)
    requires MembersOk(members)
    ensures MembersOk(Stamped(members, stamp)) && Stamped(members, stamp).Keys == members.Keys
  {
    var result := Stamped(members, stamp);
    forall a | a in result
      ensures MemberOk(a, result[a])
    {
      assert MemberOk(a, members[a]);
    }
  }

  lemma AbortAllOk(plans: map<PlanBody, Plan>, why: Reason, epoch: Generation, generation: Generation, stamp: PolicyStamp,
                   epoch': Generation, generation': Generation, stamp': PolicyStamp)
    requires PlansOk(plans, epoch, generation, stamp)
    requires epoch < epoch' || (epoch == epoch' && generation <= generation')
    ensures PlansOk(AbortAll(plans, why), epoch', generation', stamp')
    ensures forall k :: k in plans ==> IsTerminal(AbortAll(plans, why)[k].state)
  {
    hide SortReasons;
    var result := AbortAll(plans, why);
    forall k | k in result
      ensures PlanOk(k, result[k], epoch', generation', stamp') && IsTerminal(result[k].state)
    {
      assert PlanOk(k, plans[k], epoch, generation, stamp);
    }
  }

  lemma SetPolicyInv(f: Fed, body: PolicyBody)
    requires Inv(f)
    ensures Inv(SetPolicyEffect(f, body))
  {
    hide MembersOk, PlansOk, Stamped, AbortAll;
    StampedOk(f.members, PolicyOf(body).generation);
    AbortAllOk(f.plans, POLICY_ADVANCED, f.epoch, f.generation, f.policy.generation, f.epoch, Next(f.generation), PolicyOf(body).generation);
  }

  lemma RegisterInv(f: Fed, w: Workload, nameId: nat)
    requires Inv(f)
    ensures Inv(RegisterEffect(f, w, nameId))
  {
    hide MembersOk, PlansOk, DeriveRevision;
    var g := RegisterEffect(f, w, nameId);
    PlansCarryOver(f.plans, f.epoch, f.generation, f.policy.generation);
    DecisionsCarryOver(f, g);
  }

  // ---- Decisions --------------------------------------------------------------------------

  /** The decision names the federation, the accelerator, the policy and the workload as they are. */
  ghost predicate BoundTo(f: Fed, p: Profile, a: AcceleratorId, d: Decision) {
    a in f.members &&
    var r := f.members[a].record;
    && d.epoch == f.epoch && d.federationGeneration == f.generation && d.policyGeneration == f.policy.generation
    && d.accelerator == r.accelerator && d.workload == p.workload.classId && d.workloadRevision == p.revision
    && d.deviceGeneration == r.deviceGeneration && d.capabilityGeneration == r.capabilityGeneration
    && d.evidenceGeneration == r.evidenceGeneration
  }

  /** An evaluation binds the federation, the accelerator, the policy and the workload it used. */
  lemma EvaluationBinds(f: Fed, p: Profile, a: AcceleratorId, source: Option<AcceleratorId>, current: bool, d: Decision)
    requires EvaluateWith(f, p, a, source, current) == Ok(d)
    ensures BoundTo(f, p, a, d)
  {
    hide WorkloadValid, PolicyValid, OutcomeOf, ClassFor, ScoreOf, ReasonsFor, SortReasons, SourceFor, LongestExplanation;
  }

  ghost predicate Registered(f: Fed, w: WorkloadId, p: Profile) { w in f.workloads && f.workloads[w] == p }

  lemma RecordedOk(f: Fed, w: WorkloadId, p: Profile, a: AcceleratorId, source: Option<AcceleratorId>, now: int, mustExist: bool, d: Decision)
    requires Inv(f) && Registered(f, w, p) && EvaluateMember(f, p, a, source, now, mustExist) == Ok(d)
    ensures DecisionOk(f, d)
  {
    hide EvaluateWith, FreshAt, PlansOk;
    EvaluationBinds(f, p, a, source, FreshAt(f, a, now), d);
    KeyedMember(f.members, a);
  }

  lemma JudgedOk(f: Fed, w: WorkloadId, a: AcceleratorId, other: AcceleratorId, now: int, d: Decision)
    requires Inv(f) && Judged(f, w, a, other, now) == Ok(d)
    ensures DecisionOk(f, d)
  {
    hide EvaluateMember, Inv, DecisionOk;
    RecordedOk(f, w, f.workloads[w], a, Some(other), now, false, d);
  }

  lemma CacheInv(f: Fed, all: map<Decision, int>, kept: set<Decision>, byAge: bool)
    requires Inv(f) && Evicted(all, kept, f.maxDecisions, byAge)
    requires forall d :: d in all ==> DecisionOk(f, d)
    ensures Inv(f.(decisions := Keep(all, kept)))
  {
    hide MembersOk, PlansOk, WorkloadsOk;
    KeepBound(all, kept, f.maxDecisions, byAge);
    var g := f.(decisions := Keep(all, kept));
    forall d | d in g.decisions
      ensures DecisionOk(g, d)
    {
      assert DecisionOk(f, d);
    }
  }

  lemma EvaluateInv(f: Fed, w: WorkloadId, a: AcceleratorId, source: Option<AcceleratorId>, now: int, wall: int, kept: set<Decision>, d: Decision)
    requires Inv(f) && EvaluateNow(f, w, a, source, now) == Ok(d) && Evicted(f.decisions[d := wall], kept, f.maxDecisions, true)
    ensures Inv(EvaluateEffect(f, Ok(d), wall, kept))
  {
    hide EvaluateMember, MembersOk, PlansOk, WorkloadsOk, Evicted, DecisionOk, Keep;
    RecordedOk(f, w, f.workloads[w], a, source, now, true, d);
    CacheInv(f, f.decisions[d := wall], kept, true);
  }

  lemma SweepInv(f: Fed)
    requires Inv(f)
    ensures Inv(SweepEffect(f))
  {
    hide MembersOk, PlansOk, WorkloadsOk, SweepKeeps;
    var g := SweepEffect(f);
    assert g.decisions.Keys <= f.decisions.Keys;
    SubsetSize(g.decisions.Keys, f.decisions.Keys);
    forall d | d in g.decisions
      ensures DecisionOk(g, d)
    {
      assert DecisionOk(f, d);
    }
  }

  lemma {:induction false} SubsetSize<T>(a: set<T>, b: set<T>)
    requires a <= b
    ensures |a| <= |b|
  {
    assert b == a + (b - a);
  }

  // ---- Plans ------------------------------------------------------------------------------

  /** What a new plan names and is bound to. */
  ghost predicate PlanBoundTo(f: Fed, s: AcceleratorId, d: AcceleratorId, p: Plan) {
    && s in f.members && d in f.members
    && p.state in {Planned, Refused}
    && p.body.epoch == f.epoch && p.body.federationGeneration == Next(f.generation)
    && p.body.policyGeneration == f.policy.generation
    && p.body.source == s && p.body.destination == d
    && p.body.sourceCapabilityGeneration == f.members[s].record.capabilityGeneration
    && p.body.destinationCapabilityGeneration == f.members[d].record.capabilityGeneration
  }

  lemma PlanBinds(f: Fed, w: WorkloadId, s: AcceleratorId, d: AcceleratorId, now: int, p: Plan)
    requires PlanResult(f, w, s, d, now) == Ok(p)
    ensures PlanBoundTo(f, s, d, p)
  {
    hide EvaluateWith, FreshAt, ClassOf, EarlyRefusals, OutcomeFor, StepsOf, CostOf, SortReasons, RequestOf, VendorRendering;
  }

  lemma PlanInv(f: Fed, w: WorkloadId, s: AcceleratorId, d: AcceleratorId, now: int, wall: int, kept: set<Decision>)
    requires Inv(f) && (PlanResult(f, w, s, d, now).Ok? ==> Evicted(PlanCache(f, w, s, d, now, wall), kept, f.maxDecisions, false))
    ensures Inv(PlanEffect(f, w, s, d, now, wall, kept))
  {
    hide MembersOk, WorkloadsOk, Evicted, Keep, PlanResult, IsTerminal, PlanCache, DecisionOk;
    PlansCarryOver(f.plans, f.epoch, f.generation, f.policy.generation);
    var bumped := f.(generation := Next(f.generation));
    DecisionsCarryOver(f, bumped);
    if PlanResult(f, w, s, d, now).Ok? {
      var p := PlanResult(f, w, s, d, now).value;
      PlanBinds(f, w, s, d, now, p);
      PlanCacheOk(f, w, s, d, now, wall);
      var all := PlanCache(f, w, s, d, now, wall);
      CacheInv(bumped, all, kept, false);
      AddPlan(bumped.(decisions := Keep(all, kept)), p);
    }
  }

  lemma PlanCacheOk(f: Fed, w: WorkloadId, s: AcceleratorId, d: AcceleratorId, now: int, wall: int)
    requires Inv(f)
    ensures forall x :: x in PlanCache(f, w, s, d, now, wall) ==> DecisionOk(f.(generation := Next(f.generation)), x)
  {
    hide MembersOk, WorkloadsOk, PlansOk, Judged;
    var source, destination := Judged(f, w, s, d, now), Judged(f, w, d, s, now);
    if source.Ok? { JudgedOk(f, w, s, d, now, source.value); }
    if destination.Ok? { JudgedOk(f, w, d, s, now, destination.value); }
  }

  lemma AddPlan(f: Fed, p: Plan)
    requires Inv(f) && PlanOk(p.body, p, f.epoch, f.generation, f.policy.generation)
    ensures Inv(f.(plans := f.plans[p.body := p]))
  {
    hide MembersOk, WorkloadsOk;
  }

  lemma DrainedOk(members: map<AcceleratorId, Member>, a: AcceleratorId)
    requires MembersOk(members) && a in members
    ensures MembersOk(members[a := Drained(members[a])])
  {
    hide MembersOk;
    KeyedMember(members, a);
    ReplaceMember(members, a, Drained(members[a]));
  }

  /** The member map an accepted advance leaves behind. */
  function MembersAfterAdvance(f: Fed, s: AcceleratorId, target: MigrationState): map<AcceleratorId, Member> {
    if target == Committed && s in f.members then f.members[s := Drained(f.members[s])] else f.members
  }

  lemma AdvanceInv(f: Fed, k: PlanBody, target: MigrationState, c: Claim)
    requires Inv(f) && AdvanceRefusal(f, k, target, c).None?
    ensures Inv(AdvanceEffect(f, k, target))
  {
    hide Authority, MembersOk, WorkloadsOk, DecisionOk, Drained, LegalMigration;
    var p := f.plans[k];
    if p.state != target {
      assert PlanOk(k, p, f.epoch, f.generation, f.policy.generation);
      DrainedOk(f.members, k.source);
      var moved := f.(members := MembersAfterAdvance(f, k.source, target), generation := Next(f.generation));
      assert moved.members.Keys == f.members.Keys;
      assert MembersOk(moved.members);
      hide Inv;
      assert Inv(moved) by { hide *; CarryOver(f, moved); }
      AddPlan(moved, p.(state := target));
    }
  }

  lemma AbortInv(f: Fed, k: PlanBody, text: nat, c: Claim)
    requires Inv(f) && AbortRefusal(f, k, c).None?
    ensures Inv(AbortEffect(f, k, text))
  {
    hide Authority, MembersOk, WorkloadsOk, DecisionOk, SortReasons;
    var bumped := f.(generation := Next(f.generation));
    assert Inv(bumped) by { hide *; CarryOver(f, bumped); }
    assert PlanOk(k, f.plans[k], f.epoch, f.generation, f.policy.generation);
    AddPlan(bumped, AbortedBy(f.plans[k], text));
  }

  // ---- Every step -------------------------------------------------------------------------

  lemma EffectInv(f: Fed, op: Op)
    requires Inv(f) && Enabled(f, op) && Refusal(f, op).None?
    ensures Inv(Effect(f, op))
  {
    hide ObserveRefusal, TransitionRefusal, UpdateRefusal, SetPolicyRefusal, RegisterRefusal, EvaluateNow, PlanRefusal;
    hide AdvanceRefusal, AbortRefusal, Evicted, Inv;
    hide ObserveEffect, TransitionEffect, UpdateEffect, SetPolicyEffect, RegisterEffect, EvaluateEffect, SweepEffect;
    hide PlanEffect, AdvanceEffect, AbortEffect, PlanResult, PlanCache;
    match op
    case Observe(d, c) => ObserveInv(f, d, c);
    case Transition(a, target, c) => TransitionInv(f, a, target, c);
    case UpdateCapabilities(a, caps, e, c) => UpdateInv(f, a, caps, e, c);
    case SetPolicy(body, _) => SetPolicyInv(f, body);
    case RegisterWorkload(w, nameId, _) => RegisterInv(f, w, nameId);
    case EvaluateOp(w, a, source, now, wall, kept) => EvaluateInv(f, w, a, source, now, wall, kept, EvaluateNow(f, w, a, source, now).value);
    case InvalidateStale => SweepInv(f);
    case Plan(w, s, d, now, wall, c, kept) => PlanInv(f, w, s, d, now, wall, kept);
    case Advance(k, to, c) => AdvanceInv(f, k, to, c);
    case Abort(k, text, c) => AbortInv(f, k, text, c);
    case Persist =>
    case Shutdown => ShutdownInv(f);
  }

  lemma ShutdownInv(f: Fed)
    requires Inv(f)
    ensures Inv(f.(shutdown := true))
  {
    hide MembersOk, WorkloadsOk, PlansOk;
    DecisionsCarryOver(f, f.(shutdown := true));
  }

  /** Every accepted or refused operation keeps the invariant. */
  lemma AfterInv(f: Fed, op: Op)
    requires Inv(f) && Enabled(f, op)
    ensures Inv(After(f, op))
  {
    hide Inv, Refusal, Effect, Enabled;
    if Refusal(f, op).None? {
      EffectInv(f, op);
    }
  }

  lemma RecoveredMembersOk(s: Snapshot)
    requires MembersOk(s.members)
    ensures MembersOk(RecoveredMembers(s)) && RecoveredMembers(s).Keys == s.members.Keys
  {
    hide RecoveredMember;
    var result := RecoveredMembers(s);
    forall a | a in result
      ensures MemberOk(a, result[a]) && (s.members[a].record.state == Retired ==> result[a].record.state == Retired)
    {
      RecoveredMemberOk(a, s.members[a], Next(s.epoch), Next(s.generation));
    }
  }

  lemma RecoveredMemberOk(a: AcceleratorId, m: Member, epoch: Generation, generation: Generation)
    requires MemberOk(a, m)
    ensures MemberOk(a, RecoveredMember(m, epoch, generation))
    ensures m.record.state == Retired ==> RecoveredMember(m, epoch, generation).record.state == Retired
  {
  }

  lemma RecoveredWorkloadsOk(s: Snapshot)
    requires WorkloadsOk(s.workloads)
    ensures WorkloadsOk(RecoveredWorkloads(s)) && RecoveredWorkloads(s).Keys == s.workloads.Keys
  {
    hide StoredRequirement;
  }

  /** Recovery establishes the invariant from any store that satisfies it. */
  lemma OpenedInv(disk: Option<Snapshot>, c: Config)
    requires StoreInv(disk) && Renewable(disk)
    ensures Inv(Opened(disk, c))
  {
    hide RecoveredMembers, RecoveredWorkloads, RecoveredPolicy, AbortAll, MembersOk, PlansOk, WorkloadsOk;
    if disk.Some? {
      var s := disk.value;
      RecoveredMembersOk(s);
      RecoveredWorkloadsOk(s);
      var g := Recovered(s, c);
      AbortAllOk(s.plans, AUTHORITY_ADVANCED, s.epoch, s.generation, s.policy.generation, g.epoch, g.generation, g.policy.generation);
    } else {
      EmptyInv();
    }
  }

  lemma EmptyInv()
    ensures MembersOk(map[]) && WorkloadsOk(map[])
    ensures forall e, g, p :: PlansOk(map[], e, g, p)
  {
  }

  lemma SnapshotOfInv(f: Fed)
    requires Inv(f)
    ensures SnapshotInv(SnapshotOf(f))
  {
    hide MembersOk, PlansOk, WorkloadsOk;
  }

  /** The invariant of the live instance and of the store survives every event. */
  lemma StepInv(w: World, e: Event)
    requires WorldInv(w) && StepEnabled(w, e)
    requires e.Open? ==> Renewable(w.disk)
    ensures WorldInv(NextWorld(w, e))
  {
    hide Inv, SnapshotInv, Enabled, After, Opened, SnapshotOf, Writes, OpenRefusal;
    match e
    case Run(op, _) =>
      AfterInv(w.live.value, op);
      SnapshotOfInv(After(w.live.value, op));
    case Open(c, _) =>
      if OpenRefusal(w.disk, c).None? {
        OpenedInv(w.disk, c);
        SnapshotOfInv(Opened(w.disk, c));
      }
  }
}
