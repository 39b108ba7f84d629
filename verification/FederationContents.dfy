/** What can be said at any time about everything the federation holds: who attests a member, and what
    registered workloads can count on. */
module FederationContents {
  import opened Prelude
  import opened Ordering
  import opened Vocabulary
  import opened Capability
  import opened Portability
  import opened PortabilityMeaning
  import opened Compatibility
  import opened Migration
  import opened StoredForm
  import opened Federation
  import opened FederationInvariants
  import opened FederationSteps
  import opened FederationRuns
  import FederationHistory

  // ---- Members are attested ---------------------------------------------------------------

  /** Every piece of evidence is about this very member and of its provenance; where the provenance is
      no evidence at all, nothing is attested except what a restart restored. */
  ghost predicate EvidenceIsOwn(a: AcceleratorId, d: Descriptor) {
    forall i :: 0 <= i < |d.evidence| ==>
      && d.evidence[i].subject == a && d.evidence[i].provenance == d.provenance
      && (d.provenance == NoEvidence && d.evidence[i].kind != RecoveryRestore ==> d.evidence[i].payload == None)
  }

  /** Nobody is native without real evidence. */
  ghost predicate NativeIsReal(d: Descriptor) { d.supportLevel == NativeSupport ==> d.provenance == Real && |d.evidence| > 0 }

  /** Every record carries a value of the kind its name stands for, and what is claimed is not empty. */
  ghost predicate RecordsAreTyped(caps: CapabilitySet) {
    && |caps.records| <= 4096
    && forall key :: key in caps.records ==>
         && KeyKind(key) == Some(caps.records[key].value.KindOf())
         && (caps.records[key].state in {Supported, CapabilityState.Degraded} ==> caps.records[key].value !in {Enumeration(""), TokenSet([])})
  }

  ghost predicate Attested(a: AcceleratorId, m: Member) {
    && a.Incarnation? && a.physical != 0 && a.agent != 0 && a.boot != 0
    && EvidenceIsOwn(a, m.descriptor) && NativeIsReal(m.descriptor) && RecordsAreTyped(m.descriptor.capabilities)
  }

  ghost predicate AllAttested(members: map<AcceleratorId, Member>) { forall a :: a in members ==> Attested(a, members[a]) }

  lemma ValidIsTyped(caps: CapabilitySet)
    requires CapabilitiesValid(caps)
    ensures RecordsAreTyped(caps)
  {
    hide KeyKind, KeyName;
    forall key | key in caps.records
      ensures KeyKind(key) == Some(caps.records[key].value.KindOf())
      ensures caps.records[key].state in {Supported, CapabilityState.Degraded} ==> caps.records[key].value !in {Enumeration(""), TokenSet([])}
    {
      assert EntryValid(key, caps.records[key]);
    }
  }

  lemma ContentIsTyped(caps: CapabilitySet)
    requires RecordsAreTyped(caps)
    ensures RecordsAreTyped(Content(caps))
  {
    hide KeyKind;
    assert Content(caps).records.Keys == caps.records.Keys;
    assert |Content(caps).records| == |Content(caps).records.Keys| == |caps.records|;
  }

  lemma ReportedIsAttested(f: Fed, d: Descriptor, c: Claim, m: Member)
    requires ObserveRefusal(f, d, c).None? && m.descriptor.evidence == d.evidence && m.descriptor.provenance == d.provenance
    requires m.descriptor.supportLevel == d.supportLevel && m.descriptor.capabilities == d.capabilities
    ensures Attested(d.id, m)
  {
    hide Authority, DuplicateLive, CapabilitiesValid, VendorAgrees, TopologyOrdered, RecordsAreTyped;
    ValidIsTyped(d.capabilities);
  }

  lemma RefreshedDescriptor(f: Fed, m: Member, d: Descriptor)
    ensures Refreshed(f, m, d).descriptor == d.(capabilityGeneration := Refreshed(f, m, d).descriptor.capabilityGeneration)
  {
    hide Content;
  }

  lemma ObservedDescriptors(f: Fed, d: Descriptor, a: AcceleratorId, n: Descriptor)
    requires a in ObserveEffect(f, d).members && n == ObserveEffect(f, d).members[a].descriptor
    ensures a == d.id ==> n == d.(capabilityGeneration := n.capabilityGeneration)
    ensures a != d.id ==> a in f.members && n == f.members[a].descriptor
  {
    hide Refreshed, Supersedes;
    if d.id in f.members { RefreshedDescriptor(f, f.members[d.id], d); }
  }

  lemma ObserveAttests(f: Fed, d: Descriptor, c: Claim)
    requires AllAttested(f.members) && ObserveRefusal(f, d, c).None?
    ensures AllAttested(ObserveEffect(f, d).members)
  {
    hide ObserveRefusal, Attested, ObserveEffect;
    var members := ObserveEffect(f, d).members;
    forall a | a in members
      ensures Attested(a, members[a])
    {
      ObservedDescriptors(f, d, a, members[a].descriptor);
      if a == d.id { ReportedIsAttested(f, d, c, members[a]); } else { SameDescriptorAttested(a, f.members[a], members[a]); }
    }
  }

  lemma SameDescriptorAttested(a: AcceleratorId, m: Member, n: Member)
    requires Attested(a, m) && n.descriptor == m.descriptor
    ensures Attested(a, n)
  {
    hide EvidenceIsOwn, NativeIsReal, RecordsAreTyped;
  }

  lemma UpdateAttests(f: Fed, a: AcceleratorId, caps: CapabilitySet, e: EvidenceRecord, c: Claim)
    requires MembersOk(f.members) && AllAttested(f.members) && UpdateRefusal(f, a, caps, e, c).None?
    ensures AllAttested(UpdateEffect(f, a, caps, e).members)
  {
    hide MembersOk, CapabilitiesValid, RecordsAreTyped, Authority, ScopedAuthority, Content;
    KeyedMember(f.members, a);
    ValidIsTyped(caps);
    assert Attested(a, f.members[a]);
    assert Attested(a, Updated(f, f.members[a], caps, e));
    hide Attested, Updated;
  }

  lemma SameDescriptors(f: Fed, members: map<AcceleratorId, Member>)
    requires AllAttested(f.members) && members.Keys == f.members.Keys
    requires forall a :: a in members ==> members[a].descriptor == f.members[a].descriptor
    ensures AllAttested(members)
  {
    hide Attested;
    forall a | a in members ensures Attested(a, members[a]) { SameDescriptorAttested(a, f.members[a], members[a]); }
  }

  lemma TransitionAttests(f: Fed, a: AcceleratorId, target: MemberState)
    requires AllAttested(f.members)
    ensures AllAttested(TransitionEffect(f, a, target).members)
  {
    hide AllAttested;
    SameDescriptors(f, TransitionEffect(f, a, target).members);
  }

  lemma SetPolicyAttests(f: Fed, body: PolicyBody)
    requires AllAttested(f.members)
    ensures AllAttested(SetPolicyEffect(f, body).members)
  {
    hide AllAttested, AbortAll, PrintOf;
    SameDescriptors(f, SetPolicyEffect(f, body).members);
  }

  lemma AdvanceAttests(f: Fed, k: PlanBody, to: MigrationState)
    requires AllAttested(f.members)
    ensures AllAttested(AdvanceEffect(f, k, to).members)
  {
    hide AllAttested;
    SameDescriptors(f, AdvanceEffect(f, k, to).members);
  }

  lemma EffectAttests(f: Fed, op: Op)
    requires Inv(f) && AllAttested(f.members) && Refusal(f, op).None?
    ensures AllAttested(Effect(f, op).members)
  {
    hide ObserveRefusal, TransitionRefusal, UpdateRefusal, SetPolicyRefusal, RegisterRefusal, EvaluateNow, PlanRefusal, AdvanceRefusal, AbortRefusal;
    hide ObserveEffect, TransitionEffect, UpdateEffect, SetPolicyEffect, RegisterEffect, EvaluateEffect, SweepEffect, PlanEffect, AdvanceEffect;
    hide AbortEffect, AllAttested, MembersOk, PlansOk, WorkloadsOk, DecisionOk;
    match op
    case Observe(d, c) => ObserveAttests(f, d, c);
    case Transition(a, target, c) => TransitionAttests(f, a, target);
    case UpdateCapabilities(a, caps, e, c) => UpdateAttests(f, a, caps, e, c);
    case SetPolicy(body, _) => SetPolicyAttests(f, body);
    case Advance(k, to, c) => AdvanceAttests(f, k, to);
    case _ => EffectLeaves(f, op);
  }

  lemma RecoveredAttested(s: Snapshot, c: Config)
    requires AllAttested(s.members)
    ensures AllAttested(Opened(Some(s), c).members)
  {
    FederationHistory.OpenedMembers(Some(s), c);
    hide Opened, RecoveredMember, Attested;
    var members := RecoveredMembers(s);
    forall a | a in members
      ensures Attested(a, members[a])
    {
      RestoredIsAttested(a, s.members[a], Next(s.epoch), Next(s.generation));
    }
  }

  lemma RestoredIsAttested(a: AcceleratorId, m: Member, epoch: Generation, generation: Generation)
    requires Attested(a, m)
    ensures Attested(a, RecoveredMember(m, epoch, generation))
  {
    hide RecordsAreTyped, Content, RecoveredState;
    ContentIsTyped(m.descriptor.capabilities);
    var d := RecoveredMember(m, epoch, generation).descriptor;
    forall i | 0 <= i < |d.evidence|
      ensures d.evidence[i] == RecoveredEvidence(m.descriptor.evidence[i])
    {
    }
  }

  ghost predicate WorldAttested(w: World) {
    && (match w.live case Some(f) => AllAttested(f.members) case None => true)
    && (match w.disk case Some(s) => AllAttested(s.members) case None => true)
  }

  lemma OpenAttests(w: World, c: Config, writeOk: bool, v: World)
    requires IsStep(w, Open(c, writeOk), v) && WorldAttested(w)
    ensures WorldAttested(v)
  {
    hide IsStep, Opened, OpenRefusal, AllAttested;
    ReopenStep(w, c, writeOk, v);
    NobodyAtFirst(c);
    if w.disk.Some? { RecoveredAttested(w.disk.value, c); }
  }

  lemma NobodyAtFirst(c: Config)
    ensures AllAttested(Opened(None, c).members)
  {
    FederationHistory.OpenedMembers(None, c);
    hide Opened;
  }

  lemma RunAttests(w: World, op: Op, writeOk: bool, v: World, f: Fed)
    requires IsStep(w, Run(op, writeOk), v) && w.live == Some(f) && Inv(f) && WorldAttested(w)
    ensures WorldAttested(v)
  {
    hide IsStep, AllAttested, Refusal, Effect, Enabled, Inv;
    OperationStep(w, op, writeOk, v, f);
    if Refusal(f, op).None? { EffectAttests(f, op); }
  }

  /** In every world of every run every member, running or stored, is attested by its own evidence. */
  lemma {:induction false} MembersAreAttested(ws: seq<World>, es: seq<Event>, i: nat)
    requires IsRun(ws, es) && EpochsRemain(ws)
    ensures WorldAttested(At(ws, i))
  {
    hide IsStep, AllAttested, Inv, StoreInv;
    if 0 < i < |ws| {
      MembersAreAttested(ws, es, i - 1);
      Reachable(ws, es, i - 1);
      assert IsStep(ws[i - 1], es[i - 1], ws[i - 1 + 1]);
      match es[i - 1]
      case Run(op, writeOk) =>
        OperationRuns(ws[i - 1], op, writeOk, ws[i]);
        RunAttests(ws[i - 1], op, writeOk, ws[i], ws[i - 1].live.value);
      case Open(c, writeOk) => OpenAttests(ws[i - 1], c, writeOk, ws[i]);
    }
  }

  // ---- Plans compare what the endpoints advertise -----------------------------------------

  /** The vendor that an advertisement names, whatever it says about it. */
  ghost function NamedVendor(caps: CapabilitySet): string {
    if "vendor.id" !in caps.records then ""
    else match caps.records["vendor.id"].value case Enumeration(t) => t case _ => ""
  }

  /** The move between two advertisements, as a plan sees it. */
  ghost function MoveBetween(s: CapabilitySet, d: CapabilitySet, need: MigrationNeed, consent: bool): Request {
    Request(Some(s), Some(d), NamedVendor(s), NamedVendor(d), Some(need), consent)
  }

  lemma VendorIsNamed(caps: CapabilitySet)
    ensures VendorRendering(caps) == NamedVendor(caps)
  {
    hide Namespace;
  }

  ghost predicate Advertised(f: Fed, a: AcceleratorId, caps: CapabilitySet) { a in f.members && f.members[a].descriptor.capabilities == caps }

  /** The class of a plan is that of a move from what the source advertises to what the destination
      advertises, under the workload's need and the policy in force. */
  lemma PlansCompareAdvertisements(f: Fed, w: WorkloadId, x: Profile, s: AcceleratorId, d: AcceleratorId, now: int, p: Plan, a: CapabilitySet, b: CapabilitySet)
    requires PlanResult(f, w, s, d, now) == Ok(p) && Registered(f, w, x) && Advertised(f, s, a) && Advertised(f, d, b)
    ensures p.body.portability == ClassOf(MoveBetween(a, b, x.workload.need, f.policy.body.allowCrossVendorMigration))
    ensures p.body.workload == x.workload.classId && p.body.workloadRevision == x.revision
  {
    hide Judged, ClassOf, EarlyRefusals, OutcomeFor, StepsOf, CostOf, SortReasons, VendorRendering, NamedVendor;
    VendorIsNamed(a);
    VendorIsNamed(b);
  }

  // ---- Registered workloads ---------------------------------------------------------------

  ghost predicate FoundUnder(f: Fed, id: WorkloadId, rs: seq<Requirement>) {
    && id in f.workloads && f.workloads[id].workload.requirements == rs && f.workloads[id].workload.classId == id
    && f.workloads[id].revision == RevisionOf(WorkloadPrintOf(f.workloads[id].workload))
  }

  ghost predicate SameWorkload(f: Fed, g: Fed, id: WorkloadId) {
    (id in f.workloads <==> id in g.workloads) && (id in f.workloads ==> f.workloads[id] == g.workloads[id])
  }

  /** A workload is found again under its own class, or under the identity of its name if it had none;
      its revision is the digest of its content, and no other workload is touched. */
  lemma RegisteredUnder(f: Fed, w: Workload, nameId: nat, c: Claim, other: WorkloadId)
    requires RegisterRefusal(f, w, nameId, c).None?
    ensures
      var g, id := RegisterEffect(f, w, nameId), if w.classId != 0 then w.classId else nameId;
      id != 0 && FoundUnder(g, id, w.requirements) && (other != id ==> SameWorkload(f, g, other))
  {
    hide WorkloadPrintOf, Authority, RequirementValid;
  }

  // ---- Registered workloads are consistent ------------------------------------------------

  /** What is demanded carries no weight, nothing is asked twice of one capability with the same
      strength, and a workload that only a live move can host needs its state moved. */
  ghost predicate Consistent(w: Workload) {
    && (forall i :: 0 <= i < |w.requirements| && w.requirements[i].strength == Hard ==> w.requirements[i].weight == 0.0)
    && (forall i, j :: 0 <= i < j < |w.requirements| ==> !AskedTwice(w.requirements[i], w.requirements[j]))
    && (w.minimumPortability == LiveMigrationSupported ==> w.need == LiveStateTransfer)
  }

  ghost predicate AskedTwice(r: Requirement, q: Requirement) { r.capability == q.capability && r.op == q.op && r.strength == q.strength }

  ghost predicate AllConsistent(workloads: map<WorkloadId, Profile>) { forall id :: id in workloads ==> Consistent(workloads[id].workload) }

  lemma ValidIsConsistent(w: Workload)
    requires WorkloadValid(w)
    ensures Consistent(w)
  {
    forall i | 0 <= i < |w.requirements| ensures RequirementValid(w.requirements[i]) {}
    hide KeyKind;
  }

  lemma RegisterIsConsistent(f: Fed, w: Workload, nameId: nat, c: Claim)
    requires AllConsistent(f.workloads) && RegisterRefusal(f, w, nameId, c).None?
    ensures AllConsistent(RegisterEffect(f, w, nameId).workloads)
  {
    hide Consistent, WorkloadValid, Authority;
    ValidIsConsistent(StoredProfile(w, nameId).workload);
  }

  lemma EffectIsConsistent(f: Fed, op: Op)
    requires AllConsistent(f.workloads) && Refusal(f, op).None?
    ensures AllConsistent(Effect(f, op).workloads)
  {
    hide ObserveRefusal, TransitionRefusal, UpdateRefusal, SetPolicyRefusal, RegisterRefusal, EvaluateNow, PlanRefusal, AdvanceRefusal, AbortRefusal;
    hide ObserveEffect, TransitionEffect, UpdateEffect, SetPolicyEffect, RegisterEffect, EvaluateEffect, SweepEffect, PlanEffect, AdvanceEffect;
    hide AbortEffect, AllConsistent;
    match op
    case RegisterWorkload(w, nameId, c) => RegisterIsConsistent(f, w, nameId, c);
    case _ => EffectLeaves(f, op);
  }

  lemma StoredIsConsistent(w: Workload)
    requires Consistent(w)
    ensures Consistent(StoredWorkload(w))
  {
    var rs := StoredWorkload(w).requirements;
    forall i | 0 <= i < |rs| ensures rs[i] == StoredRequirement(w.requirements[i]) {}
  }

  lemma OpenedIsConsistent(disk: Option<Snapshot>, c: Config)
    requires match disk case Some(s) => AllConsistent(s.workloads) case None => true
    ensures AllConsistent(Opened(disk, c).workloads)
  {
    hide Consistent, StoredWorkload, RecoveredMembers, AbortAll, RecoveredPolicy;
    var workloads := Opened(disk, c).workloads;
    forall id | id in workloads ensures Consistent(workloads[id].workload) {
      StoredIsConsistent(disk.value.workloads[id].workload);
    }
  }

  ghost predicate WorldConsistent(w: World) {
    && (match w.live case Some(f) => AllConsistent(f.workloads) case None => true)
    && (match w.disk case Some(s) => AllConsistent(s.workloads) case None => true)
  }

  lemma StepIsConsistent(w: World, e: Event, v: World)
    requires IsStep(w, e, v) && WorldConsistent(w)
    ensures WorldConsistent(v)
  {
    hide IsStep, Opened, OpenRefusal, AllConsistent, Refusal, Effect, Enabled;
    match e
    case Run(op, writeOk) =>
      OperationRuns(w, op, writeOk, v);
      OperationStep(w, op, writeOk, v, w.live.value);
      if Refusal(w.live.value, op).None? { EffectIsConsistent(w.live.value, op); }
    case Open(c, writeOk) =>
      ReopenStep(w, c, writeOk, v);
      OpenedIsConsistent(w.disk, c);
  }

  /** In every world of every run every workload, registered or stored, is consistent. */
  lemma {:induction false} WorkloadsAreConsistent(ws: seq<World>, es: seq<Event>, i: nat)
    requires IsRun(ws, es)
    ensures WorldConsistent(At(ws, i))
  {
    hide IsStep, AllConsistent;
    if 0 < i < |ws| {
      WorkloadsAreConsistent(ws, es, i - 1);
      assert IsStep(ws[i - 1], es[i - 1], ws[i - 1 + 1]);
      StepIsConsistent(ws[i - 1], es[i - 1], ws[i]);
    }
  }

  /** Hence in every run a plan for a workload that only a live move can host moves native state. */
  lemma LiveThresholdMovesState(ws: seq<World>, es: seq<Event>, i: nat, f: Fed, w: WorkloadId, x: Profile, s: AcceleratorId, d: AcceleratorId, now: int, p: Plan)
    requires IsRun(ws, es) && LiveAt(ws, i, f) && Registered(f, w, x) && x.workload.minimumPortability == LiveMigrationSupported
    requires PlanResult(f, w, s, d, now) == Ok(p) && p.state == Planned
    ensures p.body.outcome == MoveNativeState
  {
    hide IsRun, PlanResult;
    WorkloadsAreConsistent(ws, es, i);
    assert Consistent(x.workload);
    PlannedForNeed(f, w, x, s, d, now, p);
  }

  lemma PlannedForNeed(f: Fed, w: WorkloadId, x: Profile, s: AcceleratorId, d: AcceleratorId, now: int, p: Plan)
    requires PlanResult(f, w, s, d, now) == Ok(p) && p.state == Planned && Registered(f, w, x)
    ensures x.workload.need == LiveStateTransfer ==> p.body.outcome == MoveNativeState
  {
    hide EvaluateWith, PlanMigration;
    PlansAreSound(MigrationRequest(
      f.id, Next(f.generation), f.epoch, f.policy, EndpointFor(f, s), EndpointFor(f, d),
      f.workloads[w].workload, f.workloads[w].revision, Judged(f, w, s, d, now).value, Judged(f, w, d, s, now).value));
  }

  // ---- Reports are consistent -------------------------------------------------------------

  ghost predicate Ascending(ts: seq<string>) { forall i, j :: 0 <= i < j < |ts| ==> !StringLess(ts[j], ts[i]) }

  /** An accepted report names the incarnation by its device, agent, boot and generation, claims the
      vendor it states, and lists its topology in order. */
  lemma ReportsAgree(f: Fed, d: Descriptor, c: Claim)
    requires ObserveRefusal(f, d, c).None?
    ensures d.id == Incarnation(d.physical, d.agent, d.boot, d.generation)
    ensures Claims(d.capabilities, "vendor.id") ==> NamedVendor(d.capabilities) == d.vendorToken
    ensures Ascending(d.topology)
  {
    hide Authority, CapabilitiesValid, EvidenceValid, StringLess, Namespace;
    hide ConflictsWith, DuplicateLive;
    assert DescriptorValid(d);
    TopologyAscends(d.topology);
  }

  lemma {:induction false} TopologyAscends(ts: seq<string>)
    requires TopologyOrdered(ts)
    ensures Ascending(ts)
  {
    hide StringLess;
    if ts != [] {
      var front := ts[..|ts| - 1];
      TopologyAscends(front);
      forall i | 0 <= i < |front| ensures !StringLess(ts[|ts| - 1], ts[i]) {
        if i < |front| - 1 {
          assert !StringLess(front[|front| - 1], front[i]);
          StringLessTotal(ts[i], ts[|ts| - 2]);
          if StringLess(ts[|ts| - 1], ts[i]) && ts[i] != ts[|ts| - 2] { StringLessTransitive(ts[|ts| - 1], ts[i], ts[|ts| - 2]); }
        }
      }
    }
  }

  // ---- What operations leave behind -------------------------------------------------------

  /** An accepted report puts the descriptor in place, an accepted update the capabilities and their
      evidence; no other member is described differently. */
  lemma ReportsTakeHold(f: Fed, d: Descriptor, a: AcceleratorId, n: Descriptor)
    requires a in ObserveEffect(f, d).members && n == ObserveEffect(f, d).members[a].descriptor
    ensures a == d.id ==> n.capabilities == d.capabilities && n.evidence == d.evidence && n.provenance == d.provenance
    ensures a != d.id ==> a in f.members && n == f.members[a].descriptor
  {
    hide ObserveEffect;
    ObservedDescriptors(f, d, a, n);
  }

  ghost predicate Holds(f: Fed, a: AcceleratorId, caps: CapabilitySet, evidence: seq<EvidenceRecord>) {
    a in f.members && f.members[a].descriptor.capabilities == caps && f.members[a].descriptor.evidence == evidence
  }

  lemma UpdatesTakeHold(f: Fed, a: AcceleratorId, caps: CapabilitySet, e: EvidenceRecord, b: AcceleratorId)
    requires a in f.members
    ensures Holds(UpdateEffect(f, a, caps, e), a, caps, [e])
    ensures b in f.members && b != a ==> b in UpdateEffect(f, a, caps, e).members && UpdateEffect(f, a, caps, e).members[b] == f.members[b]
  {
  }

  /** A new policy is in force at once: no decision under the old one is left, every member is stamped
      with it, and no plan can move. */
  lemma PolicyTakesHold(f: Fed, body: PolicyBody, a: AcceleratorId, k: PlanBody)
    ensures
      var g := SetPolicyEffect(f, body);
      && g.policy.body == body && g.decisions == map[]
      && (a in f.members ==> a in g.members && g.members[a].record.policyGeneration == g.policy.generation)
      && (k in f.plans ==> k in g.plans && g.plans[k].state in {Committed, Aborted, Refused})
  {
    hide PrintOf, SortReasons;
  }

  /** The target that a decision is about: the member as it stands, open for work exactly when active. */
  ghost predicate StandsFor(f: Fed, a: AcceleratorId, current: bool, t: Target) {
    && a in f.members && t.accelerator == f.members[a].record.accelerator && t.provenance == f.members[a].record.provenance
    && t.evidenceFresh == current && (t.acceptsNewWork <==> f.members[a].record.state == Active)
  }

  ghost predicate ComesFrom(f: Fed, source: Option<AcceleratorId>, s: Option<Source>) {
    match source
    case None => s == None
    case Some(b) =>
      b in f.members && s == Some(Source(f.members[b].descriptor.capabilities, NamedVendor(f.members[b].descriptor.capabilities)))
  }

  /** An evaluation judges the member as it stands now, by the policy in force, with its evidence as
      fresh as it is now, as a move from what the source advertises. */
  lemma DecisionsJudgeMembers(f: Fed, w: WorkloadId, a: AcceleratorId, source: Option<AcceleratorId>, now: int, d: Decision, p: Workload, t: Target, s: Option<Source>)
    requires EvaluateNow(f, w, a, source, now) == Ok(d) && w in f.workloads && p == f.workloads[w].workload
    requires StandsFor(f, a, FreshAt(f, a, now), t) && ComesFrom(f, source, s)
    ensures d.outcome == OutcomeOf(p, f.policy.body, t, f.members[a].descriptor.capabilities, s)
    ensures d.score == ScoreOf(p, f.policy.body, t, f.members[a].descriptor.capabilities, s)
    ensures d.accelerator == t.accelerator && d.portability == ClassFor(p, f.policy.body, f.members[a].descriptor.capabilities, s)
  {
    hide FreshAt, WorkloadValid, PolicyValid, NamedVendor, VendorRendering, OutcomeOf, ScoreOf, ClassFor, SourceFor, ComesFrom, SortReasons, ReasonsFor, LongestExplanation;
    VendorAsNamed(f, source, s);
    var x := ContextFor(f, f.workloads[w], a, source, FreshAt(f, a, now)).target;
    assert d == DecisionFor(p, ContextFor(f, f.workloads[w], a, source, FreshAt(f, a, now)), f.policy, f.members[a].descriptor.capabilities);
    SameJudgement(p, f.policy.body, t, x, f.members[a].descriptor.capabilities, s);
  }

  lemma VendorAsNamed(f: Fed, source: Option<AcceleratorId>, s: Option<Source>)
    requires ComesFrom(f, source, s)
    ensures SourceFor(f, source) == s
  {
    hide NamedVendor, VendorRendering;
    if source.Some? { VendorIsNamed(f.members[source.value].descriptor.capabilities); }
  }

  lemma SameJudgement(w: Workload, p: PolicyBody, t: Target, u: Target, caps: CapabilitySet, s: Option<Source>)
    requires t.accelerator == u.accelerator && t.provenance == u.provenance
    requires t.evidenceFresh == u.evidenceFresh && t.acceptsNewWork == u.acceptsNewWork
    ensures OutcomeOf(w, p, t, caps, s) == OutcomeOf(w, p, u, caps, s) && ScoreOf(w, p, t, caps, s) == ScoreOf(w, p, u, caps, s)
  {
    hide ClassFor, ClassRefused, SomeHardViolated, SomeHardOpen, LookUp;
  }

  /** With a clock that advances, the decision just made is never the one evicted for it. */
  lemma NewestIsKept(f: Fed, w: WorkloadId, a: AcceleratorId, source: Option<AcceleratorId>, now: int, wall: int, kept: set<Decision>, d: Decision)
    requires Inv(f) && Evicted(Cached(f.decisions, Ok(d), wall), kept, f.maxDecisions, true)
    requires forall e :: e in f.decisions && e != d ==> f.decisions[e] < wall
    requires EvaluateNow(f, w, a, source, now) == Ok(d)
    ensures d in EvaluateEffect(f, EvaluateNow(f, w, a, source, now), wall, kept).decisions
  {
    hide MembersOk, WorkloadsOk, PlansOk, DecisionOk, EvaluateNow;
    var all := Cached(f.decisions, Ok(d), wall);
    assert d in all.Keys && |all| == |all.Keys| >= 1;
    assert |kept| >= 1;
    var k :| k in kept;
    assert k in all && (k != d ==> all[k] < all[d]);
  }

  /** After a restart each piece of evidence is of a later generation, unaged and to be revalidated, and
      says what it said before. */
  ghost predicate RestoredFrom(e: EvidenceRecord, o: EvidenceRecord) {
    && e.requiresRevalidation && e.observedAt == 0 && (o.generation < MAX_GENERATION ==> e.generation == o.generation + 1)
    && e.subject == o.subject && e.provenance == o.provenance && e.kind == o.kind && e.payload == o.payload && e.dynamic == o.dynamic
  }

  lemma EvidenceIsRestored(s: Snapshot, c: Config, a: AcceleratorId, i: nat)
    requires a in s.members && i < |s.members[a].descriptor.evidence|
    ensures
      var members := Opened(Some(s), c).members;
      && a in members && |members[a].descriptor.evidence| == |s.members[a].descriptor.evidence|
      && RestoredFrom(members[a].descriptor.evidence[i], s.members[a].descriptor.evidence[i])
  {
    FederationHistory.OpenedMembers(Some(s), c);
    hide Opened;
    assert RecoveredMembers(s)[a].descriptor.evidence[i] == RecoveredEvidence(s.members[a].descriptor.evidence[i]);
  }
}
