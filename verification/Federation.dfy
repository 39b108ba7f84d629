/** The federation as a state machine over values. Every public operation runs under one
    exclusive lock and is one step; what a crash leaves behind is the store. The physical-device
    index is a representation detail of the runtime and does not appear here: every rule is
    stated by looking at all members. */
module Federation {
  import opened Prelude
  import opened Ordering
  import opened Vocabulary
  import opened Capability
  import opened Portability
  import opened Compatibility
  import opened Migration
  import opened StoredForm
  import VersionRange

  // ---- Members ----------------------------------------------------------------------------

  datatype MemberState = Discovered | Observed | Admitted | Active | Degraded | Draining | Fenced | Retired

  predicate LegalTransition(from: MemberState, to: MemberState) {
    match from
    case Discovered => to in {Observed, Fenced, Retired}
    case Observed => to in {Admitted, Fenced, Retired}
    case Admitted => to in {Active, MemberState.Degraded, Draining, Fenced, Retired}
    case Active => to in {MemberState.Degraded, Draining, Fenced, Retired}
    case Degraded => to in {Active, Draining, Fenced, Retired}
    case Draining => to in {Active, Fenced, Retired}
    case Fenced => to in {Observed, Retired}
    case Retired => false
  }

  /** States in which another boot of the same device would be a contradiction. */
  predicate HoldsAuthority(s: MemberState) { s in {Admitted, Active, Draining} }

  datatype EvidenceKind = StaticDescriptor | DynamicObservation | AdapterProbe | Declaration | RecoveryRestore

  /** `payload` is the capability content whose digest the record carries; `shapeOk` is the
      verdict on its adapter and source texts. */
  datatype EvidenceRecord = EvidenceRecord(
    generation: Generation,
    provenance: Provenance,
    kind: EvidenceKind,
    subject: AcceleratorId,
    payload: Option<CapabilitySet>,
    dynamic: bool,
    requiresRevalidation: bool,
    observedAt: int,
    shapeOk: bool)

  predicate EvidenceValid(e: EvidenceRecord) {
    e.shapeOk && (e.provenance == NoEvidence && e.kind != RecoveryRestore ==> e.payload.None?)
  }

  predicate IsFresh(e: EvidenceRecord, now: int, budget: nat) {
    !e.requiresRevalidation && (budget == 0 || now - e.observedAt <= budget)
  }

  /** `shapeOk` is the verdict on node, product, architecture, device and runtime texts. */
  datatype Descriptor = Descriptor(
    id: AcceleratorId,
    physical: PhysicalId,
    agent: AgentId,
    boot: BootId,
    generation: Generation,
    vendorToken: string,
    capabilities: CapabilitySet,
    capabilityGeneration: Generation,
    supportLevel: SupportLevel,
    provenance: Provenance,
    evidence: seq<EvidenceRecord>,
    topology: seq<string>,
    shapeOk: bool)

  const MAX_TOPOLOGY := 64

  /** References are in order, though one may be repeated. */
  predicate TopologyOrdered(ts: seq<string>) { forall i :: 0 < i < |ts| ==> !StringLess(ts[i], ts[i - 1]) }

  predicate VendorAgrees(d: Descriptor) {
    var l := LookUp(d.capabilities, VENDOR);
    l.present && l.state == Supported && l.value.Some? ==> l.value.value.AsToken() == d.vendorToken
  }

  predicate DescriptorValid(d: Descriptor) {
    && d.id != NoAccelerator && d.physical != 0 && d.agent != 0 && d.boot != 0 && d.shapeOk
    && 0 < |d.vendorToken| <= MAX_TOKEN_BYTES && |d.topology| <= MAX_TOPOLOGY && TopologyOrdered(d.topology)
    && CapabilitiesValid(d.capabilities)
    && d.capabilities.records != map[]
    && VendorAgrees(d)
    && (forall i :: 0 <= i < |d.evidence| ==>
          EvidenceValid(d.evidence[i]) && d.evidence[i].subject == d.id && d.evidence[i].provenance == d.provenance)
    && (d.supportLevel == NativeSupport ==> d.provenance == Real && d.evidence != [])
  }

  function DerivedId(d: Descriptor): AcceleratorId { Incarnation(d.physical, d.agent, d.boot, d.generation) }

  /** Of the lifecycle history only the length is kept: the store's decoder bounds it. */
  datatype MemberRecord = MemberRecord(
    federationGeneration: Generation,
    epoch: Generation,
    agent: AgentId,
    boot: BootId,
    accelerator: AcceleratorId,
    physical: PhysicalId,
    deviceGeneration: Generation,
    capabilityGeneration: Generation,
    evidenceGeneration: Generation,
    policyGeneration: PolicyStamp,
    state: MemberState,
    stateGeneration: Generation,
    supportLevel: SupportLevel,
    provenance: Provenance,
    historyLength: nat)

  datatype Member = Member(record: MemberRecord, descriptor: Descriptor)

  function Logged(length: nat): nat { if length + 1 > MAX_HISTORY then MAX_HISTORY else length + 1 }

  // ---- Authority claims -------------------------------------------------------------------

  datatype Claim = Claim(
    checkFederationGeneration: bool, federationGeneration: Generation,
    checkEpoch: bool, epoch: Generation,
    checkAgent: bool, agent: AgentId,
    checkBoot: bool, boot: BootId,
    checkDeviceGeneration: bool, deviceGeneration: Generation,
    checkCapabilityGeneration: bool, capabilityGeneration: Generation,
    checkPolicyGeneration: bool, policyGeneration: PolicyStamp)

  // ---- The live instance and the store ----------------------------------------------------

  datatype Profile = Profile(workload: Workload, revision: Revision)

  /** `durable`: the store is written at all. `eager`: it is written at every accepted mutation. */
  datatype Fed = Fed(
    id: FederationId,
    name: string,
    generation: Generation,
    epoch: Generation,
    policy: Policy,
    members: map<AcceleratorId, Member>,
    workloads: map<WorkloadId, Profile>,
    decisions: map<Decision, int>,
    plans: map<PlanBody, Plan>,
    shutdown: bool,
    durable: bool,
    eager: bool,
    maxDecisions: nat)

  /** Recorded decisions are stored and decoded, but not restored. */
  datatype Snapshot = Snapshot(
    id: FederationId,
    name: string,
    generation: Generation,
    epoch: Generation,
    policy: Policy,
    members: map<AcceleratorId, Member>,
    workloads: map<WorkloadId, Profile>,
    decisions: set<Decision>,
    plans: map<PlanBody, Plan>)

  function SnapshotOf(f: Fed): Snapshot {
    Snapshot(f.id, f.name, f.generation, f.epoch, f.policy, f.members, f.workloads, f.decisions.Keys, f.plans)
  }

  /** The store holds the last snapshot that was written successfully. */
  datatype World = World(disk: Option<Snapshot>, live: Option<Fed>)

  // ---- Authority --------------------------------------------------------------------------

  function Authority(f: Fed, c: Claim): Option<ErrorCode> {
    if f.shutdown then Some(ShutdownInProgress)
    else if c.checkFederationGeneration && c.federationGeneration != f.generation then Some(StaleFederationGeneration)
    else if c.checkEpoch && c.epoch != f.epoch then Some(StaleEpoch)
    else None
  }

  function ScopedAuthority(f: Fed, c: Claim, r: MemberRecord): Option<ErrorCode> {
    if Authority(f, c).Some? then Authority(f, c)
    else if c.checkAgent && c.agent != r.agent then Some(StaleAgent)
    else if c.checkBoot && c.boot != r.boot then Some(StaleBoot)
    else if c.checkDeviceGeneration && c.deviceGeneration != r.deviceGeneration then Some(StaleDeviceGeneration)
    else if c.checkCapabilityGeneration && c.capabilityGeneration != r.capabilityGeneration then Some(StaleCapabilityGeneration)
    else if c.checkPolicyGeneration && c.policyGeneration != f.policy.generation then Some(StalePolicy)
    else None
  }

  // ---- Observe ----------------------------------------------------------------------------

  /** Another live boot already claims the device. */
  predicate DuplicateLive(members: map<AcceleratorId, Member>, d: Descriptor) {
    exists a :: a in members && ConflictsWith(a, members[a], d)
  }

  predicate ConflictsWith(a: AcceleratorId, m: Member, d: Descriptor) {
    a != d.id && m.record.physical == d.physical && HoldsAuthority(m.record.state) && m.record.boot != d.boot
  }

  function ObserveRefusal(f: Fed, d: Descriptor, c: Claim): Option<ErrorCode> {
    if Authority(f, c).Some? then Authority(f, c)
    else if !DescriptorValid(d) then Some(MalformedData)
    else if DerivedId(d) != d.id then Some(IntegrityFailure)
    else if d.boot != c.boot && c.checkBoot then Some(StaleBoot)
    else if DuplicateLive(f.members, d) then Some(DuplicateLiveBoot)
    else if d.id !in f.members then None
    else
      var r := f.members[d.id].record;
      if r.state == Retired then Some(RetiredMember)
      else if r.state == Fenced then Some(FencedMember)
      else if r.boot != d.boot then Some(StaleBoot)
      else None
  }

  /** An earlier incarnation of the same device under the same agent. */
  predicate Supersedes(d: Descriptor, a: AcceleratorId, m: Member) {
    a != d.id && m.record.physical == d.physical && m.record.agent == d.agent && m.record.state != Retired
  }

  function RetiredBy(m: Member): Member {
    var r := m.record;
    m.(record := r.(state := Retired, stateGeneration := Next(r.stateGeneration), historyLength := Logged(r.historyLength)))
  }

  function Superseded(members: map<AcceleratorId, Member>, d: Descriptor): map<AcceleratorId, Member> {
    map a | a in members :: if Supersedes(d, a, members[a]) then RetiredBy(members[a]) else members[a]
  }

  function NewMember(f: Fed, d: Descriptor): Member {
    Member(
      MemberRecord(Next(f.generation), f.epoch, d.agent, d.boot, d.id, d.physical, d.generation,
                   d.capabilityGeneration, 1, f.policy.generation, Observed, 1, d.supportLevel, d.provenance, 2),
      d)
  }

  /** A repeated advertisement. Changed content, by its digest, advances the capability generation;
      unchanged content only refreshes the evidence. */
  function Refreshed(f: Fed, m: Member, d: Descriptor): Member {
    var r := m.record.(
      evidenceGeneration := Next(m.record.evidenceGeneration),
      supportLevel := d.supportLevel,
      provenance := d.provenance,
      policyGeneration := f.policy.generation,
      federationGeneration := Next(f.generation),
      epoch := f.epoch);
    if Content(m.descriptor.capabilities) != Content(d.capabilities) then
      var next := Next(r.capabilityGeneration);
      Member(r.(capabilityGeneration := next, stateGeneration := Next(r.stateGeneration), historyLength := Logged(r.historyLength)),
             d.(capabilityGeneration := next))
    else Member(r, d)
  }

  function ObserveEffect(f: Fed, d: Descriptor): Fed {
    if d.id !in f.members then
      f.(members := Superseded(f.members, d)[d.id := NewMember(f, d)], generation := Next(f.generation))
    else
      f.(members := f.members[d.id := Refreshed(f, f.members[d.id], d)], generation := Next(f.generation))
  }

  // ---- Transition -------------------------------------------------------------------------

  function TransitionRefusal(f: Fed, a: AcceleratorId, target: MemberState, c: Claim): Option<ErrorCode> {
    if Authority(f, c).Some? then Authority(f, c)
    else if a !in f.members then Some(UnknownAccelerator)
    else if ScopedAuthority(f, c, f.members[a].record).Some? then ScopedAuthority(f, c, f.members[a].record)
    else if f.members[a].record.state != target && !LegalTransition(f.members[a].record.state, target) then Some(InvalidTransition)
    else None
  }

  function TransitionEffect(f: Fed, a: AcceleratorId, target: MemberState): Fed {
    if a !in f.members || f.members[a].record.state == target then f
    else
      var m := f.members[a];
      var r := m.record.(
        state := target,
        stateGeneration := Next(m.record.stateGeneration),
        policyGeneration := f.policy.generation,
        historyLength := Logged(m.record.historyLength),
        federationGeneration := Next(f.generation),
        epoch := f.epoch);
      f.(members := f.members[a := m.(record := r)], generation := Next(f.generation))
  }

  // ---- Capability updates -----------------------------------------------------------------

  function UpdateRefusal(f: Fed, a: AcceleratorId, caps: CapabilitySet, e: EvidenceRecord, c: Claim): Option<ErrorCode> {
    if Authority(f, c).Some? then Authority(f, c)
    else if a !in f.members then Some(UnknownAccelerator)
    else
      var r := f.members[a].record;
      if ScopedAuthority(f, c, r).Some? then ScopedAuthority(f, c, r)
      else if r.state == Fenced then Some(FencedMember)
      else if r.state == Retired then Some(RetiredMember)
      else if !CapabilitiesValid(caps) || !EvidenceValid(e) then Some(MalformedData)
      else if e.subject != a || e.provenance != r.provenance || e.payload != Some(Content(caps)) then Some(IntegrityFailure)
      else None
  }

  function Updated(f: Fed, m: Member, caps: CapabilitySet, e: EvidenceRecord): Member {
    var next := Next(m.record.capabilityGeneration);
    Member(
      m.record.(
        capabilityGeneration := next,
        evidenceGeneration := Next(m.record.evidenceGeneration),
        stateGeneration := Next(m.record.stateGeneration),
        policyGeneration := f.policy.generation,
        historyLength := Logged(m.record.historyLength),
        federationGeneration := Next(f.generation),
        epoch := f.epoch),
      m.descriptor.(capabilities := caps, capabilityGeneration := next, evidence := [e]))
  }

  function UpdateEffect(f: Fed, a: AcceleratorId, caps: CapabilitySet, e: EvidenceRecord): Fed {
    if a !in f.members then f
    else f.(members := f.members[a := Updated(f, f.members[a], caps, e)], generation := Next(f.generation))
  }

  // ---- Policy and workloads ---------------------------------------------------------------

  function SetPolicyRefusal(f: Fed, body: PolicyBody, c: Claim): Option<ErrorCode> {
    if Authority(f, c).Some? then Authority(f, c)
    else if !PolicyValid(PolicyOf(body)) then Some(MalformedData)
    else None
  }

  function AbortedFor(p: Plan, why: Reason): Plan {
    if IsTerminal(p.state) then p else p.(state := Aborted, refusals := SortReasons(p.refusals + [why]))
  }

  function AbortAll(plans: map<PlanBody, Plan>, why: Reason): map<PlanBody, Plan> {
    map k | k in plans :: AbortedFor(plans[k], why)
  }

  const POLICY_ADVANCED := Reason(StalePolicy, "policy", Hard, Unknown)
  const AUTHORITY_ADVANCED := Reason(StaleEpoch, "recovery", Hard, Unknown)
  const ABORT_REQUESTED := Reason(Cancelled, "abort", Hard, Unknown)

  function Stamped(members: map<AcceleratorId, Member>, stamp: PolicyStamp): map<AcceleratorId, Member> {
    map a | a in members :: members[a].(record := members[a].record.(policyGeneration := stamp))
  }

  function SetPolicyEffect(f: Fed, body: PolicyBody): Fed {
    f.(policy := PolicyOf(body),
       decisions := map[],
       plans := AbortAll(f.plans, POLICY_ADVANCED),
       members := Stamped(f.members, PolicyOf(body).generation),
       generation := Next(f.generation))
  }

  function DeriveRevision(w: Workload): Revision { RevisionOf(WorkloadPrintOf(w)) }

  /** Identities the caller left out are derived from the workload's name (`nameId`). */
  function StoredProfile(w: Workload, nameId: nat): Profile {
    var v := w.(classId := if w.classId == 0 then nameId else w.classId,
                requirementId := if w.requirementId == 0 then nameId else w.requirementId);
    Profile(v, DeriveRevision(v))
  }

  function RegisterRefusal(f: Fed, w: Workload, nameId: nat, c: Claim): Option<ErrorCode> {
    if Authority(f, c).Some? then Authority(f, c)
    else if !WorkloadValid(StoredProfile(w, nameId).workload) then Some(MalformedData)
    else None
  }

  function RegisterEffect(f: Fed, w: Workload, nameId: nat): Fed {
    var p := StoredProfile(w, nameId);
    f.(workloads := f.workloads[p.workload.classId := p], generation := Next(f.generation))
  }

  // ---- Evaluation -------------------------------------------------------------------------

  predicate EvidenceUsable(e: EvidenceRecord, now: int, budget: nat) {
    !e.requiresRevalidation && (e.dynamic && budget != 0 ==> IsFresh(e, now, budget))
  }

  /** The freshness verdict on a member's evidence. */
  predicate FreshAt(f: Fed, a: AcceleratorId, now: int) {
    a in f.members &&
    var evidence := f.members[a].descriptor.evidence;
    forall i :: 0 <= i < |evidence| ==> EvidenceUsable(evidence[i], now, f.policy.body.freshnessNanos)
  }

  function VendorRendering(caps: CapabilitySet): string {
    match LookUp(caps, VENDOR).value case Some(v) => v.AsToken() case None => ""
  }

  function SourceFor(f: Fed, source: Option<AcceleratorId>): Option<Source> {
    if source.Some? && source.value in f.members then
      var caps := f.members[source.value].descriptor.capabilities;
      Some(Source(caps, VendorRendering(caps)))
    else None
  }

  function ContextFor(f: Fed, p: Profile, a: AcceleratorId, source: Option<AcceleratorId>, current: bool): Context
    requires a in f.members
  {
    var m := f.members[a];
    Context(
      f.id, f.generation, f.epoch, f.policy.generation, Some(f.policy), p.revision,
      Target(m.record.accelerator, m.record.deviceGeneration, m.record.capabilityGeneration, m.record.evidenceGeneration,
             m.record.supportLevel, m.record.provenance, Some(m.descriptor.capabilities), current, m.record.state == Active),
      SourceFor(f, source))
  }

  /** The decision for a given freshness verdict. */
  function EvaluateWith(f: Fed, p: Profile, a: AcceleratorId, source: Option<AcceleratorId>, current: bool): Result<Decision> {
    if a !in f.members then Err(UnknownAccelerator) else Evaluate(p.workload, ContextFor(f, p, a, source, current))
  }

  function EvaluateMember(f: Fed, p: Profile, a: AcceleratorId, source: Option<AcceleratorId>, now: int, sourceMustExist: bool): Result<Decision> {
    if a !in f.members then Err(UnknownAccelerator)
    else if source.Some? && source.value !in f.members && sourceMustExist then Err(UnknownAccelerator)
    else EvaluateWith(f, p, a, source, FreshAt(f, a, now))
  }

  function EvaluateNow(f: Fed, w: WorkloadId, a: AcceleratorId, source: Option<AcceleratorId>, now: int): Result<Decision> {
    if f.shutdown then Err(ShutdownInProgress)
    else if w !in f.workloads then Err(NotFound)
    else EvaluateMember(f, f.workloads[w], a, source, now, true)
  }

  /** What may remain of a cache that must not exceed its bound. When eviction is by age, no
      decision is dropped in favour of an older one. */
  predicate Evicted(all: map<Decision, int>, kept: set<Decision>, bound: nat, byAge: bool) {
    && kept <= all.Keys
    && |kept| == (if |all| <= bound then |all| else bound)
    && (byAge ==> forall dropped, k :: dropped in all && dropped !in kept && k in kept ==> all[dropped] <= all[k])
  }

  function Keep(all: map<Decision, int>, kept: set<Decision>): map<Decision, int> { map d | d in all && d in kept :: all[d] }

  function Cached(decisions: map<Decision, int>, r: Result<Decision>, wall: int): map<Decision, int> {
    match r case Ok(d) => decisions[d := wall] case Err(_) => decisions
  }

  function EvaluateEffect(f: Fed, r: Result<Decision>, wall: int, kept: set<Decision>): Fed {
    f.(decisions := Keep(Cached(f.decisions, r, wall), kept))
  }

  // ---- Currency of decisions --------------------------------------------------------------

  predicate DecisionIsCurrent(f: Fed, d: Decision) {
    && d.federationGeneration == f.generation && d.epoch == f.epoch && d.policyGeneration == f.policy.generation
    && d.accelerator in f.members && d.workload in f.workloads
    && d.deviceGeneration == f.members[d.accelerator].record.deviceGeneration
    && d.capabilityGeneration == f.members[d.accelerator].record.capabilityGeneration
    && d.evidenceGeneration == f.members[d.accelerator].record.evidenceGeneration
    && d.workloadRevision == f.workloads[d.workload].revision
  }

  /** The bulk sweep does not look at evidence generations. */
  predicate SweepKeeps(f: Fed, d: Decision) {
    && d.federationGeneration == f.generation && d.epoch == f.epoch && d.policyGeneration == f.policy.generation
    && d.accelerator in f.members
    && d.deviceGeneration == f.members[d.accelerator].record.deviceGeneration
    && d.capabilityGeneration == f.members[d.accelerator].record.capabilityGeneration
    && d.workload in f.workloads && f.workloads[d.workload].revision == d.workloadRevision
  }

  function SweepEffect(f: Fed): Fed {
    f.(decisions := map d | d in f.decisions && SweepKeeps(f, d) :: f.decisions[d])
  }

  // ---- Migration --------------------------------------------------------------------------

  function EndpointFor(f: Fed, a: AcceleratorId): Endpoint
    requires a in f.members
  {
    var m := f.members[a];
    Endpoint(a, m.record.deviceGeneration, m.record.capabilityGeneration, m.descriptor.capabilities,
             VendorRendering(m.descriptor.capabilities), m.record.provenance)
  }

  /** An endpoint is judged with the other endpoint as its source. */
  function Judged(f: Fed, w: WorkloadId, a: AcceleratorId, other: AcceleratorId, now: int): Result<Decision> {
    if w !in f.workloads then Err(NotFound) else EvaluateMember(f, f.workloads[w], a, Some(other), now, false)
  }

  function PlanRefusal(f: Fed, w: WorkloadId, s: AcceleratorId, d: AcceleratorId, now: int, c: Claim): Option<ErrorCode> {
    if Authority(f, c).Some? then Authority(f, c)
    else if w !in f.workloads then Some(NotFound)
    else if s !in f.members || d !in f.members then Some(UnknownAccelerator)
    else
      match Judged(f, w, s, d, now)
      case Err(e) => Some(e)
      case Ok(_) => match Judged(f, w, d, s, now) case Err(e) => Some(e) case Ok(_) => None
  }

  /** The plan is bound to the generation that planning itself creates. */
  function PlanResult(f: Fed, w: WorkloadId, s: AcceleratorId, d: AcceleratorId, now: int): Result<Plan> {
    var source, destination := Judged(f, w, s, d, now), Judged(f, w, d, s, now);
    if source.Err? then Err(source.code)
    else if destination.Err? then Err(destination.code)
    else
      PlanMigration(MigrationRequest(
        f.id, Next(f.generation), f.epoch, f.policy, EndpointFor(f, s), EndpointFor(f, d),
        f.workloads[w].workload, f.workloads[w].revision, source.value, destination.value))
  }

  function PlanCache(f: Fed, w: WorkloadId, s: AcceleratorId, d: AcceleratorId, now: int, wall: int): map<Decision, int> {
    Cached(Cached(f.decisions, Judged(f, w, s, d, now), wall), Judged(f, w, d, s, now), wall)
  }

  /** A planner error leaves the advanced generation behind. */
  function PlanEffect(f: Fed, w: WorkloadId, s: AcceleratorId, d: AcceleratorId, now: int, wall: int, kept: set<Decision>): Fed {
    match PlanResult(f, w, s, d, now)
    case Err(_) => f.(generation := Next(f.generation))
    case Ok(plan) =>
      f.(generation := Next(f.generation),
         plans := f.plans[plan.body := plan],
         decisions := Keep(PlanCache(f, w, s, d, now, wall), kept))
  }

  /** The endpoints are still the incarnations and capability sets the plan names. */
  predicate EndpointsMatch(f: Fed, b: PlanBody) {
    && b.source in f.members && b.destination in f.members
    && f.members[b.source].record.deviceGeneration == b.sourceGeneration
    && f.members[b.destination].record.deviceGeneration == b.destinationGeneration
    && f.members[b.source].record.capabilityGeneration == b.sourceCapabilityGeneration
    && f.members[b.destination].record.capabilityGeneration == b.destinationCapabilityGeneration
  }

  function AdvanceRefusal(f: Fed, k: PlanBody, target: MigrationState, c: Claim): Option<ErrorCode> {
    if Authority(f, c).Some? then Authority(f, c)
    else if k !in f.plans then Some(NotFound)
    else if c.checkPolicyGeneration && c.policyGeneration != f.policy.generation then Some(StalePolicy)
    else
      var p := f.plans[k];
      if p.body.epoch != f.epoch || p.body.policyGeneration != f.policy.generation then Some(StaleMigration)
      else if !EndpointsMatch(f, p.body) then Some(StaleMigration)
      else if p.state != target && !LegalMigration(p.state, target) then Some(InvalidTransition)
      else None
  }

  /** At commit the source stops accepting new work. This history entry is not bounded. */
  function Drained(m: Member): Member {
    var r := m.record;
    if r.state == Active || r.state == MemberState.Degraded then
      m.(record := r.(state := Draining, stateGeneration := Next(r.stateGeneration), historyLength := r.historyLength + 1))
    else m
  }

  function AdvanceEffect(f: Fed, k: PlanBody, target: MigrationState): Fed {
    if k !in f.plans || f.plans[k].state == target then f
    else
      var p := f.plans[k];
      var s := p.body.source;
      f.(plans := f.plans[k := p.(state := target)],
         members := if target == Committed && s in f.members then f.members[s := Drained(f.members[s])] else f.members,
         generation := Next(f.generation))
  }

  function AbortRefusal(f: Fed, k: PlanBody, c: Claim): Option<ErrorCode> {
    if Authority(f, c).Some? then Authority(f, c)
    else if k !in f.plans then Some(NotFound)
    else if IsTerminal(f.plans[k].state) then Some(InvalidTransition)
    else None
  }

  /** The caller explains the abort in a text of any length. */
  function AbortedBy(p: Plan, text: nat): Plan { AbortedFor(p, ABORT_REQUESTED).(abortText := text) }

  function AbortEffect(f: Fed, k: PlanBody, text: nat): Fed {
    if k !in f.plans then f
    else f.(plans := f.plans[k := AbortedBy(f.plans[k], text)], generation := Next(f.generation))
  }

  // ---- Opening and recovery ---------------------------------------------------------------

  /** `id` is the identity the instance runs under, configured or generated. */
  datatype Config = Config(id: FederationId, name: string, policy: Policy, durable: bool, eager: bool, maxDecisions: nat)

  const PERMISSIVE_POLICY :=
    PolicyBody("default", [], [], [], [], [], 0, AllowSynthetic, false, [], [], [], false, true, false, 0, [])

  function BoundOf(c: Config): nat { if c.maxDecisions == 0 then 1 else c.maxDecisions }

  function FreshFed(c: Config): Fed {
    Fed(c.id, c.name, 1, 1, if c.policy.id == Assigned(0) then PolicyOf(PERMISSIVE_POLICY) else c.policy,
        map[], map[], map[], map[], false, c.durable, c.eager, BoundOf(c))
  }

  /** Authority of the previous epoch is dead: whatever was live comes back degraded. */
  function RecoveredState(s: MemberState): MemberState {
    if s in {Active, Admitted, MemberState.Degraded, Draining} then MemberState.Degraded else s
  }

  function RecoveredEvidence(e: EvidenceRecord): EvidenceRecord {
    e.(requiresRevalidation := true, observedAt := 0, generation := Next(e.generation))
  }

  function RecoveredDescriptor(d: Descriptor): Descriptor {
    d.(capabilities := Content(d.capabilities),
       evidence := seq(|d.evidence|, i requires 0 <= i < |d.evidence| => RecoveredEvidence(d.evidence[i])))
  }

  function RecoveredMember(m: Member, epoch: Generation, generation: Generation): Member {
    var r := m.record;
    Member(
      r.(state := RecoveredState(r.state), epoch := epoch, federationGeneration := generation,
         stateGeneration := Next(r.stateGeneration), historyLength := Logged(r.historyLength)),
      RecoveredDescriptor(m.descriptor))
  }

  function RecoveredMembers(s: Snapshot): map<AcceleratorId, Member> {
    map a | a in s.members :: RecoveredMember(s.members[a], Next(s.epoch), Next(s.generation))
  }

  function RecoveredProfile(p: Profile): Profile { Profile(StoredWorkload(p.workload), p.revision) }

  function RecoveredWorkloads(s: Snapshot): map<WorkloadId, Profile> {
    map w | w in s.workloads :: RecoveredProfile(s.workloads[w])
  }

  function RecoveredPolicy(p: Policy): Policy { match DecodedPolicy(p) case Some(q) => q case None => p }

  function Recovered(s: Snapshot, c: Config): Fed {
    Fed(s.id, if s.name == "" then c.name else s.name, Next(s.generation), Next(s.epoch), RecoveredPolicy(s.policy),
        RecoveredMembers(s), RecoveredWorkloads(s), map[], AbortAll(s.plans, AUTHORITY_ADVANCED),
        false, c.durable, c.eager, BoundOf(c))
  }

  // ---- What the decoder of the store accepts ----------------------------------------------

  const MAX_STORED: nat := 1_000_000
  const MAX_DESCRIPTION := 8192

  /** The decoder wants the references strictly in order, and short. */
  predicate TopologyFits(ts: seq<string>) {
    && (forall i :: 0 <= i < |ts| ==> |ts[i]| <= MAX_NAME_BYTES)
    && (forall i :: 0 < i < |ts| ==> StringLess(ts[i - 1], ts[i]))
  }

  predicate DescriptorFits(d: Descriptor) { TopologyFits(d.topology) && AdvertisementFits(d.capabilities) }

  predicate MemberDecodes(m: Member) {
    && m.record.historyLength <= MAX_HISTORY
    && m.record.accelerator != NoAccelerator && m.record.agent != 0
    && DescriptorValid(m.descriptor) && DescriptorFits(m.descriptor)
  }

  predicate ProfileDecodes(p: Profile) { WorkloadValid(p.workload) && WorkloadFits(p.workload) }

  predicate PolicyReadable(p: Policy) { VersionRange.Formed(p.body.minimumRuntime) && DecodedPolicy(p).Some? }

  /** Subjects of reasons are keys and tags, which validation has bounded already. */
  predicate DecisionFits(d: Decision) { d.longestText <= MAX_DESCRIPTION }

  predicate PlanFits(p: Plan) { p.abortText <= MAX_DESCRIPTION }

  predicate MembersDecode(members: map<AcceleratorId, Member>) {
    |members| <= MAX_STORED && forall a :: a in members ==> MemberDecodes(members[a])
  }

  predicate WorkloadsDecode(workloads: map<WorkloadId, Profile>) {
    |workloads| <= MAX_STORED && forall w :: w in workloads ==> ProfileDecodes(workloads[w])
  }

  predicate DecisionsDecode(decisions: set<Decision>) { |decisions| <= MAX_STORED && forall d :: d in decisions ==> DecisionFits(d) }

  predicate PlansDecode(plans: map<PlanBody, Plan>) { |plans| <= MAX_STORED && forall k :: k in plans ==> PlanFits(plans[k]) }

  predicate Decodes(s: Snapshot) {
    && |s.name| <= MAX_NAME_BYTES && PolicyReadable(s.policy)
    && MembersDecode(s.members) && WorkloadsDecode(s.workloads) && DecisionsDecode(s.decisions) && PlansDecode(s.plans)
  }

  function OpenRefusal(disk: Option<Snapshot>, c: Config): Option<ErrorCode> {
    match disk
    case None => None
    case Some(s) => if !Decodes(s) then Some(MalformedData) else if s.id != c.id then Some(IntegrityFailure) else None
  }

  function Opened(disk: Option<Snapshot>, c: Config): Fed {
    match disk case None => FreshFed(c) case Some(s) => Recovered(s, c)
  }

  // ---- Steps ------------------------------------------------------------------------------

  /** One public operation with the inputs it takes from outside: the monotonic clock `now`,
      the wall clock `wall`, and which decisions a full cache happens to keep. */
  datatype Op =
    | Observe(d: Descriptor, claim: Claim)
    | Transition(a: AcceleratorId, target: MemberState, claim: Claim)
    | UpdateCapabilities(a: AcceleratorId, caps: CapabilitySet, evidence: EvidenceRecord, claim: Claim)
    | SetPolicy(body: PolicyBody, claim: Claim)
    | RegisterWorkload(profile: Workload, nameId: nat, claim: Claim)
    | EvaluateOp(w: WorkloadId, a: AcceleratorId, source: Option<AcceleratorId>, now: int, wall: int, kept: set<Decision>)
    | InvalidateStale
    | Plan(w: WorkloadId, s: AcceleratorId, dest: AcceleratorId, now: int, wall: int, claim: Claim, kept: set<Decision>)
    | Advance(k: PlanBody, to: MigrationState, claim: Claim)
    | Abort(k: PlanBody, text: nat, claim: Claim)
    | Persist
    | Shutdown

  /** Why an operation is refused, if it is; a refused operation changes nothing. */
  function Refusal(f: Fed, op: Op): Option<ErrorCode> {
    match op
    case Observe(d, c) => ObserveRefusal(f, d, c)
    case Transition(a, target, c) => TransitionRefusal(f, a, target, c)
    case UpdateCapabilities(a, caps, e, c) => UpdateRefusal(f, a, caps, e, c)
    case SetPolicy(body, c) => SetPolicyRefusal(f, body, c)
    case RegisterWorkload(w, nameId, c) => RegisterRefusal(f, w, nameId, c)
    case EvaluateOp(w, a, source, now, _, _) =>
      (match EvaluateNow(f, w, a, source, now) case Ok(_) => None case Err(e) => Some(e))
    case Plan(w, s, d, now, _, c, _) => PlanRefusal(f, w, s, d, now, c)
    case Advance(k, to, c) => AdvanceRefusal(f, k, to, c)
    case Abort(k, _, c) => AbortRefusal(f, k, c)
    case InvalidateStale | Persist | Shutdown => None
  }

  /** What an accepted operation does; of a refused one it says nothing that matters. */
  function Effect(f: Fed, op: Op): Fed {
    match op
    case Observe(d, _) => ObserveEffect(f, d)
    case Transition(a, target, _) => TransitionEffect(f, a, target)
    case UpdateCapabilities(a, caps, e, _) => UpdateEffect(f, a, caps, e)
    case SetPolicy(body, _) => SetPolicyEffect(f, body)
    case RegisterWorkload(w, nameId, _) => RegisterEffect(f, w, nameId)
    case EvaluateOp(w, a, source, now, wall, kept) => EvaluateEffect(f, EvaluateNow(f, w, a, source, now), wall, kept)
    case InvalidateStale => SweepEffect(f)
    case Plan(w, s, d, now, wall, _, kept) => PlanEffect(f, w, s, d, now, wall, kept)
    case Advance(k, to, _) => AdvanceEffect(f, k, to)
    case Abort(k, text, _) => AbortEffect(f, k, text)
    case Persist => f
    case Shutdown => f.(shutdown := true)
  }

  function After(f: Fed, op: Op): Fed { if Refusal(f, op).Some? then f else Effect(f, op) }

  /** The decisions named by a full cache's choice are a legal choice. */
  predicate Enabled(f: Fed, op: Op) {
    Refusal(f, op).None? ==>
      match op
      case EvaluateOp(w, a, source, now, wall, kept) =>
        Evicted(Cached(f.decisions, EvaluateNow(f, w, a, source, now), wall), kept, f.maxDecisions, true)
      case Plan(w, s, d, now, wall, _, kept) =>
        PlanResult(f, w, s, d, now).Ok? ==> Evicted(PlanCache(f, w, s, d, now, wall), kept, f.maxDecisions, false)
      case _ => true
  }

  /** Whether an accepted operation goes on to write the store. */
  predicate Writes(f: Fed, op: Op) {
    match op
    case Transition(a, target, _) => a in f.members && f.members[a].record.state != target
    case Plan(w, s, d, now, _, _, _) => PlanResult(f, w, s, d, now).Ok?
    case Advance(k, to, _) => k in f.plans && f.plans[k].state != to
    case InvalidateStale => SweepEffect(f).decisions != f.decisions
    case Shutdown => !f.shutdown
    case _ => true
  }

  /** The store after an operation: the new state if a write was attempted and succeeded. */
  function DiskAfter(disk: Option<Snapshot>, f: Fed, op: Op, writeOk: bool): Option<Snapshot> {
    if Refusal(f, op).None? && Writes(f, op) && f.durable && (f.eager || op.Persist?) && writeOk
    then Some(SnapshotOf(After(f, op)))
    else disk
  }

  datatype Event =
    | Run(op: Op, writeOk: bool)
    | Open(config: Config, writeOk: bool)

  /** Opening publishes the recovered state before it succeeds; a failed write fails the open. */
  function OpenStep(disk: Option<Snapshot>, c: Config, writeOk: bool): World {
    if OpenRefusal(disk, c).Some? then World(disk, None)
    else
      var f := Opened(disk, c);
      if !f.durable || !f.eager then World(disk, Some(f))
      else if writeOk then World(Some(SnapshotOf(f)), Some(f))
      else World(disk, None)
  }

  predicate StepEnabled(w: World, e: Event) {
    match e
    case Run(op, _) => (match w.live case None => false case Some(f) => Enabled(f, op))
    case Open(_, _) => true
  }

  function NextWorld(w: World, e: Event): World {
    match e
    case Run(op, writeOk) =>
      (match w.live case None => w case Some(f) => World(DiskAfter(w.disk, f, op, writeOk), Some(After(f, op))))
    case Open(c, writeOk) => OpenStep(w.disk, c, writeOk)
  }
}
