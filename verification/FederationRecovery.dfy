/** What survives a restart, and what must not. */
module FederationRecovery {
  import opened Prelude
  import opened Capability
  import opened Portability
  import opened Compatibility
  import opened CompatibilityTheorems
  import opened Migration
  import opened Federation
  import opened FederationInvariants
  import opened FederationSteps
  import opened FederationRuns
  import opened FederationHistory

  // ---- Epochs -----------------------------------------------------------------------------

  predicate EagerEvent(e: Event) { match e case Open(c, _) => c.durable && c.eager case Run(_, _) => true }

  /** Every instance writes at every mutation; writes may still fail. */
  ghost predicate DurableEager(es: seq<Event>) { forall i :: 0 <= i < |es| ==> EagerEvent(es[i]) }

  ghost predicate OpenAt(es: seq<Event>, i: int) { 0 <= i < |es| && es[i].Open? }

  ghost predicate EpochStored(w: World) {
    w.live.Some? ==> w.disk.Some? && w.disk.value.epoch == w.live.value.epoch
  }

  ghost predicate EpochsOrdered(a: Option<Snapshot>, b: Option<Snapshot>) {
    a.Some? ==> b.Some? && a.value.epoch <= b.value.epoch
  }

  ghost predicate InEpoch(f: Option<Fed>, epoch: Generation) { f.Some? && f.value.epoch == epoch }

  /** A successful open begins the epoch after the stored one. */
  ghost predicate Renewed(disk: Option<Snapshot>, f: Option<Fed>) { disk.Some? && f.Some? ==> f.value.epoch == Next(disk.value.epoch) }

  lemma EpochRun(w: World, op: Op, writeOk: bool, v: World, f: Fed)
    requires IsStep(w, Run(op, writeOk), v) && w.live == Some(f) && EpochStored(w)
    ensures EpochStored(v) && EpochsOrdered(w.disk, v.disk) && InEpoch(v.live, f.epoch)
  {
    hide IsStep, After, Enabled;
    OperationStep(w, op, writeOk, v, f);
    StepVersioned(f, op);
  }

  lemma EpochOpen(w: World, c: Config, writeOk: bool, v: World)
    requires IsStep(w, Open(c, writeOk), v) && c.durable && c.eager
    ensures EpochStored(v) && EpochsOrdered(w.disk, v.disk)
    ensures Renewed(w.disk, v.live)
  {
    hide IsStep, OpenRefusal, Opened;
    ReopenStep(w, c, writeOk, v);
    OpenedEpoch(w.disk, c);
  }

  lemma OpenedEpoch(disk: Option<Snapshot>, c: Config)
    ensures match disk case Some(s) => Opened(disk, c).epoch == Next(s.epoch) case None => true
  {
  }

  lemma {:induction false} StoredEpochsGrow(ws: seq<World>, es: seq<Event>, i: nat, j: nat)
    requires IsRun(ws, es) && DurableEager(es) && i <= j < |ws|
    ensures EpochStored(At(ws, i)) && EpochStored(At(ws, j)) && EpochsOrdered(At(ws, i).disk, At(ws, j).disk)
    decreases j
  {
    hide IsStep;
    if j > 0 {
      StoredEpochsGrow(ws, es, if i < j then i else j - 1, j - 1);
      assert IsStep(ws[j - 1], es[j - 1], ws[j - 1 + 1]) && EagerEvent(es[j - 1]);
      match es[j - 1]
      case Run(op, writeOk) =>
        OperationRuns(ws[j - 1], op, writeOk, ws[j]);
        EpochRun(ws[j - 1], op, writeOk, ws[j], ws[j - 1].live.value);
      case Open(c, writeOk) => EpochOpen(ws[j - 1], c, writeOk, ws[j]);
    }
  }

  /** Every successful reopen has a strictly larger epoch than anything that ran before it. */
  lemma {:induction false} EpochsRise(ws: seq<World>, es: seq<Event>, i: nat, m: nat, j: nat, f: Fed, g: Fed)
    requires IsRun(ws, es) && DurableEager(es) && EpochsRemain(ws) && i <= m < j && OpenAt(es, m)
    requires LiveAt(ws, i, f) && LiveAt(ws, j, g)
    ensures f.epoch < g.epoch
    decreases j
  {
    hide IsStep;
    StepTo(ws, es, j, g);
    StoredEpochsGrow(ws, es, i, j - 1);
    match es[j - 1]
    case Run(op, writeOk) =>
      EpochRun(ws[j - 1], op, writeOk, ws[j], ws[j - 1].live.value);
      EpochsRise(ws, es, i, m, j - 1, f, ws[j - 1].live.value);
    case Open(c, writeOk) =>
      assert EagerEvent(es[j - 1]);
      EpochOpen(ws[j - 1], c, writeOk, ws[j]);
  }

  // ---- Authority issued before a restart is dead ------------------------------------------

  function ClaimOf(op: Op): Option<Claim> {
    match op
    case Observe(_, c) => Some(c)
    case Transition(_, _, c) => Some(c)
    case UpdateCapabilities(_, _, _, c) => Some(c)
    case SetPolicy(_, c) => Some(c)
    case RegisterWorkload(_, _, c) => Some(c)
    case Plan(_, _, _, _, _, c, _) => Some(c)
    case Advance(_, _, c) => Some(c)
    case Abort(_, _, c) => Some(c)
    case EvaluateOp(_, _, _, _, _, _) | InvalidateStale | Persist | Shutdown => None
  }

  /** The operation insists on this epoch. */
  predicate ClaimsEpoch(op: Op, epoch: Generation) {
    match ClaimOf(op) case Some(c) => c.checkEpoch && c.epoch == epoch case None => false
  }

  lemma WrongEpochIsRefused(f: Fed, op: Op, epoch: Generation)
    requires ClaimsEpoch(op, epoch) && epoch != f.epoch
    ensures Refusal(f, op).Some? && After(f, op) == f
  {
    hide DescriptorValid, DuplicateLive, ScopedAuthority, CapabilitiesValid, EvidenceValid, PolicyValid, StoredProfile, Judged, EndpointsMatch, LegalMigration;
    hide Effect;
  }

  /** An operation that checks the epoch with a claim issued before a restart is refused by
      every instance that runs after it. */
  lemma StaleClaimsAreRefused(ws: seq<World>, es: seq<Event>, i: nat, m: nat, j: nat, f: Fed, g: Fed, op: Op, epoch: Generation)
    requires IsRun(ws, es) && DurableEager(es) && EpochsRemain(ws) && i <= m < j && OpenAt(es, m)
    requires LiveAt(ws, i, f) && LiveAt(ws, j, g) && ClaimsEpoch(op, epoch) && epoch <= f.epoch
    ensures Refusal(g, op).Some? && After(g, op) == g
  {
    hide IsRun, Refusal, After;
    EpochsRise(ws, es, i, m, j, f, g);
    WrongEpochIsRefused(g, op, epoch);
  }

  // ---- Nothing is eligible until something is activated -----------------------------------

  ghost predicate NoneActive(f: Fed) { forall a :: a in f.members ==> f.members[a].record.state != Active }

  ghost predicate AllTerminal(plans: map<PlanBody, Plan>) { forall k :: k in plans ==> IsTerminal(plans[k].state) }

  lemma RecoveryIsConservative(disk: Option<Snapshot>, c: Config)
    ensures NoneActive(Opened(disk, c)) && Opened(disk, c).decisions == map[] && AllTerminal(Opened(disk, c).plans)
    ensures match disk case Some(s) => Opened(disk, c).members.Keys == s.members.Keys case None => true
  {
    hide SortReasons, RecoveredEvidence, RecoveredWorkloads, RecoveredPolicy;
  }

  lemma IdleFederationIsIneligible(f: Fed, p: Profile, a: AcceleratorId, source: Option<AcceleratorId>, now: int, mustExist: bool, d: Decision)
    requires NoneActive(f) && EvaluateMember(f, p, a, source, now, mustExist) == Ok(d)
    ensures d.outcome == Ineligible
  {
    hide OutcomeOf, WorkloadValid, PolicyValid, ScoreOf, ReasonsFor, ClassFor, FreshAt, SourceFor, LongestExplanation;
    var c := ContextFor(f, p, a, source, FreshAt(f, a, now));
    IdleMemberIsIneligible(p.workload, c.policy.value.body, c.target, c.target.capabilities.value, c.source);
  }

  lemma NoneActiveStep(f: Fed, op: Op)
    requires Inv(f) && NoneActive(f) && !(Activates(op) && Refusal(f, op).None?)
    ensures NoneActive(After(f, op))
  {
    hide Inv, After, Refusal, LegalTransition, Evolves, Touches;
    forall a | a in After(f, op).members
      ensures After(f, op).members[a].record.state != Active
    {
      if a in f.members {
        EveryMemberSteps(f, op, a);
        if Refusal(f, op).Some? { RefusedKeeps(f, op); }
      } else {
        NewMembersAreObserved(f, op, a);
      }
    }
  }

  lemma RefusedKeeps(f: Fed, op: Op)
    requires Refusal(f, op).Some?
    ensures After(f, op) == f
  {
    hide Refusal, Effect;
  }

  /** The member was just observed for the first time. */
  ghost predicate JustObserved(op: Op, g: Fed, a: AcceleratorId) {
    && a in g.members && g.members[a].record.state == Observed
    && match op case Observe(d, _) => d.id == a && g.members[a].descriptor == d case _ => false
  }

  lemma ObservedMember(f: Fed, d: Descriptor, c: Claim, a: AcceleratorId)
    requires a in ObserveEffect(f, d).members && a !in f.members
    ensures JustObserved(Observe(d, c), ObserveEffect(f, d), a)
  {
    hide Superseded, Refreshed;
    SupersededKeys(f.members, d);
  }

  lemma NewMembersAreObserved(f: Fed, op: Op, a: AcceleratorId)
    requires a in After(f, op).members && a !in f.members
    ensures Refusal(f, op).None? && JustObserved(op, After(f, op), a)
  {
    hide Refusal, ObserveEffect, TransitionEffect, UpdateEffect, SetPolicyEffect, RegisterEffect, EvaluateEffect, EvaluateNow, SweepEffect;
    hide PlanEffect, AdvanceEffect, AbortEffect;
    EffectLeaves(f, op);
    match op
    case Observe(d, c) => ObservedMember(f, d, c, a);
    case _ =>
  }

  /** Some member is activated at this point. */
  ghost predicate ActivationAt(ws: seq<World>, es: seq<Event>, m: int) {
    exists f, op :: Accepts(At(ws, m), EventAt(es, m), f, op) && Activates(op)
  }

  ghost predicate Idle(f: Option<Fed>) { f.Some? && NoneActive(f.value) }

  lemma {:induction false} NothingActiveBeforeActivation(ws: seq<World>, es: seq<Event>, i: nat, j: nat)
    requires IsRun(ws, es) && EpochsRemain(ws) && i < j && OpenAt(es, i) && At(ws, i + 1).live.Some? && InProcess(es, i + 1, j)
    requires forall m :: i < m < j ==> !ActivationAt(ws, es, m)
    ensures Idle(At(ws, j).live)
    decreases j
  {
    hide IsStep, Opened, After, WorldInv, Inv, Refusal, Enabled, OpenRefusal, SnapshotOf;
    assert IsStep(ws[j - 1], es[j - 1], ws[j - 1 + 1]);
    if j == i + 1 {
      ReopenStep(ws[i], es[i].config, es[i].writeOk, ws[j]);
      RecoveryIsConservative(ws[i].disk, es[i].config);
    } else {
      NothingActiveBeforeActivation(ws, es, i, j - 1);
      var f, op := ws[j - 1].live.value, es[j - 1].op;
      LiveInv(ws, es, j - 1, f);
      OperationStep(ws[j - 1], op, es[j - 1].writeOk, ws[j], f);
      assert Accepts(At(ws, j - 1), EventAt(es, j - 1), f, op) == Refusal(f, op).None?;
      assert !ActivationAt(ws, es, j - 1);
      NoneActiveStep(f, op);
    }
  }

  /** From a successful open until some member is activated, every evaluation that returns a
      decision finds the member ineligible. */
  lemma NothingEligibleBeforeActivation(ws: seq<World>, es: seq<Event>, i: nat, j: nat, f: Fed,
                                        w: WorkloadId, a: AcceleratorId, source: Option<AcceleratorId>, now: int, d: Decision)
    requires IsRun(ws, es) && EpochsRemain(ws) && i < j && OpenAt(es, i) && At(ws, i + 1).live.Some? && InProcess(es, i + 1, j)
    requires forall m :: i < m < j ==> !ActivationAt(ws, es, m)
    requires LiveAt(ws, j, f) && EvaluateNow(f, w, a, source, now) == Ok(d)
    ensures d.outcome == Ineligible
  {
    hide IsRun, EvaluateMember, ActivationAt;
    NothingActiveBeforeActivation(ws, es, i, j);
    IdleFederationIsIneligible(f, f.workloads[w], a, source, now, true, d);
  }

  // ---- Restored evidence stays unusable ---------------------------------------------------

  ghost predicate NeedsRevalidation(m: Member) {
    m.descriptor.evidence != [] && forall i :: 0 <= i < |m.descriptor.evidence| ==> m.descriptor.evidence[i].requiresRevalidation
  }

  ghost predicate MustRevalidate(f: Fed, a: AcceleratorId) { a in f.members && NeedsRevalidation(f.members[a]) }

  ghost predicate HasHardDynamic(w: Workload) {
    exists i :: 0 <= i < |w.requirements| && w.requirements[i].strength == Hard && IsDynamic(w.requirements[i].capability)
  }

  ghost predicate StoredWithEvidence(disk: Option<Snapshot>, a: AcceleratorId) {
    disk.Some? && a in disk.value.members && disk.value.members[a].descriptor.evidence != []
  }

  /** The running instance must revalidate the member, and the store would bring it back so. */
  ghost predicate Quarantined(w: World, a: AcceleratorId) {
    (w.live.Some? ==> MustRevalidate(w.live.value, a)) && StoredWithEvidence(w.disk, a)
  }

  lemma RecoveredNeedsRevalidation(disk: Option<Snapshot>, c: Config, a: AcceleratorId)
    requires StoredWithEvidence(disk, a)
    ensures MustRevalidate(Opened(disk, c), a) && StoredWithEvidence(Some(SnapshotOf(Opened(disk, c))), a)
  {
    OpenedMembers(disk, c);
    hide Opened, RecoveredMember;
    var s := disk.value;
    RestoredEvidence(s.members[a], Next(s.epoch), Next(s.generation));
  }

  lemma RestoredEvidence(m: Member, epoch: Generation, generation: Generation)
    requires m.descriptor.evidence != []
    ensures NeedsRevalidation(RecoveredMember(m, epoch, generation))
  {
    hide RecoveredState;
    var evidence := RecoveredMember(m, epoch, generation).descriptor.evidence;
    assert |evidence| == |m.descriptor.evidence|;
  }

  lemma QuarantineRun(w: World, op: Op, writeOk: bool, v: World, f: Fed, a: AcceleratorId)
    requires IsStep(w, Run(op, writeOk), v) && w.live == Some(f) && Quarantined(w, a) && !Touches(f, op, a)
    ensures Quarantined(v, a)
  {
    hide IsStep, After, Enabled, Touches, Evolves, StateEdge;
    OperationStep(w, op, writeOk, v, f);
    EveryMemberSteps(f, op, a);
  }

  lemma QuarantineOpen(w: World, c: Config, writeOk: bool, v: World, a: AcceleratorId)
    requires IsStep(w, Open(c, writeOk), v) && StoredWithEvidence(w.disk, a)
    ensures Quarantined(v, a)
  {
    hide IsStep, Opened, OpenRefusal, MustRevalidate, StoredWithEvidence, SnapshotOf;
    ReopenStep(w, c, writeOk, v);
    RecoveredNeedsRevalidation(w.disk, c, a);
  }

  lemma QuarantinedIsNeverEligible(f: Fed, p: Profile, a: AcceleratorId, source: Option<AcceleratorId>, now: int, mustExist: bool, d: Decision)
    requires MustRevalidate(f, a) && HasHardDynamic(p.workload) && EvaluateMember(f, p, a, source, now, mustExist) == Ok(d)
    ensures d.outcome != Eligible
  {
    hide OutcomeOf, WorkloadValid, PolicyValid, ScoreOf, ReasonsFor, ClassFor, SourceFor, IsDynamic, LongestExplanation;
    var e := f.members[a].descriptor.evidence[0];
    assert !EvidenceUsable(e, now, f.policy.body.freshnessNanos);
    assert !FreshAt(f, a, now);
    var c := ContextFor(f, p, a, source, false);
    var i :| 0 <= i < |p.workload.requirements| && p.workload.requirements[i].strength == Hard && IsDynamic(p.workload.requirements[i].capability);
    StaleEvidenceIsNeverEligible(p.workload, c.policy.value.body, c.target, c.target.capabilities.value, c.source, p.workload.requirements[i]);
  }

  /** An advertisement of the member is accepted at this point. */
  ghost predicate TouchedAt(ws: seq<World>, es: seq<Event>, m: int, a: AcceleratorId) {
    exists f, op :: Accepts(At(ws, m), EventAt(es, m), f, op) && Advertises(op, a)
  }

  /** A member restored with evidence stays quarantined through any transitions and any further
      restarts, until an observation or a capability update for it is accepted. */
  lemma {:induction false} RestoredEvidenceStaysQuarantined(ws: seq<World>, es: seq<Event>, i: nat, j: nat, a: AcceleratorId)
    requires IsRun(ws, es) && i < j < |ws| && OpenAt(es, i) && StoredWithEvidence(At(ws, i).disk, a)
    requires forall m :: i < m < j ==> !TouchedAt(ws, es, m, a)
    ensures Quarantined(At(ws, j), a)
    decreases j
  {
    hide IsStep, Refusal, Quarantined, StoredWithEvidence;
    assert IsStep(ws[j - 1], es[j - 1], ws[j - 1 + 1]);
    if j == i + 1 {
      QuarantineOpen(ws[i], es[i].config, es[i].writeOk, ws[j], a);
    } else {
      RestoredEvidenceStaysQuarantined(ws, es, i, j - 1, a);
      match es[j - 1]
      case Run(op, writeOk) =>
        OperationRuns(ws[j - 1], op, writeOk, ws[j]);
        var f := ws[j - 1].live.value;
        assert Accepts(At(ws, j - 1), EventAt(es, j - 1), f, op) == Refusal(f, op).None?;
        assert !TouchedAt(ws, es, j - 1, a);
        QuarantineRun(ws[j - 1], op, writeOk, ws[j], f, a);
      case Open(c, writeOk) =>
        QuarantinedIsStored(ws[j - 1], a);
        QuarantineOpen(ws[j - 1], c, writeOk, ws[j], a);
    }
  }

  lemma QuarantinedIsStored(w: World, a: AcceleratorId)
    requires Quarantined(w, a)
    ensures StoredWithEvidence(w.disk, a)
  {
  }

  /** Until then it is never eligible for a workload with a hard requirement on a decaying
      capability. */
  lemma RestoredEvidenceIsNeverEligible(ws: seq<World>, es: seq<Event>, i: nat, j: nat, a: AcceleratorId, f: Fed,
                                        w: WorkloadId, p: Profile, source: Option<AcceleratorId>, now: int, d: Decision)
    requires IsRun(ws, es) && i < j && OpenAt(es, i) && StoredWithEvidence(At(ws, i).disk, a) && LiveAt(ws, j, f)
    requires forall m :: i < m < j ==> !TouchedAt(ws, es, m, a)
    requires Registered(f, w, p) && HasHardDynamic(p.workload) && EvaluateNow(f, w, a, source, now) == Ok(d)
    ensures d.outcome != Eligible
  {
    hide IsRun, EvaluateMember, TouchedAt, MustRevalidate, HasHardDynamic;
    RestoredEvidenceStaysQuarantined(ws, es, i, j, a);
    QuarantinedIsNeverEligible(f, p, a, source, now, true, d);
  }
}
