/** Migration plans followed through whole runs. */
module PlanHistory {
  import opened Prelude
  import opened Capability
  import opened Portability
  import opened Compatibility
  import opened Migration
  import opened Federation
  import opened FederationInvariants
  import opened FederationSteps
  import opened FederationRuns
  import opened FederationHistory

  // ---- Plans belong to the process that made them -----------------------------------------

  ghost predicate Holds(w: World, k: PlanBody) { w.live.Some? && k in w.live.value.plans }

  /** Reopening leaves no plan of the new epoch: what was terminal stays, the rest is aborted. */
  ghost predicate ReopenedPlan(disk: Option<Snapshot>, f: Fed, k: PlanBody) {
    && disk.Some? && k in disk.value.plans && k in f.plans && k.epoch < f.epoch && IsTerminal(f.plans[k].state)
    && (if IsTerminal(disk.value.plans[k].state) then f.plans[k] == disk.value.plans[k] else f.plans[k].state == Aborted)
  }

  lemma ReopenedPlansAreOld(disk: Option<Snapshot>, c: Config, k: PlanBody)
    requires StoreInv(disk) && Renewable(disk) && k in Opened(disk, c).plans
    ensures ReopenedPlan(disk, Opened(disk, c), k)
  {
    hide MembersOk, WorkloadsOk, RecoveredMembers, RecoveredWorkloads, RecoveredPolicy, SortReasons;
    assert PlanOk(k, disk.value.plans[k], disk.value.epoch, disk.value.generation, disk.value.policy.generation);
  }

  /** Where a plan came from: the point, the instance, the operation and what the planner returned. */
  datatype Birth = Birth(at: int, f: Fed, op: Op, p: Plan)

  /** The plan was made there and has been held ever since, without a restart. */
  ghost predicate BornAt(ws: seq<World>, es: seq<Event>, x: Birth, j: int, k: PlanBody) {
    && x.at < j && InProcess(es, x.at, j) && LiveAt(ws, x.at, x.f) && OpAt(es, x.at, x.op)
    && PlannedBy(x.f, x.op, x.p) && x.p.body == k
    && (forall i :: x.at < i <= j ==> Holds(At(ws, i), k))
  }

  lemma HeldOn(ws: seq<World>, es: seq<Event>, x: Birth, j: int, k: PlanBody)
    requires BornAt(ws, es, x, j, k) && InProcess(es, j, j + 1) && Holds(At(ws, j + 1), k)
    ensures BornAt(ws, es, x, j + 1, k)
  {
    hide PlannedBy;
  }

  /** A plan bound to the running epoch was made by this very process. */
  lemma {:induction false} PlansAreBornHere(ws: seq<World>, es: seq<Event>, j: nat, g: Fed, k: PlanBody)
    requires IsRun(ws, es) && EpochsRemain(ws) && LiveAt(ws, j, g) && k in g.plans && k.epoch == g.epoch
    ensures exists x :: BornAt(ws, es, x, j, k)
  {
    hide IsStep, StoreInv, Inv, After, Opened, OpenRefusal, SnapshotOf, PlannedBy, BornAt, Enabled;
    StepTo(ws, es, j, g);
    Reachable(ws, es, j - 1);
    match es[j - 1]
    case Open(c, writeOk) =>
      ReopenStep(ws[j - 1], c, writeOk, ws[j]);
      ReopenedPlansAreOld(ws[j - 1].disk, c, k);
    case Run(op, writeOk) =>
      var f := ws[j - 1].live.value;
      OperationStep(ws[j - 1], op, writeOk, ws[j], f);
      if k in f.plans {
        StepVersioned(f, op);
        PlansAreBornHere(ws, es, j - 1, f, k);
        var x :| BornAt(ws, es, x, j - 1, k);
        HeldOn(ws, es, x, j - 1, k);
      } else {
        PlansComeFrom(f, op, k, g.plans[k]);
        BornNow(ws, es, Birth(j - 1, f, op, g.plans[k]), k);
      }
  }

  lemma BornNow(ws: seq<World>, es: seq<Event>, x: Birth, k: PlanBody)
    requires InProcess(es, x.at, x.at + 1) && LiveAt(ws, x.at, x.f) && OpAt(es, x.at, x.op) && PlannedBy(x.f, x.op, x.p) && x.p.body == k
    requires Holds(At(ws, x.at + 1), k)
    ensures BornAt(ws, es, x, x.at + 1, k)
  {
    hide PlannedBy;
  }

  // ---- Advancing sees the planned endpoints -----------------------------------------------

  /** A member still advertises in `g` what it advertised in `f`. */
  ghost predicate SameAdvertisement(f: Fed, g: Fed, a: AcceleratorId) {
    && a in f.members && a in g.members
    && Content(f.members[a].descriptor.capabilities) == Content(g.members[a].descriptor.capabilities)
    && f.members[a].record.boot == g.members[a].record.boot
    && f.members[a].record.deviceGeneration == g.members[a].record.deviceGeneration
  }

  ghost predicate AtGeneration(f: Fed, a: AcceleratorId, g: Generation) { a in f.members && f.members[a].record.capabilityGeneration == g }

  lemma EndpointUnchanged(ws: seq<World>, es: seq<Event>, b: nat, j: nat, f: Fed, g: Fed, a: AcceleratorId, generation: Generation)
    requires IsRun(ws, es) && InProcess(es, b, j) && LiveAt(ws, b, f) && LiveAt(ws, j, g)
    requires AtGeneration(f, a, generation) && AtGeneration(g, a, generation) && generation < MAX_GENERATION
    ensures SameAdvertisement(f, g, a)
  {
    hide IsRun;
    MembersEvolve(ws, es, b, j, f, a);
  }

  /** What the planning operation fixed about the endpoints. */
  lemma CreatedEndpoints(f: Fed, op: Op, p: Plan)
    requires PlannedBy(f, op, p)
    ensures AtGeneration(f, p.body.source, p.body.sourceCapabilityGeneration)
    ensures AtGeneration(f, p.body.destination, p.body.destinationCapabilityGeneration)
    ensures p.state in {Planned, Refused}
  {
    hide PlanResult, Refusal;
    match op
    case Plan(w, s, d, now, _, _, _) => PlanBinds(f, w, s, d, now, p);
  }

  /** Both endpoints of the plan advertise what they advertised when it was made. */
  ghost predicate SameEndpoints(ws: seq<World>, es: seq<Event>, x: Birth, j: int, g: Fed, k: PlanBody) {
    BornAt(ws, es, x, j, k) && SameAdvertisement(x.f, g, k.source) && SameAdvertisement(x.f, g, k.destination)
  }

  /** Every accepted advance of a plan, in any mode and whatever became of the writes, meets the
      very endpoint capabilities the plan was computed from. */
  lemma AdvanceSeesPlannedEndpoints(ws: seq<World>, es: seq<Event>, j: nat, g: Fed, k: PlanBody, to: MigrationState, c: Claim)
    requires IsRun(ws, es) && EpochsRemain(ws) && LiveAt(ws, j, g) && AdvanceRefusal(g, k, to, c).None?
    requires k.sourceCapabilityGeneration < MAX_GENERATION && k.destinationCapabilityGeneration < MAX_GENERATION
    ensures exists x :: SameEndpoints(ws, es, x, j, g, k)
  {
    hide IsRun, Inv, AdvanceRefusal, BornAt, SameEndpoints;
    LiveInv(ws, es, j, g);
    AcceptedAdvance(g, k, to, c);
    PlansAreBornHere(ws, es, j, g, k);
    var x :| BornAt(ws, es, x, j, k);
    BornEndpoints(ws, es, x, j, g, k);
  }

  lemma BornEndpoints(ws: seq<World>, es: seq<Event>, x: Birth, j: nat, g: Fed, k: PlanBody)
    requires IsRun(ws, es) && BornAt(ws, es, x, j, k) && LiveAt(ws, j, g) && EndpointsMatch(g, k)
    requires k.sourceCapabilityGeneration < MAX_GENERATION && k.destinationCapabilityGeneration < MAX_GENERATION
    ensures SameEndpoints(ws, es, x, j, g, k)
  {
    hide IsRun, PlannedBy, SameAdvertisement;
    CreatedEndpoints(x.f, x.op, x.p);
    EndpointUnchanged(ws, es, x.at, j, x.f, g, k.source, k.sourceCapabilityGeneration);
    EndpointUnchanged(ws, es, x.at, j, x.f, g, k.destination, k.destinationCapabilityGeneration);
  }

  lemma AcceptedAdvance(f: Fed, k: PlanBody, to: MigrationState, c: Claim)
    requires Inv(f) && AdvanceRefusal(f, k, to, c).None?
    ensures k in f.plans && k.epoch == f.epoch && EndpointsMatch(f, k)
  {
    hide Authority, MembersOk, WorkloadsOk, DecisionOk, EndpointsMatch;
    assert PlanOk(k, f.plans[k], f.epoch, f.generation, f.policy.generation);
  }

  // ---- A committed plan passed every stage ------------------------------------------------

  /** The running instance has not used up its generations. */
  ghost predicate GenerationsRemain(ws: seq<World>) { forall i :: 0 <= i < |ws| ==> Spare(ws[i].live) }

  ghost predicate Spare(f: Option<Fed>) { f.Some? ==> f.value.generation < MAX_GENERATION }

  function Stage(s: MigrationState): nat {
    match s
    case Planned => 0
    case Validated => 1
    case Prepared => 2
    case Transferring => 3
    case Verified => 4
    case Committed => 5
    case Aborted | Refused => 6
  }

  function StateOf(w: World, k: PlanBody): Option<MigrationState> {
    match w.live case Some(f) => (if k in f.plans then Some(f.plans[k].state) else None) case None => None
  }

  /** How far the plan has come; a plan that is not there has come nowhere. */
  function StageOf(w: World, k: PlanBody): nat { match StateOf(w, k) case Some(s) => Stage(s) case None => 7 }

  /** The plan is one of the running epoch and policy. */
  ghost predicate OfThisEpoch(w: World, k: PlanBody) {
    w.live.Some? && w.live.value.epoch == k.epoch && w.live.value.policy.generation == k.policyGeneration
  }

  ghost predicate PolicyChanges(w: World, e: Event) { exists f, op: Op :: Accepts(w, e, f, op) && op.SetPolicy? }

  /** One step up or none, under the plan's own epoch and policy, with no change of policy. */
  ghost predicate ClimbStep(w: World, e: Event, v: World, k: PlanBody) {
    && StageOf(w, k) <= 5 && StageOf(v, k) <= 5
    && (StageOf(v, k) == StageOf(w, k) || StageOf(v, k) == StageOf(w, k) + 1)
    && OfThisEpoch(w, k) && !PolicyChanges(w, e)
  }

  /** From the operation that planned it to point `i`, the plan climbed one stage at a time. */
  ghost predicate Climbing(ws: seq<World>, es: seq<Event>, x: Birth, i: int, k: PlanBody) {
    && BornAt(ws, es, x, i, k) && StateOf(At(ws, x.at + 1), k) == Some(Planned)
    && (forall m :: x.at < m < i ==> ClimbStep(At(ws, m), EventAt(es, m), At(ws, m + 1), k))
  }

  /** While a plan can still move, a policy change would have aborted it. */
  lemma PolicyChangeAborts(f: Fed, body: PolicyBody, c: Claim, k: PlanBody, p: Plan)
    requires Refusal(f, SetPolicy(body, c)).None? && HoldsPlan(f, k, p) && !IsTerminal(p.state)
    ensures HoldsPlan(After(f, SetPolicy(body, c)), k, AbortedFor(p, POLICY_ADVANCED)) && AbortedFor(p, POLICY_ADVANCED).state == Aborted
  {
    hide Refusal, Stamped, SortReasons, ObserveEffect, TransitionEffect, UpdateEffect, RegisterEffect, EvaluateEffect, EvaluateNow, SweepEffect;
    hide PlanEffect, AdvanceEffect, AbortEffect, PrintOf;
  }

  lemma LivePlansAreBound(f: Fed, k: PlanBody, p: Plan)
    requires Inv(f) && HoldsPlan(f, k, p) && !IsTerminal(p.state)
    ensures k.epoch == f.epoch && k.policyGeneration == f.policy.generation
  {
    assert PlanOk(k, f.plans[k], f.epoch, f.generation, f.policy.generation);
  }

  /** What one operation did to a plan that is on its way afterwards. */
  lemma OnTheWay(w: World, op: Op, writeOk: bool, v: World, f: Fed, k: PlanBody)
    requires IsStep(w, Run(op, writeOk), v) && w.live == Some(f) && Inv(f) && f.generation < MAX_GENERATION
    requires StageOf(w, k) < 5 && StageOf(v, k) <= 5
    ensures ClimbStep(w, Run(op, writeOk), v, k)
  {
    hide IsStep, After, Inv, Refusal, Enabled, SnapshotOf;
    OperationStep(w, op, writeOk, v, f);
    EveryPlanSteps(f, op, k);
    LivePlansAreBound(f, k, f.plans[k]);
    if Refusal(f, op).None? && op.SetPolicy? {
      PolicyChangeAborts(f, op.body, op.claim, k, f.plans[k]);
      assert false;
    }
  }

  lemma WasOnTheWay(w: World, op: Op, writeOk: bool, v: World, f: Fed, k: PlanBody)
    requires IsStep(w, Run(op, writeOk), v) && w.live == Some(f) && Inv(f) && f.generation < MAX_GENERATION
    requires 5 <= StageOf(w, k) <= 6
    ensures StateOf(v, k) == StateOf(w, k)
  {
    hide IsStep, After, Inv, Refusal, Enabled, SnapshotOf;
    OperationStep(w, op, writeOk, v, f);
    EveryPlanSteps(f, op, k);
  }

  lemma Newborn(ws: seq<World>, es: seq<Event>, j: int, f: Fed, op: Op, k: PlanBody)
    requires IsRun(ws, es) && LiveAt(ws, j - 1, f) && OpAt(es, j - 1, op) && k !in f.plans && Holds(At(ws, j), k)
    ensures StateOf(At(ws, j), k) in {Some(Planned), Some(Refused)}
    ensures StateOf(At(ws, j), k) == Some(Planned) ==> exists x :: Climbing(ws, es, x, j, k)
  {
    hide IsStep, After, PlannedBy, Enabled, SnapshotOf, BornAt, PolicyChanges;
    assert IsStep(ws[j - 1], es[j - 1], ws[j - 1 + 1]);
    OperationStep(ws[j - 1], op, es[j - 1].writeOk, ws[j], f);
    var p := ws[j].live.value.plans[k];
    PlansComeFrom(f, op, k, p);
    CreatedEndpoints(f, op, p);
    BornNow(ws, es, Birth(j - 1, f, op, p), k);
    assert p.state == Planned ==> Climbing(ws, es, Birth(j - 1, f, op, p), j, k);
  }

  lemma {:induction false} MovingPlansClimbed(ws: seq<World>, es: seq<Event>, j: nat, g: Fed, k: PlanBody)
    requires IsRun(ws, es) && EpochsRemain(ws) && GenerationsRemain(ws) && LiveAt(ws, j, g) && StageOf(At(ws, j), k) < 5
    ensures exists x :: Climbing(ws, es, x, j, k)
  {
    hide IsStep, Inv, StoreInv, Opened, OpenRefusal, SnapshotOf, Climbing, ClimbStep;
    StepTo(ws, es, j, g);
    Reachable(ws, es, j - 1);
    match es[j - 1]
    case Open(c, writeOk) =>
      ReopenStep(ws[j - 1], c, writeOk, ws[j]);
      ReopenedPlansAreOld(ws[j - 1].disk, c, k);
    case Run(op, writeOk) =>
      var f := ws[j - 1].live.value;
      if k !in f.plans {
        Newborn(ws, es, j, f, op, k);
      } else {
        if StageOf(ws[j - 1], k) >= 5 { WasOnTheWay(ws[j - 1], op, writeOk, ws[j], f, k); }
        MovingPlansClimbed(ws, es, j - 1, f, k);
        OnTheWay(ws[j - 1], op, writeOk, ws[j], f, k);
        var x :| Climbing(ws, es, x, j - 1, k);
        ClimbsOn(ws, es, x, j - 1, k);
      }
  }

  lemma ClimbsOn(ws: seq<World>, es: seq<Event>, x: Birth, i: int, k: PlanBody)
    requires Climbing(ws, es, x, i, k) && InProcess(es, i, i + 1) && ClimbStep(At(ws, i), EventAt(es, i), At(ws, i + 1), k)
    ensures Climbing(ws, es, x, i + 1, k)
  {
    hide BornAt, ClimbStep;
    StandsThere(At(ws, i), EventAt(es, i), At(ws, i + 1), k);
    HeldOn(ws, es, x, i, k);
  }

  lemma StandsThere(w: World, e: Event, v: World, k: PlanBody)
    requires ClimbStep(w, e, v, k)
    ensures Holds(v, k)
  {
    hide PolicyChanges;
  }

  ghost predicate Commits(w: World, k: PlanBody) { StateOf(w, k) == Some(Committed) }

  /** The plan is committed in the running instance or in the store. */
  ghost predicate KnowsCommitted(w: World, k: PlanBody) {
    Commits(w, k) || (k in StoredPlans(w) && StoredPlans(w)[k].state == Committed)
  }

  /** The plan climbed from planning to its commit, at or before point `j`. */
  ghost predicate CommittedByClimbing(ws: seq<World>, es: seq<Event>, j: int, k: PlanBody) {
    exists x, i :: i <= j && Climbing(ws, es, x, i, k) && Commits(At(ws, i), k)
  }

  lemma CommitOrigin(w: World, e: Event, v: World, k: PlanBody)
    requires IsStep(w, e, v) && StoreInv(w.disk) && KnowsCommitted(v, k) && Renewable(w.disk)
    ensures KnowsCommitted(w, k) || (e.Run? && Commits(v, k) && !Commits(w, k))
  {
    hide IsStep, StoreInv, Opened, After, Enabled, OpenRefusal;
    match e
    case Open(c, writeOk) =>
      ReopenStep(w, c, writeOk, v);
      if Commits(v, k) || v.disk != w.disk { ReopenedPlansAreOld(w.disk, c, k); }
    case Run(op, writeOk) =>
      OperationRuns(w, op, writeOk, v);
      OperationStep(w, op, writeOk, v, w.live.value);
  }

  /** A committed plan, running or merely stored, before or after any number of restarts, once
      passed every stage in order within one process, under one epoch and one policy. */
  lemma {:induction false} CommittedPlansPassedEveryStage(ws: seq<World>, es: seq<Event>, j: nat, k: PlanBody)
    requires IsRun(ws, es) && EpochsRemain(ws) && GenerationsRemain(ws) && KnowsCommitted(At(ws, j), k)
    ensures CommittedByClimbing(ws, es, j, k)
  {
    hide IsStep, Inv, StoreInv, Climbing;
    assert 0 < j < |ws|;
    assert IsStep(ws[j - 1], es[j - 1], ws[j - 1 + 1]);
    Reachable(ws, es, j - 1);
    CommitOrigin(ws[j - 1], es[j - 1], ws[j], k);
    if KnowsCommitted(ws[j - 1], k) {
      CommittedPlansPassedEveryStage(ws, es, j - 1, k);
    } else {
      CommitsNow(ws, es, j, k);
    }
  }

  lemma CommitsNow(ws: seq<World>, es: seq<Event>, j: nat, k: PlanBody)
    requires IsRun(ws, es) && EpochsRemain(ws) && GenerationsRemain(ws) && InProcess(es, j - 1, j)
    requires Commits(At(ws, j), k) && !Commits(At(ws, j - 1), k)
    ensures exists x :: Climbing(ws, es, x, j, k)
  {
    hide IsStep, Inv, StoreInv, Climbing, ClimbStep, Enabled, SnapshotOf;
    assert IsStep(ws[j - 1], es[j - 1], ws[j - 1 + 1]);
    Reachable(ws, es, j - 1);
    var op, writeOk := es[j - 1].op, es[j - 1].writeOk;
    OperationRuns(ws[j - 1], op, writeOk, ws[j]);
    var f := ws[j - 1].live.value;
    if k !in f.plans {
      Newborn(ws, es, j, f, op, k);
    } else {
      if StageOf(ws[j - 1], k) >= 5 { WasOnTheWay(ws[j - 1], op, writeOk, ws[j], f, k); }
      OnTheWay(ws[j - 1], op, writeOk, ws[j], f, k);
      MovingPlansClimbed(ws, es, j - 1, f, k);
      var x :| Climbing(ws, es, x, j - 1, k);
      ClimbsOn(ws, es, x, j - 1, k);
    }
  }

  /** From point `m` on the plan is at stage `n` or beyond. */
  ghost predicate ReachesAndStays(ws: seq<World>, m: int, i: int, k: PlanBody, n: nat) {
    StageOf(At(ws, m), k) == n && forall l :: m <= l <= i ==> n <= StageOf(At(ws, l), k)
  }

  /** A climb visits every stage up to the one it reached, and never goes back. */
  lemma {:induction false} ClimbVisits(ws: seq<World>, es: seq<Event>, x: Birth, i: int, k: PlanBody, n: nat)
    requires Climbing(ws, es, x, i, k) && n <= StageOf(At(ws, i), k)
    ensures exists m :: x.at < m <= i && ReachesAndStays(ws, m, i, k, n)
    decreases i - x.at
  {
    hide PlannedBy, PolicyChanges;
    if StageOf(At(ws, i), k) == n {
      assert ReachesAndStays(ws, i, i, k, n);
    } else {
      assert i > x.at + 1;
      assert ClimbStep(At(ws, i - 1), EventAt(es, i - 1), At(ws, i - 1 + 1), k);
      assert Climbing(ws, es, x, i - 1, k);
      hide StateOf, OfThisEpoch;
      ClimbVisits(ws, es, x, i - 1, k, n);
      var m :| x.at < m <= i - 1 && ReachesAndStays(ws, m, i - 1, k, n);
      assert ReachesAndStays(ws, m, i, k, n);
    }
  }

  // ---- Terminal plans are final -----------------------------------------------------------

  ghost predicate StoredPlanEdge(w: World, v: World, k: PlanBody) {
    k in StoredPlans(w) && k in StoredPlans(v) && PlanEdge(StoredPlans(w)[k], StoredPlans(v)[k])
  }

  lemma StoredPlanSteps(w: World, e: Event, v: World, k: PlanBody)
    requires Synced(w) && WorldInv(w) && IsStep(w, e, v) && k in StoredPlans(w) && SteadyEvent(e) && Spare(w.live)
    ensures StoredPlanEdge(w, v, k)
  {
    hide IsStep, LegalMigration, Inv, StoreInv, After, Opened;
    match e
    case Run(op, writeOk) =>
      OperationRuns(w, op, writeOk, v);
      var f := w.live.value;
      SyncedRun(w, op, v, f);
      EveryPlanSteps(f, op, k);
    case Open(c, _) =>
      SyncedOpen(w, c, v);
      OpenedMembers(w.disk, c);
      hide AbortedFor;
      AbortIsAnEdge(w.disk.value.plans[k], AUTHORITY_ADVANCED);
  }

  /** A stored plan is still there, and unchanged if it had reached the end of its lifecycle. */
  ghost predicate StoredPlanLasts(w: World, v: World, k: PlanBody) {
    && k in StoredPlans(w) && k in StoredPlans(v)
    && (IsTerminal(StoredPlans(w)[k].state) ==> StoredPlans(v)[k] == StoredPlans(w)[k])
  }

  /** Along any run whose writes succeed, restarts included, no plan is ever lost and a plan
      that reached the end of its lifecycle never changes again. */
  lemma {:induction false} TerminalPlansAreFinal(ws: seq<World>, es: seq<Event>, i: nat, j: nat, k: PlanBody)
    requires IsRun(ws, es) && Steady(es) && EpochsRemain(ws) && GenerationsRemain(ws) && i <= j < |ws| && k in StoredPlans(At(ws, i))
    ensures StoredPlanLasts(At(ws, i), At(ws, j), k)
    decreases j
  {
    hide IsStep, WorldInv, SteadyEvent, LegalMigration;
    if i < j {
      TerminalPlansAreFinal(ws, es, i, j - 1, k);
      RunsStaySynced(ws, es, j - 1);
      Reachable(ws, es, j - 1);
      assert IsStep(ws[j - 1], es[j - 1], ws[j - 1 + 1]) && SteadyEvent(es[j - 1]);
      StoredPlanSteps(ws[j - 1], es[j - 1], ws[j], k);
      TerminalIsFinal(StoredPlans(ws[j - 1])[k].state, StoredPlans(ws[j])[k].state);
    }
  }
}
