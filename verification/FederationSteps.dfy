/** How one operation may change members, plans and versioned content. */
module FederationSteps {
  import opened Prelude
  import opened Capability
  import opened Portability
  import opened Compatibility
  import opened Migration
  import opened Federation
  import opened FederationInvariants

  // ---- Members ----------------------------------------------------------------------------

  /** The only ways to change what a member advertises. */
  predicate Advertises(op: Op, a: AcceleratorId) {
    match op case Observe(d, _) => d.id == a case UpdateCapabilities(b, _, _, _) => b == a case _ => false
  }

  ghost predicate Touches(f: Fed, op: Op, a: AcceleratorId) { Refusal(f, op).None? && Advertises(op, a) }

  predicate Activates(op: Op) { match op case Transition(_, target, _) => target == Active case _ => false }

  /** Identity is fixed, the capability generation never falls, equal generations mean equal
      content, and retirement freezes everything. */
  ghost predicate Evolves(m: Member, n: Member) {
    && n.record.accelerator == m.record.accelerator && n.record.physical == m.record.physical
    && n.record.agent == m.record.agent && n.record.boot == m.record.boot
    && n.record.deviceGeneration == m.record.deviceGeneration
    && m.record.capabilityGeneration <= n.record.capabilityGeneration
    && (m.record.capabilityGeneration == n.record.capabilityGeneration < MAX_GENERATION ==>
          Content(n.descriptor.capabilities) == Content(m.descriptor.capabilities))
    && (m.record.state == Retired ==>
          && n.record.state == Retired
          && n.record.capabilityGeneration == m.record.capabilityGeneration
          && Content(n.descriptor.capabilities) == Content(m.descriptor.capabilities))
  }

  lemma EvolvesTransitive(m: Member, n: Member, o: Member)
    requires Evolves(m, n) && Evolves(n, o)
    ensures Evolves(m, o)
  {
  }

  predicate StateEdge(from: MemberState, to: MemberState) { from == to || LegalTransition(from, to) }

  /** What one operation may do to one member; `touched` says that its advertisement was
      accepted anew, `activates` that some member is being activated. */
  ghost predicate MemberStep(m: Member, n: Member, touched: bool, activates: bool) {
    && Evolves(m, n)
    && StateEdge(m.record.state, n.record.state)
    && (!touched ==> n.descriptor == m.descriptor)
    && (n.record.state == Active && m.record.state != Active ==> activates)
  }

  ghost predicate MembersStep(f: Fed, g: Fed, a: AcceleratorId, touched: bool, activates: bool) {
    a in f.members && a in g.members && MemberStep(f.members[a], g.members[a], touched, activates)
  }

  lemma RefreshedSteps(f: Fed, m: Member, d: Descriptor)
    requires m.record.state != Retired
    ensures MemberStep(m, Refreshed(f, m, d), true, false)
  {
  }

  lemma ObserveStep(f: Fed, d: Descriptor, c: Claim, a: AcceleratorId)
    requires ObserveRefusal(f, d, c).None? && a in f.members
    ensures MembersStep(f, ObserveEffect(f, d), a, a == d.id, false)
  {
    hide DescriptorValid, DuplicateLive, Authority, Refreshed, DerivedId, MemberStep, NewMember;
    if a == d.id {
      RefreshedSteps(f, f.members[a], d);
    } else {
      RetiredSteps(f.members[a]);
      KeptSteps(f.members[a], false);
    }
  }

  lemma RetiredSteps(m: Member)
    ensures m.record.state != Retired ==> MemberStep(m, RetiredBy(m), false, false)
  {
  }

  lemma KeptSteps(m: Member, activates: bool)
    ensures MemberStep(m, m, false, activates)
  {
  }

  lemma TransitionStep(f: Fed, b: AcceleratorId, target: MemberState, c: Claim, a: AcceleratorId)
    requires TransitionRefusal(f, b, target, c).None? && a in f.members
    ensures MembersStep(f, TransitionEffect(f, b, target), a, false, target == Active)
  {
    hide Authority, ScopedAuthority;
    if a != b { hide TransitionEffect, MemberStep; OtherMember(f, b, target, a); KeptSteps(f.members[a], target == Active); }
  }

  lemma OtherMember(f: Fed, b: AcceleratorId, target: MemberState, a: AcceleratorId)
    requires a in f.members && b in f.members && a != b
    ensures a in TransitionEffect(f, b, target).members && TransitionEffect(f, b, target).members[a] == f.members[a]
  {
  }

  lemma UpdateStep(f: Fed, b: AcceleratorId, caps: CapabilitySet, e: EvidenceRecord, c: Claim, a: AcceleratorId)
    requires UpdateRefusal(f, b, caps, e, c).None? && a in f.members
    ensures MembersStep(f, UpdateEffect(f, b, caps, e), a, a == b, false)
  {
    hide Authority, ScopedAuthority, CapabilitiesValid, EvidenceValid;
  }

  lemma SetPolicyStep(f: Fed, body: PolicyBody, a: AcceleratorId)
    requires a in f.members
    ensures MembersStep(f, SetPolicyEffect(f, body), a, false, false)
  {
    hide AbortAll;
  }

  lemma AdvanceStep(f: Fed, k: PlanBody, target: MigrationState, c: Claim, a: AcceleratorId)
    requires AdvanceRefusal(f, k, target, c).None? && a in f.members
    ensures MembersStep(f, AdvanceEffect(f, k, target), a, false, false)
  {
    hide Authority, LegalMigration, MemberStep, Drained;
    DrainSteps(f.members[a]);
    KeptSteps(f.members[a], false);
  }

  lemma DrainSteps(m: Member)
    ensures MemberStep(m, Drained(m), false, false)
  {
  }

  predicate ChangesMembers(op: Op) {
    op.Observe? || op.Transition? || op.UpdateCapabilities? || op.SetPolicy? || op.Advance?
  }

  /** Every state change is an edge of the lifecycle table and every member only evolves. */
  lemma EveryMemberSteps(f: Fed, op: Op, a: AcceleratorId)
    requires a in f.members
    ensures MembersStep(f, After(f, op), a, Touches(f, op, a), Activates(op))
  {
    hide ObserveRefusal, TransitionRefusal, UpdateRefusal, SetPolicyRefusal, RegisterRefusal, EvaluateNow, PlanRefusal;
    hide AdvanceRefusal, AbortRefusal, MemberStep;
    hide ObserveEffect, TransitionEffect, UpdateEffect, SetPolicyEffect, RegisterEffect, EvaluateEffect, SweepEffect;
    hide PlanEffect, AdvanceEffect, AbortEffect;
    KeptSteps(f.members[a], Activates(op));
    if Refusal(f, op).None? {
      match op
      case Observe(d, c) => ObserveStep(f, d, c, a);
      case Transition(b, target, c) => TransitionStep(f, b, target, c, a);
      case UpdateCapabilities(b, caps, e, c) => UpdateStep(f, b, caps, e, c, a);
      case SetPolicy(body, _) => SetPolicyStep(f, body, a);
      case Advance(k, to, c) => AdvanceStep(f, k, to, c, a);
      case _ => EffectLeaves(f, op);
    }
  }

  // ---- Versioned content ------------------------------------------------------------------

  /** Within one process the generation only grows, and while it stands still nothing that a
      decision depends on has changed. */
  ghost predicate Versioned(f: Fed, g: Fed) {
    && g.epoch == f.epoch && g.id == f.id && g.name == f.name && g.durable == f.durable && g.eager == f.eager
    && f.generation <= g.generation
    && (f.generation == g.generation < MAX_GENERATION ==>
          g.members == f.members && g.policy == f.policy && g.workloads == f.workloads && g.plans == f.plans)
  }

  lemma VersionedTransitive(f: Fed, g: Fed, h: Fed)
    requires Versioned(f, g) && Versioned(g, h)
    ensures Versioned(f, h)
  {
  }

  /** What each operation leaves alone. */
  ghost predicate Leaves(f: Fed, op: Op, g: Fed) {
    && g == f.(generation := g.generation, policy := g.policy, members := g.members, workloads := g.workloads,
               decisions := g.decisions, plans := g.plans, shutdown := g.shutdown)
    && (!op.Shutdown? ==> g.shutdown == f.shutdown)
    && (!ChangesMembers(op) ==> g.members == f.members)
    && (!op.Observe? ==> g.members.Keys == f.members.Keys)
    && (!op.SetPolicy? ==> g.policy == f.policy)
    && (!op.RegisterWorkload? ==> g.workloads == f.workloads)
    && (!op.SetPolicy? && !op.Plan? && !op.Advance? && !op.Abort? ==> g.plans == f.plans)
    && (!op.EvaluateOp? && !op.Plan? ==> g.decisions.Keys <= f.decisions.Keys)
    && (g.generation == Next(f.generation)
        || (g.generation == f.generation && g.members == f.members && g.policy == f.policy && g.workloads == f.workloads && g.plans == f.plans))
  }

  lemma TransitionLeaves(f: Fed, a: AcceleratorId, target: MemberState, c: Claim)
    ensures Leaves(f, Transition(a, target, c), TransitionEffect(f, a, target))
  {
  }

  lemma UpdateLeaves(f: Fed, a: AcceleratorId, caps: CapabilitySet, e: EvidenceRecord, c: Claim)
    ensures Leaves(f, UpdateCapabilities(a, caps, e, c), UpdateEffect(f, a, caps, e))
  {
    hide Updated;
  }

  lemma SetPolicyLeaves(f: Fed, body: PolicyBody, c: Claim)
    ensures Leaves(f, SetPolicy(body, c), SetPolicyEffect(f, body))
    ensures SetPolicyEffect(f, body).policy == PolicyOf(body) && SetPolicyEffect(f, body).plans == AbortAll(f.plans, POLICY_ADVANCED)
  {
    hide AbortAll, PrintOf;
    assert Stamped(f.members, PolicyOf(body).generation).Keys == f.members.Keys;
    hide Stamped;
  }

  lemma RegisterLeaves(f: Fed, w: Workload, nameId: nat, c: Claim)
    ensures Leaves(f, RegisterWorkload(w, nameId, c), RegisterEffect(f, w, nameId))
  {
    hide StoredProfile;
  }

  lemma SweepLeaves(f: Fed)
    ensures Leaves(f, InvalidateStale, SweepEffect(f))
  {
    hide SweepKeeps;
  }

  lemma PlanLeaves(f: Fed, w: WorkloadId, s: AcceleratorId, d: AcceleratorId, now: int, wall: int, c: Claim, kept: set<Decision>)
    ensures Leaves(f, Op.Plan(w, s, d, now, wall, c, kept), PlanEffect(f, w, s, d, now, wall, kept))
    ensures PlanEffect(f, w, s, d, now, wall, kept).plans
            == match PlanResult(f, w, s, d, now) case Ok(p) => f.plans[p.body := p] case Err(_) => f.plans
  {
    hide PlanResult, PlanCache, Keep;
  }

  lemma AdvanceLeaves(f: Fed, k: PlanBody, target: MigrationState, c: Claim)
    ensures Leaves(f, Advance(k, target, c), AdvanceEffect(f, k, target))
  {
    hide Drained;
  }

  lemma AbortLeaves(f: Fed, k: PlanBody, text: nat, c: Claim)
    ensures Leaves(f, Abort(k, text, c), AbortEffect(f, k, text))
  {
    hide AbortedBy;
  }

  lemma EffectLeaves(f: Fed, op: Op)
    ensures Leaves(f, op, Effect(f, op))
  {
    hide ObserveEffect, TransitionEffect, UpdateEffect, SetPolicyEffect, RegisterEffect, SweepEffect;
    hide PlanEffect, AdvanceEffect, AbortEffect, EvaluateNow, Keep, Cached, Leaves;
    match op
    case Observe(d, c) => assert Leaves(f, op, ObserveEffect(f, d)) by { ObserveFrame(f, d); LeavesByObserving(f, op, ObserveEffect(f, d)); }
    case Transition(a, target, c) => TransitionLeaves(f, a, target, c);
    case UpdateCapabilities(a, caps, e, c) => UpdateLeaves(f, a, caps, e, c);
    case SetPolicy(body, c) => SetPolicyLeaves(f, body, c);
    case RegisterWorkload(w, nameId, c) => RegisterLeaves(f, w, nameId, c);
    case EvaluateOp(w, a, source, now, wall, kept) => EvaluateLeaves(f, op, EvaluateNow(f, w, a, source, now), wall, kept);
    case InvalidateStale => SweepLeaves(f);
    case Plan(w, s, d, now, wall, c, kept) => PlanLeaves(f, w, s, d, now, wall, c, kept);
    case Advance(k, to, c) => AdvanceLeaves(f, k, to, c);
    case Abort(k, text, c) => AbortLeaves(f, k, text, c);
    case Persist => LeavesAlone(f, op);
    case Shutdown => LeavesAlone(f, op);
  }

  lemma LeavesAlone(f: Fed, op: Op)
    ensures Leaves(f, op, f) && Leaves(f, Op.Shutdown, f.(shutdown := true))
  {
  }

  lemma LeavesByObserving(f: Fed, op: Op, g: Fed)
    requires op.Observe? && g == f.(members := g.members, generation := Next(f.generation))
    ensures Leaves(f, op, g)
  {
  }

  lemma EvaluateLeaves(f: Fed, op: Op, r: Result<Decision>, wall: int, kept: set<Decision>)
    requires op.EvaluateOp?
    ensures Leaves(f, op, EvaluateEffect(f, r, wall, kept))
  {
    hide Keep, Cached;
  }

  lemma StepVersioned(f: Fed, op: Op)
    ensures Versioned(f, After(f, op))
  {
    hide Refusal, Effect;
    EffectLeaves(f, op);
  }

  // ---- Plans ------------------------------------------------------------------------------

  /** A plan stays as it is or moves along one edge of its lifecycle, keeping its identity. */
  ghost predicate PlanEdge(p: Plan, q: Plan) {
    q == p || (q.body == p.body && LegalMigration(p.state, q.state))
  }

  ghost predicate PlansStep(f: Fed, g: Fed, k: PlanBody) {
    k in f.plans && k in g.plans && PlanEdge(f.plans[k], g.plans[k])
  }

  lemma TerminalIsFinal(from: MigrationState, to: MigrationState)
    ensures IsTerminal(from) ==> !LegalMigration(from, to)
  {
  }

  /** A new plan cannot collide with a stored one while the generation can still move. */
  lemma PlanningNeverOverwrites(f: Fed, w: WorkloadId, s: AcceleratorId, d: AcceleratorId, now: int, p: Plan)
    requires Inv(f) && f.generation < MAX_GENERATION && PlanResult(f, w, s, d, now) == Ok(p)
    ensures p.body !in f.plans
  {
    hide PlanResult, MembersOk, WorkloadsOk;
    PlanBinds(f, w, s, d, now, p);
    forall k | k in f.plans
      ensures k.epoch < f.epoch || k.federationGeneration < Next(f.generation)
    {
      assert PlanOk(k, f.plans[k], f.epoch, f.generation, f.policy.generation);
    }
  }

  /** The planner fails exactly on a migration to itself; the inventory holds no other fault. */
  lemma SelfPlanFails(f: Fed, w: WorkloadId, s: AcceleratorId, x: AcceleratorId, now: int, c: Claim)
    requires Inv(f) && PlanRefusal(f, w, s, x, now, c).None?
    ensures PlanResult(f, w, s, x, now).Err? <==> s == x
  {
    hide EvaluateMember, ClassOf, EarlyRefusals, RequestOf, OutcomeFor, StepsOf, CostOf, SortReasons;
    hide BodyFor, VendorRendering, Authority;
    assert MemberOk(s, f.members[s]) && MemberOk(x, f.members[x]);
  }

  lemma AbortIsAnEdge(p: Plan, why: Reason)
    ensures PlanEdge(p, AbortedFor(p, why))
    ensures IsTerminal(AbortedFor(p, why).state)
  {
    hide SortReasons;
  }

  lemma AbortingIsAnEdge(p: Plan, text: nat)
    requires !IsTerminal(p.state)
    ensures PlanEdge(p, AbortedBy(p, text))
  {
    hide SortReasons;
  }

  lemma AdvanceIsAnEdge(f: Fed, k: PlanBody, to: MigrationState, c: Claim)
    requires AdvanceRefusal(f, k, to, c).None?
    ensures PlansStep(f, AdvanceEffect(f, k, to), k)
    ensures AdvanceEffect(f, k, to).plans == f.plans[k := AdvanceEffect(f, k, to).plans[k]]
  {
    hide Authority, Drained, LegalMigration;
  }

  lemma AbortIsAStep(f: Fed, k: PlanBody, text: nat, c: Claim)
    requires AbortRefusal(f, k, c).None?
    ensures PlansStep(f, AbortEffect(f, k, text), k) && AbortEffect(f, k, text).plans == f.plans[k := AbortedBy(f.plans[k], text)]
  {
    hide Authority, AbortedBy, LegalMigration;
    AbortingIsAnEdge(f.plans[k], text);
  }

  /** Plans are never dropped or replaced; they move along the lifecycle table. */
  lemma EveryPlanSteps(f: Fed, op: Op, k: PlanBody)
    requires Inv(f) && f.generation < MAX_GENERATION && k in f.plans
    ensures PlansStep(f, After(f, op), k)
  {
    hide ObserveRefusal, TransitionRefusal, UpdateRefusal, SetPolicyRefusal, RegisterRefusal, EvaluateNow, PlanRefusal;
    hide AdvanceRefusal, AbortRefusal, Inv;
    hide ObserveEffect, TransitionEffect, UpdateEffect, SetPolicyEffect, RegisterEffect, EvaluateEffect, SweepEffect;
    hide PlanEffect, AdvanceEffect, AbortEffect, AbortedFor, AbortedBy, PlanResult, LegalMigration;
    if Refusal(f, op).None? {
      match op
      case SetPolicy(body, c) =>
        SetPolicyLeaves(f, body, c);
        AbortIsAnEdge(f.plans[k], POLICY_ADVANCED);
      case Plan(w, s, d, now, wall, c, kept) =>
        PlanLeaves(f, w, s, d, now, wall, c, kept);
        if PlanResult(f, w, s, d, now).Ok? { PlanningNeverOverwrites(f, w, s, d, now, PlanResult(f, w, s, d, now).value); }
      case Advance(k', to, c) => AdvanceIsAnEdge(f, k', to, c);
      case Abort(k', text, c) => AbortIsAStep(f, k', text, c);
      case _ => EffectLeaves(f, op);
    }
  }

  ghost predicate HoldsPlan(f: Fed, k: PlanBody, p: Plan) { k in f.plans && f.plans[k] == p }

  /** The operation plans, and the planner returns this plan. */
  ghost predicate PlannedBy(f: Fed, op: Op, p: Plan) {
    Refusal(f, op).None? && match op case Plan(w, s, d, now, _, _, _) => PlanResult(f, w, s, d, now) == Ok(p) case _ => false
  }

  /** Only planning creates plans. */
  lemma PlansComeFrom(f: Fed, op: Op, k: PlanBody, p: Plan)
    requires HoldsPlan(After(f, op), k, p) && k !in f.plans
    ensures PlannedBy(f, op, p) && p.body == k
  {
    hide ObserveRefusal, TransitionRefusal, UpdateRefusal, SetPolicyRefusal, RegisterRefusal, EvaluateNow, PlanRefusal;
    hide AdvanceRefusal, AbortRefusal;
    hide ObserveEffect, TransitionEffect, UpdateEffect, SetPolicyEffect, RegisterEffect, EvaluateEffect, SweepEffect;
    hide PlanEffect, AdvanceEffect, AbortEffect, AbortedFor, AbortedBy, PlanResult, LegalMigration;
    if Refusal(f, op).None? {
      match op
      case SetPolicy(body, c) => SetPolicyLeaves(f, body, c);
      case Plan(w, s, d, now, wall, c, kept) => PlanLeaves(f, w, s, d, now, wall, c, kept);
      case Advance(k', to, c) => AdvanceIsAnEdge(f, k', to, c);
      case Abort(k', text, c) => AbortIsAStep(f, k', text, c);
      case _ => EffectLeaves(f, op);
    }
  }

  // ---- Decisions --------------------------------------------------------------------------

  /** Evaluating now, from this source and with this freshness verdict, returns this very decision. */
  ghost predicate Reproduces(f: Fed, d: Decision, source: Option<AcceleratorId>, current: bool) {
    d.workload in f.workloads && EvaluateWith(f, f.workloads[d.workload], d.accelerator, source, current) == Ok(d)
  }

  ghost predicate Explained(f: Fed, d: Decision) {
    d.workload in f.workloads && d.accelerator in f.members && exists source, current :: Reproduces(f, d, source, current)
  }

  ghost predicate SourceHeld(f: Fed, source: Option<AcceleratorId>) { source.Some? ==> source.value in f.members }

  /** Evaluating `a` for `w` from this source, with the freshness verdict of this moment, returns `d`. */
  ghost predicate Judges(f: Fed, w: WorkloadId, a: AcceleratorId, source: Option<AcceleratorId>, now: int, d: Decision, current: bool) {
    && SourceHeld(f, source) && current == FreshAt(f, a, now)
    && w in f.workloads && EvaluateWith(f, f.workloads[w], a, source, current) == Ok(d)
  }

  /** The operation evaluates this decision, from this source and with this freshness verdict. */
  ghost predicate Makes(f: Fed, op: Op, d: Decision, source: Option<AcceleratorId>, current: bool) {
    match op
    case EvaluateOp(w, a, s, now, _, _) => source == s && Judges(f, w, a, s, now, d, current)
    case Plan(w, s, x, now, _, _, _) =>
      || (source == Some(x) && Judges(f, w, s, source, now, d, current))
      || (source == Some(s) && Judges(f, w, x, source, now, d, current))
    case _ => false
  }

  lemma JudgedIsExplained(f: Fed, w: WorkloadId, a: AcceleratorId, source: Option<AcceleratorId>, now: int, d: Decision, current: bool)
    requires Inv(f) && Judges(f, w, a, source, now, d, current)
    ensures d.workload == w && d.accelerator == a && d.federationGeneration == f.generation
    ensures Explained(f, d) && Reproduces(f, d, source, current)
  {
    hide EvaluateWith, FreshAt, PlansOk;
    EvaluationBinds(f, f.workloads[w], a, source, current, d);
    KeyedMember(f.members, a);
    assert Reproduces(f, d, source, current);
  }

  /** What an operation makes is bound to the generation it ran in. */
  lemma MadeIsExplained(f: Fed, op: Op, d: Decision, source: Option<AcceleratorId>, current: bool)
    requires Inv(f) && Makes(f, op, d, source, current)
    ensures Explained(f, d) && d.federationGeneration == f.generation && SourceHeld(f, source) && Reproduces(f, d, source, current)
  {
    hide Inv, Explained, Judges, Reproduces;
    match op
    case EvaluateOp(w, a, s, now, _, _) =>
      JudgedIsExplained(f, w, a, s, now, d, current);
      JudgesHeld(f, w, a, s, now, d, current);
    case Plan(w, s, x, now, _, _, _) =>
      if source == Some(x) && Judges(f, w, s, source, now, d, current) {
        JudgedIsExplained(f, w, s, source, now, d, current);
        JudgesHeld(f, w, s, source, now, d, current);
      } else {
        JudgedIsExplained(f, w, x, source, now, d, current);
        JudgesHeld(f, w, x, source, now, d, current);
      }
  }

  lemma JudgesHeld(f: Fed, w: WorkloadId, a: AcceleratorId, source: Option<AcceleratorId>, now: int, d: Decision, current: bool)
    requires Judges(f, w, a, source, now, d, current)
    ensures SourceHeld(f, source)
  {
    hide EvaluateWith, FreshAt, SourceHeld;
  }

  lemma EvaluationMakes(f: Fed, w: WorkloadId, a: AcceleratorId, source: Option<AcceleratorId>, now: int, d: Decision)
    requires EvaluateNow(f, w, a, source, now) == Ok(d)
    ensures Judges(f, w, a, source, now, d, FreshAt(f, a, now))
  {
    hide EvaluateWith, FreshAt;
  }

  lemma PlanningMakes(f: Fed, w: WorkloadId, a: AcceleratorId, other: AcceleratorId, now: int, d: Decision)
    requires Judged(f, w, a, other, now) == Ok(d) && other in f.members
    ensures Judges(f, w, a, Some(other), now, d, FreshAt(f, a, now))
  {
    hide EvaluateWith, FreshAt;
  }

  lemma EvaluationCaches(f: Fed, op: Op, r: Result<Decision>, wall: int, kept: set<Decision>, d: Decision)
    requires d in EvaluateEffect(f, r, wall, kept).decisions && d !in f.decisions
    ensures r == Ok(d)
  {
  }

  lemma PlanCaches(f: Fed, w: WorkloadId, s: AcceleratorId, x: AcceleratorId, now: int, wall: int, kept: set<Decision>, d: Decision)
    requires d in PlanEffect(f, w, s, x, now, wall, kept).decisions && d !in f.decisions
    ensures Judged(f, w, s, x, now) == Ok(d) || Judged(f, w, x, s, now) == Ok(d)
    ensures s in f.members && x in f.members
  {
    PlanEndpoints(f, w, s, x, now);
    hide PlanResult, Judged;
  }

  lemma PlanEndpoints(f: Fed, w: WorkloadId, s: AcceleratorId, x: AcceleratorId, now: int)
    ensures PlanResult(f, w, s, x, now).Ok? ==> s in f.members && x in f.members
  {
    hide EvaluateWith, PlanMigration, FreshAt, EndpointFor;
  }

  /** A decision in the cache was there before or was made by this very operation. */
  lemma DecisionsComeFrom(f: Fed, op: Op, d: Decision)
    requires d in After(f, op).decisions && d !in f.decisions
    ensures exists source, current :: Makes(f, op, d, source, current)
  {
    hide Refusal, EvaluateNow, EvaluateEffect, PlanEffect, Judges, FreshAt, Judged;
    hide ObserveEffect, TransitionEffect, UpdateEffect, SetPolicyEffect, RegisterEffect, SweepEffect, AdvanceEffect, AbortEffect;
    match op
    case EvaluateOp(w, a, source, now, wall, kept) =>
      EvaluationCaches(f, op, EvaluateNow(f, w, a, source, now), wall, kept, d);
      EvaluationMakes(f, w, a, source, now, d);
      assert Makes(f, op, d, source, FreshAt(f, a, now));
    case Plan(w, s, x, now, wall, c, kept) =>
      PlanCaches(f, w, s, x, now, wall, kept, d);
      if Judged(f, w, s, x, now) == Ok(d) {
        PlanningMakes(f, w, s, x, now, d);
        assert Makes(f, op, d, Some(x), FreshAt(f, s, now));
      } else {
        PlanningMakes(f, w, x, s, now, d);
        assert Makes(f, op, d, Some(s), FreshAt(f, x, now));
      }
    case _ => EffectLeaves(f, op);
  }
}
