/** Who may do what to a member or a plan, and when: the lifecycle, claims, competing boots, ageing
    evidence and restarts, said state by state. */
module FederationAuthority {
  import opened Prelude
  import opened Capability
  import opened Portability
  import opened Compatibility
  import opened Migration
  import opened Federation
  import opened FederationInvariants
  import opened FederationSteps
  import opened FederationRuns
  import opened FederationRecovery
  import CompatibilityTheorems
  import FederationHistory

  // ---- Claims -----------------------------------------------------------------------------

  /** The instance runs, and the claim is right about the generation and the epoch where it speaks of them. */
  ghost predicate ClaimHolds(f: Fed, c: Claim) {
    && !f.shutdown
    && (c.checkFederationGeneration ==> c.federationGeneration == f.generation)
    && (c.checkEpoch ==> c.epoch == f.epoch)
  }

  /** What the claim says about a member and the policy is right, too. */
  ghost predicate ClaimFits(f: Fed, r: MemberRecord, c: Claim) {
    && (c.checkAgent ==> c.agent == r.agent)
    && (c.checkBoot ==> c.boot == r.boot)
    && (c.checkDeviceGeneration ==> c.deviceGeneration == r.deviceGeneration)
    && (c.checkCapabilityGeneration ==> c.capabilityGeneration == r.capabilityGeneration)
    && (c.checkPolicyGeneration ==> c.policyGeneration == f.policy.generation)
  }

  ghost predicate ClaimHoldsFor(f: Fed, a: AcceleratorId, c: Claim) { a in f.members && ClaimHolds(f, c) && ClaimFits(f, f.members[a].record, c) }

  lemma ClaimPasses(f: Fed, c: Claim)
    ensures Authority(f, c).None? <==> ClaimHolds(f, c)
  {
  }

  /** Claims pass exactly when everything they speak of is right. */
  lemma ClaimsPassIff(f: Fed, c: Claim, r: MemberRecord)
    ensures Authority(f, c).None? <==> ClaimHolds(f, c)
    ensures ScopedAuthority(f, c, r).None? <==> ClaimHolds(f, c) && ClaimFits(f, r, c)
  {
  }

  /** What is wrong first is what is reported: shutdown, generation and epoch of the federation, then
      agent, boot, device, capabilities and policy. */
  lemma FirstDisagreement(f: Fed, c: Claim, r: MemberRecord)
    ensures f.shutdown ==> Authority(f, c) == Some(ShutdownInProgress)
    ensures !f.shutdown && ClaimHolds(f.(epoch := c.epoch), c) && !ClaimHolds(f, c) ==> Authority(f, c) == Some(StaleEpoch)
    ensures !f.shutdown && !ClaimHolds(f.(epoch := c.epoch), c) ==> Authority(f, c) == Some(StaleFederationGeneration)
    ensures !ClaimHolds(f, c) ==> ScopedAuthority(f, c, r) == Authority(f, c)
    ensures ClaimHolds(f, c) && c.checkAgent && c.agent != r.agent ==> ScopedAuthority(f, c, r) == Some(StaleAgent)
    ensures ClaimHolds(f, c) && ClaimFits(f, r.(boot := c.boot), c) && !ClaimFits(f, r, c) ==> ScopedAuthority(f, c, r) == Some(StaleBoot)
    ensures ClaimHolds(f, c) && ClaimFits(f, r.(deviceGeneration := c.deviceGeneration), c) && !ClaimFits(f, r, c) ==>
              ScopedAuthority(f, c, r) == Some(StaleDeviceGeneration)
    ensures ClaimHolds(f, c) && ClaimFits(f, r.(capabilityGeneration := c.capabilityGeneration), c) && !ClaimFits(f, r, c) ==>
              ScopedAuthority(f, c, r) == Some(StaleCapabilityGeneration)
    ensures ClaimHolds(f, c) && ClaimFits(f, r, c.(checkPolicyGeneration := false)) && !ClaimFits(f, r, c) ==>
              ScopedAuthority(f, c, r) == Some(StalePolicy)
  {
  }

  /** The member an operation is about, if it checks claims about one. */
  function MemberOf(op: Op): Option<AcceleratorId> {
    match op case Transition(a, _, _) => Some(a) case UpdateCapabilities(a, _, _, _) => Some(a) case _ => None
  }

  ghost predicate Accepted(f: Fed, op: Op) { Refusal(f, op).None? }

  // Each operation by its own refusal and effect.

  lemma ObserveIs(f: Fed, d: Descriptor, c: Claim)
    ensures Accepted(f, Observe(d, c)) <==> ObserveRefusal(f, d, c).None?
    ensures Accepted(f, Observe(d, c)) ==> After(f, Observe(d, c)) == ObserveEffect(f, d)
  {
    hide ObserveRefusal, TransitionRefusal, UpdateRefusal, SetPolicyRefusal, RegisterRefusal, EvaluateNow, PlanRefusal, AdvanceRefusal, AbortRefusal;
    hide ObserveEffect, TransitionEffect, UpdateEffect, SetPolicyEffect, RegisterEffect, EvaluateEffect, SweepEffect, PlanEffect, AdvanceEffect;
    hide AbortEffect;
  }

  lemma TransitionIs(f: Fed, a: AcceleratorId, target: MemberState, c: Claim)
    ensures Accepted(f, Transition(a, target, c)) <==> TransitionRefusal(f, a, target, c).None?
    ensures Accepted(f, Transition(a, target, c)) ==> After(f, Transition(a, target, c)) == TransitionEffect(f, a, target)
  {
    hide ObserveRefusal, TransitionRefusal, UpdateRefusal, SetPolicyRefusal, RegisterRefusal, EvaluateNow, PlanRefusal, AdvanceRefusal, AbortRefusal;
    hide ObserveEffect, TransitionEffect, UpdateEffect, SetPolicyEffect, RegisterEffect, EvaluateEffect, SweepEffect, PlanEffect, AdvanceEffect;
    hide AbortEffect;
  }

  lemma UpdateIs(f: Fed, a: AcceleratorId, caps: CapabilitySet, e: EvidenceRecord, c: Claim)
    ensures Accepted(f, UpdateCapabilities(a, caps, e, c)) ==> After(f, UpdateCapabilities(a, caps, e, c)) == UpdateEffect(f, a, caps, e)
  {
    hide ObserveRefusal, TransitionRefusal, UpdateRefusal, SetPolicyRefusal, RegisterRefusal, EvaluateNow, PlanRefusal, AdvanceRefusal, AbortRefusal;
    hide ObserveEffect, TransitionEffect, UpdateEffect, SetPolicyEffect, RegisterEffect, EvaluateEffect, SweepEffect, PlanEffect, AdvanceEffect;
    hide AbortEffect;
  }

  lemma AdvanceIs(f: Fed, k: PlanBody, target: MigrationState, c: Claim)
    ensures Accepted(f, Advance(k, target, c)) <==> AdvanceRefusal(f, k, target, c).None?
    ensures Accepted(f, Advance(k, target, c)) ==> After(f, Advance(k, target, c)) == AdvanceEffect(f, k, target)
  {
    hide ObserveRefusal, TransitionRefusal, UpdateRefusal, SetPolicyRefusal, RegisterRefusal, EvaluateNow, PlanRefusal, AdvanceRefusal, AbortRefusal;
    hide ObserveEffect, TransitionEffect, UpdateEffect, SetPolicyEffect, RegisterEffect, EvaluateEffect, SweepEffect, PlanEffect, AdvanceEffect;
    hide AbortEffect;
  }

  /** No operation is accepted under a claim that is wrong, and a refused one changes nothing. */
  lemma WrongClaimsAreRefused(f: Fed, op: Op, c: Claim)
    requires ClaimOf(op) == Some(c)
    ensures Accepted(f, op) ==> ClaimHolds(f, c)
    ensures Accepted(f, op) ==> match MemberOf(op) case Some(a) => ClaimHoldsFor(f, a, c) case None => true
    ensures !Accepted(f, op) ==> After(f, op) == f
  {
    hide DescriptorValid, DuplicateLive, CapabilitiesValid, EvidenceValid, PolicyValid, StoredProfile, Judged, EndpointsMatch, LegalMigration;
    hide LegalTransition, Authority, ScopedAuthority, ClaimHolds, ClaimFits, Effect, EvaluateNow, Content;
    ClaimPasses(f, c);
    match op
    case Transition(a, _, _) => if a in f.members { ClaimsPassIff(f, c, f.members[a].record); }
    case UpdateCapabilities(a, _, _, _) => if a in f.members { ClaimsPassIff(f, c, f.members[a].record); }
    case _ =>
  }

  /** Within one process, whatever is claimed with a generation that has passed is refused. */
  lemma PassedGenerationsAreRefused(ws: seq<World>, es: seq<Event>, i: nat, j: nat, f: Fed, g: Fed, op: Op, c: Claim)
    requires IsRun(ws, es) && InProcess(es, i, j) && LiveAt(ws, i, f) && LiveAt(ws, j, g) && f.generation != g.generation
    requires ClaimOf(op) == Some(c) && c.checkFederationGeneration && c.federationGeneration <= f.generation
    ensures !Accepted(g, op) && After(g, op) == g
  {
    hide IsRun, Accepted, After;
    GenerationNamesContent(ws, es, i, j, f);
    WrongClaimsAreRefused(g, op, c);
  }

  /** An accepted update outdates every claim about what the member advertised before. */
  lemma UpdatesOutdateClaims(f: Fed, g: Fed, a: AcceleratorId, caps: CapabilitySet, e: EvidenceRecord, issued: Claim, op: Op, c: Claim)
    requires a in f.members && f.members[a].record.capabilityGeneration < MAX_GENERATION
    requires Accepted(f, UpdateCapabilities(a, caps, e, issued)) && g == After(f, UpdateCapabilities(a, caps, e, issued))
    requires ClaimOf(op) == Some(c) && MemberOf(op) == Some(a)
    requires c.checkCapabilityGeneration && c.capabilityGeneration == f.members[a].record.capabilityGeneration
    ensures !Accepted(g, op) && After(g, op) == g
  {
    hide Accepted, After, ClaimHolds;
    UpdateIs(f, a, caps, e, issued);
    WrongClaimsAreRefused(g, op, c);
  }

  // ---- The states of members --------------------------------------------------------------

  ghost predicate InState(f: Fed, a: AcceleratorId, s: MemberState) { a in f.members && f.members[a].record.state == s }

  ghost predicate InOneOf(f: Fed, a: AcceleratorId, states: set<MemberState>) { a in f.members && f.members[a].record.state in states }

  /** The states from which a state may be entered. */
  function EnteredFrom(target: MemberState): set<MemberState> {
    match target
    case Discovered => {}
    case Observed => {Discovered, Fenced}
    case Admitted => {Observed}
    case Active => {Admitted, MemberState.Degraded, Draining}
    case Degraded => {Admitted, Active}
    case Draining => {Admitted, Active, MemberState.Degraded}
    case Fenced => {Discovered, Observed, Admitted, Active, MemberState.Degraded, Draining}
    case Retired => {Discovered, Observed, Admitted, Active, MemberState.Degraded, Draining, Fenced}
  }

  /** Under a claim that holds, a member is moved to another state exactly from the states listed for
      it, and then is in that state. */
  lemma TransitionIff(f: Fed, a: AcceleratorId, s: MemberState, target: MemberState, c: Claim)
    requires InState(f, a, s) && s != target && ClaimHoldsFor(f, a, c)
    ensures TransitionRefusal(f, a, target, c) == if s in EnteredFrom(target) then None else Some(InvalidTransition)
    ensures s in EnteredFrom(target) ==> InState(TransitionEffect(f, a, target), a, target)
  {
    ClaimsPassIff(f, c, f.members[a].record);
    hide Authority, ScopedAuthority, ClaimHolds, ClaimFits;
  }

  /** After an accepted transition the member is in the state it was meant for. */
  lemma TransitionArrives(f: Fed, a: AcceleratorId, target: MemberState, c: Claim)
    requires Accepted(f, Transition(a, target, c))
    ensures InState(After(f, Transition(a, target, c)), a, target)
  {
    hide Accepted, After, ScopedAuthority, Authority, LegalTransition;
    TransitionIs(f, a, target, c);
  }

  /** The claim says nothing. */
  predicate Unchecked(c: Claim) {
    !c.checkFederationGeneration && !c.checkEpoch && !c.checkAgent && !c.checkBoot && !c.checkDeviceGeneration
    && !c.checkCapabilityGeneration && !c.checkPolicyGeneration
  }

  lemma Moves(f: Fed, a: AcceleratorId, s: MemberState, target: MemberState, c: Claim)
    requires !f.shutdown && InState(f, a, s) && s in EnteredFrom(target) && Unchecked(c)
    ensures Accepted(f, Transition(a, target, c)) && InState(After(f, Transition(a, target, c)), a, target)
    ensures !After(f, Transition(a, target, c)).shutdown
  {
    hide Accepted, After, TransitionEffect, TransitionRefusal;
    TransitionIff(f, a, s, target, c);
    TransitionIs(f, a, target, c);
    TransitionLeaves(f, a, target, c);
  }

  /** A device that is reported for the first time becomes active by being admitted and activated. */
  lemma ReportedMemberServes(f: Fed, d: Descriptor, claim: Claim, c: Claim, g: Fed, h: Fed)
    requires Accepted(f, Observe(d, claim)) && d.id !in f.members && Unchecked(c)
    requires g == After(f, Observe(d, claim)) && h == After(g, Transition(d.id, Admitted, c))
    ensures InState(g, d.id, Observed)
    ensures Accepted(g, Transition(d.id, Admitted, c)) && Accepted(h, Transition(d.id, Active, c))
    ensures InState(After(h, Transition(d.id, Active, c)), d.id, Active)
  {
    hide Accepted, After, InState;
    ObservedFirst(f, d, claim);
    Moves(g, d.id, Observed, Admitted, c);
    Moves(h, d.id, Admitted, Active, c);
  }

  lemma ObservedFirst(f: Fed, d: Descriptor, c: Claim)
    requires Accepted(f, Observe(d, c)) && d.id !in f.members
    ensures InState(After(f, Observe(d, c)), d.id, Observed) && !After(f, Observe(d, c)).shutdown
  {
    hide Accepted, After, DescriptorValid, DuplicateLive, Superseded;
    ObserveIs(f, d, c);
    ClaimPasses(f, c);
  }

  /** From every state but the last a member can still be brought into service. */
  lemma NobodyIsStuck(f: Fed, a: AcceleratorId, s: MemberState, c: Claim)
    requires !f.shutdown && InState(f, a, s) && s != Retired && Unchecked(c)
    ensures exists path :: |path| <= 3 && ServesAfter(f, a, c, path)
  {
    hide After, Accepted;
    var path :=
      if s == Active then []
      else if s in {Admitted, MemberState.Degraded, Draining} then [Active]
      else if s == Observed then [Admitted, Active]
      else [Observed, Admitted, Active];
    if s in {Admitted, MemberState.Degraded, Draining} {
      Moves(f, a, s, Active, c);
      FromNext(f, a, c, [Active]);
    } else if s == Observed {
      AdmittedServes(f, a, c);
    } else if s != Active {
      Moves(f, a, s, Observed, c);
      AdmittedServes(After(f, Transition(a, Observed, c)), a, c);
      assert [Observed, Admitted, Active][1..] == [Admitted, Active];
    }
    assert ServesAfter(f, a, c, path);
  }

  /** These transitions are accepted one after the other and lead into service. */
  ghost predicate ServesAfter(f: Fed, a: AcceleratorId, c: Claim, path: seq<MemberState>)
    decreases |path|
  {
    if path == [] then InState(f, a, Active)
    else Accepted(f, Transition(a, path[0], c)) && ServesAfter(After(f, Transition(a, path[0], c)), a, c, path[1..])
  }

  lemma FromNext(f: Fed, a: AcceleratorId, c: Claim, path: seq<MemberState>)
    requires |path| == 1 && Accepted(f, Transition(a, path[0], c)) && InState(After(f, Transition(a, path[0], c)), a, Active)
    ensures ServesAfter(f, a, c, path)
  {
    hide Accepted, After;
  }

  lemma AdmittedServes(f: Fed, a: AcceleratorId, c: Claim)
    requires !f.shutdown && InState(f, a, Observed) && Unchecked(c)
    ensures ServesAfter(f, a, c, [Admitted, Active])
  {
    hide Accepted, After;
    Moves(f, a, Observed, Admitted, c);
    var g := After(f, Transition(a, Admitted, c));
    Moves(g, a, Admitted, Active, c);
    FromNext(g, a, c, [Active]);
    assert [Admitted, Active][1..] == [Active];
  }

  // ---- Competing boots --------------------------------------------------------------------

  /** Another boot of the descriptor's device is admitted, active or draining. */
  ghost predicate LiveElsewhere(f: Fed, d: Descriptor, a: AcceleratorId) {
    && InOneOf(f, a, {Admitted, Active, Draining})
    && f.members[a].record.physical == d.physical && f.members[a].record.boot != d.boot
  }

  /** The descriptor is sound, and the claim is right about the federation and about its boot. */
  ghost predicate WellReported(f: Fed, d: Descriptor, c: Claim) {
    ClaimHolds(f, c) && DescriptorValid(d) && DerivedId(d) == d.id && (c.checkBoot ==> c.boot == d.boot)
  }

  /** While another boot of a device is admitted, active or draining, no report of it is accepted. */
  lemma LiveBootBarsOthers(f: Fed, d: Descriptor, c: Claim, a: AcceleratorId)
    requires LiveElsewhere(f, d, a)
    ensures ObserveRefusal(f, d, c).Some?
  {
    hide Authority, DescriptorValid, DerivedId;
    if a != d.id { assert ConflictsWith(a, f.members[a], d); }
  }

  lemma ConflictIsLiveElsewhere(f: Fed, d: Descriptor, a: AcceleratorId)
    requires MembersOk(f.members) && DerivedId(d) == d.id && a in f.members
    ensures ConflictsWith(a, f.members[a], d) <==> LiveElsewhere(f, d, a)
  {
    hide MembersOk;
    KeyedMember(f.members, a);
  }

  /** A sound report is refused as a second boot exactly when there is another one that is admitted,
      active or draining. */
  lemma SecondBootIff(f: Fed, d: Descriptor, c: Claim)
    requires Inv(f) && WellReported(f, d, c)
    ensures ObserveRefusal(f, d, c) == Some(DuplicateLiveBoot) <==> exists a :: LiveElsewhere(f, d, a)
  {
    hide Authority, ClaimHolds, DescriptorValid, DerivedId, MembersOk, PlansOk, WorkloadsOk, ConflictsWith, LiveElsewhere;
    ClaimPasses(f, c);
    forall a | a in f.members
      ensures ConflictsWith(a, f.members[a], d) <==> LiveElsewhere(f, d, a)
    {
      ConflictIsLiveElsewhere(f, d, a);
    }
    assert forall a :: LiveElsewhere(f, d, a) ==> a in f.members by { ElsewhereIsHeld(f, d); }
  }

  lemma ElsewhereIsHeld(f: Fed, d: Descriptor)
    ensures forall a :: LiveElsewhere(f, d, a) ==> a in f.members
  {
  }

  // ---- What an operation does to the state of a member ------------------------------------

  /** An accepted report of a new incarnation of the same device under the same agent. */
  ghost predicate SupersededBy(f: Fed, a: AcceleratorId, op: Op) {
    match op
    case Observe(d, _) =>
      d.id !in f.members && a in f.members && f.members[a].record.physical == d.physical && f.members[a].record.agent == d.agent
    case _ => false
  }

  ghost predicate MovedBy(a: AcceleratorId, op: Op, target: MemberState) {
    match op case Transition(b, t, _) => b == a && t == target case _ => false
  }

  /** The operation commits a plan whose source is this member. */
  ghost predicate CommitsFrom(f: Fed, a: AcceleratorId, op: Op) {
    match op
    case Advance(k, to, _) => to == Committed && k in f.plans && f.plans[k].state != Committed && f.plans[k].body.source == a
    case _ => false
  }

  /** The state that an accepted operation leaves a member in. */
  ghost function StateAfter(f: Fed, a: AcceleratorId, op: Op, s: MemberState): MemberState {
    match op
    case Transition(b, target, _) => if b == a then target else s
    case Observe(_, _) => if SupersededBy(f, a, op) then Retired else s
    case Advance(_, _, _) => if CommitsFrom(f, a, op) && s in {Active, MemberState.Degraded} then Draining else s
    case _ => s
  }

  /** States change by a transition of the member, by a newer incarnation under the same agent, which
      retires it, and by the commit of a migration away from it, which drains it; by nothing else. */
  lemma StatesChangeOnlyBy(f: Fed, op: Op, a: AcceleratorId, s: MemberState)
    requires Accepted(f, op) && InState(f, a, s)
    ensures InState(After(f, op), a, StateAfter(f, a, op, s))
  {
    hide ObserveRefusal, TransitionRefusal, UpdateRefusal, SetPolicyRefusal, RegisterRefusal, EvaluateNow, PlanRefusal;
    hide AdvanceRefusal, AbortRefusal, PlanEffect, EvaluateEffect, SweepEffect, RegisterEffect, AbortEffect, AbortAll, PrintOf;
    hide ObserveEffect, TransitionEffect, UpdateEffect, SetPolicyEffect, AdvanceEffect;
    match op
    case Observe(d, c) => ObserveMoves(f, d, c, a, s);
    case Transition(b, target, c) => TransitionMoves(f, b, target, a, s);
    case UpdateCapabilities(b, caps, e, _) => UpdateMoves(f, b, caps, e, a, s);
    case SetPolicy(body, _) => SetPolicyMoves(f, body, a, s);
    case Advance(k, to, c) => AdvanceMoves(f, k, to, c, a, s);
    case _ => EffectLeaves(f, op);
  }

  lemma ObserveMoves(f: Fed, d: Descriptor, c: Claim, a: AcceleratorId, s: MemberState)
    requires InState(f, a, s)
    ensures InState(ObserveEffect(f, d), a, StateAfter(f, a, Observe(d, c), s))
  {
    hide NewMember, Refreshed, RetiredBy, Supersedes;
    if a == d.id { RefreshKeepsState(f, f.members[a], d); } else { SupersessionRetires(d, a, f.members[a]); }
  }

  lemma RefreshKeepsState(f: Fed, m: Member, d: Descriptor)
    ensures Refreshed(f, m, d).record.state == m.record.state
  {
    hide Content;
  }

  lemma SupersessionRetires(d: Descriptor, a: AcceleratorId, m: Member)
    ensures RetiredBy(m).record.state == Retired
    ensures Supersedes(d, a, m) <==> a != d.id && m.record.physical == d.physical && m.record.agent == d.agent && m.record.state != Retired
  {
  }

  lemma TransitionMoves(f: Fed, b: AcceleratorId, target: MemberState, a: AcceleratorId, s: MemberState)
    requires InState(f, a, s)
    ensures InState(TransitionEffect(f, b, target), a, if a == b then target else s)
  {
  }

  lemma UpdateMoves(f: Fed, b: AcceleratorId, caps: CapabilitySet, e: EvidenceRecord, a: AcceleratorId, s: MemberState)
    requires InState(f, a, s)
    ensures InState(UpdateEffect(f, b, caps, e), a, s)
  {
  }

  lemma SetPolicyMoves(f: Fed, body: PolicyBody, a: AcceleratorId, s: MemberState)
    requires InState(f, a, s)
    ensures InState(SetPolicyEffect(f, body), a, s)
  {
    hide AbortAll, PrintOf;
  }

  lemma AdvanceMoves(f: Fed, k: PlanBody, to: MigrationState, c: Claim, a: AcceleratorId, s: MemberState)
    requires InState(f, a, s)
    ensures InState(AdvanceEffect(f, k, to), a, StateAfter(f, a, Advance(k, to, c), s))
  {
  }

  /** Over whole runs: a member that is admitted, active or draining is retired only by a transition
      of its own or by a report of the same device, agent and boot. */
  lemma AuthorityIsNotUsurped(ws: seq<World>, es: seq<Event>, j: nat, f: Fed, op: Op, a: AcceleratorId, g: Fed)
    requires IsRun(ws, es) && LiveAt(ws, j, f) && OpAt(es, j, op) && LiveAt(ws, j + 1, g)
    requires InOneOf(f, a, {Admitted, Active, Draining}) && InState(g, a, Retired)
    ensures MovedBy(a, op, Retired) || SameBoot(f, a, op)
  {
    hide Refusal, After, Enabled, SnapshotOf, IsStep;
    assert IsStep(ws[j], es[j], ws[j + 1]);
    OperationStep(ws[j], op, es[j].writeOk, ws[j + 1], f);
    RetiredOnlyBy(f, op, a);
  }

  /** A report of the device of this member, under its agent and in its boot. */
  ghost predicate SameBoot(f: Fed, a: AcceleratorId, op: Op) {
    match op
    case Observe(d, _) =>
      a in f.members && f.members[a].record.physical == d.physical && f.members[a].record.agent == d.agent && f.members[a].record.boot == d.boot
    case _ => false
  }

  lemma RetiredOnlyBy(f: Fed, op: Op, a: AcceleratorId)
    requires InOneOf(f, a, {Admitted, Active, Draining}) && InState(After(f, op), a, Retired)
    ensures Accepted(f, op) && (MovedBy(a, op, Retired) || SameBoot(f, a, op))
  {
    hide Accepted, After, Refusal, Effect;
    RefusedChangesNothing(f, op);
    StatesChangeOnlyBy(f, op, a, f.members[a].record.state);
    match op
    case Observe(d, c) =>
      ObserveIs(f, d, c);
      if !SameBoot(f, a, op) {
        LiveBootBarsOthers(f, d, c, a);
        assert false;
      }
    case _ =>
  }

  lemma RefusedChangesNothing(f: Fed, op: Op)
    ensures !Accepted(f, op) ==> After(f, op) == f
  {
    hide Refusal, Effect;
  }

  // ---- Plans ------------------------------------------------------------------------------

  ghost predicate PlanIn(f: Fed, k: PlanBody, s: MigrationState) { k in f.plans && f.plans[k].body == k && f.plans[k].state == s }

  /** The stages from which a stage may be entered. */
  function StageEnteredFrom(target: MigrationState): set<MigrationState> {
    match target
    case Planned => {}
    case Validated => {Planned}
    case Prepared => {Validated}
    case Transferring => {Prepared}
    case Verified => {Transferring}
    case Committed => {Verified}
    case Aborted => {Planned, Validated, Prepared, Transferring, Verified}
    case Refused => {Planned}
  }

  /** The member is still of this device generation and advertises this capability generation. */
  ghost predicate StandsAs(f: Fed, a: AcceleratorId, device: Generation, capabilities: Generation) {
    a in f.members && f.members[a].record.deviceGeneration == device && f.members[a].record.capabilityGeneration == capabilities
  }

  /** Nothing that the plan was made for has changed. */
  ghost predicate Current(f: Fed, k: PlanBody) {
    && k.epoch == f.epoch && k.policyGeneration == f.policy.generation
    && StandsAs(f, k.source, k.sourceGeneration, k.sourceCapabilityGeneration)
    && StandsAs(f, k.destination, k.destinationGeneration, k.destinationCapabilityGeneration)
  }

  ghost predicate PolicyClaimHolds(f: Fed, c: Claim) { ClaimHolds(f, c) && (c.checkPolicyGeneration ==> c.policyGeneration == f.policy.generation) }

  /** Under a claim that holds, a plan that is not current is stale, and a current one is advanced to
      another stage exactly from the stages listed for it. */
  lemma AdvanceIff(f: Fed, k: PlanBody, s: MigrationState, target: MigrationState, c: Claim)
    requires PlanIn(f, k, s) && s != target && PolicyClaimHolds(f, c)
    ensures !Current(f, k) ==> AdvanceRefusal(f, k, target, c) == Some(StaleMigration)
    ensures Current(f, k) ==> AdvanceRefusal(f, k, target, c) == if s in StageEnteredFrom(target) then None else Some(InvalidTransition)
    ensures PlanIn(AdvanceEffect(f, k, target), k, target)
  {
    ClaimPasses(f, c);
    hide Authority, ClaimHolds, Drained;
  }

  /** A plan is aborted exactly while it has neither been committed, aborted nor refused. */
  lemma AbortIff(f: Fed, k: PlanBody, s: MigrationState, text: nat, c: Claim)
    requires PlanIn(f, k, s) && ClaimHolds(f, c)
    ensures AbortRefusal(f, k, c) == if s in StageEnteredFrom(Aborted) then None else Some(InvalidTransition)
    ensures s in StageEnteredFrom(Aborted) ==> PlanIn(AbortEffect(f, k, text), k, Aborted)
  {
    ClaimPasses(f, c);
    hide Authority, ClaimHolds, SortReasons;
  }

  /** The plan is current, at this stage, and the instance runs. */
  ghost predicate Movable(f: Fed, k: PlanBody, s: MigrationState) { !f.shutdown && PlanIn(f, k, s) && Current(f, k) }

  lemma Climbs(f: Fed, k: PlanBody, s: MigrationState, target: MigrationState, c: Claim)
    requires Movable(f, k, s) && s in StageEnteredFrom(target) && Unchecked(c)
    ensures Accepted(f, Advance(k, target, c)) && PlanIn(After(f, Advance(k, target, c)), k, target)
    ensures target != Committed ==> Movable(After(f, Advance(k, target, c)), k, target)
  {
    hide Accepted, After, AdvanceRefusal, Drained;
    AdvanceIff(f, k, s, target, c);
    AdvanceIs(f, k, target, c);
    AdvanceKeepsStanding(f, k, target);
  }

  lemma AdvanceKeepsStanding(f: Fed, k: PlanBody, target: MigrationState)
    ensures AdvanceEffect(f, k, target).shutdown == f.shutdown
    ensures target != Committed && Current(f, k) ==> Current(AdvanceEffect(f, k, target), k)
  {
    hide Drained;
  }

  /** A current plan can be carried through to its commit. */
  lemma PlansCanCommit(f: Fed, k: PlanBody, c: Claim)
    requires Movable(f, k, Planned) && Unchecked(c)
    ensures CommitsAfter(f, k, c, [Validated, Prepared, Transferring, Verified, Committed])
  {
    hide Accepted, After, Movable;
    Climbs(f, k, Planned, Validated, c);
    var f1 := After(f, Advance(k, Validated, c));
    Climbs(f1, k, Validated, Prepared, c);
    var f2 := After(f1, Advance(k, Prepared, c));
    Climbs(f2, k, Prepared, Transferring, c);
    var f3 := After(f2, Advance(k, Transferring, c));
    Climbs(f3, k, Transferring, Verified, c);
    var f4 := After(f3, Advance(k, Verified, c));
    Climbs(f4, k, Verified, Committed, c);
    var path := [Validated, Prepared, Transferring, Verified, Committed];
    assert path[1..] == [Prepared, Transferring, Verified, Committed] && path[1..][1..] == [Transferring, Verified, Committed];
    assert path[1..][1..][1..] == [Verified, Committed] && path[1..][1..][1..][1..] == [Committed];
    assert path[1..][1..][1..][1..][1..] == [];
  }

  /** These advances are accepted one after the other and end in a commit. */
  ghost predicate CommitsAfter(f: Fed, k: PlanBody, c: Claim, path: seq<MigrationState>)
    decreases |path|
  {
    if path == [] then PlanIn(f, k, Committed)
    else Accepted(f, Advance(k, path[0], c)) && CommitsAfter(After(f, Advance(k, path[0], c)), k, c, path[1..])
  }

  /** Once a migration is committed, its source takes no new work. */
  lemma CommittedSourceStopsServing(f: Fed, k: PlanBody, c: Claim, p: Profile, source: Option<AcceleratorId>, current: bool, d: Decision)
    requires PlanIn(f, k, Verified) && Accepted(f, Advance(k, Committed, c))
    requires EvaluateWith(After(f, Advance(k, Committed, c)), p, k.source, source, current) == Ok(d)
    ensures d.outcome == Ineligible
  {
    hide After, Accepted, EvaluateWith;
    var g := After(f, Advance(k, Committed, c));
    CommittedSource(f, k, c);
    NotServing(g, p, k.source, source, current, d);
  }

  lemma CommittedSource(f: Fed, k: PlanBody, c: Claim)
    requires PlanIn(f, k, Verified) && Accepted(f, Advance(k, Committed, c))
    ensures k.source in f.members && !InState(After(f, Advance(k, Committed, c)), k.source, Active)
  {
    hide After, Accepted, Authority, LegalMigration;
    AdvanceIs(f, k, Committed, c);
    hide AdvanceEffect;
    StatesChangeOnlyBy(f, Advance(k, Committed, c), k.source, f.members[k.source].record.state);
  }

  lemma NotServing(f: Fed, p: Profile, a: AcceleratorId, source: Option<AcceleratorId>, current: bool, d: Decision)
    requires !InState(f, a, Active) && EvaluateWith(f, p, a, source, current) == Ok(d)
    ensures d.outcome == Ineligible
  {
    hide OutcomeOf, WorkloadValid, PolicyValid, ScoreOf, ReasonsFor, ClassFor, SourceFor, LongestExplanation;
    var c := ContextFor(f, p, a, source, current);
    CompatibilityTheorems.IdleMemberIsIneligible(p.workload, c.policy.value.body, c.target, c.target.capabilities.value, c.source);
  }

  /** Asking again for the state a member is in, or the stage a plan is at, is accepted and changes
      nothing. */
  lemma RepeatsChangeNothing(f: Fed, a: AcceleratorId, s: MemberState, k: PlanBody, stage: MigrationState, c: Claim)
    ensures InState(f, a, s) && ClaimHoldsFor(f, a, c) ==>
              Accepted(f, Transition(a, s, c)) && After(f, Transition(a, s, c)) == f
    ensures PlanIn(f, k, stage) && Current(f, k) && PolicyClaimHolds(f, c) ==>
              Accepted(f, Advance(k, stage, c)) && After(f, Advance(k, stage, c)) == f
  {
    TransitionIs(f, a, s, c);
    AdvanceIs(f, k, stage, c);
    hide Accepted, After, Authority, ScopedAuthority;
    ClaimPasses(f, c);
    if a in f.members { ClaimsPassIff(f, c, f.members[a].record); }
  }

  // ---- Ageing evidence --------------------------------------------------------------------

  /** The observation need not be repeated, and is no older than the policy permits, if it decays. */
  ghost predicate Young(e: EvidenceRecord, now: int, budget: nat) {
    !e.requiresRevalidation && (e.dynamic && budget > 0 ==> now <= e.observedAt + budget)
  }

  /** Evidence is fresh exactly when every record of it is young. */
  lemma FreshMeansYoung(f: Fed, a: AcceleratorId, m: Member, now: int)
    requires a in f.members && f.members[a] == m
    ensures FreshAt(f, a, now) <==> forall i :: 0 <= i < |m.descriptor.evidence| ==> Young(m.descriptor.evidence[i], now, f.policy.body.freshnessNanos)
  {
    assert forall e, budget :: Young(e, now, budget) <==> EvidenceUsable(e, now, budget);
  }

  /** Time never makes evidence fresh again, and neither does a tighter policy. */
  lemma FreshnessOnlyFades(f: Fed, g: Fed, a: AcceleratorId, now: int, later: int)
    requires g.members == f.members && now <= later && FreshAt(g, a, later)
    requires f.policy.body.freshnessNanos > 0 ==> 0 < g.policy.body.freshnessNanos <= f.policy.body.freshnessNanos
    ensures FreshAt(f, a, now)
  {
    var b, c := f.policy.body.freshnessNanos, g.policy.body.freshnessNanos;
    forall i | 0 <= i < |f.members[a].descriptor.evidence|
      ensures EvidenceUsable(f.members[a].descriptor.evidence[i], now, b)
    {
      assert EvidenceUsable(g.members[a].descriptor.evidence[i], later, c);
    }
  }

  // ---- Restarts ---------------------------------------------------------------------------

  ghost predicate StoredIn(disk: Option<Snapshot>, a: AcceleratorId, s: MemberState) {
    disk.Some? && a in disk.value.members && disk.value.members[a].record.state == s
  }

  /** What was admitted, active, degraded or draining comes back degraded, everything else as it was. */
  lemma RestartedStates(disk: Option<Snapshot>, c: Config, a: AcceleratorId, s: MemberState)
    requires StoredIn(disk, a, s)
    ensures InState(Opened(disk, c), a, if s in {Admitted, Active, MemberState.Degraded, Draining} then MemberState.Degraded else s)
  {
    FederationHistory.OpenedMembers(disk, c);
    hide Opened;
  }

  /** Hence after a restart no boot of any device is barred by another. */
  lemma RestartBarsNoBoot(disk: Option<Snapshot>, config: Config, d: Descriptor, c: Claim)
    ensures ObserveRefusal(Opened(disk, config), d, c) != Some(DuplicateLiveBoot)
  {
    hide Opened, DescriptorValid;
    var f := Opened(disk, config);
    forall a | a in f.members
      ensures !InOneOf(f, a, {Admitted, Active, Draining})
    {
      HeldWasStored(disk, config, a);
      RestartedStates(disk, config, a, disk.value.members[a].record.state);
    }
  }

  lemma HeldWasStored(disk: Option<Snapshot>, c: Config, a: AcceleratorId)
    requires a in Opened(disk, c).members
    ensures disk.Some? && a in disk.value.members
  {
    FederationHistory.OpenedMembers(disk, c);
    hide Opened;
  }
}
