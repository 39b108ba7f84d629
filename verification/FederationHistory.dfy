/** Members and plans followed through whole runs. */
module FederationHistory {
  import opened Prelude
  import opened Capability
  import opened Compatibility
  import opened Migration
  import opened Federation
  import opened FederationInvariants
  import opened FederationSteps
  import opened FederationRuns

  // ---- Runs whose writes succeed ----------------------------------------------------------

  predicate SteadyEvent(e: Event) { e.writeOk && match e case Open(c, _) => c.durable && c.eager case Run(_, _) => true }

  /** Every mutation is written and every write succeeds. */
  ghost predicate Steady(es: seq<Event>) { forall i :: 0 <= i < |es| ==> SteadyEvent(es[i]) }

  /** The store holds the running instance, except that its generation may lag: a planner error
      advances the generation without a write. */
  ghost predicate Synced(w: World) {
    w.live.Some? ==>
      && w.disk.Some? && w.live.value.durable && w.live.value.eager
      && w.disk.value.members == w.live.value.members && w.disk.value.plans == w.live.value.plans
      && w.disk.value.epoch == w.live.value.epoch && w.disk.value.generation <= w.live.value.generation
  }

  ghost function StoredMembers(w: World): map<AcceleratorId, Member> {
    match w.disk case Some(s) => s.members case None => map[]
  }

  ghost function StoredPlans(w: World): map<PlanBody, Plan> { match w.disk case Some(s) => s.plans case None => map[] }

  lemma UnwrittenKeeps(f: Fed, op: Op)
    requires Refusal(f, op).None? ==> !Writes(f, op)
    ensures After(f, op).members == f.members && After(f, op).plans == f.plans
  {
    hide ObserveRefusal, TransitionRefusal, UpdateRefusal, SetPolicyRefusal, RegisterRefusal, EvaluateNow, PlanRefusal;
    hide AdvanceRefusal, AbortRefusal, PlanResult, PlanCache, SweepKeeps;
    hide ObserveEffect, UpdateEffect, SetPolicyEffect, RegisterEffect, EvaluateEffect, AbortEffect;
    hide Drained;
  }

  lemma SyncedRun(w: World, op: Op, v: World, f: Fed)
    requires Synced(w) && IsStep(w, Run(op, true), v) && w.live == Some(f)
    ensures Synced(v) && v.live == Some(After(f, op))
  {
    hide Enabled, After, Refusal, Writes;
    StepVersioned(f, op);
    if Refusal(f, op).None? ==> !Writes(f, op) { UnwrittenKeeps(f, op); }
  }

  lemma SyncedOpen(w: World, c: Config, v: World)
    requires Synced(w) && IsStep(w, Open(c, true), v) && c.durable && c.eager
    ensures Synced(v)
    ensures v.disk == w.disk || (v.live == Some(Opened(w.disk, c)) && v.disk == Some(SnapshotOf(Opened(w.disk, c))))
  {
    hide IsStep, Opened, OpenRefusal;
    ReopenStep(w, c, true, v);
    OpenedModes(w.disk, c);
  }

  lemma {:induction false} RunsStaySynced(ws: seq<World>, es: seq<Event>, i: nat)
    requires IsRun(ws, es) && Steady(es)
    ensures Synced(At(ws, i))
  {
    hide IsStep, After, Opened, SnapshotOf;
    if 0 < i < |ws| {
      RunsStaySynced(ws, es, i - 1);
      assert IsStep(ws[i - 1], es[i - 1], ws[i - 1 + 1]) && SteadyEvent(es[i - 1]);
      match es[i - 1]
      case Run(op, writeOk) =>
        OperationRuns(ws[i - 1], op, writeOk, ws[i]);
        SyncedRun(ws[i - 1], op, ws[i], ws[i - 1].live.value);
      case Open(c, _) => SyncedOpen(ws[i - 1], c, ws[i]);
    }
  }

  // ---- Capability generations name content ------------------------------------------------

  lemma RecoveredEvolves(s: Snapshot, a: AcceleratorId)
    requires a in s.members
    ensures a in RecoveredMembers(s) && Evolves(s.members[a], RecoveredMembers(s)[a])
    ensures RecoveredMembers(s)[a].record.state == RecoveredState(s.members[a].record.state)
  {
  }

  lemma OpenedMembers(disk: Option<Snapshot>, c: Config)
    ensures Opened(disk, c).members == match disk case Some(s) => RecoveredMembers(s) case None => map[]
    ensures Opened(disk, c).plans == match disk case Some(s) => AbortAll(s.plans, AUTHORITY_ADVANCED) case None => map[]
  {
    hide RecoveredMembers, AbortAll;
  }

  /** Edges of a member's lifecycle, a restart included. */
  predicate DurableEdge(from: MemberState, to: MemberState) { StateEdge(from, to) || to == RecoveredState(from) }

  /** A stored member is still there and has only evolved. */
  ghost predicate StoredEvolves(w: World, v: World, a: AcceleratorId) {
    a in StoredMembers(w) && a in StoredMembers(v) && Evolves(StoredMembers(w)[a], StoredMembers(v)[a])
  }

  ghost predicate StoredEdge(w: World, v: World, a: AcceleratorId) {
    && a in StoredMembers(w) && a in StoredMembers(v)
    && DurableEdge(StoredMembers(w)[a].record.state, StoredMembers(v)[a].record.state)
  }

  lemma StoredMemberSteps(w: World, e: Event, v: World, a: AcceleratorId)
    requires Synced(w) && IsStep(w, e, v) && a in StoredMembers(w) && SteadyEvent(e)
    ensures StoredEvolves(w, v, a) && StoredEdge(w, v, a)
  {
    hide IsStep, LegalTransition, RecoveredState, After, Opened, Touches;
    match e
    case Run(op, writeOk) =>
      OperationRuns(w, op, writeOk, v);
      var f := w.live.value;
      SyncedRun(w, op, v, f);
      EveryMemberSteps(f, op, a);
    case Open(c, _) =>
      SyncedOpen(w, c, v);
      OpenedMembers(w.disk, c);
      EvolvesReflexive(StoredMembers(w)[a]);
      RecoveredEvolves(w.disk.value, a);
      hide Evolves;
  }

  /** Along any run whose writes succeed, restarts included, a member is never lost, its identity
      is fixed, its capability generation never falls, one generation names one content, and
      retirement is final. */
  lemma {:induction false} CapabilityGenerationNamesContent(ws: seq<World>, es: seq<Event>, i: nat, j: nat, a: AcceleratorId)
    requires IsRun(ws, es) && Steady(es) && i <= j < |ws| && a in StoredMembers(At(ws, i))
    ensures StoredEvolves(At(ws, i), At(ws, j), a)
    decreases j
  {
    hide IsStep, Evolves;
    if i < j {
      CapabilityGenerationNamesContent(ws, es, i, j - 1, a);
      RunsStaySynced(ws, es, j - 1);
      assert IsStep(ws[j - 1], es[j - 1], ws[j - 1 + 1]) && SteadyEvent(es[j - 1]);
      StoredMemberSteps(ws[j - 1], es[j - 1], ws[j], a);
      EvolvesTransitive(StoredMembers(ws[i])[a], StoredMembers(ws[j - 1])[a], StoredMembers(ws[j])[a]);
    } else {
      EvolvesReflexive(StoredMembers(ws[i])[a]);
    }
  }

  lemma EvolvesReflexive(m: Member)
    ensures Evolves(m, m)
  {
  }

  ghost predicate LiveEvolves(f: Fed, g: Option<Fed>, a: AcceleratorId) {
    a in f.members && g.Some? && a in g.value.members && Evolves(f.members[a], g.value.members[a])
  }

  /** The same within one process, whatever becomes of its writes. */
  lemma {:induction false} MembersEvolve(ws: seq<World>, es: seq<Event>, i: nat, j: nat, f: Fed, a: AcceleratorId)
    requires IsRun(ws, es) && InProcess(es, i, j) && LiveAt(ws, i, f) && a in f.members
    ensures LiveEvolves(f, At(ws, j).live, a)
    decreases j
  {
    hide IsStep, Evolves, After, MemberStep, Enabled, SnapshotOf, Touches;
    if i < j {
      MembersEvolve(ws, es, i, j - 1, f, a);
      assert IsStep(ws[j - 1], es[j - 1], ws[j - 1 + 1]);
      var g, op := ws[j - 1].live.value, es[j - 1].op;
      OperationStep(ws[j - 1], op, es[j - 1].writeOk, ws[j], g);
      EveryMemberSteps(g, op, a);
      StepEvolves(g.members[a], After(g, op).members[a], Touches(g, op, a), Activates(op));
      EvolvesTransitive(f.members[a], g.members[a], After(g, op).members[a]);
    } else {
      EvolvesReflexive(f.members[a]);
    }
  }

  lemma StepEvolves(m: Member, n: Member, touched: bool, activates: bool)
    requires MemberStep(m, n, touched, activates)
    ensures Evolves(m, n)
  {
  }

  // ---- Lifecycle paths --------------------------------------------------------------------

  /** The stored member is in one of these states. */
  ghost predicate StateIn(w: World, a: AcceleratorId, states: set<MemberState>) {
    a in StoredMembers(w) && StoredMembers(w)[a].record.state in states
  }

  /** Some point shows the member Observed and some later point shows it Admitted. */
  ghost predicate Readmitted(ws: seq<World>, i: nat, j: nat, a: AcceleratorId) {
    exists m: nat, n: nat :: i <= m < n <= j && StateIn(At(ws, m), a, {Observed}) && StateIn(At(ws, n), a, {Admitted})
  }

  /** A fenced member is active again only after it was observed and then admitted anew,
      whatever restarts happened in between. */
  lemma {:induction false} FencedMembersMustReturn(ws: seq<World>, es: seq<Event>, i: nat, j: nat, a: AcceleratorId)
    requires IsRun(ws, es) && Steady(es) && i <= j < |ws| && StateIn(At(ws, i), a, {Fenced})
    ensures StateIn(At(ws, j), a, {Fenced, Observed, Retired}) || (a in StoredMembers(At(ws, j)) && Readmitted(ws, i, j, a))
    decreases j
  {
    hide IsStep, Evolves;
    if i < j {
      FencedMembersMustReturn(ws, es, i, j - 1, a);
      RunsStaySynced(ws, es, j - 1);
      assert IsStep(ws[j - 1], es[j - 1], ws[j - 1 + 1]) && SteadyEvent(es[j - 1]);
      StoredMemberSteps(ws[j - 1], es[j - 1], ws[j], a);
      Returning(ws, i, j, a);
    }
  }

  lemma Returning(ws: seq<World>, i: nat, j: nat, a: AcceleratorId)
    requires i < j && StoredEdge(At(ws, j - 1), At(ws, j), a)
    requires StateIn(At(ws, j - 1), a, {Fenced, Observed, Retired}) || Readmitted(ws, i, j - 1, a)
    ensures StateIn(At(ws, j), a, {Fenced, Observed, Retired}) || Readmitted(ws, i, j, a)
  {
    if StateIn(At(ws, j - 1), a, {Fenced, Observed, Retired}) && !StateIn(At(ws, j), a, {Fenced, Observed, Retired}) {
      assert StateIn(At(ws, j - 1), a, {Observed}) && StateIn(At(ws, j), a, {Admitted});
    }
  }
}
