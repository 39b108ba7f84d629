/** What the federation does not promise, with the runs that show it, and the exact condition
    under which it does. */
module FederationLimits {
  import opened Prelude
  import opened Capability
  import opened Portability
  import opened Compatibility
  import opened Migration
  import opened StoredForm
  import opened Vocabulary
  import opened CompatibilityTheorems
  import opened Federation
  import opened FederationInvariants
  import opened FederationSteps
  import opened FederationRuns
  import opened FederationStore
  import opened FederationPublication
  import Token
  import Version
  import VersionRange

  // ---- One device, one holder -------------------------------------------------------------

  ghost predicate Unretired(f: Fed, a: AcceleratorId, m: Member) { a in f.members && f.members[a] == m && m.record.state != Retired }

  /** In every reachable state, two unretired incarnations of one device are the same member exactly
      when they have the same agent. */
  lemma OneIncarnationPerAgent(ws: seq<World>, es: seq<Event>, i: nat, f: Fed, a: AcceleratorId, b: AcceleratorId, m: Member, n: Member)
    requires IsRun(ws, es) && EpochsRemain(ws) && LiveAt(ws, i, f)
    requires Unretired(f, a, m) && Unretired(f, b, n) && m.record.physical == n.record.physical
    ensures a == b <==> m.record.agent == n.record.agent
  {
    hide IsRun, PlansOk, WorkloadsOk;
    LiveInv(ws, es, i, f);
    KeyedMember(f.members, a);
    KeyedMember(f.members, b);
  }

  // ---- A run in which two agents hold one device ------------------------------------------

  const NO_CLAIM := Claim(false, 0, false, 0, false, 0, false, 0, false, 0, false, 0, false, Assigned(0))

  const SMALL_ADVERTISEMENT := CapabilitySet(map[MEMORY_TOTAL := CapabilityRecord(Supported, Integer(0x4000_0000), "")], {})

  function Report(agent: AgentId): Descriptor {
    Descriptor(Incarnation(1, agent, 1, 1), 1, agent, 1, 1, "acme", SMALL_ADVERTISEMENT, 1, UnknownLevel, Synthetic, [], [], true)
  }

  const FIRST := Report(1)
  const SECOND := Report(2)

  const DEFAULTS := Config(1, "federation", Policy(Assigned(0), Assigned(0), PERMISSIVE_POLICY), true, true, 16)

  lemma SmallIsValid()
    ensures CapabilitiesValid(SMALL_ADVERTISEMENT) && SMALL_ADVERTISEMENT.records != map[] && VENDOR !in SMALL_ADVERTISEMENT.records
  {
    assert KeyName(MEMORY_TOTAL) == Some(MEMORY_TOTAL) && KeyKind(MEMORY_TOTAL) == Some(IntegerKind) by {
      assert !NamesEnumeration(MEMORY_TOTAL) && !NamesVersion(MEMORY_TOTAL) && NamesInteger(MEMORY_TOTAL) by {
        assert MEMORY_TOTAL[0] == 'm';
      }
    }
    hide KeyName, KeyKind;
    assert EntryValid(MEMORY_TOTAL, SMALL_ADVERTISEMENT.records[MEMORY_TOTAL]);
    assert MEMORY_TOTAL in SMALL_ADVERTISEMENT.records;
    assert VENDOR[0] != MEMORY_TOTAL[0];
  }

  lemma ReportIsValid(agent: AgentId)
    requires agent != 0
    ensures DescriptorValid(Report(agent)) && DerivedId(Report(agent)) == Report(agent).id
  {
    hide CapabilitiesValid;
    SmallIsValid();
  }

  lemma FirstReport(f: Fed)
    requires !f.shutdown && f.members == map[]
    ensures ObserveRefusal(f, FIRST, NO_CLAIM).None?
    ensures ObserveEffect(f, FIRST).members == map[FIRST.id := NewMember(f, FIRST)]
    ensures !ObserveEffect(f, FIRST).shutdown
  {
    hide DescriptorValid, NewMember;
    ReportIsValid(1);
    assert Superseded(f.members, FIRST) == map[];
  }

  lemma SecondReport(f: Fed, m: Member)
    requires !f.shutdown && f.members == map[FIRST.id := m]
    requires m.record.state == Observed && m.record.agent == 1 && m.record.physical == 1
    ensures ObserveRefusal(f, SECOND, NO_CLAIM).None?
    ensures ObserveEffect(f, SECOND).members == map[FIRST.id := m, SECOND.id := NewMember(f, SECOND)]
    ensures !ObserveEffect(f, SECOND).shutdown
  {
    hide DescriptorValid, NewMember, RetiredBy;
    ReportIsValid(2);
    assert Superseded(f.members, SECOND) == f.members;
  }

  ghost predicate StandsAt(f: Fed, a: AcceleratorId, state: MemberState, physical: PhysicalId) {
    a in f.members && f.members[a].record.state == state && f.members[a].record.physical == physical
  }

  lemma Admit(f: Fed, a: AcceleratorId, b: AcceleratorId, physical: PhysicalId, state: MemberState)
    requires !f.shutdown && StandsAt(f, a, Observed, physical) && a != b && StandsAt(f, b, state, physical)
    ensures TransitionRefusal(f, a, Admitted, NO_CLAIM).None?
    ensures StandsAt(TransitionEffect(f, a, Admitted), a, Admitted, physical) && StandsAt(TransitionEffect(f, a, Admitted), b, state, physical)
    ensures !TransitionEffect(f, a, Admitted).shutdown
  {
  }

  /** After two reports and two admissions, two agents hold one device. */
  lemma TwoAgentsCanHoldOneDevice(f0: Fed, f1: Fed, f2: Fed, f3: Fed, f4: Fed)
    requires !f0.shutdown && f0.members == map[]
    requires f1 == After(f0, Observe(FIRST, NO_CLAIM)) && f2 == After(f1, Observe(SECOND, NO_CLAIM))
    requires f3 == After(f2, Transition(FIRST.id, Admitted, NO_CLAIM)) && f4 == After(f3, Transition(SECOND.id, Admitted, NO_CLAIM))
    ensures FIRST.id != SECOND.id && StandsAt(f4, FIRST.id, Admitted, FIRST.physical) && StandsAt(f4, SECOND.id, Admitted, FIRST.physical)
  {
    hide ObserveRefusal, TransitionRefusal, ObserveEffect, TransitionEffect, UpdateRefusal, SetPolicyRefusal, RegisterRefusal, EvaluateNow;
    hide PlanRefusal, AdvanceRefusal, AbortRefusal, UpdateEffect, SetPolicyEffect, RegisterEffect, EvaluateEffect, SweepEffect, PlanEffect;
    hide AdvanceEffect, AbortEffect;
    var a, b := FIRST.id, SECOND.id;
    FirstReport(f0);
    SecondReport(f1, NewMember(f0, FIRST));
    Admit(f2, a, b, 1, Observed);
    Admit(f3, b, a, 1, Admitted);
  }

  // ---- Runs from nothing ------------------------------------------------------------------

  /** What the first open under the defaults leaves. */
  ghost predicate Blank(f: Fed) {
    && Inv(f) && Readable(f) && f.id == DEFAULTS.id && f.policy == PolicyOf(PERMISSIVE_POLICY) && f.generation == 1
    && !f.shutdown && f.durable && f.eager && f.members == map[]
  }

  function Stored(f: Fed): World { World(Some(SnapshotOf(f)), Some(f)) }

  lemma OpensFromNothing() returns (f: Fed)
    ensures Blank(f) && IsStep(World(None, None), Open(DEFAULTS, true), Stored(f))
  {
    hide PolicyReadable, PolicyOf;
    FirstOpenReadable(DEFAULTS);
    f := FreshFed(DEFAULTS);
  }

  lemma Begins(e: Event, w: World)
    requires IsStep(World(None, None), e, w)
    ensures IsRun([World(None, None), w], [e])
  {
    hide IsStep;
  }

  lemma Extends(ws: seq<World>, es: seq<Event>, e: Event, w: World)
    requires IsRun(ws, es) && IsStep(At(ws, |es|), e, w)
    ensures IsRun(ws + [w], es + [e])
  {
    hide IsStep;
    var vs, ds := ws + [w], es + [e];
    forall i | 0 <= i < |ds|
      ensures IsStep(vs[i], ds[i], vs[i + 1])
    {
      if i < |es| { assert IsStep(ws[i], es[i], ws[i + 1]); }
    }
  }

  lemma Runs(disk: Option<Snapshot>, f: Fed, op: Op, writeOk: bool)
    requires Refusal(f, op).None? && Enabled(f, op) && f.durable && f.eager
    ensures IsStep(World(disk, Some(f)), Run(op, writeOk), World(if Writes(f, op) && writeOk then Some(SnapshotOf(Effect(f, op))) else disk, Some(Effect(f, op))))
  {
    hide Refusal, Effect, Enabled, Writes, SnapshotOf;
  }

  /** A run that goes on from a stored instance. */
  lemma RunsOn(ws: seq<World>, es: seq<Event>, f: Fed, op: Op, writeOk: bool)
    requires IsRun(ws, es) && At(ws, |es|) == Stored(f) && Inv(f) && f.durable && f.eager && Refusal(f, op).None? && Enabled(f, op)
    ensures IsRun(ws + [World(if Writes(f, op) && writeOk then Some(SnapshotOf(Effect(f, op))) else Some(SnapshotOf(f)), Some(Effect(f, op)))],
                  es + [Run(op, writeOk)])
    ensures Inv(Effect(f, op)) && Effect(f, op).durable && Effect(f, op).eager
  {
    hide IsStep, Refusal, Effect, Enabled, Writes, Inv, SnapshotOf;
    EffectInv(f, op);
    EffectLeaves(f, op);
    Runs(Some(SnapshotOf(f)), f, op, writeOk);
    Extends(ws, es, Run(op, writeOk),
            World(if Writes(f, op) && writeOk then Some(SnapshotOf(Effect(f, op))) else Some(SnapshotOf(f)), Some(Effect(f, op))));
  }

  /** The last event of a run was accepted on this instance. */
  ghost predicate EndsAccepted(ws: seq<World>, es: seq<Event>, f: Fed, op: Op) {
    IsRun(ws, es) && |es| > 0 && Accepts(At(ws, |es| - 1), EventAt(es, |es| - 1), f, op)
  }

  lemma EndsHere(ws: seq<World>, es: seq<Event>, f: Fed, op: Op, writeOk: bool, v: World)
    requires At(ws, |es|) == Stored(f) && Refusal(f, op).None? && IsRun(ws, es) && IsRun(ws + [v], es + [Run(op, writeOk)])
    ensures EndsAccepted(ws + [v], es + [Run(op, writeOk)], f, op)
  {
    hide IsStep, Refusal, SnapshotOf;
  }

  // ---- A reader sees what was not stored --------------------------------------------------

  /** There is a live member that the store does not have. */
  ghost predicate ShowsUnstored(w: World) {
    w.live.Some? && w.disk.Some? && exists a :: a in w.live.value.members && a !in w.disk.value.members
  }

  /** A run whose last event was accepted and left such a member behind. */
  lemma FailedWriteShows()
    ensures exists ws, es, f, op :: EndsAccepted(ws, es, f, op) && ShowsUnstored(At(ws, |es|))
  {
    hide ObserveEffect, ObserveRefusal, IsStep, Refusal, Effect, Enabled, Writes, Inv, Readable, PolicyOf, NewMember, EndsAccepted;
    var f := OpensFromNothing();
    Begins(Open(DEFAULTS, true), Stored(f));
    var op := Observe(FIRST, NO_CLAIM);
    FirstReport(f);
    ObserveIs(f, FIRST, NO_CLAIM);
    var ws, es := [World(None, None), Stored(f)], [Open(DEFAULTS, true)];
    RunsOn(ws, es, f, op, false);
    var w := World(Some(SnapshotOf(f)), Some(Effect(f, op)));
    EndsHere(ws, es, f, op, false, w);
    assert FIRST.id in w.live.value.members && FIRST.id !in w.disk.value.members;
    assert ShowsUnstored(At(ws + [w], |es + [Run(op, false)]|));
  }

  lemma ObserveIs(f: Fed, d: Descriptor, c: Claim)
    requires ObserveRefusal(f, d, c).None?
    ensures Refusal(f, Observe(d, c)).None? && Enabled(f, Observe(d, c)) && Writes(f, Observe(d, c))
    ensures Effect(f, Observe(d, c)) == ObserveEffect(f, d)
  {
    hide ObserveRefusal, ObserveEffect, TransitionRefusal, UpdateRefusal, SetPolicyRefusal, RegisterRefusal, EvaluateNow, PlanRefusal;
    hide AdvanceRefusal, AbortRefusal, TransitionEffect, UpdateEffect, SetPolicyEffect, RegisterEffect, EvaluateEffect, SweepEffect, PlanEffect;
    hide AdvanceEffect, AbortEffect, PlanResult, Evicted, PlanCache;
  }

  // ---- A generation that was not stored ---------------------------------------------------

  /** The store is behind. */
  ghost predicate StoreLags(w: World) { w.live.Some? && w.disk.Some? && w.disk.value.generation < w.live.value.generation }

  ghost predicate AllWritesSucceed(es: seq<Event>) { forall i :: 0 <= i < |es| ==> es[i].writeOk }

  function Registering(w: Workload): Op { RegisterWorkload(w, 1, NO_CLAIM) }

  function BareProfile(): Profile { StoredProfile(BARE_WORKLOAD, 1) }

  lemma Registers(f: Fed)
    requires !f.shutdown
    ensures Refusal(f, Registering(BARE_WORKLOAD)).None?
    ensures Enabled(f, Registering(BARE_WORKLOAD)) && Writes(f, Registering(BARE_WORKLOAD))
    ensures Effect(f, Registering(BARE_WORKLOAD))
            == f.(workloads := f.workloads[BARE_WORKLOAD.classId := BareProfile()], generation := Next(f.generation))
    ensures BareProfile().workload == BARE_WORKLOAD
  {
    hide DeriveRevision, ObserveRefusal, TransitionRefusal, UpdateRefusal, SetPolicyRefusal, EvaluateNow, PlanRefusal, AdvanceRefusal, AbortRefusal;
    hide ObserveEffect, TransitionEffect, UpdateEffect, SetPolicyEffect, EvaluateEffect, SweepEffect, PlanEffect, AdvanceEffect, AbortEffect;
  }

  lemma PermissiveIsValid()
    ensures PolicyValid(PolicyOf(PERMISSIVE_POLICY))
  {
    hide PrintOf;
  }

  ghost predicate Ready(f: Fed, a: AcceleratorId) {
    && Inv(f) && !f.shutdown && f.generation < MAX_GENERATION && f.policy == PolicyOf(PERMISSIVE_POLICY) && a in f.members
    && BARE_WORKLOAD.classId in f.workloads && f.workloads[BARE_WORKLOAD.classId].workload == BARE_WORKLOAD
  }

  function SelfPlan(a: AcceleratorId): Op { Op.Plan(BARE_WORKLOAD.classId, a, a, 0, 0, NO_CLAIM, {}) }

  lemma SelfJudged(f: Fed, a: AcceleratorId)
    requires Ready(f, a)
    ensures PlanRefusal(f, BARE_WORKLOAD.classId, a, a, 0, NO_CLAIM).None?
  {
    assert MemberOk(a, f.members[a]);
    PermissiveIsValid();
    hide DecisionFor, PolicyValid, PolicyOf, Inv, FreshAt, SourceFor;
    assert Judged(f, BARE_WORKLOAD.classId, a, a, 0).Ok?;
    hide Judged;
  }

  lemma SelfPlanIsAccepted(f: Fed, a: AcceleratorId)
    requires Ready(f, a)
    ensures Refusal(f, SelfPlan(a)).None? && Enabled(f, SelfPlan(a)) && !Writes(f, SelfPlan(a))
    ensures Effect(f, SelfPlan(a)) == f.(generation := Next(f.generation))
  {
    hide PolicyOf, Inv, PlanRefusal, PlanResult, PlanCache, Evicted, BARE_WORKLOAD;
    hide ObserveRefusal, TransitionRefusal, UpdateRefusal, SetPolicyRefusal, RegisterRefusal, EvaluateNow, AdvanceRefusal, AbortRefusal;
    hide ObserveEffect, TransitionEffect, UpdateEffect, SetPolicyEffect, RegisterEffect, EvaluateEffect, SweepEffect, AdvanceEffect, AbortEffect;
    SelfJudged(f, a);
    SelfPlanFails(f, BARE_WORKLOAD.classId, a, a, 0, NO_CLAIM);
  }

  /** Observing, registering and planning a migration from a device to itself, all with successful
      writes, leaves the store behind. */
  lemma SelfMigrationLeavesStoreBehind()
    ensures exists ws, es, f, op :: EndsAccepted(ws, es, f, op) && AllWritesSucceed(es) && StoreLags(At(ws, |es|))
  {
    hide ObserveEffect, ObserveRefusal, IsStep, Refusal, Effect, Enabled, Writes, Inv, Readable, PolicyOf, BareProfile, SnapshotOf;
    hide NewMember, EndsAccepted;
    var a, observe, register := FIRST.id, Observe(FIRST, NO_CLAIM), Registering(BARE_WORKLOAD);
    var f := OpensFromNothing();
    Begins(Open(DEFAULTS, true), Stored(f));
    FirstReport(f);
    ObserveIs(f, FIRST, NO_CLAIM);
    ObserveFrame(f, FIRST);
    var ws, es := [World(None, None), Stored(f)], [Open(DEFAULTS, true)];
    RunsOn(ws, es, f, observe, true);
    var g := Effect(f, observe);
    Registers(g);
    RunsOn(ws + [Stored(g)], es + [Run(observe, true)], g, register, true);
    var h := Effect(g, register);
    SelfPlanIsAccepted(h, a);
    Behind(ws + [Stored(g)] + [Stored(h)], es + [Run(observe, true)] + [Run(register, true)], h, SelfPlan(a));
  }

  lemma Behind(ws: seq<World>, es: seq<Event>, f: Fed, op: Op)
    requires IsRun(ws, es) && At(ws, |es|) == Stored(f) && Inv(f) && f.durable && f.eager && AllWritesSucceed(es)
    requires Refusal(f, op).None? && Enabled(f, op) && !Writes(f, op) && f.generation < Effect(f, op).generation
    ensures exists ws, es, f, op :: EndsAccepted(ws, es, f, op) && AllWritesSucceed(es) && StoreLags(At(ws, |es|))
  {
    hide IsStep, Refusal, Effect, Enabled, Writes, Inv, EndsAccepted;
    RunsOn(ws, es, f, op, true);
    var w := World(Some(SnapshotOf(f)), Some(Effect(f, op)));
    EndsHere(ws, es, f, op, true, w);
    assert AllWritesSucceed(es + [Run(op, true)]) && StoreLags(At(ws + [w], |es + [Run(op, true)]|));
  }

  // ---- Runs that leave a store nobody can open --------------------------------------------

  /** Where every accepted operation is stored, opening again fails exactly when the last
      operation did not spare the store. */
  lemma NextOpenFailsIff(w: World, op: Op, v: World, f: Fed, c: Config)
    requires IsStep(w, Run(op, true), v) && w.live == Some(f) && Inv(f) && WorldReadable(w) && Refusal(f, op).None?
    requires Writes(f, op) && f.durable && f.eager && c.id == f.id
    ensures OpenRefusal(v.disk, c).Some? <==> !SparesStore(f, op)
  {
    hide IsStep, Readable, Decodes, Refusal, Effect, SparesStore, Writes, Enabled, Inv;
    OperationStep(w, op, true, v, f);
    ReadableIff(f, op);
    ReadableMeansDecodes(Effect(f, op));
    RunWrites(w, op, true, v, f);
    EffectLeaves(f, op);
  }

  ghost predicate Succeeds(w: World, e: Event, v: World) {
    v.live.Some? && match e case Run(op, _) => (exists f :: Accepts(w, e, f, op)) case Open(_, _) => true
  }

  /** Opening the store fails. */
  predicate Fails(w: World, e: Event) { match e case Open(c, _) => OpenRefusal(w.disk, c).Some? case Run(_, _) => false }

  /** All events but the last succeed, and the last, opening the store again, does not. */
  ghost predicate Locked(ws: seq<World>, es: seq<Event>) {
    && IsRun(ws, es) && |es| > 1 && Fails(At(ws, |es| - 1), EventAt(es, |es| - 1))
    && forall i :: 0 <= i < |es| - 1 ==> Succeeds(At(ws, i), EventAt(es, i), At(ws, i + 1))
  }

  lemma Refuses(w: World, c: Config)
    requires OpenRefusal(w.disk, c).Some?
    ensures IsStep(w, Open(c, true), World(w.disk, None))
  {
    hide OpenRefusal;
  }

  function LockingRun(op: Op): seq<Event> { [Open(DEFAULTS, true), Run(op, true), Open(DEFAULTS, true)] }

  lemma Locks(f: Fed, op: Op)
    requires Blank(f) && IsStep(World(None, None), Open(DEFAULTS, true), Stored(f))
    requires Refusal(f, op).None? && Enabled(f, op) && Writes(f, op) && !SparesStore(f, op)
    ensures exists ws :: Locked(ws, LockingRun(op))
  {
    hide IsStep, Refusal, Effect, Enabled, Inv, OpenRefusal, SparesStore, Writes, Readable, Decodes, PolicyOf;
    ReadableMeansDecodes(f);
    Begins(Open(DEFAULTS, true), Stored(f));
    var ws, es := [World(None, None), Stored(f)], [Open(DEFAULTS, true)];
    RunsOn(ws, es, f, op, true);
    Runs(Some(SnapshotOf(f)), f, op, true);
    hide SnapshotOf;
    var w := Stored(Effect(f, op));
    NextOpenFailsIff(Stored(f), op, w, f, DEFAULTS);
    Refuses(w, DEFAULTS);
    var u := World(w.disk, None);
    Extends(ws + [w], es + [Run(op, true)], Open(DEFAULTS, true), u);
    assert ws + [w] + [u] == [World(None, None), Stored(f), w, u];
    assert es + [Run(op, true)] + [Open(DEFAULTS, true)] == LockingRun(op);
    assert Accepts(Stored(f), Run(op, true), f, op);
    assert Locked([World(None, None), Stored(f), w, u], LockingRun(op));
  }

  const ANY_VERSION := [VersionRange.Clause(VersionRange.Any, Version.ZERO_VERSION)]

  const STAR_WORKLOAD := BARE_WORKLOAD.(
    requirements := [Requirement(RUNTIME_VERSION, Hard, VersionSatisfies, VersionValue(Version.ZERO_VERSION), ANY_VERSION, 0.0)])

  lemma RuntimeVersions()
    ensures KeyKind(RUNTIME_VERSION) == Some(VersionKind)
  {
    assert !NamesEnumeration(RUNTIME_VERSION) && NamesVersion(RUNTIME_VERSION) by {
      assert RUNTIME_VERSION[0] == 'r' && RUNTIME_VERSION[8] == 'v';
    }
  }

  lemma StarIsAccepted()
    ensures VersionRange.ParseRange("*") == Ok(ANY_VERSION) && WorkloadValid(STAR_WORKLOAD) && !WorkloadFits(STAR_WORKLOAD)
  {
    hide KeyKind, VersionRange.ParseRange;
    RuntimeVersions();
    VersionRange.RangeTextReread([]);
    var r := STAR_WORKLOAD.requirements[0];
    assert RequirementValid(r);
    assert VersionRange.HasAny(r.range) by { assert r.range[0].op == VersionRange.Any; }
    assert !RequirementFits(r);
  }

  /** A workload that admits every version of a runtime is accepted and makes the next open fail. */
  lemma StarRangeLocksTheStore()
    ensures exists ws :: Locked(ws, LockingRun(Registering(STAR_WORKLOAD)))
  {
    var f := OpensFromNothing();
    StarIsAccepted();
    hide WorkloadValid, WorkloadFits, SparesMembers, SparesDecisions, SparesPlans, IsStep, Inv, Readable, PolicyOf;
    Locks(f, Registering(STAR_WORKLOAD));
  }

  const SHOUTED_POLICY := PERMISSIVE_POLICY.(allowedVendors := ["ACME"])

  lemma CapitalsAreNoTokens(name: string)
    requires name == "ACME"
    ensures !Token.AllTokenChars(name)
  {
    assert !Token.IsTokenChar(name[0]);
  }

  lemma ShoutedIsAccepted()
    ensures PolicyValid(PolicyOf(SHOUTED_POLICY)) && !PolicyFits(SHOUTED_POLICY)
  {
    assert !TokensFit(SHOUTED_POLICY.allowedVendors) by {
      hide Token.Canonical, Token.IsTokenChar;
      var name := SHOUTED_POLICY.allowedVendors[0];
      if TokenName(name) == Some(name) {
        Token.CanonicalIsIdempotent(name, MAX_TOKEN_BYTES);
        CapitalsAreNoTokens(name);
        assert false;
      }
    }
    hide PrintOf, TokensFit;
  }

  /** A policy that spells a vendor in capitals is accepted and makes the next open fail. */
  lemma ShoutedVendorLocksTheStore()
    ensures exists ws :: Locked(ws, LockingRun(SetPolicy(SHOUTED_POLICY, NO_CLAIM)))
  {
    var f := OpensFromNothing();
    ShoutedIsAccepted();
    hide PolicyFits, PolicyOf, SparesMembers, SparesDecisions, SparesPlans, IsStep, Inv, Readable;
    Locks(f, SetPolicy(SHOUTED_POLICY, NO_CLAIM));
  }

  const EMPTY_ADVERTISEMENT := CapabilitySet(map[], {})

  const EMPTYING_EVIDENCE :=
    EvidenceRecord(1, Synthetic, Declaration, Incarnation(1, 1, 1, 1), Some(EMPTY_ADVERTISEMENT), false, false, 0, true)

  const EMPTYING := UpdateCapabilities(FIRST.id, EMPTY_ADVERTISEMENT, EMPTYING_EVIDENCE, NO_CLAIM)

  lemma Empties(g: Fed, m: Member)
    requires !g.shutdown && g.members == map[FIRST.id := m] && m.record.state == Observed && m.record.provenance == Synthetic
    ensures UpdateRefusal(g, FIRST.id, EMPTY_ADVERTISEMENT, EMPTYING_EVIDENCE, NO_CLAIM).None?
    ensures !MembersDecode(UpdateEffect(g, FIRST.id, EMPTY_ADVERTISEMENT, EMPTYING_EVIDENCE).members)
  {
    var a := FIRST.id;
    assert Content(EMPTY_ADVERTISEMENT) == EMPTY_ADVERTISEMENT;
    var h := UpdateEffect(g, a, EMPTY_ADVERTISEMENT, EMPTYING_EVIDENCE);
    assert !MemberDecodes(h.members[a]);
  }

  /** An accepted update that withdraws every capability makes the next open fail. */
  lemma EmptyUpdateLocksTheStore(f: Fed, g: Fed, h: Fed, c: Config)
    requires !f.shutdown && f.members == map[] && g == After(f, Observe(FIRST, NO_CLAIM))
    requires h == After(g, EMPTYING)
    ensures Refusal(f, Observe(FIRST, NO_CLAIM)).None?
    ensures Refusal(g, EMPTYING).None?
    ensures OpenRefusal(Some(SnapshotOf(h)), c) == Some(MalformedData)
  {
    hide ObserveEffect, ObserveRefusal, UpdateRefusal, UpdateEffect, MembersDecode, PolicyReadable, WorkloadsDecode, PlansDecode, DecisionsDecode;
    FirstReport(f);
    Empties(g, NewMember(f, FIRST));
  }
}
