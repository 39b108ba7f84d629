/** The running federation: an object whose operations update members, the physical-device
    index, decisions, plans and the store in place. Each operation performs exactly one step of
    the state machine, and the index always agrees with the members. */
module FederationRuntime {
  import opened Prelude
  import opened Capability
  import opened Portability
  import opened Compatibility
  import opened Migration
  import opened Federation
  import opened FederationInvariants
  import opened FederationSteps
  import opened FederationRuns

  // ---- The physical-device index ----------------------------------------------------------

  type Index = map<PhysicalId, seq<AcceleratorId>>

  /** Each member is listed under its device, exactly once, and nothing else is listed. */
  ghost predicate IndexAgrees(members: map<AcceleratorId, Member>, index: Index) {
    && (forall a :: a in members ==> members[a].record.physical in index && a in index[members[a].record.physical])
    && (forall p, i :: p in index && 0 <= i < |index[p]| ==> index[p][i] in members && members[index[p][i]].record.physical == p)
    && (forall p, i, j :: p in index && 0 <= i < j < |index[p]| ==> index[p][i] != index[p][j])
  }

  /** The index looks only at which members exist and at their devices. */
  lemma IndexCarries(members: map<AcceleratorId, Member>, members': map<AcceleratorId, Member>, index: Index)
    requires IndexAgrees(members, index) && members'.Keys == members.Keys
    requires forall a :: a in members ==> members'[a].record.physical == members[a].record.physical
    ensures IndexAgrees(members', index)
  {
    assert forall a :: a in members <==> a in members';
  }

  function Incarnations(index: Index, p: PhysicalId): seq<AcceleratorId> { if p in index then index[p] else [] }

  lemma IndexAdds(members: map<AcceleratorId, Member>, index: Index, a: AcceleratorId, m: Member)
    requires IndexAgrees(members, index) && a !in members
    ensures IndexAgrees(members[a := m], index[m.record.physical := Incarnations(index, m.record.physical) + [a]])
  {
    var p := m.record.physical;
    var members', index' := members[a := m], index[p := Incarnations(index, p) + [a]];
    assert forall q, i :: q in index && 0 <= i < |index[q]| ==> index[q][i] != a;
    forall b | b in members'
      ensures members'[b].record.physical in index' && b in index'[members'[b].record.physical]
    {
      if b == a { assert index'[p][|index'[p]| - 1] == a; }
      else if members[b].record.physical == p {
        var i :| 0 <= i < |index[p]| && index[p][i] == b;
        assert index'[p][i] == b;
      }
    }
  }

  lemma IndexedDuplicate(members: map<AcceleratorId, Member>, index: Index, d: Descriptor)
    requires IndexAgrees(members, index)
    requires forall i :: 0 <= i < |Incarnations(index, d.physical)| ==>
               var a := Incarnations(index, d.physical)[i]; a in members && !ConflictsWith(a, members[a], d)
    ensures !DuplicateLive(members, d)
  {
    forall a | a in members && members[a].record.physical == d.physical
      ensures !ConflictsWith(a, members[a], d)
    {
      var i :| 0 <= i < |index[d.physical]| && index[d.physical][i] == a;
      assert Incarnations(index, d.physical)[i] == a;
    }
  }

  // ---- One step of the machine ------------------------------------------------------------

  function CodeOf<T>(r: Result<T>): Option<ErrorCode> { match r case Ok(_) => None case Err(e) => Some(e) }

  /** What an operation does: its refusal, the error found only later, its effect, whether it
      writes, and whether it insists on writing. */
  datatype Act = Act(refusal: Option<ErrorCode>, fault: Option<ErrorCode>, effect: Fed, writes: bool, force: bool)

  /** A refused act changes nothing. An accepted one is in place, and in the store if a write was
      due and succeeded; a change whose write failed is reported and kept. */
  ghost predicate Does(disk: Option<Snapshot>, f: Fed, act: Act, writeOk: bool, v: World, code: Option<ErrorCode>) {
    var due := act.writes && f.durable && (f.eager || act.force);
    if act.refusal.Some? then v == World(disk, Some(f)) && code == act.refusal
    else
      && v == World(if due && writeOk then Some(SnapshotOf(act.effect)) else disk, Some(act.effect))
      && code == if act.fault.Some? then act.fault else if due && !writeOk then Some(PersistenceFailure) else None
  }

  /** The same, with the error kept back. */
  ghost predicate DoesSilently(disk: Option<Snapshot>, f: Fed, act: Act, writeOk: bool, v: World) {
    exists code :: Does(disk, f, act, writeOk, v, code)
  }

  predicate Moves(f: Fed, a: AcceleratorId, target: MemberState) { a in f.members && f.members[a].record.state != target }

  predicate Climbs(f: Fed, k: PlanBody, to: MigrationState) { k in f.plans && f.plans[k].state != to }

  /** The act of each operation, by name. */
  ghost function ActOf(f: Fed, op: Op): Act {
    match op
    case Observe(d, c) => Act(ObserveRefusal(f, d, c), None, ObserveEffect(f, d), true, false)
    case Transition(a, target, c) => Act(TransitionRefusal(f, a, target, c), None, TransitionEffect(f, a, target), Moves(f, a, target), false)
    case UpdateCapabilities(a, caps, e, c) => Act(UpdateRefusal(f, a, caps, e, c), None, UpdateEffect(f, a, caps, e), true, false)
    case SetPolicy(body, c) => Act(SetPolicyRefusal(f, body, c), None, SetPolicyEffect(f, body), true, false)
    case RegisterWorkload(w, nameId, c) => Act(RegisterRefusal(f, w, nameId, c), None, RegisterEffect(f, w, nameId), true, false)
    case EvaluateOp(w, a, source, now, wall, kept) =>
      Act(CodeOf(EvaluateNow(f, w, a, source, now)), None, EvaluateEffect(f, EvaluateNow(f, w, a, source, now), wall, kept), true, false)
    case InvalidateStale => Act(None, None, SweepEffect(f), SweepEffect(f).decisions != f.decisions, false)
    case Plan(w, s, d, now, wall, c, kept) =>
      Act(PlanRefusal(f, w, s, d, now, c), CodeOf(PlanResult(f, w, s, d, now)), PlanEffect(f, w, s, d, now, wall, kept),
          PlanResult(f, w, s, d, now).Ok?, false)
    case Advance(k, to, c) => Act(AdvanceRefusal(f, k, to, c), None, AdvanceEffect(f, k, to), Climbs(f, k, to), false)
    case Abort(k, text, c) => Act(AbortRefusal(f, k, c), None, AbortEffect(f, k, text), true, false)
    case Persist => Act(None, None, f, true, true)
    case Shutdown => Act(None, None, f.(shutdown := true), !f.shutdown, false)
  }

  /** Whatever does the act of an operation takes one step of the machine. */
  lemma ActsAreSteps(disk: Option<Snapshot>, f: Fed, op: Op, writeOk: bool, v: World, code: Option<ErrorCode>)
    requires Does(disk, f, ActOf(f, op), writeOk, v, code) && Enabled(f, op)
    ensures IsStep(World(disk, Some(f)), Run(op, writeOk), v)
  {
    ActsAgree(f, op);
    hide Refusal, Effect, Writes, Enabled, SnapshotOf, ActOf;
  }

  lemma ActsAgree(f: Fed, op: Op)
    ensures ActOf(f, op).refusal == Refusal(f, op) && ActOf(f, op).effect == Effect(f, op)
    ensures ActOf(f, op).writes == Writes(f, op) && ActOf(f, op).force == op.Persist?
  {
    hide ObserveRefusal, TransitionRefusal, UpdateRefusal, SetPolicyRefusal, RegisterRefusal, EvaluateNow, PlanRefusal;
    hide AdvanceRefusal, AbortRefusal, PlanResult, PlanCache;
    hide ObserveEffect, TransitionEffect, UpdateEffect, SetPolicyEffect, RegisterEffect, EvaluateEffect, SweepEffect;
    hide PlanEffect, AdvanceEffect, AbortEffect;
  }

  lemma SameState(f: Fed, a: AcceleratorId, target: MemberState)
    requires a in f.members && f.members[a].record.state == target
    ensures TransitionEffect(f, a, target) == f
  {
  }

  lemma SameStage(f: Fed, k: PlanBody, to: MigrationState)
    requires k in f.plans && f.plans[k].state == to
    ensures AdvanceEffect(f, k, to) == f
  {
  }

  /** The operation returns the record as it is stored. */
  ghost predicate ReturnsRecord(r: Result<MemberRecord>, members: map<AcceleratorId, Member>, a: AcceleratorId) {
    r.Ok? ==> a in members && r.value == members[a].record
  }

  /** The operation returns the plan as it is stored. */
  ghost predicate ReturnsPlan(r: Result<Plan>, plans: map<PlanBody, Plan>, k: PlanBody) { r.Ok? ==> k in plans && r.value == plans[k] }

  // ---- Finite maps ------------------------------------------------------------------------

  lemma RemovalShrinks<K, V>(m: map<K, V>, k: K)
    requires k in m
    ensures |m - {k}| == |m| - 1 && (m - {k}).Keys == m.Keys - {k}
  {
    assert (m - {k}).Keys == m.Keys - {k};
  }

  lemma KeysCount<K, V>(m: map<K, V>)
    ensures |m.Keys| == |m|
  {
  }

  lemma SameSize<T>(a: set<T>, b: set<T>)
    requires a <= b && |a| == |b|
    ensures a == b
  {
    assert b == a + (b - a);
  }

  // ---- The object -------------------------------------------------------------------------

  function RevisionAt(workloads: map<WorkloadId, Profile>, w: WorkloadId): Option<Revision> {
    if w in workloads then Some(workloads[w].revision) else None
  }

  class Runtime {
    var id: FederationId
    var name: string
    var generation: Generation
    var epoch: Generation
    var policy: Policy
    var members: map<AcceleratorId, Member>
    var index: Index
    var workloads: map<WorkloadId, Profile>
    var decisions: map<Decision, int>
    var plans: map<PlanBody, Plan>
    var shutdown: bool
    var durable: bool
    var eager: bool
    var maxDecisions: nat
    var store: Option<Snapshot>

    function Model(): Fed
      reads this
    {
      Fed(id, name, generation, epoch, policy, members, workloads, decisions, plans, shutdown, durable, eager, maxDecisions)
    }

    ghost function Whole(): World
      reads this
    {
      World(store, Some(Model()))
    }

    ghost predicate Valid()
      reads this
    {
      IndexAgrees(members, index)
    }

    method PersistLocked(force: bool, writeOk: bool) returns (ok: bool)
      modifies this`store
      ensures store == if durable && (eager || force) && writeOk then Some(SnapshotOf(Model())) else old(store)
      ensures ok <==> !durable || (!eager && !force) || writeOk
    {
      if !durable { return true; }
      if !eager && !force { return true; }
      if writeOk { store := Some(Snapshot(id, name, generation, epoch, policy, members, workloads, decisions.Keys, plans)); }
      return writeOk;
    }

    // ---- Observe --------------------------------------------------------------------------

    method ClaimedByLiveBoot(d: Descriptor) returns (duplicate: bool)
      requires Valid()
      ensures duplicate == DuplicateLive(members, d)
    {
      var incarnations := Incarnations(index, d.physical);
      for i := 0 to |incarnations|
        invariant forall j :: 0 <= j < i ==> incarnations[j] in members && !ConflictsWith(incarnations[j], members[incarnations[j]], d)
      {
        var candidate := incarnations[i];
        if candidate != d.id && candidate in members {
          var r := members[candidate].record;
          if HoldsAuthority(r.state) && r.boot != d.boot {
            assert ConflictsWith(candidate, members[candidate], d);
            return true;
          }
        }
      }
      IndexedDuplicate(members, index, d);
      return false;
    }

    method RetireOlder(d: Descriptor)
      requires Valid()
      modifies this`members
      ensures members == Superseded(old(members), d) && Valid()
    {
      var incarnations := Incarnations(index, d.physical);
      for i := 0 to |incarnations|
        invariant members.Keys == old(members).Keys
        invariant forall a :: a in members ==>
                    members[a] == if a in incarnations[..i] && Supersedes(d, a, old(members)[a]) then RetiredBy(old(members)[a]) else old(members)[a]
      {
        var candidate := incarnations[i];
        assert incarnations[..i + 1] == incarnations[..i] + [candidate];
        assert candidate !in incarnations[..i];
        if candidate in members && candidate != d.id {
          var r := members[candidate].record;
          if r.agent == d.agent && r.state != Retired {
            members := members[candidate := members[candidate].(record := r.(
              state := Retired, stateGeneration := Next(r.stateGeneration), historyLength := Logged(r.historyLength)))];
          }
        }
      }
      assert incarnations[..|incarnations|] == incarnations;
      IndexCarries(old(members), members, index);
    }

    method Enroll(d: Descriptor)
      requires Valid() && d.id !in members
      modifies this`members, this`index, this`generation
      ensures Valid()
      ensures Model() == ObserveEffect(old(Model()), d)
      ensures d.id in members
    {
      hide Superseded, IndexAgrees, RetiredBy;
      ghost var f := Model();
      RetireOlder(d);
      SupersededKeys(f.members, d);
      generation := Next(generation);
      var m := Member(
        MemberRecord(generation, epoch, d.agent, d.boot, d.id, d.physical, d.generation, d.capabilityGeneration, 1,
                     policy.generation, Observed, 1, d.supportLevel, d.provenance, 2), d);
      IndexAdds(members, index, d.id, m);
      index := index[d.physical := Incarnations(index, d.physical) + [d.id]];
      members := members[d.id := m];
    }

    method Refresh(d: Descriptor)
      requires Valid() && d.id in members
      modifies this`members, this`generation
      ensures Valid()
      ensures Model() == ObserveEffect(old(Model()), d)
      ensures d.id in members
    {
      hide IndexAgrees;
      var m := members[d.id];
      var r, stored := m.record, d;
      if Content(m.descriptor.capabilities) != Content(d.capabilities) {
        var next := Next(r.capabilityGeneration);
        stored := d.(capabilityGeneration := next);
        r := r.(capabilityGeneration := next, stateGeneration := Next(r.stateGeneration), historyLength := Logged(r.historyLength));
      }
      generation := Next(generation);
      r := r.(evidenceGeneration := Next(r.evidenceGeneration), supportLevel := d.supportLevel, provenance := d.provenance,
              policyGeneration := policy.generation, federationGeneration := generation, epoch := epoch);
      members := members[d.id := Member(r, stored)];
      IndexCarries(old(members), members, index);
    }

    method Observe(d: Descriptor, c: Claim, writeOk: bool) returns (r: Result<MemberRecord>)
      requires Valid()
      modifies this
      ensures Valid()
      ensures Does(old(store), old(Model()), Act(ObserveRefusal(old(Model()), d, c), None, ObserveEffect(old(Model()), d), true, false), writeOk, Whole(), CodeOf(r))
      ensures ReturnsRecord(r, members, d.id)
    {
      hide DescriptorValid, DuplicateLive, Authority, SnapshotOf, IndexAgrees, ObserveEffect;
      var refusal := Authority(Model(), c);
      if refusal.Some? { return Err(refusal.value); }
      if !DescriptorValid(d) { return Err(MalformedData); }
      if DerivedId(d) != d.id { return Err(IntegrityFailure); }
      if d.boot != c.boot && c.checkBoot { return Err(StaleBoot); }
      var duplicate := ClaimedByLiveBoot(d);
      if duplicate { return Err(DuplicateLiveBoot); }
      if d.id !in members {
        Enroll(d);
      } else {
        var held := members[d.id].record;
        if held.state == Retired { return Err(RetiredMember); }
        if held.state == Fenced { return Err(FencedMember); }
        if held.boot != d.boot { return Err(StaleBoot); }
        Refresh(d);
      }
      var ok := PersistLocked(false, writeOk);
      return if ok then Ok(members[d.id].record) else Err(PersistenceFailure);
    }

    // ---- Transition -----------------------------------------------------------------------

    method EnterState(a: AcceleratorId, target: MemberState)
      requires Valid() && a in members && members[a].record.state != target
      modifies this`members, this`generation
      ensures Valid() && Model() == TransitionEffect(old(Model()), a, target) && a in members
    {
      hide IndexAgrees;
      var r := members[a].record;
      generation := Next(generation);
      r := r.(state := target, stateGeneration := Next(r.stateGeneration), policyGeneration := policy.generation,
              historyLength := Logged(r.historyLength), federationGeneration := generation, epoch := epoch);
      members := members[a := members[a].(record := r)];
      IndexCarries(old(members), members, index);
    }

    method Transition(a: AcceleratorId, target: MemberState, c: Claim, writeOk: bool) returns (r: Result<MemberRecord>)
      requires Valid()
      modifies this
      ensures Valid()
      ensures Does(old(store), old(Model()), Act(TransitionRefusal(old(Model()), a, target, c), None, TransitionEffect(old(Model()), a, target), Moves(old(Model()), a, target), false), writeOk, Whole(), CodeOf(r))
      ensures ReturnsRecord(r, members, a)
    {
      hide Authority, ScopedAuthority, SnapshotOf, IndexAgrees, LegalTransition, TransitionEffect;
      var refusal := Authority(Model(), c);
      if refusal.Some? { return Err(refusal.value); }
      if a !in members { return Err(UnknownAccelerator); }
      refusal := ScopedAuthority(Model(), c, members[a].record);
      if refusal.Some? { return Err(refusal.value); }
      if members[a].record.state == target {
        SameState(Model(), a, target);
        return Ok(members[a].record);
      }
      if !LegalTransition(members[a].record.state, target) { return Err(InvalidTransition); }
      EnterState(a, target);
      var ok := PersistLocked(false, writeOk);
      return if ok then Ok(members[a].record) else Err(PersistenceFailure);
    }

    // ---- Capability updates ---------------------------------------------------------------

    method Replace(a: AcceleratorId, caps: CapabilitySet, e: EvidenceRecord)
      requires Valid() && a in members
      modifies this`members, this`generation
      ensures Valid() && Model() == UpdateEffect(old(Model()), a, caps, e) && a in members
    {
      hide IndexAgrees;
      var r := members[a].record;
      var next := Next(r.capabilityGeneration);
      var d := members[a].descriptor.(capabilities := caps, capabilityGeneration := next, evidence := [e]);
      generation := Next(generation);
      r := r.(capabilityGeneration := next, evidenceGeneration := Next(r.evidenceGeneration), stateGeneration := Next(r.stateGeneration),
              policyGeneration := policy.generation, historyLength := Logged(r.historyLength), federationGeneration := generation, epoch := epoch);
      members := members[a := Member(r, d)];
      IndexCarries(old(members), members, index);
    }

    method UpdateCapabilities(a: AcceleratorId, caps: CapabilitySet, e: EvidenceRecord, c: Claim, writeOk: bool)
      returns (r: Result<MemberRecord>)
      requires Valid()
      modifies this
      ensures Valid()
      ensures Does(old(store), old(Model()), Act(UpdateRefusal(old(Model()), a, caps, e, c), None, UpdateEffect(old(Model()), a, caps, e), true, false), writeOk, Whole(), CodeOf(r))
      ensures ReturnsRecord(r, members, a)
    {
      hide Authority, ScopedAuthority, SnapshotOf, IndexAgrees, CapabilitiesValid, EvidenceValid, UpdateEffect;
      var refusal := Authority(Model(), c);
      if refusal.Some? { return Err(refusal.value); }
      if a !in members { return Err(UnknownAccelerator); }
      var held := members[a].record;
      refusal := ScopedAuthority(Model(), c, held);
      if refusal.Some? { return Err(refusal.value); }
      if held.state == Fenced || held.state == Retired {
        return Err(if held.state == Fenced then FencedMember else RetiredMember);
      }
      if !CapabilitiesValid(caps) { return Err(MalformedData); }
      if !EvidenceValid(e) { return Err(MalformedData); }
      if e.subject != a { return Err(IntegrityFailure); }
      if e.provenance != held.provenance { return Err(IntegrityFailure); }
      if e.payload != Some(Content(caps)) { return Err(IntegrityFailure); }
      Replace(a, caps, e);
      var ok := PersistLocked(false, writeOk);
      return if ok then Ok(members[a].record) else Err(PersistenceFailure);
    }

    // ---- Policy and workloads -------------------------------------------------------------

    method AbortMovingPlans(why: Reason)
      modifies this`plans
      ensures plans == AbortAll(old(plans), why)
    {
      var rest := plans.Keys;
      while rest != {}
        invariant rest <= plans.Keys == old(plans).Keys
        invariant forall k :: k in plans ==> plans[k] == if k in rest then old(plans)[k] else AbortedFor(old(plans)[k], why)
        decreases |rest|
      {
        var k :| k in rest;
        if !IsTerminal(plans[k].state) {
          plans := plans[k := plans[k].(state := Aborted, refusals := SortReasons(plans[k].refusals + [why]))];
        }
        rest := rest - {k};
      }
    }

    method StampMembers(stamp: PolicyStamp)
      requires Valid()
      modifies this`members
      ensures Valid() && members == Stamped(old(members), stamp)
    {
      var rest := members.Keys;
      while rest != {}
        invariant rest <= members.Keys == old(members).Keys
        invariant forall a :: a in members ==>
                    members[a] == if a in rest then old(members)[a] else old(members)[a].(record := old(members)[a].record.(policyGeneration := stamp))
        decreases |rest|
      {
        var a :| a in rest;
        members := members[a := members[a].(record := members[a].record.(policyGeneration := stamp))];
        rest := rest - {a};
      }
      IndexCarries(old(members), members, index);
    }

    method AdoptPolicy(body: PolicyBody)
      requires Valid()
      modifies this`policy, this`decisions, this`plans, this`members, this`generation
      ensures Valid() && Model() == SetPolicyEffect(old(Model()), body)
    {
      hide IndexAgrees, AbortAll, Stamped;
      policy := PolicyOf(body);
      decisions := map[];
      AbortMovingPlans(POLICY_ADVANCED);
      StampMembers(policy.generation);
      generation := Next(generation);
    }

    method SetPolicy(body: PolicyBody, c: Claim, writeOk: bool) returns (r: Result<PolicyStamp>)
      requires Valid()
      modifies this
      ensures Valid()
      ensures Does(old(store), old(Model()), Act(SetPolicyRefusal(old(Model()), body, c), None, SetPolicyEffect(old(Model()), body), true, false), writeOk, Whole(), CodeOf(r))
      ensures r.Ok? ==> r == Ok(policy.generation)
    {
      hide Authority, SnapshotOf, IndexAgrees, PolicyValid, SetPolicyEffect;
      var refusal := Authority(Model(), c);
      if refusal.Some? { return Err(refusal.value); }
      if !PolicyValid(PolicyOf(body)) { return Err(MalformedData); }
      AdoptPolicy(body);
      var ok := PersistLocked(false, writeOk);
      return if ok then Ok(policy.generation) else Err(PersistenceFailure);
    }

    method AddProfile(profile: Workload, nameId: nat, stored: Profile)
      requires stored == StoredProfile(profile, nameId)
      modifies this`workloads, this`generation
      ensures Model() == RegisterEffect(old(Model()), profile, nameId)
      ensures RevisionAt(workloads, stored.workload.classId) == Some(stored.revision)
    {
      hide StoredProfile;
      workloads := workloads[stored.workload.classId := stored];
      generation := Next(generation);
    }

    method RegisterWorkload(profile: Workload, nameId: nat, c: Claim, writeOk: bool) returns (r: Result<Revision>)
      requires Valid()
      modifies this
      ensures Valid()
      ensures Does(old(store), old(Model()), Act(RegisterRefusal(old(Model()), profile, nameId, c), None, RegisterEffect(old(Model()), profile, nameId), true, false), writeOk, Whole(), CodeOf(r))
      ensures match r case Ok(revision) => RevisionAt(workloads, StoredProfile(profile, nameId).workload.classId) == Some(revision) case Err(_) => true
    {
      hide Authority, SnapshotOf, IndexAgrees, WorkloadValid, StoredProfile, RegisterEffect, RevisionAt;
      var refusal := Authority(Model(), c);
      if refusal.Some? { return Err(refusal.value); }
      var stored := StoredProfile(profile, nameId);
      if !WorkloadValid(stored.workload) { return Err(MalformedData); }
      AddProfile(profile, nameId, stored);
      var ok := PersistLocked(false, writeOk);
      return if ok then Ok(stored.revision) else Err(PersistenceFailure);
    }

    // ---- Evaluation and the decision cache ------------------------------------------------

    method EvidenceIsFresh(a: AcceleratorId, now: int) returns (current: bool)
      requires a in members
      ensures current == FreshAt(Model(), a, now)
    {
      var evidence := members[a].descriptor.evidence;
      for i := 0 to |evidence|
        invariant forall j :: 0 <= j < i ==> EvidenceUsable(evidence[j], now, policy.body.freshnessNanos)
      {
        if evidence[i].requiresRevalidation { return false; }
        if evidence[i].dynamic && policy.body.freshnessNanos != 0 && !IsFresh(evidence[i], now, policy.body.freshnessNanos) {
          return false;
        }
      }
      return true;
    }

    method EvaluateLocked(p: Profile, a: AcceleratorId, source: Option<AcceleratorId>, now: int, sourceMustExist: bool)
      returns (r: Result<Decision>)
      ensures r == EvaluateMember(Model(), p, a, source, now, sourceMustExist)
    {
      hide Compatibility.Evaluate, FreshAt;
      if a !in members { return Err(UnknownAccelerator); }
      var current := EvidenceIsFresh(a, now);
      var from: Option<Source> := None;
      if source.Some? {
        if source.value !in members {
          if sourceMustExist { return Err(UnknownAccelerator); }
        } else {
          var caps := members[source.value].descriptor.capabilities;
          from := Some(Source(caps, VendorRendering(caps)));
        }
      }
      var held := members[a].record;
      r := EvaluateCompatibility(p.workload, Context(
        id, generation, epoch, policy.generation, Some(policy), p.revision,
        Target(held.accelerator, held.deviceGeneration, held.capabilityGeneration, held.evidenceGeneration, held.supportLevel,
               held.provenance, Some(members[a].descriptor.capabilities), current, held.state == Active),
        from));
    }

    method Oldest() returns (oldest: Decision)
      requires decisions != map[]
      ensures oldest in decisions && forall d :: d in decisions ==> decisions[oldest] <= decisions[d]
    {
      oldest :| oldest in decisions;
      var rest := decisions.Keys;
      while rest != {}
        invariant rest <= decisions.Keys && oldest in decisions
        invariant forall d :: d in decisions && d !in rest ==> decisions[oldest] <= decisions[d]
        decreases |rest|
      {
        var d :| d in rest;
        if decisions[d] < decisions[oldest] { oldest := d; }
        rest := rest - {d};
      }
    }

    method EvictOldest()
      modifies this`decisions
      ensures Evicted(old(decisions), decisions.Keys, maxDecisions, true) && decisions == Keep(old(decisions), decisions.Keys)
    {
      while |decisions| > maxDecisions
        invariant decisions.Keys <= old(decisions).Keys && forall d :: d in decisions ==> decisions[d] == old(decisions)[d]
        invariant |decisions| == |old(decisions)| || |decisions| >= maxDecisions
        invariant forall dropped, k :: dropped in old(decisions) && dropped !in decisions && k in decisions ==>
                    old(decisions)[dropped] <= old(decisions)[k]
        decreases |decisions|
      {
        var oldest := Oldest();
        RemovalShrinks(decisions, oldest);
        decisions := decisions - {oldest};
      }
      KeysCount(old(decisions));
      KeysCount(decisions);
      if |decisions| == |old(decisions)| { SameSize(decisions.Keys, old(decisions).Keys); }
    }

    method EvictAny()
      modifies this`decisions
      ensures Evicted(old(decisions), decisions.Keys, maxDecisions, false) && decisions == Keep(old(decisions), decisions.Keys)
    {
      while |decisions| > maxDecisions
        invariant decisions.Keys <= old(decisions).Keys && forall d :: d in decisions ==> decisions[d] == old(decisions)[d]
        invariant |decisions| == |old(decisions)| || |decisions| >= maxDecisions
        decreases |decisions|
      {
        var first :| first in decisions;
        RemovalShrinks(decisions, first);
        decisions := decisions - {first};
      }
      KeysCount(old(decisions));
      KeysCount(decisions);
    }

    method Record(d: Decision, wall: int)
      modifies this`decisions
      ensures Model() == EvaluateEffect(old(Model()), Ok(d), wall, decisions.Keys)
      ensures Evicted(old(decisions)[d := wall], decisions.Keys, maxDecisions, true)
    {
      hide Evicted, Keep;
      decisions := decisions[d := wall];
      EvictOldest();
    }

    method Evaluate(w: WorkloadId, a: AcceleratorId, source: Option<AcceleratorId>, now: int, wall: int, writeOk: bool)
      returns (r: Result<Decision>)
      requires Valid()
      modifies this`decisions, this`store
      ensures Valid()
      ensures
        var verdict := EvaluateNow(old(Model()), w, a, source, now);
        && Does(old(store), old(Model()), Act(CodeOf(verdict), None, EvaluateEffect(old(Model()), verdict, wall, decisions.Keys), true, false),
                writeOk, Whole(), CodeOf(r))
        && (verdict.Ok? ==> Evicted(Cached(old(decisions), verdict, wall), decisions.Keys, maxDecisions, true))
        && (r.Ok? ==> verdict == r)
    {
      hide EvaluateMember, SnapshotOf, IndexAgrees, Evicted, EvaluateEffect, PlanRefusal, PlanResult, PlanEffect, PlanCache;
      if shutdown { return Err(ShutdownInProgress); }
      if w !in workloads { return Err(NotFound); }
      r := EvaluateLocked(workloads[w], a, source, now, true);
      if r.Err? { return; }
      Record(r.value, wall);
      var ok := PersistLocked(false, writeOk);
      if !ok { return Err(PersistenceFailure); }
    }

    method InvalidateStaleDecisions(writeOk: bool) returns (removed: nat)
      requires Valid()
      modifies this`decisions, this`store
      ensures Valid()
      ensures removed == |old(decisions)| - |decisions|
      ensures
        var swept := SweepEffect(old(Model()));
        DoesSilently(old(store), old(Model()), Act(None, None, swept, swept.decisions != old(decisions), false), writeOk, Whole())
    {
      ghost var f := Model();
      hide SweepEffect, Survives, SnapshotOf, IndexAgrees;
      removed := SweepStale();
      SweptModel(f);
      var ok := true;
      if removed != 0 { ok := PersistLocked(false, writeOk); }
      assert Does(old(store), f, Act(None, None, SweepEffect(f), SweepEffect(f).decisions != f.decisions, false), writeOk, Whole(),
                  if ok then None else Some(PersistenceFailure));
    }

    /** The sweep reads no part of the cache. */
    predicate Survives(d: Decision)
      reads this`generation, this`epoch, this`policy, this`members, this`workloads
    {
      && d.federationGeneration == generation && d.epoch == epoch && d.policyGeneration == policy.generation
      && d.accelerator in members
      && d.deviceGeneration == members[d.accelerator].record.deviceGeneration
      && d.capabilityGeneration == members[d.accelerator].record.capabilityGeneration
      && d.workload in workloads && workloads[d.workload].revision == d.workloadRevision
    }

    method SweepStale() returns (removed: nat)
      modifies this`decisions
      ensures decisions == map d | d in old(decisions) && Survives(d) :: old(decisions)[d]
      ensures removed == |old(decisions)| - |decisions|
      ensures removed == 0 <==> decisions == old(decisions)
    {
      hide Survives;
      removed := 0;
      var rest := decisions.Keys;
      while rest != {}
        invariant rest <= decisions.Keys <= old(decisions).Keys
        invariant forall d :: d in old(decisions) ==> (d in decisions <==> d in rest || Survives(d))
        invariant forall d :: d in decisions ==> decisions[d] == old(decisions)[d]
        invariant removed == |old(decisions)| - |decisions| && (removed == 0 ==> decisions == old(decisions))
        decreases |rest|
      {
        var d :| d in rest;
        if !Survives(d) {
          RemovalShrinks(decisions, d);
          decisions := decisions - {d};
          removed := removed + 1;
        }
        rest := rest - {d};
      }
    }

    lemma SweptModel(f: Fed)
      requires f == Model().(decisions := f.decisions)
      requires decisions == map d | d in f.decisions && Survives(d) :: f.decisions[d]
      ensures Model() == SweepEffect(f)
    {
      assert forall d :: Survives(d) == SweepKeeps(f, d);
      hide Survives, SweepKeeps;
      assert decisions == SweepEffect(f).decisions;
    }

    method IsCurrent(d: Decision) returns (r: Result<bool>)
      ensures r == if d !in decisions then Err(NotFound) else Ok(DecisionIsCurrent(Model(), d))
    {
      if d !in decisions { return Err(NotFound); }
      if d.federationGeneration != generation || d.epoch != epoch || d.policyGeneration != policy.generation { return Ok(false); }
      if d.accelerator !in members { return Ok(false); }
      if d.workload !in workloads { return Ok(false); }
      var held := members[d.accelerator].record;
      return Ok(d.deviceGeneration == held.deviceGeneration && d.capabilityGeneration == held.capabilityGeneration
                && d.evidenceGeneration == held.evidenceGeneration && d.workloadRevision == workloads[d.workload].revision);
    }

    // ---- Migration ------------------------------------------------------------------------

    /** Judges both endpoints, the source first. */
    method JudgeEndpoints(w: WorkloadId, s: AcceleratorId, dest: AcceleratorId, now: int, c: Claim) returns (r: Result<(Decision, Decision)>)
      ensures match r
              case Err(code) => PlanRefusal(Model(), w, s, dest, now, c) == Some(code)
              case Ok((d, e)) =>
                && PlanRefusal(Model(), w, s, dest, now, c).None?
                && Judged(Model(), w, s, dest, now) == Ok(d) && Judged(Model(), w, dest, s, now) == Ok(e)
    {
      hide Authority, EvaluateMember;
      var refusal := Authority(Model(), c);
      if refusal.Some? { return Err(refusal.value); }
      if w !in workloads { return Err(NotFound); }
      if s !in members { return Err(UnknownAccelerator); }
      if dest !in members { return Err(UnknownAccelerator); }
      var atSource := EvaluateLocked(workloads[w], s, Some(dest), now, false);
      var atDestination := EvaluateLocked(workloads[w], dest, Some(s), now, false);
      if atSource.Err? { return Err(atSource.code); }
      if atDestination.Err? { return Err(atDestination.code); }
      return Ok((atSource.value, atDestination.value));
    }

    /** Plans once both endpoints have been judged. */
    method Author(w: WorkloadId, s: AcceleratorId, dest: AcceleratorId, now: int, wall: int, sourceDecision: Decision, destinationDecision: Decision)
      returns (r: Result<Plan>)
      requires w in workloads && s in members && dest in members
      requires Judged(Model(), w, s, dest, now) == Ok(sourceDecision) && Judged(Model(), w, dest, s, now) == Ok(destinationDecision)
      modifies this`generation, this`plans, this`decisions
      ensures r == PlanResult(old(Model()), w, s, dest, now)
      ensures Model() == PlanEffect(old(Model()), w, s, dest, now, wall, decisions.Keys)
      ensures r.Ok? ==> Evicted(PlanCache(old(Model()), w, s, dest, now, wall), decisions.Keys, maxDecisions, false)
    {
      hide Judged, Migration.PlanMigration, Evicted, Keep, VendorRendering;
      generation := Next(generation);
      var from, to := members[s], members[dest];
      r := Migration.PlanMigration(MigrationRequest(
        id, generation, epoch, policy,
        Endpoint(s, from.record.deviceGeneration, from.record.capabilityGeneration, from.descriptor.capabilities,
                 VendorRendering(from.descriptor.capabilities), from.record.provenance),
        Endpoint(dest, to.record.deviceGeneration, to.record.capabilityGeneration, to.descriptor.capabilities,
                 VendorRendering(to.descriptor.capabilities), to.record.provenance),
        workloads[w].workload, workloads[w].revision, sourceDecision, destinationDecision));
      if r.Ok? {
        plans := plans[r.value.body := r.value];
        decisions := decisions[sourceDecision := wall][destinationDecision := wall];
        EvictAny();
      }
    }

    method PlanMigration(w: WorkloadId, s: AcceleratorId, dest: AcceleratorId, now: int, wall: int, c: Claim, writeOk: bool)
      returns (r: Result<Plan>)
      requires Valid()
      modifies this`generation, this`plans, this`decisions, this`store
      ensures Valid()
      ensures
        var refusal, plan := PlanRefusal(old(Model()), w, s, dest, now, c), PlanResult(old(Model()), w, s, dest, now);
        && Does(old(store), old(Model()),
                Act(refusal, CodeOf(plan), PlanEffect(old(Model()), w, s, dest, now, wall, decisions.Keys), plan.Ok?, false),
                writeOk, Whole(), CodeOf(r))
        && (refusal.None? && plan.Ok? ==> Evicted(PlanCache(old(Model()), w, s, dest, now, wall), decisions.Keys, maxDecisions, false))
      ensures match r case Ok(p) => HoldsPlan(Model(), p.body, p) case Err(_) => true
    {
      ghost var f := Model();
      hide PlanRefusal, Judged, SnapshotOf, IndexAgrees, Evicted, PlanEffect, PlanResult, PlanCache;
      var judged := JudgeEndpoints(w, s, dest, now, c);
      if judged.Err? { return Err(judged.code); }
      PlanNeeds(f, w, s, dest, now, c);
      r := Author(w, s, dest, now, wall, judged.value.0, judged.value.1);
      if r.Ok? {
        PlanLeaves(f, w, s, dest, now, wall, c, decisions.Keys);
        var ok := PersistLocked(false, writeOk);
        if !ok { return Err(PersistenceFailure); }
      }
    }

    method AdvanceMigration(k: PlanBody, to: MigrationState, c: Claim, writeOk: bool) returns (r: Result<Plan>)
      requires Valid()
      modifies this
      ensures Valid()
      ensures Does(old(store), old(Model()), Act(AdvanceRefusal(old(Model()), k, to, c), None, AdvanceEffect(old(Model()), k, to), Climbs(old(Model()), k, to), false), writeOk, Whole(), CodeOf(r))
      ensures ReturnsPlan(r, plans, k)
    {
      hide Authority, SnapshotOf, IndexAgrees, LegalMigration, EndpointsMatch, AdvanceEffect;
      var refusal := Authority(Model(), c);
      if refusal.Some? { return Err(refusal.value); }
      if k !in plans { return Err(NotFound); }
      if c.checkPolicyGeneration && c.policyGeneration != policy.generation { return Err(StalePolicy); }
      var b := plans[k].body;
      if b.epoch != epoch || b.policyGeneration != policy.generation { return Err(StaleMigration); }
      var matches := EndpointsStand(b);
      if !matches { return Err(StaleMigration); }
      if plans[k].state == to {
        SameStage(Model(), k, to);
        return Ok(plans[k]);
      }
      if !LegalMigration(plans[k].state, to) { return Err(InvalidTransition); }
      MovePlan(k, to);
      var ok := PersistLocked(false, writeOk);
      return if ok then Ok(plans[k]) else Err(PersistenceFailure);
    }

    method EndpointsStand(b: PlanBody) returns (matches: bool)
      ensures matches == EndpointsMatch(Model(), b)
      ensures matches ==> b.source in members
    {
      if b.source !in members || b.destination !in members { return false; }
      var from, to := members[b.source].record, members[b.destination].record;
      return from.deviceGeneration == b.sourceGeneration && to.deviceGeneration == b.destinationGeneration
             && from.capabilityGeneration == b.sourceCapabilityGeneration && to.capabilityGeneration == b.destinationCapabilityGeneration;
    }

    method Drain(s: AcceleratorId)
      requires Valid() && s in members
      modifies this`members
      ensures Valid() && members == old(members)[s := Drained(old(members)[s])]
    {
      hide IndexAgrees;
      var r := members[s].record;
      if r.state == Active || r.state == MemberState.Degraded {
        r := r.(state := Draining, stateGeneration := Next(r.stateGeneration), historyLength := r.historyLength + 1);
        members := members[s := members[s].(record := r)];
      }
      IndexCarries(old(members), members, index);
    }

    method MovePlan(k: PlanBody, to: MigrationState)
      requires Valid() && k in plans && plans[k].body.source in members && plans[k].state != to
      modifies this`plans, this`members, this`generation
      ensures Valid() && Model() == AdvanceEffect(old(Model()), k, to) && k in plans
    {
      hide IndexAgrees, Drained;
      plans := plans[k := plans[k].(state := to)];
      if to == Committed { Drain(plans[k].body.source); }
      generation := Next(generation);
    }

    method AbortMigration(k: PlanBody, text: nat, c: Claim, writeOk: bool) returns (r: Result<Plan>)
      requires Valid()
      modifies this
      ensures Valid()
      ensures Does(old(store), old(Model()), Act(AbortRefusal(old(Model()), k, c), None, AbortEffect(old(Model()), k, text), true, false), writeOk, Whole(), CodeOf(r))
      ensures ReturnsPlan(r, plans, k)
    {
      hide Authority, SnapshotOf, IndexAgrees, AbortEffect;
      var refusal := Authority(Model(), c);
      if refusal.Some? { return Err(refusal.value); }
      if k !in plans { return Err(NotFound); }
      if IsTerminal(plans[k].state) { return Err(InvalidTransition); }
      AbortPlan(k, text);
      var ok := PersistLocked(false, writeOk);
      return if ok then Ok(plans[k]) else Err(PersistenceFailure);
    }

    method AbortPlan(k: PlanBody, text: nat)
      requires k in plans && !IsTerminal(plans[k].state)
      modifies this`plans, this`generation
      ensures Model() == AbortEffect(old(Model()), k, text) && k in plans
    {
      hide SortReasons;
      plans := plans[k := plans[k].(state := Aborted, refusals := SortReasons(plans[k].refusals + [ABORT_REQUESTED]), abortText := text)];
      generation := Next(generation);
    }

    // ---- Durability -----------------------------------------------------------------------

    method Persist(writeOk: bool) returns (ok: bool)
      requires Valid()
      modifies this`store
      ensures Valid()
      ensures Does(old(store), old(Model()), Act(None, None, old(Model()), true, true), writeOk, Whole(), if ok then None else Some(PersistenceFailure))
    {
      hide SnapshotOf, IndexAgrees;
      ok := PersistLocked(true, writeOk);
    }

    method Shutdown(writeOk: bool) returns (ok: bool)
      requires Valid()
      modifies this`shutdown, this`store
      ensures Valid()
      ensures Does(old(store), old(Model()), Act(None, None, old(Model()).(shutdown := true), !old(shutdown), false), writeOk, Whole(),
                   if ok then None else Some(PersistenceFailure))
    {
      hide SnapshotOf, IndexAgrees;
      if shutdown { return true; }
      shutdown := true;
      ok := PersistLocked(false, writeOk);
    }

    // ---- Opening --------------------------------------------------------------------------

    /** A fresh instance, before anything is restored. */
    constructor (c: Config, disk: Option<Snapshot>)
      ensures Valid() && Model() == FreshFed(c) && store == disk && index == map[]
    {
      id, name, generation, epoch := c.id, c.name, 1, 1;
      policy := if c.policy.id == Assigned(0) then PolicyOf(PERMISSIVE_POLICY) else c.policy;
      members, index, workloads, decisions, plans := map[], map[], map[], map[], map[];
      shutdown, durable, eager := false, c.durable, c.eager;
      maxDecisions := if c.maxDecisions == 0 then 1 else c.maxDecisions;
      store := disk;
    }

    /** Brings stored members back, degraded and in need of revalidation, and lists each of them
        under its device. */
    method RestoreMembers(s: Snapshot)
      requires Valid() && members == map[] && epoch == Next(s.epoch) && generation == Next(s.generation)
      modifies this`members, this`index
      ensures Valid() && members == RecoveredMembers(s)
    {
      hide RecoveredMember, IndexAgrees;
      var rest := s.members.Keys;
      while rest != {}
        invariant Valid() && rest <= s.members.Keys && members.Keys == s.members.Keys - rest
        invariant forall a :: a in members ==> members[a] == RecoveredMember(s.members[a], epoch, generation)
        decreases |rest|
      {
        var a :| a in rest;
        var m := RecoveredMember(s.members[a], epoch, generation);
        IndexAdds(members, index, a, m);
        index := index[m.record.physical := Incarnations(index, m.record.physical) + [a]];
        members := members[a := m];
        rest := rest - {a};
      }
    }

    method Restore(s: Snapshot, ghost c: Config)
      requires Valid() && Model() == FreshFed(c) && s.id == id
      modifies this`name, this`generation, this`epoch, this`policy, this`members, this`index, this`workloads, this`plans
      ensures Valid() && Model() == Recovered(s, c)
    {
      hide IndexAgrees, RecoveredMembers, RecoveredWorkloads, RecoveredPolicy, AbortAll, FreshFed;
      FreshModes(c);
      if s.name != "" { name := s.name; }
      generation, epoch := Next(s.generation), Next(s.epoch);
      policy := RecoveredPolicy(s.policy);
      RestoreMembers(s);
      workloads := RecoveredWorkloads(s);
      plans := s.plans;
      AbortMovingPlans(AUTHORITY_ADVANCED);
    }

    /** Opens a federation on a store; a failed write fails the open. */
    static method Open(disk: Option<Snapshot>, c: Config, writeOk: bool) returns (running: Option<Runtime>, left: Option<Snapshot>)
      ensures running.None? ==> OpenStep(disk, c, writeOk) == World(left, None)
      ensures running.Some? ==> fresh(running.value) && running.value.Valid() && running.value.Whole() == OpenStep(disk, c, writeOk) && running.value.store == left
    {
      hide IndexAgrees, Decodes, Recovered, FreshFed;
      var runtime := new Runtime(c, disk);
      FreshModes(c);
      if disk.Some? {
        if !Decodes(disk.value) { return None, disk; }
        if disk.value.id != runtime.id { return None, disk; }
        runtime.Restore(disk.value, c);
        OpenedModes(disk, c);
      }
      var ok := runtime.PersistLocked(false, writeOk);
      return if ok then Some(runtime) else None, runtime.store;
    }
  }

  lemma PlanNeeds(f: Fed, w: WorkloadId, s: AcceleratorId, d: AcceleratorId, now: int, c: Claim)
    requires PlanRefusal(f, w, s, d, now, c).None?
    ensures w in f.workloads && s in f.members && d in f.members
  {
    hide Authority, Judged;
  }

  lemma FreshModes(c: Config)
    ensures
      var f := FreshFed(c);
      && f.id == c.id && f.name == c.name && f.durable == c.durable && f.eager == c.eager && f.maxDecisions == BoundOf(c)
      && f.members == map[] && f.decisions == map[] && !f.shutdown
  {
    hide PolicyOf;
  }
}
