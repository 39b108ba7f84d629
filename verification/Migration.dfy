/** Migration plans: how the planner maps portability to an outcome, and the plan lifecycle. */
module Migration {
  import opened Prelude
  import opened Ordering
  import opened Capability
  import opened Portability
  import opened Compatibility

  datatype MigrationOutcome =
    | MoveNativeState | RestoreCheckpoint | RecompileThenRestore | RepackageAndRestart
    | Reconstruct | Restart | UnsupportedMove | UnknownMove

  datatype MigrationState =
    | Planned | Validated | Prepared | Transferring | Verified | Committed | Aborted | Refused

  predicate LegalMigration(from: MigrationState, to: MigrationState) {
    match from
    case Planned => to in {Validated, Aborted, Refused}
    case Validated => to in {Prepared, Aborted}
    case Prepared => to in {Transferring, Aborted}
    case Transferring => to in {Verified, Aborted}
    case Verified => to in {Committed, Aborted}
    case Committed | Aborted | Refused => false
  }

  predicate IsTerminal(s: MigrationState) { s in {Committed, Aborted, Refused} }

  datatype Step = Step(kind: string, requiredCapability: string)

  /** What a plan's fingerprint covers; it serves as the plan's identity. The lifecycle position
      and the refusal explanations are not part of it. */
  datatype PlanBody = PlanBody(
    federation: FederationId,
    federationGeneration: Generation,
    epoch: Generation,
    source: AcceleratorId,
    sourceGeneration: Generation,
    sourceCapabilityGeneration: Generation,
    destination: AcceleratorId,
    destinationGeneration: Generation,
    destinationCapabilityGeneration: Generation,
    workload: WorkloadId,
    workloadRevision: Revision,
    sourceDecision: Decision,
    destinationDecision: Decision,
    portability: PortabilityClass,
    outcome: MigrationOutcome,
    policy: PolicyStamp,
    policyGeneration: PolicyStamp,
    destinationProvenance: Provenance,
    estimatedCost: nat,
    steps: seq<Step>)

  /** `abortText` is the length of the explanation an aborting caller gave; all others are short. */
  datatype Plan = Plan(body: PlanBody, state: MigrationState, refusals: seq<Reason>, abortText: nat)

  // ---- The planner ------------------------------------------------------------------------

  function DeriveOutcome(
    c: PortabilityClass, need: MigrationNeed, reconstructionAllowed: bool,
    destinationReconstructs: bool, checkpointBothWays: bool, liveBothWays: bool): MigrationOutcome
  {
    if c == NotPortable then UnsupportedMove
    else if c == UnknownPortability then UnknownMove
    else match need
      case LiveStateTransfer =>
        if c == LiveMigrationSupported && liveBothWays then MoveNativeState else UnsupportedMove
      case CheckpointRestore =>
        if c == LiveMigrationSupported && liveBothWays then MoveNativeState
        else if checkpointBothWays && MeetsThreshold(c, CheckpointRestoreSupported) then RestoreCheckpoint
        else if RequiresBinaryTransformation(c) && checkpointBothWays then RecompileThenRestore
        else if reconstructionAllowed && destinationReconstructs then Reconstruct
        else UnsupportedMove
      case RestartOnly | NoMigration =>
        if RequiresStateReconstruction(c) then
          if reconstructionAllowed && destinationReconstructs then Reconstruct else UnsupportedMove
        else if RequiresBinaryTransformation(c) then RepackageAndRestart
        else Restart
  }

  datatype Endpoint = Endpoint(
    accelerator: AcceleratorId,
    deviceGeneration: Generation,
    capabilityGeneration: Generation,
    capabilities: CapabilitySet,
    vendor: string,
    provenance: Provenance)

  datatype MigrationRequest = MigrationRequest(
    federation: FederationId,
    federationGeneration: Generation,
    epoch: Generation,
    policy: Policy,
    source: Endpoint,
    destination: Endpoint,
    workload: Workload,
    revision: Revision,
    sourceDecision: Decision,
    destinationDecision: Decision)

  function RequestOf(r: MigrationRequest): Request {
    Request(Some(r.source.capabilities), Some(r.destination.capabilities), r.source.vendor, r.destination.vendor,
            Some(r.workload.need), r.policy.body.allowCrossVendorMigration)
  }

  /** The refusals found before any outcome is considered. */
  function EarlyRefusals(r: MigrationRequest, c: PortabilityClass): seq<Reason> {
    var p := r.policy.body;
    var crossVendor := !SameVendor(RequestOf(r));
    When(crossVendor && r.workload.need == LiveStateTransfer &&
         !(BothSupport(r.source.capabilities, r.destination.capabilities, CROSS_VENDOR_STATE) && p.allowCrossVendorMigration),
         Note(MigrationUnsupported, CROSS_VENDOR_STATE)) +
    When(crossVendor && RequiresStateReconstruction(c) && !p.allowCrossVendorReconstruction,
         Note(MigrationUnsupported, STATE_RECONSTRUCTION)) +
    When(c == NotPortable, Note(PortabilityConstraintViolated, PORTABILITY)) +
    When(c == UnknownPortability, Note(UnknownCapability, PORTABILITY)) +
    When(p.synthetic == RejectSynthetic && r.destination.provenance != Real, Note(PolicyMismatch, SYNTHETIC_EVIDENCE)) +
    When(p.allowedClasses != [] && c !in {UnknownPortability, NotPortable} && c !in p.allowedClasses,
         Note(PortabilityConstraintViolated, ALLOWED_CLASSES))
  }

  predicate StepLess(a: Step, b: Step) { StringLess(a.kind, b.kind) }

  function StepList(outcome: MigrationOutcome): seq<Step> {
    match outcome
    case MoveNativeState => [Step("validate-live-transfer", LIVE_TRANSFER), Step("transfer-state", LIVE_TRANSFER)]
    case RestoreCheckpoint => [Step("export-state", CHECKPOINT_RESTORE), Step("restore-state", CHECKPOINT_RESTORE)]
    case RecompileThenRestore =>
      [Step("recompile", RECOMPILE), Step("export-state", CHECKPOINT_RESTORE), Step("restore-state", CHECKPOINT_RESTORE)]
    case RepackageAndRestart => [Step("repackage", REPACKAGE), Step("restart", "")]
    case Reconstruct => [Step("reconstruct", STATE_RECONSTRUCTION)]
    case Restart => [Step("restart", "")]
    case UnsupportedMove | UnknownMove => []
  }

  /** The transformations of an outcome, sorted by the name of their kind. */
  function StepsOf(outcome: MigrationOutcome): seq<Step> { Sort(StepLess, StepList(outcome)) }

  function CostOf(c: PortabilityClass, steps: nat): nat {
    (if TransformationSteps(c) == 255 then 1000 else TransformationSteps(c) * 100) + steps
  }

  function BodyFor(r: MigrationRequest, outcome: MigrationOutcome, cost: nat, steps: seq<Step>): PlanBody {
    PlanBody(
      r.federation, r.federationGeneration, r.epoch,
      r.source.accelerator, r.source.deviceGeneration, r.source.capabilityGeneration,
      r.destination.accelerator, r.destination.deviceGeneration, r.destination.capabilityGeneration,
      r.workload.classId, r.revision, r.sourceDecision, r.destinationDecision,
      ClassOf(RequestOf(r)), outcome, r.policy.id, r.policy.generation, r.destination.provenance, cost, steps)
  }

  function OutcomeFor(r: MigrationRequest): MigrationOutcome {
    DeriveOutcome(
      ClassOf(RequestOf(r)), r.workload.need, r.workload.reconstructionAllowed,
      Supports(r.destination.capabilities, STATE_RECONSTRUCTION),
      BothSupport(r.source.capabilities, r.destination.capabilities, CHECKPOINT_RESTORE),
      BothSupport(r.source.capabilities, r.destination.capabilities, LIVE_TRANSFER))
  }

  function PlanMigration(r: MigrationRequest): Result<Plan> {
    if r.source.accelerator == NoAccelerator || r.destination.accelerator == NoAccelerator then Err(InvalidArgument)
    else if r.source.accelerator == r.destination.accelerator then Err(InvalidArgument)
    else
      var c := ClassOf(RequestOf(r));
      var early := EarlyRefusals(r, c);
      if early != [] then
        Ok(Plan(BodyFor(r, if c == UnknownPortability then UnknownMove else UnsupportedMove, 0, []), Refused, SortReasons(early), 0))
      else
        var outcome := OutcomeFor(r);
        if outcome in {UnsupportedMove, UnknownMove} then
          Ok(Plan(BodyFor(r, outcome, 0, []), Refused,
                  [Note(if outcome == UnknownMove then UnknownCapability else MigrationUnsupported, MIGRATION_NEED)], 0))
        else
          var steps := StepsOf(outcome);
          Ok(Plan(BodyFor(r, outcome, CostOf(c, |steps|), steps), Planned, [], 0))
  }

  // ---- Properties -------------------------------------------------------------------------

  /** A plan is either refused with an explanation and no steps, or planned with a concrete
      outcome that honours the workload's migration need. */
  lemma PlansAreSound(r: MigrationRequest)
    requires PlanMigration(r).Ok?
    ensures
      var plan := PlanMigration(r).value;
      && plan.state in {Planned, Refused}
      && (plan.state == Refused <==> plan.body.outcome in {UnsupportedMove, UnknownMove})
      && (plan.state == Refused ==> plan.refusals != [] && plan.body.steps == [])
      && (plan.state == Planned ==>
            && plan.body.portability !in {NotPortable, UnknownPortability}
            && (r.workload.need == LiveStateTransfer ==> plan.body.outcome == MoveNativeState)
            && (r.workload.need == CheckpointRestore ==>
                  plan.body.outcome in {MoveNativeState, RestoreCheckpoint, RecompileThenRestore, Reconstruct}))
  {
    hide ClassOf, SupportedToken, Supports, Sort, StepsOf, MeetsThreshold, CostOf;
    var c := ClassOf(RequestOf(r));
    var early := EarlyRefusals(r, c);
    hide BodyFor, RequestOf;
    if early != [] {
      SortPermutes(ReasonLess, early);
      assert |SortReasons(early)| == |early|;
    }
    PlannedFields(r);
  }

  lemma PlannedFields(r: MigrationRequest)
    requires PlanMigration(r).Ok?
    ensures var plan := PlanMigration(r).value;
            && plan.body.portability == ClassOf(RequestOf(r))
            && (plan.state == Planned ==> plan.body.outcome == OutcomeFor(r) && EarlyRefusals(r, ClassOf(RequestOf(r))) == [])
            && (plan.state == Refused ==> plan.body.outcome in {UnsupportedMove, UnknownMove} && plan.body.steps == [])
  {
    hide ClassOf, EarlyRefusals, RequestOf, OutcomeFor, StepsOf, CostOf, SortReasons;
  }

  // ---- The outcome is the least disruptive one --------------------------------------------

  /** What an outcome asks of the need, of the endpoints and of the class, taken by itself. */
  predicate Feasible(r: MigrationRequest, o: MigrationOutcome) {
    var need, steps := r.workload.need, TransformationSteps(ClassOf(RequestOf(r)));
    var s, d := r.source.capabilities, r.destination.capabilities;
    var rebuilds := r.workload.reconstructionAllowed && Supports(d, STATE_RECONSTRUCTION);
    match o
    case MoveNativeState =>
      need in {LiveStateTransfer, CheckpointRestore} && ClassOf(RequestOf(r)) == LiveMigrationSupported && BothSupport(s, d, LIVE_TRANSFER)
    case RestoreCheckpoint => need == CheckpointRestore && BothSupport(s, d, CHECKPOINT_RESTORE) && steps <= 1
    case RecompileThenRestore => need == CheckpointRestore && BothSupport(s, d, CHECKPOINT_RESTORE) && 2 <= steps <= 3
    case Reconstruct => rebuilds && ((need == CheckpointRestore && steps <= 3) || (need in {RestartOnly, NoMigration} && steps == 3))
    case RepackageAndRestart => need in {RestartOnly, NoMigration} && steps == 2
    case Restart => need in {RestartOnly, NoMigration} && steps <= 1
    case UnsupportedMove | UnknownMove => false
  }

  /** Outcomes by how much of the running state they lose. */
  function Disruption(o: MigrationOutcome): nat {
    match o
    case MoveNativeState => 0
    case RestoreCheckpoint => 1
    case RecompileThenRestore => 2
    case Reconstruct => 3
    case Restart => 4
    case RepackageAndRestart => 5
    case UnsupportedMove | UnknownMove => 6
  }

  /** The planner finds the least disruptive feasible outcome, and gives up exactly when an early
      refusal applies or nothing is feasible. */
  lemma OutcomeIsLeastDisruptive(r: MigrationRequest, o: MigrationOutcome)
    requires PlanMigration(r).Ok?
    ensures
      var plan := PlanMigration(r).value;
      && (plan.state == Planned ==> Feasible(r, plan.body.outcome))
      && (plan.state == Planned && Feasible(r, o) ==> Disruption(plan.body.outcome) <= Disruption(o))
      && (plan.state == Refused && Feasible(r, o) ==> EarlyRefusals(r, ClassOf(RequestOf(r))) != [])
      && (EarlyRefusals(r, ClassOf(RequestOf(r))) != [] ==> plan.state == Refused)
  {
    hide ClassOf, EarlyRefusals, RequestOf, Supports, StepsOf, CostOf, SortReasons;
    PlannedFields(r);
  }

  /** What policy and evidence have to say before any outcome is considered. */
  predicate Permitted(r: MigrationRequest) {
    var p, c := r.policy.body, ClassOf(RequestOf(r));
    var abroad := r.source.vendor == "" || r.source.vendor != r.destination.vendor;
    && c != NotPortable && c != UnknownPortability
    && (p.synthetic == RejectSynthetic ==> r.destination.provenance == Real)
    && (p.allowedClasses == [] || c in p.allowedClasses)
    && (abroad && r.workload.need == LiveStateTransfer ==>
          && p.allowCrossVendorMigration
          && Supports(r.source.capabilities, "migration.cross_vendor_state") && Supports(r.destination.capabilities, "migration.cross_vendor_state"))
    && (abroad && c in {StateReconstructionRequired, RepackageAndRestartRequired} ==> p.allowCrossVendorReconstruction)
  }

  lemma PermittedMeans(r: MigrationRequest)
    ensures EarlyRefusals(r, ClassOf(RequestOf(r))) == [] <==> Permitted(r)
  {
    hide ClassOf, Supports;
    assert SameVendor(RequestOf(r)) <==> r.source.vendor != "" && r.source.vendor == r.destination.vendor;
    var c := ClassOf(RequestOf(r));
    hide RequestOf;
  }

  /** A migration is planned exactly when it is permitted and some outcome is feasible; it then costs
      a hundred for each transformation of its class and one for each step. */
  lemma PlannedIff(r: MigrationRequest, p: Plan)
    requires PlanMigration(r) == Ok(p)
    ensures p.state == Planned <==> Permitted(r) && exists o :: Feasible(r, o)
    ensures p.state == Planned ==> p.body.estimatedCost == 100 * TransformationSteps(p.body.portability) + |p.body.steps|
    ensures p.state == Refused ==> p.body.estimatedCost == 0
  {
    PermittedMeans(r);
    PlansAreSound(r);
    OutcomeIsLeastDisruptive(r, p.body.outcome);
    PlannedCost(r, p);
    hide Permitted, Feasible, EarlyRefusals, PlanMigration, ClassOf, RequestOf;
    if Permitted(r) && exists o :: Feasible(r, o) {
      var o :| Feasible(r, o);
      OutcomeIsLeastDisruptive(r, o);
    }
  }

  lemma PlannedCost(r: MigrationRequest, p: Plan)
    requires PlanMigration(r) == Ok(p)
    ensures p.state == Planned ==>
              OutcomeFor(r) !in {UnsupportedMove, UnknownMove} && p.body.estimatedCost == CostOf(p.body.portability, |p.body.steps|)
    ensures p.state == Planned ==> TransformationSteps(p.body.portability) != 255
    ensures p.state == Refused ==> p.body.estimatedCost == 0
  {
    PlannedFields(r);
    PlansAreSound(r);
    hide ClassOf, EarlyRefusals, RequestOf, OutcomeFor, StepsOf, CostOf, SortReasons;
  }

  /** The endpoints advertise what the step names: both of them what is exchanged between them,
      the destination alone what happens there. */
  predicate Backed(r: MigrationRequest, step: Step) {
    var key := step.requiredCapability;
    && (key in {LIVE_TRANSFER, CHECKPOINT_RESTORE} ==> Supports(r.source.capabilities, key))
    && (key != "" ==> Supports(r.destination.capabilities, key))
  }

  lemma SortedStepsBacked(r: MigrationRequest, o: MigrationOutcome)
    ensures (forall i :: 0 <= i < |StepsOf(o)| ==> Backed(r, StepsOf(o)[i])) <==> (forall i :: 0 <= i < |StepList(o)| ==> Backed(r, StepList(o)[i]))
  {
    hide Backed, StepList, Sort;
    var list, sorted := StepList(o), StepsOf(o);
    SortPermutes(StepLess, list);
    if forall i :: 0 <= i < |sorted| ==> Backed(r, sorted[i]) {
      forall i | 0 <= i < |list| ensures Backed(r, list[i]) { var j := FindIn(list, sorted, i); }
    }
    if forall i :: 0 <= i < |list| ==> Backed(r, list[i]) {
      forall i | 0 <= i < |sorted| ensures Backed(r, sorted[i]) { var j := FindIn(sorted, list, i); }
    }
  }

  lemma ListBacked(r: MigrationRequest, o: MigrationOutcome)
    requires Feasible(r, o)
    ensures
      (forall i :: 0 <= i < |StepList(o)| ==> Backed(r, StepList(o)[i])) <==>
      && (o == RecompileThenRestore ==> Supports(r.destination.capabilities, RECOMPILE))
      && (o == RepackageAndRestart ==> Supports(r.destination.capabilities, REPACKAGE))
  {
    hide ClassOf, RequestOf, Supports;
    assert o == RecompileThenRestore ==> StepList(o)[0] == Step("recompile", RECOMPILE);
    assert o == RepackageAndRestart ==> StepList(o)[0] == Step("repackage", REPACKAGE);
  }

  /** The destination offers recompilation to a class that needs a rebuild only if that is the class. */
  lemma RecompilationIsAClass(r: MigrationRequest)
    requires 2 <= TransformationSteps(ClassOf(RequestOf(r))) <= 3
    ensures Supports(r.destination.capabilities, RECOMPILE) <==> ClassOf(RequestOf(r)) == RecompileRequired
  {
    hide Supports, SharesToken, GatePasses, SameVendor, SameArchitecture;
  }

  /** Every step of a plan is backed by the endpoints, except that a rebuild is planned for classes
      whose destination does not offer it. */
  lemma StepsAreBacked(r: MigrationRequest)
    requires PlanMigration(r).Ok? && PlanMigration(r).value.state == Planned
    ensures
      var body := PlanMigration(r).value.body;
      (forall i :: 0 <= i < |body.steps| ==> Backed(r, body.steps[i])) <==>
      && (body.outcome == RecompileThenRestore ==> body.portability == RecompileRequired)
      && (body.outcome == RepackageAndRestart ==> Supports(r.destination.capabilities, REPACKAGE))
  {
    hide ClassOf, EarlyRefusals, RequestOf, Supports, StepsOf, StepList, CostOf, SortReasons, Backed, OutcomeFor;
    PlannedFields(r);
    var o := PlanMigration(r).value.body.outcome;
    assert PlanMigration(r).value.body.steps == StepsOf(o);
    OutcomeIsLeastDisruptive(r, o);
    SortedStepsBacked(r, o);
    ListBacked(r, o);
    if o == RecompileThenRestore { RecompilationIsAClass(r); }
  }

  const SURVEYED := {Namespace(VENDOR), Namespace(ARCHITECTURE), Namespace(CODE_OBJECT_TARGETS), Namespace(RUNTIME_FAMILY)}

  const RECOMPILER := CapabilitySet(map[RECOMPILE := CapabilityRecord(Supported, Presence(true), "")], SURVEYED)

  lemma GateLookUps(key: string)
    requires key in GATE
    ensures LookUp(CapabilitySet(map[], SURVEYED), key) == LookUp(RECOMPILER, key) == Lookup(Unsupported, None, false, true)
  {
    hide Namespace;
    assert VENDOR[0] != RECOMPILE[0] && ARCHITECTURE[0] != RECOMPILE[0];
    assert CODE_OBJECT_TARGETS[0] != RECOMPILE[0] && RUNTIME_FAMILY[0] != RECOMPILE[0];
  }

  lemma OnlyRecompiles()
    ensures Supports(RECOMPILER, RECOMPILE) && !Supports(RECOMPILER, REPACKAGE)
    ensures forall key :: !Supports(CapabilitySet(map[], SURVEYED), key)
  {
    hide Namespace;
    assert RECOMPILE[14] != REPACKAGE[14];
  }

  lemma RecompilerGate()
    ensures GatePasses(CapabilitySet(map[], SURVEYED), RECOMPILER)
    ensures !SharesToken(CapabilitySet(map[], SURVEYED), RECOMPILER, CODE_OBJECT_TARGETS)
  {
    hide LookUp;
    forall i | 0 <= i < |GATE| ensures Known(CapabilitySet(map[], SURVEYED), GATE[i]) && Known(RECOMPILER, GATE[i]) { GateLookUps(GATE[i]); }
    assert CODE_OBJECT_TARGETS == GATE[2];
    GateLookUps(CODE_OBJECT_TARGETS);
  }

  lemma RecompilesWhen(r: Request, source: CapabilitySet, destination: CapabilitySet)
    requires r.source == Some(source) && r.destination == Some(destination) && GatePasses(source, destination)
    requires !SharesToken(source, destination, CODE_OBJECT_TARGETS) && !Supports(source, CHECKPOINT_RESTORE) && Supports(destination, RECOMPILE)
    ensures ClassOf(r) == RecompileRequired
  {
    hide LookUp, Supports, GatePasses, SharesToken, SameArchitecture, SameVendor;
  }

  lemma RecompilerClass(r: Request)
    requires r.source == Some(CapabilitySet(map[], SURVEYED)) && r.destination == Some(RECOMPILER)
    ensures ClassOf(r) == RecompileRequired
  {
    hide *;
    RecompilerGate();
    OnlyRecompiles();
    RecompilesWhen(r, CapabilitySet(map[], SURVEYED), RECOMPILER);
  }

  /** A restart on a destination that only offers recompilation is planned as a repackaging. */
  lemma RepackagingNobodyOffers(r: MigrationRequest)
    requires r.source.capabilities == CapabilitySet(map[], SURVEYED) && r.destination.capabilities == RECOMPILER
    requires r.source.accelerator != r.destination.accelerator
    requires r.source.accelerator != NoAccelerator && r.destination.accelerator != NoAccelerator
    requires r.workload.need == RestartOnly && r.policy.body.synthetic != RejectSynthetic && r.policy.body.allowedClasses == []
    ensures PlanMigration(r).Ok? && PlanMigration(r).value.state == Planned
    ensures Step("repackage", REPACKAGE) in PlanMigration(r).value.body.steps
    ensures !Supports(r.destination.capabilities, REPACKAGE)
  {
    hide ClassOf, Supports, Sort, CostOf, SameVendor, SortReasons;
    RecompilerClass(RequestOf(r));
    OnlyRecompiles();
    assert EarlyRefusals(r, RecompileRequired) == [];
    hide EarlyRefusals, RequestOf;
    var list := StepList(RepackageAndRestart);
    SortPermutes(StepLess, list);
    assert list[0] == Step("repackage", REPACKAGE);
    assert Step("repackage", REPACKAGE) in multiset(StepsOf(RepackageAndRestart));
  }

  /** State is moved natively between different vendors only when both sides support live
      transfer and cross-vendor state and the policy consents. */
  lemma CrossVendorMoveNeedsConsent(r: MigrationRequest)
    requires PlanMigration(r).Ok? && PlanMigration(r).value.body.outcome == MoveNativeState
    requires !SameVendor(RequestOf(r))
    ensures r.policy.body.allowCrossVendorMigration
    ensures BothSupport(r.source.capabilities, r.destination.capabilities, LIVE_TRANSFER)
    ensures BothSupport(r.source.capabilities, r.destination.capabilities, CROSS_VENDOR_STATE)
  {
    PlannedFields(r);
    MoveIsLive(r);
    CrossVendorLiveNeedsConsent(RequestOf(r));
  }

  lemma MoveIsLive(r: MigrationRequest)
    requires OutcomeFor(r) == MoveNativeState
    ensures ClassOf(RequestOf(r)) == LiveMigrationSupported
  {
    hide ClassOf, RequestOf, Supports, MeetsThreshold;
  }

  // ---- The order of the steps -------------------------------------------------------------

  lemma PairSorts(a: Step, b: Step)
    ensures Sort(StepLess, [a, b]) == if StepLess(b, a) then [b, a] else [a, b]
  {
    assert [a, b][1..] == [b] && [b][1..] == [];
    assert Sort(StepLess, [b]) == [b];
    assert Sort(StepLess, [a, b]) == Insert(StepLess, a, [b]);
    assert Insert(StepLess, a, []) == [a];
    assert Insert(StepLess, a, [b]) == if StepLess(b, a) then [b] + [a] else [a] + [b];
  }

  lemma MovesDown(a: Step, b: Step, c: Step)
    requires StepLess(b, a) && !StepLess(c, a) && !StepLess(c, b)
    ensures Sort(StepLess, [a, b, c]) == [b, a, c]
  {
    assert [a, b, c][1..] == [b, c] && [b, c][1..] == [c];
    PairSorts(b, c);
    assert Sort(StepLess, [a, b, c]) == Insert(StepLess, a, [b, c]);
  }

  lemma SharedLetter(c: char, a: string, b: string)
    ensures StringLess([c] + a, [c] + b) == StringLess(a, b)
  {
    assert ([c] + a)[1..] == a && ([c] + b)[1..] == b;
  }

  lemma TransferSortsFirst()
    ensures StringLess("transfer-state", "validate-live-transfer")
    ensures StringLess("export-state", "recompile") && !StringLess("restore-state", "export-state")
  {
    assert "transfer-state"[0] < "validate-live-transfer"[0] && "export-state"[0] < "restore-state"[0] == "recompile"[0];
  }

  lemma RestoreSortsLast()
    ensures !StringLess("restore-state", "recompile")
  {
    hide StringLess;
    SharedLetter('r', "estore-state", "ecompile");
    assert "restore-state" == ['r'] + "estore-state" && "recompile" == ['r'] + "ecompile";
    SharedLetter('e', "store-state", "compile");
    assert "estore-state" == ['e'] + "store-state" && "ecompile" == ['e'] + "compile";
    FirstLetterDecides("store-state", "compile");
  }

  lemma RestartSortsLast()
    ensures !StringLess("restart", "repackage")
  {
    hide StringLess;
    SharedLetter('r', "estart", "epackage");
    assert "restart" == ['r'] + "estart" && "repackage" == ['r'] + "epackage";
    SharedLetter('e', "start", "package");
    assert "estart" == ['e'] + "start" && "epackage" == ['e'] + "package";
    FirstLetterDecides("start", "package");
  }

  lemma FirstLetterDecides(a: string, b: string)
    requires a != "" && b != "" && b[0] < a[0]
    ensures !StringLess(a, b)
  {
  }

  /** Sorting by name keeps the intended order of the steps for every outcome but two: the transfer
      comes before its validation, and the export before the rebuild. */
  lemma StepsKeepOrder(o: MigrationOutcome)
    ensures StepsOf(o) == StepList(o) <==> o !in {MoveNativeState, RecompileThenRestore}
    ensures StepsOf(MoveNativeState) == [Step("transfer-state", LIVE_TRANSFER), Step("validate-live-transfer", LIVE_TRANSFER)]
    ensures StepsOf(RecompileThenRestore)
            == [Step("export-state", CHECKPOINT_RESTORE), Step("recompile", RECOMPILE), Step("restore-state", CHECKPOINT_RESTORE)]
  {
    TransferSortsFirst();
    RestoreSortsLast();
    RestartSortsLast();
    assert "export-state"[0] != "recompile"[0] && "transfer-state"[0] != "validate-live-transfer"[0];
    hide StringLess, Insert;
    MovesDown(Step("recompile", RECOMPILE), Step("export-state", CHECKPOINT_RESTORE), Step("restore-state", CHECKPOINT_RESTORE));
    PairSorts(Step("validate-live-transfer", LIVE_TRANSFER), Step("transfer-state", LIVE_TRANSFER));
    PairSorts(Step("export-state", CHECKPOINT_RESTORE), Step("restore-state", CHECKPOINT_RESTORE));
    PairSorts(Step("repackage", REPACKAGE), Step("restart", ""));
    SingleSorts(Step("reconstruct", STATE_RECONSTRUCTION));
    SingleSorts(Step("restart", ""));
  }

  lemma SingleSorts(a: Step)
    ensures Sort(StepLess, [a]) == [a]
  {
    assert [a][1..] == [];
  }

  predicate Before(steps: seq<Step>, a: string, b: string) { exists i, j :: 0 <= i < j < |steps| && steps[i].kind == a && steps[j].kind == b }

  lemma OnlyTransfersTransfer(o: MigrationOutcome, i: nat)
    requires i < |StepsOf(o)| && StepsOf(o)[i].kind == "transfer-state"
    ensures o == MoveNativeState
  {
    hide Sort;
    SortPermutes(StepLess, StepList(o));
    var j := FindIn(StepsOf(o), StepList(o), i);
    assert "transfer-state"[0] == 't' && "export-state"[0] == 'e' && "restore-state"[0] == 'r' && "recompile"[0] == 'r';
    assert "repackage"[0] == 'r' && "restart"[0] == 'r' && "reconstruct"[0] == 'r';
  }

  lemma OnlyTransfersAreLate(o: MigrationOutcome)
    ensures Before(StepsOf(o), "transfer-state", "validate-live-transfer") <==> o == MoveNativeState
  {
    StepsKeepOrder(MoveNativeState);
    hide StepsOf;
    if o == MoveNativeState {
      var steps := StepsOf(o);
      assert steps[0].kind == "transfer-state" && steps[1].kind == "validate-live-transfer";
    } else if Before(StepsOf(o), "transfer-state", "validate-live-transfer") {
      var i, j :| 0 <= i < j < |StepsOf(o)| && StepsOf(o)[i].kind == "transfer-state" && StepsOf(o)[j].kind == "validate-live-transfer";
      OnlyTransfersTransfer(o, i);
      assert false;
    }
  }

  lemma StepsOfPlan(r: MigrationRequest, p: Plan)
    requires PlanMigration(r) == Ok(p)
    ensures p.body.steps == StepsOf(p.body.outcome)
  {
    hide ClassOf, EarlyRefusals, RequestOf, OutcomeFor, CostOf, SortReasons, StepsOf;
    NoSteps();
  }

  lemma NoSteps()
    ensures StepsOf(UnsupportedMove) == [] && StepsOf(UnknownMove) == []
  {
  }

  /** In a plan the state is transferred before the transfer is validated, exactly when it is
      moved natively. */
  lemma ValidationComesLate(r: MigrationRequest, p: Plan)
    requires PlanMigration(r) == Ok(p)
    ensures Before(p.body.steps, "transfer-state", "validate-live-transfer") <==> p.body.outcome == MoveNativeState
  {
    hide Before, PlanMigration, StepsOf;
    StepsOfPlan(r, p);
    OnlyTransfersAreLate(p.body.outcome);
  }
}
