/** What must happen before a workload valid on one accelerator is valid on another. */
module Portability {
  import opened Prelude
  import opened Ordering
  import opened Capability

  datatype PortabilityClass =
    | NotPortable
    | UnknownPortability
    | RepackageAndRestartRequired
    | StateReconstructionRequired
    | RepackageRequired
    | RecompileRequired
    | CheckpointRestoreSupported
    | BinaryCompatible
    | Native
    | LiveMigrationSupported

  function Strength(c: PortabilityClass): nat {
    match c
    case NotPortable => 0
    case UnknownPortability => 1
    case RepackageAndRestartRequired => 2
    case StateReconstructionRequired => 3
    case RepackageRequired => 4
    case RecompileRequired => 5
    case CheckpointRestoreSupported => 6
    case BinaryCompatible => 7
    case Native => 8
    case LiveMigrationSupported => 9
  }

  /** An unknown class meets no threshold and an unknown threshold is met by nothing. */
  predicate MeetsThreshold(value: PortabilityClass, minimum: PortabilityClass) {
    value != UnknownPortability && minimum != UnknownPortability && Strength(value) >= Strength(minimum)
  }

  function TransformationSteps(c: PortabilityClass): nat {
    match c
    case Native | LiveMigrationSupported | BinaryCompatible => 0
    case CheckpointRestoreSupported => 1
    case RecompileRequired | RepackageRequired => 2
    case StateReconstructionRequired | RepackageAndRestartRequired => 3
    case NotPortable | UnknownPortability => 255
  }

  predicate RequiresBinaryTransformation(c: PortabilityClass) {
    c in {RecompileRequired, RepackageRequired, RepackageAndRestartRequired, StateReconstructionRequired}
  }

  predicate RequiresStateReconstruction(c: PortabilityClass) {
    c in {StateReconstructionRequired, RepackageAndRestartRequired}
  }

  // ---- Reasons ----------------------------------------------------------------------------

  datatype RequirementStrength = Hard | Soft

  datatype Reason = Reason(code: ErrorCode, subject: string, strength: RequirementStrength, observed: CapabilityState)

  predicate ReasonLess(a: Reason, b: Reason) {
    if a.strength != b.strength then a.strength == Hard
    else if a.subject != b.subject then StringLess(a.subject, b.subject)
    else a.code.Number() < b.code.Number()
  }

  /** Explanations are put into a deterministic order. */
  function SortReasons(reasons: seq<Reason>): seq<Reason> { Sort(ReasonLess, reasons) }

  // ---- Classification ---------------------------------------------------------------------

  datatype MigrationNeed = NoMigration | RestartOnly | CheckpointRestore | LiveStateTransfer

  datatype Request = Request(
    source: Option<CapabilitySet>,
    destination: Option<CapabilitySet>,
    sourceVendor: string,
    destinationVendor: string,
    need: Option<MigrationNeed>,
    crossVendorMigrationAllowed: bool)

  datatype Classification = Classification(value: PortabilityClass, reasons: seq<Reason>)

  /** The evidence without which nothing is claimed. */
  const GATE := [VENDOR, ARCHITECTURE, CODE_OBJECT_TARGETS, RUNTIME_FAMILY]

  predicate GatePasses(source: CapabilitySet, destination: CapabilitySet) {
    forall i :: 0 <= i < |GATE| ==> Known(source, GATE[i]) && Known(destination, GATE[i])
  }

  predicate SameVendor(r: Request) { r.sourceVendor != "" && r.sourceVendor == r.destinationVendor }

  function TokensAt(caps: CapabilitySet, key: string): seq<string> {
    match LookUp(caps, key).value case Some(v) => v.AsTokens() case None => []
  }

  predicate SharesToken(a: CapabilitySet, b: CapabilitySet, key: string) {
    exists i :: 0 <= i < |TokensAt(a, key)| && TokensAt(a, key)[i] in TokensAt(b, key)
  }

  predicate SameArchitecture(source: CapabilitySet, destination: CapabilitySet) {
    var a, b := LookUp(source, ARCHITECTURE).value, LookUp(destination, ARCHITECTURE).value;
    a.Some? && b.Some? && a.value.AsToken() == b.value.AsToken()
  }

  predicate BothSupport(a: CapabilitySet, b: CapabilitySet, key: string) { Supports(a, key) && Supports(b, key) }

  /** Cross-vendor live movement needs explicit support on both sides and policy consent. */
  predicate LiveMovementAllowed(r: Request, source: CapabilitySet, destination: CapabilitySet) {
    SameVendor(r) || (r.crossVendorMigrationAllowed && BothSupport(source, destination, CROSS_VENDOR_STATE))
  }

  /** What the evidence has to show for each class, taken by itself. */
  predicate Justified(r: Request, source: CapabilitySet, destination: CapabilitySet, c: PortabilityClass) {
    match c
    case LiveMigrationSupported =>
      && SharesToken(source, destination, CODE_OBJECT_TARGETS)
      && BothSupport(source, destination, LIVE_TRANSFER)
      && LiveMovementAllowed(r, source, destination)
    case Native =>
      SharesToken(source, destination, CODE_OBJECT_TARGETS) && SameVendor(r) && SameArchitecture(source, destination)
    case BinaryCompatible => SharesToken(source, destination, CODE_OBJECT_TARGETS)
    case CheckpointRestoreSupported => BothSupport(source, destination, CHECKPOINT_RESTORE) && SameVendor(r)
    case RecompileRequired => Supports(destination, RECOMPILE)
    case RepackageRequired => Supports(destination, REPACKAGE)
    case StateReconstructionRequired => Supports(destination, STATE_RECONSTRUCTION)
    case NotPortable => true
    case RepackageAndRestartRequired | UnknownPortability => false
  }

  /** The first justified class in descending order of strength. */
  function Strongest(r: Request, source: CapabilitySet, destination: CapabilitySet): PortabilityClass {
    if Justified(r, source, destination, LiveMigrationSupported) then LiveMigrationSupported
    else if Justified(r, source, destination, Native) then Native
    else if Justified(r, source, destination, BinaryCompatible) then BinaryCompatible
    else if Justified(r, source, destination, CheckpointRestoreSupported) then CheckpointRestoreSupported
    else if Justified(r, source, destination, RecompileRequired) then RecompileRequired
    else if Justified(r, source, destination, RepackageRequired) then RepackageRequired
    else if Justified(r, source, destination, StateReconstructionRequired) then StateReconstructionRequired
    else NotPortable
  }

  function ClassOf(r: Request): PortabilityClass {
    match (r.source, r.destination)
    case (Some(source), Some(destination)) =>
      if GatePasses(source, destination) then Strongest(r, source, destination) else UnknownPortability
    case _ => UnknownPortability
  }

  function Note(code: ErrorCode, subject: string): Reason { Reason(code, subject, Hard, Unknown) }

  function SubjectOf(c: PortabilityClass): string {
    match c
    case LiveMigrationSupported => LIVE_TRANSFER
    case Native | BinaryCompatible => CODE_OBJECT_TARGETS
    case CheckpointRestoreSupported => CHECKPOINT_RESTORE
    case RecompileRequired => RECOMPILE
    case RepackageRequired => REPACKAGE
    case StateReconstructionRequired => STATE_RECONSTRUCTION
    case NotPortable | UnknownPortability | RepackageAndRestartRequired => ""
  }

  function ReasonsOf(r: Request): seq<Reason> {
    if r.source.None? || r.destination.None? then [Note(InvalidArgument, "")]
    else match ClassOf(r)
      case UnknownPortability => [Note(UnknownCapability, "")]
      case NotPortable => [Note(MigrationUnsupported, "")]
      case LiveMigrationSupported =>
        [Note(Success, LIVE_TRANSFER)] +
        (if r.need.Some? && r.need.value != LiveStateTransfer then [Note(Success, "workload.migration_need")] else [])
      case c => [Note(Success, SubjectOf(c))]
  }

  function Classify(r: Request): Classification { Classification(ClassOf(r), SortReasons(ReasonsOf(r))) }

  lemma OneReasonIsSorted(a: Reason)
    ensures SortReasons([a]) == [a]
  {
    assert [a][1..] == [];
    assert Sort(ReasonLess, [a][1..]) == [];
  }

  /** The gate keys that are unknown on at least one side. */
  method UnknownInputs(source: CapabilitySet, destination: CapabilitySet) returns (unknown: seq<string>)
    ensures unknown == [] <==> GatePasses(source, destination)
    ensures forall key :: key in unknown <==> key in GATE && !(Known(source, key) && Known(destination, key))
  {
    hide LookUp;
    unknown := [];
    for i := 0 to |GATE|
      invariant forall key :: key in unknown <==> key in GATE[..i] && !(Known(source, key) && Known(destination, key))
    {
      if !Known(source, GATE[i]) || !Known(destination, GATE[i]) {
        unknown := unknown + [GATE[i]];
      }
    }
    assert GATE[..|GATE|] == GATE;
    if unknown != [] {
      assert unknown[0] in unknown;
    }
    if !GatePasses(source, destination) {
      var i :| 0 <= i < |GATE| && !(Known(source, GATE[i]) && Known(destination, GATE[i]));
      assert GATE[i] in unknown;
    }
  }

  /** The classifier: evidence gate first, then the strongest class the evidence justifies. */
  method ClassifyPortability(r: Request) returns (result: Classification)
    ensures result == Classify(r)
  {
    hide GatePasses, Supports, SharesToken, SameVendor, SameArchitecture, LiveMovementAllowed, SortReasons;
    if r.source.None? || r.destination.None? {
      OneReasonIsSorted(Note(InvalidArgument, ""));
      return Classification(UnknownPortability, [Note(InvalidArgument, "")]);
    }
    var source, destination := r.source.value, r.destination.value;
    var unknownInputs := UnknownInputs(source, destination);
    if unknownInputs != [] {
      return Classification(UnknownPortability, SortReasons([Note(UnknownCapability, "")]));
    }
    var shared := SharesToken(source, destination, CODE_OBJECT_TARGETS);
    var live := Supports(source, LIVE_TRANSFER) && Supports(destination, LIVE_TRANSFER);
    var reasons: seq<Reason>;
    var value;
    if shared && live && LiveMovementAllowed(r, source, destination) {
      value, reasons := LiveMigrationSupported, [Note(Success, LIVE_TRANSFER)];
    } else if shared && SameVendor(r) && SameArchitecture(source, destination) {
      value, reasons := Native, [Note(Success, CODE_OBJECT_TARGETS)];
    } else if shared {
      value, reasons := BinaryCompatible, [Note(Success, CODE_OBJECT_TARGETS)];
    } else if BothSupport(source, destination, CHECKPOINT_RESTORE) && SameVendor(r) {
      value, reasons := CheckpointRestoreSupported, [Note(Success, CHECKPOINT_RESTORE)];
    } else if Supports(destination, RECOMPILE) {
      value, reasons := RecompileRequired, [Note(Success, RECOMPILE)];
    } else if Supports(destination, REPACKAGE) {
      value, reasons := RepackageRequired, [Note(Success, REPACKAGE)];
    } else if Supports(destination, STATE_RECONSTRUCTION) {
      value, reasons := StateReconstructionRequired, [Note(Success, STATE_RECONSTRUCTION)];
    } else {
      value, reasons := NotPortable, [Note(MigrationUnsupported, "")];
    }
    assert value == ClassOf(r);
    if r.need.Some? && value == LiveMigrationSupported && r.need.value != LiveStateTransfer {
      reasons := reasons + [Note(Success, "workload.migration_need")];
    }
    assert reasons == ReasonsOf(r);
    result := Classification(value, SortReasons(reasons));
  }

  // ---- Properties -------------------------------------------------------------------------

  /** Fails closed: unknown exactly when one of the four gate keys is unknown on some side. */
  lemma UnknownIffGateUnknown(r: Request)
    requires r.source.Some? && r.destination.Some?
    ensures ClassOf(r) == UnknownPortability <==>
            exists key :: key in [VENDOR, ARCHITECTURE, CODE_OBJECT_TARGETS, RUNTIME_FAMILY] &&
                          (!Known(r.source.value, key) || !Known(r.destination.value, key))
  {
    if !GatePasses(r.source.value, r.destination.value) {
      var i :| 0 <= i < |GATE| && !(Known(r.source.value, GATE[i]) && Known(r.destination.value, GATE[i]));
      assert GATE[i] in [VENDOR, ARCHITECTURE, CODE_OBJECT_TARGETS, RUNTIME_FAMILY];
    }
  }

  /** Past the gate, the result is justified and nothing stronger is. */
  lemma ResultIsStrongestJustified(r: Request, c: PortabilityClass)
    requires r.source.Some? && r.destination.Some? && ClassOf(r) != UnknownPortability
    ensures Justified(r, r.source.value, r.destination.value, ClassOf(r))
    ensures Justified(r, r.source.value, r.destination.value, c) ==> Strength(c) <= Strength(ClassOf(r))
  {
  }

  const MOVEMENT_FACTS :=
    {LIVE_TRANSFER, CHECKPOINT_RESTORE, STATE_RECONSTRUCTION, CROSS_VENDOR_STATE, RECOMPILE, REPACKAGE}

  /** `after` keeps every fact `before` offers to a migration: supported migration and
      portability facts stay supported, target tokens stay listed, the architecture stays. */
  ghost predicate Enriches(before: CapabilitySet, after: CapabilitySet) {
    && (forall key :: key in MOVEMENT_FACTS && Supports(before, key) ==> Supports(after, key))
    && (forall t :: t in TokensAt(before, CODE_OBJECT_TARGETS) ==> t in TokensAt(after, CODE_OBJECT_TARGETS))
    && LookUp(before, ARCHITECTURE) == LookUp(after, ARCHITECTURE)
  }

  /** More evidence on either side never weakens a classification that passed the gate. */
  lemma MoreFactsNeverWeaken(r: Request, s: Request)
    requires r.source.Some? && r.destination.Some? && s.source.Some? && s.destination.Some?
    requires Enriches(r.source.value, s.source.value) && Enriches(r.destination.value, s.destination.value)
    requires s.sourceVendor == r.sourceVendor && s.destinationVendor == r.destinationVendor
    requires r.crossVendorMigrationAllowed ==> s.crossVendorMigrationAllowed
    requires ClassOf(r) != UnknownPortability && ClassOf(s) != UnknownPortability
    ensures Strength(ClassOf(r)) <= Strength(ClassOf(s))
  {
    var c := ClassOf(r);
    ResultIsStrongestJustified(r, c);
    JustificationPersists(r, s, c);
    ResultIsStrongestJustified(s, c);
  }

  lemma SharedTokenPersists(r: Request, s: Request)
    requires r.source.Some? && r.destination.Some? && s.source.Some? && s.destination.Some?
    requires Enriches(r.source.value, s.source.value) && Enriches(r.destination.value, s.destination.value)
    requires SharesToken(r.source.value, r.destination.value, CODE_OBJECT_TARGETS)
    ensures SharesToken(s.source.value, s.destination.value, CODE_OBJECT_TARGETS)
  {
    var a, b := TokensAt(r.source.value, CODE_OBJECT_TARGETS), TokensAt(s.source.value, CODE_OBJECT_TARGETS);
    var i :| 0 <= i < |a| && a[i] in TokensAt(r.destination.value, CODE_OBJECT_TARGETS);
    assert a[i] in b;
    var j :| 0 <= j < |b| && b[j] == a[i];
    assert b[j] in TokensAt(s.destination.value, CODE_OBJECT_TARGETS);
  }

  lemma JustificationPersists(r: Request, s: Request, c: PortabilityClass)
    requires r.source.Some? && r.destination.Some? && s.source.Some? && s.destination.Some?
    requires Enriches(r.source.value, s.source.value) && Enriches(r.destination.value, s.destination.value)
    requires s.sourceVendor == r.sourceVendor && s.destinationVendor == r.destinationVendor
    requires r.crossVendorMigrationAllowed ==> s.crossVendorMigrationAllowed
    requires Justified(r, r.source.value, r.destination.value, c)
    ensures Justified(s, s.source.value, s.destination.value, c)
  {
    if c in {LiveMigrationSupported, Native, BinaryCompatible} {
      SharedTokenPersists(r, s);
    }
  }

  /** Live migration between different or unnamed vendors is claimed only with explicit support
      for live transfer and cross-vendor state on both sides and the policy's consent. */
  lemma CrossVendorLiveNeedsConsent(r: Request)
    requires ClassOf(r) == LiveMigrationSupported && !SameVendor(r)
    ensures r.source.Some? && r.destination.Some? && r.crossVendorMigrationAllowed
    ensures BothSupport(r.source.value, r.destination.value, LIVE_TRANSFER)
    ensures BothSupport(r.source.value, r.destination.value, CROSS_VENDOR_STATE)
  {
    ResultIsStrongestJustified(r, LiveMigrationSupported);
  }
}
