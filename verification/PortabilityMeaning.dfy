/** What the classes of portability mean, in terms of what the two sides advertise. */
module PortabilityMeaning {
  import opened Prelude
  import opened Ordering
  import opened Vocabulary
  import opened Capability
  import opened Portability

  // ---- What an advertisement says ---------------------------------------------------------

  /** The advertisement claims support. */
  predicate Claims(caps: CapabilitySet, key: string) { key in caps.records && caps.records[key].state == Supported }

  /** The advertisement says something, if only by speaking for the whole namespace. */
  predicate Tells(caps: CapabilitySet, key: string) {
    if key in caps.records then caps.records[key].state != Unknown else Namespace(key) in caps.closed
  }

  /** The code objects that can be loaded. */
  ghost function CodeObjects(caps: CapabilitySet): set<string> {
    if CODE_OBJECT_TARGETS !in caps.records then {}
    else match caps.records[CODE_OBJECT_TARGETS].value case TokenSet(ts) => (set t | t in ts) case _ => {}
  }

  ghost function ArchitectureOf(caps: CapabilitySet): Option<string> {
    if ARCHITECTURE !in caps.records then None
    else match caps.records[ARCHITECTURE].value case Enumeration(t) => Some(t) case _ => None
  }

  lemma LookUpsMean(caps: CapabilitySet, key: string)
    ensures Supports(caps, key) <==> Claims(caps, key)
    ensures Known(caps, key) <==> Tells(caps, key)
  {
    hide Namespace;
  }

  lemma ArchitectureIsNamed(caps: CapabilitySet)
    requires CapabilitiesValid(caps) && ARCHITECTURE in caps.records
    ensures caps.records[ARCHITECTURE].value.Enumeration?
  {
    assert NamesEnumeration(ARCHITECTURE);
    assert KeyKind(ARCHITECTURE) == Some(EnumerationKind);
    hide KeyKind, KeyName, RecordValid;
    assert EntryValid(ARCHITECTURE, caps.records[ARCHITECTURE]);
  }

  /** The architectures are the same exactly when both sides name one and it is the same one. */
  lemma SameArchitectureMeans(a: CapabilitySet, b: CapabilitySet)
    requires CapabilitiesValid(a) && CapabilitiesValid(b)
    ensures SameArchitecture(a, b) <==> ArchitectureOf(a).Some? && ArchitectureOf(a) == ArchitectureOf(b)
  {
    hide CapabilitiesValid, Namespace;
    if ARCHITECTURE in a.records { ArchitectureIsNamed(a); }
    if ARCHITECTURE in b.records { ArchitectureIsNamed(b); }
  }

  lemma TokensAreCodeObjects(caps: CapabilitySet)
    ensures forall t :: t in TokensAt(caps, CODE_OBJECT_TARGETS) <==> t in CodeObjects(caps)
  {
    hide Namespace;
  }

  lemma SharedCodeObjects(a: CapabilitySet, b: CapabilitySet)
    ensures SharesToken(a, b, CODE_OBJECT_TARGETS) <==> CodeObjects(a) * CodeObjects(b) != {}
  {
    hide TokensAt, CodeObjects;
    TokensAreCodeObjects(a);
    TokensAreCodeObjects(b);
    if SharesToken(a, b, CODE_OBJECT_TARGETS) {
      var i :| 0 <= i < |TokensAt(a, CODE_OBJECT_TARGETS)| && TokensAt(a, CODE_OBJECT_TARGETS)[i] in TokensAt(b, CODE_OBJECT_TARGETS);
      assert TokensAt(a, CODE_OBJECT_TARGETS)[i] in CodeObjects(a) * CodeObjects(b);
    }
    if CodeObjects(a) * CodeObjects(b) != {} {
      var t :| t in CodeObjects(a) * CodeObjects(b);
      var i :| 0 <= i < |TokensAt(a, CODE_OBJECT_TARGETS)| && TokensAt(a, CODE_OBJECT_TARGETS)[i] == t;
    }
  }

  // ---- The classes ------------------------------------------------------------------------

  /** Both sides say something about vendor, architecture, code objects and runtime. */
  ghost predicate Comparable(s: CapabilitySet, d: CapabilitySet) {
    && Tells(s, "vendor.id") && Tells(d, "vendor.id") && Tells(s, "architecture.family") && Tells(d, "architecture.family")
    && Tells(s, "isa.code_object_targets") && Tells(d, "isa.code_object_targets") && Tells(s, "runtime.family") && Tells(d, "runtime.family")
  }

  ghost predicate OneVendor(r: Request) { r.sourceVendor == r.destinationVendor && r.sourceVendor != "" }

  ghost predicate Shares(s: CapabilitySet, d: CapabilitySet) { CodeObjects(s) * CodeObjects(d) != {} }

  ghost predicate BothClaim(s: CapabilitySet, d: CapabilitySet, key: string) { Claims(s, key) && Claims(d, key) }

  ghost predicate CanMoveLive(r: Request, s: CapabilitySet, d: CapabilitySet) {
    && Shares(s, d) && BothClaim(s, d, "migration.live_state_transfer")
    && (OneVendor(r) || (r.crossVendorMigrationAllowed && BothClaim(s, d, "migration.cross_vendor_state")))
  }

  ghost predicate IsNative(r: Request, s: CapabilitySet, d: CapabilitySet) {
    Shares(s, d) && OneVendor(r) && ArchitectureOf(s).Some? && ArchitectureOf(s) == ArchitectureOf(d)
  }

  ghost predicate CanCheckpoint(r: Request, s: CapabilitySet, d: CapabilitySet) {
    OneVendor(r) && BothClaim(s, d, "migration.checkpoint_restore")
  }

  lemma ComparableIsGate(s: CapabilitySet, d: CapabilitySet)
    ensures GatePasses(s, d) <==> Comparable(s, d)
  {
    hide Known, Tells;
    forall key ensures Known(s, key) <==> Tells(s, key) { LookUpsMean(s, key); }
    forall key ensures Known(d, key) <==> Tells(d, key) { LookUpsMean(d, key); }
    assert GATE[0] == "vendor.id" && GATE[1] == "architecture.family" && GATE[2] == "isa.code_object_targets" && GATE[3] == "runtime.family";
  }

  /** The whole classification, for every pair of valid advertisements. */
  lemma ClassesMean(r: Request, s: CapabilitySet, d: CapabilitySet)
    requires r.source == Some(s) && r.destination == Some(d) && CapabilitiesValid(s) && CapabilitiesValid(d)
    ensures ClassOf(r) ==
            if !Comparable(s, d) then UnknownPortability
            else if CanMoveLive(r, s, d) then LiveMigrationSupported
            else if IsNative(r, s, d) then Native
            else if Shares(s, d) then BinaryCompatible
            else if CanCheckpoint(r, s, d) then CheckpointRestoreSupported
            else if Claims(d, "portability.recompile_available") then RecompileRequired
            else if Claims(d, "portability.repackage_available") then RepackageRequired
            else if Claims(d, "migration.state_reconstruction") then StateReconstructionRequired
            else NotPortable
  {
    hide GatePasses, Comparable, SharesToken, Supports, Claims, SameArchitecture, CapabilitiesValid, CodeObjects, ArchitectureOf;
    ComparableIsGate(s, d);
    SharedCodeObjects(s, d);
    SameArchitectureMeans(s, d);
    forall key ensures Supports(s, key) <==> Claims(s, key) { LookUpsMean(s, key); }
    forall key ensures Supports(d, key) <==> Claims(d, key) { LookUpsMean(d, key); }
  }

  /** The move the other way round. */
  function Reversed(r: Request): Request {
    r.(source := r.destination, destination := r.source, sourceVendor := r.destinationVendor, destinationVendor := r.sourceVendor)
  }

  /** What needs no rebuild in one direction needs none in the other: the four strongest classes, and
      the lack of evidence, do not depend on the direction. */
  lemma StrongClassesAreMutual(r: Request)
    ensures ClassOf(r) in {UnknownPortability, CheckpointRestoreSupported, BinaryCompatible, Native, LiveMigrationSupported} ==>
              ClassOf(Reversed(r)) == ClassOf(r)
  {
    hide Known, Supports, LookUp, TokensAt;
    if r.source.Some? && r.destination.Some? {
      SharingIsMutual(r.source.value, r.destination.value);
      SharingIsMutual(r.destination.value, r.source.value);
    }
    hide SharesToken;
  }

  lemma SharingIsMutual(a: CapabilitySet, b: CapabilitySet)
    ensures SharesToken(a, b, CODE_OBJECT_TARGETS) ==> SharesToken(b, a, CODE_OBJECT_TARGETS)
  {
    hide TokensAt;
    if SharesToken(a, b, CODE_OBJECT_TARGETS) {
      var x, y := TokensAt(a, CODE_OBJECT_TARGETS), TokensAt(b, CODE_OBJECT_TARGETS);
      var i :| 0 <= i < |x| && x[i] in y;
      var j :| 0 <= j < |y| && y[j] == x[i];
      assert TokensAt(b, CODE_OBJECT_TARGETS)[j] in TokensAt(a, CODE_OBJECT_TARGETS);
    }
  }

  // ---- The ladder -------------------------------------------------------------------------

  /** The known classes from the weakest to the strongest. */
  const LADDER := [NotPortable, RepackageAndRestartRequired, StateReconstructionRequired, RepackageRequired, RecompileRequired,
                   CheckpointRestoreSupported, BinaryCompatible, Native, LiveMigrationSupported]

  /** How much has to be done for each of them. */
  const LABOUR := [255, 3, 3, 2, 2, 1, 0, 0, 0]

  /** A class meets a threshold exactly when it stands as high on the ladder; what is unknown meets
      nothing and is met by nothing. Higher up there is never more to do. */
  lemma LadderOrders(i: nat, j: nat)
    requires i < 9 && j < 9
    ensures MeetsThreshold(LADDER[i], LADDER[j]) <==> i >= j
    ensures !MeetsThreshold(UnknownPortability, LADDER[j]) && !MeetsThreshold(LADDER[j], UnknownPortability)
    ensures Strength(LADDER[i]) >= Strength(LADDER[j]) <==> i >= j
    ensures TransformationSteps(LADDER[i]) == LABOUR[i] && (i >= j ==> TransformationSteps(LADDER[i]) <= TransformationSteps(LADDER[j]))
  {
  }

  lemma OnTheLadder(c: PortabilityClass)
    requires c != UnknownPortability
    ensures exists i :: 0 <= i < 9 && LADDER[i] == c
  {
    match c
    case NotPortable => assert LADDER[0] == c;
    case RepackageAndRestartRequired => assert LADDER[1] == c;
    case StateReconstructionRequired => assert LADDER[2] == c;
    case RepackageRequired => assert LADDER[3] == c;
    case RecompileRequired => assert LADDER[4] == c;
    case CheckpointRestoreSupported => assert LADDER[5] == c;
    case BinaryCompatible => assert LADDER[6] == c;
    case Native => assert LADDER[7] == c;
    case LiveMigrationSupported => assert LADDER[8] == c;
  }

  // ---- Reasons ----------------------------------------------------------------------------

  /** What was demanded comes before what was preferred, then subjects ascend, then codes. */
  ghost predicate ListedBefore(a: Reason, b: Reason) {
    && (a.strength == Soft ==> b.strength == Soft)
    && (a.strength == b.strength ==> !StringLess(b.subject, a.subject))
    && (a.strength == b.strength && a.subject == b.subject ==> a.code.Number() <= b.code.Number())
  }

  /** Reasons are neither lost nor invented, and listed in this order. */
  lemma ReasonsAreListed(reasons: seq<Reason>)
    ensures multiset(SortReasons(reasons)) == multiset(reasons)
    ensures forall i, j :: 0 <= i < j < |SortReasons(reasons)| ==> ListedBefore(SortReasons(reasons)[i], SortReasons(reasons)[j])
  {
    hide Sort, ReasonLess, ListedBefore;
    ReasonsAreOrdered();
    SortSorts(ReasonLess, reasons);
    SortPermutes(ReasonLess, reasons);
    var s := SortReasons(reasons);
    forall i, j | 0 <= i < j < |s| ensures ListedBefore(s[i], s[j]) { NotLessIsListed(s[i], s[j]); }
  }

  lemma NotLessIsListed(a: Reason, b: Reason)
    requires !ReasonLess(b, a)
    ensures ListedBefore(a, b)
  {
    StringLessTotal(a.subject, b.subject);
    hide StringLess;
  }

  lemma ReasonsAreOrdered()
    ensures WeakOrder(ReasonLess)
  {
    forall a, b | ReasonLess(a, b) ensures !ReasonLess(b, a) { ReasonsOpposed(a, b); }
    forall a, b, c | !ReasonLess(b, a) && !ReasonLess(c, b) ensures !ReasonLess(c, a) { ReasonsChain(a, b, c); }
  }

  lemma ReasonsOpposed(a: Reason, b: Reason)
    requires ReasonLess(a, b)
    ensures !ReasonLess(b, a)
  {
    StringLessTotal(a.subject, b.subject);
    hide StringLess;
  }

  lemma ReasonsChain(a: Reason, b: Reason, c: Reason)
    requires !ReasonLess(b, a) && !ReasonLess(c, b)
    ensures !ReasonLess(c, a)
  {
    StringLessTotal(a.subject, b.subject);
    StringLessTotal(b.subject, c.subject);
    StringLessTotal(a.subject, c.subject);
    if StringLess(a.subject, b.subject) && StringLess(b.subject, c.subject) { StringLessTransitive(a.subject, b.subject, c.subject); }
    hide StringLess;
  }
}
