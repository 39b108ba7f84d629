/** Values shared by every component: optional values, typed results, error codes and the
    identities and generation counters that carry authority. */
module Prelude {

  datatype Option<+T> = None | Some(value: T)

  datatype Result<+T> = Ok(value: T) | Err(code: ErrorCode)

  /** The error codes that the modelled operations return or attach to a reason. */
  datatype ErrorCode =
    | Success
    | InvalidArgument | MalformedData | MalformedVersionRange | NonFiniteQuantity | ImpossibleQuantity | BoundsExceeded
    | UnsupportedCapability | UnknownCapability | CapabilityMismatch | MissingMandatoryCapability
    | VendorMismatch | ArchitectureMismatch | RuntimeMismatch | RuntimeVersionUnsupported
    | IsaIncompatible | InsufficientMemory | NumericModeUnsupported | PolicyMismatch
    | PortabilityConstraintViolated | MigrationUnsupported
    | StaleEpoch | StaleAgent | StaleBoot | StaleDeviceGeneration | StaleCapabilityGeneration
    | StalePolicy | StaleMigration | StaleFederationGeneration | StaleEvidence
    | UnknownAccelerator | DuplicateIdentity | DuplicateLiveBoot | NotFound | InvalidTransition
    | FencedMember | RetiredMember
    | ProtocolViolation | UnsupportedProtocolVersion | FrameTooLarge | TruncatedFrame | CorruptPayload
    | PersistenceFailure | IntegrityFailure | ShutdownInProgress | Cancelled
  {
    /** The stable numeric value of the code; explanation lists are ordered by it. */
    function Number(): nat {
      match this
      case Success => 0
      case InvalidArgument => 1
      case MalformedData => 2
      case MalformedVersionRange => 4
      case NonFiniteQuantity => 5
      case ImpossibleQuantity => 6
      case BoundsExceeded => 7
      case UnsupportedCapability => 20
      case UnknownCapability => 21
      case CapabilityMismatch => 22
      case MissingMandatoryCapability => 25
      case VendorMismatch => 41
      case ArchitectureMismatch => 42
      case RuntimeMismatch => 43
      case RuntimeVersionUnsupported => 44
      case IsaIncompatible => 45
      case InsufficientMemory => 46
      case NumericModeUnsupported => 47
      case PolicyMismatch => 48
      case PortabilityConstraintViolated => 49
      case MigrationUnsupported => 50
      case StaleEpoch => 60
      case StaleAgent => 61
      case StaleBoot => 62
      case StaleDeviceGeneration => 63
      case StaleCapabilityGeneration => 64
      case StalePolicy => 65
      case StaleMigration => 67
      case StaleFederationGeneration => 68
      case StaleEvidence => 69
      case UnknownAccelerator => 80
      case DuplicateIdentity => 83
      case DuplicateLiveBoot => 84
      case NotFound => 86
      case InvalidTransition => 87
      case FencedMember => 89
      case RetiredMember => 90
      case ProtocolViolation => 100
      case UnsupportedProtocolVersion => 102
      case FrameTooLarge => 103
      case TruncatedFrame => 104
      case CorruptPayload => 105
      case PersistenceFailure => 120
      case IntegrityFailure => 121
      case ShutdownInProgress => 141
      case Cancelled => 142
    }
  }

  /** 64-bit counters. A counter that reaches its maximum stays there. */
  const MAX_GENERATION: nat := 0xFFFF_FFFF_FFFF_FFFF

  type Generation = g: nat | g <= MAX_GENERATION

  function Next(g: Generation): (r: Generation)
    ensures g <= r && (g < r <==> g < MAX_GENERATION)
  {
    if g == MAX_GENERATION then g else g + 1
  }

  /** How many entries of a member's history the decoder of the store accepts. */
  const MAX_HISTORY: nat := 64

  /** Opaque 128-bit identities; zero is the nil identity. */
  type PhysicalId = nat
  type AgentId = nat
  type BootId = nat
  type FederationId = nat
  type WorkloadId = nat

  /** An accelerator identity is derived from the device, its agent, the agent's boot and the
      device incarnation. It is kept as the tuple it is derived from. */
  datatype AcceleratorId =
    | NoAccelerator
    | Incarnation(physical: PhysicalId, agent: AgentId, boot: BootId, generation: Generation)
}
