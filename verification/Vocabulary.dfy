/** The names of capabilities and the kind of value each of them carries. */
module Vocabulary {
  import opened Prelude
  import Token
  import Version

  datatype Kind = PresenceKind | VersionKind | IntegerKind | ScalarKind | EnumerationKind | TokenSetKind

  const MAX_NAME_BYTES := 256

  // ---- The closed vocabulary of the core --------------------------------------------------

  predicate NamesEnumeration(name: string) {
    name in {"vendor.id", "vendor.product", "architecture.family", "runtime.family", "evidence.provenance", "health.error_state",
             "health.readiness", "health.thermal_state", "partition.mode", "support.level", "sync.stream_semantics"}
  }

  predicate NamesVersion(name: string) { name in {"runtime.version", "driver.version", "compute.capability"} }

  predicate NamesInteger(name: string) {
    name in {"memory.total_bytes", "memory.free_bytes", "memory.address_bits", "memory.allocation_alignment_bytes",
             "memory.page_granularity_bytes", "architecture.device_generation", "kernel.max_shared_memory_per_block_bytes",
             "kernel.max_threads_per_block", "queue.concurrent_streams"}
  }

  predicate NamesTokenSet(name: string) {
    name in {"api.family", "comm.collectives", "execution.features", "interconnect.links", "isa.code_object_targets",
             "memory.classes", "numeric.formats", "partition.observed_profiles", "peer.access"}
  }

  predicate NamesPlatformFeature(name: string) {
    name in {"comm.direct_peer_memory", "comm.host_staging_required", "comm.rdma", "kernel.cooperative_launch",
             "kernel.dynamic_parallelism", "memory.ecc_enabled", "memory.host_pinned_transfer", "memory.managed_allocation",
             "memory.unified_addressing", "memory.virtual_management", "peer.unified_access", "sync.events", "sync.graph_capture"}
  }

  predicate NamesMovement(name: string) {
    name in {"migration.checkpoint_restore", "migration.cross_vendor_state", "migration.live_state_transfer",
             "migration.state_export", "migration.state_reconstruction", "portability.recompile_available",
             "portability.repackage_available"}
  }

  predicate NamesArithmetic(name: string) {
    name in {"numeric.bf16", "numeric.denormals_preserved", "numeric.fma_contraction", "numeric.fp16", "numeric.fp32",
             "numeric.fp4_e2m1", "numeric.fp64", "numeric.fp6_e2m3", "numeric.fp8_e4m3", "numeric.fp8_e5m2", "numeric.int8",
             "numeric.tf32", "tensor.block_scaled_mma", "tensor.matrix_engine", "tensor.structured_sparsity",
             "tensor.warp_group_mma"}
  }

  function CoreKind(name: string): Option<Kind> {
    if NamesEnumeration(name) then Some(EnumerationKind)
    else if NamesVersion(name) then Some(VersionKind)
    else if NamesInteger(name) then Some(IntegerKind)
    else if NamesTokenSet(name) then Some(TokenSetKind)
    else if NamesPlatformFeature(name) || NamesMovement(name) || NamesArithmetic(name) then Some(PresenceKind)
    else None
  }

  // ---- Names ------------------------------------------------------------------------------

  /** An adapter's own name: `x.`, a namespace, a dot and something more. */
  predicate IsExtension(name: string) {
    |name| >= 5 && name[0] == 'x' && name[1] == '.' && Version.IndexOf(name, '.', 2) + 1 < |name|
  }

  /** The canonical name a text resolves to, if it is in the vocabulary or names an extension. */
  function KeyName(name: string): Option<string> {
    if CoreKind(name).Some? then Some(name)
    else if !IsExtension(name) then None
    else match Token.Canonical(name, MAX_NAME_BYTES)
      case Ok(canonical) => if IsExtension(canonical) then Some(canonical) else None
      case Err(_) => None
  }

  /** The kind of value a name carries. The core knows nothing about extensions and takes them as token sets. */
  function KeyKind(name: string): Option<Kind> {
    if CoreKind(name).Some? then CoreKind(name)
    else if KeyName(name).Some? then Some(TokenSetKind)
    else None
  }

  /** No name carries a scalar. */
  lemma NoScalars(name: string)
    ensures KeyKind(name) != Some(ScalarKind)
  {
  }

  /** Resolving a name again changes nothing. */
  lemma KeyNameIsIdempotent(name: string)
    requires KeyName(name).Some?
    ensures KeyName(KeyName(name).value) == KeyName(name) && KeyKind(KeyName(name).value) == KeyKind(name)
  {
    if CoreKind(name).None? {
      Token.CanonicalIsIdempotent(name, MAX_NAME_BYTES);
      var c := Token.Canonical(name, MAX_NAME_BYTES).value;
      ExtensionsAreNotCore(c);
    }
  }

  lemma ExtensionsAreNotCore(name: string)
    requires IsExtension(name)
    ensures CoreKind(name).None?
  {
    hide NamesEnumeration, NamesVersion, NamesInteger, NamesTokenSet, NamesPlatformFeature, NamesMovement, NamesArithmetic, IsExtension;
    assert |name| >= 1 && name[0] == 'x' by { StartsWithX(name); }
    NotEnumeration(name);
    NotQuantity(name);
    NotTokenSet(name);
    NotPlatformFeature(name);
    NotMovement(name);
    NotArithmetic(name);
  }

  lemma StartsWithX(name: string)
    requires IsExtension(name)
    ensures |name| >= 1 && name[0] == 'x'
  {
  }

  lemma NotEnumeration(name: string)
    requires |name| >= 1 && name[0] == 'x'
    ensures !NamesEnumeration(name)
  {
  }

  lemma NotQuantity(name: string)
    requires |name| >= 1 && name[0] == 'x'
    ensures !NamesVersion(name) && !NamesInteger(name)
  {
  }

  lemma NotTokenSet(name: string)
    requires |name| >= 1 && name[0] == 'x'
    ensures !NamesTokenSet(name)
  {
  }

  lemma NotPlatformFeature(name: string)
    requires |name| >= 1 && name[0] == 'x'
    ensures !NamesPlatformFeature(name)
  {
  }

  lemma NotMovement(name: string)
    requires |name| >= 1 && name[0] == 'x'
    ensures !NamesMovement(name)
  {
  }

  lemma NotArithmetic(name: string)
    requires |name| >= 1 && name[0] == 'x'
    ensures !NamesArithmetic(name)
  {
  }

  /** An extension is `x.`, a vendor's namespace without a dot, a dot and a name, at least five
      characters in all. */
  lemma ExtensionShape(owner: string, rest: string)
    requires '.' !in owner
    ensures IsExtension("x." + owner + "." + rest) <==> rest != "" && |owner| + |rest| >= 2
  {
    var name := "x." + owner + "." + rest;
    assert name[0] == 'x' && name[1] == '.' && name[2 + |owner|] == '.';
    assert forall k :: 2 <= k < 2 + |owner| ==> name[k] == owner[k - 2];
    assert Version.IndexOf(name, '.', 2) == 2 + |owner|;
  }
}
