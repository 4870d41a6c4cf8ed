/**
 The durable records of the admission authority: the registry, its obligations
 and the journaled machine commit. Identifiers are natural numbers, 0 is nil.
 Fields no decision looks at are folded into one `detail` number per record.
 */
module AuthorityTypes {
  import opened Optional

  type Uuid = nat
  const NIL: Uuid := 0

  /** A durable id names the store that issued it and the entity inside it. */
  datatype DurableId = DurableId(store: Uuid, entity: Uuid)

  datatype AllocationKey = AllocationKey(
    machineId: Uuid, authorityEpoch: Uuid, domainId: Uuid, managerStore: Uuid, leaseId: Uuid)

  datatype Session = Session(
    machineId: Uuid, authorityEpoch: Uuid, domainId: Uuid, managerStore: Uuid,
    incarnation: Uuid, connectionEpoch: nat)

  datatype GrantState = Offered | Expired | Armed | Uncertain | Released

  datatype Grant = Grant(grantId: DurableId, key: AllocationKey, offerNonce: Uuid, state: GrantState, detail: nat)

  datatype Outcome = Acknowledged(through: nat) | OtherOutcome(detail: nat)

  datatype Request = Request(session: Session, sequence: nat, operationId: Uuid, detail: nat)

  /** A machine commit is journaled whole before its SQL transaction commits. */
  datatype Intent = Intent(request: Request, outcome: Outcome, grants: seq<Grant>)

  datatype NativeAllocation = NativeAllocation(
    grantId: DurableId, leaseId: Uuid, key: Option<AllocationKey>, state: GrantState, detail: nat)

  datatype NativePermission = NativePermission(
    invocationId: DurableId, containmentId: DurableId, allocation: NativeAllocation, detail: nat)

  datatype Registration = Registration(domainId: Uuid, nonce: Uuid, managerStore: Uuid, detail: nat)

  datatype Participant = Participant(
    registration: Registration, committed: bool, nextConnectionEpoch: nat,
    session: Option<Session>, acceptedSequence: nat, retiredFloor: nat)

  datatype Domains = Domains(machineId: Uuid, machineScope: Uuid, nativeDomain: Uuid)

  datatype ResetGate = ResetGate(resetId: Uuid, displacedStore: Uuid, reason: string)

  datatype Coordinator = Coordinator(store: Uuid, generation: Uuid, process: nat, pendingReset: Option<ResetGate>)

  datatype Termination = Exited | Canceled | TimedOut | IntermediaryLost
  datatype Phase = Prepared | SealedEmpty

  datatype Binding = Binding(operationId: Uuid, parentInvocation: DurableId, timeoutSeconds: nat, work: nat,
    requestHash: nat)

  datatype CleanupProof = CleanupProof(
    operationId: Uuid, requestHash: nat, phase: Phase, bootId: nat, cgroupInode: nat, termination: Termination,
        rootExit: int)

  datatype Hold = Hold(
    id: Uuid, reason: string, requester: nat, released: bool,
    releaseReason: Option<string>, releasedBy: Option<nat>,
    bootstrap: Option<Binding>, proof: Option<CleanupProof>)

  /** Hashes are collision free: a digest is modelled by the value it digests. */
  datatype IntentDigest = IntentDigest(of: Intent)

  datatype BlobRef = BlobRef(operationId: Uuid, digest: IntentDigest)

  datatype Registry = Registry(
    version: nat, epoch: Uuid, anchorEpoch: Option<Uuid>, host: nat,
    holds: map<Uuid, Hold>,
    domains: Option<Domains>,
    coordinator: Option<Coordinator>,
    participants: map<Uuid, Participant>,
    machinePermissions: map<DurableId, Grant>,
    nativePermissions: map<DurableId, NativePermission>,
    nativeCoverage: Option<Uuid>,
    retiredAllocations: set<AllocationKey>,
    pendingCommit: Option<Intent>,
    pendingBlob: Option<BlobRef>)

  const MAX_HOLDS: nat := 1024
  const MAX_DOMAINS: nat := 256
  const MAX_NATIVE_PERMISSIONS: nat := 65_536
  const MAX_I64: nat := 0x7FFF_FFFF_FFFF_FFFF

  predicate ValidReason(reason: string) {
    0 < |reason| <= 1024 && '\0' !in reason
  }

  /** What `validate_binding` demands of the identity part of a bootstrap descriptor. */
  predicate ValidBinding(b: Binding) {
    1 <= b.timeoutSeconds <= 86400 && b.operationId == b.parentInvocation.entity && b.work == b.requestHash
  }

  predicate ValidProof(b: Binding, p: CleanupProof) {
    && p.operationId == b.operationId
    && p.requestHash == b.requestHash
    && p.phase == SealedEmpty
    && p.cgroupInode != 0
  }

  predicate ValidDomains(d: Domains) {
    && d.machineId != NIL && d.machineScope != NIL && d.nativeDomain != NIL
    && d.machineScope != d.nativeDomain && d.machineId != d.machineScope && d.machineId != d.nativeDomain
  }

  predicate Gated(r: Registry) {
    r.coordinator.Some? && r.coordinator.value.pendingReset.Some?
  }

  predicate AnyUnreleased(holds: map<Uuid, Hold>) {
    exists id :: id in holds && !holds[id].released
  }

  predicate AllCommitted(participants: map<Uuid, Participant>) {
    forall id :: id in participants ==> participants[id].committed
  }

  /** The installation anchor's epoch: the first epoch this registry ever had. */
  function AnchorIdentity(r: Registry): Uuid {
    match r.anchorEpoch case Some(e) => e case None => r.epoch
  }

  datatype Blocker =
    | AuthorityUninitialized | HistoryUnknown | CommitPending | PairingIncomplete
    | ReconciliationRequired | AuthorityHeld

  /** The first reason, in the source's order, why a continuous registry admits nothing. */
  function RegistryBlocker(r: Registry): Option<Blocker> {
    if r.pendingCommit.Some? then Some(CommitPending)
    else if !AllCommitted(r.participants) then Some(PairingIncomplete)
    else if Gated(r) then Some(ReconciliationRequired)
    else if AnyUnreleased(r.holds) then Some(AuthorityHeld)
    else None
  }

  /** The observable inventory a recovery must present unchanged to finish a reset. */
  datatype Snapshot = Snapshot(
    epoch: Uuid, domains: Option<Domains>, coordinator: Option<Coordinator>,
    machineObligations: map<DurableId, Grant>, nativeObligations: map<DurableId, NativePermission>,
    nativeCoverage: Option<Uuid>, pendingOperation: Option<Uuid>, blocker: Option<Blocker>, holds: map<Uuid, Hold>)

  function SnapshotOf(r: Registry): Snapshot {
    Snapshot(r.epoch, r.domains, r.coordinator, r.machinePermissions, r.nativePermissions, r.nativeCoverage,
             if r.pendingCommit.Some? then Some(r.pendingCommit.value.request.operationId) else None,
             RegistryBlocker(r), r.holds)
  }
}
