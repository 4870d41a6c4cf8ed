/**
 The decision each authority operation takes on a continuous registry: refuse
 it, accept it as already done, or publish a new registry. Fresh identifiers,
 the fixed reason texts and the caller's durable proofs are arguments.
 */
module AuthorityOps {
  import opened Optional
  import opened AuthorityTypes

  datatype Decision = Refuse | Keep | Publish(next: Registry)

  /** Start rights of born-contained native roots. */
  datatype NativeOp =
    | RecordNativeStart(permission: NativePermission)
    | RetireNativeStarts(proven: seq<DurableId>)

  /** The two-phase journal of machine commits and the compaction of its tombstones. */
  datatype CommitOp =
    | PrepareMachineCommit(intent: Intent)
    | FinishMachineCommit(operationId: Uuid)
    | CompactRetirements(store: Uuid, provenKeys: set<AllocationKey>)

  /** Pairing, connection epochs, sessions and operation sequences of one participant. */
  datatype PeerOp =
    | ReserveConnection(domain: Uuid, sqlEpoch: nat)
    | AcceptSession(session: Session)
    | CheckpointSequence(domain: Uuid, sequence: nat)
    | RetireSequences(domain: Uuid, floor: nat)
    | PreparePairing(registration: Registration)
    | CommitPairing(domain: Uuid)

  /** Coordinator identity, native coverage, the reset gate and the epoch. */
  datatype CoordinatorOp =
    | EstablishNativeCoverage(store: Uuid, empty: bool, resetId: Uuid, reason: string)
    | RecordReset(resetId: Uuid, reason: string)
    | BindCoordinator(store: Uuid, generation: Uuid, process: nat, resetId: Uuid, reason: string)
    | CompleteReset(expected: Snapshot, store: Uuid, generation: Uuid, process: nat, newEpoch: Uuid)
    | UpgradeDomains(domains: Domains)

  datatype HoldOp =
    | PlaceHold(id: Uuid, reason: string, requester: nat)
    | ForceRelease(id: Uuid, reason: string, requester: nat)
    | ArmBootstrap(binding: Binding, requester: nat, reason: string)
    | SealBootstrap(proof: CleanupProof, requester: nat, reason: string)

  datatype Op =
    | Native(native: NativeOp) | Machine(commit: CommitOp) | Peer(peer: PeerOp)
    | Coordination(coordination: CoordinatorOp) | Holding(holding: HoldOp)

  predicate ValidCoordination(op: CoordinatorOp) {
    match op
    case EstablishNativeCoverage(_, _, resetId, reason) => resetId != NIL && ValidReason(reason)
    case RecordReset(resetId, reason) => resetId != NIL && ValidReason(reason)
    case BindCoordinator(store, generation, _, resetId, reason) =>
      store != NIL && generation != NIL && resetId != NIL && ValidReason(reason)
    case CompleteReset(_, store, generation, _, newEpoch) => store != NIL && generation != NIL && newEpoch != NIL
    case UpgradeDomains(domains) => ValidDomains(domains)
  }

  predicate ValidHolding(op: HoldOp) {
    match op
    case ArmBootstrap(binding, _, reason) => ValidBinding(binding) && ValidReason(reason)
    case SealBootstrap(_, _, reason) => ValidReason(reason)
    case _ => true
  }

  predicate ValidPeer(op: PeerOp) {
    op.PreparePairing? ==>
      op.registration.domainId != NIL && op.registration.nonce != NIL && op.registration.managerStore != NIL
  }

  /** The inputs the daemon hands the authority: non-nil ids and validated descriptors. */
  predicate ValidInput(op: Op) {
    match op
    case Native(_) => true
    case Machine(c) => c.PrepareMachineCommit? ==> c.intent.request.operationId != NIL
    case Peer(p) => ValidPeer(p)
    case Coordination(c) => ValidCoordination(c)
    case Holding(h) => ValidHolding(h)
  }

  // ---- Native start permissions ------------------------------------------------

  predicate NativeBelongs(r: Registry, p: NativePermission, key: AllocationKey) {
    && r.epoch == key.authorityEpoch
    && r.nativeCoverage == Some(key.managerStore)
    && r.domains.Some? && r.domains.value.machineId == key.machineId && r.domains.value.nativeDomain == key.domainId
    && r.coordinator.Some? && r.coordinator.value.store == key.managerStore && r.coordinator.value.pendingReset.None?
    && p.invocationId.store == key.managerStore
    && p.containmentId.store == key.managerStore
    && p.allocation.grantId.entity == key.leaseId
  }

  function DecideNativeStart(r: Registry, p: NativePermission): Decision {
    if p.invocationId in r.nativePermissions then
      if r.nativePermissions[p.invocationId] == p then Keep else Refuse
    else if p.allocation.key.None? then Refuse
    else
      var key := p.allocation.key.value;
      if !NativeBelongs(r, p, key) then Refuse
      else if p.allocation.grantId.store != key.managerStore || p.allocation.leaseId != key.leaseId
              || p.allocation.state != Armed then Refuse
      else if |r.nativePermissions| >= MAX_NATIVE_PERMISSIONS then Refuse
      else Publish(r.(nativePermissions := r.nativePermissions[p.invocationId := p]))
  }

  function DecideReset(r: Registry, resetId: Uuid, reason: string): Decision {
    if r.coordinator.None? || r.coordinator.value.pendingReset.Some? then Keep
    else
      var c := r.coordinator.value;
      Publish(r.(coordinator := Some(c.(pendingReset := Some(ResetGate(resetId, c.store, reason))))))
  }

  function DecideCoverage(r: Registry, store: Uuid, empty: bool, resetId: Uuid, reason: string): Decision {
    if r.nativeCoverage.Some? || r.coordinator.None? || r.coordinator.value.store != store
       || r.coordinator.value.pendingReset.Some? then Keep
    else if !empty then DecideReset(r, resetId, reason)
    else Publish(r.(nativeCoverage := Some(store)))
  }

  function DecideNativeRetirement(r: Registry, proven: seq<DurableId>): Decision {
    if forall id :: id in proven ==> id !in r.nativePermissions then Keep
    else Publish(r.(nativePermissions := r.nativePermissions - (set id | id in proven)))
  }

  // ---- Two-phase machine commit ------------------------------------------------

  predicate Clashes(permissions: map<DurableId, Grant>, g: Grant) {
    exists id :: id in permissions && permissions[id].key == g.key
                 && (permissions[id].grantId != g.grantId || permissions[id].offerNonce != g.offerNonce)
  }

  /** Insert the start rights a commit asks for, or None when one of them is refused. */
  function AdmitGrants(permissions: map<DurableId, Grant>, retired: set<AllocationKey>, grants: seq<Grant>)
    : Option<map<DurableId, Grant>>
    decreases grants
  {
    if grants == [] then Some(permissions)
    else if grants[0].state == Released then AdmitGrants(permissions, retired, grants[1..])
    else if grants[0].key in retired || Clashes(permissions, grants[0]) then None
    else AdmitGrants(permissions[grants[0].grantId := grants[0]], retired, grants[1..])
  }

  function DecidePrepare(r: Registry, intent: Intent): Decision {
    var domain := intent.request.session.domainId;
    if domain !in r.participants then Refuse
    else if !r.participants[domain].committed then Refuse
    else if r.participants[domain].session != Some(intent.request.session) then Refuse
    else if r.pendingCommit.Some? then (if r.pendingCommit.value == intent then Publish(r) else Refuse)
    else
      var admitted := AdmitGrants(r.machinePermissions, r.retiredAllocations, intent.grants);
      if admitted.None? then Refuse
      else Publish(r.(machinePermissions := admitted.value, pendingCommit := Some(intent)))
  }

  function ReleasedKeys(grants: seq<Grant>): set<AllocationKey> {
    set g | g in grants && g.state == Released :: g.key
  }

  function ReleasedIds(grants: seq<Grant>): set<DurableId> {
    set g | g in grants && g.state == Released :: g.grantId
  }

  function Max(a: nat, b: nat): nat { if a < b then b else a }

  function AdvanceParticipant(p: Participant, intent: Intent): Participant {
    p.(acceptedSequence := Max(p.acceptedSequence, intent.request.sequence),
       retiredFloor :=
         if intent.outcome.Acknowledged? then Max(p.retiredFloor, intent.outcome.through) else p.retiredFloor)
  }

  /** An acknowledgement retires only what came before its own operation. */
  predicate Finishable(intent: Intent) {
    intent.outcome.Acknowledged? ==> intent.outcome.through < intent.request.sequence
  }

  function DecideFinish(r: Registry, operationId: Uuid): Decision {
    if r.pendingCommit.None? then Keep
    else
      var intent := r.pendingCommit.value;
      var domain := intent.request.session.domainId;
      if intent.request.operationId != operationId || domain !in r.participants then Refuse
      else if !Finishable(intent) then Refuse
      else
        Publish(r.(
          retiredAllocations := r.retiredAllocations + ReleasedKeys(intent.grants),
          machinePermissions := r.machinePermissions - ReleasedIds(intent.grants),
          pendingCommit := None,
          participants := r.participants[domain := AdvanceParticipant(r.participants[domain], intent)]))
  }

  function DecideCompact(r: Registry, store: Uuid, proven: set<AllocationKey>): Decision {
    if r.pendingCommit.Some? || r.coordinator.None? || r.coordinator.value.store != store
       || r.coordinator.value.pendingReset.Some? || r.retiredAllocations !! proven then Keep
    else Publish(r.(retiredAllocations := r.retiredAllocations - proven))
  }

  // ---- Sessions and sequences --------------------------------------------------

  function NextEpoch(p: Participant, sqlEpoch: nat): nat { Max(p.nextConnectionEpoch, sqlEpoch) + 1 }

  function DecideReserve(r: Registry, domain: Uuid, sqlEpoch: nat): Decision {
    if domain !in r.participants || !r.participants[domain].committed then Refuse
    else if NextEpoch(r.participants[domain], sqlEpoch) > MAX_I64 then Refuse
    else
      var p := r.participants[domain];
      Publish(r.(participants := r.participants[domain := p.(nextConnectionEpoch := NextEpoch(p, sqlEpoch))]))
  }

  function DecideAccept(r: Registry, s: Session): Decision {
    if s.domainId !in r.participants || !r.participants[s.domainId].committed then Refuse
    else
      var p := r.participants[s.domainId];
      if p.session == Some(s) then Keep
      else if p.nextConnectionEpoch != s.connectionEpoch || p.registration.managerStore != s.managerStore
              || r.epoch != s.authorityEpoch || r.domains.None? || r.domains.value.machineId != s.machineId
              || (p.session.Some? && p.session.value.connectionEpoch >= s.connectionEpoch) then Refuse
      else Publish(r.(participants := r.participants[s.domainId := p.(session := Some(s))]))
  }

  function DecideCheckpoint(r: Registry, domain: Uuid, sequence: nat): Decision {
    if domain !in r.participants || !r.participants[domain].committed then Refuse
    else if sequence <= r.participants[domain].acceptedSequence then Keep
    else if sequence > MAX_I64 then Refuse
    else Publish(r.(participants := r.participants[domain := r.participants[domain].(acceptedSequence := sequence)]))
  }

  function DecideRetireSequences(r: Registry, domain: Uuid, floor: nat): Decision {
    if domain !in r.participants then Refuse
    else if floor > r.participants[domain].acceptedSequence then Refuse
    else if floor <= r.participants[domain].retiredFloor then Keep
    else Publish(r.(participants := r.participants[domain := r.participants[domain].(retiredFloor := floor)]))
  }

  // ---- Reset gate and coordinator binding --------------------------------------

  function Fence(participants: map<Uuid, Participant>): map<Uuid, Participant> {
    map id | id in participants :: participants[id].(session := None)
  }

  predicate ResetObligationsClear(r: Registry) {
    && r.coordinator.Some? && r.coordinator.value.pendingReset.Some?
    && r.nativeCoverage == Some(r.coordinator.value.store)
    && r.machinePermissions == map[]
    && r.pendingCommit.None?
    && !AnyUnreleased(r.holds)
    && AllCommitted(r.participants)
  }

  function DecideCompleteReset(r: Registry, expected: Snapshot, store: Uuid, generation: Uuid, process: nat,
    newEpoch: Uuid)
    : Decision
  {
    if SnapshotOf(r) != expected || !ResetObligationsClear(r) then Refuse
    else Publish(r.(
      anchorEpoch := Some(AnchorIdentity(r)),
      epoch := newEpoch,
      retiredAllocations := {},
      nativePermissions := map[],
      nativeCoverage := Some(store),
      coordinator := Some(Coordinator(store, generation, process, None)),
      participants := Fence(r.participants)))
  }

  function DecideBind(r: Registry, store: Uuid, generation: Uuid, process: nat, resetId: Uuid,
    reason: string): Decision {
    if r.coordinator.Some? && r.coordinator.value.pendingReset.Some? then Keep
    else if r.coordinator.Some? && r.coordinator.value.store != store then DecideReset(r, resetId, reason)
    else Publish(r.(coordinator := Some(Coordinator(store, generation, process, None))))
  }

  function DecideUpgrade(r: Registry, domains: Domains): Decision {
    if r.domains.Some? then Keep else Publish(r.(domains := Some(domains)))
  }

  // ---- Pairing -----------------------------------------------------------------

  function DecidePairing(r: Registry, g: Registration): Decision {
    if exists id :: id in r.participants && r.participants[id].registration.domainId != g.domainId
                    && r.participants[id].registration.managerStore == g.managerStore then Refuse
    else if g.domainId in r.participants then
      if r.participants[g.domainId].registration == g then Keep else Refuse
    else if |r.participants| >= MAX_DOMAINS - 2 then Refuse
    else if exists id :: id in r.participants && r.participants[id].registration.nonce == g.nonce then Refuse
    else Publish(r.(participants := r.participants[g.domainId := Participant(g, false, 0, None, 0, 0)]))
  }

  function DecideCommitPairing(r: Registry, domain: Uuid): Decision {
    if domain !in r.participants then Refuse
    else if r.participants[domain].committed then Keep
    else Publish(r.(participants := r.participants[domain := r.participants[domain].(committed := true)]))
  }

  // ---- Holds and bootstrap obligations -----------------------------------------

  function DecideHold(r: Registry, id: Uuid, reason: string, requester: nat): Decision {
    if !ValidReason(reason) then Refuse
    else if id in r.holds then (if r.holds[id].reason != reason then Refuse else Keep)
    else if |r.holds| >= MAX_HOLDS then Refuse
    else Publish(r.(holds := r.holds[id := Hold(id, reason, requester, false, None, None, None, None)]))
  }

  function DecideForceRelease(r: Registry, id: Uuid, reason: string, requester: nat): Decision {
    if !ValidReason(reason) || id !in r.holds then Refuse
    else if r.holds[id].released then (if r.holds[id].releaseReason != Some(reason) then Refuse else Keep)
    else
      var h := r.holds[id].(released := true, releaseReason := Some(reason), releasedBy := Some(requester));
      Publish(r.(holds := r.holds[id := h]))
  }

  function DecideArm(r: Registry, b: Binding, requester: nat, reason: string): Decision {
    if b.operationId in r.holds then
      var h := r.holds[b.operationId];
      if h.bootstrap != Some(b) || h.requester != requester then Refuse else Keep
    else if AnyUnreleased(r.holds) || |r.holds| >= MAX_HOLDS then Refuse
    else
      var h := Hold(b.operationId, reason, requester, false, None, None, Some(b), None);
      Publish(r.(holds := r.holds[b.operationId := h]))
  }

  function DecideSeal(r: Registry, p: CleanupProof, requester: nat, reason: string): Decision {
    if p.operationId !in r.holds || r.holds[p.operationId].bootstrap.None? then Refuse
    else
      var h := r.holds[p.operationId];
      if !ValidProof(h.bootstrap.value, p) then Refuse
      else if h.released then (if h.proof != Some(p) then Refuse else Keep)
      else
        var sealedHold := h.(released := true, releaseReason := Some(reason), releasedBy := Some(requester),
            proof := Some(p));
        Publish(r.(holds := r.holds[p.operationId := sealedHold]))
  }

  // ---- One decision function per group, each with its frame --------------------

  function DecideNative(r: Registry, op: NativeOp): (d: Decision)
    ensures d.Publish? ==> d.next == r.(nativePermissions := d.next.nativePermissions)
  {
    match op
    case RecordNativeStart(p) => DecideNativeStart(r, p)
    case RetireNativeStarts(proven) => DecideNativeRetirement(r, proven)
  }

  function DecideMachine(r: Registry, op: CommitOp): (d: Decision)
    ensures d.Publish? ==> d.next == r.(machinePermissions := d.next.machinePermissions,
                                        retiredAllocations := d.next.retiredAllocations,
                                        pendingCommit := d.next.pendingCommit,
                                        participants := d.next.participants)
  {
    match op
    case PrepareMachineCommit(intent) => DecidePrepare(r, intent)
    case FinishMachineCommit(operationId) => DecideFinish(r, operationId)
    case CompactRetirements(store, proven) => DecideCompact(r, store, proven)
  }

  function DecidePeer(r: Registry, op: PeerOp): (d: Decision)
    ensures d.Publish? ==> d.next == r.(participants := d.next.participants)
  {
    match op
    case ReserveConnection(domain, sqlEpoch) => DecideReserve(r, domain, sqlEpoch)
    case AcceptSession(s) => DecideAccept(r, s)
    case CheckpointSequence(domain, sequence) => DecideCheckpoint(r, domain, sequence)
    case RetireSequences(domain, floor) => DecideRetireSequences(r, domain, floor)
    case PreparePairing(g) => DecidePairing(r, g)
    case CommitPairing(domain) => DecideCommitPairing(r, domain)
  }

  /** Only a completed reset touches anything besides the coordinator, coverage and domains. */
  function DecideCoordination(r: Registry, op: CoordinatorOp): (d: Decision)
    ensures d.Publish? && !op.CompleteReset? ==>
              d.next == r.(coordinator := d.next.coordinator, nativeCoverage := d.next.nativeCoverage,
                  domains := d.next.domains)
    ensures d.Publish? ==> d.next.holds == r.holds && d.next.machinePermissions == r.machinePermissions
                           && d.next.pendingCommit == r.pendingCommit && d.next.host == r.host
                             && d.next.version == r.version
  {
    match op
    case EstablishNativeCoverage(store, empty, resetId, reason) => DecideCoverage(r, store, empty, resetId, reason)
    case RecordReset(resetId, reason) => DecideReset(r, resetId, reason)
    case BindCoordinator(store, generation, process, resetId, reason) =>
      DecideBind(r, store, generation, process, resetId, reason)
    case CompleteReset(expected, store, generation, process, newEpoch) =>
      DecideCompleteReset(r, expected, store, generation, process, newEpoch)
    case UpgradeDomains(domains) => DecideUpgrade(r, domains)
  }

  function DecideHolding(r: Registry, op: HoldOp): (d: Decision)
    ensures d.Publish? ==> d.next == r.(holds := d.next.holds)
  {
    match op
    case PlaceHold(id, reason, requester) => DecideHold(r, id, reason, requester)
    case ForceRelease(id, reason, requester) => DecideForceRelease(r, id, reason, requester)
    case ArmBootstrap(binding, requester, reason) => DecideArm(r, binding, requester, reason)
    case SealBootstrap(proof, requester, reason) => DecideSeal(r, proof, requester, reason)
  }

  function Decide(r: Registry, op: Op): Decision {
    match op
    case Native(n) => DecideNative(r, n)
    case Machine(c) => DecideMachine(r, c)
    case Peer(p) => DecidePeer(r, p)
    case Coordination(c) => DecideCoordination(r, c)
    case Holding(h) => DecideHolding(r, h)
  }
}
