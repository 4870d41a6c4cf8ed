/**
 What every authority operation keeps. `Good` is the invariant of a published
 registry; each operation preserves it, so `load` accepts whatever was published.
 */
module AuthorityInvariants {
  import opened Optional
  import opened AuthorityTypes
  import opened AuthorityOps
  import opened AuthorityDisk

  predicate CoverageAnchored(coverage: Option<Uuid>, coordinator: Option<Coordinator>) {
    coverage.Some? ==> coordinator.Some? && coordinator.value.store == coverage.value
  }

  predicate NativeCurrent(
    epoch: Uuid, domains: Option<Domains>, coverage: Option<Uuid>, id: DurableId, p: NativePermission)
  {
    && id == p.invocationId
    && p.allocation.key.Some?
    && var key := p.allocation.key.value;
       && key.authorityEpoch == epoch
       && coverage == Some(key.managerStore)
       && domains.Some? && domains.value.machineId == key.machineId && domains.value.nativeDomain == key.domainId
  }

  /** Every outstanding native start names the current epoch, native domain and covered store. */
  predicate NativeCovered(
    epoch: Uuid, domains: Option<Domains>, coverage: Option<Uuid>, starts: map<DurableId, NativePermission>)
  {
    forall id :: id in starts ==> NativeCurrent(epoch, domains, coverage, id, starts[id])
  }

  predicate Sequenced(p: Participant) {
    && p.retiredFloor <= p.acceptedSequence
    && (p.session.Some? ==> p.session.value.connectionEpoch <= p.nextConnectionEpoch)
  }

  predicate AllSequenced(participants: map<Uuid, Participant>) {
    forall id :: id in participants ==> Sequenced(participants[id])
  }

  /** The permission table is indexed by Grant id and no allocation key occurs twice in it. */
  predicate OneGrantPerKey(permissions: map<DurableId, Grant>) {
    && (forall id :: id in permissions ==> permissions[id].grantId == id)
    && (forall a, b :: a in permissions && b in permissions && permissions[a].key == permissions[b].key ==> a == b)
  }

  /** A journaled commit has a non-nil operation id and a paired participant. */
  predicate JournalNamed(pending: Option<Intent>, participants: map<Uuid, Participant>) {
    pending.Some? ==>
      pending.value.request.operationId != NIL && pending.value.request.session.domainId in participants
  }

  predicate Good(r: Registry) {
    && WellFormed(r)
    && CoverageAnchored(r.nativeCoverage, r.coordinator)
    && NativeCovered(r.epoch, r.domains, r.nativeCoverage, r.nativePermissions)
    && AllSequenced(r.participants)
    && OneGrantPerKey(r.machinePermissions)
    && JournalNamed(r.pendingCommit, r.participants)
  }

  /** Admitting a commit's rights never gives one allocation key a second Grant. */
  lemma {:induction false} AdmitGrantsKeepsUnique(permissions: map<DurableId, Grant>, retired: set<AllocationKey>,
    grants: seq<Grant>)
    requires OneGrantPerKey(permissions)
    requires AdmitGrants(permissions, retired, grants).Some?
    ensures OneGrantPerKey(AdmitGrants(permissions, retired, grants).value)
    ensures permissions.Keys <= AdmitGrants(permissions, retired, grants).value.Keys
    decreases grants
  {
    if grants == [] {
    } else if grants[0].state == Released {
      AdmitGrantsKeepsUnique(permissions, retired, grants[1..]);
    } else {
      AdmitGrantsKeepsUnique(permissions[grants[0].grantId := grants[0]], retired, grants[1..]);
    }
  }

  /** A key fenced as retired gains no right: whatever it still holds it held before. */
  lemma {:induction false} AdmitGrantsFencesRetired(permissions: map<DurableId, Grant>, retired: set<AllocationKey>,
    grants: seq<Grant>, key: AllocationKey)
    requires key in retired
    requires AdmitGrants(permissions, retired, grants).Some?
    ensures forall id :: id in AdmitGrants(permissions, retired, grants).value
                         && AdmitGrants(permissions, retired, grants).value[id].key == key
                         ==> id in permissions && permissions[id] == AdmitGrants(permissions, retired, grants).value[id]
    decreases grants
  {
    if grants == [] {
    } else if grants[0].state == Released {
      AdmitGrantsFencesRetired(permissions, retired, grants[1..], key);
    } else {
      AdmitGrantsFencesRetired(permissions[grants[0].grantId := grants[0]], retired, grants[1..], key);
    }
  }

  lemma NativeKept(r: Registry, op: NativeOp)
    requires Good(r) && DecideNative(r, op).Publish?
    ensures Good(DecideNative(r, op).next)
  {
  }

  lemma MachineKept(r: Registry, op: CommitOp)
    requires Good(r) && ValidInput(Machine(op)) && DecideMachine(r, op).Publish?
    ensures Good(DecideMachine(r, op).next)
  {
    match op
    case PrepareMachineCommit(intent) =>
      if r.pendingCommit.None? {
        AdmitGrantsKeepsUnique(r.machinePermissions, r.retiredAllocations, intent.grants);
      }
    case _ =>
  }

  /** A change of one known participant that keeps its registration and its order. */
  lemma ParticipantKept(r: Registry, domain: Uuid, p: Participant)
    requires Good(r) && domain in r.participants && p.registration == r.participants[domain].registration
        && Sequenced(p)
    ensures Good(r.(participants := r.participants[domain := p]))
  {
    assert r.participants[domain := p].Keys == r.participants.Keys;
    hide WellFormedHolds, NativeCovered, OneGrantPerKey;
  }

  lemma PairingKept(r: Registry, g: Registration)
    requires Good(r) && ValidPeer(PreparePairing(g)) && DecidePairing(r, g).Publish?
    ensures Good(DecidePairing(r, g).next)
  {
    hide WellFormedHolds, NativeCovered, OneGrantPerKey;
  }

  lemma PeerKept(r: Registry, op: PeerOp)
    requires Good(r) && ValidPeer(op) && DecidePeer(r, op).Publish?
    ensures Good(DecidePeer(r, op).next)
  {
    assert AllSequenced(r.participants);
    hide Good;
    var n := DecidePeer(r, op).next.participants;
    match op
    case PreparePairing(g) => PairingKept(r, g);
    case ReserveConnection(domain, _) => ParticipantKept(r, domain, n[domain]);
    case AcceptSession(session) => ParticipantKept(r, session.domainId, n[session.domainId]);
    case CheckpointSequence(domain, _) => ParticipantKept(r, domain, n[domain]);
    case RetireSequences(domain, _) => ParticipantKept(r, domain, n[domain]);
    case CommitPairing(domain) => ParticipantKept(r, domain, n[domain]);
  }

  lemma ResetKept(r: Registry, op: CoordinatorOp)
    requires Good(r) && ValidCoordination(op) && op.CompleteReset? && DecideCoordination(r, op).Publish?
    ensures Good(DecideCoordination(r, op).next)
    ensures AnchorIdentity(DecideCoordination(r, op).next) == AnchorIdentity(r)
  {
    assert Fence(r.participants).Keys == r.participants.Keys;
  }

  lemma CoordinationKept(r: Registry, op: CoordinatorOp)
    requires Good(r) && ValidCoordination(op) && DecideCoordination(r, op).Publish?
    ensures Good(DecideCoordination(r, op).next)
    ensures AnchorIdentity(DecideCoordination(r, op).next) == AnchorIdentity(r)
  {
    hide DecideCompleteReset, WellFormedHolds, WellFormedParticipants;
    if op.CompleteReset? { ResetKept(r, op); }
  }

  lemma HoldingKept(r: Registry, op: HoldOp)
    requires Good(r) && ValidHolding(op) && DecideHolding(r, op).Publish?
    ensures Good(DecideHolding(r, op).next)
  {
  }

  /** Every operation keeps the whole invariant: what it publishes, `load` accepts. */
  lemma GoodKept(r: Registry, op: Op, next: Registry)
    requires Good(r) && ValidInput(op) && Decide(r, op) == Publish(next)
    ensures Good(next) && next.host == r.host && AnchorIdentity(next) == AnchorIdentity(r)
  {
    hide Good, DecidePeer, DecideMachine, DecideCoordination, DecideHolding, DecideNative;
    match op
    case Native(n) => NativeKept(r, n);
    case Machine(c) => MachineKept(r, c);
    case Peer(p) => PeerKept(r, p);
    case Coordination(c) => CoordinationKept(r, c);
    case Holding(h) => HoldingKept(r, h);
  }
}
