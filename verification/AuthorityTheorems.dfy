/** Safety of the authority over whole runs of its operations. */
module AuthorityTheorems {
  import opened Optional
  import opened AuthorityTypes
  import opened AuthorityOps
  import opened AuthorityDisk
  import opened AuthorityInvariants
  import opened AuthorityRuns

  predicate CompletesReset(op: Op) {
    op.Coordination? && op.coordination.CompleteReset?
  }

  // ---- The reset gate ----------------------------------------------------------------

  lemma GateStep(r: Registry, op: Op)
    requires Gated(r) && !CompletesReset(op)
    ensures StepOf(r, op).coordinator == r.coordinator
  {
  }

  /** No rebind, new store, replay or reopen clears a pending reset or replaces the
      predecessor it names. */
  lemma {:induction false} GateSurvives(r: Registry, ops: seq<Op>)
    requires Gated(r) && forall op :: op in ops ==> !CompletesReset(op)
    ensures AtomicRun(r, ops).coordinator == r.coordinator
    decreases ops
  {
    if ops != [] {
      GateStep(r, ops[0]);
      GateSurvives(StepOf(r, ops[0]), ops[1..]);
    }
  }

  /** The gate opens only through a completed reset whose obligations were all clear; it
      leaves admission open, nothing outstanding, and the anchor's identity untouched. */
  lemma OnlyCompletedResetOpensGate(r: Registry, op: Op)
    requires Gated(r) && !Gated(StepOf(r, op))
    ensures CompletesReset(op) && ResetObligationsClear(r) && SnapshotOf(r) == op.coordination.expected
    ensures var n := StepOf(r, op);
            && RegistryBlocker(n).None?
            && n.machinePermissions == map[] && n.nativePermissions == map[] && n.retiredAllocations == {}
            && n.pendingCommit.None? && !AnyUnreleased(n.holds)
            && (forall id :: id in n.participants ==> n.participants[id].session.None?)
            && n.epoch == op.coordination.newEpoch && AnchorIdentity(n) == AnchorIdentity(r)
            && n.nativeCoverage == Some(op.coordination.store)
            && n.coordinator == Some(Coordinator(op.coordination.store, op.coordination.generation,
              op.coordination.process, None))
  {
    if !CompletesReset(op) { GateStep(r, op); }
  }

  /** The immutable anchor validates after any number of resets. */
  lemma {:induction false} AnchorOutlivesResets(r: Registry, ops: seq<Op>)
    requires Good(r) && ValidOps(ops)
    ensures Good(AtomicRun(r, ops))
    ensures AnchorIdentity(AtomicRun(r, ops)) == AnchorIdentity(r) && AtomicRun(r, ops).host == r.host
    decreases ops
  {
    hide Good, StepOf, ValidInput;
    if ops != [] {
      StepKeepsGood(r, ops[0]);
      AnchorOutlivesResets(StepOf(r, ops[0]), ops[1..]);
    }
  }

  // ---- Machine permissions ---------------------------------------------------------

  lemma GrantStep(r: Registry, op: Op, id: DurableId)
    requires Good(r) && id in r.machinePermissions && id !in StepOf(r, op).machinePermissions
    ensures r.pendingCommit.Some? && id in ReleasedIds(r.pendingCommit.value.grants)
    ensures op == Machine(FinishMachineCommit(r.pendingCommit.value.request.operationId))
  {
    match op
    case Machine(c) =>
      if c.PrepareMachineCommit? && r.pendingCommit.None? && DecidePrepare(r, c.intent).Publish? {
        AdmitGrantsKeepsUnique(r.machinePermissions, r.retiredAllocations, c.intent.grants);
      }
    case _ =>
  }

  /** Step `k` of a run finishes a journaled commit that marks Grant `id` Released. */
  predicate ReleasesAt(r: Registry, ops: seq<Op>, k: nat, id: DurableId) {
    && k < |ops|
    && var pending := AtomicRun(r, ops[..k]).pendingCommit;
       && pending.Some? && id in ReleasedIds(pending.value.grants)
       && ops[k] == Machine(FinishMachineCommit(pending.value.request.operationId))
  }

  /** A Grant leaves the permission table only by finishing a commit that marks it Released. */
  lemma {:induction false} GrantLeavesOnlyByRelease(r: Registry, ops: seq<Op>, id: DurableId)
    requires Good(r) && ValidOps(ops)
    requires id in r.machinePermissions && id !in AtomicRun(r, ops).machinePermissions
    ensures exists k :: ReleasesAt(r, ops, k, id)
    decreases |ops|
  {
    hide Good, StepOf, ValidInput;
    var shorter := ops[..|ops| - 1];
    RunLast(r, ops);
    AnchorOutlivesResets(r, shorter);
    if id in AtomicRun(r, shorter).machinePermissions {
      GrantStep(AtomicRun(r, shorter), ops[|ops| - 1], id);
      assert ReleasesAt(r, ops, |ops| - 1, id);
    } else {
      GrantLeavesOnlyByRelease(r, shorter, id);
      var k: nat :| ReleasesAt(r, shorter, k, id);
      assert shorter[..k] == ops[..k];
      assert ReleasesAt(r, ops, k, id);
    }
  }

  lemma PendingStep(r: Registry, op: Op)
    requires StepOf(r, op).pendingCommit.Some? && StepOf(r, op).pendingCommit != r.pendingCommit
    ensures op == Machine(PrepareMachineCommit(StepOf(r, op).pendingCommit.value))
  {
  }

  /** Whatever is pending was journaled by a prepare of exactly that commit. */
  lemma {:induction false} PendingWasJournaled(r: Registry, ops: seq<Op>)
    requires r.pendingCommit.None? && AtomicRun(r, ops).pendingCommit.Some?
    ensures Machine(PrepareMachineCommit(AtomicRun(r, ops).pendingCommit.value)) in ops
    decreases |ops|
  {
    hide StepOf;
    var shorter := ops[..|ops| - 1];
    RunLast(r, ops);
    if AtomicRun(r, ops).pendingCommit == AtomicRun(r, shorter).pendingCommit {
      PendingWasJournaled(r, shorter);
    } else {
      PendingStep(AtomicRun(r, shorter), ops[|ops| - 1]);
    }
  }

  // ---- Journaled commits that cannot finish ------------------------------------------

  /** A journaled commit finishes exactly when its acknowledgement stays below its own sequence. */
  lemma JournaledCommitFinishesIff(r: Registry)
    requires Good(r) && r.pendingCommit.Some?
    ensures DecideFinish(r, r.pendingCommit.value.request.operationId).Publish? <==> Finishable(r.pendingCommit.value)
  {
  }

  lemma UnfinishableStep(r: Registry, op: Op)
    requires r.pendingCommit.Some? && !Finishable(r.pendingCommit.value)
    ensures StepOf(r, op).pendingCommit == r.pendingCommit
  {
  }

  /** One that is not finishable stays pending through every run and keeps admission closed. */
  lemma {:induction false} UnfinishableCommitBlocksForever(r: Registry, ops: seq<Op>)
    requires r.pendingCommit.Some? && !Finishable(r.pendingCommit.value)
    ensures AtomicRun(r, ops).pendingCommit == r.pendingCommit
    ensures RegistryBlocker(AtomicRun(r, ops)) == Some(CommitPending)
    decreases ops
  {
    hide StepOf;
    if ops != [] {
      UnfinishableStep(r, ops[0]);
      UnfinishableCommitBlocksForever(StepOf(r, ops[0]), ops[1..]);
    }
  }

  /** A prepare does journal such a commit, and no run ever ends it: the authority leaves the check to
      its caller. */
  lemma UnfinishableCommitIsJournaled(r: Registry, intent: Intent, ops: seq<Op>)
    requires r.pendingCommit.None? && intent.request.session.domainId in r.participants
    requires var p := r.participants[intent.request.session.domainId];
             p.committed && p.session == Some(intent.request.session)
    requires intent.outcome.Acknowledged? && intent.outcome.through >= intent.request.sequence && intent.grants == []
    ensures var n := AtomicRun(r, [Machine(PrepareMachineCommit(intent))] + ops);
            n.pendingCommit == Some(intent) && RegistryBlocker(n) == Some(CommitPending)
  {
    var prepare := Machine(PrepareMachineCommit(intent));
    assert ([prepare] + ops)[1..] == ops;
    UnfinishableCommitBlocksForever(StepOf(r, prepare), ops);
  }

  // ---- Sessions and sequences --------------------------------------------------------

  predicate Advances(earlier: Participant, later: Participant) {
    && earlier.retiredFloor <= later.retiredFloor
    && earlier.acceptedSequence <= later.acceptedSequence
    && earlier.nextConnectionEpoch <= later.nextConnectionEpoch
    && earlier.registration == later.registration
    && (earlier.committed ==> later.committed)
  }

  /** A session is replaced only by one with the newest connection epoch, or dropped by a reset. */
  predicate SessionMoves(earlier: Participant, later: Participant, reset: bool) {
    || later.session == earlier.session
    || (reset && later.session.None?)
    || (later.session.Some? && later.session.value.connectionEpoch == later.nextConnectionEpoch
        && (earlier.session.Some? ==> earlier.session.value.connectionEpoch < later.session.value.connectionEpoch))
  }

  lemma PeerStep(r: Registry, op: PeerOp, d: Uuid)
    requires d in r.participants && DecidePeer(r, op).Publish?
    ensures var n := DecidePeer(r, op).next.participants;
            d in n && Advances(r.participants[d], n[d]) && SessionMoves(r.participants[d], n[d], false)
  {
  }

  lemma MachineStep(r: Registry, op: CommitOp, d: Uuid)
    requires d in r.participants && DecideMachine(r, op).Publish?
    ensures var n := DecideMachine(r, op).next.participants;
            d in n && Advances(r.participants[d], n[d]) && n[d].session == r.participants[d].session
  {
  }

  lemma CoordinationStep(r: Registry, op: CoordinatorOp, d: Uuid)
    requires d in r.participants && DecideCoordination(r, op).Publish?
    ensures var n := DecideCoordination(r, op).next.participants;
            d in n && Advances(r.participants[d], n[d]) && SessionMoves(r.participants[d], n[d], op.CompleteReset?)
  {
  }

  lemma ParticipantStep(r: Registry, op: Op, d: Uuid)
    requires d in r.participants
    ensures d in StepOf(r, op).participants && Advances(r.participants[d], StepOf(r, op).participants[d])
    ensures SessionMoves(r.participants[d], StepOf(r, op).participants[d], CompletesReset(op))
  {
    hide DecidePeer, DecideMachine, DecideCoordination, DecideHolding, DecideNative;
    if Decide(r, op).Publish? {
      match op
      case Peer(p) => PeerStep(r, p, d);
      case Machine(c) => MachineStep(r, c, d);
      case Coordination(c) => CoordinationStep(r, c, d);
      case _ =>
    }
  }

  /** A participant never disappears; its floor, accepted sequence and connection epoch never
      decrease, and its floor never passes its accepted sequence. */
  lemma {:induction false} ParticipantsOnlyAdvance(r: Registry, ops: seq<Op>, d: Uuid)
    requires Good(r) && ValidOps(ops) && d in r.participants
    ensures d in AtomicRun(r, ops).participants
    ensures Advances(r.participants[d], AtomicRun(r, ops).participants[d])
    ensures AtomicRun(r, ops).participants[d].retiredFloor <= AtomicRun(r, ops).participants[d].acceptedSequence
    decreases ops
  {
    hide StepOf, ValidInput, WellFormed;
    if ops == [] {
      assert Sequenced(r.participants[d]);
    } else {
      ParticipantStep(r, ops[0], d);
      StepKeepsGood(r, ops[0]);
      ParticipantsOnlyAdvance(StepOf(r, ops[0]), ops[1..], d);
    }
  }

  predicate IsReservation(op: Op, domain: Uuid) {
    op.Peer? && op.peer.ReserveConnection? && op.peer.domain == domain
  }

  lemma ReservationStep(r: Registry, op: Op, domain: Uuid)
    requires IsReservation(op, domain) && Decide(r, op).Publish?
    ensures domain in r.participants && domain in StepOf(r, op).participants
    ensures var before, after := r.participants[domain], StepOf(r, op).participants[domain];
            && before.nextConnectionEpoch < after.nextConnectionEpoch <= MAX_I64
            && op.peer.sqlEpoch < after.nextConnectionEpoch
  {
  }

  /** Operation `k` of a run is a published reservation of `domain`. */
  predicate ReservesAt(r: Registry, ops: seq<Op>, k: nat, domain: Uuid) {
    k < |ops| && IsReservation(ops[k], domain) && Decide(AtomicRun(r, ops[..k]), ops[k]).Publish?
  }

  /** In every run the epochs reserved for one domain strictly increase, stay above SQL's and fit in 63 bits. */
  lemma ReservedEpochsIncrease(r: Registry, ops: seq<Op>, i: nat, j: nat, domain: Uuid)
    requires Good(r) && ValidOps(ops) && i < j && ReservesAt(r, ops, i, domain) && ReservesAt(r, ops, j, domain)
    ensures var earlier, later := AtomicRun(r, ops[..i + 1]), AtomicRun(r, ops[..j + 1]);
            && domain in earlier.participants && domain in later.participants
            && var epoch := later.participants[domain].nextConnectionEpoch;
               earlier.participants[domain].nextConnectionEpoch < epoch <= MAX_I64 && ops[j].peer.sqlEpoch < epoch
  {
    hide StepOf, Good, ValidInput, Decide;
    RunLast(r, ops[..i + 1]);
    RunLast(r, ops[..j + 1]);
    assert ops[..i + 1][..i] == ops[..i] && ops[..j + 1][..j] == ops[..j];
    ReservationStep(AtomicRun(r, ops[..i]), ops[i], domain);
    ReservationStep(AtomicRun(r, ops[..j]), ops[j], domain);
    AnchorOutlivesResets(r, ops[..i + 1]);
    ParticipantsOnlyAdvance(AtomicRun(r, ops[..i + 1]), ops[i + 1..j], domain);
    RunAppend(r, ops[..i + 1], ops[i + 1..j]);
    assert ops[..i + 1] + ops[i + 1..j] == ops[..j];
  }

  /** `p` can only be driven by session `s` itself or by one with a larger connection epoch. */
  predicate Fenced(p: Participant, s: Session) {
    && s.connectionEpoch <= p.nextConnectionEpoch
    && (p.session.Some? ==> s.connectionEpoch <= p.session.value.connectionEpoch)
  }

  predicate StrictlyFenced(p: Participant, s: Session) {
    p.session.Some? && (p.session.value == s || s.connectionEpoch < p.session.value.connectionEpoch)
  }

  lemma FencedStep(r: Registry, op: Op, d: Uuid, s: Session)
    requires d in r.participants && Fenced(r.participants[d], s)
    ensures d in StepOf(r, op).participants && Fenced(StepOf(r, op).participants[d], s)
    ensures StrictlyFenced(r.participants[d], s) && !CompletesReset(op) ==>
        StrictlyFenced(StepOf(r, op).participants[d], s)
  {
    hide StepOf;
    ParticipantStep(r, op, d);
  }

  lemma {:induction false} FencedRun(r: Registry, ops: seq<Op>, d: Uuid, s: Session)
    requires d in r.participants && Fenced(r.participants[d], s)
    ensures d in AtomicRun(r, ops).participants && Fenced(AtomicRun(r, ops).participants[d], s)
    ensures StrictlyFenced(r.participants[d], s) && (forall op :: op in ops ==> !CompletesReset(op)) ==>
              StrictlyFenced(AtomicRun(r, ops).participants[d], s)
    decreases ops
  {
    hide StepOf;
    if ops != [] {
      FencedStep(r, ops[0], d, s);
      FencedRun(StepOf(r, ops[0]), ops[1..], d, s);
    }
  }

  /** Once `s` is the accepted session of a participant, no later run lets a commit of an
      older session be journaled; without a reset between, only `s` or a newer one can. */
  lemma NoCommitFromOlderSession(r: Registry, ops: seq<Op>, s: Session, intent: Intent)
    requires Good(r) && s.domainId in r.participants && r.participants[s.domainId].session == Some(s)
    requires intent.request.session.domainId == s.domainId
    requires DecidePrepare(AtomicRun(r, ops), intent).Publish?
    ensures s.connectionEpoch <= intent.request.session.connectionEpoch
    ensures (forall op :: op in ops ==> !CompletesReset(op)) ==>
              intent.request.session == s || s.connectionEpoch < intent.request.session.connectionEpoch
  {
    assert Sequenced(r.participants[s.domainId]);
    FencedRun(r, ops, s.domainId, s);
  }

  /** Every accepted session names the current authority epoch. */
  predicate SessionsCurrent(r: Registry) {
    forall d :: d in r.participants && r.participants[d].session.Some? ==>
      r.participants[d].session.value.authorityEpoch == r.epoch
  }

  lemma PeerSessions(r: Registry, op: PeerOp)
    requires SessionsCurrent(r) && DecidePeer(r, op).Publish?
    ensures SessionsCurrent(DecidePeer(r, op).next)
  {
  }

  lemma MachineSessions(r: Registry, op: CommitOp)
    requires SessionsCurrent(r) && DecideMachine(r, op).Publish?
    ensures SessionsCurrent(DecideMachine(r, op).next)
  {
    hide AdmitGrants;
  }

  lemma CoordinationSessions(r: Registry, op: CoordinatorOp)
    requires SessionsCurrent(r) && DecideCoordination(r, op).Publish?
    ensures SessionsCurrent(DecideCoordination(r, op).next)
  {
  }

  lemma SessionsStep(r: Registry, op: Op)
    requires SessionsCurrent(r)
    ensures SessionsCurrent(StepOf(r, op))
  {
    hide DecideNative, DecideMachine, DecidePeer, DecideCoordination, DecideHolding;
    if Decide(r, op).Publish? {
      match op
      case Peer(p) => PeerSessions(r, p);
      case Machine(c) => MachineSessions(r, c);
      case Coordination(c) => CoordinationSessions(r, c);
      case _ =>
    }
  }

  /** Over every run, resets included, a session of an earlier epoch is never accepted. */
  lemma {:induction false} SessionsStayCurrent(r: Registry, ops: seq<Op>)
    requires SessionsCurrent(r)
    ensures SessionsCurrent(AtomicRun(r, ops))
    decreases ops
  {
    hide StepOf, SessionsCurrent;
    if ops != [] {
      SessionsStep(r, ops[0]);
      SessionsStayCurrent(StepOf(r, ops[0]), ops[1..]);
    }
  }

  // ---- Pairings -------------------------------------------------------------------------

  predicate DistinctPairings(participants: map<Uuid, Participant>) {
    forall a, b :: a in participants && b in participants && a != b ==>
      && participants[a].registration.managerStore != participants[b].registration.managerStore
      && participants[a].registration.nonce != participants[b].registration.nonce
  }

  predicate SameRegistrations(before: map<Uuid, Participant>, after: map<Uuid, Participant>) {
    before.Keys == after.Keys && forall id :: id in before ==> after[id].registration == before[id].registration
  }

  lemma NewPairing(r: Registry, g: Registration)
    requires WellFormedParticipants(r.participants) && DistinctPairings(r.participants) && DecidePairing(r, g).Publish?
    ensures DistinctPairings(DecidePairing(r, g).next.participants)
  {
  }

  lemma PeerPairing(r: Registry, op: PeerOp)
    requires WellFormedParticipants(r.participants) && DistinctPairings(r.participants) && DecidePeer(r, op).Publish?
    ensures DistinctPairings(DecidePeer(r, op).next.participants)
  {
    if op.PreparePairing? {
      NewPairing(r, op.registration);
    } else {
      hide DistinctPairings, WellFormedParticipants, DecidePairing;
      assert SameRegistrations(r.participants, DecidePeer(r, op).next.participants);
      SameRegistrationsStayDistinct(r.participants, DecidePeer(r, op).next.participants);
    }
  }

  lemma MachinePairing(r: Registry, op: CommitOp)
    requires JournalNamed(r.pendingCommit, r.participants) && DecideMachine(r, op).Publish?
    ensures SameRegistrations(r.participants, DecideMachine(r, op).next.participants)
  {
    hide AdmitGrants;
  }

  lemma CoordinationPairing(r: Registry, op: CoordinatorOp)
    requires DecideCoordination(r, op).Publish?
    ensures SameRegistrations(r.participants, DecideCoordination(r, op).next.participants)
  {
  }

  lemma PairingStep(r: Registry, op: Op)
    requires Good(r) && DistinctPairings(r.participants)
    ensures DistinctPairings(StepOf(r, op).participants)
  {
    hide DecideNative, DecideMachine, DecidePeer, DecideCoordination, DecideHolding, DistinctPairings,
      SameRegistrations;
    match op
    case Peer(p) => if DecidePeer(r, p).Publish? { PeerPairing(r, p); }
    case Machine(c) =>
      if DecideMachine(r, c).Publish? {
        MachinePairing(r, c);
        SameRegistrationsStayDistinct(r.participants, DecideMachine(r, c).next.participants);
      }
    case Coordination(c) =>
      if DecideCoordination(r, c).Publish? {
        CoordinationPairing(r, c);
        SameRegistrationsStayDistinct(r.participants, DecideCoordination(r, c).next.participants);
      }
    case _ =>
  }

  lemma SameRegistrationsStayDistinct(before: map<Uuid, Participant>, after: map<Uuid, Participant>)
    requires SameRegistrations(before, after) && DistinctPairings(before)
    ensures DistinctPairings(after)
  {
  }

  /** No two participants ever share a manager store or a pairing nonce. */
  lemma {:induction false} PairingsStayDistinct(r: Registry, ops: seq<Op>)
    requires Good(r) && ValidOps(ops) && DistinctPairings(r.participants)
    ensures DistinctPairings(AtomicRun(r, ops).participants)
    decreases ops
  {
    hide StepOf, Good, DistinctPairings;
    if ops != [] {
      StepKeepsGood(r, ops[0]);
      PairingStep(r, ops[0]);
      PairingsStayDistinct(StepOf(r, ops[0]), ops[1..]);
    }
  }
}
