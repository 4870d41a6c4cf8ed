/** The run theorems of the authority, carried to runs with I/O errors and crashes. */
module AuthorityCrashTheorems {
  import opened Optional
  import opened AuthorityTypes
  import opened AuthorityOps
  import opened AuthorityDisk
  import opened AuthorityInvariants
  import opened AuthorityRuns
  import opened AuthorityTheorems
  import opened AuthorityKeys

  lemma {:induction false} DurableOpsComeFromCalls(sz: Sizes, host: nat, w: World, events: seq<Event>, op: Op)
    requires op in DurableOps(sz, host, w, events)
    ensures exists e :: e in events && !e.call.Initialize? && OpOf(e.call) == op
    decreases events
  {
    hide Next, Load;
    var rest := DurableOps(sz, host, Next(sz, host, w, events[0]), events[1..]);
    if op in rest {
      DurableOpsComeFromCalls(sz, host, Next(sz, host, w, events[0]), events[1..], op);
    } else {
      assert events[0] in events;
    }
  }

  predicate NoResetCompletes(events: seq<Event>) {
    forall e :: e in events && e.call.Do? ==> !CompletesReset(e.call.op)
  }

  /** A pending reset survives crashes, reopens, rebinds and new stores, names the same
      predecessor throughout, and admission stays closed until a reset completes. */
  lemma GateSurvivesCrashes(sz: Sizes, host: nat, w: World, events: seq<Event>, r: Registry)
    requires Inv(sz, host, w) && ValidEvents(events) && Durable(sz, host, w.disk) == Some(r)
    requires Gated(r) && NoResetCompletes(events)
    ensures var end := Execute(sz, host, w, events);
            && Durable(sz, host, end.disk).Some? && Durable(sz, host, end.disk).value.coordinator == r.coordinator
            && AdmissionBlocker(end.mem).Some?
  {
    hide Execute, Next, Load, AtomicRun, DurableOps, Sound;
    CrashRunsRefineAtomicRuns(sz, host, w, events, r);
    var ops := DurableOps(sz, host, w, events);
    forall op | op in ops ensures !CompletesReset(op) {
      if CompletesReset(op) { DurableOpsComeFromCalls(sz, host, w, events, op); }
    }
    GateSurvives(r, ops);
  }

  predicate ReleasesHold(op: Op, id: Uuid) {
    && op.Holding?
    && (|| (op.holding.ForceRelease? && op.holding.id == id)
        || (op.holding.SealBootstrap? && op.holding.proof.operationId == id))
  }

  lemma HoldStep(r: Registry, op: Op, id: Uuid)
    requires id in r.holds && !r.holds[id].released && !ReleasesHold(op, id)
    ensures id in StepOf(r, op).holds && StepOf(r, op).holds[id] == r.holds[id]
  {
  }

  lemma {:induction false} HoldSurvives(r: Registry, ops: seq<Op>, id: Uuid)
    requires id in r.holds && !r.holds[id].released && forall op :: op in ops ==> !ReleasesHold(op, id)
    ensures id in AtomicRun(r, ops).holds && AtomicRun(r, ops).holds[id] == r.holds[id]
    decreases ops
  {
    hide StepOf;
    if ops != [] {
      HoldStep(r, ops[0], id);
      HoldSurvives(StepOf(r, ops[0]), ops[1..], id);
    }
  }

  /** Process exit, crashes and store resets never release a hold or reopen admission. */
  lemma HoldSurvivesCrashes(sz: Sizes, host: nat, w: World, events: seq<Event>, r: Registry, id: Uuid)
    requires Inv(sz, host, w) && ValidEvents(events) && Durable(sz, host, w.disk) == Some(r)
    requires id in r.holds && !r.holds[id].released
    requires forall e :: e in events && e.call.Do? ==> !ReleasesHold(e.call.op, id)
    ensures var end := Execute(sz, host, w, events);
            && Durable(sz, host, end.disk).Some? && id in Durable(sz, host, end.disk).value.holds
            && Durable(sz, host, end.disk).value.holds[id] == r.holds[id]
            && AdmissionBlocker(end.mem).Some?
  {
    hide Execute, Next, Load, AtomicRun, DurableOps, Sound;
    CrashRunsRefineAtomicRuns(sz, host, w, events, r);
    var ops := DurableOps(sz, host, w, events);
    forall op | op in ops ensures !ReleasesHold(op, id) {
      if ReleasesHold(op, id) { DurableOpsComeFromCalls(sz, host, w, events, op); }
    }
    HoldSurvives(r, ops, id);
  }

  /** Across crashes too, a Grant disappears only by a durable finish of a commit releasing it. */
  lemma GrantsSurviveCrashes(sz: Sizes, host: nat, w: World, events: seq<Event>, r: Registry, id: DurableId)
    requires Inv(sz, host, w) && ValidEvents(events) && Durable(sz, host, w.disk) == Some(r)
    requires id in r.machinePermissions
    requires Durable(sz, host, Execute(sz, host, w, events).disk).Some? ==>
               id !in Durable(sz, host, Execute(sz, host, w, events).disk).value.machinePermissions
    ensures exists k :: ReleasesAt(r, DurableOps(sz, host, w, events), k, id)
  {
    hide Execute, Next, AtomicRun, DurableOps;
    CrashRunsRefineAtomicRuns(sz, host, w, events, r);
    GrantLeavesOnlyByRelease(r, DurableOps(sz, host, w, events), id);
  }

  /** In every state of every run, gated or not, each outstanding native start names the
      current epoch, native domain and covered store, which is the coordinator's store. */
  lemma NativeStartsStayCurrent(sz: Sizes, host: nat, w: World, events: seq<Event>)
    requires Inv(sz, host, w) && ValidEvents(events)
    ensures var d := Durable(sz, host, Execute(sz, host, w, events).disk);
            d.Some? ==>
              && CoverageAnchored(d.value.nativeCoverage, d.value.coordinator)
              && NativeCovered(d.value.epoch, d.value.domains, d.value.nativeCoverage, d.value.nativePermissions)
              && OneGrantPerKey(d.value.machinePermissions)
  {
    hide Execute, Next, NativeCovered, OneGrantPerKey;
    RunsKeepInv(sz, host, w, events);
  }

  /** A retired key stays retired and gains no right through crashes and reopens. */
  lemma RetiredKeySurvivesCrashes(sz: Sizes, host: nat, w: World, events: seq<Event>, r: Registry, key: AllocationKey)
    requires Inv(sz, host, w) && ValidEvents(events) && Durable(sz, host, w.disk) == Some(r)
    requires key in r.retiredAllocations && NeverUnfenced(events, key)
    ensures var end := Durable(sz, host, Execute(sz, host, w, events).disk);
            && end.Some? && key in end.value.retiredAllocations
            && NoNewRights(r.machinePermissions, end.value.machinePermissions, key)
  {
    hide Execute, Next, Load, AtomicRun, DurableOps, Sound;
    CrashRunsRefineAtomicRuns(sz, host, w, events, r);
    var ops := DurableOps(sz, host, w, events);
    forall op | op in ops ensures !Unfences(op, key) {
      if Unfences(op, key) { DurableOpsComeFromCalls(sz, host, w, events, op); }
    }
    RetiredKeyStaysFenced(r, ops, key);
  }

  /** An unfinishable commit stays pending, and admission closed, through crashes and reopens. */
  lemma UnfinishableCommitSurvivesCrashes(sz: Sizes, host: nat, w: World, events: seq<Event>, r: Registry)
    requires Inv(sz, host, w) && ValidEvents(events) && Durable(sz, host, w.disk) == Some(r)
    requires r.pendingCommit.Some? && !Finishable(r.pendingCommit.value)
    ensures var end := Execute(sz, host, w, events);
            && Durable(sz, host, end.disk).Some? && Durable(sz, host, end.disk).value.pendingCommit == r.pendingCommit
            && AdmissionBlocker(end.mem).Some?
  {
    hide Execute, Next, Load, AtomicRun, DurableOps, Sound;
    CrashRunsRefineAtomicRuns(sz, host, w, events, r);
    UnfinishableCommitBlocksForever(r, DurableOps(sz, host, w, events));
  }

  // ---- Participants -----------------------------------------------------------------------

  /** Through crashes and reopens a participant never disappears and nothing of it moves back. */
  lemma ParticipantsAdvanceThroughCrashes(sz: Sizes, host: nat, w: World, events: seq<Event>, r: Registry, d: Uuid)
    requires Inv(sz, host, w) && ValidEvents(events) && Durable(sz, host, w.disk) == Some(r) && d in r.participants
    ensures var end := Durable(sz, host, Execute(sz, host, w, events).disk);
            && end.Some? && d in end.value.participants && Advances(r.participants[d], end.value.participants[d])
            && end.value.participants[d].retiredFloor <= end.value.participants[d].acceptedSequence
  {
    hide Execute, Next, Load, AtomicRun, DurableOps, Sound, Good;
    DurableIsGood(sz, host, w, r);
    CrashRunsRefineAtomicRuns(sz, host, w, events, r);
    ParticipantsOnlyAdvance(r, DurableOps(sz, host, w, events), d);
  }

  /** A reservation became durable in one event, whether or not its caller heard of it. */
  predicate ReservedBy(sz: Sizes, host: nat, w: World, e: Event, domain: Uuid) {
    && e.call.Do? && IsReservation(e.call.op, domain) && Durable(sz, host, w.disk).Some?
    && var r := Durable(sz, host, w.disk).value;
       Decide(r, e.call.op).Publish? && Durable(sz, host, Next(sz, host, w, e).disk) == Some(StepOf(r, e.call.op))
  }

  /** Two reservations of one domain, with any run between them, crash or not, never share an epoch. */
  lemma EpochsIncreaseThroughCrashes(
    sz: Sizes, host: nat, w: World, first: Event, between: seq<Event>, second: Event, domain: Uuid)
    requires Inv(sz, host, w) && ValidCall(first.call) && ValidEvents(between)
    requires ReservedBy(sz, host, w, first, domain)
    requires ReservedBy(sz, host, Execute(sz, host, Next(sz, host, w, first), between), second, domain)
    ensures var w1 := Next(sz, host, w, first);
            var w2 := Next(sz, host, Execute(sz, host, w1, between), second);
            && Durable(sz, host, w1.disk).Some? && domain in Durable(sz, host, w1.disk).value.participants
            && Durable(sz, host, w2.disk).Some? && domain in Durable(sz, host, w2.disk).value.participants
            && Durable(sz, host, w1.disk).value.participants[domain].nextConnectionEpoch
               < Durable(sz, host, w2.disk).value.participants[domain].nextConnectionEpoch
  {
    hide Execute, Next, Load, Sound, StepOf, Decide;
    var r := Durable(sz, host, w.disk).value;
    var w1 := Next(sz, host, w, first);
    EventRefines(sz, host, w, first, r);
    ReservationStep(r, first.call.op, domain);
    ParticipantsAdvanceThroughCrashes(sz, host, w1, between, Durable(sz, host, w1.disk).value, domain);
    ReservationStep(Durable(sz, host, Execute(sz, host, w1, between).disk).value, second.call.op, domain);
  }

  /** Once a session is durably accepted, no run with crashes and reopens lets an older one journal. */
  lemma NoOlderCommitThroughCrashes(
    sz: Sizes, host: nat, w: World, events: seq<Event>, r: Registry, s: Session, intent: Intent)
    requires Inv(sz, host, w) && ValidEvents(events) && Durable(sz, host, w.disk) == Some(r)
    requires s.domainId in r.participants && r.participants[s.domainId].session == Some(s)
    requires intent.request.session.domainId == s.domainId
    requires var end := Durable(sz, host, Execute(sz, host, w, events).disk);
             end.Some? && DecidePrepare(end.value, intent).Publish?
    ensures s.connectionEpoch <= intent.request.session.connectionEpoch
    ensures NoResetCompletes(events) ==>
              intent.request.session == s || s.connectionEpoch < intent.request.session.connectionEpoch
  {
    hide Execute, Next, Load, AtomicRun, DurableOps, Sound, Good, DecidePrepare;
    DurableIsGood(sz, host, w, r);
    CrashRunsRefineAtomicRuns(sz, host, w, events, r);
    var ops := DurableOps(sz, host, w, events);
    NoCommitFromOlderSession(r, ops, s, intent);
    forall op | op in ops && NoResetCompletes(events) ensures !CompletesReset(op) {
      if CompletesReset(op) { DurableOpsComeFromCalls(sz, host, w, events, op); }
    }
  }

  // ---- Lost or damaged history ---------------------------------------------------------

  datatype Damage = LoseAnchor | TearAnchor | LoseRegistry | TearRegistry | LoseBlob | TearBlob

  function Damaged(d: Disk, r: Registry, damage: Damage): Disk
    requires (damage.LoseBlob? || damage.TearBlob?) ==> r.pendingBlob.Some?
  {
    match damage
    case LoseAnchor => d.(anchor := NoAnchor)
    case TearAnchor => d.(anchor := PartialAnchor)
    case LoseRegistry => d.(registry := NoRegistry)
    case TearRegistry => d.(registry := UnreadableRegistry)
    case LoseBlob => d.(blobs := d.blobs - {r.pendingBlob.value})
    case TearBlob => d.(blobs := d.blobs[r.pendingBlob.value := UnreadableBlob])
  }

  /** Losing or tearing any one file of a recorded history reads as unknown history, so it
      admits nothing and initialization refuses to declare it empty. */
  lemma DamagedHistoryIsNeverEmpty(sz: Sizes, d: Disk, host: nat, r: Registry, damage: Damage, epoch: Uuid,
    domains: Domains, env: Env)
    requires Records(sz, d, host, r) && Good(r)
    requires (damage.LoseBlob? || damage.TearBlob?) ==> r.pendingBlob.Some?
    ensures var lost := Damaged(d, r, damage);
            && Load(sz, lost, host) == Unknown
            && AdmissionBlocker(OpenAttempt(sz, lost, host, domains, env).state) == Some(HistoryUnknown)
            && InitializeAttempt(sz, OpenAttempt(sz, lost, host, domains, env).state, lost, host, epoch, domains, env)
              == Idle(Unknown, lost, false)
  {
    hide Perform, PublishAttempt, WellFormed;
  }
}
