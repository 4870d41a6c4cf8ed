/**
 What becomes of an allocation key over a run: it stays bound to its Grant, or it
 is retired and bound to none. The authority alone does not ensure this, since it
 never compares a commit's snapshots with the record; the exact condition is here.
 */
module AuthorityKeys {
  import opened Optional
  import opened AuthorityTypes
  import opened AuthorityOps
  import opened AuthorityDisk
  import opened AuthorityInvariants
  import opened AuthorityRuns
  import opened AuthorityTheorems

  /** Operations that lift the fence of a retired key: its compaction, or an epoch rotation. */
  predicate Unfences(op: Op, key: AllocationKey) {
    CompletesReset(op) || (op.Machine? && op.commit.CompactRetirements? && key in op.commit.provenKeys)
  }

  /** Rights of `key` in `later` are a subset of its rights in `earlier`. */
  predicate NoNewRights(earlier: map<DurableId, Grant>, later: map<DurableId, Grant>, key: AllocationKey) {
    forall id :: id in later && later[id].key == key ==> id in earlier && earlier[id] == later[id]
  }

  lemma FenceStep(r: Registry, op: Op, key: AllocationKey)
    requires key in r.retiredAllocations && !Unfences(op, key)
    ensures key in StepOf(r, op).retiredAllocations
    ensures NoNewRights(r.machinePermissions, StepOf(r, op).machinePermissions, key)
  {
    match op
    case Machine(c) =>
      if c.PrepareMachineCommit? && r.pendingCommit.None? && DecidePrepare(r, c.intent).Publish? {
        AdmitGrantsFencesRetired(r.machinePermissions, r.retiredAllocations, c.intent.grants, key);
      }
    case _ =>
  }

  /** A retired key gets no new rights before its compaction or an epoch rotation. */
  lemma {:induction false} RetiredKeyStaysFenced(r: Registry, ops: seq<Op>, key: AllocationKey)
    requires key in r.retiredAllocations && forall op :: op in ops ==> !Unfences(op, key)
    ensures key in AtomicRun(r, ops).retiredAllocations
    ensures NoNewRights(r.machinePermissions, AtomicRun(r, ops).machinePermissions, key)
    decreases ops
  {
    hide StepOf;
    if ops != [] {
      FenceStep(r, ops[0], key);
      RetiredKeyStaysFenced(StepOf(r, ops[0]), ops[1..], key);
    }
  }

  /** Each recorded Grant the commit releases has its recorded key among the keys the
      commit marks Released, or already retired. */
  predicate ReleasesNameRecordedKeys(r: Registry, intent: Intent) {
    forall g :: g in intent.grants && g.state == Released && g.grantId in r.machinePermissions ==>
      || r.machinePermissions[g.grantId].key in r.retiredAllocations
      || r.machinePermissions[g.grantId].key in ReleasedKeys(intent.grants)
  }

  /** Finishing fences the recorded key of every Grant it removes exactly when the commit's
      Released snapshots name the recorded keys: the code retires the snapshot's key and
      removes the snapshot's Grant id without comparing either with the record. */
  lemma FinishFencesRecordedKeysIff(r: Registry, next: Registry)
    requires r.pendingCommit.Some?
    requires DecideFinish(r, r.pendingCommit.value.request.operationId) == Publish(next)
    ensures (forall id :: id in r.machinePermissions && id !in next.machinePermissions
                          ==> r.machinePermissions[id].key in next.retiredAllocations)
            <==> ReleasesNameRecordedKeys(r, r.pendingCommit.value)
  {
    var intent := r.pendingCommit.value;
    if ReleasesNameRecordedKeys(r, intent) {
    } else {
      var g :| g in intent.grants && g.state == Released && g.grantId in r.machinePermissions
               && r.machinePermissions[g.grantId].key !in r.retiredAllocations
               && r.machinePermissions[g.grantId].key !in ReleasedKeys(intent.grants);
      assert g.grantId !in next.machinePermissions;
    }
  }

  function CommitOps(s: Session, sequence: nat, operationId: Uuid, g: Grant): seq<Op> {
    [Machine(PrepareMachineCommit(Intent(Request(s, sequence, operationId, 0), OtherOutcome(0), [g]))),
     Machine(FinishMachineCommit(operationId))]
  }

  predicate LiveSession(r: Registry, s: Session) {
    && r.pendingCommit.None?
    && s.domainId in r.participants && r.participants[s.domainId].committed
    && r.participants[s.domainId].session == Some(s)
  }

  /** The effect of preparing and finishing a commit that carries one Grant snapshot. */
  lemma CommitOne(r: Registry, s: Session, sequence: nat, operationId: Uuid, g: Grant)
    requires LiveSession(r, s)
    requires g.state != Released ==> g.key !in r.retiredAllocations && !Clashes(r.machinePermissions, g)
    ensures var n := AtomicRun(r, CommitOps(s, sequence, operationId, g));
            && LiveSession(n, s)
            && n.machinePermissions == (if g.state == Released then r.machinePermissions - {g.grantId}
                                        else r.machinePermissions[g.grantId := g])
            && n.retiredAllocations == r.retiredAllocations + (if g.state == Released then {g.key} else {})
  {
    var intent := Intent(Request(s, sequence, operationId, 0), OtherOutcome(0), [g]);
    var ops := CommitOps(s, sequence, operationId, g);
    assert [g][1..] == [];
    assert g in [g];
    assert forall x :: x in [g] ==> x == g;
    assert AdmitGrants(r.machinePermissions, r.retiredAllocations, [g])
           == Some(if g.state == Released then r.machinePermissions else r.machinePermissions[g.grantId := g]);
    assert ReleasedIds([g]) == (if g.state == Released then {g.grantId} else {});
    assert ReleasedKeys([g]) == (if g.state == Released then {g.key} else {});
    var prepared := StepOf(r, ops[0]);
    assert prepared.pendingCommit == Some(intent);
    RunLast(r, ops);
    RunLast(r, ops[..1]);
    assert ops[..1][..0] == [];
  }

  /** When they disagree the recorded key loses its fence: after the mismatched release the
      same key is granted again, under another Grant, with no compaction or reset between. */
  lemma MismatchedReleaseFreesKey(r: Registry, s: Session, first: Grant, wrong: Grant, second: Grant, a: Uuid, b: Uuid,
    c: Uuid)
    requires LiveSession(r, s) && r.machinePermissions == map[] && r.retiredAllocations == {}
    requires first.state == Armed && second.state == Armed && wrong.state == Released
    requires second.key == first.key && wrong.key != first.key && wrong.grantId == first.grantId
        && second.grantId != first.grantId
    ensures var granted := AtomicRun(r, CommitOps(s, 1, a, first));
            var released := AtomicRun(granted, CommitOps(s, 2, b, wrong));
            var again := AtomicRun(released, CommitOps(s, 3, c, second));
            && granted.machinePermissions == map[first.grantId := first]
            && released.machinePermissions == map[] && first.key !in released.retiredAllocations
            && again.machinePermissions == map[second.grantId := second]
  {
    hide AtomicRun, CommitOps, LiveSession;
    CommitOne(r, s, 1, a, first);
    var granted := AtomicRun(r, CommitOps(s, 1, a, first));
    CommitOne(granted, s, 2, b, wrong);
    var released := AtomicRun(granted, CommitOps(s, 2, b, wrong));
    CommitOne(released, s, 3, c, second);
  }

  /** The second failing family: a Grant id is bound to another key while it is recorded. Every release
      then names the recorded key, and still the first key is granted again with no compaction or reset. */
  lemma RebindingFreesKey(
    r: Registry, s: Session, first: Grant, rebound: Grant, gone: Grant, again: Grant, ids: (Uuid, Uuid, Uuid, Uuid))
    requires LiveSession(r, s) && r.machinePermissions == map[] && r.retiredAllocations == {}
    requires first.state == Armed && rebound.state == Armed && gone.state == Released && again.state == Armed
    requires rebound.grantId == first.grantId == gone.grantId && again.grantId != first.grantId
    requires rebound.key == gone.key && again.key == first.key && rebound.key != first.key
    ensures var granted := AtomicRun(r, CommitOps(s, 1, ids.0, first));
            var moved := AtomicRun(granted, CommitOps(s, 2, ids.1, rebound));
            var released := AtomicRun(moved, CommitOps(s, 3, ids.2, gone));
            && granted.machinePermissions == map[first.grantId := first]
            && moved.machinePermissions == map[first.grantId := rebound]
            && released.machinePermissions == map[] && first.key !in released.retiredAllocations
            && AtomicRun(released, CommitOps(s, 4, ids.3, again)).machinePermissions == map[again.grantId := again]
  {
    hide AtomicRun, CommitOps, LiveSession;
    CommitOne(r, s, 1, ids.0, first);
    var granted := AtomicRun(r, CommitOps(s, 1, ids.0, first));
    CommitOne(granted, s, 2, ids.1, rebound);
    var moved := AtomicRun(granted, CommitOps(s, 2, ids.1, rebound));
    CommitOne(moved, s, 3, ids.2, gone);
    CommitOne(AtomicRun(moved, CommitOps(s, 3, ids.2, gone)), s, 4, ids.3, again);
  }

  // ---- The exact condition over runs -----------------------------------------------------------

  predicate Bound(r: Registry, id: DurableId, key: AllocationKey) {
    id in r.machinePermissions && r.machinePermissions[id].key == key
  }

  predicate Unbound(r: Registry, key: AllocationKey) {
    forall id :: id in r.machinePermissions ==> r.machinePermissions[id].key != key
  }

  /** The key is bound to Grant `id`, or it is retired and bound to no Grant. */
  predicate Accounted(r: Registry, id: DurableId, key: AllocationKey) {
    Bound(r, id, key) || (key in r.retiredAllocations && Unbound(r, key))
  }

  /** The key under which a commit journals Grant `id`, if it journals it alive. */
  function LiveKey(grants: seq<Grant>, id: DurableId): Option<AllocationKey> {
    if grants == [] then None
    else
      var later := LiveKey(grants[1..], id);
      if later.Some? then later
      else if grants[0].state != Released && grants[0].grantId == id then Some(grants[0].key)
      else None
  }

  /** What must hold before a call for `key` to stay accounted: an admitted commit does not rebind its
      Grant, and a finished one that removes its Grant retires it. */
  predicate Guarded(r: Registry, op: Op, id: DurableId, key: AllocationKey) {
    Bound(r, id, key) && key !in r.retiredAllocations && op.Machine? && Decide(r, op).Publish? ==>
      match op.commit
      case PrepareMachineCommit(intent) =>
        r.pendingCommit.None? && LiveKey(intent.grants, id).Some? ==> LiveKey(intent.grants, id).value == key
      case FinishMachineCommit(_) =>
        var grants := r.pendingCommit.value.grants;
        id in ReleasedIds(grants) ==> key in ReleasedKeys(grants)
      case _ => true
  }

  lemma {:induction false} AdmittedKey(
    permissions: map<DurableId, Grant>, retired: set<AllocationKey>, grants: seq<Grant>, id: DurableId)
    requires AdmitGrants(permissions, retired, grants).Some?
    ensures var after, live := AdmitGrants(permissions, retired, grants).value, LiveKey(grants, id);
            if live.Some? then id in after && after[id].key == live.value
            else (id in after <==> id in permissions) && (id in after ==> after[id] == permissions[id])
    decreases grants
  {
    if grants != [] {
      if grants[0].state == Released {
        AdmittedKey(permissions, retired, grants[1..], id);
      } else {
        AdmittedKey(permissions[grants[0].grantId := grants[0]], retired, grants[1..], id);
      }
    }
  }

  lemma PrepareAccountedIff(r: Registry, intent: Intent, id: DurableId, key: AllocationKey)
    requires Good(r) && Accounted(r, id, key)
    ensures var op := Machine(PrepareMachineCommit(intent));
            Accounted(StepOf(r, op), id, key) <==> Guarded(r, op, id, key)
  {
    hide WellFormed;
    if r.pendingCommit.None? && DecidePrepare(r, intent).Publish? {
      AdmittedKey(r.machinePermissions, r.retiredAllocations, intent.grants, id);
      if key in r.retiredAllocations {
        AdmitGrantsFencesRetired(r.machinePermissions, r.retiredAllocations, intent.grants, key);
      }
    }
  }

  lemma FinishAccountedIff(r: Registry, operationId: Uuid, id: DurableId, key: AllocationKey)
    requires Good(r) && Accounted(r, id, key)
    ensures var op := Machine(FinishMachineCommit(operationId));
            Accounted(StepOf(r, op), id, key) <==> Guarded(r, op, id, key)
  {
    hide WellFormed, AdvanceParticipant;
  }

  /** Only prepare and finish touch the permission table or the journal. */
  lemma OtherOpsKeepTable(r: Registry, op: Op)
    requires !(op.Machine? && (op.commit.PrepareMachineCommit? || op.commit.FinishMachineCommit?))
    ensures StepOf(r, op).machinePermissions == r.machinePermissions && StepOf(r, op).pendingCommit == r.pendingCommit
  {
    hide DecideNative, DecidePeer, DecideHolding;
  }

  lemma StepAccountedIff(r: Registry, op: Op, id: DurableId, key: AllocationKey)
    requires Good(r) && Accounted(r, id, key) && !Unfences(op, key)
    ensures Accounted(StepOf(r, op), id, key) <==> Guarded(r, op, id, key)
  {
    hide StepOf, Good;
    if op.Machine? && op.commit.PrepareMachineCommit? {
      PrepareAccountedIff(r, op.commit.intent, id, key);
    } else if op.Machine? && op.commit.FinishMachineCommit? {
      FinishAccountedIff(r, op.commit.operationId, id, key);
    } else {
      OtherOpsKeepTable(r, op);
      if key in r.retiredAllocations { FenceStep(r, op, key); }
    }
  }

  /** Accounted at the start and after every operation of the run. */
  predicate AlwaysAccounted(r: Registry, ops: seq<Op>, id: DurableId, key: AllocationKey)
    decreases ops
  {
    Accounted(r, id, key) && (ops != [] ==> AlwaysAccounted(StepOf(r, ops[0]), ops[1..], id, key))
  }

  predicate AlwaysGuarded(r: Registry, ops: seq<Op>, id: DurableId, key: AllocationKey)
    decreases ops
  {
    ops != [] ==> Guarded(r, ops[0], id, key) && AlwaysGuarded(StepOf(r, ops[0]), ops[1..], id, key)
  }

  /** Over every run without a compaction of the key or an epoch rotation, a key is at all times bound to
      its Grant or retired and bound to none, if and only if every call of the run was guarded. */
  lemma {:induction false} KeyStaysAccountedIff(r: Registry, ops: seq<Op>, id: DurableId, key: AllocationKey)
    requires Good(r) && ValidOps(ops) && Accounted(r, id, key) && forall op :: op in ops ==> !Unfences(op, key)
    ensures AlwaysAccounted(r, ops, id, key) <==> AlwaysGuarded(r, ops, id, key)
    decreases ops
  {
    hide StepOf, Good, Guarded, Accounted;
    if ops != [] {
      StepKeepsGood(r, ops[0]);
      StepAccountedIff(r, ops[0], id, key);
      if Guarded(r, ops[0], id, key) { KeyStaysAccountedIff(StepOf(r, ops[0]), ops[1..], id, key); }
    }
  }

  // ---- A check at prepare that suffices ----------------------------------------------------------

  /** Snapshots of one Grant id carry one key, the recorded one if the id is recorded. */
  predicate OneKeyPerGrant(permissions: map<DurableId, Grant>, grants: seq<Grant>) {
    && (forall g, h :: g in grants && h in grants && g.grantId == h.grantId ==> g.key == h.key)
    && (forall g :: g in grants && g.grantId in permissions ==> permissions[g.grantId].key == g.key)
  }

  /** The check a caller can make before it prepares a commit. */
  predicate Consistent(r: Registry, op: Op) {
    op.Machine? && op.commit.PrepareMachineCommit? && r.pendingCommit.None? ==>
      OneKeyPerGrant(r.machinePermissions, op.commit.intent.grants)
  }

  predicate PendingAgrees(r: Registry) {
    r.pendingCommit.Some? ==> OneKeyPerGrant(r.machinePermissions, r.pendingCommit.value.grants)
  }

  predicate AlwaysConsistent(r: Registry, ops: seq<Op>)
    decreases ops
  {
    ops != [] ==> Consistent(r, ops[0]) && AlwaysConsistent(StepOf(r, ops[0]), ops[1..])
  }

  lemma {:induction false} LiveKeyIsJournaled(grants: seq<Grant>, id: DurableId)
    ensures LiveKey(grants, id).Some? ==>
              exists g :: g in grants && g.grantId == id && g.state != Released && g.key == LiveKey(grants, id).value
    decreases grants
  {
    if grants != [] && LiveKey(grants[1..], id).Some? {
      LiveKeyIsJournaled(grants[1..], id);
      var rest := grants[1..];
      var g :| g in rest && g.grantId == id && g.state != Released && g.key == LiveKey(rest, id).value;
      assert g in grants;
    }
  }

  lemma AdmissionAgrees(permissions: map<DurableId, Grant>, retired: set<AllocationKey>, grants: seq<Grant>)
    requires OneKeyPerGrant(permissions, grants) && AdmitGrants(permissions, retired, grants).Some?
    ensures OneKeyPerGrant(AdmitGrants(permissions, retired, grants).value, grants)
  {
    forall g | g in grants && g.grantId in AdmitGrants(permissions, retired, grants).value
      ensures AdmitGrants(permissions, retired, grants).value[g.grantId].key == g.key
    {
      AdmittedKey(permissions, retired, grants, g.grantId);
      LiveKeyIsJournaled(grants, g.grantId);
    }
  }

  lemma PrepareAgrees(r: Registry, intent: Intent)
    requires PendingAgrees(r) && Consistent(r, Machine(PrepareMachineCommit(intent)))
    ensures PendingAgrees(StepOf(r, Machine(PrepareMachineCommit(intent))))
  {
    if r.pendingCommit.None? && DecidePrepare(r, intent).Publish? {
      AdmissionAgrees(r.machinePermissions, r.retiredAllocations, intent.grants);
    }
  }

  lemma ConsistentStep(r: Registry, op: Op)
    requires PendingAgrees(r) && Consistent(r, op)
    ensures PendingAgrees(StepOf(r, op))
  {
    if op.Machine? && op.commit.PrepareMachineCommit? {
      PrepareAgrees(r, op.commit.intent);
    } else if op.Machine? && op.commit.FinishMachineCommit? {
    } else {
      OtherOpsKeepTable(r, op);
    }
    hide StepOf;
  }

  lemma ConsistentIsGuarded(r: Registry, op: Op, id: DurableId, key: AllocationKey)
    requires PendingAgrees(r) && Consistent(r, op)
    ensures Guarded(r, op, id, key)
  {
    if op.Machine? && op.commit.PrepareMachineCommit? { LiveKeyIsJournaled(op.commit.intent.grants, id); }
  }

  /** One step of the theorems below. */
  lemma ConsistentStepAccounts(r: Registry, op: Op, id: DurableId, key: AllocationKey)
    requires Good(r) && PendingAgrees(r) && Accounted(r, id, key) && Consistent(r, op) && !Unfences(op, key)
    ensures PendingAgrees(StepOf(r, op)) && Accounted(StepOf(r, op), id, key)
  {
    hide StepOf, Good, Guarded, Accounted;
    ConsistentStep(r, op);
    ConsistentIsGuarded(r, op, id, key);
    StepAccountedIff(r, op, id, key);
  }

  /** If every prepare passes the check, then over every run without a compaction of the key or an epoch
      rotation a granted key is still bound to its Grant, or it is retired and has no Grant at all. */
  lemma {:induction false} CheckedKeyIsNeverGrantedAgain(r: Registry, ops: seq<Op>, id: DurableId, key: AllocationKey)
    requires Good(r) && ValidOps(ops) && PendingAgrees(r) && Accounted(r, id, key)
    requires AlwaysConsistent(r, ops) && forall op :: op in ops ==> !Unfences(op, key)
    ensures Accounted(AtomicRun(r, ops), id, key)
    decreases ops
  {
    hide StepOf, Good, Consistent, PendingAgrees, Accounted;
    if ops != [] {
      StepKeepsGood(r, ops[0]);
      ConsistentStepAccounts(r, ops[0], id, key);
      CheckedKeyIsNeverGrantedAgain(StepOf(r, ops[0]), ops[1..], id, key);
    }
  }

  // ---- The same over runs with crashes -----------------------------------------------------------

  /** Every prepare of the run is checked against the durable registry it finds. */
  predicate AlwaysChecked(sz: Sizes, host: nat, w: World, events: seq<Event>)
    decreases events
  {
    events != [] ==>
      && (events[0].call.Do? && Durable(sz, host, w.disk).Some? ==>
            Consistent(Durable(sz, host, w.disk).value, events[0].call.op))
      && AlwaysChecked(sz, host, Next(sz, host, w, events[0]), events[1..])
  }

  predicate NeverUnfenced(events: seq<Event>, key: AllocationKey) {
    forall e :: e in events && e.call.Do? ==> !Unfences(e.call.op, key)
  }

  lemma CrashStepAccounts(sz: Sizes, host: nat, w: World, e: Event, r: Registry, id: DurableId, key: AllocationKey)
    requires Inv(sz, host, w) && ValidCall(e.call) && Durable(sz, host, w.disk) == Some(r)
    requires PendingAgrees(r) && Accounted(r, id, key)
    requires e.call.Do? ==> Consistent(r, e.call.op) && !Unfences(e.call.op, key)
    ensures Inv(sz, host, Next(sz, host, w, e)) && Durable(sz, host, Next(sz, host, w, e).disk).Some?
    ensures var n := Durable(sz, host, Next(sz, host, w, e).disk).value; PendingAgrees(n) && Accounted(n, id, key)
  {
    DurableIsGood(sz, host, w, r);
    hide Next, StepOf, Load, Good, Sound, PendingAgrees, Accounted, OneKeyPerGrant;
    EventRefines(sz, host, w, e, r);
    if !e.call.Initialize? { ConsistentStepAccounts(r, OpOf(e.call), id, key); }
  }

  /** Over every run with errors, crashes and reopens whose prepares are checked, a granted key is still
      bound to its Grant, or it is retired and has no Grant, until its compaction or an epoch rotation. */
  lemma {:induction false} CheckedKeySurvivesCrashes(
    sz: Sizes, host: nat, w: World, events: seq<Event>, r: Registry, id: DurableId, key: AllocationKey)
    requires Inv(sz, host, w) && ValidEvents(events) && Durable(sz, host, w.disk) == Some(r)
    requires PendingAgrees(r) && Accounted(r, id, key)
    requires AlwaysChecked(sz, host, w, events) && NeverUnfenced(events, key)
    ensures var end := Durable(sz, host, Execute(sz, host, w, events).disk); end.Some? && Accounted(end.value, id, key)
    decreases events
  {
    hide Next, Load, Sound, Consistent, PendingAgrees, Accounted;
    if events != [] {
      assert events[0] in events;
      CrashStepAccounts(sz, host, w, events[0], r, id, key);
      var w' := Next(sz, host, w, events[0]);
      CheckedKeySurvivesCrashes(sz, host, w', events[1..], Durable(sz, host, w'.disk).value, id, key);
    }
  }
}
