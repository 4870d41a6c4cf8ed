/** What the coordinator's database and the authority's journal promise together, over whole runs. */
module MachineStoreTheorems {
  import opened Optional
  import opened AuthorityTypes
  import opened AuthorityOps
  import opened AuthorityInvariants
  import Runs = AuthorityRuns
  import opened AuthorityTheorems
  import opened AuthorityKeys
  import opened MachineStore

  // ---- The store meets the authority's conditions --------------------------------------------------

  lemma PendingOfStoreAgrees(r: Registry)
    requires JournalSound(r)
    ensures PendingAgrees(r)
  {
    hide Good, SessionsCurrent;
  }

  /** What an exchange journals: rows its session owns, no new right under a closed authority, and an
      acknowledgement of earlier operations only. */
  lemma ExchangeJournals(w: World, request: Request, c: Command, outcome: Outcome)
    requires Known(w) && w.stage.Idle? && Exchanged(w, request, c, outcome).stage.Journaled?
    ensures var n := Exchanged(w, request, c, outcome);
            var i := n.stage.intent;
            && Decide(w.registry, Machine(PrepareMachineCommit(i))).Publish?
            && n == w.(registry := Runs.StepOf(w.registry, Machine(PrepareMachineCommit(i))), stage := n.stage)
            && ListSound(w.sql.grants, i.grants) && Finishable(i) && i.request == request
            && (forall g :: g in i.grants ==>
                  && Owns(request.session, g.key)
                  && (RegistryBlocker(w.registry).Some? && IsRight(g) ==> IsRight(w.sql.grants[g.key])))
  {
    hide Decide, Runs.StepOf, Applied, Changed, RegistryBlocker, RightsJournaled, ReleasesPending, TableKnown, Agrees;
    var closed := RegistryBlocker(w.registry).Some?;
    if Recorded(w.sql, request).None? {
      ChangedIsSound(w.sql, request.session, closed, c);
      ChangedIsFinishable(w.sql, request, closed, c, outcome);
    }
  }

  lemma LostExchangesNothing(w: World, request: Request, c: Command, outcome: Outcome)
    requires Lost(w)
    ensures Exchanged(w, request, c, outcome) == w
  {
  }

  /** Every commit the store journals passes the check at prepare and can finish. */
  lemma StoreCommitsAreSafe(w: World, request: Request, c: Command, outcome: Outcome)
    requires Inv(w) && w.stage.Idle? && Exchanged(w, request, c, outcome).stage.Journaled?
    ensures var n := Exchanged(w, request, c, outcome);
            var op := Machine(PrepareMachineCommit(n.stage.intent));
            n.registry == Runs.StepOf(w.registry, op) && Consistent(w.registry, op) && Finishable(n.stage.intent)
  {
    hide JournalSound, Runs.StepOf, Decide, Exchanged, Agrees, RightsJournaled, TableKnown, RowsKeyed, ListSound;
    if Lost(w) { LostExchangesNothing(w, request, c, outcome); }
    ExchangeJournals(w, request, c, outcome);
    var i := Exchanged(w, request, c, outcome).stage.intent;
    StorePassesCheck(w.sql.grants, i.grants, w.registry.machinePermissions);
  }

  predicate Lifts(e: Event, key: AllocationKey) { e.CompleteReset? || (e.Authority? && Unfences(e.op, key)) }

  lemma ExchangeAccounts(w: World, request: Request, c: Command, outcome: Outcome, id: DurableId, key: AllocationKey)
    requires Inv(w) && Accounted(w.registry, id, key) && w.stage.Idle?
    requires Exchanged(w, request, c, outcome).stage.Journaled?
    ensures Accounted(Exchanged(w, request, c, outcome).registry, id, key)
  {
    assert Good(w.registry);
    PendingOfStoreAgrees(w.registry);
    hide Inv, Good, Runs.StepOf, Accounted, PendingAgrees, Exchanged;
    StoreCommitsAreSafe(w, request, c, outcome);
    var i := Exchanged(w, request, c, outcome).stage.intent;
    ConsistentStepAccounts(w.registry, Machine(PrepareMachineCommit(i)), id, key);
  }

  lemma OtherAccounts(w: World, op: Op, id: DurableId, key: AllocationKey)
    requires Inv(w) && Accounted(w.registry, id, key) && !Unfences(op, key)
    requires !(op.Machine? && op.commit.PrepareMachineCommit?)
    ensures Accounted(Runs.StepOf(w.registry, op), id, key)
  {
    hide Inv, Good, Runs.StepOf, Accounted, PendingAgrees;
    JournalIsGood(w);
    ConsistentStepAccounts(w.registry, op, id, key);
  }

  lemma EventAccounts(w: World, e: Event, id: DurableId, key: AllocationKey)
    requires Inv(w) && Accounted(w.registry, id, key) && !Lifts(e, key)
    ensures Accounted(Next(w, e).registry, id, key)
  {
    hide Inv, Runs.StepOf, Accounted, Exchanged, Rebuilt, Recovered, Proposed, Withdrawn, Noted, Replaced;
    hide ResetCompleted;
    match e
    case Exchange(request, c, outcome) =>
      ExchangeOrNothing(w, request, c, outcome);
      if w.stage.Idle? && Exchanged(w, request, c, outcome).stage.Journaled? {
        ExchangeAccounts(w, request, c, outcome, id, key);
      }
    case Finish =>
      if w.stage.Committed? {
        OtherAccounts(w, Machine(FinishMachineCommit(w.stage.intent.request.operationId)), id, key);
      }
    case Recover(resetId, reason) =>
      RecoveryRegistry(w, resetId, reason);
      OtherAccounts(w, Coordination(RecordReset(resetId, reason)), id, key);
    case Authority(op) => if IsOther(op) { OtherAccounts(w, op, id, key); }
    case CompleteReset(_, _, _, _) =>
    case _ => CoordinatorIsBound(w); StageLeavesAuthority(w, e);
  }

  lemma JournalIsGood(w: World)
    requires Inv(w)
    ensures Good(w.registry) && PendingAgrees(w.registry)
  {
    hide Good, SessionsCurrent, PendingAgrees;
    PendingOfStoreAgrees(w.registry);
  }

  lemma ExchangeOrNothing(w: World, request: Request, c: Command, outcome: Outcome)
    ensures Exchanged(w, request, c, outcome).stage.Journaled? || Exchanged(w, request, c, outcome) == w
  {
    hide Runs.StepOf, Decide, Changed, Applied;
  }

  lemma RecoveryRegistry(w: World, resetId: Uuid, reason: string)
    ensures var n := Recovered(w, resetId, reason);
            || n.registry == w.registry
            || n == w.(registry := Runs.StepOf(w.registry, Coordination(RecordReset(resetId, reason))))
  {
    hide Runs.StepOf, Disagree, Applied;
  }

  /** So over every run of the store, with crashes anywhere and its database lost and rebuilt, a granted
      key is still bound to its Grant, or it is retired and has no Grant, until its compaction or an epoch
      rotation. */
  lemma {:induction false} StoreKeysStayAccounted(w: World, events: seq<Event>, id: DurableId, key: AllocationKey)
    requires Inv(w) && Accounted(w.registry, id, key) && forall e :: e in events ==> !Lifts(e, key)
    ensures Accounted(Run(w, events).registry, id, key)
    decreases events
  {
    hide Inv, Next, Accounted, Lifts;
    if events != [] {
      EventKeepsInv(w, events[0]);
      EventAccounts(w, events[0], id, key);
      StoreKeysStayAccounted(Next(w, events[0]), events[1..], id, key);
    }
  }

  // ---- A release is final --------------------------------------------------------------------------

  predicate ReleasedRow(w: World, k: AllocationKey) { k in w.sql.grants && w.sql.grants[k].state == Released }

  /** Whatever Grant the key still has is being released. */
  predicate Leaving(r: Registry, k: AllocationKey) {
    forall id :: id in r.machinePermissions && r.machinePermissions[id].key == k ==>
      exists g :: g in PendingGrants(r) && g.grantId == id && g.state == Released
  }

  /** The key can gain no right: its row is released, or the row is gone and something else is in the way,
      the missing database, the reset gate, or the epoch no session carries any more. */
  predicate Spent(w: World, k: AllocationKey) {
    && Leaving(w.registry, k)
    && (ReleasedRow(w, k) || Lost(w) || Gated(w.registry) || w.registry.epoch != k.authorityEpoch)
  }

  lemma ReleasedIsSpent(w: World, k: AllocationKey)
    requires Inv(w) && ReleasedRow(w, k)
    ensures Spent(w, k)
  {
    hide JournalSound, Agrees, ReceiptsOrdered, StageSound;
    forall id | id in w.registry.machinePermissions && w.registry.machinePermissions[id].key == k
      ensures exists g :: g in PendingGrants(w.registry) && g.grantId == id && g.state == Released
    {
      assert w.sql.grants[k] in PendingGrants(w.registry) && w.sql.grants[k].grantId == id;
    }
  }

  /** A list without a live entry under the key leaves a key without a Grant without one. */
  lemma AdmissionSpares(table: Table, retired: set<AllocationKey>, list: seq<Grant>, k: AllocationKey)
    requires AdmitGrants(table, retired, list).Some? && forall g :: g in list && g.key == k ==> g.state == Released
    requires forall id :: id in table ==> table[id].key != k
    ensures forall id :: id in AdmitGrants(table, retired, list).value ==>
              AdmitGrants(table, retired, list).value[id].key != k
  {
    forall id | id in AdmitGrants(table, retired, list).value
      ensures AdmitGrants(table, retired, list).value[id].key != k
    {
      AdmittedKey(table, retired, list, id);
      LiveKeyIsJournaled(list, id);
    }
  }

  /** No reason for a key to be spent lets a command list it alive. */
  lemma SpentIsNotListed(w: World, request: Request, list: seq<Grant>, k: AllocationKey)
    requires Known(w) && Spent(w, k) && !Lost(w) && w.registry.pendingCommit.None?
    requires ListSound(w.sql.grants, list) && request.session.authorityEpoch == w.registry.epoch
    requires forall g :: g in list ==>
               && Owns(request.session, g.key)
               && (RegistryBlocker(w.registry).Some? && IsRight(g) ==> IsRight(w.sql.grants[g.key]))
    ensures forall g :: g in list && g.key == k ==> g.state == Released
    ensures forall id :: id in w.registry.machinePermissions ==> w.registry.machinePermissions[id].key != k
  {
    hide Agrees, ReceiptsOrdered, StageSound, ReleasesPending;
  }

  lemma ExchangeSpares(w: World, request: Request, c: Command, outcome: Outcome, k: AllocationKey)
    requires Inv(w) && Spent(w, k) && w.stage.Idle? && request.operationId != NIL
    requires Exchanged(w, request, c, outcome).stage.Journaled?
    ensures var n := Exchanged(w, request, c, outcome);
            Spent(n, k) && NoNewRights(w.registry.machinePermissions, n.registry.machinePermissions, k)
  {
    if Lost(w) { LostExchangesNothing(w, request, c, outcome); }
    assert Good(w.registry) && SessionsCurrent(w.registry);
    hide Good, SessionsCurrent, Runs.StepOf, Decide, Exchanged, AdmitGrants, RowsSound, ListSound, Agrees;
    hide RegistryBlocker;
    ExchangeJournals(w, request, c, outcome);
    var r, i := w.registry, Exchanged(w, request, c, outcome).stage.intent;
    PreparedRegistry(r, i);
    if r.pendingCommit.None? {
      SpentIsNotListed(w, request, i.grants, k);
      AdmissionSpares(r.machinePermissions, r.retiredAllocations, i.grants, k);
    }
  }

  lemma FinishSpares(w: World, k: AllocationKey)
    requires Inv(w) && Spent(w, k) && w.stage.Committed?
    ensures var n := Next(w, Finish);
            Spent(n, k) && NoNewRights(w.registry.machinePermissions, n.registry.machinePermissions, k)
  {
    hide Good, SessionsCurrent, Runs.StepOf, RowsSound, ReceiptsOrdered, Agrees, ListMatches, InRows;
    FinishedRegistry(w.registry, w.stage.intent);
  }

  lemma OtherSpares(w: World, op: Op, k: AllocationKey)
    requires Inv(w) && Spent(w, k) && IsOther(op)
    ensures var n := w.(registry := Runs.StepOf(w.registry, op));
            Spent(n, k) && NoNewRights(w.registry.machinePermissions, n.registry.machinePermissions, k)
  {
    hide JournalSound, Known, Runs.StepOf;
    assert w.registry.coordinator.Some? by { CoordinatorIsBound(w); }
    OtherOpsKeepTable(w.registry, op);
    OtherServes(w.registry, op, w.store);
    OtherKeepsEpoch(w.registry, op);
    if Gated(w.registry) { GateStep(w.registry, op); }
  }

  lemma CoordinatorIsBound(w: World)
    requires Inv(w)
    ensures w.registry.coordinator.Some?
  {
  }

  lemma OtherKeepsEpoch(r: Registry, op: Op)
    requires !CompletesReset(op)
    ensures Runs.StepOf(r, op).epoch == r.epoch
  {
    hide DecideNative, DecidePeer, DecideHolding, DecideMachine;
  }

  lemma ResetSpares(w: World, expected: Snapshot, generation: Uuid, process: nat, newEpoch: Uuid, k: AllocationKey)
    requires Inv(w) && Spent(w, k) && newEpoch != k.authorityEpoch
    ensures var n := ResetCompleted(w, expected, generation, process, newEpoch);
            Spent(n, k) && NoNewRights(w.registry.machinePermissions, n.registry.machinePermissions, k)
  {
    var op := Coordination(CoordinatorOp.CompleteReset(expected, w.store, generation, process, newEpoch));
    hide JournalSound, Known, Runs.StepOf, ValidInput;
    OtherOpsKeepTable(w.registry, op);
    ResetRotates(w.registry, op);
  }

  lemma ResetRotates(r: Registry, op: Op)
    requires CompletesReset(op)
    ensures Runs.StepOf(r, op) == r || Runs.StepOf(r, op).epoch == op.coordination.newEpoch
  {
  }

  lemma SaveSpares(rows: Rows, list: seq<Grant>, k: AllocationKey)
    requires RowsKeyed(rows) && ListSound(rows, list) && k in rows && rows[k].state == Released
    ensures k in Save(rows, list) && Save(rows, list)[k].state == Released
  {
    SaveKeeps(rows, list);
  }

  lemma ExchangeLeavesRows(w: World, request: Request, c: Command, outcome: Outcome)
    ensures Exchanged(w, request, c, outcome).sql == w.sql
  {
    hide Runs.StepOf, Decide, Changed, Applied;
  }

  lemma RecoveryKeepsReleased(w: World, resetId: Uuid, reason: string, k: AllocationKey)
    requires Known(w) && ReleasedRow(w, k)
    ensures ReleasedRow(Recovered(w, resetId, reason), k)
  {
    hide Runs.StepOf, Agrees, ReceiptsOrdered, StageSound, Save, Disagree, Serves;
    SaveSpares(w.sql.grants, PendingGrants(w.registry), k);
  }

  lemma CommitKeepsReleased(w: World, k: AllocationKey)
    requires Known(w) && ReleasedRow(w, k) && w.stage.Journaled?
    ensures ReleasedRow(Next(w, Commit), k)
  {
    hide Agrees, ReceiptsOrdered, Save, Serves;
    SaveSpares(w.sql.grants, PendingGrants(w.registry), k);
  }

  lemma PlainLeavesRows(sql: Sql, request: Request, outcome: Outcome)
    ensures Applied(sql, Intent(request, outcome, [])).grants == sql.grants
  {
  }

  /** Only a rebuild or the loss of the database takes a released row away. */
  lemma RowStaysReleased(w: World, e: Event, k: AllocationKey)
    requires Inv(w) && ReleasedRow(w, k) && !e.Rebuild? && !e.Replace?
    ensures ReleasedRow(Next(w, e), k)
  {
    hide JournalSound, Known, Runs.StepOf, Exchanged, Recovered, Applied;
    match e
    case Exchange(request, c, outcome) => ExchangeLeavesRows(w, request, c, outcome);
    case Recover(resetId, reason) => RecoveryKeepsReleased(w, resetId, reason, k);
    case Commit => if w.stage.Journaled? { CommitKeepsReleased(w, k); }
    case Plain(request, outcome) => PlainLeavesRows(w.sql, request, outcome);
    case _ =>
  }

  lemma RecoverSpares(w: World, resetId: Uuid, reason: string, k: AllocationKey)
    requires Inv(w) && Spent(w, k) && w.stage.Idle? && resetId != NIL && ValidReason(reason)
    ensures var n := Next(w, Recover(resetId, reason));
            Spent(n, k) && NoNewRights(w.registry.machinePermissions, n.registry.machinePermissions, k)
  {
    hide Inv, Known, Runs.StepOf, Recovered, Leaving;
    RecoveryRegistry(w, resetId, reason);
    if ReleasedRow(w, k) { RowStaysReleased(w, Recover(resetId, reason), k); }
    if Lost(w) { LostRecoversNothing(w, resetId, reason); }
    OtherSpares(w, Coordination(RecordReset(resetId, reason)), k);
  }

  lemma LostRecoversNothing(w: World, resetId: Uuid, reason: string)
    requires Lost(w)
    ensures Recovered(w, resetId, reason) == w
  {
  }

  lemma SpentStep(w: World, e: Event, k: AllocationKey)
    requires Inv(w) && Spent(w, k) && (e.CompleteReset? ==> e.newEpoch != k.authorityEpoch)
    ensures Spent(Next(w, e), k)
    ensures NoNewRights(w.registry.machinePermissions, Next(w, e).registry.machinePermissions, k)
  {
    if ReleasedRow(w, k) && !e.Rebuild? && !e.Replace? { RowStaysReleased(w, e, k); }
    hide Inv, Known, Runs.StepOf, Exchanged, Recovered, ResetCompleted, Applied;
    match e
    case Exchange(request, c, outcome) =>
      if w.stage.Idle? && request.operationId != NIL { ExchangeSparesAlways(w, request, c, outcome, k); }
    case Finish => if w.stage.Committed? { FinishSpares(w, k); }
    case Recover(resetId, reason) =>
      if w.stage.Idle? && resetId != NIL && ValidReason(reason) { RecoverSpares(w, resetId, reason, k); }
    case CompleteReset(expected, generation, process, newEpoch) =>
      ResetSpares(w, expected, generation, process, newEpoch, k);
    case Authority(op) => if IsOther(op) { OtherSpares(w, op, k); }
    case _ => StageSpares(w, e, k);
  }

  lemma ExchangeSparesAlways(w: World, request: Request, c: Command, outcome: Outcome, k: AllocationKey)
    requires Inv(w) && Spent(w, k) && w.stage.Idle? && request.operationId != NIL
    ensures var n := Exchanged(w, request, c, outcome);
            Spent(n, k) && NoNewRights(w.registry.machinePermissions, n.registry.machinePermissions, k)
  {
    hide Inv, Runs.StepOf, Decide, Changed, Applied;
    hide Exchanged, Spent;
    if Exchanged(w, request, c, outcome).stage.Journaled? {
      ExchangeSpares(w, request, c, outcome, k);
    } else {
      ExchangeOrNothing(w, request, c, outcome);
    }
  }

  lemma RebuildNeedsGate(w: World)
    ensures Rebuilt(w).registry == w.registry && (Rebuilt(w) == w || Gated(w.registry))
  {
    hide Overlay, RowsOf, Resumed, AllCommitted;
  }

  /** The events that leave the authority alone. */
  lemma StageSpares(w: World, e: Event, k: AllocationKey)
    requires Inv(w) && Spent(w, k) && (ReleasedRow(w, k) && !e.Rebuild? && !e.Replace? ==> ReleasedRow(Next(w, e), k))
    requires e.Offer? || e.Expire? || e.Plain? || e.Commit? || e.Crash? || e.Rebuild? || e.Replace?
    ensures Spent(Next(w, e), k)
    ensures NoNewRights(w.registry.machinePermissions, Next(w, e).registry.machinePermissions, k)
  {
    CoordinatorIsBound(w);
    hide Inv, Known, Lost, ReleasedRow, Leaving, Next;
    StageLeavesAuthority(w, e);
    if Lost(w) && !e.Rebuild? && !e.Replace? { LostIgnores(w, e); }
  }

  lemma StageLeavesAuthority(w: World, e: Event)
    requires w.registry.coordinator.Some?
    requires e.Offer? || e.Expire? || e.Plain? || e.Commit? || e.Crash? || e.Rebuild? || e.Replace?
    ensures Next(w, e).registry == w.registry
    ensures e.Rebuild? ==> Next(w, e) == w || Gated(w.registry)
    ensures e.Replace? ==> Next(w, e) == w || Lost(Next(w, e))
  {
    hide Applied, Rebuilt;
    RebuildNeedsGate(w);
  }

  lemma LostIgnores(w: World, e: Event)
    requires Lost(w) && (e.Offer? || e.Expire? || e.Plain? || e.Commit? || e.Crash?)
    ensures Next(w, e) == w
  {
  }

  predicate RotatesAwayFrom(e: Event, k: AllocationKey) { e.CompleteReset? ==> e.newEpoch != k.authorityEpoch }

  lemma {:induction false} SpentForever(w: World, events: seq<Event>, k: AllocationKey)
    requires Inv(w) && Spent(w, k) && forall e :: e in events ==> RotatesAwayFrom(e, k)
    ensures Spent(Run(w, events), k)
    ensures NoNewRights(w.registry.machinePermissions, Run(w, events).registry.machinePermissions, k)
    decreases events
  {
    hide Inv, Next, Spent;
    if events != [] {
      assert RotatesAwayFrom(events[0], k);
      EventKeepsInv(w, events[0]);
      SpentStep(w, events[0], k);
      SpentForever(Next(w, events[0]), events[1..], k);
    }
  }

  /** A key the database holds as released gets no new right in any run: not after its compaction, not
      after its row is lost or left out of a rebuild, not after an epoch rotation to another epoch. The
      row itself stays until the database is rebuilt or replaced. */
  lemma {:induction false} ReleasedKeyNeverReturns(w: World, events: seq<Event>, k: AllocationKey)
    requires Inv(w) && ReleasedRow(w, k) && forall e :: e in events ==> RotatesAwayFrom(e, k)
    ensures NoNewRights(w.registry.machinePermissions, Run(w, events).registry.machinePermissions, k)
    ensures (forall e :: e in events ==> !e.Rebuild? && !e.Replace?) ==> ReleasedRow(Run(w, events), k)
    decreases events
  {
    hide Inv, Next, Spent, ReleasedRow;
    ReleasedIsSpent(w, k);
    SpentForever(w, events, k);
    if events != [] && forall e :: e in events ==> !e.Rebuild? && !e.Replace? {
      assert events[0] in events;
      EventKeepsInv(w, events[0]);
      RowStaysReleased(w, events[0], k);
      ReleasedKeyNeverReturns(Next(w, events[0]), events[1..], k);
    }
  }

  // ---- Recovery --------------------------------------------------------------------------------------

  /** Recovery closes admission if and only if the journaled operation is a replayed acknowledgement,
      without Grants, that its domain has since moved past; journal and database never disagree otherwise. */
  lemma RecoveryDisagreesIff(w: World)
    requires Inv(w) && Recoverable(w)
    ensures var i := w.registry.pendingCommit.value;
            Disagree(w.sql, i) <==>
              && Slot(i) in w.sql.operations && w.sql.accepted[i.request.session.domainId] > i.request.sequence
              && i.outcome.Acknowledged? && i.grants == []
  {
    hide JournalSound, RightsJournaled, TableKnown, ReleasesPending, RowsKeyed, StageSound;
  }

  /** Otherwise recovery and one finish complete the operation, whatever step had been lost. */
  lemma RecoveryCompletes(w: World, resetId: Uuid, reason: string)
    requires Inv(w) && w.stage.Idle? && Recoverable(w) && resetId != NIL && ValidReason(reason)
    requires !Disagree(w.sql, w.registry.pendingCommit.value)
    ensures var i := w.registry.pendingCommit.value;
            var n := Next(Next(w, Recover(resetId, reason)), Finish);
            && n.stage.Idle? && n.registry.pendingCommit.None?
            && Slot(i) in n.sql.operations && n.sql.operations[Slot(i)] == OperationOf(i)
            && InRows(n.sql.grants, i.grants)
  {
    hide Inv, Known, JournalSound, Runs.StepOf, Recovered, Serves, Disagree, InRows;
    RecoveredState(w, resetId, reason);
    RecoverKeeps(w, resetId, reason);
    FinishKeeps(Next(w, Recover(resetId, reason)));
  }

  lemma RecoveredState(w: World, resetId: Uuid, reason: string)
    requires Inv(w) && Recoverable(w) && !Disagree(w.sql, w.registry.pendingCommit.value)
    ensures var i := w.registry.pendingCommit.value;
            var n := Recovered(w, resetId, reason);
            && JournalSound(w.registry) && Known(w) && n.registry == w.registry && n.stage == Committed(i)
            && Slot(i) in n.sql.operations && n.sql.operations[Slot(i)] == OperationOf(i)
            && InRows(n.sql.grants, i.grants)
  {
    hide JournalSound, Runs.StepOf, TableKnown, RightsJournaled, ReleasesPending, ReceiptsOrdered;
    SaveKeeps(w.sql.grants, PendingGrants(w.registry));
  }

  /** The authority lets this store rebuild its rows. */
  predicate MayRebuild(r: Registry) {
    Gated(r) && r.nativeCoverage == Some(r.coordinator.value.store) && AllCommitted(r.participants)
  }

  lemma RebuiltState(w: World)
    requires Inv(w) && w.stage.Idle? && MayRebuild(w.registry) && w.registry.pendingCommit.Some?
    ensures var i := w.registry.pendingCommit.value;
            var n := Rebuilt(w);
            && JournalSound(w.registry) && Known(n) && n.registry == w.registry && n.stage == Committed(i)
            && n.sql.operations == map[Slot(i) := OperationOf(i)] && InRows(n.sql.grants, i.grants)
  {
    hide RowsSound, ReceiptsOrdered, Agrees, Resumed, RowsOf, Overlay, JournalSound, InRows;
    RebuildKeeps(w);
    RebuiltRowsAreSound(w.registry);
  }

  /** Under a gate the rebuild does the same, from no database at all if need be: the pending commit
      finishes with its receipt and Grants, every other permission is a row again, and nothing else is. */
  lemma RebuildCompletes(w: World)
    requires Inv(w) && w.stage.Idle? && MayRebuild(w.registry) && w.registry.pendingCommit.Some?
    ensures var i := w.registry.pendingCommit.value;
            var n := Next(Next(w, Rebuild), Finish);
            && Inv(n) && Known(n) && n.stage.Idle? && n.registry.pendingCommit.None?
            && n.sql.operations == map[Slot(i) := OperationOf(i)] && InRows(n.sql.grants, i.grants)
            && (forall id :: id in n.registry.machinePermissions ==>
                  var k := n.registry.machinePermissions[id].key;
                  k in n.sql.grants && n.sql.grants[k].grantId == id && n.sql.grants[k].state != Released)
  {
    hide Inv, Known, Runs.StepOf, Rebuilt, MayRebuild, JournalSound, InRows;
    RebuiltState(w);
    FinishKeeps(Next(w, Rebuild));
    KnownTable(Next(Next(w, Rebuild), Finish));
  }

  lemma KnownTable(w: World)
    requires Known(w) && w.registry.pendingCommit.None?
    ensures forall id :: id in w.registry.machinePermissions ==>
              var k := w.registry.machinePermissions[id].key;
              k in w.sql.grants && w.sql.grants[k].grantId == id && w.sql.grants[k].state != Released
  {
    hide Agrees, ReceiptsOrdered, StageSound;
  }

  // ---- When a lost replay closes admission ---------------------------------------------------------

  /** The request repeats an acknowledgement the database still holds and its domain has moved past. */
  predicate ReplaysOld(sql: Sql, request: Request) {
    var op := Recorded(sql, request);
    && op.Some? && op.value.operationId == request.operationId && op.value.payload == request.detail
    && op.value.outcome.Acknowledged?
    && request.session.domainId in sql.accepted && sql.accepted[request.session.domainId] > request.sequence
  }

  /** An exchange cut before its SQL commit, then recovered. */
  function Cut(w: World, request: Request, c: Command, outcome: Outcome, resetId: Uuid, reason: string): World {
    Run(w, [Exchange(request, c, outcome), Crash, Recover(resetId, reason)])
  }

  lemma CutSteps(w: World, request: Request, c: Command, outcome: Outcome, resetId: Uuid, reason: string)
    ensures Cut(w, request, c, outcome, resetId, reason)
            == Next(Next(Next(w, Exchange(request, c, outcome)), Crash), Recover(resetId, reason))
  {
    hide Next;
    var recover := [Recover(resetId, reason)];
    var e := [Exchange(request, c, outcome), Crash, Recover(resetId, reason)];
    var a := Next(w, e[0]);
    assert e[1..] == [Crash] + recover && ([Crash] + recover)[1..] == recover && recover[1..] == [];
    assert Run(w, e) == Run(a, [Crash] + recover) == Run(Next(a, Crash), recover);
    assert Run(Next(a, Crash), recover) == Run(Next(Next(a, Crash), recover[0]), []);
  }

  lemma PreparesBare(r: Registry, i: Intent)
    requires r.pendingCommit.None? && i.grants == []
    ensures var op := Machine(PrepareMachineCommit(i));
            && (Decide(r, op).Publish? <==> LiveSession(r, i.request.session))
            && (Decide(r, op).Publish? ==>
                  Runs.StepOf(r, op).pendingCommit == Some(i) && Runs.StepOf(r, op).coordinator == r.coordinator)
  {
  }

  lemma ResetGates(r: Registry, resetId: Uuid, reason: string)
    requires r.coordinator.Some?
    ensures Gated(Runs.StepOf(r, Coordination(RecordReset(resetId, reason))))
  {
  }

  lemma ReplayGates(w: World, request: Request, c: Command, outcome: Outcome, resetId: Uuid, reason: string)
    requires Inv(w) && w.stage.Idle? && LiveSession(w.registry, request.session) && Serves(w.registry, w.store)
    requires request.operationId != NIL && resetId != NIL && ValidReason(reason) && ReplaysOld(w.sql, request)
    ensures Gated(Cut(w, request, c, outcome, resetId, reason).registry)
  {
    hide JournalSound, Known, Runs.StepOf, Decide, Applied, Cut;
    CutSteps(w, request, c, outcome, resetId, reason);
    var i := Intent(request, Recorded(w.sql, request).value.outcome, []);
    PreparesBare(w.registry, i);
    var a := Next(w, Exchange(request, c, outcome));
    assert a == w.(registry := Runs.StepOf(w.registry, Machine(PrepareMachineCommit(i))), stage := Journaled(i, w.sql));
    var b := Next(a, Crash);
    assert Recoverable(b) && Disagree(b.sql, i);
    ResetGates(b.registry, resetId, reason);
  }

  /** The world after the crash: nothing journaled, or exactly this exchange and no more. */
  lemma CutState(w: World, request: Request, c: Command, outcome: Outcome)
    requires Inv(w) && Known(w) && w.stage.Idle? && w.registry.pendingCommit.None? && request.operationId != NIL
    ensures var a := Next(w, Exchange(request, c, outcome));
            var b := Next(a, Crash);
            && Inv(b) && b.stage.Idle? && b.store == w.store
            && (a.stage.Journaled? ==>
                  && a == Exchanged(w, request, c, outcome) && b.sql == w.sql
                  && b.registry.pendingCommit == Some(a.stage.intent)
                  && b.registry.coordinator == w.registry.coordinator
                  && LiveSession(w.registry, request.session))
            && (!a.stage.Journaled? ==> b == w)
  {
    hide Inv, Known, Runs.StepOf, Decide, Exchanged, LiveSession, Serves;
    var a := Next(w, Exchange(request, c, outcome));
    EventKeepsInv(w, Exchange(request, c, outcome));
    EventKeepsInv(a, Crash);
    ExchangeOrNothing(w, request, c, outcome);
    if a.stage.Journaled? {
      ExchangeJournals(w, request, c, outcome);
      PublishedPrepare(w.registry, a.stage.intent);
    }
  }

  lemma CutElsewhereServes(w: World, request: Request, c: Command, outcome: Outcome, resetId: Uuid, reason: string)
    requires Inv(w) && w.stage.Idle? && Serves(w.registry, w.store) && w.registry.pendingCommit.None?
    requires request.operationId != NIL && resetId != NIL && ValidReason(reason)
    requires Gated(Cut(w, request, c, outcome, resetId, reason).registry)
    ensures LiveSession(w.registry, request.session) && ReplaysOld(w.sql, request)
  {
    assert Known(w);
    hide Inv, Known, Runs.StepOf, Cut, Exchanged, Disagree, LiveSession, Applied;
    CutSteps(w, request, c, outcome, resetId, reason);
    CutState(w, request, c, outcome);
    var a := Next(w, Exchange(request, c, outcome));
    var b := Next(a, Crash);
    if a.stage.Journaled? {
      RecoveryDisagreesIff(b);
      ReplayedReceipt(w, request, c, outcome);
    }
  }

  lemma PublishedPrepare(r: Registry, i: Intent)
    requires r.pendingCommit.None? && Decide(r, Machine(PrepareMachineCommit(i))).Publish?
    ensures LiveSession(r, i.request.session)
    ensures var n := Runs.StepOf(r, Machine(PrepareMachineCommit(i)));
            n.pendingCommit == Some(i) && n.coordinator == r.coordinator
  {
    hide AdmitGrants;
  }

  lemma ReplayedReceipt(w: World, request: Request, c: Command, outcome: Outcome)
    requires w.stage.Idle? && Exchanged(w, request, c, outcome).stage.Journaled?
    ensures var i := Exchanged(w, request, c, outcome).stage.intent;
            i.request == request
            && (Slot(i) in w.sql.operations ==>
                  var op := Recorded(w.sql, request);
                  op.Some? && op.value.operationId == request.operationId && op.value.payload == request.detail
                  && op.value.outcome.Acknowledged?)
  {
    hide Runs.StepOf, Decide, Changed, Applied;
  }

  /** Known before the call: an exchange that dies before its SQL commit makes the next recovery close
      admission if and only if its live session repeats an acknowledgement the domain has moved past. */
  lemma CutExchangeGatesIff(w: World, request: Request, c: Command, outcome: Outcome, resetId: Uuid, reason: string)
    requires Inv(w) && w.stage.Idle? && Serves(w.registry, w.store) && w.registry.pendingCommit.None?
    requires request.operationId != NIL && resetId != NIL && ValidReason(reason)
    ensures Gated(Cut(w, request, c, outcome, resetId, reason).registry)
            <==> LiveSession(w.registry, request.session) && ReplaysOld(w.sql, request)
  {
    hide Inv, Cut, Serves, LiveSession, ReplaysOld;
    if Gated(Cut(w, request, c, outcome, resetId, reason).registry) {
      CutElsewhereServes(w, request, c, outcome, resetId, reason);
    }
    if LiveSession(w.registry, request.session) && ReplaysOld(w.sql, request) {
      ReplayGates(w, request, c, outcome, resetId, reason);
    }
  }

  /** An open authority bound to an empty store in which one paired domain has accepted nothing yet. */
  predicate FirstContact(w: World, s: Session) {
    && Good(w.registry) && SessionsCurrent(w.registry) && LiveSession(w.registry, s) && Serves(w.registry, w.store)
    && w.registry.machinePermissions == map[] && w.stage.Idle?
    && w.sql == Sql(map[], map[], map[s.domainId := 0], map[s.domainId := 0])
  }

  lemma FinishKeepsSession(r: Registry, i: Intent, s: Session)
    requires r.pendingCommit == Some(i) && Finishable(i) && s.domainId in r.participants && i.request.session == s
    requires r.participants[s.domainId].committed && r.participants[s.domainId].session == Some(s)
    ensures var n := Runs.StepOf(r, Machine(FinishMachineCommit(i.request.operationId)));
            LiveSession(n, s) && n.coordinator == r.coordinator
  {
  }

  lemma PrepareKeepsSession(r: Registry, i: Intent, s: Session)
    requires LiveSession(r, s) && i.request.session == s && i.grants == []
    ensures var n := Runs.StepOf(r, Machine(PrepareMachineCommit(i)));
            n.participants == r.participants && n.pendingCommit == Some(i) && n.coordinator == r.coordinator
  {
  }

  /** The first operation acknowledges, the second one moves the domain on. */
  function AcknowledgeAndMoveOn(w: World, first: Request, second: Request, outcome: Outcome): World {
    Next(Next(Next(Next(w, Exchange(first, Acknowledge(0), outcome)), Commit), Finish), Plain(second, outcome))
  }

  lemma FirstContactReachesReplay(w: World, first: Request, second: Request, outcome: Outcome)
    requires FirstContact(w, first.session) && first.sequence == 1 && first.operationId != NIL
    requires second.session == first.session && second.sequence == 2 && !outcome.Acknowledged?
    ensures var n := AcknowledgeAndMoveOn(w, first, second, outcome);
            && n.stage.Idle? && n.store == w.store && LiveSession(n.registry, first.session)
            && n.registry.coordinator == w.registry.coordinator && ReplaysOld(n.sql, first)
  {
    hide Good, SessionsCurrent, Runs.StepOf, Decide;
    var s := first.session;
    var i := Intent(first, Acknowledged(0), []);
    PreparesBare(w.registry, i);
    PrepareKeepsSession(w.registry, i, s);
    var a := Next(w, Exchange(first, Acknowledge(0), outcome));
    assert a == w.(registry := Runs.StepOf(w.registry, Machine(PrepareMachineCommit(i))),
                   stage := Journaled(i, Applied(w.sql, i)));
    FinishKeepsSession(a.registry, i, s);
    var c := Next(Next(a, Commit), Finish);
    assert c.sql == Applied(w.sql, i) && c.sql.accepted[s.domainId] == 1;
    assert c.sql.operations == map[(s.domainId, 1) := OperationOf(i)];
  }

  /** It does happen, from an empty store on: the acknowledgement is replayed once the domain has moved on,
      the process dies, and the next recovery closes admission. */
  lemma LostReplayGatesFreshStore(
    w: World, first: Request, second: Request, outcome: Outcome, resetId: Uuid, reason: string)
    requires FirstContact(w, first.session) && first.sequence == 1 && first.operationId != NIL
    requires second.session == first.session && second.sequence == 2 && !outcome.Acknowledged?
    requires resetId != NIL && ValidReason(reason)
    ensures var n := AcknowledgeAndMoveOn(w, first, second, outcome);
            Gated(Cut(n, first, Acknowledge(0), outcome, resetId, reason).registry)
  {
    FreshStoreIsSound(w);
    FirstContactReachesReplay(w, first, second, outcome);
    hide Inv, Next, Cut, ReplaysOld;
    EventKeepsInv(w, Exchange(first, Acknowledge(0), outcome));
    var a := Next(w, Exchange(first, Acknowledge(0), outcome));
    EventKeepsInv(a, Commit);
    EventKeepsInv(Next(a, Commit), Finish);
    EventKeepsInv(Next(Next(a, Commit), Finish), Plain(second, outcome));
    var n := AcknowledgeAndMoveOn(w, first, second, outcome);
    CutExchangeGatesIff(n, first, Acknowledge(0), outcome, resetId, reason);
  }
}
