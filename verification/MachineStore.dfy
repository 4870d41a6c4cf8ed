/**
 The coordinator's database beside the authority's journal. A machine operation is
 computed in an open transaction, journaled, committed and finished; the process may
 die between any two of these, and an open transaction dies with it. The authority
 is taken at its atomic effects, which is what its runs with crashes refine to. The
 database may be lost and replaced; it is rebuilt from the authority under a reset gate.
 */
module MachineStore {
  import opened Optional
  import opened AuthorityTypes
  import opened AuthorityOps
  import opened AuthorityInvariants
  import opened AuthorityRuns
  import opened AuthorityTheorems
  import opened AuthorityKeys

  // ---- Data ------------------------------------------------------------------------------------

  type Table = map<DurableId, Grant>
  type Rows = map<AllocationKey, Grant>

  datatype Operation = Operation(operationId: Uuid, payload: nat, outcome: Outcome)

  /** The rows that matter here: one Grant per allocation key, the retained operations of each domain
      and its accepted sequence. */
  datatype Sql = Sql(
    grants: Rows, operations: map<(Uuid, nat), Operation>, accepted: map<Uuid, nat>, floors: map<Uuid, nat>)

  const EMPTY := Sql(map[], map[], map[], map[])

  /** Where the store is between the effects of one call. */
  datatype Stage = Idle | Journaled(intent: Intent, after: Sql) | Committed(intent: Intent)

  /** `inventory` is the reset for which the machine rows were last rebuilt. */
  datatype World = World(store: Uuid, sql: Sql, inventory: Option<Uuid>, registry: Registry, stage: Stage)

  /** The commands whose outcome is journaled. `Reconcile` releases what a snapshot seals. */
  datatype Command =
    | Arm(key: AllocationKey) | Report(key: AllocationKey, detail: nat) | Authorize(key: AllocationKey, detail: nat)
    | Release(key: AllocationKey, detail: nat) | Reconcile(keys: seq<AllocationKey>, detail: nat)
    | Acknowledge(through: nat)

  datatype Event =
    | Offer(key: AllocationKey, grantId: DurableId, nonce: Uuid, detail: nat)
    | Expire(key: AllocationKey)
    | Plain(request: Request, outcome: Outcome)
    | Exchange(request: Request, command: Command, outcome: Outcome)
    | Commit | Finish | Recover(resetId: Uuid, reason: string) | Crash
    | Replace(newStore: Uuid) | Rebuild
    | CompleteReset(expected: Snapshot, generation: Uuid, process: nat, newEpoch: Uuid)
    | Authority(op: Op)

  // ---- Transactions ----------------------------------------------------------------------------

  predicate IsRight(g: Grant) { g.state == Armed || g.state == Uncertain }

  predicate Journals(g: Grant) { IsRight(g) || g.state == Released }

  function Save(grants: Rows, list: seq<Grant>): Rows
    decreases list
  {
    if list == [] then grants else Save(grants[list[0].key := list[0]], list[1..])
  }

  /** The Grant a release leaves, if the key has a potentially used one. */
  function Sealed(grants: Rows, key: AllocationKey, detail: nat): Option<Grant> {
    if key in grants && Journals(grants[key]) then Some(grants[key].(state := Released, detail := detail)) else None
  }

  function ReleasedAll(grants: Rows, keys: seq<AllocationKey>, detail: nat): Option<seq<Grant>> {
    if keys == [] then Some([])
    else
      var first := Sealed(grants, keys[0], detail);
      var rest := ReleasedAll(grants, keys[1..], detail);
      if first.Some? && rest.Some? then Some([first.value] + rest.value) else None
  }

  /** A session acts only on allocations of its own machine, epoch, domain and store. */
  predicate Owns(s: Session, key: AllocationKey) {
    && s.machineId == key.machineId && s.authorityEpoch == key.authorityEpoch
    && s.domainId == key.domainId && s.managerStore == key.managerStore && key.leaseId != NIL
  }

  predicate OwnsTarget(s: Session, c: Command) {
    match c
    case Reconcile(keys, _) => forall k :: k in keys ==> Owns(s, k)
    case Acknowledge(_) => true
    case _ => Owns(s, c.key)
  }

  /** The Grants an owned command changes and journals, or None when it is rejected. A closed authority
      admits no new right. */
  function Changed(sql: Sql, domain: Uuid, closed: bool, c: Command): Option<seq<Grant>> {
    match c
    case Arm(key) =>
      if key !in sql.grants then None
      else if IsRight(sql.grants[key]) then Some([sql.grants[key]])
      else if sql.grants[key].state == Offered && !closed then Some([sql.grants[key].(state := Armed)])
      else None
    case Report(key, detail) =>
      if key !in sql.grants || !IsRight(sql.grants[key]) then None
      else Some([sql.grants[key].(state := Uncertain, detail := detail)])
    case Authorize(key, detail) =>
      if key !in sql.grants || sql.grants[key].state != Armed || closed then None
      else Some([sql.grants[key].(detail := detail)])
    case Release(key, detail) =>
      var g := Sealed(sql.grants, key, detail);
      if g.Some? then Some([g.value]) else None
    case Reconcile(keys, detail) => ReleasedAll(sql.grants, keys, detail)
    case Acknowledge(through) =>
      if domain !in sql.accepted || domain !in sql.floors then None
      else if sql.floors[domain] <= through <= sql.accepted[domain] then Some([])
      else None
  }

  function OutcomeOf(c: Command, outcome: Outcome): Outcome {
    if c.Acknowledge? then Acknowledged(c.through) else if outcome.Acknowledged? then OtherOutcome(0) else outcome
  }

  function OperationOf(i: Intent): Operation { Operation(i.request.operationId, i.request.detail, i.outcome) }

  function Slot(i: Intent): (Uuid, nat) { (i.request.session.domainId, i.request.sequence) }

  /** The operations left once everything up to `through` is acknowledged. */
  function Compacted(operations: map<(Uuid, nat), Operation>, domain: Uuid, through: nat): map<(Uuid, nat), Operation> {
    map slot | slot in operations && !(slot.0 == domain && slot.1 <= through) :: operations[slot]
  }

  /** The rows a journaled operation leaves: its Grants, its acknowledgement, its receipt and sequence. */
  function Applied(sql: Sql, i: Intent): Sql {
    var domain := i.request.session.domainId;
    var floor := if domain in sql.floors then sql.floors[domain] else 0;
    var kept :=
      if i.outcome.Acknowledged? then Compacted(sql.operations, domain, i.outcome.through) else sql.operations;
    Sql(Save(sql.grants, i.grants), kept[Slot(i) := OperationOf(i)], sql.accepted[domain := i.request.sequence],
        if i.outcome.Acknowledged? then sql.floors[domain := Max(floor, i.outcome.through)] else sql.floors)
  }

  predicate IsNext(sql: Sql, request: Request) {
    var domain := request.session.domainId;
    domain in sql.accepted && sql.accepted[domain] + 1 == request.sequence <= MAX_I64
  }

  /** The recorded answer to a request already accepted. */
  function Recorded(sql: Sql, request: Request): Option<Operation> {
    var slot := (request.session.domainId, request.sequence);
    if slot in sql.operations then Some(sql.operations[slot]) else None
  }

  // ---- Steps -----------------------------------------------------------------------------------

  /** The authority is open and anchored to this store. */
  predicate Serves(r: Registry, store: Uuid) { !Gated(r) && r.coordinator.Some? && r.coordinator.value.store == store }

  /** The store serves nothing else while a commit of its own history is pending: it recovers it first. */
  predicate Recoverable(w: World) {
    w.registry.pendingCommit.Some? && Serves(w.registry, w.store)
  }

  /** Journal a computed operation while its transaction is open. */
  function Journal(w: World, i: Intent, after: Sql): World {
    var op := Machine(PrepareMachineCommit(i));
    if Decide(w.registry, op).Publish? then w.(registry := StepOf(w.registry, op), stage := Journaled(i, after)) else w
  }

  function Exchanged(w: World, request: Request, c: Command, outcome: Outcome): World {
    var prior := Recorded(w.sql, request);
    if prior.Some? then
      // A replay has no new Grants; only an acknowledgement is journaled again.
      if prior.value.operationId != request.operationId || prior.value.payload != request.detail then w
      else if prior.value.outcome.Acknowledged? then Journal(w, Intent(request, prior.value.outcome, []), w.sql)
      else w
    else if !IsNext(w.sql, request) || !OwnsTarget(request.session, c) then w
    else
      var changed := Changed(w.sql, request.session.domainId, RegistryBlocker(w.registry).Some?, c);
      if changed.None? then w
      else
        var i := Intent(request, OutcomeOf(c, outcome), changed.value);
        if i.grants == [] && !i.outcome.Acknowledged? then w else Journal(w, i, Applied(w.sql, i))
  }

  /** Finish the journaled transition, or close admission when journal and database disagree. */
  function Recovered(w: World, resetId: Uuid, reason: string): World {
    if !Recoverable(w) then w
    else
      var i := w.registry.pendingCommit.value;
      if Disagree(w.sql, i) then w.(registry := StepOf(w.registry, Coordination(RecordReset(resetId, reason))))
      else w.(sql := if Slot(i) in w.sql.operations then w.sql else Applied(w.sql, i), stage := Committed(i))
  }

  predicate Disagree(sql: Sql, i: Intent) {
    var domain := i.request.session.domainId;
    || (if Slot(i) in sql.operations
        then sql.operations[Slot(i)] != OperationOf(i) || domain !in sql.accepted
            || sql.accepted[domain] != i.request.sequence
        else domain !in sql.accepted || sql.accepted[domain] + 1 != i.request.sequence)
    || (exists g :: g in i.grants && g.key !in sql.grants)
    || (Slot(i) in sql.operations && exists g :: g in i.grants && g.key in sql.grants && sql.grants[g.key] != g)
  }

  // ---- Rebuilding the rows from the authority ------------------------------------------------------

  /** The recorded permissions with the pending commit's snapshots in their place. */
  function Overlay(table: Table, list: seq<Grant>): Table
    decreases list
  {
    if list == [] then table else Overlay(table[list[0].grantId := list[0]], list[1..])
  }

  predicate KeysDistinct(table: Table) {
    forall a, b :: a in table && b in table && table[a].key == table[b].key ==> a == b
  }

  function KeysOf(table: Table): set<AllocationKey> { set id | id in table :: table[id].key }

  function GrantUnder(table: Table, k: AllocationKey): Grant
    requires KeysDistinct(table) && k in KeysOf(table)
  {
    var id :| id in table && table[id].key == k;
    table[id]
  }

  function RowsOf(table: Table): Rows
    requires KeysDistinct(table)
  {
    map k | k in KeysOf(table) :: GrantUnder(table, k)
  }

  function PendingGrants(r: Registry): seq<Grant> {
    if r.pendingCommit.Some? then r.pendingCommit.value.grants else []
  }

  /** The sequence a domain restarts from: what its anchor accepted, or the pending operation. */
  function Resumed(r: Registry): map<Uuid, nat> {
    map d | d in r.participants ::
      var pending := r.pendingCommit.Some? && r.pendingCommit.value.request.session.domainId == d;
      Max(r.participants[d].acceptedSequence, if pending then r.pendingCommit.value.request.sequence else 0)
  }

  /** Rows only for what the authority still records; of the receipts only the pending one survives. Two
      Grants under one key would violate the primary key. */
  function Rebuilt(w: World): World {
    var r := w.registry;
    var grants := Overlay(r.machinePermissions, PendingGrants(r));
    if !Gated(r) || r.nativeCoverage != Some(r.coordinator.value.store) || !AllCommitted(r.participants) then w
    else if w.inventory == Some(r.coordinator.value.pendingReset.value.resetId) && r.pendingCommit.None? then w
    else if !KeysDistinct(grants) then w
    else
      var receipts := match r.pendingCommit case None => map[] case Some(i) => map[Slot(i) := OperationOf(i)];
      w.(sql := Sql(RowsOf(grants), receipts, Resumed(r), Resumed(r)),
         inventory := Some(r.coordinator.value.pendingReset.value.resetId),
         stage := if r.pendingCommit.Some? then Committed(r.pendingCommit.value) else Idle)
  }

  /** The gate opens only over rows rebuilt for it, none of which can still be used. */
  function ResetCompleted(w: World, expected: Snapshot, generation: Uuid, process: nat, newEpoch: Uuid): World {
    var op := Coordination(CoordinatorOp.CompleteReset(expected, w.store, generation, process, newEpoch));
    if !Gated(w.registry) || w.inventory != Some(w.registry.coordinator.value.pendingReset.value.resetId) then w
    else if exists k :: k in w.sql.grants && (IsRight(w.sql.grants[k]) || w.sql.grants[k].state == Offered) then w
    else if !ValidInput(op) then w
    else w.(registry := StepOf(w.registry, op))
  }

  predicate JournalOp(op: Op) {
    op.Machine? && (op.commit.PrepareMachineCommit? || op.commit.FinishMachineCommit?)
  }

  /** Operations the rest of the daemon performs: neither the journal's nor the end of a reset. */
  predicate IsOther(op: Op) {
    !JournalOp(op) && !CompletesReset(op)
  }

  /** A key without a Grant is offered a new one, an expired Grant is offered again. */
  function Proposed(w: World, key: AllocationKey, grantId: DurableId, nonce: Uuid, detail: nat): World {
    if key.domainId !in w.sql.accepted then w
    else if key in w.sql.grants then
      if w.sql.grants[key].state != Expired then w
      else
        var g := w.sql.grants[key].(state := GrantState.Offered, offerNonce := nonce, detail := detail);
        w.(sql := w.sql.(grants := w.sql.grants[key := g]))
    else if exists k :: k in w.sql.grants && w.sql.grants[k].grantId == grantId then w
    else w.(sql := w.sql.(grants := w.sql.grants[key := Grant(grantId, key, nonce, GrantState.Offered, detail)]))
  }

  function Withdrawn(w: World, key: AllocationKey): World {
    if key !in w.sql.grants || w.sql.grants[key].state != Offered then w
    else w.(sql := w.sql.(grants := w.sql.grants[key := w.sql.grants[key].(state := Expired)]))
  }

  /** An accepted operation that journals nothing. */
  function Noted(w: World, request: Request, outcome: Outcome): World {
    if Recoverable(w) || !IsNext(w.sql, request) || outcome.Acknowledged? then w
    else w.(sql := Applied(w.sql, Intent(request, outcome, [])))
  }

  function Finished(w: World): World
    requires w.stage.Committed?
  {
    var op := Machine(FinishMachineCommit(w.stage.intent.request.operationId));
    w.(registry := StepOf(w.registry, op), stage := Idle)
  }

  /** The database is gone and a new one with its own identity takes its place. */
  function Replaced(w: World, newStore: Uuid): World {
    if w.registry.coordinator.Some? && newStore == w.registry.coordinator.value.store then w
    else w.(store := newStore, sql := EMPTY, inventory := None, stage := Idle)
  }

  function Next(w: World, e: Event): World {
    match e
    case Offer(key, grantId, nonce, detail) => if w.stage.Idle? then Proposed(w, key, grantId, nonce, detail) else w
    case Expire(key) => if w.stage.Idle? then Withdrawn(w, key) else w
    case Plain(request, outcome) => if w.stage.Idle? then Noted(w, request, outcome) else w
    case Exchange(request, c, outcome) =>
      if w.stage.Idle? && !Recoverable(w) && request.operationId != NIL then Exchanged(w, request, c, outcome) else w
    case Commit => if w.stage.Journaled? then w.(sql := w.stage.after, stage := Committed(w.stage.intent)) else w
    case Finish => if w.stage.Committed? then Finished(w) else w
    case Recover(resetId, reason) =>
      if w.stage.Idle? && resetId != NIL && ValidReason(reason) then Recovered(w, resetId, reason) else w
    case Crash => w.(stage := Idle)
    case Replace(newStore) => Replaced(w, newStore)
    case Rebuild => if w.stage.Idle? then Rebuilt(w) else w
    case CompleteReset(expected, generation, process, newEpoch) =>
      if w.stage.Idle? then ResetCompleted(w, expected, generation, process, newEpoch) else w
    case Authority(op) => if IsOther(op) && ValidInput(op) then w.(registry := StepOf(w.registry, op)) else w
  }

  function Run(w: World, events: seq<Event>): World
    decreases events
  {
    if events == [] then w else Run(Next(w, events[0]), events[1..])
  }

  // ---- Invariant: the authority --------------------------------------------------------------------

  predicate LiveInTable(list: seq<Grant>, table: Table) {
    forall g :: g in list && IsRight(g) ==> g.grantId in table && table[g.grantId].key == g.key
  }

  /** A journaled list: one entry per key and per Grant id, each under the key the table has for its id. */
  predicate ListMatches(list: seq<Grant>, table: Table) {
    && (forall g :: g in list ==> Journals(g))
    && (forall g, h :: g in list && h in list && (g.key == h.key || g.grantId == h.grantId) ==> g == h)
    && (forall g, id :: g in list && id in table ==> (id == g.grantId <==> table[id].key == g.key))
    && LiveInTable(list, table)
  }

  predicate TableLive(table: Table) { forall id :: id in table ==> table[id].state != Released }

  /** What the journal keeps whether or not there is a database. */
  predicate JournalSound(r: Registry) {
    && Good(r) && r.coordinator.Some? && SessionsCurrent(r) && TableLive(r.machinePermissions)
    && ListMatches(PendingGrants(r), r.machinePermissions)
    && (r.pendingCommit.Some? ==> Finishable(r.pendingCommit.value))
  }

  // ---- Invariant: the database ---------------------------------------------------------------------

  /** A row stands under its key, and no Grant id stands under two keys. */
  predicate RowsKeyed(rows: Rows) {
    && (forall k :: k in rows ==> rows[k].key == k)
    && (forall a, b :: a in rows && b in rows && rows[a].grantId == rows[b].grantId ==> a == b)
  }

  /** Retained operations were accepted, and an acknowledgement reaches only what came before it. */
  predicate ReceiptsOrdered(sql: Sql) {
    forall slot :: slot in sql.operations ==>
      && slot.0 in sql.accepted && slot.1 <= sql.accepted[slot.0]
      && (sql.operations[slot].outcome.Acknowledged? ==> sql.operations[slot].outcome.through < slot.1)
  }

  /** Every recorded permission is known to the database under the same key and Grant id. */
  predicate TableKnown(rows: Rows, table: Table) {
    forall id :: id in table ==> table[id].key in rows && rows[table[id].key].grantId == id
  }

  /** Every right the database has committed is in the permission table. */
  predicate RightsJournaled(rows: Rows, table: Table) {
    forall k :: k in rows && IsRight(rows[k]) ==> rows[k].grantId in table && table[rows[k].grantId].key == k
  }

  /** A list of changed Grants: rows of the database, one entry per key, none brought back from release. */
  predicate ListSound(rows: Rows, list: seq<Grant>) {
    && (forall g :: g in list ==> g.key in rows && rows[g.key].grantId == g.grantId && Journals(g))
    && (forall g, h :: g in list && h in list && g.key == h.key ==> g == h)
    && (forall g :: g in list && IsRight(g) ==> rows[g.key].state != Released)
  }

  predicate InRows(rows: Rows, list: seq<Grant>) {
    forall g :: g in list ==> g.key in rows && rows[g.key] == g
  }

  /** A release the database has committed and the table has not seen is being finished. */
  predicate ReleasesPending(rows: Rows, r: Registry) {
    forall id :: id in r.machinePermissions && r.machinePermissions[id].key in rows
                 && rows[r.machinePermissions[id].key].state == Released ==>
      rows[r.machinePermissions[id].key] in PendingGrants(r)
  }

  predicate RowsSound(rows: Rows, r: Registry) {
    && RowsKeyed(rows) && TableKnown(rows, r.machinePermissions) && RightsJournaled(rows, r.machinePermissions)
    && ListSound(rows, PendingGrants(r)) && ReleasesPending(rows, r)
  }

  predicate StageSound(sql: Sql, r: Registry, stage: Stage) {
    match stage
    case Idle => true
    case Journaled(i, after) =>
      r.pendingCommit == Some(i) && (after == Applied(sql, i) || (after == sql && i.grants == []))
      && ReceiptsOrdered(after)
    case Committed(i) => r.pendingCommit == Some(i) && InRows(sql.grants, i.grants)
  }

  /** The database has not seen a journaled operation, or it has committed exactly that one; only an
      acknowledgement is journaled again after the domain has moved on. */
  predicate Agrees(sql: Sql, i: Intent) {
    var domain := i.request.session.domainId;
    && domain in sql.accepted
    && (Slot(i) in sql.operations ==>
          && sql.operations[Slot(i)] == OperationOf(i) && InRows(sql.grants, i.grants)
          && (sql.accepted[domain] != i.request.sequence ==> i.outcome.Acknowledged? && i.grants == []))
    && (Slot(i) !in sql.operations ==> sql.accepted[domain] + 1 == i.request.sequence)
  }

  predicate Known(w: World) {
    && RowsSound(w.sql.grants, w.registry) && ReceiptsOrdered(w.sql)
    && StageSound(w.sql, w.registry, w.stage)
    && (Recoverable(w) ==> Agrees(w.sql, w.registry.pendingCommit.value))
    && (Recoverable(w) && w.stage.Journaled? ==> Agrees(w.stage.after, w.registry.pendingCommit.value))
  }

  /** A replaced database before it is rebuilt: empty, and not the one the authority is anchored to. */
  predicate Lost(w: World) {
    w.sql == EMPTY && w.inventory.None? && w.stage.Idle? && !Serves(w.registry, w.store)
  }

  predicate Inv(w: World) { JournalSound(w.registry) && (Known(w) || Lost(w)) }

  /** A store with no machine history beside a bound authority with none. */
  lemma FreshStoreIsSound(w: World)
    requires Good(w.registry) && w.registry.coordinator.Some? && w.registry.pendingCommit.None?
    requires SessionsCurrent(w.registry) && w.registry.machinePermissions == map[]
    requires w.sql.grants == map[] && w.sql.operations == map[] && w.stage.Idle?
    ensures Inv(w) && Known(w)
  {
    hide Good;
  }

  // ---- Rows ------------------------------------------------------------------------------------

  lemma {:induction false} SaveLooksUp(rows: Rows, list: seq<Grant>, k: AllocationKey)
    requires forall g, h :: g in list && h in list && g.key == h.key ==> g == h
    ensures (exists g :: g in list && g.key == k) ==>
        k in Save(rows, list) && Save(rows, list)[k] in list && Save(rows, list)[k].key == k
    ensures (forall g :: g in list ==> g.key != k) ==>
              (k in Save(rows, list) <==> k in rows) && (k in rows ==> Save(rows, list)[k] == rows[k])
    decreases list
  {
    if list != [] {
      var rest := list[1..];
      SaveLooksUp(rows[list[0].key := list[0]], rest, k);
      assert forall g :: g in list <==> g == list[0] || g in rest;
    }
  }

  /** Saving a sound list changes its rows and nothing else, and no row changes its Grant id. */
  lemma SaveKeeps(rows: Rows, list: seq<Grant>)
    requires RowsKeyed(rows) && ListSound(rows, list)
    ensures var after := Save(rows, list);
            && RowsKeyed(after) && InRows(after, list) && after.Keys == rows.Keys
            && (forall k :: k in rows ==> after[k] == rows[k] || after[k] in list)
            && (forall k :: k in rows ==> after[k].grantId == rows[k].grantId)
  {
    var after := Save(rows, list);
    forall k ensures k in after <==> k in rows
      ensures k in rows ==>
                (after[k] == rows[k] || after[k] in list) && after[k].grantId == rows[k].grantId && after[k].key == k
      ensures (exists g :: g in list && g.key == k) ==> k in rows && after[k] in list && after[k].key == k
    {
      SaveLooksUp(rows, list, k);
    }
  }

  /** The rows after a sound list is saved: still known, and every right in the table. */
  lemma SavedRowsAreSound(rows: Rows, list: seq<Grant>, table: Table)
    requires RowsKeyed(rows) && ListSound(rows, list) && TableKnown(rows, table) && RightsJournaled(rows, table)
    requires LiveInTable(list, table)
    ensures var after := Save(rows, list);
            RowsKeyed(after) && InRows(after, list) && TableKnown(after, table) && RightsJournaled(after, table)
                && ListSound(after, list)
  {
    SaveKeeps(rows, list);
  }

  lemma {:induction false} ReleasedListIsSound(rows: Rows, keys: seq<AllocationKey>, detail: nat)
    requires RowsKeyed(rows) && ReleasedAll(rows, keys, detail).Some?
    ensures forall g :: g in ReleasedAll(rows, keys, detail).value ==>
              g.key in rows && g.key in keys && g == rows[g.key].(state := Released, detail := detail)
    decreases keys
  {
    if keys != [] { ReleasedListIsSound(rows, keys[1..], detail); }
  }

  /** What a command changes: rows of its session's own, and under a closed authority only existing rights. */
  lemma ChangedIsSound(sql: Sql, session: Session, closed: bool, c: Command)
    requires RowsKeyed(sql.grants) && Changed(sql, session.domainId, closed, c).Some? && OwnsTarget(session, c)
    ensures ListSound(sql.grants, Changed(sql, session.domainId, closed, c).value)
    ensures forall g :: g in Changed(sql, session.domainId, closed, c).value ==>
              && Owns(session, g.key)
              && (closed && IsRight(g) ==> g.key in sql.grants && IsRight(sql.grants[g.key]))
  {
    if c.Reconcile? {
      ReleasedListIsSound(sql.grants, c.keys, c.detail);
    }
  }

  lemma ChangedIsFinishable(sql: Sql, request: Request, closed: bool, c: Command, outcome: Outcome)
    requires IsNext(sql, request) && Changed(sql, request.session.domainId, closed, c).Some?
    ensures Finishable(Intent(request, OutcomeOf(c, outcome), Changed(sql, request.session.domainId, closed, c).value))
  {
  }

  // ---- The permission table ----------------------------------------------------------------------

  lemma {:induction false} LiveKeyFound(list: seq<Grant>, g: Grant)
    requires g in list && g.state != Released
    ensures LiveKey(list, g.grantId).Some?
    decreases list
  {
    if list[0] != g { LiveKeyFound(list[1..], g); }
  }

  /** The store passes the check at prepare: its rows give every Grant id one key, the recorded one. */
  lemma StorePassesCheck(rows: Rows, list: seq<Grant>, table: Table)
    requires RowsKeyed(rows) && TableKnown(rows, table) && ListSound(rows, list)
    ensures OneKeyPerGrant(table, list)
  {
  }

  lemma AdmittedTable(rows: Rows, list: seq<Grant>, table: Table, retired: set<AllocationKey>)
    requires RowsKeyed(rows) && TableKnown(rows, table) && RightsJournaled(rows, table) && ListSound(rows, list)
    requires AdmitGrants(table, retired, list).Some?
    ensures var after := AdmitGrants(table, retired, list).value;
            TableKnown(rows, after) && RightsJournaled(rows, after) && LiveInTable(list, after)
  {
    StorePassesCheck(rows, list, table);
    var after := AdmitGrants(table, retired, list).value;
    forall id
      ensures id in table ==> id in after && after[id].key == table[id].key
      ensures id in after ==> after[id].key in rows && rows[after[id].key].grantId == id
      ensures forall g :: g in list && g.grantId == id && IsRight(g) ==> id in after && after[id].key == g.key
    {
      AdmittedKey(table, retired, list, id);
      LiveKeyIsJournaled(list, id);
      forall g | g in list && g.grantId == id && IsRight(g) ensures LiveKey(list, id).Some? { LiveKeyFound(list, g); }
    }
  }

  /** Finishing removes no right the database holds: what it removes is released there. */
  lemma FinishedTable(rows: Rows, list: seq<Grant>, table: Table)
    requires RowsKeyed(rows) && TableKnown(rows, table) && RightsJournaled(rows, table) && ListSound(rows, list)
        && InRows(rows, list)
    ensures var after := table - ReleasedIds(list); TableKnown(rows, after) && RightsJournaled(rows, after)
  {
    forall k | k in rows && IsRight(rows[k]) ensures rows[k].grantId !in ReleasedIds(list) {
    }
  }

  // ---- Every event keeps the invariant -------------------------------------------------------------

  lemma AppliedKeeps(sql: Sql, i: Intent)
    requires RowsKeyed(sql.grants) && ReceiptsOrdered(sql) && ListSound(sql.grants, i.grants) && Finishable(i)
    requires i.request.session.domainId in sql.accepted
    requires sql.accepted[i.request.session.domainId] + 1 == i.request.sequence
    ensures ReceiptsOrdered(Applied(sql, i)) && Agrees(Applied(sql, i), i)
  {
    SaveKeeps(sql.grants, i.grants);
  }

  lemma PreparedRegistry(r: Registry, i: Intent)
    requires Good(r) && SessionsCurrent(r)
    requires i.request.operationId != NIL && Decide(r, Machine(PrepareMachineCommit(i))).Publish?
    ensures var n := StepOf(r, Machine(PrepareMachineCommit(i)));
            && Good(n) && SessionsCurrent(n) && n.coordinator == r.coordinator && n.epoch == r.epoch
            && n.pendingCommit == Some(i) && i.request.session.authorityEpoch == r.epoch
            && (r.pendingCommit.Some? ==> r.pendingCommit == Some(i) && n.machinePermissions == r.machinePermissions)
            && (r.pendingCommit.None? ==>
                  && AdmitGrants(r.machinePermissions, r.retiredAllocations, i.grants).Some?
                  && n.machinePermissions == AdmitGrants(r.machinePermissions, r.retiredAllocations, i.grants).value)
  {
    StepKeepsGood(r, Machine(PrepareMachineCommit(i)));
    SessionsStep(r, Machine(PrepareMachineCommit(i)));
    hide Good;
  }

  /** A list of rows keeps the database's view of the table in every registry that admits it. */
  lemma PreparedRows(rows: Rows, r: Registry, i: Intent)
    requires JournalSound(r) && RowsSound(rows, r) && ListSound(rows, i.grants) && i.request.operationId != NIL
    requires Decide(r, Machine(PrepareMachineCommit(i))).Publish?
    ensures RowsSound(rows, StepOf(r, Machine(PrepareMachineCommit(i))))
    ensures ListMatches(i.grants, StepOf(r, Machine(PrepareMachineCommit(i))).machinePermissions)
    ensures TableLive(StepOf(r, Machine(PrepareMachineCommit(i))).machinePermissions)
  {
    PreparedRegistry(r, i);
    hide Good, StepOf, Decide;
    if r.pendingCommit.None? {
      AdmittedTable(rows, i.grants, r.machinePermissions, r.retiredAllocations);
      AdmittedSpares(rows, i.grants, r.machinePermissions, r.retiredAllocations);
    }
    RowsMatchTable(rows, i.grants, StepOf(r, Machine(PrepareMachineCommit(i))).machinePermissions);
    hide AdmitGrants, RowsKeyed, TableKnown, RightsJournaled, ListMatches;
  }

  /** Admission adds only live Grants, none of them under a key the database holds as released. */
  lemma AdmittedSpares(rows: Rows, list: seq<Grant>, table: Table, retired: set<AllocationKey>)
    requires ListSound(rows, list) && AdmitGrants(table, retired, list).Some? && TableLive(table)
    ensures var after := AdmitGrants(table, retired, list).value;
            && TableLive(after)
            && (forall id :: id in after && after[id].key in rows && rows[after[id].key].state == Released ==>
                  id in table && table[id] == after[id])
  {
    AdmittedLive(table, retired, list);
    var after := AdmitGrants(table, retired, list).value;
    forall id | id in after && after[id].key in rows && rows[after[id].key].state == Released
      ensures id in table && table[id] == after[id]
    {
      AdmittedKey(table, retired, list, id);
      LiveKeyIsJournaled(list, id);
    }
  }

  lemma {:induction false} AdmittedLive(table: Table, retired: set<AllocationKey>, list: seq<Grant>)
    requires TableLive(table) && AdmitGrants(table, retired, list).Some?
    ensures TableLive(AdmitGrants(table, retired, list).value)
    decreases list
  {
    if list != [] {
      if list[0].state == Released {
        AdmittedLive(table, retired, list[1..]);
      } else {
        AdmittedLive(table[list[0].grantId := list[0]], retired, list[1..]);
      }
    }
  }

  lemma RowsMatchTable(rows: Rows, list: seq<Grant>, table: Table)
    requires RowsKeyed(rows) && TableKnown(rows, table) && ListSound(rows, list) && LiveInTable(list, table)
    ensures ListMatches(list, table)
  {
  }

  lemma JournalKeeps(w: World, i: Intent, after: Sql)
    requires JournalSound(w.registry) && Known(w) && w.stage.Idle?
    requires ListSound(w.sql.grants, i.grants) && Finishable(i) && i.request.operationId != NIL
    requires (after == Applied(w.sql, i) || (after == w.sql && i.grants == [])) && ReceiptsOrdered(after)
    requires Agrees(w.sql, i) && Agrees(after, i)
    ensures Inv(Journal(w, i, after)) && Known(Journal(w, i, after))
  {
    hide Good, SessionsCurrent, StepOf, Decide, AdmitGrants, RowsSound, ReceiptsOrdered, ListSound, ListMatches;
    hide TableLive, Agrees, Applied, Serves;
    if Decide(w.registry, Machine(PrepareMachineCommit(i))).Publish? {
      PreparedRegistry(w.registry, i);
      PreparedRows(w.sql.grants, w.registry, i);
    }
  }

  lemma ExchangeKeeps(w: World, request: Request, c: Command, outcome: Outcome)
    requires JournalSound(w.registry) && Known(w) && w.stage.Idle? && request.operationId != NIL
    ensures Inv(Exchanged(w, request, c, outcome)) && Known(Exchanged(w, request, c, outcome))
  {
    hide Good, Journal, Applied, Changed, TableKnown, RightsJournaled, ReleasesPending, SessionsCurrent, ListMatches;
    var prior := Recorded(w.sql, request);
    var closed := RegistryBlocker(w.registry).Some?;
    var changed := Changed(w.sql, request.session.domainId, closed, c);
    if prior.Some? {
      if prior.value.outcome.Acknowledged? && prior.value.operationId == request.operationId
         && prior.value.payload == request.detail {
        JournalKeeps(w, Intent(request, prior.value.outcome, []), w.sql);
      }
    } else if IsNext(w.sql, request) && OwnsTarget(request.session, c) && changed.Some? {
      var i := Intent(request, OutcomeOf(c, outcome), changed.value);
      ChangedIsSound(w.sql, request.session, closed, c);
      ChangedIsFinishable(w.sql, request, closed, c, outcome);
      AppliedKeeps(w.sql, i);
      JournalKeeps(w, i, Applied(w.sql, i));
    }
  }

  /** The rows after the pending commit is saved. */
  lemma SavedPending(rows: Rows, r: Registry)
    requires RowsSound(rows, r) && LiveInTable(PendingGrants(r), r.machinePermissions)
    ensures RowsSound(Save(rows, PendingGrants(r)), r) && InRows(Save(rows, PendingGrants(r)), PendingGrants(r))
  {
    SavedRowsAreSound(rows, PendingGrants(r), r.machinePermissions);
    SaveKeeps(rows, PendingGrants(r));
  }

  lemma CommitKeeps(w: World)
    requires JournalSound(w.registry) && Known(w) && w.stage.Journaled?
    ensures Known(Next(w, Commit))
  {
    hide Good, SessionsCurrent, TableLive, RowsSound, ReceiptsOrdered, LiveInTable, Agrees;
    SavedPending(w.sql.grants, w.registry);
  }

  lemma FinishedRegistry(r: Registry, i: Intent)
    requires Good(r) && SessionsCurrent(r) && r.pendingCommit == Some(i) && Finishable(i)
    ensures var n := StepOf(r, Machine(FinishMachineCommit(i.request.operationId)));
            && Good(n) && SessionsCurrent(n) && n.coordinator == r.coordinator && n.epoch == r.epoch
            && n.pendingCommit.None? && n.machinePermissions == r.machinePermissions - ReleasedIds(i.grants)
  {
    StepKeepsGood(r, Machine(FinishMachineCommit(i.request.operationId)));
    SessionsStep(r, Machine(FinishMachineCommit(i.request.operationId)));
    JournaledCommitFinishesIff(r);
    hide Good, AdvanceParticipant;
  }

  lemma FinishedRows(rows: Rows, r: Registry, n: Registry)
    requires RowsSound(rows, r) && r.pendingCommit.Some? && InRows(rows, PendingGrants(r)) && n.pendingCommit.None?
    requires n.machinePermissions == r.machinePermissions - ReleasedIds(PendingGrants(r))
    ensures RowsSound(rows, n)
  {
    FinishedTable(rows, PendingGrants(r), r.machinePermissions);
    forall id | id in n.machinePermissions ensures rows[n.machinePermissions[id].key].state != Released {
    }
  }

  lemma EmptyListIsSound(rows: Rows, table: Table)
    ensures ListSound(rows, []) && ListMatches([], table)
  {
  }

  lemma FinishKeeps(w: World)
    requires JournalSound(w.registry) && Known(w) && w.stage.Committed?
    ensures Inv(Next(w, Finish)) && Known(Next(w, Finish)) && Next(w, Finish).registry.pendingCommit.None?
  {
    hide Good, SessionsCurrent, StepOf, RowsSound, ReceiptsOrdered, Agrees, ReleasedIds, InRows;
    FinishedRegistry(w.registry, w.stage.intent);
    var n := StepOf(w.registry, Machine(FinishMachineCommit(w.stage.intent.request.operationId)));
    FinishedRows(w.sql.grants, w.registry, n);
    EmptyListIsSound(w.sql.grants, n.machinePermissions);
  }

  lemma CoordinationServes(r: Registry, op: CoordinatorOp, store: Uuid)
    requires r.coordinator.Some? && DecideCoordination(r, op).Publish?
    ensures var n := DecideCoordination(r, op).next;
            && n.coordinator.Some?
            && ((r.pendingCommit.Some? || !op.CompleteReset?) && Serves(n, store) ==> Serves(r, store))
  {
  }

  /** Without the end of a reset no operation makes a store the one served; none does while a commit is pending. */
  lemma OtherServes(r: Registry, op: Op, store: Uuid)
    requires r.coordinator.Some? && !JournalOp(op)
    ensures StepOf(r, op).coordinator.Some?
    ensures (r.pendingCommit.Some? || !CompletesReset(op)) && Serves(StepOf(r, op), store) ==> Serves(r, store)
  {
    hide DecideNative, DecidePeer, DecideHolding, DecideMachine, DecideCoordination;
    if op.Coordination? && DecideCoordination(r, op.coordination).Publish? {
      CoordinationServes(r, op.coordination, store);
    }
  }

  lemma AuthorityKeeps(w: World, op: Op)
    requires Inv(w) && ValidInput(op) && (IsOther(op) || (CompletesReset(op) && Known(w)))
    ensures Inv(w.(registry := StepOf(w.registry, op)))
    ensures Known(w) ==> Known(w.(registry := StepOf(w.registry, op)))
  {
    hide Good, SessionsCurrent, StepOf, RowsKeyed, TableKnown, RightsJournaled, ListSound, ReceiptsOrdered, Agrees;
    hide ListMatches, TableLive, Serves, ValidInput;
    StepKeepsGood(w.registry, op);
    SessionsStep(w.registry, op);
    OtherOpsKeepTable(w.registry, op);
    OtherServes(w.registry, op, w.store);
  }

  lemma RecoverKeeps(w: World, resetId: Uuid, reason: string)
    requires JournalSound(w.registry) && Known(w) && w.stage.Idle? && resetId != NIL && ValidReason(reason)
    ensures Inv(Recovered(w, resetId, reason)) && Known(Recovered(w, resetId, reason))
  {
    hide Good, StepOf, RowsSound, ReceiptsOrdered, ListMatches, SessionsCurrent, Save, Serves, TableLive;
    if Recoverable(w) {
      var i := w.registry.pendingCommit.value;
      if Disagree(w.sql, i) {
        AuthorityKeeps(w, Coordination(RecordReset(resetId, reason)));
      } else {
        PendingIsLive(w.registry);
        SavedPending(w.sql.grants, w.registry);
        if Slot(i) !in w.sql.operations { PendingApplies(w); }
      }
    }
  }

  lemma PendingIsLive(r: Registry)
    requires JournalSound(r)
    ensures LiveInTable(PendingGrants(r), r.machinePermissions)
  {
  }

  lemma PendingApplies(w: World)
    requires JournalSound(w.registry) && Known(w) && w.registry.pendingCommit.Some?
    requires var i := w.registry.pendingCommit.value; Slot(i) !in w.sql.operations && !Disagree(w.sql, i)
    ensures var i := w.registry.pendingCommit.value;
            ReceiptsOrdered(Applied(w.sql, i)) && Agrees(Applied(w.sql, i), i)
  {
    hide Good, StepOf, SessionsCurrent, ListMatches, TableKnown, RightsJournaled, ReleasesPending;
    AppliedKeeps(w.sql, w.registry.pendingCommit.value);
  }

  predicate Idles(g: Grant) { g.state == Offered || g.state == Expired }

  /** Offering and expiring write such a row: it keeps its Grant id, or brings a new one. */
  predicate Replaces(rows: Rows, k: AllocationKey, g: Grant) {
    && g.key == k && Idles(g)
    && if k in rows then Idles(rows[k]) && rows[k].grantId == g.grantId
       else forall other :: other in rows ==> rows[other].grantId != g.grantId
  }

  lemma RowMoves(rows: Rows, k: AllocationKey, g: Grant, table: Table)
    requires RowsKeyed(rows) && TableKnown(rows, table) && RightsJournaled(rows, table) && Replaces(rows, k, g)
    ensures RowsKeyed(rows[k := g]) && TableKnown(rows[k := g], table) && RightsJournaled(rows[k := g], table)
  {
  }

  lemma ListOutlivesRow(rows: Rows, k: AllocationKey, g: Grant, list: seq<Grant>)
    requires Replaces(rows, k, g) && ListSound(rows, list)
    ensures ListSound(rows[k := g], list) && (InRows(rows, list) ==> InRows(rows[k := g], list))
  {
  }

  lemma RowKeeps(w: World, k: AllocationKey, g: Grant)
    requires Known(w) && w.stage.Idle? && Replaces(w.sql.grants, k, g)
    ensures Known(w.(sql := w.sql.(grants := w.sql.grants[k := g])))
  {
    RowMoves(w.sql.grants, k, g, w.registry.machinePermissions);
    ListOutlivesRow(w.sql.grants, k, g, PendingGrants(w.registry));
    hide RowsKeyed, TableKnown, RightsJournaled, ListSound, InRows;
  }

  lemma OfferKeeps(w: World, e: Event)
    requires Known(w) && (e.Offer? || e.Expire?)
    ensures Known(Next(w, e))
  {
    hide Known;
    var rows := w.sql.grants;
    if w.stage.Idle? {
      match e
      case Offer(key, grantId, nonce, detail) =>
        if key in rows && rows[key].state == Expired {
          assert rows[key].key == key by { KnownRowsAreKeyed(w); }
          RowKeeps(w, key, rows[key].(state := Offered, offerNonce := nonce, detail := detail));
        } else if key !in rows && forall k :: k in rows ==> rows[k].grantId != grantId {
          RowKeeps(w, key, Grant(grantId, key, nonce, Offered, detail));
        }
      case Expire(key) =>
        if key in rows && rows[key].state == Offered {
          KnownRowsAreKeyed(w);
          RowKeeps(w, key, rows[key].(state := Expired));
        }
      case _ =>
    }
  }

  lemma KnownRowsAreKeyed(w: World)
    requires Known(w)
    ensures RowsKeyed(w.sql.grants)
  {
  }

  lemma PlainKeeps(w: World, request: Request, outcome: Outcome)
    requires Known(w)
    ensures Known(Next(w, Plain(request, outcome)))
  {
    hide RowsSound, Agrees;
    if w.stage.Idle? && !Recoverable(w) && IsNext(w.sql, request) && !outcome.Acknowledged? {
      assert Applied(w.sql, Intent(request, outcome, [])).grants == w.sql.grants;
    }
  }

  // ---- Rebuilding keeps it -------------------------------------------------------------------------

  lemma {:induction false} OverlayLooksUp(table: Table, list: seq<Grant>, id: DurableId)
    requires forall g, h :: g in list && h in list && g.grantId == h.grantId ==> g == h
    ensures var after := Overlay(table, list);
            && ((exists g :: g in list && g.grantId == id) ==>
                  id in after && after[id] in list && after[id].grantId == id)
            && ((forall g :: g in list ==> g.grantId != id) ==>
                  (id in after <==> id in table) && (id in table ==> after[id] == table[id]))
    decreases list
  {
    if list != [] {
      var rest := list[1..];
      OverlayLooksUp(table[list[0].grantId := list[0]], rest, id);
      assert forall g :: g in list <==> g == list[0] || g in rest;
    }
  }

  /** The overlay: the table's Grants under their keys, the pending snapshots in place of theirs. */
  lemma OverlayIsKeyed(table: Table, list: seq<Grant>)
    requires OneGrantPerKey(table) && ListMatches(list, table)
    ensures var after := Overlay(table, list);
            && KeysDistinct(after)
            && (forall id :: id in after ==> after[id].grantId == id)
            && (forall id :: id in table ==> id in after && after[id].key == table[id].key)
            && (forall g :: g in list ==> g.grantId in after && after[g.grantId] == g)
            && (forall id :: id in after ==> after[id] in list || (id in table && after[id] == table[id]))
  {
    var after := Overlay(table, list);
    forall id
      ensures id in after ==> after[id].grantId == id && (after[id] in list || (id in table && after[id] == table[id]))
      ensures id in table ==> id in after && after[id].key == table[id].key
      ensures forall g :: g in list && g.grantId == id ==> id in after && after[id] == g
    {
      OverlayLooksUp(table, list, id);
    }
  }

  /** Each Grant of the table is the row under its key, and there is no other row. */
  predicate Projects(rows: Rows, table: Table) {
    && (forall id :: id in table ==> table[id].key in rows && rows[table[id].key] == table[id])
    && (forall k :: k in rows ==> rows[k].grantId in table && table[rows[k].grantId] == rows[k] && rows[k].key == k)
  }

  lemma RowsOfProjects(table: Table)
    requires KeysDistinct(table) && forall id :: id in table ==> table[id].grantId == id
    ensures Projects(RowsOf(table), table)
  {
    forall id | id in table ensures table[id].key in KeysOf(table) && GrantUnder(table, table[id].key) == table[id] {
    }
  }

  lemma ProjectedTable(rows: Rows, after: Table, list: seq<Grant>, table: Table)
    requires Projects(rows, after) && LiveInTable(list, table)
    requires forall id :: id in after ==> after[id].grantId == id
    requires forall id :: id in table ==> id in after && after[id].key == table[id].key
    requires forall id :: id in after ==> after[id] in list || (id in table && after[id] == table[id])
    ensures RowsKeyed(rows) && TableKnown(rows, table) && RightsJournaled(rows, table)
  {
  }

  lemma ProjectedList(rows: Rows, after: Table, list: seq<Grant>, r: Registry)
    requires Projects(rows, after) && list == PendingGrants(r) && ListMatches(list, r.machinePermissions)
    requires TableLive(r.machinePermissions)
    requires forall g :: g in list ==> g.grantId in after && after[g.grantId] == g
    requires forall id :: id in after && after[id] !in list ==>
               id in r.machinePermissions && after[id] == r.machinePermissions[id]
    ensures InRows(rows, list) && ListSound(rows, list) && ReleasesPending(rows, r)
  {
  }

  /** Every permission is a row again, under its key and Grant id; a row is a right only if it is recorded. */
  lemma RebuiltRowsAreSound(r: Registry)
    requires JournalSound(r)
    ensures KeysDistinct(Overlay(r.machinePermissions, PendingGrants(r)))
    ensures var rows := RowsOf(Overlay(r.machinePermissions, PendingGrants(r)));
            RowsSound(rows, r) && InRows(rows, PendingGrants(r))
  {
    assert OneGrantPerKey(r.machinePermissions);
    hide Good, SessionsCurrent, Overlay, RowsOf, Projects, ListSound, ReleasesPending, TableLive;
    var table, list := r.machinePermissions, PendingGrants(r);
    OverlayIsKeyed(table, list);
    var after := Overlay(table, list);
    RowsOfProjects(after);
    ProjectedTable(RowsOf(after), after, list, table);
    ProjectedList(RowsOf(after), after, list, r);
  }

  lemma RebuildKeeps(w: World)
    requires Inv(w) && w.stage.Idle?
    ensures Inv(Rebuilt(w)) && (Known(Rebuilt(w)) || Rebuilt(w) == w)
  {
    hide RowsSound, ReceiptsOrdered, Agrees, Resumed, RowsOf, Overlay, Good, SessionsCurrent, ListMatches, InRows;
    RebuiltRowsAreSound(w.registry);
    ResumedReceipts(w.registry, RowsOf(Overlay(w.registry.machinePermissions, PendingGrants(w.registry))));
  }

  lemma ResumedReceipts(r: Registry, rows: Rows)
    requires JournalSound(r)
    ensures r.pendingCommit.None? ==> ReceiptsOrdered(Sql(rows, map[], Resumed(r), Resumed(r)))
    ensures r.pendingCommit.Some? ==>
              var i := r.pendingCommit.value;
              ReceiptsOrdered(Sql(rows, map[Slot(i) := OperationOf(i)], Resumed(r), Resumed(r)))
  {
    if r.pendingCommit.Some? { assert JournalNamed(r.pendingCommit, r.participants); }
  }

  // ---- The whole invariant -------------------------------------------------------------------------

  /** Without its database the store accepts nothing: only its rebuilding brings rows back. */
  lemma LostKeeps(w: World, e: Event)
    requires JournalSound(w.registry) && Lost(w)
    ensures Inv(Next(w, e))
  {
    hide JournalSound, StepOf, Known, Rebuilt;
    match e
    case Rebuild => RebuildKeeps(w);
    case Authority(op) => if IsOther(op) && ValidInput(op) { AuthorityKeeps(w, op); }
    case _ =>
  }

  lemma ResetKeeps(w: World, e: Event)
    requires JournalSound(w.registry) && Known(w) && e.CompleteReset? && w.stage.Idle?
    ensures Inv(ResetCompleted(w, e.expected, e.generation, e.process, e.newEpoch))
  {
    hide JournalSound, StepOf, Known;
    var op := Coordination(CoordinatorOp.CompleteReset(e.expected, w.store, e.generation, e.process, e.newEpoch));
    if ValidInput(op) { AuthorityKeeps(w, op); }
  }

  lemma ReplaceKeeps(w: World, newStore: Uuid)
    requires Inv(w)
    ensures Inv(Next(w, Replace(newStore)))
  {
    assert w.registry.coordinator.Some?;
    hide JournalSound, Known;
  }

  lemma CrashKeeps(w: World)
    requires Inv(w)
    ensures Inv(Next(w, Crash)) && (Known(w) ==> Known(Next(w, Crash)))
  {
    hide JournalSound, RowsSound, ReceiptsOrdered, Agrees, Applied;
  }

  lemma EventKeepsInv(w: World, e: Event)
    requires Inv(w)
    ensures Inv(Next(w, e))
  {
    hide JournalSound, Known, Exchanged, Recovered, Rebuilt, ResetCompleted, StepOf;
    if Lost(w) {
      LostKeeps(w, e);
    } else {
      match e
      case Offer(_, _, _, _) => OfferKeeps(w, e);
      case Expire(_) => OfferKeeps(w, e);
      case Plain(request, outcome) => PlainKeeps(w, request, outcome);
      case Exchange(request, c, outcome) =>
        if w.stage.Idle? && request.operationId != NIL { ExchangeKeeps(w, request, c, outcome); }
      case Commit => if w.stage.Journaled? { CommitKeeps(w); }
      case Finish => if w.stage.Committed? { FinishKeeps(w); }
      case Recover(resetId, reason) =>
        if w.stage.Idle? && resetId != NIL && ValidReason(reason) { RecoverKeeps(w, resetId, reason); }
      case Crash => CrashKeeps(w);
      case Replace(newStore) => ReplaceKeeps(w, newStore);
      case Rebuild => if w.stage.Idle? { RebuildKeeps(w); }
      case CompleteReset(_, _, _, _) => if w.stage.Idle? { ResetKeeps(w, e); }
      case Authority(op) => if IsOther(op) && ValidInput(op) { AuthorityKeeps(w, op); }
    }
  }

  lemma InvJournals(w: World)
    requires Inv(w)
    ensures RightsJournaled(w.sql.grants, w.registry.machinePermissions)
  {
  }

  /** At every point of every run, whatever died in between, each right the database has committed is in
      the permission table. */
  lemma {:induction false} CommittedRightsAreJournaled(w: World, events: seq<Event>)
    requires Inv(w)
    ensures Inv(Run(w, events))
    ensures RightsJournaled(Run(w, events).sql.grants, Run(w, events).registry.machinePermissions)
    decreases events
  {
    hide Inv, Next, RightsJournaled;
    InvJournals(w);
    if events != [] {
      EventKeepsInv(w, events[0]);
      CommittedRightsAreJournaled(Next(w, events[0]), events[1..]);
    }
  }
}
