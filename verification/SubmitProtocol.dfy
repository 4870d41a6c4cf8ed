/**
 Client processes that submit one operation through one result file. Every
 file access is atomic under the file lock; between accesses any process may
 run, and any process may die. `sends` lists the Submit requests put on the wire.
 */
module SubmitProtocol {
  import opened Optional
  import opened ResultFile

  /** Why a process may send: it created the file, or the file authorized a resend. */
  datatype Permit = Created | Resend(basis: Record)

  datatype Phase =
    | Idle
    | Recovering(operation: Record)
    | Resubmitting(operation: Record)
    | MaySend(operation: Record, permit: Permit, ensured: bool)
    | AwaitingReply(operation: Record)

  datatype Send = Send(operation: Record, permit: Permit)

  datatype World = World(file: Option<Record>, phases: map<nat, Phase>, sends: seq<Send>)

  datatype Event =
    | Submit(pid: nat, operation: Record)
    | Ensure(pid: nat, operation: Record)
    | Recovered(pid: nat, recovery: Recovery)
    | Transmit(pid: nat, store: nat, parent: Option<nat>)
    | Replied(pid: nat, answer: Recovery)
    | Died(pid: nat)

  function PhaseOf(w: World, pid: nat): Phase { if pid in w.phases then w.phases[pid] else Idle }

  function Enter(w: World, pid: nat, p: Phase): World { w.(phases := w.phases[pid := p]) }

  function Fresh(operation: Record): Record { operation.(version := RESULT_FILE_VERSION, receipt := None) }

  predicate ManagedResubmit(existing: Record, proposed: Record) {
    && existing.version == RESULT_FILE_VERSION
    && SameOperation(existing, proposed) && existing.payload == proposed.payload
    && proposed.parent.Some?
    && existing.receipt == Some(NotReceived)
  }

  /** Claim the file exclusively, or have it authorize a managed resend. */
  function Prepare(w: World, pid: nat, operation: Record): World {
    var proposed := Fresh(operation);
    match w.file
    case None => Enter(w.(file := Some(proposed)), pid, MaySend(proposed, Created, false))
    case Some(existing) =>
      if ManagedResubmit(existing, proposed) then Enter(w, pid, MaySend(proposed, Resend(existing), false))
          else Enter(w, pid, Idle)
  }

  /** Ensure claims the file too, but recovers an existing one first. */
  function PrepareEnsure(w: World, pid: nat, operation: Record): World {
    var proposed := Fresh(operation);
    match w.file
    case None => Enter(w.(file := Some(proposed)), pid, MaySend(proposed, Created, true))
    case Some(existing) =>
      if existing.version == RESULT_FILE_VERSION && SameOperation(existing, proposed)
          && existing.payload == proposed.payload
      then Enter(w, pid, Recovering(proposed)) else Enter(w, pid, Idle)
  }

  function Store(w: World, u: Update): World { if u.Replaced? then w.(file := Some(u.record)) else w }

  /** Only a managed caller told `NotReceived` goes on to resubmit; everything else fails closed. */
  function AfterRecovery(w: World, pid: nat, operation: Record, recovery: Recovery): World {
    if w.file.None? then Enter(w, pid, Idle)
    else
      var u := PersistRecovery(w.file.value, operation, recovery);
      var resubmits := !u.Failed? && recovery.NotReceived? && operation.parent.Some?;
      Enter(Store(w, u), pid, if resubmits then Resubmitting(operation) else Idle)
  }

  /** A plain submit sends the context the file was prepared with; an ensured one asks for its
      context again after creating the file and sends that. */
  function Sent(p: Phase, store: nat, parent: Option<nat>): Record
    requires p.MaySend?
  {
    if p.ensured then p.operation.(store := store, parent := parent) else p.operation
  }

  function Next(w: World, e: Event): World {
    var p := PhaseOf(w, e.pid);
    match e
    case Submit(pid, operation) =>
      if p.Idle? then Prepare(w, pid, operation)
      else if p.Resubmitting? then Prepare(w, pid, p.operation.(store := operation.store, parent := operation.parent))
      else w
    case Ensure(pid, operation) => if p.Idle? then PrepareEnsure(w, pid, operation) else w
    case Recovered(pid, recovery) => if p.Recovering? then AfterRecovery(w, pid, p.operation, recovery) else w
    case Transmit(pid, store, parent) =>
      if p.MaySend? then
        var sent := Sent(p, store, parent);
        Enter(w.(sends := w.sends + [Send(sent, p.permit)]), pid, AwaitingReply(sent))
      else w
    case Replied(pid, answer) =>
      if p.AwaitingReply? && w.file.Some? then
        Enter(if Terminal(answer) then Store(w, Persist(w.file.value, p.operation, answer)) else w, pid, Idle)
      else w
    case Died(pid) => Enter(w, pid, Idle)
  }

  function Run(w: World, events: seq<Event>): World
    decreases events
  {
    if events == [] then w else Run(Next(w, events[0]), events[1..])
  }

  const START := World(None, map[], [])

  // ---- Invariant -------------------------------------------------------------------------------

  predicate Creator(w: World, pid: nat) {
    pid in w.phases && w.phases[pid].MaySend? && w.phases[pid].permit.Created?
  }

  function FirstSends(sends: seq<Send>): nat {
    if sends == [] then 0 else (if sends[0].permit.Created? then 1 else 0) + FirstSends(sends[1..])
  }

  /** A resend permit carries the file content that authorized it, and the operation it was for. */
  predicate Justified(operation: Record, permit: Permit) {
    permit.Resend? ==> ManagedResubmit(permit.basis, operation)
  }

  predicate PhasesJustified(w: World) {
    forall pid :: pid in w.phases && w.phases[pid].MaySend? ==>
      Justified(w.phases[pid].operation, w.phases[pid].permit)
          && (w.phases[pid].permit.Resend? ==> !w.phases[pid].ensured)
  }

  /** At most one process ever holds or has spent the creator's right to send. */
  ghost predicate OneCreator(w: World) {
    && (forall a, b :: Creator(w, a) && Creator(w, b) ==> a == b)
    && FirstSends(w.sends) <= 1
    && (FirstSends(w.sends) == 1 ==> forall pid :: !Creator(w, pid))
    && (w.file.None? ==> w.sends == [] && forall pid :: pid in w.phases ==> !w.phases[pid].MaySend?)
  }

  /** An unmanaged file never authorizes a resend. */
  predicate UnmanagedNeverResends(w: World) {
    w.file.Some? && w.file.value.parent.None? ==>
      && (forall pid :: pid in w.phases && w.phases[pid].MaySend? ==> w.phases[pid].permit.Created?)
      && (forall s :: s in w.sends ==> s.permit.Created?)
  }

  predicate SameRequest(r: Record, file: Record) {
    r.key == file.key && r.payload == file.payload && r.endpoint == file.endpoint
  }

  /** Whatever may be sent is the file's operation; whatever was sent carries its key, payload and endpoint. */
  predicate Bound(w: World) {
    w.file.Some? ==>
      && (forall pid :: pid in w.phases && w.phases[pid].MaySend? ==>
            SameRequest(w.phases[pid].operation, w.file.value) && SameOperation(w.phases[pid].operation, w.file.value))
      && (forall s :: s in w.sends ==> SameRequest(s.operation, w.file.value))
  }

  ghost predicate Inv(w: World) {
    && PhasesJustified(w)
    && (forall s :: s in w.sends ==> Justified(s.operation, s.permit))
    && OneCreator(w)
    && UnmanagedNeverResends(w)
    && Bound(w)
    && (w.file.Some? ==> w.file.value.receipt != Some(Unknown))
  }

  lemma {:induction false} FirstSendsAppend(sends: seq<Send>, s: Send)
    ensures FirstSends(sends + [s]) == FirstSends(sends) + (if s.permit.Created? then 1 else 0)
    decreases sends
  {
    if sends == [] {
      assert [] + [s] == [s] && [s][1..] == [];
    } else {
      FirstSendsAppend(sends[1..], s);
      assert (sends + [s])[1..] == sends[1..] + [s];
    }
  }

  lemma EventKeepsFile(w: World, e: Event)
    requires Inv(w)
    ensures var n := Next(w, e);
            && (w.file.Some? ==> n.file.Some? && n.file.value == w.file.value.(receipt := n.file.value.receipt)
                                 && Progress(w.file.value.receipt, n.file.value.receipt))
            && (n.file.Some? ==> n.file.value.receipt != Some(Unknown))
  {
  }

  predicate Spends(w: World, n: World, pid: nat) {
    var p, q := PhaseOf(w, pid), PhaseOf(n, pid);
    && p.MaySend? && q.AwaitingReply? && n.phases == w.phases[pid := q]
    && n.sends == w.sends + [Send(q.operation, p.permit)]
    && (if p.ensured then SameRequest(q.operation, p.operation) else q.operation == p.operation)
  }

  /** All an event does to the phases and the requests: its process loses its right to send, by
      spending it or otherwise, or gains one by creating the file or by quoting its content. */
  predicate Shape(w: World, n: World, pid: nat) {
    var q := PhaseOf(n, pid);
    && (n.phases == w.phases || n.phases == w.phases[pid := q])
    && (n.sends == w.sends || Spends(w, n, pid))
    && (q.MaySend? && q != PhaseOf(w, pid) ==>
        && n.sends == w.sends && n.file.Some?
        && (q.permit.Created? ==> w.file.None? && n.file == Some(q.operation))
        && (q.permit.Resend? ==>
              w.file == Some(q.permit.basis) && ManagedResubmit(q.permit.basis, q.operation) && !q.ensured))
    && (w.file.None? && n.file.Some? ==> q.MaySend? && q.permit.Created?)
  }

  lemma EventHasShape(w: World, e: Event)
    ensures Shape(w, Next(w, e), e.pid)
  {
  }

  lemma ShapeKeepsOneCreator(w: World, n: World, pid: nat)
    requires Inv(w) && Shape(w, n, pid) && (w.file.Some? ==> n.file.Some?)
    ensures OneCreator(n)
  {
    if n.sends != w.sends {
      FirstSendsAppend(w.sends, Send(PhaseOf(n, pid).operation, PhaseOf(w, pid).permit));
      assert PhaseOf(w, pid).permit.Created? ==> Creator(w, pid);
      assert !Creator(n, pid);
    }
    if Creator(n, pid) && !Creator(w, pid) { assert forall a :: !Creator(w, a); }
    assert forall a :: a != pid ==> (Creator(n, a) <==> Creator(w, a));
  }

  lemma ShapeKeepsJustification(w: World, n: World, pid: nat)
    requires Inv(w) && Shape(w, n, pid)
    ensures PhasesJustified(n) && forall s :: s in n.sends ==> Justified(s.operation, s.permit)
  {
  }

  lemma ShapeKeepsUnmanaged(w: World, n: World, pid: nat)
    requires Inv(w) && Shape(w, n, pid) && (w.file.Some? ==> n.file.Some? && n.file.value.parent == w.file.value.parent)
    ensures UnmanagedNeverResends(n)
  {
  }

  lemma ShapeKeepsBound(w: World, n: World, pid: nat)
    requires Inv(w) && Shape(w, n, pid)
    requires w.file.Some? ==>
               n.file.Some? && SameRequest(n.file.value, w.file.value) && SameOperation(n.file.value, w.file.value)
    ensures Bound(n)
  {
  }

  lemma EventKeepsInv(w: World, e: Event)
    requires Inv(w)
    ensures Inv(Next(w, e))
  {
    hide Next, Shape;
    var n := Next(w, e);
    EventKeepsFile(w, e);
    EventHasShape(w, e);
    ShapeKeepsOneCreator(w, n, e.pid);
    ShapeKeepsJustification(w, n, e.pid);
    ShapeKeepsUnmanaged(w, n, e.pid);
    ShapeKeepsBound(w, n, e.pid);
  }

  lemma {:induction false} RunsKeepInv(w: World, events: seq<Event>)
    requires Inv(w)
    ensures Inv(Run(w, events))
    ensures w.file.Some? ==>
              && Run(w, events).file.Some?
              && Run(w, events).file.value == w.file.value.(receipt := Run(w, events).file.value.receipt)
    decreases events
  {
    hide Next, Inv;
    if events != [] {
      EventKeepsInv(w, events[0]);
      EventKeepsFile(w, events[0]);
      RunsKeepInv(Next(w, events[0]), events[1..]);
    }
  }

  lemma {:induction false} OnlyFirstSends(sends: seq<Send>)
    requires forall s :: s in sends ==> s.permit.Created?
    ensures FirstSends(sends) == |sends|
    decreases sends
  {
    if sends != [] { OnlyFirstSends(sends[1..]); }
  }

  /** Over every interleaving and every crash, an unmanaged result file leads to at most one
      Submit request; any file leads to at most one that is not an authorized resend. */
  lemma UnmanagedFileSubmitsAtMostOnce(events: seq<Event>)
    ensures FirstSends(Run(START, events).sends) <= 1
    ensures Run(START, events).file.Some? && Run(START, events).file.value.parent.None? ==>
        |Run(START, events).sends| <= 1
  {
    hide Run;
    assert Inv(START);
    RunsKeepInv(START, events);
    var w := Run(START, events);
    if w.file.Some? && w.file.value.parent.None? { OnlyFirstSends(w.sends); }
  }

  /** No request ever leaves before the file exists, and each carries the file's key, payload and
      endpoint. */
  lemma EverySendIsRecordedFirst(events: seq<Event>, s: Send)
    requires s in Run(START, events).sends
    ensures Run(START, events).file.Some? && SameRequest(s.operation, Run(START, events).file.value)
  {
    hide Run;
    assert Inv(START);
    RunsKeepInv(START, events);
  }

  /** In every run, the request a process puts on the wire next names the store and parent the file
      records, unless it is an ensured first request and its second context lookup answers differently. */
  lemma SendMatchesFileIff(events: seq<Event>, pid: nat, store: nat, parent: Option<nat>)
    requires PhaseOf(Run(START, events), pid).MaySend?
    ensures var w := Run(START, events);
            var n := Next(w, Transmit(pid, store, parent));
            && w.file.Some? && n.file == w.file && |n.sends| == |w.sends| + 1 && n.sends[..|w.sends|] == w.sends
            && var sent := n.sends[|w.sends|].operation;
               (sent.store == w.file.value.store && sent.parent == w.file.value.parent
                <==> (PhaseOf(w, pid).ensured ==> store == w.file.value.store && parent == w.file.value.parent))
  {
    assert Inv(START);
    RunsKeepInv(START, events);
    hide Run;
  }

  /** It does happen: a lookup that answers another store sends a request the file does not describe. */
  lemma EnsuredSendCanDiffer(pid: nat, operation: Record, store: nat)
    requires store != operation.store
    ensures var w := Run(START, [Ensure(pid, operation), Transmit(pid, store, operation.parent)]);
            |w.sends| == 1 && w.file.Some? && w.sends[0].operation.store != w.file.value.store
  {
    var e, t := Ensure(pid, operation), Transmit(pid, store, operation.parent);
    var w := Next(START, e);
    assert [e, t][1..] == [t] && [t][1..] == [];
    assert Run(START, [e, t]) == Run(w, [t]) == Run(Next(w, t), []);
    assert PhaseOf(w, pid) == MaySend(Fresh(operation), Created, true);
  }

  // ---- Resends ---------------------------------------------------------------------------------

  /** Some moment of the run found exactly this content in the file. */
  predicate FileHeld(w: World, events: seq<Event>, content: Record)
    decreases events
  {
    w.file == Some(content) || (events != [] && FileHeld(Next(w, events[0]), events[1..], content))
  }

  /** A process holds, or has spent, a resend permit quoting this content. */
  predicate Quotes(w: World, content: Record) {
    || (exists pid :: pid in w.phases && w.phases[pid].MaySend? && w.phases[pid].permit == Resend(content))
    || (exists s :: s in w.sends && s.permit == Resend(content))
  }

  lemma NewQuotesComeFromFile(w: World, e: Event, content: Record)
    requires Quotes(Next(w, e), content)
    ensures Quotes(w, content) || w.file == Some(content)
  {
    EventHasShape(w, e);
    hide Next;
  }

  lemma {:induction false} QuotesWereHeld(w: World, events: seq<Event>, content: Record)
    requires Quotes(Run(w, events), content)
    ensures Quotes(w, content) || FileHeld(w, events, content)
    decreases events
  {
    hide Next, Quotes;
    if events != [] {
      QuotesWereHeld(Next(w, events[0]), events[1..], content);
      if Quotes(Next(w, events[0]), content) { NewQuotesComeFromFile(w, events[0], content); }
    }
  }

  /** Every resend follows a moment at which the file durably recorded `NotReceived` for the
      identical key, payload, endpoint, store and managed parent. */
  lemma ResendsFollowRecordedNotReceived(events: seq<Event>, s: Send)
    requires s in Run(START, events).sends && s.permit.Resend?
    ensures FileHeld(START, events, s.permit.basis)
    ensures s.permit.basis.receipt == Some(NotReceived) && s.operation.parent.Some?
    ensures s.permit.basis == s.operation.(receipt := Some(NotReceived), version := RESULT_FILE_VERSION)
  {
    hide Run;
    assert Inv(START);
    RunsKeepInv(START, events);
    assert Quotes(Run(START, events), s.permit.basis);
    QuotesWereHeld(START, events, s.permit.basis);
  }
}
