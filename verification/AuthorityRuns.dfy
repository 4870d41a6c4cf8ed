/**
 Runs of the authority process with I/O errors and crashes anywhere, and the
 proof that they refine atomic updates of one durable registry.
 */
module AuthorityRuns {
  import opened Optional
  import opened AuthorityTypes
  import opened AuthorityOps
  import opened AuthorityDisk
  import opened AuthorityInvariants

  // ---- What a directory durably says ----------------------------------------------

  /** The directory records registry `r`: its anchor, its envelope and the blob it names. */
  predicate Records(sz: Sizes, d: Disk, host: nat, r: Registry) {
    && d.anchor == Anchor(1, AnchorIdentity(r), host)
    && r.host == host
    && d.registry == StoredAs(r)
    && Encodable(sz, r)
    && r == Committed(r)
    && (r.pendingCommit.Some? ==>
          r.pendingBlob.value in d.blobs && d.blobs[r.pendingBlob.value] == Blob(r.pendingCommit.value))
  }

  /** Reopening a directory that records `r` yields exactly `r`, pending commit included. */
  lemma LoadRecovers(sz: Sizes, d: Disk, host: nat, r: Registry)
    requires Records(sz, d, host, r) && Good(r)
    ensures Load(sz, d, host) == Ready(r)
  {
    var p := Persisted(r);
    assert WellFormed(r) && AnchorIdentity(p) == AnchorIdentity(r);
    match r.pendingCommit
    case None =>
      assert p == r;
    case Some(intent) =>
      assert UsableBlob(sz, d, p.pendingBlob.value);
      assert p.(pendingCommit := Some(intent)) == r;
  }

  predicate AllRecord(sz: Sizes, points: seq<Disk>, host: nat, r: Registry) {
    forall p :: p in points ==> Records(sz, p, host, r)
  }

  /** Orphan pruning, stopped anywhere, never disturbs what the directory records. */
  lemma {:induction false} PruneKeepsRecord(sz: Sizes, d: Disk, host: nat, r: Registry, listing: seq<BlobRef>)
    requires Records(sz, d, host, r)
    ensures Records(sz, Pruned(d, r.pendingBlob, listing), host, r)
    ensures AllRecord(sz, PrunePoints(d, r.pendingBlob, listing), host, r)
    decreases listing
  {
    if listing != [] {
      if r.pendingBlob == Some(listing[0]) {
        PruneKeepsRecord(sz, d, host, r, listing[1..]);
      } else {
        PruneKeepsRecord(sz, Dropped(d, listing[0]), host, r, listing[1..]);
      }
    }
  }

  lemma CleanUpKeepsRecord(sz: Sizes, s: State, d: Disk, host: nat, next: Registry, env: Env)
    requires Records(sz, d, host, Committed(next))
    ensures Records(sz, CleanUp(s, d, next, env).disk, host, Committed(next))
    ensures AllRecord(sz, CleanUp(s, d, next, env).points, host, Committed(next))
  {
    var doomed := Doomed(s, next, env);
    var retired := if doomed == [] then d else Dropped(d, doomed[0]);
    assert Records(sz, retired, host, Committed(next));
    PruneKeepsRecord(sz, retired, host, Committed(next), env.removed);
  }

  /** The outcome of one call starting from a directory recording `prior`: the crash
      points before the replacement record `prior`, all later ones record `next`. */
  predicate SafeAttempt(sz: Sizes, host: nat, prior: Registry, next: Registry, a: Attempt) {
    && a.early <= |a.points|
    && AllRecord(sz, a.points[..a.early], host, prior)
    && AllRecord(sz, a.points[a.early..], host, next)
    && (Records(sz, a.disk, host, prior) || Records(sz, a.disk, host, next))
    && (a.state.Ready? ==>
          && (a.state.registry == prior || a.state.registry == next)
          && Records(sz, a.disk, host, a.state.registry))
    && !a.state.Uninitialized?
    && (a.ok ==> a.state == Ready(next))
  }

  lemma CommitIsCrashSafe(sz: Sizes, s: State, d: Disk, before: seq<Disk>, host: nat, prior: Registry, next: Registry,
    env: Env)
    requires Records(sz, d, host, prior) && AllRecord(sz, before, host, prior)
    requires next.host == host && AnchorIdentity(next) == AnchorIdentity(prior) && Encodable(sz, next)
    requires !NeedsBlob(d, next) && !BlobChanged(d, next)
    ensures SafeAttempt(sz, host, prior, Committed(next), CommitAttempt(s, d, before, next, env))
  {
    var written := d.(registry := StoredAs(next));
    assert Records(sz, written, host, Committed(next));
    CleanUpKeepsRecord(sz, s, written, host, next, env);
    var cleaned := CleanUp(s, written, next, env);
    assert (before + [written])[|before|..] == [written];
    assert (before + ([written] + cleaned.points))[|before|..] == [written] + cleaned.points;
    assert AllRecord(sz, [written] + cleaned.points, host, Committed(next));
  }

  /** Every crash point of a publication records exactly the old or exactly the new
      registry, and once the new one is recorded it stays. */
  lemma PublicationIsCrashSafe(sz: Sizes, d: Disk, host: nat, prior: Registry, next: Registry, env: Env)
    requires Records(sz, d, host, prior)
    requires next.host == host && AnchorIdentity(next) == AnchorIdentity(prior)
    ensures SafeAttempt(sz, host, prior, Committed(next), PublishAttempt(sz, Ready(prior), d, next, env))
  {
    if Publishable(sz, Ready(prior), next) && !BlobChanged(d, next) {
      if NeedsBlob(d, next) {
        var withBlob := WithBlob(d, next);
        assert Records(sz, withBlob, host, prior);
        CommitIsCrashSafe(sz, Ready(prior), withBlob, [withBlob], host, prior, next, env);
      } else {
        CommitIsCrashSafe(sz, Ready(prior), d, [], host, prior, next, env);
      }
    }
  }

  // ---- Runs ------------------------------------------------------------------------

  datatype World = World(disk: Disk, mem: State)

  datatype Call = Do(op: Op) | Reopen(newDomains: Domains) | Initialize(epoch: Uuid, domains: Domains)

  /** A call either returns or the process dies at one of its crash points. A dead
      process is an authority in state Unknown: only reopening does anything. */
  datatype Event = Returns(call: Call, env: Env) | Crashes(call: Call, env: Env, point: nat)

  predicate ValidCall(call: Call) {
    match call
    case Do(op) => ValidInput(op)
    case Reopen(domains) => ValidDomains(domains)
    case Initialize(epoch, domains) => epoch != NIL && ValidDomains(domains)
  }

  predicate ValidEvents(events: seq<Event>) {
    forall e :: e in events ==> ValidCall(e.call)
  }

  function Try(sz: Sizes, host: nat, w: World, call: Call, env: Env): Attempt {
    match call
    case Do(op) =>
      if w.mem.Ready? then Perform(sz, w.mem, w.disk, Decide(w.mem.registry, op), env)
      else Idle(w.mem, w.disk, false)
    case Reopen(domains) => OpenAttempt(sz, w.disk, host, domains, env)
    case Initialize(epoch, domains) => InitializeAttempt(sz, w.mem, w.disk, host, epoch, domains, env)
  }

  function Next(sz: Sizes, host: nat, w: World, e: Event): World {
    var a := Try(sz, host, w, e.call, e.env);
    match e
    case Returns(_, _) => World(a.disk, a.state)
    case Crashes(_, _, point) =>
      var reached := [w.disk] + a.points;
      World(reached[if point < |reached| then point else |reached| - 1], Unknown)
  }

  function Execute(sz: Sizes, host: nat, w: World, events: seq<Event>): World
    decreases events
  {
    if events == [] then w else Execute(sz, host, Next(sz, host, w, events[0]), events[1..])
  }

  // ---- Invariant and refinement ------------------------------------------------------

  /** A directory is blank, half initialized, or records a good registry. */
  predicate Sound(sz: Sizes, d: Disk, host: nat) {
    d.registry.NoRegistry? ||
    (Load(sz, d, host).Ready? && Good(Load(sz, d, host).registry) && Records(sz, d, host, Load(sz, d, host).registry))
  }

  predicate Inv(sz: Sizes, host: nat, w: World) {
    && Sound(sz, w.disk, host)
    && (!w.mem.Unknown? ==> Load(sz, w.disk, host) == w.mem)
  }

  function Durable(sz: Sizes, host: nat, d: Disk): Option<Registry> {
    var s := Load(sz, d, host);
    if s.Ready? then Some(s.registry) else None
  }

  lemma DurableIsGood(sz: Sizes, host: nat, w: World, r: Registry)
    requires Inv(sz, host, w) && Durable(sz, host, w.disk) == Some(r)
    ensures Good(r) && Records(sz, w.disk, host, r)
  {
    hide Good, Records;
  }

  /** The atomic effect of an operation on a registry. */
  function StepOf(r: Registry, op: Op): Registry {
    var d := Decide(r, op);
    if d.Publish? then Committed(d.next) else r
  }

  function AtomicRun(r: Registry, ops: seq<Op>): Registry
    decreases ops
  {
    if ops == [] then r else AtomicRun(StepOf(r, ops[0]), ops[1..])
  }

  lemma {:induction false} RunAppend(r: Registry, a: seq<Op>, b: seq<Op>)
    ensures AtomicRun(r, a + b) == AtomicRun(AtomicRun(r, a), b)
    decreases a
  {
    hide StepOf;
    if a == [] {
      assert a + b == b;
    } else {
      RunAppend(StepOf(r, a[0]), a[1..], b);
      assert (a + b)[1..] == a[1..] + b;
    }
  }

  lemma RunLast(r: Registry, ops: seq<Op>)
    requires ops != []
    ensures AtomicRun(r, ops) == StepOf(AtomicRun(r, ops[..|ops| - 1]), ops[|ops| - 1])
  {
    hide StepOf;
    var last := ops[|ops| - 1..];
    RunAppend(r, ops[..|ops| - 1], last);
    assert ops[..|ops| - 1] + last == ops && last[1..] == [];
  }

  lemma StepKeepsGood(r: Registry, op: Op)
    requires Good(r) && ValidInput(op)
    ensures Good(StepOf(r, op)) && StepOf(r, op).host == r.host && AnchorIdentity(StepOf(r, op)) == AnchorIdentity(r)
  {
    var d := Decide(r, op);
    if d.Publish? {
      GoodKept(r, op, d.next);
      assert Good(Committed(d.next));
    }
  }

  /** The operation a call may make durable: its own, or the domain upgrade of a reopen. */
  function OpOf(call: Call): Op
    requires !call.Initialize?
  {
    match call
    case Do(op) => op
    case Reopen(domains) => Coordination(UpgradeDomains(domains))
  }

  lemma PerformIsCrashSafe(sz: Sizes, d: Disk, host: nat, r: Registry, op: Op, env: Env)
    requires Records(sz, d, host, r) && Good(r) && ValidInput(op)
    ensures SafeAttempt(sz, host, r, StepOf(r, op), Perform(sz, Ready(r), d, Decide(r, op), env))
  {
    match Decide(r, op)
    case Publish(next) =>
      GoodKept(r, op, next);
      PublicationIsCrashSafe(sz, d, host, r, next, env);
    case _ =>
  }

  lemma OpenIsCrashSafe(sz: Sizes, d: Disk, host: nat, r: Registry, domains: Domains, env: Env)
    requires Records(sz, d, host, r) && Good(r) && ValidDomains(domains)
    ensures SafeAttempt(sz, host, r, StepOf(r, Coordination(UpgradeDomains(domains))),
                        OpenAttempt(sz, d, host, domains, env))
  {
    LoadRecovers(sz, d, host, r);
    var op := Coordination(UpgradeDomains(domains));
    if r.domains.None? {
      PerformIsCrashSafe(sz, d, host, r, op, env);
      var upgraded := Perform(sz, Ready(r), d, Decide(r, op), env);
      if upgraded.ok {
        PruneKeepsRecord(sz, upgraded.disk, host, StepOf(r, op), env.removed);
      }
    } else {
      PruneKeepsRecord(sz, d, host, r, env.removed);
    }
  }

  /** Wherever a safe call ends or is cut, the directory records one of two registries. */
  predicate Lands(sz: Sizes, host: nat, prior: Registry, next: Registry, w: World) {
    && (Durable(sz, host, w.disk) == Some(prior) || Durable(sz, host, w.disk) == Some(next))
    && Inv(sz, host, w)
  }

  lemma RecordedLands(sz: Sizes, host: nat, prior: Registry, next: Registry, w: World)
    requires Good(prior) && Good(next)
    requires Records(sz, w.disk, host, prior) || Records(sz, w.disk, host, next)
    requires w.mem.Unknown? || (w.mem.Ready? && Good(w.mem.registry) && Records(sz, w.disk, host, w.mem.registry))
    ensures Lands(sz, host, prior, next, w)
  {
    if Records(sz, w.disk, host, prior) {
      LoadRecovers(sz, w.disk, host, prior);
    } else {
      LoadRecovers(sz, w.disk, host, next);
    }
    if w.mem.Ready? { LoadRecovers(sz, w.disk, host, w.mem.registry); }
  }

  lemma SafeAttemptLands(sz: Sizes, host: nat, prior: Registry, next: Registry, w: World, e: Event)
    requires Good(prior) && Good(next) && Records(sz, w.disk, host, prior)
    requires SafeAttempt(sz, host, prior, next, Try(sz, host, w, e.call, e.env))
    ensures Lands(sz, host, prior, next, Next(sz, host, w, e))
  {
    hide Records, Good, Try, Load;
    var a := Try(sz, host, w, e.call, e.env);
    match e
    case Returns(_, _) => RecordedLands(sz, host, prior, next, World(a.disk, a.state));
    case Crashes(_, _, point) =>
      var reached := [w.disk] + a.points;
      var d := reached[if point < |reached| then point else |reached| - 1];
      assert a.points == a.points[..a.early] + a.points[a.early..];
      assert d == w.disk || d in a.points[..a.early] || d in a.points[a.early..];
      RecordedLands(sz, host, prior, next, World(d, Unknown));
  }

  /** One event, crash or not, leaves the durable registry alone or applies its operation whole. */
  lemma EventRefines(sz: Sizes, host: nat, w: World, e: Event, r: Registry)
    requires Inv(sz, host, w) && ValidCall(e.call) && Durable(sz, host, w.disk) == Some(r)
    ensures Inv(sz, host, Next(sz, host, w, e))
    ensures Durable(sz, host, Next(sz, host, w, e).disk) == Some(r)
            || (!e.call.Initialize? && Durable(sz, host, Next(sz, host, w, e).disk) == Some(StepOf(r, OpOf(e.call))))
  {
    assert Records(sz, w.disk, host, r) && Good(r);
    match e.call
    case Do(op) =>
      StepKeepsGood(r, op);
      PerformIsCrashSafe(sz, w.disk, host, r, op, e.env);
      SafeAttemptLands(sz, host, r, StepOf(r, op), w, e);
    case Reopen(domains) =>
      StepKeepsGood(r, OpOf(e.call));
      OpenIsCrashSafe(sz, w.disk, host, r, domains, e.env);
      SafeAttemptLands(sz, host, r, StepOf(r, OpOf(e.call)), w, e);
    case Initialize(_, _) =>
      SafeAttemptLands(sz, host, r, r, w, e);
  }

  /** The attempt of a first initialization: no point of it holds anything but the
      empty registry, and only under its own anchor. */
  predicate InitializesTo(sz: Sizes, host: nat, empty: Registry, a: Attempt) {
    && (forall d :: d in a.points ==> d.registry.NoRegistry? || Records(sz, d, host, empty))
    && (a.disk.registry.NoRegistry? || Records(sz, a.disk, host, empty))
    && (a.state.Unknown? || (a.state == Ready(empty) && Records(sz, a.disk, host, empty)))
  }

  lemma InitializationIsCrashSafe(sz: Sizes, host: nat, d: Disk, epoch: Uuid, domains: Domains, env: Env)
    requires d.anchor.NoAnchor? && d.registry.NoRegistry?
    ensures InitializesTo(sz, host, EmptyRegistry(epoch, host, domains),
        InitializeAttempt(sz, Uninitialized, d, host, epoch, domains, env))
  {
    hide AdmissionBytes, Pruned, PrunePoints;
    var empty := EmptyRegistry(epoch, host, domains);
    var anchored := d.(anchor := Anchor(1, epoch, host));
    var written := anchored.(registry := StoredAs(empty));
    assert Committed(empty) == empty;
    if Encodable(sz, empty) {
      assert Records(sz, written, host, empty);
      CleanUpKeepsRecord(sz, Unknown, written, host, empty, env);
    }
  }

  lemma InitializationLands(sz: Sizes, host: nat, w: World, e: Event, empty: Registry)
    requires Good(empty) && w.disk.registry.NoRegistry?
    requires InitializesTo(sz, host, empty, Try(sz, host, w, e.call, e.env))
    ensures Inv(sz, host, Next(sz, host, w, e))
    ensures Durable(sz, host, Next(sz, host, w, e).disk).Some? ==>
        Durable(sz, host, Next(sz, host, w, e).disk) == Some(empty)
  {
    hide Good, Try;
    var w' := Next(sz, host, w, e);
    if !w'.disk.registry.NoRegistry? {
      LoadRecovers(sz, w'.disk, host, empty);
    }
  }

  /** From a directory without history an event either leaves it so, possibly half
      initialized, or records an empty registry under a matching anchor. */
  lemma EventInitializes(sz: Sizes, host: nat, w: World, e: Event)
    requires Inv(sz, host, w) && ValidCall(e.call) && Durable(sz, host, w.disk).None?
    ensures Inv(sz, host, Next(sz, host, w, e))
    ensures Durable(sz, host, Next(sz, host, w, e).disk).Some? ==>
              e.call.Initialize?
              && Durable(sz, host, Next(sz, host, w, e).disk) == Some(EmptyRegistry(e.call.epoch, host, e.call.domains))
  {
    hide Records, PublishAttempt, Perform;
    assert w.disk.registry.NoRegistry?;
    if e.call.Initialize? && w.mem.Uninitialized? {
      var empty := EmptyRegistry(e.call.epoch, host, e.call.domains);
      assert Good(empty);
      InitializationIsCrashSafe(sz, host, w.disk, e.call.epoch, e.call.domains, e.env);
      InitializationLands(sz, host, w, e, empty);
    }
  }

  /** The operations of a run that became durable, in order. */
  function DurableOps(sz: Sizes, host: nat, w: World, events: seq<Event>): seq<Op>
    decreases events
  {
    if events == [] then []
    else
      var w' := Next(sz, host, w, events[0]);
      (if Durable(sz, host, w'.disk) == Durable(sz, host, w.disk) || events[0].call.Initialize? then []
          else [OpOf(events[0].call)])
      + DurableOps(sz, host, w', events[1..])
  }

  predicate ValidOps(ops: seq<Op>) {
    forall op :: op in ops ==> ValidInput(op)
  }

  /** Main refinement: a run with errors and crashes anywhere has the durable effect of
      running, atomically and in order, exactly the operations that became durable. */
  lemma {:induction false} CrashRunsRefineAtomicRuns(sz: Sizes, host: nat, w: World, events: seq<Event>, r: Registry)
    requires Inv(sz, host, w) && ValidEvents(events) && Durable(sz, host, w.disk) == Some(r)
    ensures Inv(sz, host, Execute(sz, host, w, events))
    ensures Durable(sz, host, Execute(sz, host, w, events).disk) == Some(AtomicRun(r, DurableOps(sz, host, w, events)))
    ensures ValidOps(DurableOps(sz, host, w, events))
    decreases events
  {
    hide Next, Load, Good, Sound, StepOf;
    if events != [] {
      var e := events[0];
      var w' := Next(sz, host, w, e);
      EventRefines(sz, host, w, e, r);
      var r' := Durable(sz, host, w'.disk).value;
      CrashRunsRefineAtomicRuns(sz, host, w', events[1..], r');
      var rest := DurableOps(sz, host, w', events[1..]);
      if r' == r {
        assert [] + rest == rest;
      } else {
        assert ([OpOf(e.call)] + rest)[1..] == rest;
      }
    }
  }

  /** Every state of every run from a sound directory is sound; memory that claims
      continuity agrees with the directory. */
  lemma {:induction false} RunsKeepInv(sz: Sizes, host: nat, w: World, events: seq<Event>)
    requires Inv(sz, host, w) && ValidEvents(events)
    ensures Inv(sz, host, Execute(sz, host, w, events))
    decreases events
  {
    hide Next, Load, Good, Sound;
    if events != [] {
      var e := events[0];
      match Durable(sz, host, w.disk) {
        case None => EventInitializes(sz, host, w, e);
        case Some(r) => EventRefines(sz, host, w, e, r);
      }
      RunsKeepInv(sz, host, Next(sz, host, w, e), events[1..]);
    }
  }
}
