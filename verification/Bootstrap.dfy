/**
 The bootstrap protocol of one operation: Windows launchers arm and seal a hold in
 the durable authority, Linux supervisors run the user code inside a recorded
 cgroup, and exclusive files in the operation's directory link the two. Any
 process may die between two steps, the Linux side may reboot, every request may
 be replayed, and the authority serves any other operation in between.
 */
module Bootstrap {
  import opened Optional
  import opened AuthorityTypes
  import opened AuthorityOps
  import opened AuthorityRuns

  // ---- Data ----------------------------------------------------------------------------------------

  /** What `boundary.json` records, and what the proof must repeat. */
  datatype Identity = Identity(operationId: Uuid, requestHash: nat, bootId: nat, cgroupInode: nat)

  /** The operation's directory. Every file is created exclusively and never replaced. */
  datatype Files = Files(
    directory: bool, intent: Option<nat>, claimed: Option<nat>, boundary: Option<Identity>,
    root: bool, releaseIntent: bool, proof: Option<CleanupProof>)

  /** How far a supervisor is, named after its last completed effect. */
  datatype Stage =
    | Starting | Claimed | Made | Recorded | Forked | Rooted | Attached | Intended | Waiting
    | Closing | Killed | Drained | Collected | Removed | Done | Dead

  datatype Barrier = Unwritten | Granted | Closed

  /** The root child: blocked on the barrier, running user code, dead but unreaped, or reaped. */
  datatype Child = NoChild | Blocked | Running | Zombie | Reaped | Gone

  /** A supervisor with its child and its cgroup, which both outlive it. `tasks` counts the live
      processes inside the cgroup, the attached root among them. */
  datatype Supervisor = Supervisor(
    stage: Stage, identity: Identity, termination: Termination, exit: int,
    barrier: Barrier, child: Child, attached: bool, tasks: nat, mounted: bool, started: bool)

  datatype Launcher =
    | Idle | Ready(binding: Binding) | Preparing(binding: Binding) | Polling(binding: Binding)
    | Carrying(proof: CleanupProof)

  datatype World = World(
    operation: Uuid, registry: Registry, boot: nat, files: Files,
    supervisors: map<nat, Supervisor>, launchers: map<nat, Launcher>, owner: Option<nat>, starts: nat)

  datatype Choice = Proceed(inode: nat, exit: int, termination: Termination) | Raise | Die

  datatype Event =
    | Authority(op: Op)
    | Arm(launcher: nat, binding: Binding, requester: nat, reason: string)
    | MakeDirectory(launcher: nat) | WriteIntent(launcher: nat) | Collect(launcher: nat)
    | Reconcile(launcher: nat) | Seal(launcher: nat, requester: nat, reason: string) | Abandon(launcher: nat)
    | Start(supervisor: nat)
    | Supervise(supervisor: nat, choice: Choice)
    | ChildReads(supervisor: nat) | RootExits(supervisor: nat) | TaskForks(supervisor: nat) | TaskExits(supervisor: nat)
    | Reboot(newBoot: nat)

  const NO_FILES := Files(false, None, None, None, false, false, None)
  const NEWBORN := Supervisor(Starting, Identity(NIL, 0, 0, 0), Exited, 0, Unwritten, NoChild, false, 0, false, false)

  // ---- The supervisor ------------------------------------------------------------------------------

  function Rank(s: Stage): nat {
    match s
    case Starting => 0 case Claimed => 1 case Made => 2 case Recorded => 3
    case Forked => 4 case Rooted => 5 case Attached => 6 case Intended => 7 case Waiting => 8
    case Closing => 9 case Killed => 10 case Drained => 11 case Collected => 12 case Removed => 13 case Done => 14
    case Dead => 15
  }

  /** Death closes an unwritten barrier; a byte already written stays readable. */
  function Died(v: Supervisor): Supervisor {
    v.(stage := Dead, barrier := if v.barrier.Granted? then Granted else Closed)
  }

  /** An error after the fork runs the cleanup block; anywhere else it ends the supervisor. */
  function Raised(v: Supervisor): Supervisor {
    if 4 <= Rank(v.stage) <= 8 then v.(stage := Closing) else Died(v)
  }

  function IdentityOf(p: CleanupProof): Identity { Identity(p.operationId, p.requestHash, p.bootId, p.cgroupInode) }

  function ProofOf(v: Supervisor): CleanupProof {
    CleanupProof(v.identity.operationId, v.identity.requestHash, SealedEmpty, v.identity.bootId, v.identity.cgroupInode,
                 v.termination, v.exit)
  }

  /** Up to the fork: claim the operation, create and record its boundary. */
  function Prepare(operation: Uuid, boot: nat, f: Files, v: Supervisor, inode: nat): (Files, Supervisor) {
    match v.stage
    case Starting =>
      if f.intent.None? || f.claimed.Some? then (f, Died(v))
      else (f.(claimed := Some(boot)), v.(stage := Claimed, identity := Identity(operation, f.intent.value, boot, 0)))
    case Claimed =>
      if inode == 0 then (f, Died(v))
      else (f, v.(stage := Made, mounted := true, identity := v.identity.(cgroupInode := inode)))
    case Made =>
      if f.boundary.Some? then (f, Died(v)) else (f.(boundary := Some(v.identity)), v.(stage := Recorded))
    case Recorded => (f, v.(stage := Forked, child := Blocked))
    case _ => (f, v)
  }

  /** From the fork to the one release byte, and the wait that follows it. */
  function Release(f: Files, v: Supervisor, exit: int, termination: Termination): (Files, Supervisor) {
    match v.stage
    case Forked => if f.root then (f, Raised(v)) else (f.(root := true), v.(stage := Rooted))
    case Rooted =>
      if v.child.Blocked? then (f, v.(stage := Attached, attached := true, tasks := v.tasks + 1)) else (f, Raised(v))
    case Attached => if f.releaseIntent then (f, Raised(v)) else (f.(releaseIntent := true), v.(stage := Intended))
    case Intended => (f, v.(stage := Waiting, barrier := Granted))
    case Waiting =>
      if v.child.Zombie? then (f, v.(stage := Closing, child := Reaped, exit := exit))
      else (f, v.(stage := Closing, termination := termination))
    case _ => (f, v)
  }

  /** The cleanup block: kill, drain, reap, remove, and only then publish the proof. */
  function CleanUp(f: Files, v: Supervisor, exit: int): (Files, Supervisor) {
    match v.stage
    case Closing => (f, v.(stage := Killed, barrier := if v.barrier.Granted? then Granted else Closed))
    case Killed => (f, if v.tasks == 0 then v.(stage := Drained) else v)
    case Drained =>
      if v.child.Reaped? then (f, v.(stage := Collected))
      else if v.child.Zombie? then (f, v.(stage := Collected, child := Reaped, exit := exit))
      else (f, v)
    case Collected => if v.tasks == 0 then (f, v.(stage := Removed, mounted := false)) else (f, Died(v))
    case Removed => if f.proof.Some? then (f, Died(v)) else (f.(proof := Some(ProofOf(v))), v.(stage := Done))
    case _ => (f, v)
  }

  function SuperviseStep(operation: Uuid, boot: nat, f: Files, v: Supervisor, c: Choice): (Files, Supervisor) {
    match c
    case Die => (f, Died(v))
    case Raise => (f, if v.stage.Done? || v.stage.Dead? then v else Raised(v))
    case Proceed(inode, exit, termination) =>
      if Rank(v.stage) <= 3 then Prepare(operation, boot, f, v, inode)
      else if Rank(v.stage) <= 8 then Release(f, v, exit, termination)
      else CleanUp(f, v, exit)
  }

  /** The root leaves: it exits, is killed, or found the barrier closed. */
  function RootGone(v: Supervisor): Supervisor {
    v.(child := Zombie, tasks := if v.attached && v.tasks > 0 then v.tasks - 1 else v.tasks)
  }

  function TaskStep(v: Supervisor, e: Event): Supervisor {
    match e
    case ChildReads(_) =>
      if v.child.Blocked? && v.barrier.Granted? then v.(child := Running, started := true)
      else if v.child.Blocked? && v.barrier.Closed? then RootGone(v)
      else v
    case RootExits(_) => if v.child.Blocked? || v.child.Running? then RootGone(v) else v
    case TaskForks(_) => if v.tasks > 0 && v.started then v.(tasks := v.tasks + 1) else v
    case TaskExits(_) =>
      var root := if v.attached && (v.child.Blocked? || v.child.Running?) then 1 else 0;
      if v.tasks > root then v.(tasks := v.tasks - 1) else v
    case _ => v
  }

  /** A reboot ends every process and every cgroup. */
  function Rebooted(v: Supervisor): Supervisor {
    v.(stage := Dead, barrier := Closed, tasks := 0, mounted := false,
       child := if v.child.NoChild? || v.child.Reaped? then v.child else Gone)
  }

  // ---- The launcher --------------------------------------------------------------------------------

  /** The embedded inspector: the proof, if every durable record agrees with it. */
  function Inspect(operation: Uuid, f: Files, expected: nat): Option<CleanupProof> {
    if f.intent != Some(expected) || f.proof.None? || f.boundary.None? || f.claimed.None? then None
    else
      var p := f.proof.value;
      if p.requestHash != expected || p.operationId != operation || p.phase != SealedEmpty then None
      else if f.claimed != Some(p.bootId) || f.boundary != Some(IdentityOf(p)) then None
      else Some(p)
  }

  function PhaseOf(w: World, l: nat): Launcher { if l in w.launchers then w.launchers[l] else Idle }

  function Enter(w: World, l: nat, p: Launcher): World { w.(launchers := w.launchers[l := p]) }

  function Carry(p: Option<CleanupProof>): Launcher { if p.Some? then Carrying(p.value) else Idle }

  predicate Armed(r: Registry, operation: Uuid, b: Binding) {
    operation in r.holds && r.holds[operation].bootstrap == Some(b)
  }

  /** Launch only after the authority acknowledged an unreleased hold with this exact binding. */
  function ArmStep(w: World, l: nat, op: Op, b: Binding): World {
    var w' := w.(registry := StepOf(w.registry, op));
    if !Decide(w.registry, op).Refuse? && Armed(w'.registry, w.operation, b) && !w'.registry.holds[w.operation].released
    then Enter(w', l, Ready(b)) else Enter(w', l, Idle)
  }

  function LauncherStep(w: World, e: Event): World {
    match e
    case Arm(l, b, requester, reason) =>
      if PhaseOf(w, l).Idle? && b.operationId == w.operation && ValidBinding(b) && ValidReason(reason)
      then ArmStep(w, l, Holding(ArmBootstrap(b, requester, reason)), b) else w
    case MakeDirectory(l) =>
      if !PhaseOf(w, l).Ready? then w
      else if w.files.directory then Enter(w, l, Idle)
      else Enter(w.(files := w.files.(directory := true)), l, Preparing(PhaseOf(w, l).binding))
    case WriteIntent(l) =>
      if !PhaseOf(w, l).Preparing? then w
      else if w.files.intent.Some? then Enter(w, l, Idle)
      else
        var b := PhaseOf(w, l).binding;
        Enter(w.(files := w.files.(intent := Some(b.requestHash))), l, Polling(b))
    case Collect(l) =>
      if PhaseOf(w, l).Polling?
      then Enter(w, l, Carry(Inspect(w.operation, w.files, PhaseOf(w, l).binding.requestHash)))
      else w
    case Reconcile(l) =>
      if PhaseOf(w, l).Idle? && w.operation in w.registry.holds && w.registry.holds[w.operation].bootstrap.Some?
      then Enter(w, l, Carry(Inspect(w.operation, w.files, w.registry.holds[w.operation].bootstrap.value.requestHash)))
      else w
    case Seal(l, requester, reason) =>
      if PhaseOf(w, l).Carrying? && ValidReason(reason) then
        var op := Holding(SealBootstrap(PhaseOf(w, l).proof, requester, reason));
        Enter(w.(registry := StepOf(w.registry, op)), l, Idle)
      else w
    case Abandon(l) => Enter(w, l, Idle)
    case _ => w
  }

  // ---- The whole protocol --------------------------------------------------------------------------

  predicate SealsOperation(op: Op, operation: Uuid) {
    op.Holding? && op.holding.SealBootstrap? && op.holding.proof.operationId == operation
  }

  function SupervisorEvent(w: World, s: nat, c: Choice): World
    requires s in w.supervisors
  {
    var v := w.supervisors[s];
    var r := SuperviseStep(w.operation, w.boot, w.files, v, c);
    var f, v' := r.0, r.1;
    w.(files := f, supervisors := w.supervisors[s := v'],
       owner := if v.stage.Starting? && v'.stage.Claimed? then Some(s) else w.owner)
  }

  function TaskEvent(w: World, s: nat, e: Event): World
    requires s in w.supervisors
  {
    var v := w.supervisors[s];
    var v' := TaskStep(v, e);
    w.(supervisors := w.supervisors[s := v'], starts := w.starts + if !v.started && v'.started then 1 else 0)
  }

  function Next(w: World, e: Event): World {
    match e
    case Authority(op) => if SealsOperation(op, w.operation) then w else w.(registry := StepOf(w.registry, op))
    case Start(s) => if s in w.supervisors then w else w.(supervisors := w.supervisors[s := NEWBORN])
    case Supervise(s, c) => if s in w.supervisors then SupervisorEvent(w, s, c) else w
    case ChildReads(s) => if s in w.supervisors then TaskEvent(w, s, e) else w
    case RootExits(s) => if s in w.supervisors then TaskEvent(w, s, e) else w
    case TaskForks(s) => if s in w.supervisors then TaskEvent(w, s, e) else w
    case TaskExits(s) => if s in w.supervisors then TaskEvent(w, s, e) else w
    case Reboot(b) => w.(boot := b, supervisors := map s | s in w.supervisors :: Rebooted(w.supervisors[s]))
    case _ => LauncherStep(w, e)
  }

  function Run(w: World, events: seq<Event>): World
    decreases events
  {
    if events == [] then w else Run(Next(w, events[0]), events[1..])
  }

  /** An operation nobody has touched, at an authority that does not know it. */
  predicate Fresh(w: World) {
    && w.operation !in w.registry.holds && w.files == NO_FILES
    && w.supervisors == map[] && w.launchers == map[] && w.owner.None? && w.starts == 0
  }

  // ---- Invariant -----------------------------------------------------------------------------------

  /** Child, barrier and cgroup agree with the stage. */
  predicate Sound(v: Supervisor) {
    var k := Rank(v.stage);
    && (k <= 3 ==> v.child.NoChild?)
    && (v.child.NoChild? ==> v.tasks == 0 && !v.attached && !v.started)
    && (!v.mounted ==> v.tasks == 0)
    && (2 <= k <= 12 ==> v.mounted)
    && (v.attached && (v.child.Blocked? || v.child.Running?) ==> v.tasks >= 1)
    && (v.child.Running? || (v.child.Blocked? && v.barrier.Granted?) ==> v.attached)
    && (k <= 7 ==> v.barrier.Unwritten?)
    && (6 <= k <= 8 ==> v.attached)
    && (11 <= k <= 14 ==> v.tasks == 0)
    && (12 <= k <= 14 ==> v.child.Reaped?)
    && (13 <= k <= 14 ==> !v.mounted)
    && (v.started ==> !v.child.Blocked?)
    && (v.barrier.Granted? ==> k >= 8)
  }

  /** Nothing of it is left: boundary empty and removed, root reaped, never to run again. */
  predicate Quiet(v: Supervisor) {
    v.tasks == 0 && !v.mounted && v.child.Reaped? && (v.stage.Done? || v.stage.Dead?)
  }

  predicate Inert(v: Supervisor) {
    (v.stage.Starting? || v.stage.Dead?) && v.child.NoChild? && !v.started && !v.mounted && !v.barrier.Granted?
  }

  /** The claiming supervisor agrees with the files. */
  predicate Owned(operation: Uuid, f: Files, v: Supervisor) {
    var k := Rank(v.stage);
    && k >= 1 && f.intent.Some? && f.claimed.Some?
    && (k < 15 ==>
          && v.identity.operationId == operation
          && f.intent == Some(v.identity.requestHash) && f.claimed == Some(v.identity.bootId))
    && (2 <= k < 15 ==> v.identity.cgroupInode != 0)
    && (k <= 2 ==> f.boundary.None?)
    && (3 <= k < 15 ==> f.boundary == Some(v.identity))
    && (k == 7 || v.barrier.Granted? || v.started ==> f.releaseIntent)
    && (f.proof.Some? ==> Quiet(v))
  }

  predicate ProofContinuous(operation: Uuid, f: Files) {
    f.proof.Some? ==>
      f.intent.Some? && Inspect(operation, f, f.intent.value) == f.proof && f.proof.value.cgroupInode != 0
  }

  predicate SupervisorsInv(w: World) {
    && (forall s :: s in w.supervisors ==> Sound(w.supervisors[s]))
    && (forall s :: s in w.supervisors && w.owner != Some(s) ==> Inert(w.supervisors[s]))
    && (w.owner.Some? <==> w.files.claimed.Some?)
    && (w.owner.Some? ==> w.owner.value in w.supervisors && Owned(w.operation, w.files, w.supervisors[w.owner.value]))
    && (w.owner.None? ==> w.files.boundary.None? && w.files.proof.None? && w.starts == 0)
    && (w.owner.Some? ==> w.starts == if w.supervisors[w.owner.value].started then 1 else 0)
    && ProofContinuous(w.operation, w.files)
  }

  /** A hold's binding names the hold. */
  predicate Named(r: Registry, id: Uuid) {
    id in r.holds && r.holds[id].bootstrap.Some? ==> r.holds[id].bootstrap.value.operationId == id
  }

  predicate IntentArmed(w: World) {
    && Named(w.registry, w.operation)
    && (w.files.intent.Some? ==>
          && w.files.directory && w.operation in w.registry.holds && w.registry.holds[w.operation].bootstrap.Some?
          && w.registry.holds[w.operation].bootstrap.value.requestHash == w.files.intent.value)
    && (forall l :: l in w.launchers && (w.launchers[l].Ready? || w.launchers[l].Preparing?) ==>
          Armed(w.registry, w.operation, w.launchers[l].binding) && (w.launchers[l].Preparing? ==> w.files.directory))
  }

  /** A proof anyone holds, or the authority accepted, is the one on disk. */
  predicate ProofsAreSealed(w: World) {
    && (forall l :: l in w.launchers && w.launchers[l].Carrying? ==> w.files.proof == Some(w.launchers[l].proof))
    && (w.operation in w.registry.holds && w.registry.holds[w.operation].proof.Some? ==>
          w.files.proof == w.registry.holds[w.operation].proof)
  }

  predicate Inv(w: World) { SupervisorsInv(w) && IntentArmed(w) && ProofsAreSealed(w) }

  // ---- Preservation: one supervisor ----------------------------------------------------------------

  lemma PrepareKeeps(operation: Uuid, boot: nat, f: Files, v: Supervisor, inode: nat)
    requires Sound(v) && Owned(operation, f, v) && 1 <= Rank(v.stage) <= 3
    ensures var r := Prepare(operation, boot, f, v, inode); var f', v' := r.0, r.1;
            Sound(v') && Owned(operation, f', v') && f'.(boundary := f.boundary) == f && v'.started == v.started
                && f.proof.None?
  {
  }

  lemma ReleaseIsSound(f: Files, v: Supervisor, exit: int, termination: Termination)
    requires Sound(v) && 4 <= Rank(v.stage) <= 8
    ensures Sound(Release(f, v, exit, termination).1)
  {
  }

  predicate SameRecords(f: Files, g: Files) {
    g.directory == f.directory && g.intent == f.intent && g.claimed == f.claimed && g.boundary == f.boundary
        && g.proof == f.proof
  }

  lemma ReleaseKeepsRecords(f: Files, v: Supervisor, exit: int, termination: Termination)
    requires 4 <= Rank(v.stage) <= 8
    ensures var r := Release(f, v, exit, termination);
            SameRecords(f, r.0) && (f.releaseIntent ==> r.0.releaseIntent) && r.1.identity == v.identity
                && r.1.started == v.started
  {
  }

  /** The release byte follows the durable release intent. */
  lemma IntentPrecedesRelease(f: Files, v: Supervisor, exit: int, termination: Termination)
    requires 4 <= Rank(v.stage) <= 8 && (v.stage.Intended? || v.barrier.Granted? ==> f.releaseIntent)
    ensures var r := Release(f, v, exit, termination);
            4 <= Rank(r.1.stage) <= 9 && (r.1.stage.Intended? || r.1.barrier.Granted? ==> r.0.releaseIntent)
  {
  }

  lemma ReleaseKeeps(operation: Uuid, f: Files, v: Supervisor, exit: int, termination: Termination)
    requires Sound(v) && Owned(operation, f, v) && 4 <= Rank(v.stage) <= 8
    ensures var r := Release(f, v, exit, termination); var f', v' := r.0, r.1;
            && Sound(v') && Owned(operation, f', v') && f.proof.None?
            && SameRecords(f, f') && v'.started == v.started
  {
    hide Sound, Release;
    ReleaseIsSound(f, v, exit, termination);
    ReleaseKeepsRecords(f, v, exit, termination);
    IntentPrecedesRelease(f, v, exit, termination);
  }

  lemma CleanUpIsSound(f: Files, v: Supervisor, exit: int)
    requires Sound(v) && Rank(v.stage) >= 9
    ensures Sound(CleanUp(f, v, exit).1)
    ensures v.stage.Removed? ==> Quiet(v.(stage := Done)) && v.identity == IdentityOf(ProofOf(v))
  {
  }

  /** Publishing the proof is the last effect: by then the boundary is empty, removed and its root reaped. */
  lemma CleanUpKeeps(operation: Uuid, f: Files, v: Supervisor, exit: int)
    requires Sound(v) && Owned(operation, f, v) && Rank(v.stage) >= 9 && ProofContinuous(operation, f)
    ensures var r := CleanUp(f, v, exit); var f', v' := r.0, r.1;
            && Sound(v') && Owned(operation, f', v') && ProofContinuous(operation, f')
            && f'.(proof := f.proof) == f && (f.proof.Some? ==> f'.proof == f.proof) && v'.started == v.started
  {
    CleanUpIsSound(f, v, exit);
    hide Sound;
  }

  /** What one supervisor step leaves of the files: every record stays, and the proof once published. */
  predicate Extends(f: Files, g: Files) {
    && g.directory == f.directory && g.intent == f.intent
    && (f.claimed.Some? ==> g.claimed == f.claimed) && (f.proof.Some? ==> g.proof == f.proof)
  }

  lemma OwnerKeeps(operation: Uuid, boot: nat, f: Files, v: Supervisor, c: Choice)
    requires Sound(v) && Owned(operation, f, v) && ProofContinuous(operation, f)
    ensures var r := SuperviseStep(operation, boot, f, v, c); var g, u := r.0, r.1;
            Sound(u) && Owned(operation, g, u) && ProofContinuous(operation, g) && Extends(f, g)
                && g.claimed == f.claimed && u.started == v.started
  {
    match c
    case Proceed(inode, exit, termination) =>
      if Rank(v.stage) <= 3 { PrepareKeeps(operation, boot, f, v, inode); }
      else if Rank(v.stage) <= 8 { ReleaseKeeps(operation, f, v, exit, termination); }
      else { CleanUpKeeps(operation, f, v, exit); }
      hide Prepare, Release, CleanUp, Sound, Owned;
    case _ =>
  }

  /** A supervisor that has not claimed either takes the free claim or ends without an effect. */
  lemma NewcomerKeeps(operation: Uuid, boot: nat, f: Files, v: Supervisor, c: Choice)
    requires Sound(v) && Inert(v)
    ensures var r := SuperviseStep(operation, boot, f, v, c); var g, u := r.0, r.1;
            && Sound(u) && u.started == v.started
            && (u.stage.Claimed? ==>
                  && v.stage.Starting? && f.intent.Some? && f.claimed.None? && g == f.(claimed := Some(boot))
                  && u.identity == Identity(operation, f.intent.value, boot, 0) && !u.barrier.Granted?)
            && (!u.stage.Claimed? ==> Inert(u) && g == f)
  {
  }

  lemma TaskKeeps(operation: Uuid, f: Files, v: Supervisor, e: Event)
    requires Sound(v)
    ensures Sound(TaskStep(v, e))
    ensures Inert(v) ==> TaskStep(v, e) == v
    ensures Owned(operation, f, v) ==> Owned(operation, f, TaskStep(v, e))
    ensures v.started ==> TaskStep(v, e).started
  {
  }

  lemma RebootKeeps(operation: Uuid, f: Files, v: Supervisor)
    requires Sound(v)
    ensures Sound(Rebooted(v)) && Rebooted(v).started == v.started
    ensures Inert(v) ==> Inert(Rebooted(v))
    ensures Owned(operation, f, v) ==> Owned(operation, f, Rebooted(v))
  {
  }

  // ---- Preservation: the world ---------------------------------------------------------------------

  lemma SupervisorEventKeeps(w: World, s: nat, c: Choice)
    requires SupervisorsInv(w) && s in w.supervisors
    ensures SupervisorsInv(SupervisorEvent(w, s, c)) && Extends(w.files, SupervisorEvent(w, s, c).files)
  {
    hide SuperviseStep, Sound, Inspect;
    var v := w.supervisors[s];
    if w.owner == Some(s) {
      OwnerKeeps(w.operation, w.boot, w.files, v, c);
      assert Rank(v.stage) >= 1;
    } else {
      NewcomerKeeps(w.operation, w.boot, w.files, v, c);
    }
  }

  lemma TaskEventKeeps(w: World, s: nat, e: Event)
    requires SupervisorsInv(w) && s in w.supervisors
    ensures SupervisorsInv(TaskEvent(w, s, e))
  {
    TaskKeeps(w.operation, w.files, w.supervisors[s], e);
    hide TaskStep, Sound, Owned;
  }

  lemma StartKeeps(w: World, s: nat)
    requires Inv(w)
    ensures Inv(Next(w, Start(s)))
  {
    assert Sound(NEWBORN) && Inert(NEWBORN);
    hide Sound, Inert, Owned, ProofContinuous, IntentArmed, ProofsAreSealed, LauncherStep, SupervisorEvent, TaskEvent,
      StepOf, Rebooted;
    FilesGrowKeepsLaunchers(w, Next(w, Start(s)));
    if w.owner.Some? { assert s == w.owner.value ==> s in w.supervisors; }
  }

  lemma RebootEventKeeps(w: World, b: nat)
    requires SupervisorsInv(w)
    ensures SupervisorsInv(Next(w, Reboot(b)))
  {
    forall s | s in w.supervisors
      ensures Sound(Rebooted(w.supervisors[s])) && Rebooted(w.supervisors[s]).started == w.supervisors[s].started
      ensures Inert(w.supervisors[s]) ==> Inert(Rebooted(w.supervisors[s]))
      ensures Owned(w.operation, w.files, w.supervisors[s]) ==> Owned(w.operation, w.files, Rebooted(w.supervisors[s]))
    {
      RebootKeeps(w.operation, w.files, w.supervisors[s]);
    }
    hide Rebooted, Sound, Owned, Inert, LauncherStep, SupervisorEvent, TaskEvent;
  }

  predicate ForcesRelease(op: Op, id: Uuid) {
    op.Holding? && op.holding.ForceRelease? && op.holding.id == id
  }

  lemma OtherOperationsKeepHolds(r: Registry, op: Op)
    requires !op.Holding?
    ensures StepOf(r, op).holds == r.holds
  {
    hide DecideNative, DecideMachine, DecidePeer, DecideCoordination;
  }

  lemma HoldOperationsKeepHolds(r: Registry, op: HoldOp, id: Uuid)
    requires id in r.holds
    ensures id in StepOf(r, Holding(op)).holds
    ensures var before, after := r.holds[id], StepOf(r, Holding(op)).holds[id];
            && after.bootstrap == before.bootstrap && (before.released ==> after == before)
            && (|| after.proof == before.proof
                || (op.SealBootstrap? && op.proof.operationId == id && after.proof == Some(op.proof)))
            && (!before.released && after.released ==> (op.ForceRelease? && op.id == id) || after.proof.Some?)
  {
    hide DecideNative, DecideMachine, DecidePeer, DecideCoordination;
    match op
    case PlaceHold(_, _, _) =>
    case ForceRelease(_, _, _) =>
    case ArmBootstrap(_, _, _) =>
    case SealBootstrap(_, _, _) =>
  }

  lemma NewHoldIsUnreleased(r: Registry, op: HoldOp, id: Uuid)
    requires id !in r.holds && id in StepOf(r, Holding(op)).holds
    ensures StepOf(r, Holding(op)).holds[id].proof.None? && !StepOf(r, Holding(op)).holds[id].released
    ensures Named(StepOf(r, Holding(op)), id)
  {
    hide DecideNative, DecideMachine, DecidePeer, DecideCoordination;
  }

  /** No authority operation forgets a hold, rebinds it or touches it once released; only its own seal
      gives it a proof, and without one it is released only by force. */
  lemma HoldEffect(r: Registry, op: Op, id: Uuid)
    ensures id in r.holds ==> id in StepOf(r, op).holds && StepOf(r, op).holds[id].bootstrap == r.holds[id].bootstrap
    ensures id in r.holds && r.holds[id].released ==> StepOf(r, op).holds[id] == r.holds[id]
    ensures id in r.holds ==>
              var proof := StepOf(r, op).holds[id].proof;
              proof == r.holds[id].proof || (SealsOperation(op, id) && proof == Some(op.holding.proof))
    ensures id !in r.holds && id in StepOf(r, op).holds ==>
        StepOf(r, op).holds[id].proof.None? && !StepOf(r, op).holds[id].released
    ensures Named(r, id) ==> Named(StepOf(r, op), id)
    ensures id in r.holds && !r.holds[id].released && StepOf(r, op).holds[id].released ==>
              ForcesRelease(op, id) || StepOf(r, op).holds[id].proof.Some?
  {
    hide StepOf;
    if !op.Holding? {
      OtherOperationsKeepHolds(r, op);
    } else if id in r.holds {
      HoldOperationsKeepHolds(r, op.holding, id);
    } else if id in StepOf(r, op).holds {
      NewHoldIsUnreleased(r, op.holding, id);
    }
  }

  lemma AuthorityKeeps(w: World, op: Op)
    requires Inv(w) && (SealsOperation(op, w.operation) ==> w.files.proof == Some(op.holding.proof))
    ensures Inv(w.(registry := StepOf(w.registry, op)))
  {
    HoldEffect(w.registry, op, w.operation);
    hide StepOf, Sound, Owned, Inert, ProofContinuous;
  }

  predicate IsLauncherEvent(e: Event) {
    e.Arm? || e.MakeDirectory? || e.WriteIntent? || e.Collect? || e.Reconcile? || e.Seal? || e.Abandon?
  }

  /** Entering another phase keeps the invariant if the phase is backed by the registry and the files. */
  lemma EnterKeeps(w: World, l: nat, p: Launcher)
    requires Inv(w) && (p.Ready? || p.Preparing? ==> Armed(w.registry, w.operation, p.binding))
    requires (p.Preparing? ==> w.files.directory) && (p.Carrying? ==> w.files.proof == Some(p.proof))
    ensures Inv(Enter(w, l, p))
  {
    hide Sound, Owned, Inert, ProofContinuous;
  }

  lemma DirectoryKeeps(w: World)
    requires Inv(w)
    ensures Inv(w.(files := w.files.(directory := true)))
  {
    hide Sound, Inert;
  }

  lemma IntentKeeps(w: World, b: Binding)
    requires Inv(w) && w.files.intent.None? && w.files.directory && Armed(w.registry, w.operation, b)
    ensures Inv(w.(files := w.files.(intent := Some(b.requestHash))))
  {
    hide Sound, Inert;
  }

  lemma InspectReturnsFile(operation: Uuid, f: Files, expected: nat)
    ensures Inspect(operation, f, expected).Some? ==> f.proof == Inspect(operation, f, expected)
  {
  }

  lemma ArmKeeps(w: World, l: nat, op: Op, b: Binding)
    requires Inv(w) && !SealsOperation(op, w.operation)
    ensures Inv(ArmStep(w, l, op, b))
  {
    hide Inv, StepOf, Decide;
    AuthorityKeeps(w, op);
    var w' := w.(registry := StepOf(w.registry, op));
    if Armed(w'.registry, w.operation, b) { EnterKeeps(w', l, Ready(b)); }
    EnterKeeps(w', l, Idle);
  }

  lemma MakeDirectoryKeeps(w: World, l: nat)
    requires Inv(w)
    ensures Inv(LauncherStep(w, MakeDirectory(l)))
  {
    var phase := PhaseOf(w, l);
    assert phase.Ready? ==> Armed(w.registry, w.operation, phase.binding);
    hide Inv;
    EnterKeeps(w, l, Idle);
    DirectoryKeeps(w);
    if phase.Ready? { EnterKeeps(w.(files := w.files.(directory := true)), l, Preparing(phase.binding)); }
  }

  lemma WriteIntentKeeps(w: World, l: nat)
    requires Inv(w)
    ensures Inv(LauncherStep(w, WriteIntent(l)))
  {
    var phase := PhaseOf(w, l);
    assert phase.Preparing? ==> w.files.directory && Armed(w.registry, w.operation, phase.binding);
    hide Inv;
    EnterKeeps(w, l, Idle);
    if phase.Preparing? && w.files.intent.None? {
      IntentKeeps(w, phase.binding);
      EnterKeeps(w.(files := w.files.(intent := Some(phase.binding.requestHash))), l, Polling(phase.binding));
    }
  }

  lemma CarryKeeps(w: World, l: nat, expected: nat)
    requires Inv(w)
    ensures Inv(Enter(w, l, Carry(Inspect(w.operation, w.files, expected))))
  {
    hide Inv, Inspect;
    InspectReturnsFile(w.operation, w.files, expected);
    EnterKeeps(w, l, Carry(Inspect(w.operation, w.files, expected)));
  }

  lemma SealKeeps(w: World, l: nat, requester: nat, reason: string)
    requires Inv(w)
    ensures Inv(LauncherStep(w, Seal(l, requester, reason)))
  {
    var phase := PhaseOf(w, l);
    assert phase.Carrying? ==> w.files.proof == Some(phase.proof);
    hide Inv, StepOf;
    if phase.Carrying? {
      var op := Holding(SealBootstrap(phase.proof, requester, reason));
      AuthorityKeeps(w, op);
      EnterKeeps(w.(registry := StepOf(w.registry, op)), l, Idle);
    }
  }

  lemma LauncherKeeps(w: World, e: Event)
    requires Inv(w) && IsLauncherEvent(e)
    ensures Inv(LauncherStep(w, e))
  {
    hide Inv, StepOf, Decide, Inspect, ArmStep;
    match e
    case Arm(l, b, requester, reason) => ArmKeeps(w, l, Holding(ArmBootstrap(b, requester, reason)), b);
    case MakeDirectory(l) => MakeDirectoryKeeps(w, l);
    case WriteIntent(l) => WriteIntentKeeps(w, l);
    case Collect(l) => if PhaseOf(w, l).Polling? { CarryKeeps(w, l, PhaseOf(w, l).binding.requestHash); }
    case Reconcile(l) =>
      if w.operation in w.registry.holds && w.registry.holds[w.operation].bootstrap.Some? {
        CarryKeeps(w, l, w.registry.holds[w.operation].bootstrap.value.requestHash);
      }
    case Seal(l, requester, reason) => SealKeeps(w, l, requester, reason);
    case Abandon(l) => EnterKeeps(w, l, Idle);
  }

  lemma FilesGrowKeepsLaunchers(w: World, n: World)
    requires IntentArmed(w) && ProofsAreSealed(w) && Extends(w.files, n.files)
    requires n.registry == w.registry && n.launchers == w.launchers && n.operation == w.operation
    ensures IntentArmed(n) && ProofsAreSealed(n)
  {
  }

  lemma EventKeepsInv(w: World, e: Event)
    requires Inv(w)
    ensures Inv(Next(w, e))
  {
    if IsLauncherEvent(e) {
      LauncherKeeps(w, e);
      hide Inv, LauncherStep;
    } else {
      hide StepOf, SupervisorEvent, TaskEvent, LauncherStep, Rebooted, Sound, Owned, Inert, ProofContinuous,
        IntentArmed, ProofsAreSealed;
      if e.Authority? {
        if !SealsOperation(e.op, w.operation) { AuthorityKeeps(w, e.op); }
      } else if e.Reboot? {
        RebootEventKeeps(w, e.newBoot);
        FilesGrowKeepsLaunchers(w, Next(w, e));
      } else if e.Start? {
        StartKeeps(w, e.supervisor);
      } else if e.supervisor in w.supervisors {
        if e.Supervise? {
          SupervisorEventKeeps(w, e.supervisor, e.choice);
          FilesGrowKeepsLaunchers(w, SupervisorEvent(w, e.supervisor, e.choice));
        } else {
          TaskEventKeeps(w, e.supervisor, e);
          FilesGrowKeepsLaunchers(w, TaskEvent(w, e.supervisor, e));
        }
      }
    }
  }

  lemma {:induction false} RunsKeepInv(w: World, events: seq<Event>)
    requires Inv(w)
    ensures Inv(Run(w, events))
    decreases events
  {
    hide Inv, Next;
    if events != [] {
      EventKeepsInv(w, events[0]);
      RunsKeepInv(Next(w, events[0]), events[1..]);
    }
  }

  // ---- Theorems ------------------------------------------------------------------------------------

  /** User code can still act: it runs, left tasks behind, or its release byte waits in the pipe. */
  predicate Live(v: Supervisor) {
    v.child.Running? || (v.started && v.tasks > 0) || (v.child.Blocked? && v.barrier.Granted?)
  }

  predicate AnyLive(w: World) { exists s :: s in w.supervisors && Live(w.supervisors[s]) }

  predicate SealedHold(w: World) { w.operation in w.registry.holds && w.registry.holds[w.operation].proof.Some? }

  lemma FreshIsInv(w: World)
    requires Fresh(w)
    ensures Inv(w)
  {
  }

  /** In every run with crashes, reboots and replays anywhere, user code starts at most once, and only
      after a durable hold for exactly this request and a durable release intent. */
  lemma UserCodeStartsAtMostOnce(w: World, events: seq<Event>)
    requires Fresh(w)
    ensures var n := Run(w, events);
            && n.starts <= 1
            && (n.starts == 1 ==> n.files.releaseIntent && n.files.intent.Some? && n.operation in n.registry.holds
                                  && n.registry.holds[n.operation].bootstrap.Some?
                                  && n.registry.holds[n.operation].bootstrap.value.requestHash == n.files.intent.value)
  {
    hide Run;
    FreshIsInv(w);
    RunsKeepInv(w, events);
  }

  /** A proof on disk, in a launcher's hand or in the authority means nothing is left to run: the
      boundary is empty and removed and the root is reaped. */
  lemma ProofMeansQuiet(w: World, events: seq<Event>)
    requires Fresh(w)
    ensures var n := Run(w, events);
            SealedHold(n) || n.files.proof.Some? ==>
              && !AnyLive(n) && n.owner.Some? && n.owner.value in n.supervisors && Quiet(n.supervisors[n.owner.value])
              && (SealedHold(n) ==> n.files.proof == n.registry.holds[n.operation].proof)
  {
    hide Run;
    FreshIsInv(w);
    RunsKeepInv(w, events);
  }

  predicate Forces(e: Event, operation: Uuid) { e.Authority? && ForcesRelease(e.op, operation) }

  predicate ReleasedOnlyBySeal(w: World) {
    w.operation in w.registry.holds && w.registry.holds[w.operation].released ==>
        w.registry.holds[w.operation].proof.Some?
  }

  lemma SealStep(r: Registry, op: Op, id: Uuid)
    requires !ForcesRelease(op, id) && (id in r.holds && r.holds[id].released ==> r.holds[id].proof.Some?)
    ensures id in StepOf(r, op).holds && StepOf(r, op).holds[id].released ==> StepOf(r, op).holds[id].proof.Some?
  {
    HoldEffect(r, op, id);
    hide StepOf;
  }

  lemma EventReleasesOnlyBySeal(w: World, e: Event)
    requires ReleasedOnlyBySeal(w) && !Forces(e, w.operation)
    ensures ReleasedOnlyBySeal(Next(w, e)) && Next(w, e).operation == w.operation
  {
    hide StepOf, Decide, SuperviseStep, TaskStep, Inspect, Rebooted;
    match e
    case Authority(op) => SealStep(w.registry, op, w.operation);
    case Arm(_, b, requester, reason) => SealStep(w.registry, Holding(ArmBootstrap(b, requester, reason)), w.operation);
    case Seal(l, requester, reason) =>
      if PhaseOf(w, l).Carrying? {
        SealStep(w.registry, Holding(SealBootstrap(PhaseOf(w, l).proof, requester, reason)), w.operation);
      }
    case _ =>
  }

  lemma {:induction false} RunReleasesOnlyBySeal(w: World, events: seq<Event>)
    requires ReleasedOnlyBySeal(w) && forall e :: e in events ==> !Forces(e, w.operation)
    ensures ReleasedOnlyBySeal(Run(w, events))
    decreases events
  {
    hide Next, ReleasedOnlyBySeal, Forces;
    if events != [] {
      EventReleasesOnlyBySeal(w, events[0]);
      RunReleasesOnlyBySeal(Next(w, events[0]), events[1..]);
    }
  }

  /** Unless an operator forces it, the hold is unreleased for as long as user code can act, and it
      is released only once the boundary is empty and removed and the root is reaped. */
  lemma HoldOutlivesUserCode(w: World, events: seq<Event>)
    requires Fresh(w) && forall e :: e in events ==> !Forces(e, w.operation)
    ensures var n := Run(w, events);
            && (AnyLive(n) ==> n.operation in n.registry.holds && !n.registry.holds[n.operation].released)
            && (n.operation in n.registry.holds && n.registry.holds[n.operation].released ==>
                  n.owner.Some? && n.owner.value in n.supervisors && Quiet(n.supervisors[n.owner.value]))
  {
    hide Run;
    FreshIsInv(w);
    RunsKeepInv(w, events);
    RunReleasesOnlyBySeal(w, events);
    ProofMeansQuiet(w, events);
  }

  // ---- After a proof, and without one --------------------------------------------------------------

  /** A launcher touches no supervisor, and of their files only the directory and the intent. */
  lemma LauncherLeavesSupervisors(w: World, e: Event)
    requires IsLauncherEvent(e)
    ensures var n := LauncherStep(w, e);
            && n.supervisors == w.supervisors && n.owner == w.owner && n.starts == w.starts
            && n.files.proof == w.files.proof && n.files.claimed == w.files.claimed
  {
    hide StepOf, Decide, Inspect;
  }

  lemma QuietTasks(w: World, s: nat, e: Event)
    requires Inv(w) && w.files.proof.Some? && s in w.supervisors
    ensures TaskEvent(w, s, e).starts == w.starts
  {
    hide ProofContinuous;
  }

  lemma QuietStep(w: World, e: Event)
    requires Inv(w) && w.files.proof.Some?
    ensures Next(w, e).files.proof == w.files.proof && Next(w, e).starts == w.starts
  {
    hide StepOf, LauncherStep, TaskStep, SuperviseStep, Rebooted, Sound, Owned, Inert, ProofContinuous;
    if IsLauncherEvent(e) {
      LauncherLeavesSupervisors(w, e);
    } else if e.Supervise? && e.supervisor in w.supervisors {
      SupervisorEventKeeps(w, e.supervisor, e.choice);
    } else if !e.Authority? && !e.Reboot? && !e.Supervise? && e.supervisor in w.supervisors {
      QuietTasks(w, e.supervisor, e);
    }
  }

  /** Once the proof is published no user code ever starts again, and the proof never changes. */
  lemma {:induction false} QuietForever(w: World, events: seq<Event>)
    requires Inv(w) && w.files.proof.Some?
    ensures Run(w, events).files.proof == w.files.proof && Run(w, events).starts == w.starts && !AnyLive(Run(w, events))
    decreases events
  {
    hide Next, Inv;
    if events != [] {
      EventKeepsInv(w, events[0]);
      QuietStep(w, events[0]);
      QuietForever(Next(w, events[0]), events[1..]);
    } else {
      QuietNow(w);
    }
  }

  lemma QuietNow(w: World)
    requires Inv(w) && w.files.proof.Some?
    ensures !AnyLive(w)
  {
  }

  /** The claiming supervisor is gone and left no proof. */
  predicate Lost(w: World) {
    w.owner.Some? && w.owner.value in w.supervisors && w.supervisors[w.owner.value].stage.Dead? && w.files.proof.None?
  }

  lemma LostSupervises(w: World, s: nat, c: Choice)
    requires Inv(w) && Lost(w) && s in w.supervisors
    ensures Lost(SupervisorEvent(w, s, c))
  {
    hide Sound, ProofContinuous, Prepare, Release;
    if w.owner != Some(s) {
      NewcomerKeeps(w.operation, w.boot, w.files, w.supervisors[s], c);
      hide SuperviseStep;
    }
  }

  lemma LostStep(w: World, e: Event)
    requires Inv(w) && Lost(w)
    ensures Lost(Next(w, e))
  {
    hide StepOf, LauncherStep, SuperviseStep, SupervisorEvent, Sound, Owned, Inert, ProofContinuous;
    if IsLauncherEvent(e) {
      LauncherLeavesSupervisors(w, e);
    } else if e.Supervise? && e.supervisor in w.supervisors {
      LostSupervises(w, e.supervisor, e.choice);
    }
  }

  /** A dead supervisor, a missing boundary or a reboot is never taken for a proof: the hold of such an
      operation can never be sealed, whatever is replayed; only an operator can release it. */
  lemma {:induction false} LostSupervisorNeverSeals(w: World, events: seq<Event>)
    requires Inv(w) && Lost(w)
    ensures Lost(Run(w, events)) && !SealedHold(Run(w, events))
    decreases events
  {
    hide Next, Inv, Lost;
    if events != [] {
      EventKeepsInv(w, events[0]);
      LostStep(w, events[0]);
      LostSupervisorNeverSeals(Next(w, events[0]), events[1..]);
    } else {
      LostIsUnsealed(w);
    }
  }

  lemma LostIsUnsealed(w: World)
    requires Inv(w) && Lost(w)
    ensures !SealedHold(w)
  {
  }

  /** In every reachable state the inspector answers exactly when the proof exists, and its answer is
      one the authority accepts. */
  lemma InspectionIsComplete(w: World)
    requires Inv(w) && w.files.intent.Some?
    ensures Armed(w.registry, w.operation, w.registry.holds[w.operation].bootstrap.value)
    ensures var b := w.registry.holds[w.operation].bootstrap.value;
            && Inspect(w.operation, w.files, b.requestHash) == w.files.proof
            && (w.files.proof.Some? ==> ValidProof(b, w.files.proof.value))
  {
    hide Sound, Owned, Inert;
  }

  lemma SealReleases(r: Registry, id: Uuid, p: CleanupProof, requester: nat, reason: string)
    requires id in r.holds && !r.holds[id].released && r.holds[id].bootstrap.Some? && p.operationId == id
    requires ValidProof(r.holds[id].bootstrap.value, p)
    ensures var n := StepOf(r, Holding(SealBootstrap(p, requester, reason)));
            id in n.holds && n.holds[id].released && n.holds[id].proof == Some(p)
  {
  }

  /** Reconciling an unreleased hold releases it, with that very proof, if and only if the proof exists. */
  lemma ReconcileSealsIff(w: World, l: nat, requester: nat, reason: string)
    requires Inv(w) && PhaseOf(w, l).Idle? && ValidReason(reason) && w.files.intent.Some?
    requires w.operation in w.registry.holds && !w.registry.holds[w.operation].released
    ensures var n := Next(Next(w, Reconcile(l)), Seal(l, requester, reason));
            && (SealedHold(n) <==> w.files.proof.Some?)
            && (w.files.proof.Some? ==>
                  n.registry.holds[n.operation].released && n.registry.holds[n.operation].proof == w.files.proof)
  {
    InspectionIsComplete(w);
    assert w.files.proof.None? ==> !SealedHold(w);
    hide Inv, Inspect, SupervisorEvent, TaskEvent, StepOf;
    if w.files.proof.Some? { SealReleases(w.registry, w.operation, w.files.proof.value, requester, reason); }
  }

  // ---- An undisturbed operation --------------------------------------------------------------------

  /** A supervisor makes `n` undisturbed steps. */
  function Advance(operation: Uuid, boot: nat, f: Files, v: Supervisor, inode: nat, exit: int, n: nat)
    : (Files, Supervisor)
    decreases n
  {
    if n == 0 then (f, v)
    else
      var r := SuperviseStep(operation, boot, f, v, Proceed(inode, exit, Exited));
      Advance(operation, boot, r.0, r.1, inode, exit, n - 1)
  }

  lemma ReachesWaiting(operation: Uuid, boot: nat, f: Files, inode: nat, exit: int)
    requires f == NO_FILES.(directory := true, intent := f.intent) && f.intent.Some? && inode != 0
    ensures var r := Advance(operation, boot, f, NEWBORN, inode, exit, 8);
            var id := Identity(operation, f.intent.value, boot, inode);
            && r.0 == f.(claimed := Some(boot), boundary := Some(id), root := true, releaseIntent := true)
            && r.1 == Supervisor(Waiting, id, Exited, 0, Granted, Blocked, true, 1, true, false)
  {
    hide Advance;
    var id := Identity(operation, f.intent.value, boot, inode);
    var recorded := f.(claimed := Some(boot), boundary := Some(id));
    var forked := NEWBORN.(stage := Forked, identity := id, mounted := true, child := Blocked);
    PreparesIn4(operation, boot, f, inode, exit);
    ReleasesIn4(operation, boot, recorded, forked, inode, exit);
  }

  lemma PreparesIn4(operation: Uuid, boot: nat, f: Files, inode: nat, exit: int)
    requires f == NO_FILES.(directory := true, intent := f.intent) && f.intent.Some? && inode != 0
    ensures var id := Identity(operation, f.intent.value, boot, inode);
            Advance(operation, boot, f, NEWBORN, inode, exit, 8)
            == Advance(operation, boot, f.(claimed := Some(boot), boundary := Some(id)),
                       NEWBORN.(stage := Forked, identity := id, mounted := true, child := Blocked), inode, exit, 4)
  {
    var early := Identity(operation, f.intent.value, boot, 0);
    var id := early.(cgroupInode := inode);
    var f1 := f.(claimed := Some(boot));
    var f2 := f1.(boundary := Some(id));
    assert Advance(operation, boot, f, NEWBORN, inode, exit, 8)
        == Advance(operation, boot, f1, NEWBORN.(stage := Claimed, identity := early), inode, exit, 7)
        == Advance(operation, boot, f1, NEWBORN.(stage := Made, identity := id, mounted := true), inode, exit, 6)
        == Advance(operation, boot, f2, NEWBORN.(stage := Recorded, identity := id, mounted := true), inode, exit, 5);
  }

  lemma ReleasesIn4(operation: Uuid, boot: nat, f: Files, v: Supervisor, inode: nat, exit: int)
    requires v.stage.Forked? && v.child.Blocked? && !f.root && !f.releaseIntent
    ensures Advance(operation, boot, f, v, inode, exit, 4)
            == (f.(root := true, releaseIntent := true),
                v.(stage := Waiting, attached := true, tasks := v.tasks + 1, barrier := Granted))
  {
    var f1 := f.(root := true);
    var v2 := v.(stage := Attached, attached := true, tasks := v.tasks + 1);
    assert Advance(operation, boot, f, v, inode, exit, 4)
        == Advance(operation, boot, f1, v.(stage := Rooted), inode, exit, 3)
        == Advance(operation, boot, f1, v2, inode, exit, 2)
        == Advance(operation, boot, f1.(releaseIntent := true), v2.(stage := Intended), inode, exit, 1)
        == Advance(operation, boot, f1.(releaseIntent := true), v2.(stage := Waiting, barrier := Granted),
                   inode, exit, 0);
  }

  lemma DrainsIn3(operation: Uuid, boot: nat, f: Files, v: Supervisor, inode: nat, exit: int)
    requires v.stage.Waiting? && v.child.Zombie? && v.tasks == 0 && v.barrier.Granted?
    ensures Advance(operation, boot, f, v, inode, exit, 6)
            == Advance(operation, boot, f, v.(stage := Drained, child := Reaped, exit := exit), inode, exit, 3)
  {
    hide Prepare;
    var reaped := v.(stage := Closing, child := Reaped, exit := exit);
    assert Advance(operation, boot, f, v, inode, exit, 6)
        == Advance(operation, boot, f, reaped, inode, exit, 5)
        == Advance(operation, boot, f, reaped.(stage := Killed), inode, exit, 4);
  }

  lemma AdvanceCleanUp(operation: Uuid, boot: nat, f: Files, v: Supervisor, inode: nat, exit: int, n: nat)
    requires n > 0 && 9 <= Rank(v.stage) <= 13
    ensures var r := CleanUp(f, v, exit);
            Advance(operation, boot, f, v, inode, exit, n) == Advance(operation, boot, r.0, r.1, inode, exit, n - 1)
  {
    hide Prepare, Release, CleanUp;
  }

  lemma SealsIn3(operation: Uuid, boot: nat, f: Files, v: Supervisor, inode: nat, exit: int)
    requires v.stage.Drained? && v.child.Reaped? && v.tasks == 0 && f.proof.None?
    ensures var end := v.(stage := Done, mounted := false);
            Advance(operation, boot, f, v, inode, exit, 3) == (f.(proof := Some(ProofOf(end))), end)
  {
    hide SuperviseStep;
    var collected := v.(stage := Collected);
    var removed := v.(stage := Removed, mounted := false);
    AdvanceCleanUp(operation, boot, f, v, inode, exit, 3);
    AdvanceCleanUp(operation, boot, f, collected, inode, exit, 2);
    AdvanceCleanUp(operation, boot, f, removed, inode, exit, 1);
  }

  /** Left alone, an operation does run its user code once and does end in a proof with the root's exit
      code: the guarantees above are not met by never starting or never sealing. */
  lemma UndisturbedOperationSeals(operation: Uuid, boot: nat, f: Files, inode: nat, exit: int)
    requires f == NO_FILES.(directory := true, intent := f.intent) && f.intent.Some? && inode != 0
    ensures var waiting := Advance(operation, boot, f, NEWBORN, inode, exit, 8);
            var ran := TaskStep(TaskStep(waiting.1, ChildReads(0)), RootExits(0));
            var end := Advance(operation, boot, waiting.0, ran, inode, exit, 6);
            && ran.started && Quiet(end.1)
            && end.0.proof == Some(CleanupProof(operation, f.intent.value, SealedEmpty, boot, inode, Exited, exit))
  {
    hide Advance, SuperviseStep;
    ReachesWaiting(operation, boot, f, inode, exit);
    var waiting := Advance(operation, boot, f, NEWBORN, inode, exit, 8);
    var ran := TaskStep(TaskStep(waiting.1, ChildReads(0)), RootExits(0));
    DrainsIn3(operation, boot, waiting.0, ran, inode, exit);
    SealsIn3(operation, boot, waiting.0, ran.(stage := Drained, child := Reaped, exit := exit), inode, exit);
  }
}
