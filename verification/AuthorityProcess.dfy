/**
 The authority object: memory plus its directory, updated one file effect at a
 time. Each method follows the specification functions, and the ghost history
 lists every directory state a crash inside the call could have left.
 */
module AuthorityProcess {
  import opened Optional
  import opened AuthorityTypes
  import opened AuthorityOps
  import opened AuthorityDisk
  import opened AuthorityInvariants
  import opened AuthorityRuns

  lemma CommitAfter(s: State, d: Disk, before: seq<Disk>, next: Registry, env: Env)
    ensures var late := CommitAttempt(s, d, before, next, env);
            var bare := CommitAttempt(s, d, [], next, env);
            late.state == bare.state && late.disk == bare.disk && late.ok == bare.ok
                && late.points == before + bare.points
  {
  }

  lemma ReleasedUpTo(grants: seq<Grant>, i: nat)
    requires i < |grants|
    ensures ReleasedIds(grants[..i + 1])
            == ReleasedIds(grants[..i]) + if grants[i].state == Released then {grants[i].grantId} else {}
    ensures ReleasedKeys(grants[..i + 1])
            == ReleasedKeys(grants[..i]) + if grants[i].state == Released then {grants[i].key} else {}
  {
    assert grants[..i + 1] == grants[..i] + [grants[i]];
  }

  /** The loop of a finish: remove every Grant the commit marks Released and retire its key. */
  method ReleaseGrants(permissions: map<DurableId, Grant>, retired: set<AllocationKey>, grants: seq<Grant>)
    returns (left: map<DurableId, Grant>, fenced: set<AllocationKey>)
    ensures left == permissions - ReleasedIds(grants) && fenced == retired + ReleasedKeys(grants)
  {
    left, fenced := permissions, retired;
    assert ReleasedIds(grants[..0]) == {} && ReleasedKeys(grants[..0]) == {};
    for i := 0 to |grants|
      invariant left == permissions - ReleasedIds(grants[..i]) && fenced == retired + ReleasedKeys(grants[..i])
    {
      ReleasedUpTo(grants, i);
      if grants[i].state == Released {
        fenced := fenced + {grants[i].key};
        left := left - {grants[i].grantId};
      }
    }
    assert grants[..|grants|] == grants;
  }

  lemma IdsUpTo(ids: seq<DurableId>, i: nat)
    requires i < |ids|
    ensures forall id :: id in ids[..i + 1] <==> id in ids[..i] || id == ids[i]
  {
    assert ids[..i + 1] == ids[..i] + [ids[i]];
  }

  class Authority {
    const host: nat
    const sizes: Sizes
    var state: State
    var disk: Disk
    ghost var points: seq<Disk>

    twostate predicate Follows(a: Attempt, ok: bool)
      reads this
    {
      state == a.state && disk == a.disk && ok == a.ok && points == old(points) + a.points
    }

    /** Reopen an existing directory; a legacy registry gets its domain identities. */
    constructor Open(sizes: Sizes, host: nat, disk: Disk, newDomains: Domains, env: Env)
      ensures this.sizes == sizes && this.host == host
      ensures var a := OpenAttempt(sizes, disk, host, newDomains, env);
              this.state == a.state && this.disk == a.disk && points == a.points
    {
      this.host, this.sizes := host, sizes;
      this.disk := disk;
      this.state := Load(sizes, disk, host);
      this.points := [];
      new;
      hide Load, AuthorityDisk.Perform, Pruned, PrunePoints, Decide;
      if state.Ready? && state.registry.domains.None? {
        var ok := Settle(Decide(state.registry, Coordination(UpgradeDomains(newDomains))), env);
        if !ok { state := Unknown; }
      }
      if state.Ready? { PruneMachineBlobs(env.removed); }
    }

    method Initialize(epoch: Uuid, domains: Domains, env: Env) returns (ok: bool)
      modifies this
      ensures Follows(InitializeAttempt(sizes, old(state), old(disk), host, epoch, domains, env), ok)
    {
      match state
      case Ready(_) => return true;
      case Unknown => return false;
      case Uninitialized =>
        state := Unknown;
        if !disk.anchor.NoAnchor? { return false; }
        disk := disk.(anchor := PartialAnchor);
        points := points + [disk];
        disk := disk.(anchor := Anchor(1, epoch, host));
        points := points + [disk];
        ok := Publish(EmptyRegistry(epoch, host, domains), env);
    }

    method WriteBlob(reference: BlobRef, intent: Intent, fault: Fault) returns (ok: bool)
      modifies this
      ensures state == old(state) && ok == !fault.BlobFault?
      ensures fault == BlobFault(false) ==> disk == old(disk) && points == old(points)
      ensures fault != BlobFault(false) ==> disk == old(disk).(blobs := old(disk.blobs)[reference := Blob(intent)])
      ensures fault != BlobFault(false) ==> points == old(points) + [disk]
    {
      if fault != BlobFault(false) {
        disk := disk.(blobs := disk.blobs[reference := Blob(intent)]);
        points := points + [disk];
      }
      ok := !fault.BlobFault?;
    }

    method WriteRegistry(next: Registry, fault: Fault) returns (ok: bool)
      modifies this
      ensures state == old(state) && ok == !fault.RegistryFault?
      ensures if fault == RegistryFault(false) then disk == old(disk) && points == old(points)
              else disk == old(disk).(registry := StoredAs(next)) && points == old(points) + [disk]
    {
      if fault != RegistryFault(false) {
        disk := disk.(registry := StoredAs(next));
        points := points + [disk];
      }
      ok := !fault.RegistryFault?;
    }

    method RemoveBlob(reference: BlobRef)
      modifies this
      ensures state == old(state) && disk == Dropped(old(disk), reference) && points == old(points) + [disk]
    {
      disk := Dropped(disk, reference);
      points := points + [disk];
    }

    /** Remove every listed blob the current registry does not name. */
    method PruneMachineBlobs(listing: seq<BlobRef>)
      requires state.Ready?
      modifies this
      ensures state == old(state)
      ensures disk == Pruned(old(disk), state.registry.pendingBlob, listing)
      ensures points == old(points) + PrunePoints(old(disk), state.registry.pendingBlob, listing)
    {
      var keep := state.registry.pendingBlob;
      var i := 0;
      assert listing[0..] == listing;
      while i < |listing|
        invariant 0 <= i <= |listing| && state == old(state)
        invariant Pruned(disk, keep, listing[i..]) == Pruned(old(disk), keep, listing)
        invariant points + PrunePoints(disk, keep, listing[i..]) == old(points) + PrunePoints(old(disk), keep, listing)
      {
        assert listing[i..][1..] == listing[i + 1..];
        if keep != Some(listing[i]) { RemoveBlob(listing[i]); }
        i := i + 1;
      }
    }

    /** Replace registry.json; from the failed or finished write on, the old blob is an orphan. */
    method CommitRegistry(next: Registry, env: Env) returns (ok: bool)
      modifies this
      ensures Follows(CommitAttempt(old(state), old(disk), [], next, env), ok)
    {
      var previous := PreviousBlob(state);
      state := Unknown;
      ok := WriteRegistry(next, env.fault);
      if !ok { return; }
      state := Ready(Committed(next));
      if previous.Some? && env.retireSucceeds
         && (next.pendingCommit.None? || previous.value.digest != IntentDigest(next.pendingCommit.value)) {
        RemoveBlob(previous.value);
      }
      PruneMachineBlobs(env.removed);
    }

    /** The blob becomes durable first, then registry.json, then orphans are removed. */
    method Publish(next: Registry, env: Env) returns (ok: bool)
      modifies this
      ensures Follows(PublishAttempt(sizes, old(state), old(disk), next, env), ok)
    {
      hide Publishable, CommitAttempt;
      if !Publishable(sizes, state, next) { return false; }
      if next.pendingCommit.Some? {
        var reference := RefOf(next.pendingCommit).value;
        if reference in disk.blobs {
          if disk.blobs[reference] != Blob(next.pendingCommit.value) { return false; }
        } else {
          ok := WriteBlob(reference, next.pendingCommit.value, env.fault);
          if !ok { return; }
          CommitAfter(state, disk, [disk], next, env);
        }
      }
      ok := CommitRegistry(next, env);
    }

    method Settle(decision: Decision, env: Env) returns (ok: bool)
      modifies this
      ensures Follows(Perform(sizes, old(state), old(disk), decision, env), ok)
    {
      match decision
      case Refuse => ok := false;
      case Keep => ok := true;
      case Publish(next) => ok := Publish(next, env);
    }

    /** Memory holds a good registry that the directory records. */
    predicate Continuous()
      reads this
    {
      state.Ready? && Records(sizes, disk, host, state.registry) && Good(state.registry)
    }

    function Specified(op: Op, env: Env): Attempt
      reads this
    {
      Try(sizes, host, World(disk, state), Do(op), env)
    }

    method PrepareMachineCommit(intent: Intent, env: Env) returns (ok: bool)
      modifies this
      ensures Follows(old(Specified(Machine(AuthorityOps.PrepareMachineCommit(intent)), env)), ok)
    {
      hide PublishAttempt;
      if !state.Ready? { return false; }
      var r := state.registry;
      var domain := intent.request.session.domainId;
      if domain !in r.participants { return false; }
      var p := r.participants[domain];
      if !p.committed || p.session != Some(intent.request.session) { return false; }
      if r.pendingCommit.Some? {
        if r.pendingCommit.value != intent { return false; }
        ok := Publish(r, env);
        return;
      }
      var permissions := r.machinePermissions;
      var i := 0;
      assert intent.grants[0..] == intent.grants;
      while i < |intent.grants|
        invariant 0 <= i <= |intent.grants|
        invariant state == old(state) && disk == old(disk) && points == old(points)
        invariant AdmitGrants(permissions, r.retiredAllocations, intent.grants[i..])
                  == AdmitGrants(r.machinePermissions, r.retiredAllocations, intent.grants)
      {
        var g := intent.grants[i];
        assert intent.grants[i..][1..] == intent.grants[i + 1..];
        if g.state != Released {
          if g.key in r.retiredAllocations || Clashes(permissions, g) { return false; }
          permissions := permissions[g.grantId := g];
        }
        i := i + 1;
      }
      ok := Publish(r.(machinePermissions := permissions, pendingCommit := Some(intent)), env);
    }

    method FinishMachineCommit(operationId: Uuid, env: Env) returns (ok: bool)
      modifies this
      ensures Follows(old(Specified(Machine(AuthorityOps.FinishMachineCommit(operationId)), env)), ok)
    {
      hide PublishAttempt, AdvanceParticipant, ReleasedIds, ReleasedKeys;
      if !state.Ready? { return false; }
      var r := state.registry;
      if r.pendingCommit.None? { return true; }
      var intent := r.pendingCommit.value;
      if intent.request.operationId != operationId { return false; }
      var permissions, retired := ReleaseGrants(r.machinePermissions, r.retiredAllocations, intent.grants);
      var domain := intent.request.session.domainId;
      if domain !in r.participants { return false; }
      if intent.outcome.Acknowledged? && intent.outcome.through >= intent.request.sequence { return false; }
      ok := Publish(r.(retiredAllocations := retired, machinePermissions := permissions, pendingCommit := None,
                       participants := r.participants[domain := AdvanceParticipant(r.participants[domain], intent)]),
                           env);
    }

    method RetireNativeStarts(proven: seq<DurableId>, env: Env) returns (ok: bool)
      modifies this
      ensures Follows(old(Specified(Native(AuthorityOps.RetireNativeStarts(proven)), env)), ok)
    {
      hide PublishAttempt;
      if !state.Ready? { return false; }
      var r := state.registry;
      var starts := r.nativePermissions;
      var any := false;
      var i := 0;
      while i < |proven|
        invariant 0 <= i <= |proven|
        invariant state == old(state) && disk == old(disk) && points == old(points)
        invariant any <==> exists id :: id in proven[..i] && id in r.nativePermissions
        invariant starts == r.nativePermissions - (set id | id in proven[..i])
      {
        IdsUpTo(proven, i);
        if proven[i] in r.nativePermissions { any := true; }
        starts := starts - {proven[i]};
        i := i + 1;
      }
      assert proven[..i] == proven;
      if !any { return true; }
      ok := Publish(r.(nativePermissions := starts), env);
    }

    method CompleteMachineReset(expected: Snapshot, store: Uuid, generation: Uuid, process: nat, newEpoch: Uuid,
      env: Env)
      returns (ok: bool)
      modifies this
      ensures Follows(old(Specified(Coordination(CompleteReset(expected, store, generation, process, newEpoch)), env)),
          ok)
    {
      hide PublishAttempt, SnapshotOf;
      if !state.Ready? { return false; }
      var r := state.registry;
      if SnapshotOf(r) != expected || !ResetObligationsClear(r) { return false; }
      var participants := r.participants;
      var left := r.participants.Keys;
      while left != {}
        invariant left <= r.participants.Keys == participants.Keys
        invariant state == old(state) && disk == old(disk) && points == old(points)
        invariant forall id :: id in participants ==>
                    participants[id] == if id in left then r.participants[id] else r.participants[id].(session := None)
        decreases left
      {
        var id :| id in left;
        participants := participants[id := participants[id].(session := None)];
        left := left - {id};
      }
      assert participants == Fence(r.participants);
      ok := Publish(r.(anchorEpoch := Some(AnchorIdentity(r)), epoch := newEpoch, retiredAllocations := {},
                       nativePermissions := map[], nativeCoverage := Some(store),
                       coordinator := Some(Coordinator(store, generation, process, None)),
                       participants := participants), env);
    }

    /** Any operation: the four above loop over their tables, the others settle one decision.
        From a directory recording a good registry, every crash point records the old or the new one. */
    method Apply(op: Op, env: Env) returns (ok: bool)
      modifies this
      ensures Follows(old(Specified(op, env)), ok)
      ensures ValidInput(op) && old(Continuous()) ==>
                SafeAttempt(sizes, host, old(state.registry), StepOf(old(state.registry), op), old(Specified(op, env)))
    {
      hide PublishAttempt, SafeAttempt, Good, Records;
      if Continuous() && ValidInput(op) {
        PerformIsCrashSafe(sizes, disk, host, state.registry, op, env);
      }
      match op
      case Machine(PrepareMachineCommit(intent)) => ok := PrepareMachineCommit(intent, env);
      case Machine(FinishMachineCommit(operationId)) => ok := FinishMachineCommit(operationId, env);
      case Native(RetireNativeStarts(proven)) => ok := RetireNativeStarts(proven, env);
      case Coordination(CompleteReset(expected, store, generation, process, newEpoch)) =>
        ok := CompleteMachineReset(expected, store, generation, process, newEpoch, env);
      case _ =>
        if !state.Ready? { return false; }
        ok := Settle(Decide(state.registry, op), env);
    }
  }
}
