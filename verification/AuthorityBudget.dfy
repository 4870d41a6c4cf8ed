/** The byte budget that keeps room for the cleanup of every admitted obligation. */
module AuthorityBudget {
  import opened Optional
  import opened AuthorityTypes
  import opened AuthorityOps
  import opened AuthorityDisk
  import opened AuthorityInvariants
  import opened AuthorityRuns

  lemma {:induction false} HoldBytesWithout(sz: Sizes, holds: map<Uuid, Hold>, ids: set<Uuid>, id: Uuid)
    requires ids <= holds.Keys && id in ids
    ensures HoldBytes(sz, holds, ids) == sz.hold(holds[id]) + 1 + HoldBytes(sz, holds, ids - {id})
    decreases ids
  {
    var first := Least(ids);
    if first != id {
      HoldBytesWithout(sz, holds, ids - {first}, id);
      assert ids - {first} - {id} == ids - {id} - {first};
      var second := Least(ids - {id});
      assert first in ids - {id} && second in ids;
      assert second <= first <= second;
    }
  }

  lemma {:induction false} HoldBytesAgree(sz: Sizes, a: map<Uuid, Hold>, b: map<Uuid, Hold>, ids: set<Uuid>)
    requires ids <= a.Keys && ids <= b.Keys && forall id :: id in ids ==> a[id] == b[id]
    ensures HoldBytes(sz, a, ids) == HoldBytes(sz, b, ids)
    decreases ids
  {
    if ids != {} { HoldBytesAgree(sz, a, b, ids - {Least(ids)}); }
  }

  /** `next` is `r` after one unreleased hold has been released. */
  predicate ReleasesOne(r: Registry, next: Registry, id: Uuid) {
    && id in r.holds && !r.holds[id].released
    && id in next.holds && next.holds[id].released
    && next == r.(holds := r.holds[id := next.holds[id]])
  }

  lemma OneHoldFewer(r: Registry, next: Registry, id: Uuid)
    requires ReleasesOne(r, next, id)
    ensures Unreleased(r) <= r.holds.Keys && Unreleased(next) <= next.holds.Keys
    ensures id in Unreleased(r) && Unreleased(next) == Unreleased(r) - {id} && |Unreleased(r)| == |Unreleased(next)| + 1
    ensures forall other :: other in Unreleased(next) ==> r.holds[other] == next.holds[other]
    ensures next.participants == r.participants && next.machinePermissions == r.machinePermissions
    ensures next.nativePermissions == r.nativePermissions
  {
  }

  lemma ReleaseShrinksObligations(sz: Sizes, r: Registry, next: Registry, id: Uuid)
    requires ReleasesOne(r, next, id)
    ensures Unreleased(next) == Unreleased(r) - {id}
    ensures ReservedBytes(next) + BYTES_PER_HOLD == ReservedBytes(r)
    ensures AdmissionBytes(sz, next) <= AdmissionBytes(sz, r)
  {
    hide HoldBytes, Registrations, Unreleased, ReleasesOne;
    OneHoldFewer(r, next, id);
    var left := Unreleased(r) - {id};
    HoldBytesWithout(sz, r.holds, Unreleased(r), id);
    HoldBytesAgree(sz, r.holds, next.holds, left);
  }

  /** A release that adds at most its reserved 64 KiB is refused by the budget exactly when
      the released registry itself no longer fits in the file. */
  lemma ReleaseRefusedOnlyByFileLimit(sz: Sizes, r: Registry, next: Registry, id: Uuid)
    requires ReleasesOne(r, next, id) && Encodable(sz, r)
    requires sz.registry(Persisted(next)) <= sz.registry(Persisted(r)) + BYTES_PER_HOLD
    ensures Publishable(sz, Ready(r), next) <==> sz.registry(Persisted(next)) <= MAX_REGISTRY_BYTES
  {
    ReleaseShrinksObligations(sz, r, next, id);
  }

  /** Both release operations release exactly one hold. */
  lemma ReleaseOpsReleaseOne(r: Registry, op: HoldOp, next: Registry)
    requires op.ForceRelease? || op.SealBootstrap?
    requires DecideHolding(r, op) == Publish(next)
    ensures ReleasesOne(r, next, if op.ForceRelease? then op.id else op.proof.operationId)
  {
  }

  // ---- Over runs -----------------------------------------------------------------------

  /** The budgeted size: the file limit, or the occupied and reserved bytes if they exceed it. */
  function Ceiling(sz: Sizes, r: Registry): nat { Max(MAX_REGISTRY_BYTES, Future(sz, r)) }

  lemma RefusedPublicationChangesNothing(sz: Sizes, host: nat, w: World, e: Event, r: Registry, next: Registry)
    requires Inv(sz, host, w) && Durable(sz, host, w.disk) == Some(r) && !e.call.Initialize?
    requires Decide(r, OpOf(e.call)) == Publish(next) && !Publishable(sz, Ready(r), next)
    ensures Next(sz, host, w, e).disk == w.disk
  {
    hide Publishable, Good, Records;
  }

  lemma CeilingStep(sz: Sizes, host: nat, w: World, e: Event, r: Registry)
    requires Inv(sz, host, w) && ValidCall(e.call) && Durable(sz, host, w.disk) == Some(r)
    ensures Durable(sz, host, Next(sz, host, w, e).disk).Some?
    ensures Ceiling(sz, Durable(sz, host, Next(sz, host, w, e).disk).value) <= Ceiling(sz, r)
  {
    hide Next, Load, Good, Sound, AdmissionBytes, Decide;
    EventRefines(sz, host, w, e, r);
    if Durable(sz, host, Next(sz, host, w, e).disk) != Some(r) {
      var next := Decide(r, OpOf(e.call)).next;
      if !Publishable(sz, Ready(r), next) {
        RefusedPublicationChangesNothing(sz, host, w, e, r, next);
      }
      assert Persisted(Committed(next)) == Persisted(next);
      assert Future(sz, Committed(next)) == Future(sz, next);
    }
  }

  /** The larger of the file limit and (encoded size + reserved bytes) never grows. */
  lemma {:induction false} CeilingNeverGrows(sz: Sizes, host: nat, w: World, events: seq<Event>, r: Registry)
    requires Inv(sz, host, w) && ValidEvents(events) && Durable(sz, host, w.disk) == Some(r)
    ensures Inv(sz, host, Execute(sz, host, w, events))
    ensures Durable(sz, host, Execute(sz, host, w, events).disk).Some?
    ensures Ceiling(sz, Durable(sz, host, Execute(sz, host, w, events).disk).value) <= Ceiling(sz, r)
    decreases events
  {
    hide Next, Load, Good, Sound, Future;
    if events != [] {
      var w' := Next(sz, host, w, events[0]);
      EventRefines(sz, host, w, events[0], r);
      CeilingStep(sz, host, w, events[0], r);
      CeilingNeverGrows(sz, host, w', events[1..], Durable(sz, host, w'.disk).value);
    }
  }

  /** From a registry within budget, after any run with crashes and errors, a release that adds
      at most 64 KiB is never refused by the budget. */
  lemma ReleaseAlwaysAffordable(sz: Sizes, host: nat, w: World, events: seq<Event>, r: Registry, op: HoldOp,
    next: Registry)
    requires Inv(sz, host, w) && ValidEvents(events) && Durable(sz, host, w.disk) == Some(r)
    requires Future(sz, r) <= MAX_REGISTRY_BYTES
    requires op.ForceRelease? || op.SealBootstrap?
    requires Durable(sz, host, Execute(sz, host, w, events).disk).Some?
    requires var n := Durable(sz, host, Execute(sz, host, w, events).disk).value;
             DecideHolding(n, op) == Publish(next)
             && sz.registry(Persisted(next)) <= sz.registry(Persisted(n)) + BYTES_PER_HOLD
    ensures Publishable(sz, Ready(Durable(sz, host, Execute(sz, host, w, events).disk).value), next)
  {
    hide Execute, DecideHolding, Good, Publishable, AdmissionBytes;
    var n := Durable(sz, host, Execute(sz, host, w, events).disk).value;
    CeilingNeverGrows(sz, host, w, events, r);
    ReleaseOpsReleaseOne(n, op, next);
    var id := if op.ForceRelease? then op.id else op.proof.operationId;
    ReleaseShrinksObligations(sz, n, next, id);
    ReleaseRefusedOnlyByFileLimit(sz, n, next, id);
  }
}
