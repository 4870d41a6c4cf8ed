/**
 The authority directory and the publication protocol over it. Every atomic
 file effect is one value of `Disk`, so a crash leaves the directory at one of
 the points listed in `Attempt.points`.
 */
module AuthorityDisk {
  import opened Optional
  import opened AuthorityTypes
  import opened AuthorityOps

  datatype AnchorFile = NoAnchor | PartialAnchor | Anchor(version: nat, epoch: Uuid, host: nat)

  /** Digests are collision free: a registry digest is the registry it digests. */
  datatype RegistryDigest = RegistryDigest(of: Registry)

  datatype RegistryFile = NoRegistry | UnreadableRegistry | Stored(payload: Registry, sha: RegistryDigest)

  datatype BlobFile = Blob(intent: Intent) | UnreadableBlob

  datatype Disk = Disk(anchor: AnchorFile, registry: RegistryFile, blobs: map<BlobRef, BlobFile>)

  datatype State = Uninitialized | Ready(registry: Registry) | Unknown

  const MAX_REGISTRY_BYTES: nat := 4 * 1024 * 1024
  const MAX_JOURNAL_BYTES: nat := 32 * 1024 * 1024
  const COMMIT_HEADROOM: nat := 1024 * 1024
  const CLEANUP_HEADROOM: nat := 256 * 1024
  const BYTES_PER_HOLD: nat := 64 * 1024
  const BYTES_PER_PARTICIPANT: nat := 16 * 1024

  /**
   The encoded lengths the byte budget is computed from. `rest` is the length of
   the participants' registrations and of both permission tables.
   */
  datatype Sizes = Sizes(
    registry: Registry -> nat,
    intent: Intent -> nat,
    hold: Hold -> nat,
    rest: (map<Uuid, Registration>, map<DurableId, Grant>, map<DurableId, NativePermission>) -> nat)

  // ---- Encoding ------------------------------------------------------------------

  function RefOf(pending: Option<Intent>): Option<BlobRef> {
    match pending
    case None => None
    case Some(intent) => Some(BlobRef(intent.request.operationId, IntentDigest(intent)))
  }

  /** What registry.json holds: the pending commit is replaced by its blob reference. */
  function Persisted(r: Registry): Registry {
    r.(pendingCommit := None, pendingBlob := RefOf(r.pendingCommit))
  }

  /** The registry kept in memory after it has been published. */
  function Committed(r: Registry): Registry {
    r.(pendingBlob := RefOf(r.pendingCommit))
  }

  function StoredAs(r: Registry): RegistryFile {
    Stored(Persisted(r), RegistryDigest(Persisted(r)))
  }

  predicate Encodable(sz: Sizes, r: Registry) {
    && (r.pendingCommit.Some? ==> sz.intent(r.pendingCommit.value) <= MAX_JOURNAL_BYTES)
    && sz.registry(Persisted(r)) <= MAX_REGISTRY_BYTES
  }

  // ---- Load ----------------------------------------------------------------------

  predicate WellFormedHold(id: Uuid, h: Hold) {
    && id == h.id
    && ValidReason(h.reason)
    && h.released == h.releaseReason.Some?
    && h.released == h.releasedBy.Some?
    && (h.releaseReason.Some? ==> ValidReason(h.releaseReason.value))
    && (h.bootstrap.Some? ==> h.bootstrap.value.operationId == id && ValidBinding(h.bootstrap.value))
    && (h.proof.Some? ==> h.released && h.bootstrap.Some? && ValidProof(h.bootstrap.value, h.proof.value))
  }

  predicate WellFormedParticipant(id: Uuid, p: Participant) {
    id == p.registration.domainId && id != NIL && p.registration.nonce != NIL && p.registration.managerStore != NIL
  }

  predicate WellFormedCoordinator(c: Coordinator) {
    && c.store != NIL && c.generation != NIL
    && (c.pendingReset.Some? ==>
          && c.pendingReset.value.resetId != NIL
          && c.pendingReset.value.displacedStore == c.store
          && ValidReason(c.pendingReset.value.reason))
  }

  predicate WellFormedHolds(holds: map<Uuid, Hold>) {
    |holds| <= MAX_HOLDS && forall id :: id in holds ==> WellFormedHold(id, holds[id])
  }

  predicate WellFormedParticipants(participants: map<Uuid, Participant>) {
    && |participants| <= MAX_DOMAINS - 2
    && forall id :: id in participants ==> WellFormedParticipant(id, participants[id])
  }

  /** Everything `load` checks about a registry except its agreement with the anchor. */
  predicate WellFormed(r: Registry) {
    && r.version == 1
    && (r.domains.Some? ==> ValidDomains(r.domains.value))
    && WellFormedHolds(r.holds)
    && WellFormedParticipants(r.participants)
    && (r.coordinator.Some? ==> WellFormedCoordinator(r.coordinator.value))
  }

  function Vetted(anchor: AnchorFile, host: nat, r: Registry): State {
    if anchor == Anchor(1, AnchorIdentity(r), host) && r.host == host && WellFormed(r) then Ready(r) else Unknown
  }

  predicate UsableBlob(sz: Sizes, d: Disk, b: BlobRef) {
    && b.operationId != NIL
    && b in d.blobs && d.blobs[b].Blob?
    && sz.intent(d.blobs[b].intent) <= MAX_JOURNAL_BYTES
    && d.blobs[b].intent.request.operationId == b.operationId
    && IntentDigest(d.blobs[b].intent) == b.digest
  }

  function Load(sz: Sizes, d: Disk, host: nat): State {
    if d.anchor.NoAnchor? && d.registry.NoRegistry? then Uninitialized
    else if !d.anchor.Anchor? || !d.registry.Stored? then Unknown
    else if d.registry.sha != RegistryDigest(d.registry.payload) then Unknown
    else
      var p := d.registry.payload;
      if sz.registry(p) > MAX_REGISTRY_BYTES then Unknown
      else if p.pendingBlob.None? then Vetted(d.anchor, host, p)
      else if p.pendingCommit.Some? || !UsableBlob(sz, d, p.pendingBlob.value) then Unknown
      else Vetted(d.anchor, host, p.(pendingCommit := Some(d.blobs[p.pendingBlob.value].intent)))
  }

  function AdmissionBlocker(s: State): Option<Blocker> {
    match s
    case Uninitialized => Some(AuthorityUninitialized)
    case Unknown => Some(HistoryUnknown)
    case Ready(r) => RegistryBlocker(r)
  }

  // ---- Byte budget ---------------------------------------------------------------

  function Unreleased(r: Registry): set<Uuid> {
    set id | id in r.holds && !r.holds[id].released
  }

  function ReservedBytes(r: Registry): nat {
    |r.participants| * BYTES_PER_PARTICIPANT + |Unreleased(r)| * BYTES_PER_HOLD
  }

  /** Bytes this registry occupies now plus the bytes its cleanup may still need. */
  function Future(sz: Sizes, r: Registry): nat {
    sz.registry(Persisted(r)) + ReservedBytes(r)
  }

  predicate IsLeast(ids: set<Uuid>, least: Uuid) {
    least in ids && forall other :: other in ids ==> least <= other
  }

  lemma LeastExists(ids: set<Uuid>)
    requires ids != {}
    ensures exists id :: IsLeast(ids, id)
  {
    var pick :| pick in ids;
    var others := ids - {pick};
    if others == {} {
      assert ids == {pick};
      assert IsLeast(ids, pick);
    } else {
      LeastExists(others);
      var rest :| IsLeast(others, rest);
      assert ids == others + {pick};
      assert IsLeast(ids, if pick <= rest then pick else rest);
    }
  }

  /** The key a sorted table lists first. */
  function Least(ids: set<Uuid>): (least: Uuid)
    requires ids != {}
    ensures IsLeast(ids, least)
  {
    LeastExists(ids);
    var id :| IsLeast(ids, id);
    id
  }

  /** Encoded holds, each with its separator, in key order. */
  function HoldBytes(sz: Sizes, holds: map<Uuid, Hold>, ids: set<Uuid>): nat
    requires ids <= holds.Keys
  {
    if ids == {} then 0
    else
      var id := Least(ids);
      sz.hold(holds[id]) + 1 + HoldBytes(sz, holds, ids - {id})
  }

  function Registrations(participants: map<Uuid, Participant>): map<Uuid, Registration> {
    map id | id in participants :: participants[id].registration
  }

  /** Length of the JSON array of unreleased holds: brackets, elements and separators. */
  function AdmissionBytes(sz: Sizes, r: Registry): nat {
    2 + HoldBytes(sz, r.holds, Unreleased(r)) - (if Unreleased(r) == {} then 0 else 1)
    + sz.rest(Registrations(r.participants), r.machinePermissions, r.nativePermissions)
  }

  predicate Publishable(sz: Sizes, s: State, next: Registry) {
    && Encodable(sz, next)
    && (s.Ready? ==>
          && (Future(sz, next) > MAX_REGISTRY_BYTES ==> Future(sz, next) <= Future(sz, s.registry))
          && (AdmissionBytes(sz, next) > AdmissionBytes(sz, s.registry) ==>
                && sz.registry(Persisted(next)) <= MAX_REGISTRY_BYTES - COMMIT_HEADROOM
                && Future(sz, next) <= MAX_REGISTRY_BYTES - CLEANUP_HEADROOM))
  }

  // ---- Publication -----------------------------------------------------------------

  /** An I/O error: the failing write may or may not have become durable. */
  datatype Fault = NoFault | BlobFault(written: bool) | RegistryFault(written: bool)

  /** What the file system does during one call: `removed` are the directory
      entries, in listing order, whose removal succeeds. */
  datatype Env = Env(fault: Fault, retireSucceeds: bool, removed: seq<BlobRef>)

  /** The end of a call, and every directory state a crash inside it could leave.
      The first `early` of them precede the replacement of registry.json. */
  datatype Attempt = Attempt(state: State, disk: Disk, points: seq<Disk>, early: nat, ok: bool)

  function Idle(s: State, d: Disk, ok: bool): Attempt { Attempt(s, d, [], 0, ok) }

  function Dropped(d: Disk, b: BlobRef): Disk {
    d.(blobs := d.blobs - {b})
  }

  /** Directory after pruning every listed blob except the one to keep. */
  function Pruned(d: Disk, keep: Option<BlobRef>, listing: seq<BlobRef>): Disk
    decreases listing
  {
    if listing == [] then d
    else Pruned(if keep == Some(listing[0]) then d else Dropped(d, listing[0]), keep, listing[1..])
  }

  function PrunePoints(d: Disk, keep: Option<BlobRef>, listing: seq<BlobRef>): seq<Disk>
    decreases listing
  {
    if listing == [] then []
    else if keep == Some(listing[0]) then PrunePoints(d, keep, listing[1..])
    else [Dropped(d, listing[0])] + PrunePoints(Dropped(d, listing[0]), keep, listing[1..])
  }

  function PreviousBlob(s: State): Option<BlobRef> {
    if s.Ready? then s.registry.pendingBlob else None
  }

  /** The replaced blob is removed unless the new pending commit has the same digest. */
  function Doomed(s: State, next: Registry, env: Env): seq<BlobRef> {
    var previous := PreviousBlob(s);
    var retires :=
      && previous.Some?
      && (next.pendingCommit.None? || previous.value.digest != IntentDigest(next.pendingCommit.value));
    if retires && env.retireSucceeds then [previous.value] else []
  }

  function WithBlob(d: Disk, next: Registry): Disk {
    if next.pendingCommit.None? then d
    else d.(blobs := d.blobs[RefOf(next.pendingCommit).value := Blob(next.pendingCommit.value)])
  }

  predicate NeedsBlob(d: Disk, next: Registry) {
    next.pendingCommit.Some? && RefOf(next.pendingCommit).value !in d.blobs
  }

  predicate BlobChanged(d: Disk, next: Registry) {
    next.pendingCommit.Some? && RefOf(next.pendingCommit).value in d.blobs
    && d.blobs[RefOf(next.pendingCommit).value] != Blob(next.pendingCommit.value)
  }

  /** Retire the replaced blob, then prune every orphan the listing can remove. */
  function CleanUp(s: State, d: Disk, next: Registry, env: Env): Attempt {
    var keep := RefOf(next.pendingCommit);
    var doomed := Doomed(s, next, env);
    var retired := if doomed == [] then d else Dropped(d, doomed[0]);
    Attempt(Ready(Committed(next)), Pruned(retired, keep, env.removed),
            (if doomed == [] then [] else [retired]) + PrunePoints(retired, keep, env.removed), 0, true)
  }

  /** Replace registry.json once the blob is in place; from here on an error leaves
      the outcome uncertain, so memory is Unknown until the write is confirmed. */
  function CommitAttempt(s: State, d: Disk, before: seq<Disk>, next: Registry, env: Env): Attempt {
    var written := d.(registry := StoredAs(next));
    if env.fault == RegistryFault(false) then Attempt(Unknown, d, before, |before|, false)
    else if env.fault == RegistryFault(true) then Attempt(Unknown, written, before + [written], |before|, false)
    else
      var cleaned := CleanUp(s, written, next, env);
      cleaned.(points := before + ([written] + cleaned.points), early := |before|)
  }

  function PublishAttempt(sz: Sizes, s: State, d: Disk, next: Registry, env: Env): Attempt {
    if !Publishable(sz, s, next) || BlobChanged(d, next) then Idle(s, d, false)
    else if !NeedsBlob(d, next) then CommitAttempt(s, d, [], next, env)
    else
      var withBlob := WithBlob(d, next);
      if env.fault == BlobFault(false) then Idle(s, d, false)
      else if env.fault == BlobFault(true) then Attempt(s, withBlob, [withBlob], 1, false)
      else CommitAttempt(s, withBlob, [withBlob], next, env)
  }

  function Perform(sz: Sizes, s: State, d: Disk, decision: Decision, env: Env): Attempt {
    match decision
    case Refuse => Idle(s, d, false)
    case Keep => Idle(s, d, true)
    case Publish(next) => PublishAttempt(sz, s, d, next, env)
  }

  /** Open: load, give a legacy registry its domain identities, prune orphan blobs. */
  function OpenAttempt(sz: Sizes, d: Disk, host: nat, newDomains: Domains, env: Env): Attempt {
    var loaded := Load(sz, d, host);
    if loaded.Ready? && loaded.registry.domains.None? then
      var upgraded := Perform(sz, loaded, d, Decide(loaded.registry, Coordination(UpgradeDomains(newDomains))), env);
      if upgraded.ok then PruneAttempt(upgraded, env) else upgraded.(state := Unknown)
    else PruneAttempt(Idle(loaded, d, true), env)
  }

  function PruneAttempt(a: Attempt, env: Env): Attempt {
    if !a.state.Ready? then a
    else
      var keep := a.state.registry.pendingBlob;
      a.(disk := Pruned(a.disk, keep, env.removed), points := a.points + PrunePoints(a.disk, keep, env.removed))
  }

  function EmptyRegistry(epoch: Uuid, host: nat, domains: Domains): Registry {
    Registry(1, epoch, None, host, map[], Some(domains), None, map[], map[], map[], None, {}, None, None)
  }

  /** Initialize: only an absent history may be declared empty, and the anchor is
      created exclusively before the first registry is published. */
  function InitializeAttempt(sz: Sizes, s: State, d: Disk, host: nat, epoch: Uuid, domains: Domains,
    env: Env): Attempt {
    match s
    case Ready(_) => Idle(s, d, true)
    case Unknown => Idle(s, d, false)
    case Uninitialized =>
      if !d.anchor.NoAnchor? then Idle(Unknown, d, false)
      else
        var created := d.(anchor := PartialAnchor);
        var anchored := d.(anchor := Anchor(1, epoch, host));
        var published := PublishAttempt(sz, Unknown, anchored, EmptyRegistry(epoch, host, domains), env);
        published.(points := [created, anchored] + published.points, early := published.early + 2)
  }
}
