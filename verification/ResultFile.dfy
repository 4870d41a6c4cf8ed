/**
 The durable receipt of a submission. A receipt file is read, checked and
 replaced under one exclusive lock, so an update is atomic. Endpoints and
 payloads stand for their canonical forms.
 */
module ResultFile {
  import opened Optional

  const RESULT_FILE_VERSION: nat := 5

  datatype JobReceipt = JobReceipt(submission: nat, job: nat, parent: Option<nat>, estimates: nat)
  datatype Member = Member(name: nat, receipt: JobReceipt)
  datatype BatchReceipt = BatchReceipt(submission: nat, batch: nat, jobs: seq<Member>, estimates: nat)

  datatype Recovery =
    | Received(submission: nat)
    | Accepted(job: JobReceipt)
    | AcceptedBatch(batch: BatchReceipt)
    | Rejected(code: nat, detail: nat)
    | Conflict(existing: nat, requested: nat)
    | NotReceived
    | Unknown

  datatype Record = Record(
    version: nat, key: nat, payload: nat, endpoint: nat, store: nat, parent: Option<nat>, receipt: Option<Recovery>)

  predicate SameOperation(a: Record, b: Record) {
    a.key == b.key && a.endpoint == b.endpoint && a.store == b.store && a.parent == b.parent
  }

  predicate SameIdentity(a: Record, b: Record) {
    a.version == RESULT_FILE_VERSION && b.version == RESULT_FILE_VERSION && SameOperation(a, b)
        && a.payload == b.payload
  }

  predicate SameReceipt(a: JobReceipt, b: JobReceipt) {
    a.submission == b.submission && a.job == b.job && a.parent == b.parent
  }

  predicate SameTerminalDecision(existing: Recovery, proposed: Recovery) {
    match (existing, proposed)
    case (Accepted(a), Accepted(b)) => SameReceipt(a, b)
    case (AcceptedBatch(a), AcceptedBatch(b)) =>
      a.submission == b.submission && a.batch == b.batch && |a.jobs| == |b.jobs|
      && forall i :: 0 <= i < |a.jobs| ==>
           a.jobs[i].name == b.jobs[i].name && SameReceipt(a.jobs[i].receipt, b.jobs[i].receipt)
    case (Rejected(_, _), Rejected(_, _)) => existing == proposed
    case (Conflict(_, _), Conflict(_, _)) => existing == proposed
    case _ => false
  }

  predicate Terminal(r: Recovery) {
    r.Accepted? || r.AcceptedBatch? || r.Rejected? || r.Conflict?
  }

  /** On terminal decisions, ignoring live estimates is an equivalence. */
  lemma SameTerminalDecisionIsEquivalence(a: Recovery, b: Recovery, c: Recovery)
    ensures SameTerminalDecision(a, a) <==> Terminal(a)
    ensures SameTerminalDecision(a, b) ==> SameTerminalDecision(b, a)
    ensures SameTerminalDecision(a, b) && SameTerminalDecision(b, c) ==> SameTerminalDecision(a, c)
  {
  }

  predicate MayAdvance(current: Option<Recovery>, receipt: Recovery) {
    match current
    case None => true
    case Some(NotReceived) => !receipt.Unknown?
    case Some(Received(_)) => receipt.Received? || Terminal(receipt)
    case Some(existing) => existing == receipt
  }

  datatype Update = Failed | Kept | Replaced(record: Record)

  /** What one locked update does to the file it finds. */
  function Persist(current: Record, expected: Record, receipt: Recovery): Update {
    if !SameIdentity(current, expected) then Failed
    else if current.receipt.Some? && SameTerminalDecision(current.receipt.value, receipt) then Kept
    else if !MayAdvance(current.receipt, receipt) then Failed
    else if current.receipt == Some(receipt) then Kept
    else Replaced(current.(receipt := Some(receipt)))
  }

  /** A recovery answer of Unknown is dropped before it can reach the file. */
  function PersistRecovery(current: Record, expected: Record, recovery: Recovery): Update {
    if recovery.Unknown? then Kept else Persist(current, expected, recovery)
  }

  /** The file is rewritten at most once per locked update; a crash leaves it whole. */
  class ReceiptFile {
    var record: Record

    constructor (record: Record)
      ensures this.record == record
    {
      this.record := record;
    }

    method PersistReceipt(expected: Record, receipt: Recovery) returns (ok: bool)
      modifies this
      ensures var u := Persist(old(record), expected, receipt);
              ok == !u.Failed? && record == if u.Replaced? then u.record else old(record)
      ensures Progress(old(record.receipt), record.receipt) || receipt.Unknown?
    {
      ProgressOfUpdate(record, expected, receipt);
      var current := record;
      if !SameIdentity(current, expected) { return false; }
      if current.receipt.Some? && SameTerminalDecision(current.receipt.value, receipt) { return true; }
      if !MayAdvance(current.receipt, receipt) { return false; }
      if current.receipt != Some(receipt) {
        record := current.(receipt := Some(receipt));
      }
      ok := true;
    }
  }

  // ---- Decisions only move forward ----------------------------------------------------------

  /** No decision, not received, received, decided. Unknown has no place. */
  function Stage(r: Option<Recovery>): nat {
    match r
    case None => 0
    case Some(NotReceived) => 1
    case Some(Received(_)) => 2
    case Some(_) => 3
  }

  predicate Progress(earlier: Option<Recovery>, later: Option<Recovery>) {
    && Stage(earlier) <= Stage(later)
    && (earlier.Some? && Terminal(earlier.value) ==> later == earlier)
    && (later != Some(Unknown) || earlier == Some(Unknown))
  }

  lemma ProgressOfUpdate(current: Record, expected: Record, receipt: Recovery)
    ensures var u := Persist(current, expected, receipt);
            u.Replaced? && !receipt.Unknown? ==>
                Progress(current.receipt, u.record.receipt) && u.record == current.(receipt := Some(receipt))
  {
  }

  /** The bare update stores Unknown exactly on an undecided file of the same operation;
      once stored, Unknown could never be replaced by any decision. */
  lemma UnknownStoredIff(current: Record, expected: Record, receipt: Recovery)
    requires current.receipt != Some(Unknown)
    ensures Persist(current, expected, receipt) == Replaced(current.(receipt := Some(Unknown)))
            <==> SameIdentity(current, expected) && current.receipt.None? && receipt.Unknown?
    ensures !Persist(current.(receipt := Some(Unknown)), expected, receipt).Replaced?
  {
  }

  /** Every caller of the locked update: a submit's answer, or a recovery's. */
  datatype Write =
    | SubmitAnswer(expected: Record, answer: Recovery)
    | RecoveryAnswer(expected: Record, recovery: Recovery)

  /** A submit persists only an acceptance, a rejection or a conflict. */
  predicate ValidWrite(w: Write) { w.SubmitAnswer? ==> Terminal(w.answer) }

  function Written(current: Record, w: Write): Record {
    var u := match w
             case SubmitAnswer(expected, answer) => Persist(current, expected, answer)
             case RecoveryAnswer(expected, recovery) => PersistRecovery(current, expected, recovery);
    if u.Replaced? then u.record else current
  }

  function WrittenAll(current: Record, writes: seq<Write>): Record
    decreases writes
  {
    if writes == [] then current else WrittenAll(Written(current, writes[0]), writes[1..])
  }

  /** Over any interleaving of writers the decision never moves backward, a terminal decision is
      never replaced, Unknown is never stored and the operation's identity never changes. */
  lemma {:induction false} ReceiptOnlyAdvances(current: Record, writes: seq<Write>)
    requires current.receipt != Some(Unknown) && forall w :: w in writes ==> ValidWrite(w)
    ensures var final := WrittenAll(current, writes);
            && Progress(current.receipt, final.receipt)
            && final.receipt != Some(Unknown)
            && final == current.(receipt := final.receipt)
    decreases writes
  {
    if writes != [] {
      var w := writes[0];
      assert w in writes;
      match w {
        case SubmitAnswer(expected, answer) => ProgressOfUpdate(current, expected, answer);
        case RecoveryAnswer(expected, recovery) => ProgressOfUpdate(current, expected, recovery);
      }
      ReceiptOnlyAdvances(Written(current, w), writes[1..]);
    }
  }
}
