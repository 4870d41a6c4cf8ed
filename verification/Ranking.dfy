/** Priority aging and the scheduling order, with the source's saturating arithmetic. */
module Ranking {
  const I64_MAX: int := 0x7FFF_FFFF_FFFF_FFFF
  const I64_MIN: int := -0x8000_0000_0000_0000
  const AGING_QUANTUM: int := 60_000
  const MAX_EFFECTIVE: int := 1_000_000

  predicate IsI64(x: int) { I64_MIN <= x <= I64_MAX }
  predicate IsI8(x: int) { -128 <= x <= 127 }

  function Saturate(x: int): int {
    if x < I64_MIN then I64_MIN else if x > I64_MAX then I64_MAX else x
  }

  function Min(a: int, b: int): int { if a < b then a else b }

  /** A clock behind the acceptance time counts as no waiting at all. */
  function WaitedMillis(acceptedMs: int, now: int): nat {
    var elapsed := Saturate(now - acceptedMs);
    if elapsed < 0 then 0 else elapsed
  }

  function EffectivePriority(priority: int, acceptedMs: int, now: int): int {
    Min(Saturate(priority + WaitedMillis(acceptedMs, now) / AGING_QUANTUM), MAX_EFFECTIVE)
  }

  datatype ScheduleKey = ScheduleKey(effectivePriority: int, acceptedMs: int, rowid: int)

  datatype Ordering = Less | Equal | Greater {
    function Then(other: Ordering): Ordering { if this == Equal then other else this }
  }

  function Compare(a: int, b: int): Ordering {
    if a < b then Less else if a == b then Equal else Greater
  }

  function ScheduleOrder(left: ScheduleKey, right: ScheduleKey): Ordering {
    Compare(right.effectivePriority, left.effectivePriority)
      .Then(Compare(left.acceptedMs, right.acceptedMs))
      .Then(Compare(left.rowid, right.rowid))
  }

  predicate Outranks(left: ScheduleKey, right: ScheduleKey) { ScheduleOrder(left, right) == Less }

  /** Distinct rows are always ordered, one way only, and the order is transitive. */
  lemma OutranksIsStrictTotalOrder(a: ScheduleKey, b: ScheduleKey, c: ScheduleKey)
    ensures !Outranks(a, a)
    ensures a.rowid != b.rowid ==> (Outranks(a, b) <==> !Outranks(b, a))
    ensures Outranks(a, b) && Outranks(b, c) ==> Outranks(a, c)
  {
  }

  datatype Waiting = Waiting(priority: int, acceptedMs: int, rowid: int)

  predicate ValidJob(j: Waiting) { IsI8(j.priority) && IsI64(j.acceptedMs) }

  predicate AcceptedLater(later: Waiting, earlier: Waiting) {
    earlier.acceptedMs < later.acceptedMs || (earlier.acceptedMs == later.acceptedMs && earlier.rowid < later.rowid)
  }

  function KeyAt(j: Waiting, now: int): ScheduleKey {
    ScheduleKey(EffectivePriority(j.priority, j.acceptedMs, now), j.acceptedMs, j.rowid)
  }

  lemma QuotientBounds(x: nat, n: int)
    ensures x / AGING_QUANTUM >= n <==> x >= n * AGING_QUANTUM || n <= 0
  {
  }

  /** A job reaches the top priority exactly when it has waited the missing number of quanta. */
  lemma FullyAgedIff(j: Waiting, now: int)
    requires ValidJob(j) && IsI64(now)
    ensures EffectivePriority(j.priority, j.acceptedMs, now) == MAX_EFFECTIVE
            <==> now - j.acceptedMs >= (MAX_EFFECTIVE - j.priority) * AGING_QUANTUM
  {
    QuotientBounds(WaitedMillis(j.acceptedMs, now), MAX_EFFECTIVE - j.priority);
  }

  /** Once fully aged, a job outranks every later-accepted job at all later times, whatever
      the priorities and even where the elapsed time saturates. */
  lemma FullyAgedJobIsNeverOvertaken(j: Waiting, other: Waiting, aged: int, now: int)
    requires ValidJob(j) && ValidJob(other) && IsI64(aged) && IsI64(now) && aged <= now
    requires aged - j.acceptedMs >= (MAX_EFFECTIVE - j.priority) * AGING_QUANTUM
    requires AcceptedLater(other, j)
    ensures Outranks(KeyAt(j, now), KeyAt(other, now))
  {
    FullyAgedIff(j, now);
  }

  /** Two jobs are ordered for good, from the later acceptance on, exactly when the earlier
      one's head start covers the other's priority advantage in whole quanta. */
  lemma HeadStartDecidesIff(j: Waiting, other: Waiting)
    requires ValidJob(j) && ValidJob(other) && AcceptedLater(other, j)
    ensures (forall now :: other.acceptedMs <= now <= I64_MAX ==> Outranks(KeyAt(j, now), KeyAt(other, now)))
            <==> other.acceptedMs - j.acceptedMs >= (other.priority - j.priority) * AGING_QUANTUM
  {
    if other.acceptedMs - j.acceptedMs >= (other.priority - j.priority) * AGING_QUANTUM {
      forall now | other.acceptedMs <= now <= I64_MAX ensures Outranks(KeyAt(j, now), KeyAt(other, now)) {
        HeadStartHolds(j, other, now);
      }
    } else {
      QuotientBounds(WaitedMillis(j.acceptedMs, other.acceptedMs), other.priority - j.priority);
      assert !Outranks(KeyAt(j, other.acceptedMs), KeyAt(other, other.acceptedMs));
    }
  }

  lemma HeadStartHolds(j: Waiting, other: Waiting, now: int)
    requires ValidJob(j) && ValidJob(other) && AcceptedLater(other, j) && other.acceptedMs <= now <= I64_MAX
    requires other.acceptedMs - j.acceptedMs >= (other.priority - j.priority) * AGING_QUANTUM
    ensures Outranks(KeyAt(j, now), KeyAt(other, now))
  {
    var quanta := WaitedMillis(other.acceptedMs, now) / AGING_QUANTUM;
    QuotientBounds(WaitedMillis(j.acceptedMs, now), quanta + other.priority - j.priority);
  }
}
