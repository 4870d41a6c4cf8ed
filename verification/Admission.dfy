/** The scalar reservation decision, with checked 64-bit sums. */
module Admission {
  import opened Optional

  type Key = nat
  type Claims = map<Key, nat>

  const U64_LIMIT: nat := 0x1_0000_0000_0000_0000

  predicate U64Claims(c: Claims) { forall k :: k in c ==> c[k] < U64_LIMIT }

  /** A key that is absent from a table claims, or offers, nothing. */
  function Amount(c: Claims, k: Key): nat { if k in c then c[k] else 0 }

  function SaturatingSub(a: nat, b: nat): nat { if a < b then 0 else a - b }

  function Total(debits: seq<Claims>, k: Key): nat {
    if debits == [] then 0 else Amount(debits[0], k) + Total(debits[1..], k)
  }

  /** The checked fold: None as soon as a partial sum leaves 64 bits. */
  function CheckedTotal(sum: nat, debits: seq<Claims>, k: Key): Option<nat>
    decreases debits
  {
    if debits == [] then Some(sum)
    else if sum + Amount(debits[0], k) >= U64_LIMIT then None
    else CheckedTotal(sum + Amount(debits[0], k), debits[1..], k)
  }

  lemma {:induction false} CheckedTotalIsExact(sum: nat, debits: seq<Claims>, k: Key)
    requires sum < U64_LIMIT
    ensures CheckedTotal(sum, debits, k) ==
            if sum + Total(debits, k) < U64_LIMIT then Some(sum + Total(debits, k)) else None
    decreases debits
  {
    if debits != [] && sum + Amount(debits[0], k) < U64_LIMIT {
      CheckedTotalIsExact(sum + Amount(debits[0], k), debits[1..], k);
    }
  }

  lemma {:induction false} TotalConcat(a: seq<Claims>, b: seq<Claims>, k: Key)
    ensures Total(a + b, k) == Total(a, k) + Total(b, k)
    decreases a
  {
    if a == [] {
      assert a + b == b;
    } else {
      TotalConcat(a[1..], b, k);
      assert (a + b)[1..] == a[1..] + b;
    }
  }

  predicate FitsKey(amount: nat, capacity: nat, used: Option<nat>) {
    amount == 0 || (used.Some? && amount <= SaturatingSub(capacity, used.value))
  }

  predicate Fits(claims: Claims, capacities: Claims, debits: seq<Claims>) {
    forall k :: k in claims ==> FitsKey(claims[k], Amount(capacities, k), CheckedTotal(0, debits, k))
  }

  /** With 64-bit capacities, fitting is plain addition: the overflow branch adds nothing. */
  lemma FitsIsAddition(claims: Claims, capacities: Claims, debits: seq<Claims>)
    requires U64Claims(capacities)
    ensures Fits(claims, capacities, debits) <==>
            forall k :: k in claims && claims[k] > 0 ==> claims[k] + Total(debits, k) <= Amount(capacities, k)
  {
    forall k
      ensures CheckedTotal(0, debits, k) == if Total(debits, k) < U64_LIMIT then Some(Total(debits, k)) else None
    {
      CheckedTotalIsExact(0, debits, k);
    }
  }

  datatype ReservationDecision = Grant | Hold | Create | Expire | Drop

  datatype Input = Input(
    claims: Claims, capacities: Claims, active: seq<Claims>, reserved: seq<Claims>,
    ownDeadline: Option<int>, higherOverlaps: bool, notBefore: Option<int>, now: int)

  predicate Overflows(i: Input) {
    exists k :: k in i.claims && i.claims[k] > 0 && CheckedTotal(0, i.active, k).None?
  }

  predicate ClaimsAnything(c: Claims) { exists k :: k in c && c[k] > 0 }

  function Decide(i: Input): ReservationDecision {
    if !Fits(i.claims, i.capacities, []) then Drop
    else if i.ownDeadline.Some? then
      if i.ownDeadline.value <= i.now then Expire
      else if !i.higherOverlaps && Fits(i.claims, i.capacities, i.active) then Grant
      else Hold
    else if i.notBefore.Some? && i.notBefore.value > i.now then Hold
    else if Fits(i.claims, i.capacities, i.active + i.reserved) then Grant
    else if !ClaimsAnything(i.claims) || Overflows(i) || !Fits(i.claims, i.capacities, i.reserved) then Hold
    else Create
  }
}
