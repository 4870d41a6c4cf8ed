/**
 Blockers of a claim against the active claims: checked scalar sums, path
 fences and impact rules. The source sorts and deduplicates its blocker list,
 so a result is the set of its blockers.
 */
module Compatibility {
  import opened Optional
  import opened Admission

  type Name = nat

  /** `scalars` is the full scalar vector: the built-in resources and the custom ones. */
  datatype Claim = Claim(scalars: Claims, shared: set<Name>, exclusive: set<Name>, impacts: set<Name>)

  type Rules = map<Name, seq<Name>>

  datatype Blocker =
    | ResourceCapacity(key: Key) | ResourceBusy(key: Key) | ScalarByAncestor(key: Key)
    | FenceBusy(fence: Name) | ImpactBusy(impact: Name, held: Name)
    | FenceByAncestor(fence: Name) | ImpactByAncestor(impact: Name, held: Name)

  predicate ImpactsConflict(left: Name, right: Name, rules: Rules) {
    (left in rules && right in rules[left]) || (right in rules && left in rules[right])
  }

  function FenceClashes(c: Claim, held: Claim): set<Name> {
    c.exclusive * held.exclusive + c.exclusive * held.shared + c.shared * held.exclusive
  }

  function ImpactClashes(c: Claim, held: Claim, rules: Rules): set<(Name, Name)> {
    set a, b | a in c.impacts && b in held.impacts && ImpactsConflict(a, b, rules) :: (a, b)
  }

  predicate Compatible(a: Claim, b: Claim, rules: Rules) {
    FenceClashes(a, b) == {} && ImpactClashes(a, b, rules) == {}
  }

  /** Conflicts do not depend on who is asked. */
  lemma CompatibleIsSymmetric(a: Claim, b: Claim, rules: Rules)
    ensures FenceClashes(a, b) == FenceClashes(b, a)
    ensures Compatible(a, b, rules) <==> Compatible(b, a, rules)
  {
    if p :| p in ImpactClashes(a, b, rules) { assert (p.1, p.0) in ImpactClashes(b, a, rules); }
    if p :| p in ImpactClashes(b, a, rules) { assert (p.1, p.0) in ImpactClashes(a, b, rules); }
  }

  // ---- The rule for one scalar key ----------------------------------------------------------

  function ScalarBlocker(k: Key, requested: nat, capacity: nat, granted: Option<nat>): Option<Blocker> {
    if requested == 0 then None
    else if granted.None? then Some(ResourceBusy(k))
    else if requested > SaturatingSub(capacity, granted.value) then
      Some(if requested > capacity then ResourceCapacity(k) else ResourceBusy(k))
    else None
  }

  function AncestorScalarBlocker(k: Key, requested: nat, capacity: nat, retained: Option<nat>): Option<Blocker> {
    if requested == 0 then None
    else if requested > capacity then Some(ResourceCapacity(k))
    else if retained.None? then Some(ScalarByAncestor(k))
    else if retained.value == 0 then None
    else if requested > SaturatingSub(capacity, retained.value) then Some(ScalarByAncestor(k))
    else None
  }

  function Debits(active: seq<Claim>): seq<Claims> {
    if active == [] then [] else [active[0].scalars] + Debits(active[1..])
  }

  /** What the whole decision amounts to: the vector fits and every active claim is compatible. */
  predicate Unblocked(c: Claim, capacities: Claims, active: seq<Claim>, rules: Rules) {
    Fits(c.scalars, capacities, Debits(active)) && forall held :: held in active ==> Compatible(c, held, rules)
  }

  // ---- The blocker lists ---------------------------------------------------------------------

  function ScalarRule(claims: Claims, capacities: Claims, debits: seq<Claims>, ancestorsOnly: bool,
    k: Key): Option<Blocker>
    requires k in claims
  {
    var used := CheckedTotal(0, debits, k);
    if ancestorsOnly then AncestorScalarBlocker(k, claims[k], Amount(capacities, k), used)
    else ScalarBlocker(k, claims[k], Amount(capacities, k), used)
  }

  /** Both rules block a key exactly when it does not fit; under the ancestor rule a request
      that could never fit is told apart from one its ancestors stand in the way of. */
  lemma BothScalarRulesMeanFits(claims: Claims, capacities: Claims, debits: seq<Claims>, ancestorsOnly: bool, k: Key)
    requires k in claims
    ensures ScalarRule(claims, capacities, debits, ancestorsOnly, k).None?
            <==> FitsKey(claims[k], Amount(capacities, k), CheckedTotal(0, debits, k))
    ensures ScalarRule(claims, capacities, debits, true, k) == Some(ResourceCapacity(k)) <==>
        claims[k] > Amount(capacities, k)
  {
  }

  /** One list of scalar blockers; `ancestorsOnly` selects the ancestor rule. */
  method ScalarBlockers(claims: Claims, capacities: Claims, debits: seq<Claims>, ancestorsOnly: bool)
    returns (blockers: set<Blocker>)
    ensures forall b :: b in blockers <==>
              exists k :: k in claims && ScalarRule(claims, capacities, debits, ancestorsOnly, k) == Some(b)
    ensures blockers == {} <==> Fits(claims, capacities, debits)
  {
    hide CheckedTotal;
    blockers := {};
    var left := claims.Keys;
    while left != {}
      invariant left <= claims.Keys
      invariant forall b :: b in blockers <==>
                  exists k :: k in claims.Keys - left
                              && ScalarRule(claims, capacities, debits, ancestorsOnly, k) == Some(b)
      decreases left
    {
      var k :| k in left;
      var blocker := ScalarRule(claims, capacities, debits, ancestorsOnly, k);
      if blocker.Some? { blockers := blockers + {blocker.value}; }
      left := left - {k};
    }
    forall k | k in claims
      ensures ScalarRule(claims, capacities, debits, ancestorsOnly, k).None?
              <==> FitsKey(claims[k], Amount(capacities, k), CheckedTotal(0, debits, k))
    {
      BothScalarRulesMeanFits(claims, capacities, debits, ancestorsOnly, k);
    }
    if !Fits(claims, capacities, debits) {
      var k :| k in claims && !FitsKey(claims[k], Amount(capacities, k), CheckedTotal(0, debits, k));
      assert ScalarRule(claims, capacities, debits, ancestorsOnly, k).value in blockers;
    }
  }

  function ClashBlockers(c: Claim, held: Claim, rules: Rules, ancestor: bool): set<Blocker> {
    (set f | f in FenceClashes(c, held) :: if ancestor then FenceByAncestor(f) else FenceBusy(f))
    + (set p | p in ImpactClashes(c, held, rules) ::
         if ancestor then ImpactByAncestor(p.0, p.1) else ImpactBusy(p.0, p.1))
  }

  lemma ClashBlockersEmptyIff(c: Claim, held: Claim, rules: Rules, ancestor: bool)
    ensures ClashBlockers(c, held, rules, ancestor) == {} <==> Compatible(c, held, rules)
  {
    if f :| f in FenceClashes(c, held) {
      assert (if ancestor then FenceByAncestor(f) else FenceBusy(f)) in ClashBlockers(c, held, rules, ancestor);
    }
    if p :| p in ImpactClashes(c, held, rules) {
      var blocker := if ancestor then ImpactByAncestor(p.0, p.1) else ImpactBusy(p.0, p.1);
      assert blocker in ClashBlockers(c, held, rules, ancestor);
    }
  }

  /** Fence and impact blockers: exactly the clashes with some active claim. */
  method NonScalarBlockers(c: Claim, active: seq<Claim>, rules: Rules, ancestor: bool) returns (blockers: set<Blocker>)
    ensures forall b :: b in blockers <==> exists held :: held in active && b in ClashBlockers(c, held, rules, ancestor)
    ensures blockers == {} <==> forall held :: held in active ==> Compatible(c, held, rules)
  {
    hide ClashBlockers, Compatible;
    blockers := {};
    for i := 0 to |active|
      invariant blockers == {} <==> forall held :: held in active[..i] ==> Compatible(c, held, rules)
      invariant forall b :: b in blockers <==>
          exists held :: held in active[..i] && b in ClashBlockers(c, held, rules, ancestor)
    {
      assert active[..i + 1] == active[..i] + [active[i]];
      ClashBlockersEmptyIff(c, active[i], rules, ancestor);
      blockers := blockers + ClashBlockers(c, active[i], rules, ancestor);
    }
    assert active[..|active|] == active;
  }

  /** The full vector of blockers; empty exactly when the claim may start. */
  method Blockers(c: Claim, capacities: Claims, active: seq<Claim>, rules: Rules) returns (blockers: set<Blocker>)
    ensures blockers == {} <==> Unblocked(c, capacities, active, rules)
  {
    var scalar := ScalarBlockers(c.scalars, capacities, Debits(active), false);
    var other := NonScalarBlockers(c, active, rules, false);
    blockers := scalar + other;
  }

  /** The ancestors' rule is written differently, yet it blocks a child exactly when the child
      could not start with only its ancestors active: a managed wait then cannot deadlock. */
  method AncestorBlockers(c: Claim, capacities: Claims, ancestors: seq<Claim>, rules: Rules)
    returns (blockers: set<Blocker>)
    ensures blockers == {} <==> Unblocked(c, capacities, ancestors, rules)
    ensures forall k :: ResourceCapacity(k) in blockers <==> k in c.scalars && c.scalars[k] > Amount(capacities, k)
  {
    var scalar := ScalarBlockers(c.scalars, capacities, Debits(ancestors), true);
    var other := NonScalarBlockers(c, ancestors, rules, true);
    blockers := scalar + other;
    forall k | k in c.scalars && c.scalars[k] > Amount(capacities, k) ensures ResourceCapacity(k) in blockers {
      BothScalarRulesMeanFits(c.scalars, capacities, Debits(ancestors), true, k);
    }
  }

  lemma {:induction false} DebitsConcat(a: seq<Claim>, b: seq<Claim>)
    ensures Debits(a + b) == Debits(a) + Debits(b)
    decreases a
  {
    if a == [] {
      assert a + b == b;
    } else {
      DebitsConcat(a[1..], b);
      assert (a + b)[1..] == a[1..] + b;
    }
  }

  /** A child blocked by its ancestors is blocked in every state that still holds them, so
      rejecting its wait loses nothing. */
  lemma AncestorBlockIsPermanent(c: Claim, capacities: Claims, ancestors: seq<Claim>, others: seq<Claim>, rules: Rules)
    requires U64Claims(capacities)
    requires !Unblocked(c, capacities, ancestors, rules)
    ensures !Unblocked(c, capacities, ancestors + others, rules) && !Unblocked(c, capacities, others + ancestors, rules)
  {
    if !Fits(c.scalars, capacities, Debits(ancestors)) {
      FitsIsAddition(c.scalars, capacities, Debits(ancestors));
      FitsIsAddition(c.scalars, capacities, Debits(ancestors + others));
      FitsIsAddition(c.scalars, capacities, Debits(others + ancestors));
      DebitsConcat(ancestors, others);
      DebitsConcat(others, ancestors);
      var k :| k in c.scalars && c.scalars[k] > 0 && c.scalars[k] + Total(Debits(ancestors), k) > Amount(capacities, k);
      TotalConcat(Debits(ancestors), Debits(others), k);
      TotalConcat(Debits(others), Debits(ancestors), k);
    } else {
      var held :| held in ancestors && !Compatible(c, held, rules);
      assert held in ancestors + others && held in others + ancestors;
    }
  }

  // ---- Runs of admission ---------------------------------------------------------------------

  datatype Event = Admit(claim: Claim) | Leave(index: nat)

  function Next(active: seq<Claim>, capacities: Claims, rules: Rules, e: Event): seq<Claim> {
    match e
    case Admit(c) => if Unblocked(c, capacities, active, rules) then active + [c] else active
    case Leave(i) => if i < |active| then active[..i] + active[i + 1..] else active
  }

  function Run(active: seq<Claim>, capacities: Claims, rules: Rules, events: seq<Event>): seq<Claim>
    decreases events
  {
    if events == [] then active else Run(Next(active, capacities, rules, events[0]), capacities, rules, events[1..])
  }

  predicate PairwiseCompatible(active: seq<Claim>, rules: Rules) {
    forall i, j :: 0 <= i < |active| && 0 <= j < |active| && i != j ==> Compatible(active[i], active[j], rules)
  }

  lemma EventKeepsCompatible(active: seq<Claim>, capacities: Claims, rules: Rules, e: Event)
    requires PairwiseCompatible(active, rules)
    ensures PairwiseCompatible(Next(active, capacities, rules, e), rules)
  {
    hide Compatible;
    match e
    case Admit(c) =>
      if Unblocked(c, capacities, active, rules) {
        forall i | 0 <= i < |active| ensures Compatible(c, active[i], rules) && Compatible(active[i], c, rules) {
          CompatibleIsSymmetric(c, active[i], rules);
        }
      }
    case Leave(i) =>
      if i < |active| {
        var rest := active[..i] + active[i + 1..];
        assert forall m :: 0 <= m < |rest| ==> rest[m] == active[if m < i then m else m + 1];
      }
  }

  /** Admitting only unblocked claims keeps every reachable active set pairwise compatible. */
  lemma {:induction false} ActiveSetsStayCompatible(active: seq<Claim>, capacities: Claims, rules: Rules,
    events: seq<Event>)
    requires PairwiseCompatible(active, rules)
    ensures PairwiseCompatible(Run(active, capacities, rules, events), rules)
    decreases events
  {
    hide Next, PairwiseCompatible;
    if events != [] {
      EventKeepsCompatible(active, capacities, rules, events[0]);
      ActiveSetsStayCompatible(Next(active, capacities, rules, events[0]), capacities, rules, events[1..]);
    }
  }
}
