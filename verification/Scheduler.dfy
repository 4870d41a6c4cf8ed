/**
 Scheduler runs built from the reservation decision: at any time some pending
 job is decided, a running job releases its lease, a reservation is withdrawn,
 or time passes. A job is its queue row; its claims and rank data never change.
 */
module Scheduler {
  import opened Optional
  import opened Ranking
  import opened Admission

  const HOLD_MILLIS: int := 60_000
  const BACKOFF_MILLIS: int := 5_000

  datatype JobInfo = JobInfo(priority: int, acceptedMs: int, claims: Claims)

  datatype Reservation = Reservation(job: int, deadline: int)

  datatype State = State(now: int, active: seq<int>, reserved: seq<Reservation>, notBefore: map<int, int>)

  datatype Event = Decided(job: int) | Released(index: nat) | Withdrawn(job: int) | Passed(millis: nat)

  /** Everything fixed during a run: the job table and the configured capacities. */
  datatype Setup = Setup(info: int -> JobInfo, capacities: Claims) {
    function ClaimsOf(j: int): Claims { info(j).claims }
    function Capacity(k: Key): nat { Amount(capacities, k) }
    function RankAt(j: int, now: int): ScheduleKey { KeyAt(Waiting(info(j).priority, info(j).acceptedMs, j), now) }
  }

  // ---- Views of a state -----------------------------------------------------------------

  function Table(s: Setup, jobs: seq<int>): seq<Claims> {
    if jobs == [] then [] else [s.ClaimsOf(jobs[0])] + Table(s, jobs[1..])
  }

  /** What a list of jobs uses of one resource. */
  function Load(s: Setup, jobs: seq<int>, k: Key): nat {
    if jobs == [] then 0 else Amount(s.ClaimsOf(jobs[0]), k) + Load(s, jobs[1..], k)
  }

  function Live(reserved: seq<Reservation>, now: int): seq<int> {
    if reserved == [] then []
    else (if reserved[0].deadline > now then [reserved[0].job] else []) + Live(reserved[1..], now)
  }

  function Without(reserved: seq<Reservation>, job: int): seq<Reservation> {
    if reserved == [] then []
    else (if reserved[0].job == job then [] else [reserved[0]]) + Without(reserved[1..], job)
  }

  function OwnDeadline(reserved: seq<Reservation>, job: int): Option<int> {
    if reserved == [] then None
    else if reserved[0].job == job then Some(reserved[0].deadline)
    else OwnDeadline(reserved[1..], job)
  }

  predicate OverlapsScalars(a: Claims, b: Claims) {
    exists k :: k in a && a[k] > 0 && k in b && b[k] > 0
  }

  /** A live reservation of a better ranked job wants some resource this job wants. */
  predicate HigherOverlaps(s: Setup, st: State, job: int) {
    exists other :: other in Live(st.reserved, st.now) && other != job
                    && Outranks(s.RankAt(other, st.now), s.RankAt(job, st.now))
                    && OverlapsScalars(s.ClaimsOf(job), s.ClaimsOf(other))
  }

  function InputFor(s: Setup, st: State, job: int): Input {
    var own := OwnDeadline(st.reserved, job);
    Input(s.ClaimsOf(job), s.capacities, Table(s, st.active), Table(s, Live(st.reserved, st.now)),
          own, own.Some? && HigherOverlaps(s, st, job),
          if job in st.notBefore then Some(st.notBefore[job]) else None, st.now)
  }

  function DecisionFor(s: Setup, st: State, job: int): ReservationDecision { Decide(InputFor(s, st, job)) }

  function Apply(s: Setup, st: State, job: int): State {
    match DecisionFor(s, st, job)
    case Hold => st
    case Drop => st.(reserved := Without(st.reserved, job))
    case Grant => st.(active := st.active + [job], reserved := Without(st.reserved, job))
    case Create => st.(reserved := st.reserved + [Reservation(job, Saturate(st.now + HOLD_MILLIS))])
    case Expire => st.(reserved := Without(st.reserved, job),
        notBefore := st.notBefore[job := Saturate(st.now + BACKOFF_MILLIS)])
  }

  /** One event; only pending jobs are decided and only held leases are released. */
  function Next(s: Setup, st: State, e: Event): State {
    match e
    case Decided(job) => if job in st.active then st else Apply(s, st, job)
    case Released(i) => if i < |st.active| then st.(active := st.active[..i] + st.active[i + 1..]) else st
    case Withdrawn(job) => st.(reserved := Without(st.reserved, job))
    case Passed(millis) => st.(now := st.now + millis)
  }

  function Run(s: Setup, st: State, events: seq<Event>): State
    decreases events
  {
    if events == [] then st else Run(s, Next(s, st, events[0]), events[1..])
  }

  // ---- Sums over lists --------------------------------------------------------------------

  lemma {:induction false} TableTotals(s: Setup, jobs: seq<int>, k: Key)
    ensures Total(Table(s, jobs), k) == Load(s, jobs, k)
  {
    if jobs != [] { TableTotals(s, jobs[1..], k); }
  }

  lemma {:induction false} LoadConcat(s: Setup, a: seq<int>, b: seq<int>, k: Key)
    ensures Load(s, a + b, k) == Load(s, a, k) + Load(s, b, k)
    decreases a
  {
    if a == [] {
      assert a + b == b;
    } else {
      LoadConcat(s, a[1..], b, k);
      assert (a + b)[1..] == a[1..] + b;
    }
  }

  lemma LoadAppend(s: Setup, jobs: seq<int>, job: int, k: Key)
    ensures Load(s, jobs + [job], k) == Load(s, jobs, k) + Amount(s.ClaimsOf(job), k)
  {
    LoadConcat(s, jobs, [job], k);
    assert [job][1..] == [];
  }

  lemma LoadRemove(s: Setup, jobs: seq<int>, i: nat, k: Key)
    requires i < |jobs|
    ensures Load(s, jobs[..i] + jobs[i + 1..], k) + Amount(s.ClaimsOf(jobs[i]), k) == Load(s, jobs, k)
  {
    LoadConcat(s, jobs[..i], jobs[i + 1..], k);
    LoadConcat(s, jobs[..i], jobs[i..], k);
    assert jobs[..i] + jobs[i..] == jobs;
    assert jobs[i..][1..] == jobs[i + 1..];
  }

  lemma {:induction false} LoadIncludes(s: Setup, jobs: seq<int>, job: int, k: Key)
    requires job in jobs
    ensures Amount(s.ClaimsOf(job), k) <= Load(s, jobs, k)
    decreases jobs
  {
    if jobs[0] != job { LoadIncludes(s, jobs[1..], job, k); }
  }

  /** Reserved load only falls as time passes. */
  lemma {:induction false} LiveLoadFalls(s: Setup, reserved: seq<Reservation>, now: int, later: int, k: Key)
    requires now <= later
    ensures Load(s, Live(reserved, later), k) <= Load(s, Live(reserved, now), k)
    decreases reserved
  {
    if reserved != [] {
      LiveLoadFalls(s, reserved[1..], now, later, k);
      LoadConcat(s, if reserved[0].deadline > now then [reserved[0].job] else [], Live(reserved[1..], now), k);
      LoadConcat(s, if reserved[0].deadline > later then [reserved[0].job] else [], Live(reserved[1..], later), k);
    }
  }

  lemma {:induction false} WithoutLoadFalls(s: Setup, reserved: seq<Reservation>, job: int, now: int, k: Key)
    ensures Load(s, Live(Without(reserved, job), now), k) <= Load(s, Live(reserved, now), k)
    decreases reserved
  {
    if reserved != [] {
      var rest := reserved[1..];
      WithoutLoadFalls(s, rest, job, now, k);
      LoadConcat(s, if reserved[0].deadline > now then [reserved[0].job] else [], Live(rest, now), k);
      if reserved[0].job != job {
        assert ([reserved[0]] + Without(rest, job))[1..] == Without(rest, job);
        LoadConcat(s, if reserved[0].deadline > now then [reserved[0].job] else [], Live(Without(rest, job), now), k);
      } else {
        assert [] + Without(rest, job) == Without(rest, job);
      }
    }
  }

  lemma {:induction false} LiveAppend(reserved: seq<Reservation>, r: Reservation, now: int)
    ensures Live(reserved + [r], now) == Live(reserved, now) + (if r.deadline > now then [r.job] else [])
    decreases reserved
  {
    if reserved == [] {
      assert [] + [r] == [r] && [r][1..] == [];
    } else {
      LiveAppend(reserved[1..], r, now);
      assert (reserved + [r])[1..] == reserved[1..] + [r];
    }
  }

  // ---- Capacity over runs -----------------------------------------------------------------

  ghost predicate Within(s: Setup, st: State) {
    forall k :: Load(s, st.active, k) <= s.Capacity(k) && Load(s, Live(st.reserved, st.now), k) <= s.Capacity(k)
  }

  /** A decision to grant without a reservation leaves all live reservations their room. */
  lemma UnreservedGrantLeavesReservedRoom(s: Setup, st: State, job: int, k: Key)
    requires U64Claims(s.capacities) && OwnDeadline(st.reserved, job).None? && DecisionFor(s, st, job) == Grant
    requires Amount(s.ClaimsOf(job), k) > 0
    ensures Load(s, st.active + [job], k) + Load(s, Live(st.reserved, st.now), k) <= s.Capacity(k)
  {
    var i := InputFor(s, st, job);
    FitsIsAddition(i.claims, i.capacities, i.active + i.reserved);
    TotalConcat(i.active, i.reserved, k);
    TableTotals(s, st.active, k);
    TableTotals(s, Live(st.reserved, st.now), k);
    LoadAppend(s, st.active, job, k);
  }

  lemma GrantFitsActive(s: Setup, st: State, job: int, k: Key)
    requires U64Claims(s.capacities) && DecisionFor(s, st, job) == Grant && Within(s, st)
    ensures Load(s, st.active + [job], k) <= s.Capacity(k)
  {
    LoadAppend(s, st.active, job, k);
    if Amount(s.ClaimsOf(job), k) > 0 {
      if OwnDeadline(st.reserved, job).None? {
        UnreservedGrantLeavesReservedRoom(s, st, job, k);
      } else {
        var i := InputFor(s, st, job);
        FitsIsAddition(i.claims, i.capacities, i.active);
        TableTotals(s, st.active, k);
      }
    }
  }

  lemma CreateFitsReserved(s: Setup, st: State, job: int, k: Key)
    requires U64Claims(s.capacities) && DecisionFor(s, st, job) == Create && Within(s, st)
    ensures Load(s, Live(Apply(s, st, job).reserved, st.now), k) <= s.Capacity(k)
  {
    var i := InputFor(s, st, job);
    FitsIsAddition(i.claims, i.capacities, i.reserved);
    TableTotals(s, Live(st.reserved, st.now), k);
    LiveAppend(st.reserved, Reservation(job, Saturate(st.now + HOLD_MILLIS)), st.now);
    LoadAppend(s, Live(st.reserved, st.now), job, k);
    assert Live(st.reserved, st.now) + [] == Live(st.reserved, st.now);
  }

  lemma EventKeepsWithin(s: Setup, st: State, e: Event)
    requires U64Claims(s.capacities) && Within(s, st)
    ensures Within(s, Next(s, st, e))
  {
    var n := Next(s, st, e);
    forall k ensures Load(s, n.active, k) <= s.Capacity(k) && Load(s, Live(n.reserved, n.now), k) <= s.Capacity(k) {
      match e
      case Decided(job) =>
        if job !in st.active {
          WithoutLoadFalls(s, st.reserved, job, st.now, k);
          match DecisionFor(s, st, job)
          case Grant => GrantFitsActive(s, st, job, k);
          case Create => CreateFitsReserved(s, st, job, k);
          case _ =>
        }
      case Released(i) => if i < |st.active| { LoadRemove(s, st.active, i, k); }
      case Withdrawn(job) => WithoutLoadFalls(s, st.reserved, job, st.now, k);
      case Passed(millis) => LiveLoadFalls(s, st.reserved, st.now, st.now + millis, k);
    }
  }

  /** In every run the granted sum and the live reserved sum stay within every capacity. */
  lemma {:induction false} CapacityIsNeverExceeded(s: Setup, st: State, events: seq<Event>)
    requires U64Claims(s.capacities) && Within(s, st)
    ensures Within(s, Run(s, st, events))
    decreases events
  {
    hide Next, Within;
    if events != [] {
      EventKeepsWithin(s, st, events[0]);
      CapacityIsNeverExceeded(s, Next(s, st, events[0]), events[1..]);
    }
  }

  /** Hence the overflow guard of the decision never fires in any run from an empty queue. */
  lemma OverflowGuardIsUnreachable(s: Setup, now: int, events: seq<Event>, job: int)
    requires U64Claims(s.capacities)
    ensures !Overflows(InputFor(s, Run(s, State(now, [], [], map[]), events), job))
  {
    CapacityIsNeverExceeded(s, State(now, [], [], map[]), events);
    var st := Run(s, State(now, [], [], map[]), events);
    forall k ensures CheckedTotal(0, Table(s, st.active), k).Some? {
      CheckedTotalIsExact(0, Table(s, st.active), k);
      TableTotals(s, st.active, k);
      assert Load(s, st.active, k) <= s.Capacity(k);
    }
  }

  // ---- A reservation is honoured ------------------------------------------------------------

  /** Load of the active jobs outside `legacy`. */
  function FreshLoad(s: Setup, jobs: seq<int>, legacy: set<int>, k: Key): nat {
    if jobs == [] then 0
    else (if jobs[0] in legacy then 0 else Amount(s.ClaimsOf(jobs[0]), k)) + FreshLoad(s, jobs[1..], legacy, k)
  }

  function Members(jobs: seq<int>): set<int> { set j | j in jobs }

  /** The work active at the start of a run that has not left since. */
  function Legacy(s: Setup, st: State, events: seq<Event>, legacy: set<int>): set<int>
    decreases events
  {
    if events == [] then legacy
    else
      var n := Next(s, st, events[0]);
      Legacy(s, n, events[1..], legacy * Members(n.active))
  }

  /** During the run `job` keeps its live reservation and no better ranked reservation that
      overlaps it is converted. */
  predicate Holding(s: Setup, st: State, events: seq<Event>, job: int)
    decreases events
  {
    && job in Live(st.reserved, st.now) && job !in st.active
    && (events != [] ==>
          && !(events[0].Decided? && events[0].job != job && events[0].job in Live(st.reserved, st.now)
               && DecisionFor(s, st, events[0].job) == Grant
               && Outranks(s.RankAt(events[0].job, st.now), s.RankAt(job, st.now))
               && OverlapsScalars(s.ClaimsOf(job), s.ClaimsOf(events[0].job)))
          && Holding(s, Next(s, st, events[0]), events[1..], job))
  }

  /** Whatever was started after the reservation leaves room for its holder. */
  predicate RoomKept(s: Setup, st: State, legacy: set<int>, job: int) {
    forall k :: k in s.ClaimsOf(job) && s.ClaimsOf(job)[k] > 0 ==>
      FreshLoad(s, st.active, legacy, k) + s.ClaimsOf(job)[k] <= s.Capacity(k)
  }

  predicate OneEach(reserved: seq<Reservation>) {
    forall i, j :: 0 <= i < j < |reserved| ==> reserved[i].job != reserved[j].job
  }

  lemma {:induction false} OwnDeadlineIff(reserved: seq<Reservation>, job: int)
    ensures OwnDeadline(reserved, job).Some? <==> exists i :: 0 <= i < |reserved| && reserved[i].job == job
    ensures OwnDeadline(reserved, job).Some? ==> Reservation(job, OwnDeadline(reserved, job).value) in reserved
    decreases reserved
  {
    if reserved != [] && reserved[0].job != job {
      OwnDeadlineIff(reserved[1..], job);
      assert forall i :: 0 < i < |reserved| ==> reserved[i] == reserved[1..][i - 1];
    }
  }

  lemma {:induction false} LiveIff(reserved: seq<Reservation>, now: int, job: int)
    ensures job in Live(reserved, now) <==> exists r :: r in reserved && r.job == job && r.deadline > now
    decreases reserved
  {
    if reserved != [] {
      LiveIff(reserved[1..], now, job);
      assert forall r :: r in reserved <==> r == reserved[0] || r in reserved[1..];
    }
  }

  lemma {:induction false} WithoutIff(reserved: seq<Reservation>, job: int)
    requires OneEach(reserved)
    ensures OneEach(Without(reserved, job))
    ensures forall r :: r in Without(reserved, job) <==> r in reserved && r.job != job
    decreases reserved
  {
    if reserved != [] {
      WithoutIff(reserved[1..], job);
      assert forall r :: r in reserved <==> r == reserved[0] || r in reserved[1..];
    }
  }

  lemma EventKeepsOneEach(s: Setup, st: State, e: Event)
    requires OneEach(st.reserved)
    ensures OneEach(Next(s, st, e).reserved)
  {
    hide Decide;
    match e
    case Decided(job) =>
      WithoutIff(st.reserved, job);
      OwnDeadlineIff(st.reserved, job);
      if DecisionFor(s, st, job) == Create { CreateMeansNoReservation(s, st, job); }
    case Withdrawn(job) => WithoutIff(st.reserved, job);
    case _ =>
  }

  lemma CreateMeansNoReservation(s: Setup, st: State, job: int)
    requires DecisionFor(s, st, job) == Create
    ensures OwnDeadline(st.reserved, job).None? && Fits(s.ClaimsOf(job), s.capacities, [])
  {
  }

  lemma {:induction false} FreshLoadAgrees(s: Setup, jobs: seq<int>, a: set<int>, b: set<int>, k: Key)
    requires forall j :: j in jobs ==> (j in a <==> j in b)
    ensures FreshLoad(s, jobs, a, k) == FreshLoad(s, jobs, b, k)
    decreases jobs
  {
    if jobs != [] { FreshLoadAgrees(s, jobs[1..], a, b, k); }
  }

  lemma {:induction false} FreshLoadConcat(s: Setup, x: seq<int>, y: seq<int>, legacy: set<int>, k: Key)
    ensures FreshLoad(s, x + y, legacy, k) == FreshLoad(s, x, legacy, k) + FreshLoad(s, y, legacy, k)
    decreases x
  {
    if x == [] {
      assert x + y == y;
    } else {
      FreshLoadConcat(s, x[1..], y, legacy, k);
      assert (x + y)[1..] == x[1..] + y;
    }
  }

  lemma {:induction false} FreshLoadBounded(s: Setup, jobs: seq<int>, legacy: set<int>, k: Key)
    ensures FreshLoad(s, jobs, legacy, k) <= Load(s, jobs, k)
    ensures legacy == {} ==> FreshLoad(s, jobs, legacy, k) == Load(s, jobs, k)
    ensures Members(jobs) <= legacy ==> FreshLoad(s, jobs, legacy, k) == 0
    decreases jobs
  {
    if jobs != [] {
      FreshLoadBounded(s, jobs[1..], legacy, k);
      assert Members(jobs) == {jobs[0]} + Members(jobs[1..]);
    }
  }

  /** A converted reservation that does not outrank the holder claims nothing it claims. */
  lemma ConvertedDoesNotOverlap(s: Setup, st: State, job: int, other: int)
    requires job in Live(st.reserved, st.now) && other != job
    requires OwnDeadline(st.reserved, other).Some? && DecisionFor(s, st, other) == Grant
    requires other in Live(st.reserved, st.now) ==>
               !(Outranks(s.RankAt(other, st.now), s.RankAt(job, st.now))
                   && OverlapsScalars(s.ClaimsOf(job), s.ClaimsOf(other)))
    ensures !OverlapsScalars(s.ClaimsOf(job), s.ClaimsOf(other))
  {
    OwnDeadlineIff(st.reserved, other);
    LiveIff(st.reserved, st.now, other);
    assert other in Live(st.reserved, st.now);
    assert !HigherOverlaps(s, st, other);
    OutranksIsStrictTotalOrder(s.RankAt(job, st.now), s.RankAt(other, st.now), s.RankAt(other, st.now));
  }

  lemma GrantKeepsRoom(s: Setup, st: State, legacy: set<int>, job: int, other: int, k: Key)
    requires U64Claims(s.capacities) && job in Live(st.reserved, st.now) && other != job && other !in legacy
    requires DecisionFor(s, st, other) == Grant
    requires other in Live(st.reserved, st.now) ==>
               !(Outranks(s.RankAt(other, st.now), s.RankAt(job, st.now))
                   && OverlapsScalars(s.ClaimsOf(job), s.ClaimsOf(other)))
    requires k in s.ClaimsOf(job) && s.ClaimsOf(job)[k] > 0
    requires FreshLoad(s, st.active, legacy, k) + s.ClaimsOf(job)[k] <= s.Capacity(k)
    ensures FreshLoad(s, st.active + [other], legacy, k) + s.ClaimsOf(job)[k] <= s.Capacity(k)
  {
    hide Decide, Outranks;
    FreshLoadConcat(s, st.active, [other], legacy, k);
    assert [other][1..] == [];
    if Amount(s.ClaimsOf(other), k) > 0 {
      if OwnDeadline(st.reserved, other).None? {
        UnreservedGrantLeavesReservedRoom(s, st, other, k);
        LoadIncludes(s, Live(st.reserved, st.now), job, k);
        FreshLoadBounded(s, st.active + [other], legacy, k);
      } else {
        ConvertedDoesNotOverlap(s, st, job, other);
        assert false;
      }
    }
  }

  lemma EventKeepsRoom(s: Setup, st: State, e: Event, legacy: set<int>, job: int)
    requires U64Claims(s.capacities) && job in Live(st.reserved, st.now)
    requires RoomKept(s, st, legacy, job) && legacy <= Members(st.active)
    requires job !in Next(s, st, e).active
    requires e.Decided? && e.job != job && e.job in Live(st.reserved, st.now) && DecisionFor(s, st, e.job) == Grant ==>
               !(Outranks(s.RankAt(e.job, st.now), s.RankAt(job, st.now))
                   && OverlapsScalars(s.ClaimsOf(job), s.ClaimsOf(e.job)))
    ensures RoomKept(s, Next(s, st, e), legacy * Members(Next(s, st, e).active), job)
  {
    hide Decide, Outranks;
    var n := Next(s, st, e);
    var left := legacy * Members(n.active);
    forall k | k in s.ClaimsOf(job) && s.ClaimsOf(job)[k] > 0
      ensures FreshLoad(s, n.active, left, k) + s.ClaimsOf(job)[k] <= s.Capacity(k)
    {
      FreshLoadAgrees(s, n.active, left, legacy, k);
      match e
      case Decided(other) =>
        if other !in st.active && DecisionFor(s, st, other) == Grant {
          GrantKeepsRoom(s, st, legacy, job, other, k);
        }
      case Released(i) =>
        if i < |st.active| {
          assert st.active == st.active[..i] + ([st.active[i]] + st.active[i + 1..]);
          FreshLoadConcat(s, st.active[..i], [st.active[i]] + st.active[i + 1..], legacy, k);
          FreshLoadConcat(s, [st.active[i]], st.active[i + 1..], legacy, k);
          FreshLoadConcat(s, st.active[..i], st.active[i + 1..], legacy, k);
        }
      case _ =>
    }
  }

  lemma {:induction false} RunKeepsRoom(s: Setup, st: State, events: seq<Event>, legacy: set<int>, job: int)
    requires U64Claims(s.capacities) && OneEach(st.reserved)
    requires RoomKept(s, st, legacy, job) && legacy <= Members(st.active)
    requires Holding(s, st, events, job)
    ensures RoomKept(s, Run(s, st, events), Legacy(s, st, events, legacy), job)
    ensures OneEach(Run(s, st, events).reserved)
    ensures job in Live(Run(s, st, events).reserved, Run(s, st, events).now)
    decreases events
  {
    hide Next, RoomKept, Outranks, DecisionFor;
    if events != [] {
      EventKeepsRoom(s, st, events[0], legacy, job);
      EventKeepsOneEach(s, st, events[0]);
      var n := Next(s, st, events[0]);
      RunKeepsRoom(s, n, events[1..], legacy * Members(n.active), job);
    }
  }

  /** A job whose reservation was just created is granted, before its deadline, as soon as the
      work active at its creation has left, whatever unreserved or lower ranked work is scheduled
      meanwhile, unless a better ranked overlapping reservation is in the way. */
  lemma ReservationIsHonoured(s: Setup, before: State, events: seq<Event>, job: int)
    requires U64Claims(s.capacities) && OneEach(before.reserved)
    requires DecisionFor(s, before, job) == Create
    requires var st := Apply(s, before, job);
             && Holding(s, st, events, job)
             && Legacy(s, st, events, Members(st.active)) == {}
             && !HigherOverlaps(s, Run(s, st, events), job)
    ensures var end := Run(s, Apply(s, before, job), events);
            DecisionFor(s, end, job) == Grant && Apply(s, end, job).active == end.active + [job]
  {
    hide Run, Holding, Legacy, HigherOverlaps;
    var st := Apply(s, before, job);
    CreateMeansNoReservation(s, before, job);
    FitsIsAddition(s.ClaimsOf(job), s.capacities, []);
    forall k ensures FreshLoad(s, st.active, Members(st.active), k) == 0 {
      FreshLoadBounded(s, st.active, Members(st.active), k);
    }
    EventKeepsOneEach(s, before, Decided(job));
    if job in before.active { HoldingExcludesActive(s, st, events, job); }
    RunKeepsRoom(s, st, events, Members(st.active), job);
    HolderIsGranted(s, Run(s, st, events), job);
  }

  lemma HoldingExcludesActive(s: Setup, st: State, events: seq<Event>, job: int)
    requires Holding(s, st, events, job)
    ensures job !in st.active && job in Live(st.reserved, st.now)
  {
  }

  lemma HolderIsGranted(s: Setup, end: State, job: int)
    requires U64Claims(s.capacities) && OneEach(end.reserved) && job in Live(end.reserved, end.now)
    requires RoomKept(s, end, {}, job) && !HigherOverlaps(s, end, job)
    ensures DecisionFor(s, end, job) == Grant
  {
    hide HigherOverlaps;
    LiveIff(end.reserved, end.now, job);
    OwnDeadlineIff(end.reserved, job);
    FitsIsAddition(s.ClaimsOf(job), s.capacities, []);
    FitsIsAddition(s.ClaimsOf(job), s.capacities, Table(s, end.active));
    forall k ensures FreshLoad(s, end.active, {}, k) == Total(Table(s, end.active), k) {
      FreshLoadBounded(s, end.active, {}, k);
      TableTotals(s, end.active, k);
    }
  }
}
