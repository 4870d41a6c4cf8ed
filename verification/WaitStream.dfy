/**
 The client's wait stream: settlement items for a fixed set of Jobs, then one
 aggregate. The daemon keeps one event log; an event number is its position plus
 one, and the event that makes a Job final is appended in the transaction that
 makes it final. Each call of the client is answered from some later moment.
 */
module WaitStreams {
  import opened Optional

  const MAX_OBSERVATION_PAGE: nat := 1024

  datatype Outcome = Succeeded | Skipped | Canceled | Interrupted | TimedOut | Failed

  function Severity(o: Outcome): nat {
    match o
    case Succeeded => 0
    case Skipped => 1
    case Canceled => 2
    case Interrupted => 3
    case TimedOut => 4
    case Failed => 5
  }

  /** The worst of the outcomes, none when there is none. */
  function Worst(outcomes: seq<Outcome>): (r: Option<Outcome>)
    ensures r.None? <==> outcomes == []
    ensures r.Some? ==> r.value in outcomes && forall o :: o in outcomes ==> Severity(o) <= Severity(r.value)
  {
    if outcomes == [] then None
    else
      var rest := Worst(outcomes[1..]);
      if rest.None? || Severity(rest.value) < Severity(outcomes[0]) then Some(outcomes[0]) else rest
  }

  // ---- The daemon --------------------------------------------------------------------------------

  datatype Event = Changed(job: nat) | Final(job: nat, outcome: Option<Outcome>)

  /** A moment of the daemon: the number of its last event and of its oldest retained one. */
  datatype Reply = View(head: nat, oldest: nat) | Unreachable

  /** The answers a client will get, in order: each from a moment no earlier than the one before. */
  predicate Ordered(log: seq<Event>, script: seq<Reply>) {
    && (forall i :: 0 <= i < |script| && script[i].View? ==> script[i].head <= |log|)
    && (forall i, j :: 0 <= i < j < |script| && script[i].View? && script[j].View? ==> script[i].head <= script[j].head)
  }

  /** The last answered call failed. */
  predicate Dropped(script: seq<Reply>, calls: nat) {
    0 < calls <= |script| && script[calls - 1].Unreachable?
  }

  /** The event by which a Job became final, if it has. */
  function FinalEvent(log: seq<Event>, job: nat): (r: Option<Event>)
    ensures r.Some? ==> r.value.Final? && r.value.job == job && r.value in log
    ensures r.None? ==> forall i :: 0 <= i < |log| ==> !(log[i].Final? && log[i].job == job)
  {
    if log == [] then None
    else if log[|log| - 1].Final? && log[|log| - 1].job == job then Some(log[|log| - 1])
    else FinalEvent(log[..|log| - 1], job)
  }

  datatype Frame = Gap(cursor: nat) | Events(jobs: set<nat>, cursor: nat)

  function Min(a: nat, b: nat): nat { if a < b then a else b }

  /** One page of events after the cursor, or a gap when the next event is no longer retained. */
  function Observe(log: seq<Event>, view: Reply, jobs: seq<nat>, cursor: nat): (f: Frame)
    requires view.View? && cursor <= view.head <= |log|
    ensures cursor <= f.cursor <= view.head
  {
    if cursor + 1 < view.oldest then Gap(view.head)
    else
      var scanned := Min(cursor + MAX_OBSERVATION_PAGE, view.head);
      Events(set i | cursor <= i < scanned && log[i].job in jobs :: log[i].job, scanned)
  }

  // ---- The stream --------------------------------------------------------------------------------

  datatype Item = Settlement(job: nat, outcome: Option<Outcome>) | Aggregate(worst: Option<Outcome>)

  datatype Yield = Next(item: Item) | Error | End

  function Outcomes(items: seq<Item>): seq<Outcome> {
    if items == [] then []
    else
      var last := items[|items| - 1];
      Outcomes(items[..|items| - 1]) + if last.Settlement? && last.outcome.Some? then [last.outcome.value] else []
  }

  predicate Distinct(jobs: seq<nat>) {
    forall i, j :: 0 <= i < j < |jobs| ==> jobs[i] != jobs[j]
  }

  /** The items are settlements, one for each settled Job and true of the log. */
  predicate Settlements(log: seq<Event>, items: seq<Item>, settled: set<nat>) {
    && (forall i :: 0 <= i < |items| ==>
          items[i].Settlement? && items[i].job in settled && Final(items[i].job, items[i].outcome) in log)
    && (forall i, j :: 0 <= i < j < |items| ==> items[i].job != items[j].job)
    && |items| == |settled|
  }

  predicate Enough(jobs: seq<nat>, settled: set<nat>, any: bool) {
    jobs == [] || (any && settled != {}) || |settled| == |jobs|
  }

  /** Everything the stream will ever say: settlements, then the aggregate of exactly those. */
  predicate Report(log: seq<Event>, jobs: seq<nat>, any: bool, items: seq<Item>, settled: set<nat>) {
    && |items| > 0 && Settlements(log, items[..|items| - 1], settled)
    && items[|items| - 1] == Aggregate(Worst(Outcomes(items[..|items| - 1])))
    && (forall j :: j in settled ==> j in jobs)
    && Enough(jobs, settled, any)
  }

  /** No final event of an unsettled Job lies at or before the cursor. */
  predicate NothingLost(log: seq<Event>, jobs: seq<nat>, settled: set<nat>, cursor: nat)
    requires cursor <= |log|
  {
    forall i :: 0 <= i < cursor && log[i].Final? && log[i].job in jobs ==> log[i].job in settled
  }

  /** The same for one Job. */
  predicate Unfinished(log: seq<Event>, job: nat, cursor: nat)
    requires cursor <= |log|
  {
    forall i :: 0 <= i < cursor ==> !(log[i].Final? && log[i].job == job)
  }

  lemma StillUnfinished(log: seq<Event>, job: nat, head: nat, cursor: nat)
    requires cursor <= head <= |log| && FinalEvent(log[..head], job).None?
    ensures Unfinished(log, job, cursor)
  {
    forall i | 0 <= i < cursor ensures !(log[i].Final? && log[i].job == job) { assert log[..head][i] == log[i]; }
  }

  lemma AllUnfinished(log: seq<Event>, jobs: seq<nat>, settled: set<nat>, cursor: nat)
    requires cursor <= |log| && forall k :: 0 <= k < |jobs| ==> jobs[k] in settled || Unfinished(log, jobs[k], cursor)
    ensures NothingLost(log, jobs, settled, cursor)
  {
  }

  lemma {:induction false} DistinctCount(jobs: seq<nat>, s: set<nat>)
    requires Distinct(jobs) && (forall j :: j in s ==> j in jobs)
    ensures |s| <= |jobs| && (|s| == |jobs| ==> forall j :: j in jobs ==> j in s)
    decreases jobs
  {
    if jobs == [] {
      assert s == {};
    } else {
      var rest := s - {jobs[0]};
      assert Distinct(jobs[1..]);
      DistinctCount(jobs[1..], rest);
      if jobs[0] in s {
        assert s == rest + {jobs[0]};
      } else {
        assert s == rest;
      }
    }
  }

  lemma {:induction false} AllSettledCount(jobs: seq<nat>, s: set<nat>)
    requires Distinct(jobs) && (forall j :: j in jobs ==> j in s)
    ensures |s| >= |jobs|
    decreases jobs
  {
    if jobs != [] {
      assert forall j :: j in jobs[1..] ==> j in s - {jobs[0]};
      AllSettledCount(jobs[1..], s - {jobs[0]});
    }
  }

  lemma PageWithoutMembers(log: seq<Event>, view: Reply, jobs: seq<nat>, settled: set<nat>, cursor: nat)
    requires view.View? && cursor <= view.head <= |log| && NothingLost(log, jobs, settled, cursor)
    requires var f := Observe(log, view, jobs, cursor); f.Events? && f.jobs == {}
    ensures NothingLost(log, jobs, settled, Observe(log, view, jobs, cursor).cursor)
  {
    var f := Observe(log, view, jobs, cursor);
    assert forall i :: cursor <= i < f.cursor && log[i].job in jobs ==> log[i].job in f.jobs;
  }

  /** A page names every member that has an event in it. */
  lemma PageNamesCandidates(log: seq<Event>, view: Reply, jobs: seq<nat>, settled: set<nat>, cursor: nat)
    requires view.View? && cursor <= view.head <= |log| && NothingLost(log, jobs, settled, cursor)
    requires Observe(log, view, jobs, cursor).Events?
    ensures var f := Observe(log, view, jobs, cursor);
            forall j :: j in jobs && j !in settled && j !in f.jobs ==> Unfinished(log, j, f.cursor)
  {
    var f := Observe(log, view, jobs, cursor);
    assert forall i :: cursor <= i < f.cursor && log[i].job in jobs ==> log[i].job in f.jobs;
  }

  lemma OneMoreSettlement(log: seq<Event>, items: seq<Item>, settled: set<nat>, e: Event)
    requires Settlements(log, items, settled) && e.Final? && e in log && e.job !in settled
    ensures Settlements(log, items + [Settlement(e.job, e.outcome)], settled + {e.job})
    ensures Outcomes(items + [Settlement(e.job, e.outcome)])
            == Outcomes(items) + if e.outcome.Some? then [e.outcome.value] else []
  {
    assert (items + [Settlement(e.job, e.outcome)])[..|items|] == items;
  }

  lemma AggregateCloses(log: seq<Event>, jobs: seq<nat>, any: bool, items: seq<Item>, settled: set<nat>)
    requires Settlements(log, items, settled) && Enough(jobs, settled, any) && forall j :: j in settled ==> j in jobs
    ensures Report(log, jobs, any, items + [Aggregate(Worst(Outcomes(items)))], settled)
  {
    assert (items + [Aggregate(Worst(Outcomes(items)))])[..|items|] == items;
  }

  class WaitStream {
    const log: seq<Event>
    const script: seq<Reply>
    const jobs: seq<nat>
    const any: bool
    var calls: nat
    var settled: set<nat>
    var outcomes: seq<Outcome>
    var pending: seq<Item>
    var cursor: nat
    var aggregateEmitted: bool
    var finished: bool
    ghost var emitted: seq<Item>
    ghost var failed: bool

    ghost predicate Consistent()
      reads this
    {
      && Ordered(log, script) && Distinct(jobs) && cursor <= |log| && calls <= |script|
      && (forall k :: calls <= k < |script| && script[k].View? ==> cursor <= script[k].head)
      && (forall j :: j in settled ==> j in jobs)
    }

    /** Before the aggregate the items are the settlements, and one is enough for `any`. */
    ghost predicate Open()
      reads this
    {
      && !aggregateEmitted && Settlements(log, emitted + pending, settled)
      && outcomes == Outcomes(emitted + pending)
    }

    ghost predicate Closed()
      reads this
    {
      aggregateEmitted && Report(log, jobs, any, emitted + pending, settled)
    }

    ghost predicate Valid()
      reads this
    {
      && Consistent()
      && (Open() || Closed())
      && (Open() && !finished ==> !Enough(jobs, settled, any) && NothingLost(log, jobs, settled, cursor))
      && (failed ==> finished)
      && (finished && !failed ==> aggregateEmitted && pending == [])
    }

    constructor (log: seq<Event>, script: seq<Reply>, jobs: seq<nat>, any: bool, calls: nat, cursor: nat)
      requires Ordered(log, script) && Distinct(jobs) && cursor <= |log| && calls <= |script|
      requires forall k :: calls <= k < |script| && script[k].View? ==> cursor <= script[k].head
      ensures Consistent() && Open() && emitted == [] && pending == [] && settled == {} && !finished && !failed
      ensures this.log == log && this.script == script && this.jobs == jobs && this.any == any
      ensures this.calls == calls && this.cursor == cursor
    {
      this.log, this.script, this.jobs, this.any := log, script, jobs, any;
      this.calls, this.cursor := calls, cursor;
      settled, outcomes, pending, aggregateEmitted, finished, emitted, failed := {}, [], [], false, false, [], false;
    }

    /** Call the daemon; past the script the deadline has elapsed. */
    method Ask() returns (r: Reply)
      requires Consistent()
      modifies this`calls
      ensures Consistent() && calls == (if old(calls) < |script| then old(calls) + 1 else old(calls))
      ensures r == if old(calls) < |script| then script[old(calls)] else Unreachable
      ensures r.View? ==> cursor <= r.head <= |log|
      ensures r.View? ==> forall k :: calls <= k < |script| && script[k].View? ==> r.head <= script[k].head
    {
      r := Unreachable;
      if calls < |script| {
        r := script[calls];
        calls := calls + 1;
      }
    }

    /** Record one Job's settlement. */
    method Settle(e: Event)
      requires Consistent() && Open() && e.Final? && e in log && e.job in jobs && e.job !in settled
      modifies this`settled, this`outcomes, this`pending
      ensures Consistent() && Open() && settled == old(settled) + {e.job}
      ensures pending == old(pending) + [Settlement(e.job, e.outcome)]
    {
      hide Settlements, Outcomes, Ordered, Distinct;
      ghost var items := emitted + pending;
      OneMoreSettlement(log, items, settled, e);
      settled := settled + {e.job};
      if e.outcome.Some? { outcomes := outcomes + [e.outcome.value]; }
      pending := pending + [Settlement(e.job, e.outcome)];
      assert emitted + pending == items + [Settlement(e.job, e.outcome)];
    }

    /** Ask about every unsettled candidate, then close the stream if that is enough. */
    method RefreshSettlements(candidates: Option<set<nat>>) returns (ok: bool)
      requires Consistent() && Open() && (any ==> settled == {})
      requires candidates.Some? ==>
                 forall j :: j in jobs && j !in settled && j !in candidates.value ==> Unfinished(log, j, cursor)
      modifies this`calls, this`settled, this`outcomes, this`pending, this`aggregateEmitted
      ensures Consistent() && calls >= old(calls) && old(pending) <= pending && old(settled) <= settled
      ensures ok ==> Open() || Closed()
      ensures ok && Open() ==> !Enough(jobs, settled, any) && NothingLost(log, jobs, settled, cursor)
      ensures calls <= old(calls) + |jobs|
      ensures !ok ==> Open() && (Dropped(script, calls) || (calls == |script| && |script| < old(calls) + |jobs|))
    {
      hide Settlements, Outcomes, Ordered, Distinct, Report, Worst, Unfinished, FinalEvent;
      var i := 0;
      while i < |jobs|
        invariant 0 <= i <= |jobs| && Consistent() && Open() && (any ==> settled == {})
        invariant old(calls) <= calls <= old(calls) + i && old(pending) <= pending && old(settled) <= settled
        invariant forall k :: 0 <= k < i ==> jobs[k] in settled || Unfinished(log, jobs[k], cursor)
        invariant candidates.Some? ==>
                    forall j :: j in jobs && j !in settled && j !in candidates.value ==> Unfinished(log, j, cursor)
      {
        var job := jobs[i];
        i := i + 1;
        if job in settled || (candidates.Some? && job !in candidates.value) { continue; }
        var view := Ask();
        if view.Unreachable? { return false; }
        var status := FinalEvent(log[..view.head], job);
        if status.None? {
          StillUnfinished(log, job, view.head, cursor);
        } else {
          Settle(status.value);
          if any { break; }
        }
      }
      ok := true;
      if !Enough(jobs, settled, any) { AllUnfinished(log, jobs, settled, cursor); }
      if Enough(jobs, settled, any) {
        AggregateCloses(log, jobs, any, emitted + pending, settled);
        assert emitted + (pending + [Aggregate(Worst(outcomes))]) == (emitted + pending) + [Aggregate(Worst(outcomes))];
        pending := pending + [Aggregate(Worst(outcomes))];
        aggregateEmitted := true;
      }
    }

    /** The next item, or the end of the stream. An item is delivered exactly once; a failure ends the
        stream, and so does the delivery of the aggregate. */
    method NextItem() returns (r: Yield)
      requires Valid()
      modifies this
      ensures Valid()
      ensures emitted == if r.Next? then old(emitted) + [r.item] else old(emitted)
      ensures old(finished) ==> r.End? && pending == old(pending)
      ensures r.Next? ==> !finished
      ensures r.Error? ==> finished && failed && (Dropped(script, calls) || calls == |script|)
      ensures r.End? ==> finished && failed == old(failed)
    {
      hide Settlements, Outcomes, Ordered, Distinct, Report, Worst, Unfinished, NothingLost, Observe;
      if finished { return End; }
      while true
        invariant Valid() && !finished && emitted == old(emitted) && failed == old(failed)
        decreases |script| - calls
      {
        if pending != [] {
          r := Next(pending[0]);
          assert emitted + pending == emitted + [pending[0]] + pending[1..];
          emitted := emitted + [pending[0]];
          pending := pending[1..];
          return;
        }
        if aggregateEmitted {
          finished := true;
          return End;
        }
        var view := Ask();
        if view.Unreachable? {
          finished, failed := true, true;
          return Error;
        }
        var frame := Observe(log, view, jobs, cursor);
        ghost var before := cursor;
        cursor := frame.cursor;
        if frame.Events? && frame.jobs == {} {
          PageWithoutMembers(log, view, jobs, settled, before);
          continue;
        }
        var candidates := if frame.Gap? then None else Some(frame.jobs);
        if frame.Events? { PageNamesCandidates(log, view, jobs, settled, before); }
        var ok := RefreshSettlements(candidates);
        if !ok {
          finished, failed := true, true;
          return Error;
        }
      }
    }

    /** A stream that ended without failing has delivered its whole report: one true settlement per
        settled Job, then the aggregate, and it settled every Job unless one was enough. */
    lemma EndedStreamReportedEverything()
      requires Valid() && finished && !failed
      ensures Report(log, jobs, any, emitted, settled)
      ensures !any ==> forall j :: j in jobs ==> j in settled
      ensures any && jobs != [] ==> settled != {}
    {
      assert emitted + pending == emitted;
      DistinctCount(jobs, settled);
    }

    /** Once the cursor has passed the final event of every Job, the aggregate is on its way. */
    lemma CaughtUpStreamIsClosed()
      requires Valid() && !finished
      requires forall j :: j in jobs ==> !Unfinished(log, j, cursor)
      ensures Closed()
    {
      if Open() {
        forall j | j in jobs ensures j in settled {
          var i :| 0 <= i < cursor && log[i].Final? && log[i].job == j;
        }
        AllSettledCount(jobs, settled);
        DistinctCount(jobs, settled);
      }
    }
  }

  /** Opening lists the membership at one moment and then asks about every Job. */
  method OpenWaitStream(log: seq<Event>, script: seq<Reply>, jobs: seq<nat>, more: bool, any: bool)
    returns (r: Option<WaitStream>)
    requires Ordered(log, script) && Distinct(jobs)
    ensures r.Some? ==>
              && fresh(r.value) && r.value.Valid() && r.value.emitted == [] && !r.value.finished
              && r.value.jobs == jobs && r.value.any == any && r.value.log == log && r.value.script == script
    ensures more || script == [] || script[0].Unreachable? ==> r.None?
    ensures !more && |script| >= |jobs| + 2 && (forall k :: 0 <= k < |script| ==> script[k].View?) ==> r.Some?
  {
    if more || script == [] || script[0].Unreachable? { return None; }
    var s := new WaitStream(log, script, jobs, any, 1, script[0].head);
    if jobs != [] {
      var probe := s.Ask();
      if probe.Unreachable? { return None; }
    }
    var ok := s.RefreshSettlements(None);
    if !ok { return None; }
    r := Some(s);
  }
}
