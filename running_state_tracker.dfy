/**
 * ApplicationRunningStateTracker: maps instance states to run states, folds
 * them into an application-level run state, and polls the platform until the
 * application runs, the time budget is spent or the caller cancels.
 *
 * `RunState.merge` belongs to a class outside this model, so every operation
 * that merges takes it as the parameter `merge`; no ordering of run states is
 * assumed, but `merge` is a total function that returns a run state.
 * The clock, the cancellation flag and the client's fetch are read from a
 * sequence of `Poll` records, one per loop iteration.
 */
module RunningStateTracker {
  import opened Outcomes
  import opened CloudFoundry

  /** TIMEOUT: two minutes, in milliseconds. */
  const Timeout: int := 1000 * 60 * 2

  /** The `merge` operation of `RunState`: `current.merge(sample)`. */
  type Merge = (RunState, RunState) -> RunState

  // ---------------------------------------------------------------------
  // Instance state mapping: getRunState(InstanceState)
  // ---------------------------------------------------------------------

  /** The run state of one instance; null in, null out. */
  function InstanceRunState(s: Option<InstanceState>): (r: Option<RunState>)
    ensures r.None? <==> s.None?
    ensures s.Some? && s.value.Other? ==> r == Some(RunState.Unknown)
  {
    match s
    case None => None
    case Some(st) =>
      Some(match st
           case Running => RunState.Running
           case Crashed => RunState.Crashed
           case Flapping => RunState.Flapping
           case Starting => RunState.Starting
           case Down => RunState.Inactive
           case Other(_) => RunState.Unknown)
  }

  /**
   * The mapping read backwards: each run state comes from exactly the
   * instance states listed here, and no instance state maps to Crashed,
   * Flapping, Starting or Running except its namesake.
   */
  lemma InstanceMappingTable(s: Option<InstanceState>)
    ensures InstanceRunState(s) == Some(RunState.Running) <==> s == Some(InstanceState.Running)
    ensures InstanceRunState(s) == Some(RunState.Crashed) <==> s == Some(InstanceState.Crashed)
    ensures InstanceRunState(s) == Some(RunState.Flapping) <==> s == Some(InstanceState.Flapping)
    ensures InstanceRunState(s) == Some(RunState.Starting) <==> s == Some(InstanceState.Starting)
    ensures InstanceRunState(s) == Some(RunState.Inactive) <==> s == Some(InstanceState.Down)
    ensures InstanceRunState(s) == Some(RunState.Unknown) <==> s.Some? && s.value.Other?
  {
  }

  // ---------------------------------------------------------------------
  // Fold over the instance records: getRunState(ApplicationStats)
  // ---------------------------------------------------------------------

  /**
   * One iteration of the fold: a null instance state makes the accumulator
   * null; a non-null one is merged into it, which fails on a null accumulator.
   */
  function MergeStep(merge: Merge, acc: Option<RunState>, inst: Option<RunState>): (r: Outcome<Option<RunState>>)
    ensures r.Thrown? <==> acc.None? && inst.Some?
    ensures r == Normal(None) <==> inst.None?
  {
    if inst.None? then Normal(None)
    else if acc.None? then Thrown(NullPointer)
    else Normal(Some(merge(acc.value, inst.value)))
  }

  /**
   * The fold of the loop over `records`, from UNKNOWN, in record order; the
   * last record is merged last.
   */
  function RecordsFold(merge: Merge, records: seq<InstanceStats>): (r: Outcome<Option<RunState>>)
    ensures r.Thrown? ==> r.ex == NullPointer
    decreases |records|
  {
    if records == [] then Normal(Some(RunState.Unknown))
    else
      var last := |records| - 1;
      match RecordsFold(merge, records[..last])
      case Thrown(e) => Thrown(e)
      case Normal(acc) => MergeStep(merge, acc, InstanceRunState(records[last].state))
  }

  /** The record at `i` has a null state. */
  predicate NullAt(records: seq<InstanceStats>, i: int)
    requires 0 <= i < |records|
  {
    records[i].state.None?
  }

  /** Some record with a null state is followed by one with a non-null state. */
  predicate NullThenNonNull(records: seq<InstanceStats>)
  {
    exists i, j :: 0 <= i < j < |records| && NullAt(records, i) && !NullAt(records, j)
  }

  /** Some record has a null state. */
  predicate SomeNull(records: seq<InstanceStats>)
  {
    exists i :: 0 <= i < |records| && NullAt(records, i)
  }

  /**
   * What the fold ends in, by the positions of null instance states: it
   * fails exactly when a non-null state follows a null one, it yields null
   * exactly when there is a null state and none follows, and it yields a run
   * state exactly when no state is null.
   */
  lemma {:induction false} RecordsFoldOutcome(merge: Merge, records: seq<InstanceStats>)
    ensures RecordsFold(merge, records).Thrown? <==> NullThenNonNull(records)
    ensures RecordsFold(merge, records) == Normal(None) <==> SomeNull(records) && !NullThenNonNull(records)
    ensures RecordsFold(merge, records).Normal? && RecordsFold(merge, records).value.Some? <==> !SomeNull(records)
    decreases |records|
  {
    if records != [] {
      var last := |records| - 1;
      RecordsFoldOutcome(merge, records[..last]);
      NullsOfPrefix(records);
    }
  }

  /**
   * The null positions of a non-empty record list, in terms of those of its
   * prefix without the last record.
   */
  lemma NullsOfPrefix(records: seq<InstanceStats>)
    requires records != []
    ensures var last := |records| - 1;
      NullThenNonNull(records) <==>
        NullThenNonNull(records[..last]) || (SomeNull(records[..last]) && !NullAt(records, last))
    ensures var last := |records| - 1;
      SomeNull(records) <==> SomeNull(records[..last]) || NullAt(records, last)
  {
    var last := |records| - 1;
    var init := records[..last];
    assert forall i :: 0 <= i < last ==> NullAt(init, i) == NullAt(records, i);
    if NullThenNonNull(records) {
      var i, j :| 0 <= i < j < |records| && NullAt(records, i) && !NullAt(records, j);
      if j < last {
        assert NullAt(init, i) && !NullAt(init, j);
      } else {
        assert NullAt(init, i);
      }
    }
    if NullThenNonNull(init) {
      var i, j :| 0 <= i < j < |init| && NullAt(init, i) && !NullAt(init, j);
      assert NullAt(records, i) && !NullAt(records, j);
    }
    if SomeNull(init) {
      var i :| 0 <= i < |init| && NullAt(init, i);
      assert NullAt(records, i);
      if !NullAt(records, last) {
        assert NullAt(records, i) && !NullAt(records, last);
      }
    }
    if SomeNull(records) {
      var i :| 0 <= i < |records| && NullAt(records, i);
      if i < last {
        assert NullAt(init, i);
      }
    }
    if NullAt(records, last) {
      assert SomeNull(records);
    }
  }

  /** Once the fold of a prefix has failed, the fold of the whole fails too. */
  lemma {:induction false} RecordsFoldThrownPersists(merge: Merge, records: seq<InstanceStats>, k: nat)
    requires k <= |records|
    requires RecordsFold(merge, records[..k]).Thrown?
    ensures RecordsFold(merge, records) == Thrown(NullPointer)
    decreases |records| - k
  {
    if k < |records| {
      assert records[..k + 1][..k] == records[..k];
      RecordsFoldThrownPersists(merge, records, k + 1);
    } else {
      assert records[..k] == records;
    }
  }

  /** The instance run states of records none of whose states is null. */
  function MappedStates(records: seq<InstanceStats>): (r: seq<RunState>)
    requires forall i :: 0 <= i < |records| ==> records[i].state.Some?
    ensures |r| == |records|
    ensures forall i :: 0 <= i < |records| ==> Some(r[i]) == InstanceRunState(records[i].state)
  {
    if records == [] then []
    else [InstanceRunState(records[0].state).value] + MappedStates(records[1..])
  }

  /**
   * Reference left fold: merge(...merge(merge(acc, s1), s2)..., sn), taking
   * the states from the front.
   */
  function MergeAll(merge: Merge, acc: RunState, states: seq<RunState>): (r: RunState)
    decreases |states|
  {
    if states == [] then acc else MergeAll(merge, merge(acc, states[0]), states[1..])
  }

  /** Folding a concatenation folds the second part from the first part's result. */
  lemma {:induction false} MergeAllAppend(merge: Merge, acc: RunState, s: seq<RunState>, t: seq<RunState>)
    ensures MergeAll(merge, acc, s + t) == MergeAll(merge, MergeAll(merge, acc, s), t)
    decreases |s|
  {
    if s != [] {
      assert (s + t)[1..] == s[1..] + t;
      MergeAllAppend(merge, merge(acc, s[0]), s[1..], t);
    } else {
      assert s + t == t;
    }
  }

  /**
   * Without null states the fold is the plain left fold of the mapped
   * states from UNKNOWN: merge(...merge(UNKNOWN, s1)..., sn).
   */
  lemma {:induction false} RecordsFoldIsMergeAll(merge: Merge, records: seq<InstanceStats>)
    requires forall i :: 0 <= i < |records| ==> records[i].state.Some?
    ensures RecordsFold(merge, records) == Normal(Some(MergeAll(merge, RunState.Unknown, MappedStates(records))))
    decreases |records|
  {
    if records != [] {
      var last := |records| - 1;
      var init := records[..last];
      RecordsFoldIsMergeAll(merge, init);
      var ms := MappedStates(records);
      assert MappedStates(init) == ms[..last];
      assert ms == ms[..last] + [ms[last]];
      MergeAllAppend(merge, RunState.Unknown, ms[..last], [ms[last]]);
    }
  }

  /**
   * If merge is commutative and associative, the order of two neighbouring
   * states does not change the left fold.
   */
  lemma MergeAllSwap(merge: Merge, acc: RunState, p: seq<RunState>, x: RunState, y: RunState, q: seq<RunState>)
    requires forall a, b :: merge(a, b) == merge(b, a)
    requires forall a, b, c :: merge(merge(a, b), c) == merge(a, merge(b, c))
    ensures MergeAll(merge, acc, p + [x, y] + q) == MergeAll(merge, acc, p + [y, x] + q)
  {
    var b := MergeAll(merge, acc, p);
    MergeAllAppend(merge, acc, p + [x, y], q);
    MergeAllAppend(merge, acc, p + [y, x], q);
    MergeAllAppend(merge, acc, p, [x, y]);
    MergeAllAppend(merge, acc, p, [y, x]);
    assert [x, y][1..] == [y] && [y, x][1..] == [x];
    assert merge(merge(b, x), y) == merge(b, merge(x, y)) == merge(b, merge(y, x)) == merge(merge(b, y), x);
  }

  /** The statistics are null or have a null or empty record list. */
  predicate NoRecords(stats: Option<ApplicationStats>)
  {
    stats.None? || stats.value.records.None? || |stats.value.records.value| == 0
  }

  /** The fold of the statistics: UNKNOWN when they or their records are null. */
  function StatsFold(merge: Merge, stats: Option<ApplicationStats>): (r: Outcome<Option<RunState>>)
    ensures NoRecords(stats) ==> r == Normal(Some(RunState.Unknown))
    ensures !NoRecords(stats) ==> r == RecordsFold(merge, stats.value.records.value)
  {
    if stats.Some? && stats.value.records.Some? then RecordsFold(merge, stats.value.records.value)
    else Normal(Some(RunState.Unknown))
  }

  /** getRunState(ApplicationStats): the loop over the records. */
  method StatsRunState(merge: Merge, stats: Option<ApplicationStats>) returns (r: Outcome<Option<RunState>>)
    ensures r == StatsFold(merge, stats)
  {
    var runState: Option<RunState> := Some(RunState.Unknown);
    if stats.Some? && stats.value.records.Some? {
      var records := stats.value.records.value;
      var i := 0;
      while i < |records|
        invariant 0 <= i <= |records|
        invariant RecordsFold(merge, records[..i]) == Normal(runState)
      {
        assert records[..i + 1][..i] == records[..i];
        var instanceState := InstanceRunState(records[i].state);
        if instanceState.Some? && runState.None? {
          RecordsFoldThrownPersists(merge, records, i + 1);
          return Thrown(NullPointer);
        }
        runState := if instanceState.Some? then Some(merge(runState.value, instanceState.value)) else None;
        i := i + 1;
      }
      assert records[..i] == records;
    }
    return Normal(runState);
  }

  // ---------------------------------------------------------------------
  // Application-level state: getRunState(CloudAppInstances)
  // ---------------------------------------------------------------------

  /**
   * The run state of an application: INACTIVE for a stopped application
   * without instance records, otherwise the fold of its statistics.
   */
  function AppRunState(merge: Merge, instances: CloudAppInstances): (r: Outcome<Option<RunState>>)
    ensures NoRecords(instances.stats) ==>
      r == Normal(Some(if instances.app.state == Stopped then RunState.Inactive else RunState.Unknown))
    ensures !NoRecords(instances.stats) ==> r == RecordsFold(merge, instances.stats.value.records.value)
  {
    if NoRecords(instances.stats) && instances.app.state == Stopped then Normal(Some(RunState.Inactive))
    else StatsFold(merge, instances.stats)
  }

  /**
   * The desired state matters only when there are no records, and an
   * application whose records all have a state gets a run state (never null,
   * never a failure).
   */
  lemma AppRunStateWithRecords(merge: Merge, app1: CloudApplication, app2: CloudApplication, stats: ApplicationStats)
    requires stats.records.Some? && |stats.records.value| > 0
    ensures AppRunState(merge, CloudAppInstances(app1, Some(stats))) == AppRunState(merge, CloudAppInstances(app2, Some(stats)))
    ensures (forall i :: 0 <= i < |stats.records.value| ==> stats.records.value[i].state.Some?) ==>
      AppRunState(merge, CloudAppInstances(app1, Some(stats))) ==
        Normal(Some(MergeAll(merge, RunState.Unknown, MappedStates(stats.records.value))))
  {
    if forall i :: 0 <= i < |stats.records.value| ==> stats.records.value[i].state.Some? {
      RecordsFoldIsMergeAll(merge, stats.records.value);
    }
  }

  // ---------------------------------------------------------------------
  // The polling loop: startTracking(IProgressMonitor)
  // ---------------------------------------------------------------------

  /** What `client.getApplicationStats` did: returned (possibly null) statistics, or threw. */
  datatype Fetch = Fetched(stats: Option<ApplicationStats>) | FetchThrew

  /**
   * What the environment supplies to one iteration of the loop: the clock
   * reading taken at its start, the monitor's cancellation flag, and the
   * client's answer (used only when not cancelled).
   */
  datatype Poll = Poll(time: int, canceled: bool, fetch: Fetch)

  /** The loop's end time for a tracker started at `start`. */
  function Deadline(start: int): (r: int)
  {
    start + Timeout
  }

  /** The states at which the loop stops waiting. */
  predicate Settled(s: Option<RunState>)
  {
    s == Some(RunState.Running) || s == Some(RunState.Flapping)
  }

  /** How one fetch ends, after its statistics are folded. */
  function FetchOutcome(merge: Merge, f: Fetch): (r: Outcome<Option<RunState>>)
  {
    match f
    case FetchThrew => Thrown(FetchFailure)
    case Fetched(stats) => StatsFold(merge, stats)
  }

  /**
   * The iteration reading `p` ran through and the loop goes on: not
   * cancelled, fetched and folded without failure, not settled, and the
   * clock reading is still before the deadline.
   */
  predicate PollContinues(merge: Merge, start: int, p: Poll)
  {
    !p.canceled && FetchOutcome(merge, p.fetch).Normal? &&
    !Settled(FetchOutcome(merge, p.fetch).value) && p.time < Deadline(start)
  }

  /** Some clock reading reaches the deadline: the clock advances. */
  predicate ClockReachesDeadline(start: int, polls: seq<Poll>)
  {
    exists k :: 0 <= k < |polls| && polls[k].time >= Deadline(start)
  }

  /**
   * startTracking, from the clock reading `start`.  It runs `n` iterations,
   * the first `n - 1` of which go on; the last one ends the loop by
   * cancellation (no fetch), by a failing fetch or fold, or with a state
   * that is settled or read at or after the deadline.  `worked` counts the
   * units reported to the monitor, one per fetch; `warned` says whether the
   * timeout warning was logged.
   */
  method StartTracking(merge: Merge, start: int, polls: seq<Poll>)
    returns (r: Outcome<Option<RunState>>, n: nat, worked: nat, warned: bool)
    requires ClockReachesDeadline(start, polls)
    ensures 1 <= n <= |polls|
    ensures forall j :: 0 <= j < n - 1 ==> PollContinues(merge, start, polls[j])
    ensures polls[n - 1].canceled ==> r == Thrown(OperationCanceled)
    ensures !polls[n - 1].canceled ==> r == FetchOutcome(merge, polls[n - 1].fetch)
    ensures worked == if polls[n - 1].canceled || polls[n - 1].fetch.FetchThrew? then n - 1 else n
    ensures r.Normal? ==> Settled(r.value) || polls[n - 1].time >= Deadline(start)
    ensures warned <==> r.Normal? && r.value != Some(RunState.Running)
  {
    ghost var k :| 0 <= k < |polls| && polls[k].time >= Deadline(start);
    var runState: Option<RunState> := Some(RunState.Unknown);
    var currentTime := start;
    var totalTime := start + Timeout;
    n, worked := 0, 0;
    while !Settled(runState) && currentTime < totalTime
      invariant n <= k + 1
      invariant n == 0 ==> currentTime == start && runState == Some(RunState.Unknown)
      invariant n > 0 ==> currentTime == polls[n - 1].time
      invariant n > 0 ==> Normal(runState) == FetchOutcome(merge, polls[n - 1].fetch) && !polls[n - 1].canceled
      invariant forall j :: 0 <= j < n - 1 ==> PollContinues(merge, start, polls[j])
      invariant worked == n
      decreases k + 1 - n
    {
      assert n <= k;
      currentTime := polls[n].time;
      if polls[n].canceled {
        n := n + 1;
        return Thrown(OperationCanceled), n, worked, false;
      }
      var stats: Option<ApplicationStats>;
      match polls[n].fetch {
        case FetchThrew =>
          n := n + 1;
          return Thrown(FetchFailure), n, worked, false;
        case Fetched(s) =>
          stats := s;
      }
      worked := worked + 1;
      var sampled := StatsRunState(merge, stats);
      n := n + 1;
      match sampled {
        case Thrown(e) =>
          return sampled, n, worked, false;
        case Normal(s) =>
          runState := s;
      }
    }
    r := Normal(runState);
    warned := runState != Some(RunState.Running);
  }
}
