// A node of the schedule graph: a set of dispatched jobs, what follows from it, and
// the states in which exactly these jobs have been dispatched.
module Nodes {
  import IndexSets
  import opened Times
  import opened Jobs
  import opened Workload
  import opened Scheduler
  import opened CoreAvailability
  import opened PendingSuccessors
  import opened ReadyJobs
  import opened Abstraction
  import opened NextDispatch
  import opened PriorityPruning
  import opened SpaceData
  import opened NextState
  import opened ScheduleStates
  import opened InitialStates
  import opened Layers

  const SOURCES: set<Category> := {Sequential, Gang, MutexSource}

  /** The objects that the states consist of. */
  ghost function Footprint(states: seq<ScheduleState>): set<object> {
    set i, o | 0 <= i < |states| && o in states[i].Repr() :: o
  }

  /** What the states record. */
  ghost function ViewsOf(states: seq<ScheduleState>): (r: seq<View>)
    reads Footprint(states)
    ensures |r| == |states| && forall i :: 0 <= i < |states| ==> r[i] == states[i].Contents()
  {
    seq(|states|, i requires 0 <= i < |states| reads Footprint(states) => states[i].Contents())
  }

  /** The states are well formed and share no objects. */
  ghost predicate Distinct(states: seq<ScheduleState>)
    reads Footprint(states)
  {
    && (forall i :: 0 <= i < |states| ==> states[i].Valid())
    && (forall i, k :: 0 <= i < |states| && 0 <= k < |states| && i != k ==> states[i].Apart(states[k]))
  }

  /** What a node knows about its states as a whole: the first and last core availability, and
      the latest of the times by which each of them can certainly start a job. */
  datatype Summary = Summary(aMin: int, aMax: int, successor: Bound, gang: Bound, mutex: Bound) {
    function Widened(other: Summary): Summary {
      Summary(Min(aMin, other.aMin), Max(aMax, other.aMax),
              MaxB(successor, other.successor), MaxB(gang, other.gang), MaxB(mutex, other.mutex))
    }

    predicate Bounds(v: View) {
      && |v.cores| > 0 && aMin <= v.cores[0].min && v.cores[|v.cores| - 1].max <= aMax
      && LeB(v.certainSuccessor, successor) && LeB(v.certainGang, gang) && LeB(v.certainMutex, mutex)
    }
  }

  function SummaryOf(v: View): Summary
    requires |v.cores| > 0
  {
    Summary(v.cores[0].min, v.cores[|v.cores| - 1].max, v.certainSuccessor, v.certainGang, v.certainMutex)
  }

  ghost predicate Bounded(views: seq<View>, a: Summary) {
    forall i :: 0 <= i < |views| ==> a.Bounds(views[i])
  }

  class Node {
    const scheduled: set<nat>
    const words: seq<nat>          // the dispatched jobs, as a vector of words
    const count: nat               // how many jobs have been dispatched
    const key: nat
    const ready: seq<nat>
    const pendingStart: seq<nat>
    const pendingFinish: seq<nat>
    const earliestRelease: Bound   // of source jobs
    const nextSequential: Bound    // latest release of the first sequential independent job
    const nextSource: Bound        // the same over all source jobs
    var aMin: int
    var aMax: int
    var nextSuccessor: Bound
    var nextGang: Bound
    var nextMutex: Bound
    var states: seq<ScheduleState>
    ghost var Repr: set<object>

    /** The node and its states lie within `Repr`. */
    ghost predicate Contained()
      reads this
    {
      this in Repr && Footprint(states) <= Repr
    }

    /** Everything that follows from the dispatched jobs is right. */
    ghost predicate Fixed(p: Problem) {
      && ValidProblem(p) && Closed(p, scheduled) && IndexSets.Holds(words, scheduled)
      && count == |scheduled| && key == XorKey(p, scheduled)
      && ReadyExact(p, scheduled, ready) && (SimpleStartEdges(p) ==> RepeatsShared(p, ready))
      && PendingExact(p, StartConstraints, scheduled, pendingStart)
      && PendingExact(p, FinishConstraints, scheduled, pendingFinish)
      && earliestRelease == NextKey(p, scheduled, ByEarliest, SOURCES)
      && nextSequential == NextKey(p, scheduled, ByLatest, {Sequential})
      && nextSource == NextSource(p, scheduled)
    }

    ghost function Views(): (r: seq<View>)
      reads this, Footprint(states)
      ensures |r| == |states|
    {
      ViewsOf(states)
    }

    ghost function Totals(): Summary
      reads this
    {
      Summary(aMin, aMax, nextSuccessor, nextGang, nextMutex)
    }

    ghost predicate Valid(p: Problem, platform: seq<Interval>)
      reads this, Footprint(states)
    {
      Fixed(p) && Filled(p, platform)
    }

    /** The states are well formed and sound, and the aggregated variables bound them. */
    ghost predicate Filled(p: Problem, platform: seq<Interval>)
      reads this, Footprint(states)
    {
      && Distinct(states)
      && AllSound(p, platform, scheduled, Views())
      && Bounded(Views(), Totals())
    }

    /** The node before any dispatch, without states. */
    constructor Start(d: Data)
      requires ValidData(d)
      ensures Fixed(d.p) && scheduled == {} && states == [] && Repr == {this} && Contained()
    {
      scheduled, words, count, key := {}, [], 0, 0;
      ready, pendingStart, pendingFinish := [], [], [];
      var earliest := FirstKey(d.p, ByEarliest, d.sourcesByEarliest, SOURCES);
      var sequential := FirstKey(d.p, ByLatest, d.sequentialByLatest, {Sequential});
      var gang := FirstKey(d.p, ByLatest, d.gangByLatest, {Gang});
      var mutex := FirstKey(d.p, ByLatest, d.mutexByLatest, {MutexSource});
      earliestRelease, nextSequential, nextSource := earliest, sequential, MinB(sequential, MinB(gang, mutex));
      aMin, aMax, nextSuccessor, nextGang, nextMutex := 0, 0, Inf, Inf, Inf;
      states, Repr := [], {this};
      new;
      XorNothing(d.p, |d.p.jobs|);
      NothingDispatched(d.p);
    }

    /** The key of the node that dispatching `j` leads to. */
    function NextKeyAfter(p: Problem, j: nat): nat
      requires p.IsJob(j)
    {
      Xor(key, p.jobs[j].key)
    }

    lemma EmptyValid(p: Problem, platform: seq<Interval>)
      requires Fixed(p) && states == []
      ensures Valid(p, platform) && count == |scheduled|
    {
    }

    lemma KeyAfter(p: Problem, j: nat)
      requires Fixed(p) && Eligible(p, scheduled, j)
      ensures NextKeyAfter(p, j) == XorKey(p, scheduled + {j})
      ensures IndexSets.Holds(IndexSets.Added(words, j), scheduled + {j})
    {
      IndexSets.HoldsAdded(words, scheduled, j);
      XorAdd(p, scheduled, scheduled + {j}, j, |p.jobs|);
    }

    /** The node that results from dispatching `j` in node `from`, without states. */
    constructor AfterDispatch(from: Node, d: Data, j: nat)
      requires ValidData(d) && from.Fixed(d.p) && Eligible(d.p, from.scheduled, j)
      ensures Fixed(d.p) && scheduled == from.scheduled + {j} && states == [] && Repr == {this} && Contained()
      ensures key == from.NextKeyAfter(d.p, j)
    {
      hide ValidData, ReadyExact, PendingExact, NextKey, RepeatsShared, Closed, NextSource;
      var later := from.scheduled + {j};
      scheduled, words := later, IndexSets.Added(from.words, j);
      count, key := from.count + 1, from.NextKeyAfter(d.p, j);
      var jobs, starts, finishes := NextLists(d.p, from, j, later);
      ready, pendingStart, pendingFinish := jobs, starts, finishes;
      var earliest, sequential, source := NextReleases(d, from, j, later);
      earliestRelease, nextSequential, nextSource := earliest, sequential, source;
      aMin, aMax, nextSuccessor, nextGang, nextMutex := 0, 0, Inf, Inf, Inf;
      states, Repr := [], {this};
      IndexSets.HoldsAdded(from.words, from.scheduled, j);
      XorAdd(d.p, from.scheduled, later, j, |d.p.jobs|);
      LaterSet(d.p, from.scheduled, j);
    }

    /** The ready list and the pending lists once `j` has been dispatched in `from`. */
    static method NextLists(p: Problem, from: Node, j: nat, later: set<nat>)
        returns (ready: seq<nat>, pendingStart: seq<nat>, pendingFinish: seq<nat>)
      requires from.Fixed(p) && Eligible(p, from.scheduled, j) && later == from.scheduled + {j}
      ensures ReadyExact(p, later, ready) && (SimpleStartEdges(p) ==> RepeatsShared(p, ready))
      ensures PendingExact(p, StartConstraints, later, pendingStart)
          && PendingExact(p, FinishConstraints, later, pendingFinish)
    {
      hide NextKey, NextSource, XorKey;
      var t := new ReadyJobsTracker();
      t.Update(p, from.ready, j, later);
      ready := t.ready;
      UpdatedReadyExact(p, from.scheduled, from.ready, j, ready);
      if SimpleStartEdges(p) {
        RepeatsStayShared(p, from.scheduled, from.ready, j, ready);
      }
      var q := new PendingSuccessorsTracker();
      q.Update(p, from.pendingStart, from.pendingFinish, j, from.scheduled);
      pendingStart, pendingFinish := q.pendingStart, q.pendingFinish;
    }

    /** The next releases once `j` has been dispatched in `from`, searched for from the previous ones on. */
    static method NextReleases(d: Data, from: Node, j: nat, later: set<nat>) returns (earliest: Bound,
                               sequential: Bound, source: Bound)
      requires ValidData(d) && from.Fixed(d.p) && later == from.scheduled + {j}
      ensures earliest == NextKey(d.p, later, ByEarliest, SOURCES)
      ensures sequential == NextKey(d.p, later, ByLatest, {Sequential})
      ensures source == NextSource(d.p, later)
    {
      hide ReadyExact, PendingExact, RepeatsShared, Closed;
      Listed(d);
      NextKeyLater(d.p, from.scheduled, j, ByEarliest, SOURCES, from.earliestRelease);
      NextKeyLater(d.p, from.scheduled, j, ByLatest, {Sequential}, from.nextSequential);
      NextKeyLater(d.p, from.scheduled, j, ByLatest, {Gang}, from.nextSource);
      NextKeyLater(d.p, from.scheduled, j, ByLatest, {MutexSource}, from.nextSource);
      earliest := EarliestRelease(d.p, ByEarliest, d.sourcesByEarliest, SOURCES, from.earliestRelease, later);
      sequential := EarliestRelease(d.p, ByLatest, d.sequentialByLatest, {Sequential}, from.nextSequential, later);
      var gang := EarliestRelease(d.p, ByLatest, d.gangByLatest, {Gang}, from.nextSource, later);
      var mutex := EarliestRelease(d.p, ByLatest, d.mutexByLatest, {MutexSource}, from.nextSource, later);
      source := MinB(sequential, MinB(gang, mutex));
    }

    /** Add a state and widen the aggregated variables. */
    method AddState(p: Problem, platform: seq<Interval>, s: ScheduleState)
      requires Filled(p, platform) && s.Valid() && Sound(p, platform, scheduled, s.Contents())
      requires forall i :: 0 <= i < |states| ==> s.Apart(states[i])
      modifies this
      ensures Filled(p, platform)
      ensures states == old(states) + [s] && Views() == old(Views()) + [s.Contents()]
      ensures Repr == old(Repr) + s.Repr()
      ensures Totals() == if |old(states)| == 0 then SummaryOf(s.Contents())
                          else old(Totals()).Widened(SummaryOf(s.Contents()))
    {
      hide Bounded, Sound, Totals, Distinct, ViewsOf;
      ghost var views, v := Views(), s.Contents();
      Outside(states + [s]);
      ReadyToAdd(p, platform, s, views, v);
      Enter(p, s);
      Push(p, platform, s, views, v);
    }

    lemma ReadyToAdd(p: Problem, platform: seq<Interval>, s: ScheduleState, views: seq<View>, v: View)
      requires Filled(p, platform) && s.Valid() && Sound(p, platform, scheduled, s.Contents())
      requires forall i :: 0 <= i < |states| ==> s.Apart(states[i])
      requires views == Views() && v == s.Contents()
      ensures Distinct(states + [s]) && ViewsOf(states + [s]) == views + [v] && |s.cores.avail| == p.m >= 1
      ensures AllSound(p, platform, scheduled, views + [v])
      ensures Bounded(views + [v], if |states| == 0 then SummaryOf(v) else Totals().Widened(SummaryOf(v)))
    {
      hide Bounded, Sound;
      SoundCores(p, platform, scheduled, v);
      DistinctAdd(states, s);
      AllSoundAdd(p, platform, scheduled, views, v);
      BoundedAdd(views, Totals(), v);
    }

    /** Append a state that the aggregated variables take into account already. */
    method Push(p: Problem, platform: seq<Interval>, s: ScheduleState, ghost views: seq<View>, ghost v: View)
      requires Distinct(states + [s]) && ViewsOf(states + [s]) == views + [v]
      requires AllSound(p, platform, scheduled, views + [v]) && Bounded(views + [v], Totals())
      modifies `states, `Repr
      ensures Filled(p, platform) && states == old(states) + [s] && Views() == views + [v]
      ensures Repr == old(Repr) + s.Repr() && Totals() == old(Totals())
    {
      hide Sound, Bounded, ScheduleState.Valid;
      Outside(states + [s]);
      states := states + [s];
      Repr := Repr + s.Repr();
    }

    method Enter(p: Problem, s: ScheduleState)
      requires |s.cores.avail| == p.m >= 1
      modifies `aMin, `aMax, `nextSuccessor, `nextGang, `nextMutex
      ensures var own := SummaryOf(s.Contents());
              Totals() == if |states| == 0 then own else old(Totals()).Widened(own)
    {
      if |states| == 0 {
        aMin, aMax := s.cores.Availability(1).min, s.cores.Availability(p.m).max;
        nextSuccessor, nextGang, nextMutex := s.certain.successor, s.certain.gang, s.certain.mutex;
      } else {
        Widen(p, s);
      }
    }

    /** Widen the aggregated variables by what another state records. */
    method Widen(p: Problem, s: ScheduleState)
      requires |s.cores.avail| == p.m >= 1
      modifies `aMin, `aMax, `nextSuccessor, `nextGang, `nextMutex
      ensures Totals() == old(Totals()).Widened(SummaryOf(s.Contents()))
    {
      aMin, aMax := Min(aMin, s.cores.Availability(1).min), Max(aMax, s.cores.Availability(p.m).max);
      nextSuccessor := MaxB(nextSuccessor, s.certain.successor);
      nextGang := MaxB(nextGang, s.certain.gang);
      nextMutex := MaxB(nextMutex, s.certain.mutex);
    }

    /** Try to merge a new state into the state at index `k`. */
    method MergeInState(p: Problem, platform: seq<Interval>, k: nat, s: ScheduleState, conservative: bool,
                        useTimes: bool)
        returns (merged: bool)
      requires Filled(p, platform) && k < |states|
      requires s.Valid() && s.Apart(states[k]) && Sound(p, platform, scheduled, s.Contents())
      modifies this, states[k].cores, states[k].running, states[k].starts, states[k].finishes, states[k].certain,
          states[k].priority
      ensures Filled(p, platform) && states == old(states) && Repr == old(Repr)
      ensures merged == Overlap(old(Views())[k], old(s.Contents()), conservative, useTimes)
      ensures merged ==> Views() == old(Views())[k := Merged(p, old(Views())[k], old(s.Contents()))]
      ensures !merged ==> Views() == old(Views()) && s.Valid() && s.Contents() == old(s.Contents())
      ensures Totals() == if merged then old(Totals()).Widened(SummaryOf(old(s.Contents()))) else old(Totals())
    {
      hide Filled, Sound, AllSound, Footprint, Distinct, ViewsOf, Views, Totals, Bounded, Merged, SameJobs, Overlap,
          Summary.Widened, SummaryOf;
      ghost var views, v, totals := Views(), s.Contents(), Totals();
      FilledParts(p, platform, k);
      SoundCores(p, platform, scheduled, v);
      Outside(states);
      merged := Absorb(p, platform, scheduled, states, k, s, conservative, useTimes, views, v);
      if merged {
        MergedAt(p, platform, scheduled, views, totals, k, v);
        Settle(p, platform, s, views[k := Merged(p, views[k], v)], v);
      } else {
        FilledAgain(p, platform, views);
      }
    }

    lemma FilledParts(p: Problem, platform: seq<Interval>, k: nat)
      requires Filled(p, platform) && k < |states|
      ensures Distinct(states) && ViewsOf(states) == Views() && AllSound(p, platform, scheduled, Views())
      ensures Bounded(Views(), Totals()) && Sound(p, platform, scheduled, Views()[k])
    {
      hide Sound, Bounded, Distinct;
    }

    lemma FilledAgain(p: Problem, platform: seq<Interval>, views: seq<View>)
      requires Distinct(states) && ViewsOf(states) == views && AllSound(p, platform, scheduled, views)
      requires Bounded(views, Totals())
      ensures Filled(p, platform) && Views() == views
    {
      hide Sound, Bounded, Distinct;
    }

    /** Widen the aggregated variables once a state has been absorbed. */
    method Settle(p: Problem, platform: seq<Interval>, s: ScheduleState, ghost views: seq<View>, ghost v: View)
      requires Distinct(states) && ViewsOf(states) == views && AllSound(p, platform, scheduled, views)
      requires |s.cores.avail| == p.m >= 1 && v == s.Contents() && Bounded(views, Totals().Widened(SummaryOf(v)))
      modifies `aMin, `aMax, `nextSuccessor, `nextGang, `nextMutex
      ensures Filled(p, platform) && Views() == views && Totals() == old(Totals()).Widened(SummaryOf(v))
    {
      hide Sound, Bounded, ScheduleState.Valid;
      Outside(states);
      Widen(p, s);
    }

    /** Try to merge the state at index `i` into the one at index `k` before it, which then replaces both. */
    method MergeOtherState(p: Problem, platform: seq<Interval>, k: nat, i: nat, conservative: bool, useTimes: bool)
        returns (merged: bool)
      requires Filled(p, platform) && k < i < |states|
      modifies this, states[k].cores, states[k].running, states[k].starts, states[k].finishes, states[k].certain,
          states[k].priority
      ensures Filled(p, platform)
      ensures Repr == old(Repr) && Totals() == old(Totals())
      ensures merged == Overlap(old(Views())[k], old(Views())[i], conservative, useTimes)
      ensures !merged ==> states == old(states) && Views() == old(Views())
      ensures merged ==>
                && Mergeables(p, old(Views())[k], old(Views())[i])
                && states == Without(old(states), i)
                && Views() == Without(old(Views())[k := Merged(p, old(Views())[k], old(Views())[i])], i)
    {
      hide Bounded, Merged, Sound, Overlap;
      ghost var views, totals := Views(), Totals();
      Outside(states);
      merged := Absorb(p, platform, scheduled, states, k, states[i], conservative, useTimes, views, views[i]);
      if merged {
        ghost var w := views[k := Merged(p, views[k], views[i])];
        BoundedPair(p, platform, scheduled, views, totals, k, i);
        Erase(p, platform, i, w);
      }
    }

    /** Erase a state that another one has absorbed. */
    method Erase(p: Problem, platform: seq<Interval>, i: nat, ghost views: seq<View>)
      requires Distinct(states) && ViewsOf(states) == views && i < |states|
      requires AllSound(p, platform, scheduled, views) && Bounded(views, Totals())
      modifies `states
      ensures Filled(p, platform)
      ensures states == Without(old(states), i) && Views() == Without(views, i) && Totals() == old(Totals())
    {
      hide Sound, Bounded;
      ErasedStates(p, platform, scheduled, states, i, views, Totals());
      states := states[..i] + states[i + 1..];
      assert states == Without(old(states), i) && Views() == Without(views, i);
    }

    /** Try to merge a new state into the one at index `k`; either that happens, or nothing changes. */
    method TryAt(p: Problem, platform: seq<Interval>, k: nat, s: ScheduleState, conservative: bool, useTimes: bool,
                 ghost before: seq<View>, ghost v: View)
        returns (merged: bool)
      requires Filled(p, platform) && k < |states| && Views() == before
      requires s.Valid() && s.Contents() == v && s.Apart(states[k]) && Sound(p, platform, scheduled, v)
      modifies this, Footprint(states)
      ensures Filled(p, platform) && states == old(states) && Repr == old(Repr)
      ensures Mergeables(p, before[k], v) && merged == Overlap(before[k], v, conservative, useTimes)
      ensures Views() == if merged then before[k := Merged(p, before[k], v)] else before
      ensures !merged ==> s.Valid() && s.Contents() == v
      ensures Totals() == if merged then old(Totals()).Widened(SummaryOf(v)) else old(Totals())
    {
      hide Bounded, Merged, Overlap, Distinct, Mergeables, Sound;
      InFootprint(states, states[k]);
      SoundAt(p, platform, k);
      MergeableStates(p, platform, scheduled, before[k], v);
      merged := MergeInState(p, platform, k, s, conservative, useTimes);
    }

    lemma SoundAt(p: Problem, platform: seq<Interval>, k: nat)
      requires Filled(p, platform) && k < |states|
      ensures Sound(p, platform, scheduled, Views()[k])
    {
      hide Sound, Distinct, Bounded;
    }

    /** Merge a new state into the first state of the node that it overlaps with, if any. */
    method MergeFirst(p: Problem, platform: seq<Interval>, s: ScheduleState, conservative: bool, useTimes: bool)
        returns (merged: bool, at: nat)
      requires Filled(p, platform) && s.Valid() && Sound(p, platform, scheduled, s.Contents())
      requires forall i :: 0 <= i < |states| ==> s.Apart(states[i])
      modifies this, Footprint(states)
      ensures Filled(p, platform) && states == old(states) && Repr == old(Repr)
      ensures !merged ==> Views() == old(Views()) && s.Valid() && s.Contents() == old(s.Contents())
      ensures at <= |states| && NoneOverlaps(old(Views()), old(s.Contents()), at, conservative, useTimes)
      ensures !merged ==> at == |states|
      ensures merged ==> at < |states| && Mergeables(p, old(Views())[at], old(s.Contents()))
      ensures merged ==> Overlap(old(Views())[at], old(s.Contents()), conservative, useTimes)
      ensures merged ==> Views() == old(Views())[at := Merged(p, old(Views())[at], old(s.Contents()))]
      ensures Totals() == if merged then old(Totals()).Widened(SummaryOf(old(s.Contents()))) else old(Totals())
    {
      hide Filled, Sound, Merged, Mergeables, Overlap, NoneOverlaps, ScheduleState.Valid, ScheduleState.Contents,
          ScheduleState.Apart, Footprint, ViewsOf;
      ghost var before, v, all := Views(), s.Contents(), states;
      merged, at := false, 0;
      NoneYet(before, v, conservative, useTimes);
      while at < |states|
        invariant 0 <= at <= |states| && Filled(p, platform) && states == all && Repr == old(Repr)
        invariant Views() == before && s.Valid() && s.Contents() == v && Totals() == old(Totals())
        invariant NoneOverlaps(before, v, at, conservative, useTimes)
      {
        merged := TryAt(p, platform, at, s, conservative, useTimes, before, v);
        if merged {
          return;
        }
        OneMoreApart(before, v, at, conservative, useTimes);
        at := at + 1;
      }
    }

    /** Try to merge a later state into the one at index `k`; either that happens, or nothing changes. */
    method LaterAt(p: Problem, platform: seq<Interval>, k: nat, i: nat, conservative: bool, useTimes: bool,
                   ghost views: seq<View>, ghost before: seq<View>)
        returns (merged: bool)
      requires Filled(p, platform) && k < i < |states| && Views() == views && Subsumes(p, views, before)
      modifies this, Footprint(states)
      ensures Filled(p, platform) && Repr == old(Repr) && Subsumes(p, Views(), before) && Totals() == old(Totals())
      ensures forall x :: x in states ==> x in old(states)
      ensures |states| == if merged then |old(states)| - 1 else |old(states)|
      ensures Mergeables(p, views[k], views[i]) && merged == Overlap(views[k], views[i], conservative, useTimes)
      ensures Views() == if merged then Without(views[k := Merged(p, views[k], views[i])], i) else views
    {
      hide Bounded, Merged, Overlap, Distinct, Mergeables, Sound, Subsumes;
      InFootprint(states, states[k]);
      SoundAt(p, platform, k);
      SoundAt(p, platform, i);
      MergeableStates(p, platform, scheduled, views[k], views[i]);
      ghost var all := AllSound(p, platform, scheduled, views);
      assert all;
      merged := MergeOtherState(p, platform, k, i, conservative, useTimes);
      if merged {
        MergeOther(p, platform, scheduled, views, k, i, before);
      }
    }

    /** Merge later states into the one at index `k` and erase them, within the budget. */
    method MergeLater(p: Problem, platform: seq<Interval>, k: nat, conservative: bool, useTimes: bool, budget: int)
        returns (merges: nat)
      requires Filled(p, platform) && k < |states| && budget != 0
      modifies this, Footprint(states)
      ensures Filled(p, platform)
      ensures Totals() == old(Totals()) && Repr == old(Repr) && forall x :: x in states ==> x in old(states)
      ensures k < |states| == |old(states)| - merges && Subsumes(p, Views(), old(Views()))
      ensures !conservative ==> Views() == Swept(p, old(Views()), k, k + 1, budget, useTimes)
    {
      hide Filled, Sound, Merged, Mergeables, Overlap, Subsumes, Swept, Footprint, ViewsOf, Without, Views;
      ghost var before, all := Views(), states;
      ghost var result := Swept(p, before, k, k + 1, budget, useTimes);
      merges := 0;
      SubsumesItself(p, before);
      var i := k + 1;
      while i < |states|
        invariant k < i <= |states| && Filled(p, platform) && budget != merges
        invariant Totals() == old(Totals()) && Repr == old(Repr) && forall x :: x in states ==> x in all
        invariant |states| == |all| - merges && Subsumes(p, Views(), before)
        invariant !conservative ==> Swept(p, Views(), k, i, budget - merges, useTimes) == result
        decreases |states| - i
      {
        ghost var views := Views();
        FootprintWithin(states, all);
        var merged := LaterAt(p, platform, k, i, conservative, useTimes, views, before);
        SweptStep(p, views, k, i, budget - merges, useTimes);
        if merged {
          merges := merges + 1;
          if budget == merges {
            break;
          }
        } else {
          i := i + 1;
        }
      }
      SweptEnd(p, Views(), k, i, budget - merges, useTimes);
    }

    lemma Invariants(p: Problem, platform: seq<Interval>, v: View)
      requires Filled(p, platform) && Sound(p, platform, scheduled, v)
      ensures StateInvariant(p, scheduled, v)
      ensures forall i :: 0 <= i < |states| ==> StateInvariant(p, scheduled, Views()[i])
    {
      hide StateInvariant, Distinct, Bounded, Derivable;
      forall i | 0 <= i < |states|
        ensures StateInvariant(p, scheduled, Views()[i])
      {
        SoundAt(p, platform, i);
      }
    }

    /** Merge a new state into the states of the node: into the first one it overlaps with and, within
        the budget, that one with later states, which are erased. Any budget below one is unlimited. */
    method MergeStates(p: Problem, platform: seq<Interval>, s: ScheduleState, conservative: bool, useTimes: bool,
                       budget: int)
        returns (merges: nat)
      requires Filled(p, platform) && s.Valid() && Sound(p, platform, scheduled, s.Contents())
      requires forall i :: 0 <= i < |states| ==> s.Apart(states[i])
      modifies this, Footprint(states)
      ensures Filled(p, platform)
      ensures Repr == old(Repr) && forall x :: x in states ==> x in old(states)
      ensures merges == 0 <==> NoneOverlaps(old(Views()), old(s.Contents()), |old(states)|, conservative, useTimes)
      ensures merges == 0 ==>
                states == old(states) && Views() == old(Views()) && s.Valid() && s.Contents() == old(s.Contents())
      ensures merges > 0 ==> 0 < |states| == |old(states)| - (merges - 1)
      ensures merges > 0 ==> Subsumes(p, Views(), old(Views())) && Subsumes(p, Views(), [old(s.Contents())])
      ensures merges > 0 ==> IsMerge(p, old(Views()), Views(), old(s.Contents()), conservative, useTimes, budget)
      ensures Totals() == if merges > 0 then old(Totals()).Widened(SummaryOf(old(s.Contents()))) else old(Totals())
      ensures conservative ==> merges <= 1
      ensures budget >= 1 ==> merges <= budget
    {
      hide Filled, Sound, StateInvariant, Merged, Overlap, NoneOverlaps, Swept, IsMerge, Subsumes, SameJobs, ViewsOf,
          ScheduleState.Valid, ScheduleState.Contents, ScheduleState.Apart, Footprint;
      ghost var before, v := Views(), s.Contents();
      Invariants(p, platform, v);
      var merged, at := MergeFirst(p, platform, s, conservative, useTimes);
      if !merged {
        return 0;
      }
      SomeOverlaps(before, v, at, conservative, useTimes);
      MergeInto(p, scheduled, before, at, v);
      ghost var views := Views();
      var left := (if conservative then 1 else budget) - 1;
      var more := 0;
      if left != 0 {
        more := MergeLater(p, platform, at, conservative, useTimes, left);
        SubsumesTransitive(p, Views(), views, before);
        SubsumesTransitive(p, Views(), views, [v]);
      }
      MergedAsBudgeted(p, before, Views(), v, at, conservative, useTimes, budget);
      merges := 1 + more;
    }

    /** A node is not part of its states. */
    lemma Outside(states: seq<ScheduleState>)
      ensures this !in Footprint(states)
      ensures forall i :: 0 <= i < |states| ==> this !in states[i].Repr()
    {
    }
  }

  /** The state at index `k` absorbs another one, if the two overlap. */
  method AbsorbAt(p: Problem, states: seq<ScheduleState>, k: nat, s: ScheduleState,
                  conservative: bool, useTimes: bool, ghost views: seq<View>, ghost v: View) returns (merged: bool)
    requires Distinct(states) && k < |states| && s.Valid() && states[k].Apart(s)
    requires views == ViewsOf(states) && v == s.Contents() && Mergeables(p, views[k], v)
    modifies states[k].cores, states[k].running, states[k].starts, states[k].finishes, states[k].certain,
        states[k].priority
    ensures Distinct(states)
    ensures merged == Overlap(views[k], v, conservative, useTimes)
    ensures merged ==> Mergeable(views[k].cores, v.cores, conservative)
    ensures ViewsOf(states) == if merged then views[k := Merged(p, views[k], v)] else views
  {
    hide Merged, Mergeables, Mergeable, Footprint, ViewsOf;
    merged := states[k].TryToMerge(p, s, conservative, useTimes);
    forall i | 0 <= i < |states| && i != k
      ensures states[i].Valid() && states[i].Contents() == old(states[i].Contents())
    {
      assert states[i].Apart(states[k]);
    }
  }

  /** When it does, the result is sound again. */
  method Absorb(p: Problem, platform: seq<Interval>, scheduled: set<nat>, states: seq<ScheduleState>, k: nat,
                s: ScheduleState,
                conservative: bool, useTimes: bool, ghost views: seq<View>, ghost v: View) returns (merged: bool)
    requires Distinct(states) && k < |states| && s.Valid() && states[k].Apart(s)
    requires views == ViewsOf(states) && v == s.Contents()
    requires Sound(p, platform, scheduled, views[k]) && Sound(p, platform, scheduled, v)
    modifies states[k].cores, states[k].running, states[k].starts, states[k].finishes, states[k].certain,
        states[k].priority
    ensures Distinct(states)
    ensures merged == Overlap(views[k], v, conservative, useTimes)
    ensures merged ==> Mergeables(p, views[k], v) && Sound(p, platform, scheduled, Merged(p, views[k], v))
    ensures ViewsOf(states) == if merged then views[k := Merged(p, views[k], v)] else views
  {
    hide Sound, Merged;
    MergeableStates(p, platform, scheduled, views[k], v);
    merged := AbsorbAt(p, states, k, s, conservative, useTimes, views, v);
    if merged {
      MergedSound(p, platform, scheduled, views[k], v, conservative);
    }
  }

  /** The new state overlaps with none of the first `n` states. */
  ghost predicate NoneOverlaps(views: seq<View>, v: View, n: nat, conservative: bool, useTimes: bool) {
    n <= |views| && forall i :: 0 <= i < n ==> !Overlap(views[i], v, conservative, useTimes)
  }

  /** The states from `i` on, one by one: those that overlap with the state at `k`, as widened so far, are merged into
      it and erased, `left` of them at most; any number if `left` is negative. */
  ghost function Swept(p: Problem, views: seq<View>, k: nat, i: nat, left: int, useTimes: bool): (r: seq<View>)
    ensures |r| <= |views|
    decreases |views| - i
  {
    if !(k < i < |views|) || left == 0 then views
    else if Overlap(views[k], views[i], false, useTimes) && Mergeables(p, views[k], views[i]) then
      Swept(p, Without(views[k := Merged(p, views[k], views[i])], i), k, i, left - 1, useTimes)
    else Swept(p, views, k, i + 1, left, useTimes)
  }

  lemma SweptStep(p: Problem, views: seq<View>, k: nat, i: nat, left: int, useTimes: bool)
    requires k < i < |views| && left != 0 && Mergeables(p, views[k], views[i])
    ensures Swept(p, views, k, i, left, useTimes)
         == if Overlap(views[k], views[i], false, useTimes) then
              Swept(p, Without(views[k := Merged(p, views[k], views[i])], i), k, i, left - 1, useTimes)
            else Swept(p, views, k, i + 1, left, useTimes)
  {
    hide Overlap, Mergeables, Merged;
  }

  lemma SweptEnd(p: Problem, views: seq<View>, k: nat, i: nat, left: int, useTimes: bool)
    requires left == 0 || i == |views|
    ensures Swept(p, views, k, i, left, useTimes) == views
  {
  }

  lemma SubsumesItself(p: Problem, views: seq<View>)
    ensures Subsumes(p, views, views)
  {
  }

  /** The list after a state has been merged into the first one it overlaps with, and that one with later ones. */
  ghost predicate IsMerge(p: Problem, before: seq<View>, after: seq<View>, v: View, conservative: bool, useTimes: bool,
                          budget: int) {
    exists k: nat :: MergedAtFirst(p, before, after, v, k, conservative, useTimes, budget)
  }

  ghost predicate MergedAtFirst(p: Problem, before: seq<View>, after: seq<View>, v: View, k: nat, conservative: bool,
                                useTimes: bool, budget: int) {
    && k < |before| && NoneOverlaps(before, v, k, conservative, useTimes)
    && Overlap(before[k], v, conservative, useTimes) && Mergeables(p, before[k], v)
    && after == Swept(p, before[k := Merged(p, before[k], v)], k, k + 1, (if conservative then 1 else budget) - 1,
                      useTimes)
  }

  lemma MergedAsBudgeted(p: Problem, before: seq<View>, after: seq<View>, v: View, k: nat, conservative: bool,
                         useTimes: bool, budget: int)
    requires k < |before| && NoneOverlaps(before, v, k, conservative, useTimes)
    requires Overlap(before[k], v, conservative, useTimes) && Mergeables(p, before[k], v)
    requires var w := before[k := Merged(p, before[k], v)];
             if conservative || budget == 1 then after == w else after == Swept(p, w, k, k + 1, budget - 1, useTimes)
    ensures IsMerge(p, before, after, v, conservative, useTimes, budget)
    ensures conservative || budget >= 1 ==> |before| - |after| <= (if conservative then 1 else budget) - 1
  {
    hide Overlap, Merged, NoneOverlaps, SameJobs;
    var w := before[k := Merged(p, before[k], v)];
    SweptEnd(p, w, k, k + 1, 0, useTimes);
    assert MergedAtFirst(p, before, after, v, k, conservative, useTimes, budget);
    if budget >= 1 {
      SweptWithin(p, w, k, k + 1, budget - 1, useTimes);
    }
  }

  /** The budget bounds the merges. */
  lemma {:induction false} SweptWithin(p: Problem, views: seq<View>, k: nat, i: nat, left: int, useTimes: bool)
    requires left >= 0
    ensures |views| - |Swept(p, views, k, i, left, useTimes)| <= left
    decreases |views| - i
  {
    if k < i < |views| && left > 0 {
      if Overlap(views[k], views[i], false, useTimes) && Mergeables(p, views[k], views[i]) {
        SweptWithin(p, Without(views[k := Merged(p, views[k], views[i])], i), k, i, left - 1, useTimes);
      } else {
        SweptWithin(p, views, k, i + 1, left, useTimes);
      }
    }
  }

  /** Unless the budget is spent, every later state that is left did not overlap when its turn came: nothing is merged
      exactly if no later state overlaps. */
  lemma {:induction false} SweptNone(p: Problem, views: seq<View>, k: nat, i: nat, left: int, useTimes: bool)
    requires k < i <= |views| && left != 0 && forall l :: i <= l < |views| ==> Mergeables(p, views[k], views[l])
    ensures |Swept(p, views, k, i, left, useTimes)| == |views| <==>
              forall l :: i <= l < |views| ==> !Overlap(views[k], views[l], false, useTimes)
    ensures |Swept(p, views, k, i, left, useTimes)| == |views| ==> Swept(p, views, k, i, left, useTimes) == views
    decreases |views| - i
  {
    hide Overlap, Mergeables, Merged;
    if i < |views| && !Overlap(views[k], views[i], false, useTimes) {
      SweptNone(p, views, k, i + 1, left, useTimes);
    }
  }

  function OnOneCore(min: int, max: int): View {
    View([Interval(min, max)], [], map[], map[], Inf, Inf, Inf, None)
  }

  /** A state that has been passed over is not tried again, although the merged state has widened since. */
  lemma SweptCanLeaveOverlap(p: Problem)
    ensures var r := Swept(p, [OnOneCore(0, 1), OnOneCore(4, 5), OnOneCore(2, 3)], 0, 1, -1, false);
            r == [OnOneCore(0, 3), OnOneCore(4, 5)] && Overlap(r[0], r[1], false, false)
  {
    var views := [OnOneCore(0, 1), OnOneCore(4, 5), OnOneCore(2, 3)];
    assert !views[0].cores[0].Intersects(views[1].cores[0]) && views[0].cores[0].Intersects(views[2].cores[0]);
    assert !Overlap(views[0], views[1], false, false) && Overlap(views[0], views[2], false, false);
    var merged := Merged(p, views[0], views[2]);
    assert Widened(views[0].cores, views[2].cores) == [Interval(0, 3)];
    assert merged == OnOneCore(0, 3);
    var rest := Without(views[0 := merged], 2);
    assert rest == [OnOneCore(0, 3), OnOneCore(4, 5)];
    SweptStep(p, views, 0, 1, -1, false);
    SweptStep(p, views, 0, 2, -1, false);
    SweptEnd(p, rest, 0, 2, -2, false);
  }

  lemma NoneYet(views: seq<View>, v: View, conservative: bool, useTimes: bool)
    ensures NoneOverlaps(views, v, 0, conservative, useTimes)
  {
  }

  lemma SomeOverlaps(views: seq<View>, v: View, k: nat, conservative: bool, useTimes: bool)
    requires k < |views| && Overlap(views[k], v, conservative, useTimes)
    ensures !NoneOverlaps(views, v, |views|, conservative, useTimes)
  {
    hide Overlap;
  }

  lemma OneMoreApart(views: seq<View>, v: View, n: nat, conservative: bool, useTimes: bool)
    requires NoneOverlaps(views, v, n, conservative, useTimes) && n < |views|
    requires !Overlap(views[n], v, conservative, useTimes)
    ensures NoneOverlaps(views, v, n + 1, conservative, useTimes)
  {
    hide Overlap;
  }

  lemma FootprintAdd(states: seq<ScheduleState>, s: ScheduleState)
    ensures Footprint(states + [s]) <= Footprint(states) + s.Repr()
  {
  }

  lemma FootprintWithin(some: seq<ScheduleState>, all: seq<ScheduleState>)
    requires forall x :: x in some ==> x in all
    ensures Footprint(some) <= Footprint(all)
  {
    forall i, o | 0 <= i < |some| && o in some[i].Repr()
      ensures o in Footprint(all)
    {
      assert some[i] in some;
      var k :| 0 <= k < |all| && all[k] == some[i];
      assert o in all[k].Repr();
    }
  }

  lemma InFootprint(states: seq<ScheduleState>, s: ScheduleState)
    requires s in states
    ensures s.cores in Footprint(states) && s.running in Footprint(states) && s.starts in Footprint(states)
    ensures s.finishes in Footprint(states) && s.certain in Footprint(states) && s.priority in Footprint(states)
  {
    assert s.cores in s.Repr() && s.running in s.Repr() && s.starts in s.Repr();
    assert s.finishes in s.Repr() && s.certain in s.Repr() && s.priority in s.Repr();
  }

  lemma SubsumesTransitive(p: Problem, c: seq<View>, b: seq<View>, a: seq<View>)
    requires Subsumes(p, c, b) && Subsumes(p, b, a)
    ensures Subsumes(p, c, a)
  {
  }

  /** Merging one state of the list into another one and erasing it loses nothing. */
  lemma MergeOther(p: Problem, platform: seq<Interval>, scheduled: set<nat>, views: seq<View>, k: nat, i: nat,
                   before: seq<View>)
    requires AllSound(p, platform, scheduled, views) && k < i < |views| && Mergeables(p, views[k], views[i])
    requires Subsumes(p, views, before)
    ensures Subsumes(p, Without(views[k := Merged(p, views[k], views[i])], i), before)
  {
    var u := views[k := Merged(p, views[k], views[i])];
    MergeInto(p, scheduled, views, k, views[i]);
    MergeInto(p, scheduled, [views[k]], 0, views[i]);
    assert [views[k]][0 := u[k]] == [u[k]];
    EraseAbsorbed(p, u, k, i);
    SubsumesTransitive(p, u, views, before);
    SubsumesTransitive(p, Without(u, i), u, before);
  }

  lemma ErasedStates(p: Problem, platform: seq<Interval>, scheduled: set<nat>, states: seq<ScheduleState>, i: nat,
                     views: seq<View>, a: Summary)
    requires Distinct(states) && ViewsOf(states) == views && i < |states|
    requires AllSound(p, platform, scheduled, views) && Bounded(views, a)
    ensures Distinct(Without(states, i)) && ViewsOf(Without(states, i)) == Without(views, i)
    ensures AllSound(p, platform, scheduled, Without(views, i)) && Bounded(Without(views, i), a)
  {
    hide Sound;
  }

  lemma BoundedPair(p: Problem, platform: seq<Interval>, scheduled: set<nat>, views: seq<View>, a: Summary, k: nat,
                    i: nat)
    requires AllSound(p, platform, scheduled, views) && Bounded(views, a) && k < |views| && i < |views|
    requires Mergeables(p, views[k], views[i]) && Sound(p, platform, scheduled, Merged(p, views[k], views[i]))
    ensures var w := views[k := Merged(p, views[k], views[i])]; AllSound(p, platform, scheduled, w) && Bounded(w, a)
  {
    hide Sound;
  }

  lemma MergedAt(p: Problem, platform: seq<Interval>, scheduled: set<nat>, views: seq<View>, a: Summary, k: nat,
                 v: View)
    requires AllSound(p, platform, scheduled, views) && Bounded(views, a) && k < |views| && Mergeables(p, views[k], v)
    requires Sound(p, platform, scheduled, Merged(p, views[k], v))
    ensures var w := views[k := Merged(p, views[k], v)]; AllSound(p, platform, scheduled, w) && |v.cores| > 0
    ensures Bounded(views[k := Merged(p, views[k], v)], a.Widened(SummaryOf(v)))
  {
    BoundedMerge(p, views, a, k, v);
  }

  /** The ordered lists, in the form the searches for the next release ask for. */
  lemma Listed(d: Data)
    requires ValidData(d)
    ensures forall k: nat :: k in d.sourcesByEarliest <==> d.p.IsJob(k) && Cat(d.p, k) in SOURCES
    ensures forall k: nat :: k in d.sequentialByLatest <==> d.p.IsJob(k) && Cat(d.p, k) in {Sequential}
    ensures forall k: nat :: k in d.gangByLatest <==> d.p.IsJob(k) && Cat(d.p, k) in {Gang}
    ensures forall k: nat :: k in d.mutexByLatest <==> d.p.IsJob(k) && Cat(d.p, k) in {MutexSource}
  {
    forall k: nat | d.p.IsJob(k)
      ensures Cat(d.p, k) in SOURCES <==> !HasPreds(d.p, k)
    {
      assert ValidJob(d.p.jobs[k], d.p.m);
    }
  }

  lemma MergeableStates(p: Problem, platform: seq<Interval>, scheduled: set<nat>, a: View, b: View)
    requires Sound(p, platform, scheduled, a) && Sound(p, platform, scheduled, b)
    ensures Mergeables(p, a, b)
  {
  }

  lemma BoundedMerge(p: Problem, views: seq<View>, a: Summary, k: nat, v: View)
    requires Bounded(views, a) && k < |views| && Mergeables(p, views[k], v)
    ensures Bounded(views[k := Merged(p, views[k], v)], a.Widened(SummaryOf(v)))
  {
  }

  lemma SoundCores(p: Problem, platform: seq<Interval>, scheduled: set<nat>, v: View)
    requires Sound(p, platform, scheduled, v)
    ensures |v.cores| == p.m >= 1 && WellFormed(v.cores)
  {
  }

  lemma AllSoundAdd(p: Problem, platform: seq<Interval>, scheduled: set<nat>, views: seq<View>, v: View)
    requires AllSound(p, platform, scheduled, views) && Sound(p, platform, scheduled, v)
    ensures AllSound(p, platform, scheduled, views + [v])
  {
    hide Sound;
  }

  lemma BoundedAdd(views: seq<View>, a: Summary, v: View)
    requires Bounded(views, a) && |v.cores| > 0
    ensures Bounded(views + [v], a.Widened(SummaryOf(v))) && (|views| == 0 ==> Bounded(views + [v], SummaryOf(v)))
  {
  }

  lemma DistinctAdd(states: seq<ScheduleState>, s: ScheduleState)
    requires Distinct(states) && s.Valid() && forall i :: 0 <= i < |states| ==> s.Apart(states[i])
    ensures Distinct(states + [s]) && ViewsOf(states + [s]) == ViewsOf(states) + [s.Contents()]
  {
  }

  lemma LaterSet(p: Problem, scheduled: set<nat>, j: nat)
    requires Closed(p, scheduled) && Eligible(p, scheduled, j)
    ensures Closed(p, scheduled + {j}) && |scheduled + {j}| == |scheduled| + 1
  {
  }

  lemma {:induction false} XorNothing(p: Problem, n: nat)
    requires n <= |p.jobs|
    ensures XorBelow(p, {}, n) == 0
  {
    if n > 0 {
      XorNothing(p, n - 1);
    }
  }

  lemma NoneReady(p: Problem, k: nat)
    requires p.IsJob(k) && HasPreds(p, k)
    ensures !PredsIn(p, k, {})
  {
    assert |p.cons[k].predStart| > 0 ==> p.cons[k].predStart[0].ref !in {};
    assert |p.cons[k].predFinish| > 0 ==> p.cons[k].predFinish[0].ref !in {};
  }

  /** The lists of the first node are empty, and rightly so. */
  lemma NothingDispatched(p: Problem)
    ensures Closed(p, {}) && ReadyExact(p, {}, []) && RepeatsShared(p, [])
    ensures PendingExact(p, StartConstraints, {}, []) && PendingExact(p, FinishConstraints, {}, [])
  {
    forall k: nat | p.IsJob(k) && HasPreds(p, k)
      ensures !PredsIn(p, k, {})
    {
      NoneReady(p, k);
    }
  }
}
