// A schedule state: the trackers it is made of, how it results from a dispatch,
// and how it absorbs another state.
module ScheduleStates {
  import opened Times
  import opened Jobs
  import opened Workload
  import opened Scheduler
  import opened CoreAvailability
  import opened RunningJobs
  import opened JobTiming
  import opened PendingSuccessors
  import opened ReadyJobs
  import opened Abstraction
  import opened LatestReady
  import opened NextDispatch
  import opened PriorityPruning
  import opened SpaceData
  import opened NextState
  import opened DispatchTrackers

  /** The state before any dispatch. The certain times of source jobs are their first latest
      arrivals: the availability of cores is not taken into account. */
  function InitialView(p: Problem, platform: seq<Interval>): View
    requires ValidProblem(p)
  {
    View(Initial(platform), [], map[], map[], Inf,
         NextKey(p, {}, ByLatest, {Gang}), NextKey(p, {}, ByLatest, {MutexSource}), None)
  }

  /** The first entry of an ordered list of jobs. */
  method FirstKey(p: Problem, key: Key, list: seq<nat>, kind: set<Category>) returns (r: Bound)
    requires ValidProblem(p) && Ordered(p, key, list)
    requires forall k: nat :: k in list <==> p.IsJob(k) && Cat(p, k) in kind
    ensures r == NextKey(p, {}, key, kind)
  {
    r := Inf;
    if |list| > 0 {
      r := Fin(KeyOf(p, key, list[0]));
      assert list[0] in list;
      assert Open(p, {}, kind, list[0]);
    }
    LeastKeyIs(p, {}, key, kind, r);
  }

  /** The pending lists of the node that a dispatch leads to make the scans of the start and finish
      times record precisely what they should. */
  lemma ScansExact(p: Problem, scheduled: set<nat>, v: View, starts: seq<Entry>, finishes: seq<Entry>, j: nat,
                   start: Interval, finish: Interval, pendingStart: seq<nat>, pendingFinish: seq<nat>)
    requires p.IsJob(j) && TimesInvariant(p, scheduled, v)
    requires Increasing(starts) && Known(starts) == v.starts && Increasing(finishes) && Known(finishes) == v.finishes
    requires PendingExact(p, StartConstraints, scheduled + {j}, pendingStart)
    requires PendingExact(p, FinishConstraints, scheduled + {j}, pendingFinish)
    ensures var t := ScanStarts(starts, j, start, pendingStart, p.cons[j]);
            Increasing(t) && Known(t) == StartTimes(v.starts, j, start,
                PendingSet(p, StartConstraints, scheduled + {j}), p.cons[j])
    ensures var t := ScanFinishes(finishes, j, start, finish, pendingFinish, p.cons[j], |v.cores| == 1);
            Increasing(t) && Known(t) == FinishTimes(v.finishes, j, start, finish,
                PendingSet(p, FinishConstraints, scheduled + {j}),
                                                     p.cons[j], |v.cores| == 1)
  {
    var later := scheduled + {j};
    assert Elems(pendingStart) == PendingSet(p, StartConstraints, later);
    assert Elems(pendingFinish) == PendingSet(p, FinishConstraints, later);
    forall q | q in pendingStart && q != j
      ensures q in v.starts
    {
      LiveBefore(p, StartConstraints, scheduled, j, q);
    }
    ScanStartsExact(starts, j, start, pendingStart, p.cons[j]);
    ScanFinishesExact(finishes, j, start, finish, pendingFinish, p.cons[j], |v.cores| == 1);
  }

  /** What the node of a new state provides for it. */
  ghost predicate NodeLists(p: Problem, later: set<nat>, pendingStart: seq<nat>, pendingFinish: seq<nat>,
                            ready: seq<nat>, nextSource: Bound)
    requires ValidProblem(p)
  {
    && PendingExact(p, StartConstraints, later, pendingStart)
    && PendingExact(p, FinishConstraints, later, pendingFinish)
    && ReadyExact(p, later, ready)
    && forall k: nat :: Open(p, later, {Gang, MutexSource}, k) ==> LeB(nextSource, Fin(KeyOf(p, ByLatest, k)))
  }

  /** A dispatch whose cores, running jobs and times fit the platform. */
  ghost predicate Accounted(p: Problem, scheduled: set<nat>, s: View, j: nat, start: Interval, finish: Interval,
                            used: nat)
    requires p.IsJob(j)
  {
    && |s.cores| == p.m && used <= |s.cores| && FreedCores(s.running, p.cons[j]) <= |s.cores|
    && TimesInvariant(p, scheduled, s)
    && StateInvariant(p, scheduled + {j}, Timed(p, scheduled + {j}, s, j, start, finish, used))
  }

  /** The dispatches that the exploration makes are such. */
  lemma DispatchAccounted(p: Problem, scheduled: set<nat>, s: View, j: nat, level: nat)
    requires DispatchReady(p, scheduled, s, j, level)
    ensures Accounted(p, scheduled, s, j, StartInterval(p, scheduled, s, j, level),
        FinishInterval(p, scheduled, s, j, level),
                      p.jobs[j].levels[level].cores)
  {
    TimedInvariant(p, scheduled, s, j, level);
  }

  class ScheduleState {
    const cores: CoreAvailabilityTracker
    const running: RunningJobsTracker
    const starts: JobTimingTracker
    const finishes: JobTimingTracker
    const certain: CertainDispatchTimes
    const priority: PriorityTracker

    /** The objects the state consists of. */
    ghost function Repr(): set<object> {
      {cores, running, starts, finishes, certain, priority}
    }

    /** The two states have no object in common. */
    ghost predicate Apart(other: ScheduleState) {
      && cores != other.cores && running != other.running && certain != other.certain && priority != other.priority
      && starts != other.starts && starts != other.finishes && finishes != other.starts && finishes != other.finishes
    }

    ghost predicate Valid()
      reads Repr()
    {
      starts != finishes && starts.Valid() && finishes.Valid()
    }

    /** What the trackers record. */
    ghost function Contents(): View
      reads Repr()
    {
      View(cores.avail, running.running, Known(starts.times), Known(finishes.times),
                certain.successor, certain.gang, certain.mutex, priority.lowest)
    }

    constructor Start(d: Data, platform: seq<Interval>)
      requires ValidData(d) && |platform| > 0
      ensures Valid() && fresh(Repr())
      ensures Contents() == InitialView(d.p, platform)
    {
      var gang := FirstKey(d.p, ByLatest, d.gangByLatest, {Gang});
      var mutex := FirstKey(d.p, ByLatest, d.mutexByLatest, {MutexSource});
      cores := new CoreAvailabilityTracker.FromIntervals(platform);
      running := new RunningJobsTracker();
      starts := new JobTimingTracker();
      finishes := new JobTimingTracker();
      certain := new CertainDispatchTimes(gang, mutex);
      priority := new PriorityTracker();
    }

    /** The state that results from dispatching `j` in `from`; the lists and the next release are
        those of the node that the dispatch leads to. */
    constructor AfterDispatch(from: ScheduleState, d: Data, ghost scheduled: set<nat>, j: nat,
                              start: Interval, finish: Interval, later: set<nat>,
                              pendingStart: seq<nat>, pendingFinish: seq<nat>, ready: seq<nat>, nextSource: Bound,
                                  used: nat)
      requires ValidData(d) && from.Valid() && d.p.IsJob(j) && later == scheduled + {j}
      requires Accounted(d.p, scheduled, from.Contents(), j, start, finish, used)
      requires NodeLists(d.p, later, pendingStart, pendingFinish, ready, nextSource)
      ensures Valid()
      ensures fresh(cores) && fresh(running) && fresh(starts) && fresh(finishes) && fresh(certain) && fresh(priority)
      ensures Contents() == NextView(d.p, later, ready, from.Contents(), j, start, finish, used)
    {
      hide TimesInvariant, Timed, Known;
      cores := new CoreAvailabilityTracker.Idle(|from.cores.avail|);
      running := new RunningJobsTracker();
      starts := new JobTimingTracker();
      finishes := new JobTimingTracker();
      certain := new CertainDispatchTimes(Inf, Inf);
      priority := new PriorityTracker();
      new;
      Reset(from, d, scheduled, j, start, finish, later, pendingStart, pendingFinish, ready, nextSource, used);
    }

    /** Become the state that results from dispatching `j` in `from`. */
    method Reset(from: ScheduleState, d: Data, ghost scheduled: set<nat>, j: nat,
                 start: Interval, finish: Interval, later: set<nat>,
                 pendingStart: seq<nat>, pendingFinish: seq<nat>, ready: seq<nat>, nextSource: Bound, used: nat)
      requires ValidData(d) && from.Valid() && d.p.IsJob(j) && later == scheduled + {j}
      requires starts != finishes && Apart(from)
      requires Accounted(d.p, scheduled, from.Contents(), j, start, finish, used)
      requires NodeLists(d.p, later, pendingStart, pendingFinish, ready, nextSource)
      modifies cores, running, starts, finishes, certain, priority
      ensures Valid()
      ensures Contents() == NextView(d.p, later, ready, old(from.Contents()), j, start, finish, used)
    {
      ghost var s := from.Contents();
      ghost var v := Timed(d.p, later, s, j, start, finish, used);
      Record(from, d.p, scheduled, j, start, finish, later, pendingStart, pendingFinish, used, s);
      Conclude(d, later, ready, nextSource, v);
    }

    /** Cores, running jobs and times after `j` was dispatched in `from`. */
    method Record(from: ScheduleState, p: Problem, ghost scheduled: set<nat>, j: nat, start: Interval, finish: Interval,
                  ghost later: set<nat>, pendingStart: seq<nat>, pendingFinish: seq<nat>, used: nat, ghost s: View)
      requires starts != finishes && Apart(from) && from.Valid() && s == from.Contents()
      requires p.IsJob(j) && TimesInvariant(p, scheduled, s) && later == scheduled + {j}
      requires used <= |s.cores| && FreedCores(s.running, p.cons[j]) <= |s.cores|
      requires PendingExact(p, StartConstraints, later, pendingStart)
          && PendingExact(p, FinishConstraints, later, pendingFinish)
      modifies cores, running, starts, finishes
      ensures var v := Timed(p, later, s, j, start, finish, used);
              ViewOf(v, cores, starts, finishes) && v.running == running.running
    {
      hide InsertByJob, KeysExact;
      var c := p.cons[j];
      var freed := running.UpdateAndCountPredecessors(from.running, j, start, finish, used, c);
      cores.Update(from.cores, start, finish, used, freed);
      ScansExact(p, scheduled, s, from.starts.times, from.finishes.times, j, start, finish, pendingStart,
          pendingFinish);
      starts.UpdateStartTimes(from.starts, j, start, pendingStart, c);
      finishes.UpdateFinishTimes(from.finishes, j, start, finish, pendingFinish, c, |cores.avail| == 1);
    }

    /** What the state concludes from its cores and times. */
    method Conclude(d: Data, scheduled: set<nat>, ready: seq<nat>, nextSource: Bound, ghost v: View)
      requires ValidData(d) && StateInvariant(d.p, scheduled, v) && ReadyExact(d.p, scheduled, ready)
      requires forall k: nat :: Open(d.p, scheduled, {Gang, MutexSource}, k) ==> LeB(nextSource,
          Fin(KeyOf(d.p, ByLatest, k)))
      requires ViewOf(v, cores, starts, finishes) && v.running == running.running
      modifies certain, priority
      ensures Contents() == Concluded(d.p, scheduled, ready, v)
    {
      SameConclusions(d.p, scheduled, v, ready);
      certain.UpdateSuccessor(d.p, scheduled, ready, cores, starts, finishes, v);
      certain.UpdateGang(d, nextSource, scheduled, cores, v);
      certain.UpdateMutex(d, nextSource, scheduled, cores, starts, finishes, v);
      priority.Update(d.p, scheduled, ready, cores, starts, finishes, v);
    }

    /** Whether the two states overlap in every core availability, or one contains the other, and, if
        asked for, also in every recorded time. */
    method CanMergeWith(other: ScheduleState, conservative: bool, useTimes: bool) returns (ok: bool)
      requires Valid() && other.Valid() && |cores.avail| == |other.cores.avail|
      requires SameJobs(Contents(), other.Contents())
      ensures ok == Overlap(Contents(), other.Contents(), conservative, useTimes)
    {
      var otherInThis: bool;
      ok, otherInThis := cores.OverlapWith(other.cores, conservative);
      CompatibleExact(starts.times, other.starts.times, conservative, otherInThis);
      CompatibleExact(finishes.times, other.finishes.times, conservative, otherInThis);
      if ok && useTimes {
        ok := starts.OverlapWith(other.starts, conservative, otherInThis);
        if ok {
          ok := finishes.OverlapWith(other.finishes, conservative, otherInThis);
        }
      }
    }

    /** Merge `other` into this state if the two overlap. */
    method TryToMerge(p: Problem, other: ScheduleState, conservative: bool, useTimes: bool) returns (merged: bool)
      requires Valid() && other.Valid() && Apart(other)
      requires Mergeables(p, Contents(), other.Contents())
      modifies cores, running, starts, finishes, certain, priority
      ensures Valid()
      ensures merged == Overlap(old(Contents()), old(other.Contents()), conservative, useTimes)
      ensures Contents() == if merged then Merged(p, old(Contents()), old(other.Contents())) else old(Contents())
    {
      merged := CanMergeWith(other, conservative, useTimes);
      if merged {
        Merge(p, other);
      }
    }

    method Merge(p: Problem, other: ScheduleState)
      requires Valid() && other.Valid() && Apart(other)
      requires Mergeables(p, Contents(), other.Contents())
      modifies cores, running, starts, finishes, certain, priority
      ensures Valid()
      ensures Contents() == Merged(p, old(Contents()), old(other.Contents()))
    {
      WidenListsExact(starts.times, other.starts.times);
      WidenListsExact(finishes.times, other.finishes.times);
      cores.Merge(other.cores);
      running.Merge(other.running);
      starts.Merge(other.starts);
      finishes.Merge(other.finishes);
      certain.Merge(other.certain);
      priority.Merge(p, other.priority);
    }
  }

  /** Two states record times of the same jobs. */
  ghost predicate SameJobs(a: View, b: View) {
    a.starts.Keys == b.starts.Keys && a.finishes.Keys == b.finishes.Keys
  }

  /** The core availabilities of two states overlap and, if asked for, so do all recorded times. */
  ghost predicate Overlap(a: View, b: View, conservative: bool, useTimes: bool) {
    && Mergeable(a.cores, b.cores, conservative)
    && (useTimes ==>
          var inThis := conservative && AllContained(b.cores, a.cores);
          && TimesOverlap(a.starts, b.starts, conservative, inThis)
          && TimesOverlap(a.finishes, b.finishes, conservative, inThis))
  }

  /** No time lies between the two intervals that are recorded for a job. */
  ghost predicate NoTimeGap(a: map<nat, Interval>, b: map<nat, Interval>) {
    forall q, x :: q in a && q in b && a[q].Widen(b[q]).Has(x) ==> a[q].Has(x) || b[q].Has(x)
  }

  lemma IntersectsExact(a: Interval, b: Interval)
    requires a.Ok() && b.Ok()
    ensures a.Intersects(b) <==> forall x :: a.Widen(b).Has(x) ==> a.Has(x) || b.Has(x)
    ensures a.Contains(b) <==> a.Widen(b) == a
  {
    if forall x :: a.Widen(b).Has(x) ==> a.Has(x) || b.Has(x) {
      assert a.Widen(b).Has(a.max + 1) ==> a.Has(a.max + 1) || b.Has(a.max + 1);
      assert a.Widen(b).Has(b.max + 1) ==> a.Has(b.max + 1) || b.Has(b.max + 1);
    }
  }

  lemma TimesOverlapExact(a: map<nat, Interval>, b: map<nat, Interval>)
    requires a.Keys == b.Keys && IntervalsOk(a) && IntervalsOk(b)
    ensures TimesOverlap(a, b, false, false) <==> NoTimeGap(a, b)
    ensures TimesOverlap(a, b, true, true) <==> WidenedTimes(a, b) == a
    ensures TimesOverlap(a, b, true, false) <==> WidenedTimes(a, b) == b
  {
    forall q | q in a
      ensures a[q].Intersects(b[q]) <==> forall x :: a[q].Widen(b[q]).Has(x) ==> a[q].Has(x) || b[q].Has(x)
      ensures a[q].Contains(b[q]) <==> a[q].Widen(b[q]) == a[q]
      ensures b[q].Contains(a[q]) <==> a[q].Widen(b[q]) == b[q]
    {
      IntersectsExact(a[q], b[q]);
      IntersectsExact(b[q], a[q]);
    }
  }

  /** The merge of two states is `r` as far as cores and, if they count, recorded times are concerned. */
  ghost predicate HullIs(a: View, b: View, r: View, useTimes: bool)
    requires |a.cores| == |b.cores|
  {
    && Widened(a.cores, b.cores) == r.cores
    && (useTimes ==> WidenedTimes(a.starts, b.starts) == r.starts && WidenedTimes(a.finishes, b.finishes) == r.finishes)
  }

  /** Two states overlap exactly if merging them leaves no gap for any core and, if times count, for any recorded time;
      when merging conservatively, if the merge of both is the one of them that contains the cores of the other. */
  lemma OverlapExact(a: View, b: View, useTimes: bool)
    requires |a.cores| == |b.cores| && SameJobs(a, b) && AllOk(a.cores) && AllOk(b.cores)
    requires IntervalsOk(a.starts) && IntervalsOk(b.starts) && IntervalsOk(a.finishes) && IntervalsOk(b.finishes)
    ensures Overlap(a, b, false, useTimes) <==>
              && NoGap(a.cores, b.cores)
              && (useTimes ==> NoTimeGap(a.starts, b.starts) && NoTimeGap(a.finishes, b.finishes))
    ensures Overlap(a, b, true, useTimes) <==>
              || HullIs(a, b, a, useTimes)
              || (Widened(a.cores, b.cores) != a.cores && HullIs(a, b, b, useTimes))
  {
    MergeableExact(a.cores, b.cores);
    TimesOverlapExact(a.starts, b.starts);
    TimesOverlapExact(a.finishes, b.finishes);
    hide NoGap, NoTimeGap, TimesOverlap, AllContained, IntervalsOk, WidenedTimes, Widened;
  }

  /** Views of states of the same node, as far as a merge needs it. */
  ghost predicate Mergeables(p: Problem, a: View, b: View) {
    && |a.cores| == |b.cores| && SameJobs(a, b)
    && (a.lowest.Some? ==> p.IsJob(a.lowest.value)) && (b.lowest.Some? ==> p.IsJob(b.lowest.value))
  }

  lemma SameConclusions(p: Problem, scheduled: set<nat>, v: View, ready: seq<nat>)
    requires ValidProblem(p) && StateInvariant(p, scheduled, v) && ReadyExact(p, scheduled, ready)
    ensures AllJobs(p, ready)
  {
  }
}
