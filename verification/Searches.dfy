// The queries on a state that decide about a dispatch: ready times, and the ordered
// searches that stop as soon as nothing can change the decision.
module Searches {
  import opened Times
  import opened Jobs
  import opened Workload
  import opened CoreAvailability
  import opened JobTiming
  import opened PendingSuccessors
  import opened ReadyJobs
  import opened Abstraction
  import opened LatestReady
  import opened NextDispatch
  import opened SpaceData
  import opened DispatchTrackers
  import opened ScheduleStates

  /** The interval in which `j` becomes ready in state `s`. */
  method ReadyInterval(p: Problem, s: ScheduleState, j: nat) returns (r: Interval)
    requires p.IsJob(j) && s.Valid()
    ensures r == ReadyTimes(p, s.Contents(), j)
  {
    var c := p.cons[j];
    var lo := EarliestOf(c.predStart, s.starts, p.jobs[j].arrival.min);
    var hi := LatestOf(c.predStart, s.starts, p.jobs[j].arrival.max);
    lo := EarliestOf(c.exclStart, s.starts, lo);
    hi := LatestOf(c.exclStart, s.starts, hi);
    lo := EarliestOf(c.predFinish, s.finishes, lo);
    hi := LatestOf(c.predFinish, s.finishes, hi);
    lo := EarliestOf(c.exclFinish, s.finishes, lo);
    hi := LatestOf(c.exclFinish, s.finishes, hi);
    r := Interval(lo, hi);
  }

  // ---- The conditional latest ready time ----

  method CheckFinished(p: Problem, scheduled: set<nat>, s: ScheduleState, q: nat, finish: Interval) returns (r: bool)
    requires p.IsJob(q) && |s.cores.avail| == p.m
    ensures r == CertainlyFinished(p, scheduled, s.Contents(), q, finish)
  {
    if p.m <= 1 {
      return true;
    }
    if finish.max < s.cores.Availability(2).min {
      return true;
    }
    var list := p.cons[q].succFinish;
    var i := 0;
    while i < |list|
      invariant 0 <= i <= |list|
      invariant forall l :: 0 <= l < i ==> list[l].ref !in scheduled
    {
      if list[i].ref in scheduled {
        return true;
      }
      i := i + 1;
    }
    return false;
  }

  /** The start constraints that remain once those certainly over have been skipped. */
  method StartsDueIn(p: Problem, scheduled: set<nat>, s: ScheduleState, low: JobConstraints, list: seq<Delay>,
                     precedence: bool, acc: int) returns (r: int)
    requires ValidList(list, |p.jobs|) && |p.cons| == |p.jobs| && s.Valid()
    requires forall q :: q in Known(s.starts.times) ==> q in scheduled
    ensures r == StartsDue(p, s.Contents(), low, list, precedence, acc, |list|)
  {
    r := acc;
    var i := 0;
    while i < |list|
      invariant 0 <= i <= |list| && r == StartsDue(p, s.Contents(), low, list, precedence, acc, i)
    {
      var d := list[i];
      if (precedence || d.ref in scheduled) && !SkipStart(p, low, d.ref, d.delay.max, precedence) {
        var t := s.starts.Get(d.ref);
        if t.Some? {
          r := Max(r, t.value.max + d.delay.max);
        }
      }
      i := i + 1;
    }
  }

  method FinishesDueIn(p: Problem, scheduled: set<nat>, s: ScheduleState, low: JobConstraints, list: seq<Delay>,
                       precedence: bool, acc: int) returns (r: int)
    requires ValidList(list, |p.jobs|) && |p.cons| == |p.jobs| && |s.cores.avail| == p.m && s.Valid()
    requires forall q :: q in Known(s.finishes.times) ==> q in scheduled
    ensures r == FinishesDue(p, scheduled, s.Contents(), low, list, acc, |list|)
  {
    r := acc;
    var i := 0;
    while i < |list|
      invariant 0 <= i <= |list| && r == FinishesDue(p, scheduled, s.Contents(), low, list, acc, i)
    {
      var d := list[i];
      if precedence || d.ref in scheduled {
        var t := s.finishes.Get(d.ref);
        if t.Some? {
          var skip := false;
          if d.delay.max == 0 {
            skip := CheckFinished(p, scheduled, s, d.ref, t.value);
          }
          var afterFinish, afterStart := MinDelayAfterFinish(low, d.ref), MinDelayAfterStart(low, d.ref);
          skip := skip || (afterFinish != -1 && afterFinish >= d.delay.max)
                  || (afterStart != -1 && afterStart >= d.delay.max + p.jobs[d.ref].wcet);
          assert skip == SkipFinish(p, scheduled, s.Contents(), low, d.ref, t.value, d.delay.max);
          if !skip {
            r := Max(r, t.value.max + d.delay.max);
          }
        }
      }
      i := i + 1;
    }
  }

  /** The recorded jobs of a state have been dispatched. */
  ghost predicate KnownScheduled(scheduled: set<nat>, s: ScheduleState)
    reads s.starts, s.finishes
  {
    && (forall q :: q in Known(s.starts.times) ==> q in scheduled)
    && (forall q :: q in Known(s.finishes.times) ==> q in scheduled)
  }

  method LatestReadyIf(p: Problem, scheduled: set<nat>, s: ScheduleState, high: nat, low: nat,
                       used: nat) returns (r: int)
    requires ValidProblem(p) && p.IsJob(high) && p.IsJob(low) && |s.cores.avail| == p.m && s.Valid()
    requires KnownScheduled(scheduled, s)
    ensures r == ConditionalLatestReady(p, scheduled, s.Contents(), high, low, used)
  {
    assert ValidConstraints(p.cons[high], |p.jobs|);
    assert ValidJob(p.jobs[high], p.m);
    var h, l := p.cons[high], p.cons[low];
    r := p.jobs[high].arrival.max;
    if p.jobs[high].MinCores() > used {
      r := Max(r, s.cores.Availability(p.jobs[high].MinCores()).max);
    }
    r := StartsDueIn(p, scheduled, s, l, h.predStart, true, r);
    r := StartsDueIn(p, scheduled, s, l, h.exclStart, false, r);
    r := FinishesDueIn(p, scheduled, s, l, h.predFinish, true, r);
    r := FinishesDueIn(p, scheduled, s, l, h.exclFinish, false, r);
  }

  // ---- What a search has found ----

  /** `k` is a job of the category that takes precedence over `j`. */
  predicate IsRival(p: Problem, scheduled: set<nat>, j: nat, cat: Category, k: nat)
    requires ValidProblem(p) && p.IsJob(j)
  {
    InCategory(p, scheduled, cat, k) && PriorTo(p, k, j)
  }

  /** The result of a search so far lies within `until` and is attained, unless it is `until` itself. */
  ghost predicate RivalReached(p: Problem, scheduled: set<nat>, v: View, j: nat, used: nat, cat: Category, until: Bound,
                           r: Bound)
    requires ValidProblem(p) && p.IsJob(j) && |v.cores| == p.m
  {
    && LeB(r, until)
    && (r == until
        || exists k: nat :: IsRival(p, scheduled, j, cat, k) && r == Fin(RivalTime(p, scheduled, v, j, used, k)))
  }

  /** No rival's time among the jobs listed lies before `r`. */
  ghost predicate BelowRivals(p: Problem, scheduled: set<nat>, v: View, j: nat, used: nat, cat: Category,
                              done: seq<nat>, r: Bound)
    requires ValidProblem(p) && p.IsJob(j) && |v.cores| == p.m
  {
    forall k: nat :: k in done && IsRival(p, scheduled, j, cat, k) ==> LeB(r,
        Fin(RivalTime(p, scheduled, v, j, used, k)))
  }

  /** The search either returns the least time, or a larger one that already decides the question. */
  ghost predicate Decides(p: Problem, scheduled: set<nat>, v: View, j: nat, used: nat, cat: Category, lower: int,
                          until: Bound, r: Bound)
    requires ValidProblem(p) && p.IsJob(j) && |v.cores| == p.m
  {
    var least := MinB(until, Rival(p, scheduled, v, j, used, cat));
    r == least || (LeB(least, r) && Reached(r, lower))
  }

  lemma RivalNotBelow(p: Problem, scheduled: set<nat>, v: View, j: nat, used: nat, cat: Category, k: nat)
    requires ValidProblem(p) && p.IsJob(j) && |v.cores| == p.m && IsRival(p, scheduled, j, cat, k)
    ensures LeB(Rival(p, scheduled, v, j, used, cat), Fin(RivalTime(p, scheduled, v, j, used, k)))
  {
    NextRivalExact(p, scheduled, v, j, used, cat, |p.jobs|);
    assert LeB(Rival(p, scheduled, v, j, used, cat), RivalBound(p, scheduled, v, j, used, cat, k));
  }

  lemma AttainedNotBelow(p: Problem, scheduled: set<nat>, v: View, j: nat, used: nat, cat: Category, until: Bound,
                         r: Bound)
    requires ValidProblem(p) && p.IsJob(j) && |v.cores| == p.m
    requires RivalReached(p, scheduled, v, j, used, cat, until, r)
    ensures LeB(MinB(until, Rival(p, scheduled, v, j, used, cat)), r)
  {
    hide Problem.IsJob;
    if r != until {
      var k: nat :| IsRival(p, scheduled, j, cat, k) && r == Fin(RivalTime(p, scheduled, v, j, used, k));
      RivalNotBelow(p, scheduled, v, j, used, cat, k);
    }
  }

  /** An attained value below every rival's time is the least. */
  lemma RivalIs(p: Problem, scheduled: set<nat>, v: View, j: nat, used: nat, cat: Category, until: Bound, r: Bound)
    requires ValidProblem(p) && p.IsJob(j) && |v.cores| == p.m
    requires RivalReached(p, scheduled, v, j, used, cat, until, r)
    requires forall k: nat :: IsRival(p, scheduled, j, cat, k) ==> LeB(r, Fin(RivalTime(p, scheduled, v, j, used, k)))
    ensures r == MinB(until, Rival(p, scheduled, v, j, used, cat))
  {
    hide ValidProblem;
    AttainedNotBelow(p, scheduled, v, j, used, cat, until, r);
    NextRivalExact(p, scheduled, v, j, used, cat, |p.jobs|);
    var least := Rival(p, scheduled, v, j, used, cat);
    if least.Fin? {
      var k: nat :| k < |p.jobs| && RivalBound(p, scheduled, v, j, used, cat, k) == least;
      assert IsRival(p, scheduled, j, cat, k);
    }
  }

  /** No rival takes precedence before its latest arrival. */
  lemma RivalAfterArrival(p: Problem, scheduled: set<nat>, v: View, j: nat, used: nat, k: nat)
    requires ValidProblem(p) && p.IsJob(j) && p.IsJob(k) && |v.cores| == p.m
    ensures p.jobs[k].arrival.max <= RivalTime(p, scheduled, v, j, used, k)
  {
    assert ValidJob(p.jobs[k], p.m);
    ConditionalLatestReadyArrival(p, scheduled, v, k, j, used);
  }

  /** An ordered search that stopped at index `i` because later jobs arrive too late has found the minimum. */
  lemma RivalSearchComplete(d: Data, list: seq<nat>, cat: Category, scheduled: set<nat>, v: View, j: nat, used: nat,
                            until: Bound, i: nat, r: Bound)
    requires ValidData(d) && d.p.IsJob(j) && |v.cores| == d.p.m && cat != Successor && ListsCategory(d.p, list, cat)
    requires RivalReached(d.p, scheduled, v, j, used, cat, until, r)
    requires i <= |list| && BelowRivals(d.p, scheduled, v, j, used, cat, list[..i], r)
    requires i < |list| ==> LeB(r, Fin(KeyOf(d.p, ByLatest, list[i])))
    ensures r == MinB(until, Rival(d.p, scheduled, v, j, used, cat))
  {
    hide ValidProblem;
    forall k: nat | IsRival(d.p, scheduled, j, cat, k)
      ensures LeB(r, Fin(RivalTime(d.p, scheduled, v, j, used, k)))
    {
      SourceInCategory(d.p, scheduled, cat, k);
      assert k in list;
      var l :| 0 <= l < |list| && list[l] == k;
      RivalAfterArrival(d.p, scheduled, v, j, used, k);
      if l < i {
        assert list[..i][l] == k;
      }
    }
    RivalIs(d.p, scheduled, v, j, used, cat, until, r);
  }

  lemma RivalStep(p: Problem, scheduled: set<nat>, v: View, j: nat, used: nat, cat: Category, done: seq<nat>,
                  until: Bound,
                  k: nat, r: Bound, r': Bound)
    requires ValidProblem(p) && p.IsJob(j) && |v.cores| == p.m
    requires RivalReached(p, scheduled, v, j, used, cat, until, r)
    requires BelowRivals(p, scheduled, v, j, used, cat, done, r)
    requires r' == if IsRival(p, scheduled, j, cat, k) then MinB(r, Fin(RivalTime(p, scheduled, v, j, used, k))) else r
    ensures RivalReached(p, scheduled, v, j, used, cat, until, r')
    ensures BelowRivals(p, scheduled, v, j, used, cat, done + [k], r')
  {
  }

  // ---- The searches ----

  /** When some sequential independent job of higher priority than `j` is certainly released. */
  method NextSequentialRival(d: Data, scheduled: set<nat>, nextSource: Bound, j: nat, until: Bound) returns (r: Bound)
    requires ValidData(d) && d.p.IsJob(j)
    requires forall k: nat :: Open(d.p, scheduled, {Sequential}, k) ==> LeB(nextSource, Fin(KeyOf(d.p, ByLatest, k)))
    ensures forall v: View, used: nat :: |v.cores| == d.p.m ==> r == MinB(until,
        Rival(d.p, scheduled, v, j, used, Sequential))
  {
    hide ValidProblem;
    var list := d.sequentialByLatest;
    r := until;
    var i := LowerBound(d.p, ByLatest, list, nextSource);
    while i < |list|
      invariant 0 <= i <= |list| && r == until
      invariant forall k: nat :: k in list[..i] ==> !IsRival(d.p, scheduled, j, Sequential, k)
    {
      var k := list[i];
      assert k in list;
      var latest := Fin(d.p.jobs[k].arrival.max);
      SourceInCategory(d.p, scheduled, Sequential, k);
      if LeB(r, latest) && r != latest {
        break;
      }
      if k !in scheduled && PriorTo(d.p, k, j) {
        r := latest;
        break;
      }
      assert list[..i + 1] == list[..i] + [k];
      i := i + 1;
    }
    forall v: View, used: nat | |v.cores| == d.p.m
      ensures r == MinB(until, Rival(d.p, scheduled, v, j, used, Sequential))
    {
      if r != until {
        assert IsRival(d.p, scheduled, j, Sequential, list[i]);
        assert r == Fin(RivalTime(d.p, scheduled, v, j, used, list[i]));
      }
      RivalSearchComplete(d, list, Sequential, scheduled, v, j, used, until, i, r);
    }
  }

  /** Take one independent gang job into account; `last` when no later one can lower the result. */
  method ConsiderGang(p: Problem, scheduled: set<nat>, s: ScheduleState, j: nat, used: nat, k: nat, r: Bound)
      returns (r': Bound, last: bool)
    requires ValidProblem(p) && p.IsJob(j) && p.IsJob(k) && Cat(p, k) == Gang && |s.cores.avail| == p.m
    ensures r' == if IsRival(p, scheduled, j, Gang, k) then MinB(r,
        Fin(RivalTime(p, scheduled, s.Contents(), j, used, k))) else r
    ensures last ==> LeB(r', Fin(p.jobs[k].arrival.max))
  {
    assert ValidJob(p.jobs[k], p.m);
    SourceInCategory(p, scheduled, Gang, k);
    r', last := r, false;
    if k !in scheduled && PriorTo(p, k, j) {
      if p.jobs[k].MinCores() > used {
        r' := MinB(r, Fin(Max(p.jobs[k].arrival.max, s.cores.Availability(p.jobs[k].MinCores()).max)));
      } else {
        r', last := MinB(r, Fin(p.jobs[k].arrival.max)), true;
      }
    }
  }

  /** What an ordered list of the jobs of a category holds. */
  lemma ListedJobs(p: Problem, list: seq<nat>, cat: Category)
    requires ValidProblem(p) && ListsCategory(p, list, cat)
    ensures Ordered(p, ByLatest, list) && forall i :: 0 <= i < |list| ==> p.IsJob(list[i]) && Cat(p, list[i]) == cat
  {
    forall i | 0 <= i < |list|
      ensures p.IsJob(list[i]) && Cat(p, list[i]) == cat
    {
      assert list[i] in list;
    }
  }

  /** When some independent gang job of higher priority than `j` certainly takes precedence, if `j`
      is dispatched on `used` cores. */
  method NextGangRival(d: Data, scheduled: set<nat>, nextSource: Bound, s: ScheduleState, j: nat, used: nat,
                       lower: int, until: Bound)
      returns (r: Bound)
    requires ValidData(d) && d.p.IsJob(j) && s.Valid() && |s.cores.avail| == d.p.m && !Reached(until, lower)
    requires forall k: nat :: Open(d.p, scheduled, {Gang}, k) ==> LeB(nextSource, Fin(KeyOf(d.p, ByLatest, k)))
    ensures Decides(d.p, scheduled, s.Contents(), j, used, Gang, lower, until, r)
  {
    hide ValidProblem, ListsCategory, ValidJob, ScheduleState.Valid;
    var list := d.gangByLatest;
    ghost var v := s.Contents();
    ListedJobs(d.p, list, Gang);
    r := until;
    var i := LowerBound(d.p, ByLatest, list, nextSource);
    while i < |list|
      invariant 0 <= i <= |list|
      invariant RivalReached(d.p, scheduled, v, j, used, Gang, until, r)
      invariant BelowRivals(d.p, scheduled, v, j, used, Gang, list[..i], r)
    {
      var k := list[i];
      assert list[..i + 1] == list[..i] + [k];
      var latest := Fin(d.p.jobs[k].arrival.max);
      if LeB(r, latest) && r != latest {
        break;
      }
      ghost var before := r;
      var last: bool;
      r, last := ConsiderGang(d.p, scheduled, s, j, used, k, r);
      RivalStep(d.p, scheduled, v, j, used, Gang, list[..i], until, k, before, r);
      i := i + 1;
      if last {
        break;
      }
      if Reached(r, lower) {
        AttainedNotBelow(d.p, scheduled, v, j, used, Gang, until, r);
        return;
      }
    }
    RivalSearchComplete(d, list, Gang, scheduled, v, j, used, until, i, r);
  }

  /** The same for source jobs with exclusion constraints. */
  method NextMutexRival(d: Data, scheduled: set<nat>, nextSource: Bound, s: ScheduleState, j: nat, used: nat,
                        lower: int, until: Bound)
      returns (r: Bound)
    requires ValidData(d) && d.p.IsJob(j) && s.Valid() && |s.cores.avail| == d.p.m && !Reached(until, lower)
    requires KnownScheduled(scheduled, s)
    requires forall k: nat :: Open(d.p, scheduled, {MutexSource}, k) ==> LeB(nextSource, Fin(KeyOf(d.p, ByLatest, k)))
    ensures Decides(d.p, scheduled, s.Contents(), j, used, MutexSource, lower, until, r)
  {
    hide ValidProblem, ListsCategory;
    var list := d.mutexByLatest;
    ghost var v := s.Contents();
    ListedJobs(d.p, list, MutexSource);
    r := until;
    var i := LowerBound(d.p, ByLatest, list, nextSource);
    while i < |list|
      invariant 0 <= i <= |list|
      invariant RivalReached(d.p, scheduled, v, j, used, MutexSource, until, r)
      invariant BelowRivals(d.p, scheduled, v, j, used, MutexSource, list[..i], r)
    {
      var k := list[i];
      assert list[..i + 1] == list[..i] + [k];
      var latest := Fin(d.p.jobs[k].arrival.max);
      if LeB(r, latest) && r != latest {
        break;
      }
      SourceInCategory(d.p, scheduled, MutexSource, k);
      ghost var before := r;
      if k !in scheduled && PriorTo(d.p, k, j) {
        var ready := LatestReadyIf(d.p, scheduled, s, k, j, used);
        r := MinB(r, Fin(ready));
      }
      RivalStep(d.p, scheduled, v, j, used, MutexSource, list[..i], until, k, before, r);
      i := i + 1;
      if Reached(r, lower) {
        AttainedNotBelow(d.p, scheduled, v, j, used, MutexSource, until, r);
        return;
      }
    }
    RivalSearchComplete(d, list, MutexSource, scheduled, v, j, used, until, i, r);
  }

  /** The same for successor jobs. */
  method NextSuccessorRival(p: Problem, scheduled: set<nat>, ready: seq<nat>, s: ScheduleState, j: nat, used: nat,
                            lower: int)
      returns (r: Bound)
    requires ValidProblem(p) && p.IsJob(j) && s.Valid() && |s.cores.avail| == p.m
    requires KnownScheduled(scheduled, s) && ReadyExact(p, scheduled, ready)
    ensures Decides(p, scheduled, s.Contents(), j, used, Successor, lower, Inf, r)
  {
    ghost var v := s.Contents();
    r := Inf;
    var i := 0;
    while i < |ready|
      invariant 0 <= i <= |ready|
      invariant RivalReached(p, scheduled, v, j, used, Successor, Inf, r)
      invariant BelowRivals(p, scheduled, v, j, used, Successor, ready[..i], r)
    {
      var k := ready[i];
      assert ready[..i + 1] == ready[..i] + [k];
      assert k in ready && ValidJob(p.jobs[k], p.m);
      ghost var before := r;
      var prior := PriorTo(p, k, j);
      if prior {
        var latest := LatestReadyIf(p, scheduled, s, k, j, used);
        r := MinB(r, Fin(latest));
      }
      RivalStep(p, scheduled, v, j, used, Successor, ready[..i], Inf, k, before, r);
      i := i + 1;
      if prior && Reached(r, lower) {
        AttainedNotBelow(p, scheduled, v, j, used, Successor, Inf, r);
        return;
      }
    }
    assert ready[..i] == ready;
    forall k: nat | IsRival(p, scheduled, j, Successor, k)
      ensures k in ready
    {
      assert ValidJob(p.jobs[k], p.m);
    }
    RivalIs(p, scheduled, v, j, used, Successor, Inf, r);
  }
}
