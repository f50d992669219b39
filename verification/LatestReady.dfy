// The latest time by which a higher-priority job is ready, given that a certain
// lower-priority job is dispatched next.
module LatestReady {
  import opened Times
  import opened Counting
  import opened Jobs
  import opened Workload
  import opened Scheduler
  import opened CoreAvailability
  import opened RunningJobs
  import opened PendingSuccessors
  import opened Abstraction

  /** A dispatched job is certainly finished when the next core becomes available. */
  predicate CertainlyFinished(p: Problem, scheduled: set<nat>, s: View, q: nat, finish: Interval)
    requires p.IsJob(q) && |s.cores| == p.m
  {
    || p.m <= 1
    || finish.max < s.cores[1].min
    || exists i :: 0 <= i < |p.cons[q].succFinish| && p.cons[q].succFinish[i].ref in scheduled
  }

  /** The constraint of the high-priority job with the start of `q` can be disregarded. */
  predicate SkipStart(p: Problem, low: JobConstraints, q: nat, delayMax: int, precedence: bool)
    requires p.IsJob(q)
  {
    || (precedence && delayMax == 0)
    || (MinDelayAfterStart(low, q) != -1 && MinDelayAfterStart(low, q) >= delayMax)
    || (MinDelayAfterFinish(low, q) != -1 && MinDelayAfterFinish(low, q) + p.jobs[q].bcet >= delayMax)
  }

  /** The constraint of the high-priority job with the completion of `q` can be disregarded. */
  predicate SkipFinish(p: Problem, scheduled: set<nat>, s: View, low: JobConstraints, q: nat, finish: Interval,
                       delayMax: int)
    requires p.IsJob(q) && |s.cores| == p.m
  {
    || (delayMax == 0 && CertainlyFinished(p, scheduled, s, q, finish))
    || (MinDelayAfterFinish(low, q) != -1 && MinDelayAfterFinish(low, q) >= delayMax)
    || (MinDelayAfterStart(low, q) != -1 && MinDelayAfterStart(low, q) >= delayMax + p.jobs[q].wcet)
  }

  function StartsDue(p: Problem, s: View, low: JobConstraints, list: seq<Delay>, precedence: bool, acc: int,
                     n: nat): int
    requires n <= |list| && ValidList(list, |p.jobs|) && |p.cons| == |p.jobs|
  {
    if n == 0 then acc
    else
      var r := StartsDue(p, s, low, list, precedence, acc, n - 1);
      var d := list[n - 1];
      if d.ref !in s.starts || SkipStart(p, low, d.ref, d.delay.max, precedence) then r
      else Max(r, s.starts[d.ref].max + d.delay.max)
  }

  function FinishesDue(p: Problem, scheduled: set<nat>, s: View, low: JobConstraints, list: seq<Delay>, acc: int,
                       n: nat): int
    requires n <= |list| && ValidList(list, |p.jobs|) && |p.cons| == |p.jobs| && |s.cores| == p.m
  {
    if n == 0 then acc
    else
      var r := FinishesDue(p, scheduled, s, low, list, acc, n - 1);
      var d := list[n - 1];
      if d.ref !in s.finishes || SkipFinish(p, scheduled, s, low, d.ref, s.finishes[d.ref], d.delay.max) then r
      else Max(r, s.finishes[d.ref].max + d.delay.max)
  }

  /** The latest ready time of `high` if `low` is dispatched next on `used` cores. */
  function ConditionalLatestReady(p: Problem, scheduled: set<nat>, s: View, high: nat, low: nat, used: nat): int
    requires ValidProblem(p) && p.IsJob(high) && p.IsJob(low) && |s.cores| == p.m
  {
    assert ValidConstraints(p.cons[high], |p.jobs|);
    assert ValidJob(p.jobs[high], p.m);
    var h, l := p.cons[high], p.cons[low];
    var r0 := p.jobs[high].arrival.max;
    var r1 := if p.jobs[high].MinCores() > used then Max(r0, s.cores[p.jobs[high].MinCores() - 1].max) else r0;
    var r2 := StartsDue(p, s, l, h.predStart, true, r1, |h.predStart|);
    var r3 := StartsDue(p, s, l, h.exclStart, false, r2, |h.exclStart|);
    var r4 := FinishesDue(p, scheduled, s, l, h.predFinish, r3, |h.predFinish|);
    FinishesDue(p, scheduled, s, l, h.exclFinish, r4, |h.exclFinish|)
  }

  // ---- Soundness ----

  lemma {:induction false} StartsDueBound(p: Problem, s: View, low: JobConstraints, list: seq<Delay>, precedence: bool,
                                          acc: int, n: nat, i: nat)
    requires n <= |list| && ValidList(list, |p.jobs|) && |p.cons| == |p.jobs|
    ensures acc <= StartsDue(p, s, low, list, precedence, acc, n)
    ensures i < n && list[i].ref in s.starts && !SkipStart(p, low, list[i].ref, list[i].delay.max, precedence) ==>
              s.starts[list[i].ref].max + list[i].delay.max <= StartsDue(p, s, low, list, precedence, acc, n)
  {
    if n > 0 {
      StartsDueBound(p, s, low, list, precedence, acc, n - 1, i);
    }
  }

  lemma {:induction false} FinishesDueBound(p: Problem, scheduled: set<nat>, s: View, low: JobConstraints,
                                            list: seq<Delay>,
                                            acc: int, n: nat, i: nat)
    requires n <= |list| && ValidList(list, |p.jobs|) && |p.cons| == |p.jobs| && |s.cores| == p.m
    ensures acc <= FinishesDue(p, scheduled, s, low, list, acc, n)
    ensures i < n && list[i].ref in s.finishes
            && !SkipFinish(p, scheduled, s, low, list[i].ref, s.finishes[list[i].ref], list[i].delay.max) ==>
              s.finishes[list[i].ref].max + list[i].delay.max <= FinishesDue(p, scheduled, s, low, list, acc, n)
  {
    if n > 0 {
      FinishesDueBound(p, scheduled, s, low, list, acc, n - 1, i);
    }
  }

  /** A ready job has waited for the least delay its constraints impose after a dispatched job. */
  lemma WaitedAfter(p: Problem, sc: Scenario, c: Config, low: nat, q: nat, t: int)
    requires ValidProblem(p) && ValidScenario(p, sc) && p.IsJob(low) && ReadyBy(p, sc, c, low, t)
    requires q in c.start && q in c.finish
    ensures MinDelayAfterStart(p.cons[low], q) != -1 ==> c.start[q] + MinDelayAfterStart(p.cons[low], q) <= t
    ensures MinDelayAfterFinish(p.cons[low], q) != -1 ==> c.finish[q] + MinDelayAfterFinish(p.cons[low], q) <= t
    ensures MinDelayAfterStart(p.cons[low], q) >= -1 && MinDelayAfterFinish(p.cons[low], q) >= -1
  {
    var l := p.cons[low];
    assert ValidConstraints(l, |p.jobs|);
    WaitedIn(p, sc, PredStart, low, l.predStart, c.start, q, t);
    WaitedIn(p, sc, ExclStart, low, l.exclStart, c.start, q, t);
    WaitedIn(p, sc, PredFinish, low, l.predFinish, c.finish, q, t);
    WaitedIn(p, sc, ExclFinish, low, l.exclFinish, c.finish, q, t);
  }

  lemma WaitedIn(p: Problem, sc: Scenario, kind: Kind, low: nat, list: seq<Delay>, times: map<nat, int>, q: nat, t: int)
    requires ValidList(list, |p.jobs|) && DelaysWithin(sc, kind, low, list) && Elapsed(sc, kind, low, list, times, t)
    requires q in times
    ensures MinDelayIn(list, q) >= -1
    ensures MinDelayIn(list, q) != -1 ==> times[q] + MinDelayIn(list, q) <= t
  {
    MinDelayInExact(list, q, |p.jobs|);
    if MinDelayIn(list, q) != -1 {
      var i :| 0 <= i < |list| && list[i].ref == q && MinDelayIn(list, q) == list[i].delay.min;
      assert list[i].delay.Has(sc.delay(kind, low, i));
    }
  }

  /** While some core is free, a job that is still running leaves two cores free when it finishes. */
  lemma RunningBesideFreeCore(c: Config, q: nat, t: int)
    requires CoresConsistent(c) && q in c.finish && c.now <= t < c.finish[q] && FreeAt(c, t) >= 1
    ensures |c.cores| >= 2 && FreeAt(c, c.finish[q]) >= 2
  {
    OwnedByNone(c.cores);
    OwnedByAdd(c.cores, {}, q);
    assert {} + {q} == {q};
    OwnedByBusy(c.cores, {q}, t);
    var i := OwnedWitness(c.cores, q);
    BusyThenFree(c.cores, i, t, c.finish[q]);
  }

  lemma {:induction false} OwnedByNone(cores: seq<Core>)
    ensures OwnedBy(cores, {}) == 0
  {
    if |cores| > 0 {
      OwnedByNone(cores[..|cores| - 1]);
    }
  }

  /** A job has finished once one of its successors has started. */
  lemma FinishedBeforeSuccessor(p: Problem, c: Config, q: nat, i: nat)
    requires ValidProblem(p) && TimesConsistent(p, c) && PredsConsistent(p, c) && q in c.finish && p.IsJob(q)
    requires i < |p.cons[q].succFinish| && p.cons[q].succFinish[i].ref in c.start
    ensures c.finish[q] <= c.now
  {
    var r := p.cons[q].succFinish[i].ref;
    assert Refers(p.cons[q].succFinish, r);
    assert Refers(p.cons[r].predFinish, q);
    var l: nat :| l < |p.cons[r].predFinish| && p.cons[r].predFinish[l].ref == q;
    assert c.finish[p.cons[r].predFinish[l].ref] <= c.start[r];
  }

  /** The claim behind skipping a job that is certainly finished: when some core is free, it has finished. */
  lemma CertainlyFinishedSound(p: Problem, s: View, c: Config, q: nat, t: int)
    requires ValidProblem(p) && |c.cores| == p.m && TimesConsistent(p, c) && PredsConsistent(p, c) && CoresConsistent(c)
    requires q in c.finish && p.IsJob(q)
    requires |s.cores| == p.m && WellFormed(s.cores) && CoresCover(s.cores, c)
    requires q in s.finishes && TimesCover(s.finishes, c.finish)
    requires c.now <= t && FreeAt(c, t) >= 1
    requires CertainlyFinished(p, c.start.Keys, s, q, s.finishes[q])
    ensures c.finish[q] <= t
  {
    if c.finish[q] > t {
      RunningBesideFreeCore(c, q, t);
      if s.finishes[q].max < s.cores[1].min {
        AvailableFrom(s.cores, c, 2, c.finish[q]);
      } else {
        var k :| 0 <= k < |p.cons[q].succFinish| && p.cons[q].succFinish[k].ref in c.start.Keys;
        FinishedBeforeSuccessor(p, c, q, k);
      }
    }
  }

  /** A core that is busy at `t` and free at `f` adds one to the number of free cores. */
  lemma {:induction false} BusyThenFree(cores: seq<Core>, i: nat, t: int, f: int)
    requires i < |cores| && t < cores[i].free <= f
    ensures Below(FreeTimes(cores), f) >= Below(FreeTimes(cores), t) + 1
  {
    var n := |cores| - 1;
    assert FreeTimes(cores)[..n] == FreeTimes(cores[..n]);
    if i == n {
      BelowMonotone(FreeTimes(cores[..n]), t, f);
    } else {
      BusyThenFree(cores[..n], i, t, f);
    }
  }

  lemma StartListElapsed(p: Problem, sc: Scenario, s: View, c: Config, high: nat, low: nat, kind: Kind,
                         list: seq<Delay>,
                         acc: int, t: int)
    requires ValidProblem(p) && ValidScenario(p, sc) && TimesConsistent(p, c) && p.IsJob(high) && p.IsJob(low)
    requires kind.PredStart? || kind.ExclStart?
    requires ValidList(list, |p.jobs|) && DelaysWithin(sc, kind, high, list)
    requires TimesCover(s.starts, c.start) && Recorded(list, s.starts, c.start)
    requires kind.PredStart? ==> forall i :: 0 <= i < |list| ==> list[i].ref in c.start
    requires ReadyBy(p, sc, c, low, t) && c.now <= t
    requires StartsDue(p, s, p.cons[low], list, kind.PredStart?, acc, |list|) <= t
    ensures acc <= t && Elapsed(sc, kind, high, list, c.start, t)
  {
    hide ReadyBy, MinDelayAfterStart, StartsDue, ValidScenario;
    StartsDueBound(p, s, p.cons[low], list, kind.PredStart?, acc, |list|, 0);
    forall i: nat | i < |list| && list[i].ref in c.start
      ensures c.start[list[i].ref] + sc.delay(kind, high, i) <= t
    {
      var q := list[i].ref;
      assert list[i].delay.Has(sc.delay(kind, high, i));
      StartsDueBound(p, s, p.cons[low], list, kind.PredStart?, acc, |list|, i);
      WaitedAfter(p, sc, c, low, q, t);
    }
  }

  /** A constraint that the bound leaves out is over. */
  lemma SkippedElapsed(p: Problem, sc: Scenario, s: View, c: Config, low: nat, q: nat, delay: Interval, actual: int,
                       t: int)
    requires ValidProblem(p) && ValidScenario(p, sc) && Consistent(p, sc, c) && p.IsJob(q) && p.IsJob(low)
    requires |s.cores| == p.m && WellFormed(s.cores) && CoresCover(s.cores, c) && TimesCover(s.finishes, c.finish)
    requires ReadyBy(p, sc, c, low, t) && c.now <= t && FreeAt(c, t) >= 1 && q in s.finishes && delay.Has(actual)
    requires SkipFinish(p, c.start.Keys, s, p.cons[low], q, s.finishes[q], delay.max)
    ensures c.finish[q] + actual <= t
  {
    hide WellFormed, CoresCover, FreeAt, ReadyBy, CertainlyFinished, ValidScenario, MinDelayAfterFinish;
    WaitedAfter(p, sc, c, low, q, t);
    if delay.max == 0 && CertainlyFinished(p, c.start.Keys, s, q, s.finishes[q]) {
      CertainlyFinishedSound(p, s, c, q, t);
    }
  }

  lemma FinishListElapsed(p: Problem, sc: Scenario, s: View, c: Config, high: nat, low: nat, kind: Kind,
                          list: seq<Delay>,
                          acc: int, t: int)
    requires ValidProblem(p) && ValidScenario(p, sc) && Consistent(p, sc, c) && p.IsJob(high) && p.IsJob(low)
    requires kind.PredFinish? || kind.ExclFinish?
    requires ValidList(list, |p.jobs|) && DelaysWithin(sc, kind, high, list)
    requires |s.cores| == p.m && WellFormed(s.cores) && CoresCover(s.cores, c)
    requires TimesCover(s.finishes, c.finish) && Recorded(list, s.finishes, c.finish)
    requires kind.PredFinish? ==> forall i :: 0 <= i < |list| ==> list[i].ref in c.finish
    requires ReadyBy(p, sc, c, low, t) && c.now <= t && FreeAt(c, t) >= 1
    requires FinishesDue(p, c.start.Keys, s, p.cons[low], list, acc, |list|) <= t
    ensures acc <= t && Elapsed(sc, kind, high, list, c.finish, t)
  {
    FinishesDueBound(p, c.start.Keys, s, p.cons[low], list, acc, |list|, 0);
    forall i: nat | i < |list| && list[i].ref in c.finish
      ensures c.finish[list[i].ref] + sc.delay(kind, high, i) <= t
    {
      var q := list[i].ref;
      assert list[i].delay.Has(sc.delay(kind, high, i));
      FinishesDueBound(p, c.start.Keys, s, p.cons[low], list, acc, |list|, i);
      if SkipFinish(p, c.start.Keys, s, p.cons[low], q, s.finishes[q], list[i].delay.max) {
        SkippedElapsed(p, sc, s, c, low, q, list[i].delay, sc.delay(kind, high, i), t);
      }
    }
  }

  /** Once the bound has passed, `high` is ready and its cores are free. */
  lemma LatestReadyParts(p: Problem, sc: Scenario, s: View, c: Config, high: nat, low: nat, used: nat, t: int)
    requires ValidProblem(p) && ValidScenario(p, sc) && Consistent(p, sc, c)
    requires |s.cores| == p.m && WellFormed(s.cores) && CoresCover(s.cores, c)
    requires TimesCover(s.starts, c.start) && TimesCover(s.finishes, c.finish)
    requires p.IsJob(high) && PredsIn(p, high, c.start.Keys)
    requires Recorded(p.cons[high].predStart, s.starts, c.start) && Recorded(p.cons[high].exclStart, s.starts, c.start)
    requires Recorded(p.cons[high].predFinish, s.finishes, c.finish)
        && Recorded(p.cons[high].exclFinish, s.finishes, c.finish)
    requires p.IsJob(low) && ReadyBy(p, sc, c, low, t) && c.now <= t && FreeAt(c, t) >= 1
    requires ConditionalLatestReady(p, c.start.Keys, s, high, low, used) <= t
    ensures ReadyBy(p, sc, c, high, t)
    ensures p.jobs[high].MinCores() > used ==> s.cores[p.jobs[high].MinCores() - 1].max <= t
  {
    hide FreeAt, Maxs;
    var h, l := p.cons[high], p.cons[low];
    assert ValidConstraints(h, |p.jobs|) && ValidJob(p.jobs[high], p.m);
    var r0 := p.jobs[high].arrival.max;
    var r1 := if p.jobs[high].MinCores() > used then Max(r0, s.cores[p.jobs[high].MinCores() - 1].max) else r0;
    var r2 := StartsDue(p, s, l, h.predStart, true, r1, |h.predStart|);
    var r3 := StartsDue(p, s, l, h.exclStart, false, r2, |h.exclStart|);
    var r4 := FinishesDue(p, c.start.Keys, s, l, h.predFinish, r3, |h.predFinish|);
    FinishListElapsed(p, sc, s, c, high, low, ExclFinish, h.exclFinish, r4, t);
    FinishListElapsed(p, sc, s, c, high, low, PredFinish, h.predFinish, r3, t);
    StartListElapsed(p, sc, s, c, high, low, ExclStart, h.exclStart, r2, t);
    StartListElapsed(p, sc, s, c, high, low, PredStart, h.predStart, r1, t);
  }

  /** The bound is sound: if `low` can be started at `t` on `used` cores in a covered configuration and
      the bound has passed, `high` can be started too, although the constraints it shares with `low`
      and those with jobs that are certainly finished have been disregarded. */
  lemma ConditionalLatestReadySound(p: Problem, sc: Scenario, s: View, c: Config, high: nat, low: nat, used: nat,
                                    t: int)
    requires ValidProblem(p) && ValidScenario(p, sc) && Consistent(p, sc, c)
    requires StateInvariant(p, c.start.Keys, s) && CoresCover(s.cores, c)
    requires TimesCover(s.starts, c.start) && TimesCover(s.finishes, c.finish)
    requires p.IsJob(high) && high !in c.start && PredsIn(p, high, c.start.Keys)
    requires p.IsJob(low) && ReadyBy(p, sc, c, low, t) && c.now <= t && FreeAt(c, t) >= used >= 1
    requires ConditionalLatestReady(p, c.start.Keys, s, high, low, used) <= t
    ensures Startable(p, sc, c, high, t)
  {
    AllRecorded(p, c.start.Keys, s, high);
    LatestReadyParts(p, sc, s, c, high, low, used, t);
    assert ValidJob(p.jobs[high], p.m);
    if p.jobs[high].MinCores() > used {
      AvailableBy(s.cores, c, p.jobs[high].MinCores(), t);
    }
  }

  /** The bound is never before the latest arrival, which lets ordered searches stop early. */
  lemma ConditionalLatestReadyArrival(p: Problem, scheduled: set<nat>, s: View, high: nat, low: nat, used: nat)
    requires ValidProblem(p) && p.IsJob(high) && p.IsJob(low) && |s.cores| == p.m
    ensures p.jobs[high].arrival.max <= ConditionalLatestReady(p, scheduled, s, high, low, used)
  {
    var h, l := p.cons[high], p.cons[low];
    assert ValidConstraints(h, |p.jobs|) && ValidJob(p.jobs[high], p.m);
    var r0 := p.jobs[high].arrival.max;
    var r1 := if p.jobs[high].MinCores() > used then Max(r0, s.cores[p.jobs[high].MinCores() - 1].max) else r0;
    StartsDueBound(p, s, l, h.predStart, true, r1, |h.predStart|, 0);
    var r2 := StartsDue(p, s, l, h.predStart, true, r1, |h.predStart|);
    StartsDueBound(p, s, l, h.exclStart, false, r2, |h.exclStart|, 0);
    var r3 := StartsDue(p, s, l, h.exclStart, false, r2, |h.exclStart|);
    FinishesDueBound(p, scheduled, s, l, h.predFinish, r3, |h.predFinish|, 0);
    var r4 := FinishesDue(p, scheduled, s, l, h.predFinish, r3, |h.predFinish|);
    FinishesDueBound(p, scheduled, s, l, h.exclFinish, r4, |h.exclFinish|, 0);
  }
}
