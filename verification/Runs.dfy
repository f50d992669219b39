// Runs of the scheduler, and why a run never gets stuck.
module Runs {
  import opened Times
  import opened Counting
  import opened Jobs
  import opened Workload
  import opened Scheduler

  /** A run, dispatch by dispatch, with the configuration it has led to. */
  datatype Run = Begin(end: Config) | Then(before: Run, decision: Decision, end: Config)

  ghost predicate IsRun(p: Problem, sc: Scenario, platform: seq<Interval>, r: Run) {
    match r
    case Begin(c) => InitialConfig(p, sc, platform, c)
    case Then(before, d, c) => IsRun(p, sc, platform, before) && Step(p, sc, before.end, d, c)
  }

  /** `r'` is `r`, or continues it. */
  ghost predicate Continues(r': Run, r: Run) {
    r' == r || (r'.Then? && Continues(r'.before, r))
  }

  lemma {:induction false} RunConsistent(p: Problem, sc: Scenario, platform: seq<Interval>, r: Run)
    requires ValidProblem(p) && CostsSafe(p) && ValidScenario(p, sc) && IsRun(p, sc, platform, r)
    ensures Consistent(p, sc, r.end)
  {
    match r {
      case Begin(c) => InitialConsistent(p, sc, platform, c);
      case Then(before, d, c) =>
        RunConsistent(p, sc, platform, before);
        StepConsistent(p, sc, before.end, d, c);
    }
  }

  /** Every job of every run finishes by its deadline. */
  ghost predicate DeadlinesMet(p: Problem, platform: seq<Interval>) {
    forall sc: Scenario, r: Run ::
      ValidScenario(p, sc) && IsRun(p, sc, platform, r) && r.Then? ==>
        p.IsJob(r.decision.job) && r.decision.f <= p.jobs[r.decision.job].deadline
  }

  // ---- A run never gets stuck ----

  /** Predecessors have a lower rank than their successors. */
  predicate RanksIncrease(p: Problem) {
    forall k: nat :: k < |p.jobs| && k < |p.cons| ==>
      && (forall i :: 0 <= i < |p.cons[k].predStart| ==>
            p.cons[k].predStart[i].ref < |p.jobs| && p.jobs[p.cons[k].predStart[i].ref].rank < p.jobs[k].rank)
      && (forall i :: 0 <= i < |p.cons[k].predFinish| ==>
            p.cons[k].predFinish[i].ref < |p.jobs| && p.jobs[p.cons[k].predFinish[i].ref].rank < p.jobs[k].rank)
  }

  /** Of the jobs that remain, one of least rank has all its predecessors dispatched. */
  lemma {:induction false} SomeEligible(p: Problem, scheduled: set<nat>, j: nat) returns (k: nat)
    requires ValidProblem(p) && RanksIncrease(p) && p.IsJob(j) && j !in scheduled
    ensures p.IsJob(k) && k !in scheduled && PredsIn(p, k, scheduled)
    decreases p.jobs[j].rank
  {
    if PredsIn(p, j, scheduled) {
      k := j;
    } else if i: nat :| i < |p.cons[j].predStart| && p.cons[j].predStart[i].ref !in scheduled {
      k := SomeEligible(p, scheduled, p.cons[j].predStart[i].ref);
    } else {
      var i: nat :| i < |p.cons[j].predFinish| && p.cons[j].predFinish[i].ref !in scheduled;
      k := SomeEligible(p, scheduled, p.cons[j].predFinish[i].ref);
    }
  }

  /** Constraints with dispatched jobs are over eventually. */
  lemma {:induction false} EventuallyElapsed(sc: Scenario, kind: Kind, k: nat, list: seq<Delay>, times: map<nat, int>,
                                             from: int)
      returns (x: int)
    requires kind.PredStart? || kind.PredFinish? ==> forall i :: 0 <= i < |list| ==> list[i].ref in times
    ensures x >= from && forall y :: y >= x ==> Elapsed(sc, kind, k, list, times, y)
  {
    if |list| == 0 {
      x := from;
    } else {
      var n := |list| - 1;
      x := EventuallyElapsed(sc, kind, k, list[..n], times, from);
      if list[n].ref in times {
        x := Max(x, times[list[n].ref] + sc.delay(kind, k, n));
      }
      forall y | y >= x
        ensures Elapsed(sc, kind, k, list, times, y)
      {
        assert Elapsed(sc, kind, k, list[..n], times, y);
        forall i: nat | i < |list| && list[i].ref in times
          ensures times[list[i].ref] + sc.delay(kind, k, i) <= y
        {
          if i < n {
            assert list[..n][i] == list[i];
          }
        }
      }
    }
  }

  lemma {:induction false} EventuallyFree(v: seq<int>, from: int) returns (x: int)
    ensures x >= from && forall i :: 0 <= i < |v| ==> v[i] <= x
  {
    x := from;
    if |v| > 0 {
      x := EventuallyFree(v[..|v| - 1], Max(from, v[|v| - 1]));
    }
  }

  /** An eligible job can be started eventually. */
  lemma EventuallyStartable(p: Problem, sc: Scenario, c: Config, k: nat) returns (x: int)
    requires ValidProblem(p) && p.IsJob(k) && k !in c.start && PredsIn(p, k, c.start.Keys)
    requires c.start.Keys == c.finish.Keys && |c.cores| == p.m
    ensures x >= c.now && Startable(p, sc, c, k, x)
  {
    assert ValidJob(p.jobs[k], p.m);
    var j := p.cons[k];
    x := Max(c.now, sc.release(k));
    x := EventuallyElapsed(sc, PredStart, k, j.predStart, c.start, x);
    x := EventuallyElapsed(sc, PredFinish, k, j.predFinish, c.finish, x);
    x := EventuallyElapsed(sc, ExclStart, k, j.exclStart, c.start, x);
    x := EventuallyElapsed(sc, ExclFinish, k, j.exclFinish, c.finish, x);
    x := EventuallyFree(FreeTimes(c.cores), x);
    BelowAll(FreeTimes(c.cores), x);
    var levels := p.jobs[k].levels;
    assert |levels| > 1 ==> levels[0].cores < levels[|levels| - 1].cores;
  }

  /** The first time at which some job can be started. */
  lemma {:induction false} FirstStartable(p: Problem, sc: Scenario, c: Config, lo: int, hi: int,
                                          k: nat) returns (t: int, j: nat)
    requires lo <= hi && Startable(p, sc, c, k, hi)
    requires forall q, x :: x < lo ==> !Startable(p, sc, c, q, x)
    ensures lo <= t && Startable(p, sc, c, j, t)
    ensures forall q, x :: x < t ==> !Startable(p, sc, c, q, x)
    decreases hi - lo
  {
    if q: nat :| Startable(p, sc, c, q, lo) {
      t, j := lo, q;
    } else {
      assert lo != hi;
      t, j := FirstStartable(p, sc, c, lo + 1, hi, k);
    }
  }

  /** Among the startable jobs below `n`, one that none of them has priority over. */
  lemma {:induction false} TopStartable(p: Problem, sc: Scenario, c: Config, t: int, j: nat, n: nat) returns (k: nat)
    requires p.IsJob(j) && Startable(p, sc, c, j, t) && n <= |p.jobs|
    ensures Startable(p, sc, c, k, t)
    ensures k == j || PriorTo(p, k, j)
    ensures forall q: nat :: q < n && Startable(p, sc, c, q, t) ==> !PriorTo(p, q, k)
  {
    if n == 0 {
      k := j;
    } else {
      k := TopStartable(p, sc, c, t, j, n - 1);
      if Startable(p, sc, c, n - 1, t) && PriorTo(p, n - 1, k) {
        k := n - 1;
      }
    }
  }

  /** The highest level that fits on the free cores. */
  lemma {:induction false} FittingLevel(levels: seq<Level>, free: nat, n: nat) returns (l: nat)
    requires 1 <= n <= |levels| && levels[0].cores <= free
    ensures l < n && levels[l].cores <= free && (l + 1 < n ==> free < levels[l + 1].cores)
  {
    if n == 1 || levels[n - 1].cores <= free {
      l := n - 1;
    } else {
      l := FittingLevel(levels, free, n - 1);
    }
  }

  /** Free cores for the job can be picked. */
  lemma {:induction false} PickCores(cores: seq<Core>, j: nat, n: nat, t: int, f: int) returns (cores': seq<Core>)
    requires Below(FreeTimes(cores), t) >= n && forall i :: 0 <= i < |cores| ==> cores[i].owner != Some(j)
    ensures Occupies(cores, cores', j, n, t, f)
  {
    if |cores| == 0 {
      cores' := [];
    } else {
      var l := |cores| - 1;
      assert FreeTimes(cores)[..l] == FreeTimes(cores[..l]);
      var take := n > 0 && cores[l].free <= t;
      var init := PickCores(cores[..l], j, if take then n - 1 else n, t, f);
      cores' := init + [if take then Core(Some(j), f) else cores[l]];
      assert cores'[..l] == init;
      assert forall i :: 0 <= i < l ==> cores'[i] == init[i] && cores[i] == cores[..l][i];
    }
  }

  /** The scheduler's next decision, when some job has all its predecessors dispatched. */
  lemma NextDecision(p: Problem, sc: Scenario, c: Config, k: nat) returns (d: Decision)
    requires ValidProblem(p) && Consistent(p, sc, c)
    requires p.IsJob(k) && k !in c.start && PredsIn(p, k, c.start.Keys)
    ensures Legal(p, sc, c, d)
  {
    var x := EventuallyStartable(p, sc, c, k);
    var t, j := FirstStartable(p, sc, c, c.now, x, k);
    j := TopStartable(p, sc, c, t, j, |p.jobs|);
    var levels := p.jobs[j].levels;
    var l := FittingLevel(levels, FreeAt(c, t), |levels|);
    assert ValidJob(p.jobs[j], p.m);
    d := Decision(j, l, t, t + levels[l].cost.min);
  }

  lemma NextStep(p: Problem, sc: Scenario, c: Config, k: nat) returns (d: Decision, c': Config)
    requires ValidProblem(p) && Consistent(p, sc, c)
    requires p.IsJob(k) && k !in c.start && PredsIn(p, k, c.start.Keys)
    ensures Step(p, sc, c, d, c')
  {
    d := NextDecision(p, sc, c, k);
    var cores := PickCores(c.cores, d.job, p.jobs[d.job].levels[d.level].cores, d.t, d.f);
    c' := Config(cores, d.t, c.start[d.job := d.t], c.finish[d.job := d.f]);
  }

  /** Progress: as long as jobs remain undispatched, the scheduler dispatches another one. */
  lemma Progress(p: Problem, sc: Scenario, c: Config, undispatched: nat) returns (d: Decision, c': Config)
    requires ValidProblem(p) && RanksIncrease(p) && Consistent(p, sc, c)
    requires p.IsJob(undispatched) && undispatched !in c.start
    ensures Step(p, sc, c, d, c')
  {
    var k := SomeEligible(p, c.start.Keys, undispatched);
    d, c' := NextStep(p, sc, c, k);
  }

  /** How many jobs remain. */
  ghost function Remaining(p: Problem, c: Config): nat {
    |(set k: nat | k < |p.jobs| && k !in c.start)|
  }

  lemma FewerRemain(p: Problem, c: Config, d: Decision, c': Config)
    requires d.job < |p.jobs| && d.job !in c.start && c'.start == c.start[d.job := d.t]
    ensures Remaining(p, c') < Remaining(p, c)
  {
    var a, b := set k: nat | k < |p.jobs| && k !in c.start, set k: nat | k < |p.jobs| && k !in c'.start;
    assert a == b + {d.job};
  }

  /** Every job of a run is dispatched eventually, at a time when some core is free. */
  lemma {:induction false} EventuallyDispatched(p: Problem, sc: Scenario, platform: seq<Interval>, r: Run, j: nat,
                                                busy: int)
      returns (r': Run)
    requires ValidProblem(p) && CostsSafe(p) && RanksIncrease(p) && ValidScenario(p, sc)
    requires IsRun(p, sc, platform, r) && p.IsJob(j) && j !in r.end.start && FreeAt(r.end, busy) == 0
    ensures IsRun(p, sc, platform, r') && r'.Then? && r'.decision.job == j && busy < r'.decision.t <= r'.decision.f
    decreases Remaining(p, r.end)
  {
    RunConsistent(p, sc, platform, r);
    var d, c := Progress(p, sc, r.end, j);
    CostBounds(p, d);
    NotFreeBefore(r.end, d.t, busy);
    r' := Then(r, d, c);
    if d.job != j {
      FewerRemain(p, r.end, d, c);
      StillBusy(p, sc, r.end, d, c, busy);
      r' := EventuallyDispatched(p, sc, platform, r', j, busy);
    }
  }

  /** A dispatch frees no core earlier than before. */
  lemma StillBusy(p: Problem, sc: Scenario, b: Config, d: Decision, c: Config, x: int)
    requires Step(p, sc, b, d, c) && CoresConsistent(b) && b.start.Keys == b.finish.Keys
    requires x < d.t <= d.f && FreeAt(b, x) == 0
    ensures FreeAt(c, x) == 0
  {
    OccupyCount(b.cores, c.cores, d.job, d.t, d.f, x);
  }

  lemma NotFreeBefore(c: Config, t: int, x: int)
    requires FreeAt(c, t) >= 1 && FreeAt(c, x) == 0
    ensures x < t
  {
    if x >= t {
      BelowMonotone(FreeTimes(c.cores), t, x);
    }
  }
}
