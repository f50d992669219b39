// The concrete system the analysis is about: a non-preemptive, work-conserving,
// job-level fixed-priority global scheduler of moldable gang jobs on `m` cores.
module Scheduler {
  import opened Times
  import opened Counting
  import opened Jobs
  import opened Workload

  datatype Kind = PredStart | PredFinish | ExclStart | ExclFinish

  /** What the environment decides: release times, and the length of every delay.
      `delay(kind, k, i)` belongs to entry `i` of the list of that kind of job `k`. */
  datatype Scenario = Scenario(release: nat -> int, delay: (Kind, nat, nat) -> int)

  ghost predicate DelaysWithin(sc: Scenario, kind: Kind, k: nat, list: seq<Delay>) {
    forall i: nat :: i < |list| ==> list[i].delay.Has(sc.delay(kind, k, i))
  }

  ghost predicate ValidScenario(p: Problem, sc: Scenario) {
    forall k: nat :: p.IsJob(k) ==>
      && p.jobs[k].arrival.Has(sc.release(k))
      && DelaysWithin(sc, PredStart, k, p.cons[k].predStart)
      && DelaysWithin(sc, PredFinish, k, p.cons[k].predFinish)
      && DelaysWithin(sc, ExclStart, k, p.cons[k].exclStart)
      && DelaysWithin(sc, ExclFinish, k, p.cons[k].exclFinish)
  }

  /** A core: the job that last occupied it, if any, and since when it is free. */
  datatype Core = Core(owner: Option<nat>, free: int)

  /** A configuration between two dispatches; `now` is the time of the last one. */
  datatype Config = Config(cores: seq<Core>, now: int, start: map<nat, int>, finish: map<nat, int>) {
    function Dispatched(): set<nat> {
      start.Keys
    }
  }

  function FreeTimes(cores: seq<Core>): (r: seq<int>)
    ensures |r| == |cores| && forall i :: 0 <= i < |cores| ==> r[i] == cores[i].free
  {
    seq(|cores|, i requires 0 <= i < |cores| => cores[i].free)
  }

  /** Number of cores that are free at time `x` if nothing else is dispatched. */
  function FreeAt(c: Config, x: int): nat {
    Below(FreeTimes(c.cores), x)
  }

  function Owned(cores: seq<Core>, q: nat): (n: nat)
    ensures n <= |cores|
  {
    if |cores| == 0 then 0
    else Owned(cores[..|cores| - 1], q) + if cores[|cores| - 1].owner == Some(q) then 1 else 0
  }

  /** At `x`, every constraint of the list with a dispatched job is over;
      a mandatory list has no other constraints. */
  ghost predicate Elapsed(sc: Scenario, kind: Kind, k: nat, list: seq<Delay>, times: map<nat, int>, x: int) {
    forall i: nat :: i < |list| && (kind.PredStart? || kind.PredFinish? || list[i].ref in times) ==>
      list[i].ref in times && times[list[i].ref] + sc.delay(kind, k, i) <= x
  }

  /** Job `k` is ready by time `x`: released, and all its constraints are over. */
  ghost predicate ReadyBy(p: Problem, sc: Scenario, c: Config, k: nat, x: int)
    requires p.IsJob(k)
  {
    && sc.release(k) <= x
    && Elapsed(sc, PredStart, k, p.cons[k].predStart, c.start, x)
    && Elapsed(sc, PredFinish, k, p.cons[k].predFinish, c.finish, x)
    && Elapsed(sc, ExclStart, k, p.cons[k].exclStart, c.start, x)
    && Elapsed(sc, ExclFinish, k, p.cons[k].exclFinish, c.finish, x)
  }

  /** The scheduler could start `k` at `x`: not dispatched yet, ready, and enough cores are free. */
  ghost predicate Startable(p: Problem, sc: Scenario, c: Config, k: nat, x: int) {
    && p.IsJob(k)
    && |p.jobs[k].levels| > 0
    && k !in c.Dispatched()
    && ReadyBy(p, sc, c, k, x)
    && FreeAt(c, x) >= p.jobs[k].MinCores()
  }

  /** Job `j` takes cores that are free at `t`, and no others. */
  ghost predicate Occupies(cores: seq<Core>, cores': seq<Core>, j: nat, n: nat, t: int, f: int) {
    && |cores'| == |cores|
    && (forall i :: 0 <= i < |cores| ==>
          cores'[i] == cores[i] || (cores[i].free <= t && cores'[i] == Core(Some(j), f)))
    && Owned(cores', j) == n
  }

  /** A scheduling decision: which job, at which of its levels, when, and until when it runs. */
  datatype Decision = Decision(job: nat, level: nat, t: int, f: int)

  /** The decisions the scheduler may take next. */
  ghost predicate Legal(p: Problem, sc: Scenario, c: Config, d: Decision) {
    && Startable(p, sc, c, d.job, d.t)
    && c.now <= d.t
    && var levels := p.jobs[d.job].levels;
    && d.level < |levels|
    && FreeAt(c, d.t) >= levels[d.level].cores
    // the job runs on as many cores as it can
    && (d.level + 1 < |levels| ==> FreeAt(c, d.t) < levels[d.level + 1].cores)
    && levels[d.level].cost.Has(d.f - d.t)
    // priority order
    && (forall k :: Startable(p, sc, c, k, d.t) ==> !PriorTo(p, k, d.job))
    // work conservation
    && (forall k, x :: x < d.t ==> !Startable(p, sc, c, k, x))
  }

  ghost predicate Step(p: Problem, sc: Scenario, c: Config, d: Decision, c': Config) {
    && Legal(p, sc, c, d)
    && c'.now == d.t
    && c'.start == c.start[d.job := d.t]
    && c'.finish == c.finish[d.job := d.f]
    && Occupies(c.cores, c'.cores, d.job, p.jobs[d.job].levels[d.level].cores, d.t, d.f)
  }

  /** The system starts on cores that become free within the given intervals. */
  ghost predicate InitialConfig(p: Problem, sc: Scenario, platform: seq<Interval>, c: Config) {
    && |c.cores| == p.m == |platform|
    && c.start == map[] && c.finish == map[]
    && (forall i :: 0 <= i < p.m ==> c.cores[i].owner == None && platform[i].Has(c.cores[i].free))
    && WorkConserved(p, sc, c)
  }

  ghost predicate TimesConsistent(p: Problem, c: Config) {
    && c.start.Keys == c.finish.Keys
    && (forall q :: q in c.start ==>
          && p.IsJob(q)
          && c.start[q] <= c.now
          && c.start[q] <= c.finish[q]
          && c.start[q] + p.jobs[q].bcet <= c.finish[q] <= c.start[q] + p.jobs[q].wcet)
  }

  /** A core is busy until its owner finishes, and an unfinished job owns a core. */
  ghost predicate CoresConsistent(c: Config) {
    && (forall i :: 0 <= i < |c.cores| && c.cores[i].owner.Some? ==>
          c.cores[i].owner.value in c.finish && c.cores[i].free == c.finish[c.cores[i].owner.value])
    && (forall q :: q in c.finish && c.finish[q] > c.now ==> Owned(c.cores, q) >= 1)
  }

  ghost predicate PredsConsistent(p: Problem, c: Config) {
    && (forall q :: q in c.start ==> p.IsJob(q) && PredsIn(p, q, c.start.Keys))
    && (forall q, i: nat :: q in c.start && p.IsJob(q) && i < |p.cons[q].predFinish| ==>
          var r := p.cons[q].predFinish[i].ref; r in c.finish && c.finish[r] <= c.start[q])
  }

  /** No undispatched job could have been started before the last dispatch. */
  ghost predicate WorkConserved(p: Problem, sc: Scenario, c: Config) {
    forall k, x :: x < c.now ==> !Startable(p, sc, c, k, x)
  }

  /** The dispatched jobs, their times and the cores they occupy fit together. */
  ghost predicate Consistent(p: Problem, sc: Scenario, c: Config) {
    && |c.cores| == p.m
    && TimesConsistent(p, c)
    && CoresConsistent(c)
    && PredsConsistent(p, c)
    && WorkConserved(p, sc, c)
  }

  lemma InitialConsistent(p: Problem, sc: Scenario, platform: seq<Interval>, c: Config)
    requires InitialConfig(p, sc, platform, c)
    ensures Consistent(p, sc, c)
  {
  }

  /** Free cores before and after a dispatch. */
  lemma {:induction false} OccupyCount(cores: seq<Core>, cores': seq<Core>, j: nat, t: int, f: int, x: int)
    requires |cores'| == |cores| && t <= f
    requires forall i :: 0 <= i < |cores| ==>
               cores'[i] == cores[i] || (cores[i].free <= t && cores'[i] == Core(Some(j), f))
    requires forall i :: 0 <= i < |cores| ==> cores[i].owner != Some(j)
    ensures f <= x ==> Below(FreeTimes(cores'), x) == Below(FreeTimes(cores), x)
    ensures t <= x < f ==> Below(FreeTimes(cores'), x) + Owned(cores', j) == Below(FreeTimes(cores), x)
    ensures x < f ==>
              Below(FreeTimes(cores), x) - Owned(cores', j) <= Below(FreeTimes(cores'), x) <= Below(FreeTimes(cores), x)
  {
    if |cores| > 0 {
      var n := |cores| - 1;
      assert FreeTimes(cores)[..n] == FreeTimes(cores[..n]);
      assert FreeTimes(cores')[..n] == FreeTimes(cores'[..n]);
      OccupyCount(cores[..n], cores'[..n], j, t, f, x);
    }
  }

  /** A job whose cores are not free keeps all of them. */
  lemma {:induction false} OccupyKeeps(cores: seq<Core>, cores': seq<Core>, j: nat, t: int, f: int, q: nat)
    requires |cores'| == |cores| && q != j
    requires forall i :: 0 <= i < |cores| ==>
               cores'[i] == cores[i] || (cores[i].free <= t && cores'[i] == Core(Some(j), f))
    requires forall i :: 0 <= i < |cores| && cores[i].owner == Some(q) ==> cores[i].free > t
    ensures Owned(cores', q) == Owned(cores, q)
  {
    if |cores| > 0 {
      OccupyKeeps(cores[..|cores| - 1], cores'[..|cores| - 1], j, t, f, q);
    }
  }

  lemma {:induction false} OwnedWitness(cores: seq<Core>, q: nat) returns (i: nat)
    requires Owned(cores, q) >= 1
    ensures i < |cores| && cores[i].owner == Some(q)
  {
    if cores[|cores| - 1].owner == Some(q) {
      i := |cores| - 1;
    } else {
      i := OwnedWitness(cores[..|cores| - 1], q);
    }
  }

  /** Constraints that are over at `x` do not involve a job whose time lies after `x`. */
  lemma ElapsedBefore(sc: Scenario, kind: Kind, k: nat, list: seq<Delay>, n: nat,
                      times: map<nat, int>, j: nat, v: int, x: int)
    requires ValidList(list, n) && DelaysWithin(sc, kind, k, list)
    requires Elapsed(sc, kind, k, list, times[j := v], x) && x < v
    ensures Elapsed(sc, kind, k, list, times, x)
  {
    forall i: nat | i < |list| && (kind.PredStart? || kind.PredFinish? || list[i].ref in times)
      ensures list[i].ref in times && times[list[i].ref] + sc.delay(kind, k, i) <= x
    {
      assert list[i].delay.Has(sc.delay(kind, k, i));
    }
  }

  lemma ReadyBefore(p: Problem, sc: Scenario, c: Config, j: nat, t: int, f: int, c': Config, k: nat, x: int)
    requires p.IsJob(k) && ValidConstraints(p.cons[k], |p.jobs|) && ValidScenario(p, sc)
    requires c'.start == c.start[j := t] && c'.finish == c.finish[j := f]
    requires x < t <= f && ReadyBy(p, sc, c', k, x)
    ensures ReadyBy(p, sc, c, k, x)
  {
    ElapsedBefore(sc, PredStart, k, p.cons[k].predStart, |p.jobs|, c.start, j, t, x);
    ElapsedBefore(sc, PredFinish, k, p.cons[k].predFinish, |p.jobs|, c.finish, j, f, x);
    ElapsedBefore(sc, ExclStart, k, p.cons[k].exclStart, |p.jobs|, c.start, j, t, x);
    ElapsedBefore(sc, ExclFinish, k, p.cons[k].exclFinish, |p.jobs|, c.finish, j, f, x);
  }

  /** Dispatching a job never makes another one startable at an earlier time. */
  lemma StepStartable(p: Problem, sc: Scenario, c: Config, d: Decision, c': Config, k: nat, x: int)
    requires p.IsJob(k) && ValidConstraints(p.cons[k], |p.jobs|) && ValidScenario(p, sc)
    requires c'.start == c.start[d.job := d.t] && c'.finish == c.finish[d.job := d.f]
    requires |c.cores| == |c'.cores|
    requires forall i :: 0 <= i < |c.cores| ==>
               c'.cores[i] == c.cores[i] || (c.cores[i].free <= d.t && c'.cores[i] == Core(Some(d.job), d.f))
    requires forall i :: 0 <= i < |c.cores| ==> c.cores[i].owner != Some(d.job)
    requires x < d.t <= d.f && Startable(p, sc, c', k, x)
    ensures Startable(p, sc, c, k, x)
  {
    OccupyCount(c.cores, c'.cores, d.job, d.t, d.f, x);
    ReadyBefore(p, sc, c, d.job, d.t, d.f, c', k, x);
  }

  /** The best-case costs of all jobs are lower bounds, for which the zero-cost condition is exact. */
  predicate CostsSafe(p: Problem) {
    forall j :: 0 <= j < |p.jobs| ==> ZeroCostSafe(p.jobs[j].levels)
  }

  lemma CostBounds(p: Problem, d: Decision)
    requires ValidProblem(p) && p.IsJob(d.job) && d.level < |p.jobs[d.job].levels|
    requires p.jobs[d.job].levels[d.level].cost.Has(d.f - d.t)
    ensures d.t <= d.f <= d.t + p.jobs[d.job].wcet
    ensures CostsSafe(p) ==> d.t + p.jobs[d.job].bcet <= d.f
    ensures p.jobs[d.job].levels[d.level].cores >= 1
  {
    assert ValidJob(p.jobs[d.job], p.m);
    WorstCostBounds(p.jobs[d.job].levels, d.level);
    BestCostExact(p.jobs[d.job].levels);
  }

  lemma StepTimes(p: Problem, sc: Scenario, c: Config, d: Decision, c': Config)
    requires ValidProblem(p) && CostsSafe(p) && TimesConsistent(p, c) && Step(p, sc, c, d, c')
    ensures TimesConsistent(p, c')
  {
    CostBounds(p, d);
    assert CostsSafe(p);
  }

  lemma StepCores(p: Problem, sc: Scenario, c: Config, d: Decision, c': Config)
    requires ValidProblem(p) && CostsSafe(p) && TimesConsistent(p, c) && CoresConsistent(c) && Step(p, sc, c, d, c')
    ensures CoresConsistent(c')
  {
    hide ValidJob;
    CostBounds(p, d);
    forall q | q in c'.finish && c'.finish[q] > c'.now
      ensures Owned(c'.cores, q) >= 1
    {
      if q != d.job {
        OccupyKeeps(c.cores, c'.cores, d.job, d.t, d.f, q);
      }
    }
  }

  /** The predecessors of a ready job have been dispatched, and the ones it waits for have finished. */
  lemma ReadyPreds(p: Problem, sc: Scenario, c: Config, j: nat, t: int)
    requires p.IsJob(j) && ValidConstraints(p.cons[j], |p.jobs|) && ValidScenario(p, sc)
    requires c.start.Keys == c.finish.Keys && ReadyBy(p, sc, c, j, t)
    ensures PredsIn(p, j, c.start.Keys)
    ensures forall i: nat :: i < |p.cons[j].predFinish| ==>
              var r := p.cons[j].predFinish[i].ref; r in c.finish && c.finish[r] <= t
  {
    forall i: nat | i < |p.cons[j].predFinish|
      ensures var r := p.cons[j].predFinish[i].ref; r in c.finish && c.finish[r] <= t
    {
      assert p.cons[j].predFinish[i].delay.Has(sc.delay(PredFinish, j, i));
    }
  }

  lemma StepPreds(p: Problem, c: Config, j: nat, t: int, f: int, c': Config)
    requires p.IsJob(j) && j !in c.start && c.start.Keys == c.finish.Keys
    requires PredsConsistent(p, c) && PredsIn(p, j, c.start.Keys)
    requires forall i: nat :: i < |p.cons[j].predFinish| ==>
               var r := p.cons[j].predFinish[i].ref; r in c.finish && c.finish[r] <= t
    requires c'.start == c.start[j := t] && c'.finish == c.finish[j := f]
    ensures PredsConsistent(p, c')
  {
    forall q | q in c'.start
      ensures p.IsJob(q) && PredsIn(p, q, c'.start.Keys)
    {
      assert q == j || q in c.start;
    }
    forall q, i: nat | q in c'.start && p.IsJob(q) && i < |p.cons[q].predFinish|
      ensures var r := p.cons[q].predFinish[i].ref; r in c'.finish && c'.finish[r] <= c'.start[q]
    {
      var r := p.cons[q].predFinish[i].ref;
      assert q == j || q in c.start;
      assert r in c.start;
    }
  }

  lemma StepWorkConserved(p: Problem, sc: Scenario, c: Config, d: Decision, c': Config)
    requires ValidProblem(p) && ValidScenario(p, sc) && TimesConsistent(p, c) && CoresConsistent(c)
        && Step(p, sc, c, d, c')
    ensures WorkConserved(p, sc, c')
  {
    CostBounds(p, d);
    forall k, x | x < c'.now && Startable(p, sc, c', k, x)
      ensures false
    {
      StepStartable(p, sc, c, d, c', k, x);
    }
  }

  /** Every legal step keeps a configuration consistent. */
  lemma StepConsistent(p: Problem, sc: Scenario, c: Config, d: Decision, c': Config)
    requires ValidProblem(p) && CostsSafe(p) && ValidScenario(p, sc)
    requires Consistent(p, sc, c) && Step(p, sc, c, d, c')
    ensures Consistent(p, sc, c')
  {
    StepTimes(p, sc, c, d, c');
    StepCores(p, sc, c, d, c');
    ReadyPreds(p, sc, c, d.job, d.t);
    StepPreds(p, c, d.job, d.t, d.f, c');
    StepWorkConserved(p, sc, c, d, c');
  }

  // ---- Cores owned by a set of jobs ----

  function OwnedBy(cores: seq<Core>, jobs: set<nat>): nat {
    if |cores| == 0 then 0
    else
      var last := cores[|cores| - 1].owner;
      OwnedBy(cores[..|cores| - 1], jobs) + if last.Some? && last.value in jobs then 1 else 0
  }

  lemma {:induction false} OwnedByAdd(cores: seq<Core>, jobs: set<nat>, q: nat)
    requires q !in jobs
    ensures OwnedBy(cores, jobs + {q}) == OwnedBy(cores, jobs) + Owned(cores, q)
  {
    if |cores| > 0 {
      OwnedByAdd(cores[..|cores| - 1], jobs, q);
    }
  }

  /** Jobs that have finished leave their cores free. */
  lemma {:induction false} OwnedByFree(cores: seq<Core>, jobs: set<nat>, t: int)
    requires forall i :: 0 <= i < |cores| && cores[i].owner.Some? && cores[i].owner.value in jobs ==> cores[i].free <= t
    ensures OwnedBy(cores, jobs) <= Below(FreeTimes(cores), t)
  {
    if |cores| > 0 {
      var n := |cores| - 1;
      assert FreeTimes(cores)[..n] == FreeTimes(cores[..n]);
      OwnedByFree(cores[..n], jobs, t);
    }
  }

  /** Cores of unfinished jobs are not free. */
  lemma {:induction false} OwnedByBusy(cores: seq<Core>, jobs: set<nat>, t: int)
    requires forall i :: 0 <= i < |cores| && cores[i].owner.Some? && cores[i].owner.value in jobs ==> cores[i].free > t
    ensures OwnedBy(cores, jobs) + Below(FreeTimes(cores), t) <= |cores|
  {
    if |cores| > 0 {
      var n := |cores| - 1;
      assert FreeTimes(cores)[..n] == FreeTimes(cores[..n]);
      OwnedByBusy(cores[..n], jobs, t);
    }
  }
}
