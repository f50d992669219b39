// Exclusion constraints on one core: the analysis deems a deadline miss possible that no run exhibits.
module InexactExclusions {
  import opened Times
  import opened Counting
  import opened Jobs
  import opened Workload
  import opened Scheduler
  import opened CoreAvailability
  import opened RunningJobs
  import opened JobTiming
  import opened PendingSuccessors
  import opened ReadyJobs
  import opened Abstraction
  import opened LatestReady
  import opened NextDispatch
  import opened PriorityPruning
  import opened NextState
  import opened DispatchTrackers
  import opened Searches
  import opened ScheduleStates
  import opened InitialStates
  import opened Layers
  import opened Runs
  import opened Exactness
  import opened Verdicts

  // ---- The problem ----

  function Short(priority: nat, arrival: Interval): Job {
    Job(arrival, [Level(1, Interval(1, 2))], 100, priority, 0, priority, 0, 1, 2, 0)
  }

  /** The last job must not start within five time units after either of the first two. */
  function Last(): Job {
    Job(Interval(6, 6), [Level(1, Interval(3, 3))], 100, 3, 0, 3, 0, 3, 3, 0)
  }

  /** Released at 7, due at 8, for one time unit. */
  function Pressing(): Job {
    Job(Interval(7, 7), [Level(1, Interval(1, 1))], 8, 2, 0, 2, 0, 1, 1, 0)
  }

  function Apart(others: seq<nat>): JobConstraints {
    JobConstraints([], [], [], [], [], seq(|others|, i requires 0 <= i < |others| => Delay(others[i], Interval(5, 5))))
  }

  /** Jobs 0 and 1 run first, in either order; job 2 keeps its distance from both, and job 3 is urgent. */
  function KeptApart(): (p: Problem)
    ensures p.m == 1 && |p.jobs| == |p.cons| == 4
    ensures p.jobs[0] == Short(0, Interval(0, 1)) && p.jobs[1] == Short(1, Interval(0, 0))
    ensures p.jobs[2] == Last() && p.jobs[3] == Pressing()
    ensures p.cons[0] == Apart([2]) && p.cons[1] == Apart([2]) && p.cons[2] == Apart([0, 1])
        && p.cons[3] == Unconstrained()
  {
    Problem([Short(0, Interval(0, 1)), Short(1, Interval(0, 0)), Last(), Pressing()],
        [Apart([2]), Apart([2]), Apart([0, 1]), Unconstrained()], 1)
  }

  const PLATFORM: seq<Interval> := [Interval(0, 0)]

  /** The other jobs that job `k` keeps its distance from. */
  function Others(k: nat): seq<nat> {
    if k < 2 then [2] else if k == 2 then [0, 1] else []
  }

  lemma ConstraintsOf(k: nat)
    requires k < 4
    ensures KeptApart().cons[k] == Apart(Others(k))
    ensures forall q: nat :: Refers(KeptApart().cons[k].exclFinish, q) <==> q in Others(k)
  {
    var list := KeptApart().cons[k].exclFinish;
    assert |list| == |Others(k)| && forall i :: 0 <= i < |list| ==> list[i].ref == Others(k)[i];
  }

  lemma KeptApartJob(k: nat)
    requires k < 4
    ensures ValidJob(KeptApart().jobs[k], 1) && ValidConstraints(KeptApart().cons[k], 4)
    ensures |KeptApart().jobs[k].levels| == 1 && KeptApart().jobs[k].levels[0].cores == 1
  {
    ConstraintsOf(k);
    assert KeptApart().jobs[k].levels[..0] == [];
  }

  lemma KeptApartValid()
    ensures ValidProblem(KeptApart()) && ValidPlatform(KeptApart(), PLATFORM)
  {
    hide ValidList;
    var p := KeptApart();
    assert forall q: nat :: !Refers([], q);
    assert Refs([]) == [];
    hide KeptApart, ValidJob, ValidConstraints, Refers;
    forall k | 0 <= k < 4
      ensures ValidJob(p.jobs[k], 1) && ValidConstraints(p.cons[k], 4) && p.cons[k] == Apart(Others(k))
    {
      KeptApartJob(k);
      ConstraintsOf(k);
    }
    forall j, k | 0 <= j < 4 && 0 <= k < 4
      ensures Refers(p.cons[j].exclFinish, k) <==> Refers(p.cons[k].exclFinish, j)
    {
      Symmetric(j, k);
    }
  }

  lemma Symmetric(j: nat, k: nat)
    requires j < 4 && k < 4
    ensures Refers(KeptApart().cons[j].exclFinish, k) <==> Refers(KeptApart().cons[k].exclFinish, j)
  {
    hide KeptApart, Refers;
    ConstraintsOf(j);
    ConstraintsOf(k);
  }

  // ---- All runs ----

  lemma DelaysAre(sc: Scenario, k: nat, i: nat)
    requires ValidScenario(KeptApart(), sc) && k < 4 && i < |Others(k)|
    ensures sc.delay(ExclFinish, k, i) == 5
  {
    ConstraintsOf(k);
    assert KeptApart().cons[k].exclFinish[i].delay == Interval(5, 5);
    assert KeptApart().IsJob(k);
  }

  /** When a job can be started. */
  ghost predicate CanStart(sc: Scenario, c: Config, k: nat, x: int)
    requires |c.cores| == 1
  {
    && k < 4 && k !in c.start && sc.release(k) <= x && c.cores[0].free <= x
    && forall q :: q in Others(k) && q in c.finish ==> c.finish[q] + 5 <= x
  }

  lemma StartableIs(sc: Scenario, c: Config, k: nat, x: int)
    requires ValidScenario(KeptApart(), sc) && |c.cores| == 1
    ensures Startable(KeptApart(), sc, c, k, x) <==> CanStart(sc, c, k, x)
  {
    if k < 4 {
      KeptApartJob(k);
      ConstraintsOf(k);
      FreeOnOneCore(c, x);
      forall i: nat | i < |Others(k)|
        ensures sc.delay(ExclFinish, k, i) == 5
      {
        DelaysAre(sc, k, i);
      }
    }
  }

  /** Where a run stands. */
  ghost predicate Stage(c: Config) {
    && |c.cores| == 1 && c.finish.Keys == c.start.Keys
    && var free, done := c.cores[0].free, c.start.Keys;
       || (done == {} && free == 0)
       || (done == {0} && 1 <= free <= 2 && c.finish[0] == free)
       || (done == {1} && 1 <= free <= 2 && c.finish[1] == free)
       || (done == {0, 1} && 2 <= free <= 4 && c.finish[0] <= free && c.finish[1] <= free
           && (c.finish[0] == free || c.finish[1] == free))
       || (done == {0, 1, 3} && free == 8 && c.finish[0] <= 4 && c.finish[1] <= 4)
       || done == {0, 1, 2, 3}
  }

  lemma ReleasesAre(sc: Scenario)
    requires ValidScenario(KeptApart(), sc)
    ensures 0 <= sc.release(0) <= 1 && sc.release(1) == 0 && sc.release(2) == 6 && sc.release(3) == 7
  {
    var p := KeptApart();
    assert p.IsJob(0) && p.IsJob(1) && p.IsJob(2) && p.IsJob(3);
  }

  /** The decision that a run takes next. */
  lemma NextIs(sc: Scenario, c: Config, d: Decision)
    requires ValidScenario(KeptApart(), sc) && Stage(c) && Legal(KeptApart(), sc, c, d)
    ensures d.job < 4 && d.level == 0 && d.job !in c.start
    ensures c.start.Keys == {} ==> d.job < 2 && d.t == 0
    ensures c.start.Keys == {0} ==> d.job == 1 && d.t == c.cores[0].free
    ensures c.start.Keys == {1} ==> d.job == 0 && d.t == c.cores[0].free
    ensures c.start.Keys == {0, 1} ==> d.job == 3 && d.t == 7
    ensures c.start.Keys == {0, 1, 3} ==> d.job == 2 && d.t <= 9
  {
    hide ValidList, ValidJob, ValidScenario;
    StartableIs(sc, c, d.job, d.t);
    KeptApartJob(d.job);
    ReleasesAre(sc);
    Earlier(sc, c, d, 1, 0);
    Earlier(sc, c, d, 0, c.cores[0].free);
    Earlier(sc, c, d, 1, c.cores[0].free);
    Earlier(sc, c, d, 3, 7);
    Earlier(sc, c, d, 2, 9);
    StartableIs(sc, c, 3, d.t);
  }

  /** The scheduler does not wait for longer than it takes some job to become ready. */
  lemma Earlier(sc: Scenario, c: Config, d: Decision, k: nat, x: int)
    requires ValidScenario(KeptApart(), sc) && |c.cores| == 1 && Legal(KeptApart(), sc, c, d)
    ensures CanStart(sc, c, k, x) ==> d.t <= x
  {
    StartableIs(sc, c, k, x);
  }

  lemma OneTaken(cores: seq<Core>, cores': seq<Core>, j: nat, t: int, f: int)
    requires |cores| == 1 && Occupies(cores, cores', j, 1, t, f) && cores[0].owner != Some(j)
    ensures |cores'| == 1 && cores'[0].free == f
  {
    assert cores'[..0] == [];
  }

  /** What happens next, by how far the run has come. */
  ghost predicate Upcoming(c: Config, d: Decision)
    requires |c.cores| == 1
  {
    && d.job !in c.start
    && (c.start.Keys == {} ==> d.job < 2 && d.t == 0 && 1 <= d.f <= 2)
    && (c.start.Keys == {0} ==> d.job == 1 && d.t == c.cores[0].free && d.t + 1 <= d.f <= d.t + 2)
    && (c.start.Keys == {1} ==> d.job == 0 && d.t == c.cores[0].free && d.t + 1 <= d.f <= d.t + 2)
    && (c.start.Keys == {0, 1} ==> d.job == 3 && d.f == 8)
    && (c.start.Keys == {0, 1, 3} ==> d.job == 2 && d.f <= 12)
  }

  lemma StageAfter(b: Config, d: Decision, c: Config)
    requires Stage(b) && d.job < 4 && Upcoming(b, d)
    requires |c.cores| == 1 && c.cores[0].free == d.f
    requires c.start == b.start[d.job := d.t] && c.finish == b.finish[d.job := d.f]
    ensures Stage(c) && d.f <= KeptApart().jobs[d.job].deadline
  {
    assert c.start.Keys == b.start.Keys + {d.job} && c.finish.Keys == b.finish.Keys + {d.job};
  }

  lemma StageAdvances(sc: Scenario, b: Config, d: Decision, c: Config)
    requires ValidScenario(KeptApart(), sc) && Stage(b) && Step(KeptApart(), sc, b, d, c)
    requires b.cores[0].owner != Some(d.job)
    ensures Stage(c) && d.job < 4 && d.f <= KeptApart().jobs[d.job].deadline
  {
    NextIs(sc, b, d);
    KeptApartJob(d.job);
    OneTaken(b.cores, c.cores, d.job, d.t, d.f);
    CostIs(sc, b, d);
    hide Stage, Startable, ValidScenario, Occupies, KeptApart;
    StageAfter(b, d, c);
  }

  lemma CostIs(sc: Scenario, c: Config, d: Decision)
    requires Legal(KeptApart(), sc, c, d) && d.job < 4 && d.level == 0
    ensures d.job < 2 ==> d.t + 1 <= d.f <= d.t + 2
    ensures d.job == 2 ==> d.f == d.t + 3
    ensures d.job == 3 ==> d.f == d.t + 1
  {
    hide Startable;
  }

  lemma {:induction false} RunsStaged(sc: Scenario, r: Run)
    requires ValidScenario(KeptApart(), sc) && IsRun(KeptApart(), sc, PLATFORM, r)
    ensures Stage(r.end) && (forall i :: 0 <= i < |r.end.cores| && r.end.cores[i].owner.Some? ==>
                               r.end.cores[i].owner.value in r.end.start)
    ensures r.Then? ==> r.decision.job < 4 && r.decision.f <= KeptApart().jobs[r.decision.job].deadline
  {
    hide Problem.IsJob;
    match r {
      case Begin(c) =>
      case Then(before, d, c) =>
        RunsStaged(sc, before);
        StageAdvances(sc, before.end, d, c);
    }
  }

  /** Every run meets every deadline. */
  lemma AllInTime()
    ensures DeadlinesMet(KeptApart(), PLATFORM)
  {
    hide Stage, IsRun, ValidScenario;
    forall sc: Scenario, r: Run | ValidScenario(KeptApart(), sc) && IsRun(KeptApart(), sc, PLATFORM, r) && r.Then?
      ensures KeptApart().IsJob(r.decision.job) && r.decision.f <= KeptApart().jobs[r.decision.job].deadline
    {
      RunsStaged(sc, r);
    }
  }

  // ---- A derivable state ----

  lemma NothingReady(scheduled: set<nat>)
    requires scheduled <= {0, 1, 2, 3}
    ensures Closed(KeptApart(), scheduled) && ReadyExact(KeptApart(), scheduled, [])
  {
    forall k: nat | k < 4
      ensures !HasPreds(KeptApart(), k)
    {
      ConstraintsOf(k);
    }
  }

  lemma SourceOf(k: nat)
    requires k < 4
    ensures ValidProblem(KeptApart()) && !HasPreds(KeptApart(), k) && PredsIn(KeptApart(), k, {})
    ensures CategoryOf(KeptApart(), k) == if k < 3 then MutexSource else Sequential
  {
    KeptApartValid();
    hide ValidProblem;
    KeptApartJob(k);
    ConstraintsOf(k);
    assert HasExclusions(KeptApart(), k) <==> k < 3;
  }

  /** When a job can be started at the earliest. */
  lemma EarliestStartIs(v: View, k: nat)
    requires k < 4 && ValidProblem(KeptApart()) && |v.cores| == 1
    ensures |KeptApart().jobs[k].levels| == 1
    ensures k < 2 && 2 !in v.finishes ==>
              EarliestStart(KeptApart(), v, k, 0) == Max(KeptApart().jobs[k].arrival.min, v.cores[0].min)
    ensures k == 2 && 0 in v.finishes && 1 in v.finishes ==>
              EarliestStart(KeptApart(), v, k, 0)
                == Max(Max(6, Max(v.finishes[0].min, v.finishes[1].min) + 5), v.cores[0].min)
  {
    hide ValidConstraints, Refers, KeptApart, ValidList;
    KeptApartJob(k);
    ConstraintsOf(k);
    hide ValidProblem;
    var list := KeptApart().cons[k].exclFinish;
    assert |list| == |Others(k)| && forall i :: 0 <= i < |list| ==> list[i] == Delay(Others(k)[i], Interval(5, 5));
    var a := KeptApart().jobs[k].arrival.min;
    if k < 2 {
      assert EarliestOver(list, v.finishes, a, 1) == if 2 in v.finishes then Max(a, v.finishes[2].min + 5) else a;
    } else if k == 2 && 0 in v.finishes && 1 in v.finishes {
      assert EarliestOver(list, v.finishes, a, 1) == Max(a, v.finishes[0].min + 5);
      assert EarliestOver(list, v.finishes, a, 2) == Max(Max(a, v.finishes[0].min + 5), v.finishes[1].min + 5);
    }
  }

  /** No job of higher priority is certainly ready by `t`. */
  lemma NoRivalYet(scheduled: set<nat>, v: View, j: nat, t: int)
    requires ValidProblem(KeptApart()) && |v.cores| == 1 && j < 4
    requires forall k: nat :: k < 4 && k !in scheduled && PriorTo(KeptApart(), k, j) ==>
               t < KeptApart().jobs[k].arrival.max
    ensures !Reached(PriorityBound(KeptApart(), scheduled, v, j, 1), t)
  {
    var p := KeptApart();
    forall cat: Category, k: nat | k < 4
      ensures !Reached(RivalBound(p, scheduled, v, j, 1, cat, k), t)
    {
      RivalAfterArrival(p, scheduled, v, j, 1, k);
    }
    hide ValidProblem, RivalBound;
    NextRivalExact(p, scheduled, v, j, 1, Sequential, 4);
    NextRivalExact(p, scheduled, v, j, 1, Gang, 4);
    NextRivalExact(p, scheduled, v, j, 1, MutexSource, 4);
    NextRivalExact(p, scheduled, v, j, 1, Successor, 4);
  }

  /** No kind of job can certainly be started before `t`. */
  lemma CertainFrom(scheduled: set<nat>, v: View, cat: Category, t: int)
    requires ValidProblem(KeptApart()) && |v.cores| == 1
    requires forall k: nat :: k < 4 && k !in scheduled ==> t <= KeptApart().jobs[k].arrival.max
    ensures LeB(Fin(t), Certain(KeptApart(), scheduled, v, cat))
  {
    var p := KeptApart();
    forall k: nat | k < 4
      ensures LeB(Fin(t), CertainBound(p, scheduled, v, cat, k))
    {
      CertainAfterArrival(p, v, k);
    }
    hide ValidProblem, CertainBound;
    NextCertainExact(p, scheduled, v, cat, 4);
  }

  /** A sound state of the first two jobs expects no other job before 6. */
  ghost predicate Expects(scheduled: set<nat>, v: View) {
    && Sound(KeptApart(), PLATFORM, scheduled, v) && |v.cores| == 1 && v.cores[0].Ok() && v.lowest == None
    && (0 in scheduled && 1 in scheduled ==>
          LeB(Fin(6), v.certainSuccessor) && LeB(Fin(6), v.certainGang) && LeB(Fin(6), v.certainMutex))
  }

  /** The finish times of the first two jobs are recorded until the last one has been dispatched. */
  lemma FinishesKnown(scheduled: set<nat>, v: View, q: nat)
    requires Sound(KeptApart(), PLATFORM, scheduled, v) && q < 2
    ensures q in v.finishes <==> q in scheduled && 2 !in scheduled
    ensures 2 in v.finishes ==> 2 in scheduled
  {
    ConstraintsOf(q);
    hide Derivable, CoreExact, Undisturbed, SequentialJobs, Uniprocessor;
    var c := KeptApart().cons[q];
    assert Exclusions(c, FinishConstraints) == c.exclFinish && |c.exclFinish| == 1 && c.exclFinish[0].ref == 2;
    assert Live(KeptApart(), q, FinishConstraints, scheduled) <==> 2 !in scheduled;
  }

  lemma FirstExpects()
    ensures ValidProblem(KeptApart()) && Expects({}, InitialView(KeptApart(), PLATFORM))
    ensures InitialView(KeptApart(), PLATFORM).cores[0].min == 0
  {
    KeptApartValid();
    InitialSound(KeptApart(), PLATFORM);
    hide ValidProblem, Sound;
    assert SortTimes([]) == [];
    assert Mins(PLATFORM)[..0] == [] && Maxs(PLATFORM)[..0] == [];
    assert SortTimes(Mins(PLATFORM)) == [0] && SortTimes(Maxs(PLATFORM)) == [0];
  }

  /** `j` may be dispatched next, at its earliest start. */
  ghost predicate CanFollow(scheduled: set<nat>, v: View, j: nat)
    requires ValidProblem(KeptApart()) && |v.cores| == 1
  {
    && j < 4 && j !in scheduled && |KeptApart().jobs[j].levels| == 1
    && var est := EarliestStart(KeptApart(), v, j, 0);
       && LeB(Fin(est), WorkConservingBound(KeptApart(), scheduled, v))
       && forall k: nat :: k < 4 && k !in scheduled && PriorTo(KeptApart(), k, j) ==>
            est < KeptApart().jobs[k].arrival.max
  }

  lemma FollowDispatchable(scheduled: set<nat>, v: View, j: nat)
    requires ValidProblem(KeptApart()) && |v.cores| == 1 && v.lowest == None && CanFollow(scheduled, v, j)
    ensures Dispatchable(KeptApart(), scheduled, v, j, 0)
  {
    hide ValidConstraints;
    NoRivalYet(scheduled, v, j, EarliestStart(KeptApart(), v, j, 0));
    SourceOf(j);
    KeptApartJob(j);
    hide ValidProblem, PriorityBound, WorkConservingBound, EarliestStart, KeptApart, HasPreds;
  }

  lemma FollowReady(scheduled: set<nat>, v: View, j: nat)
    requires ValidProblem(KeptApart()) && Expects(scheduled, v) && |v.cores| == 1 && CanFollow(scheduled, v, j)
    requires scheduled <= {0, 1, 2, 3}
    ensures DispatchReady(KeptApart(), scheduled, v, j, 0)
  {
    hide ValidProblem, Closed, StateInvariant, Derivable, CoreExact, Undisturbed, Dispatchable, CanFollow, KeptApart;
    FollowDispatchable(scheduled, v, j);
    NothingReady(scheduled);
  }

  /** The state that results. */
  ghost function Following(scheduled: set<nat>, v: View, j: nat): View
    requires DispatchReady(KeptApart(), scheduled, v, j, 0) && scheduled <= {0, 1, 2, 3} && |v.cores| == 1
  {
    TimedCores(KeptApart(), scheduled, v, j, 0);
    NextView(KeptApart(), scheduled + {j}, [], v, j, StartInterval(KeptApart(), scheduled, v, j, 0),
             FinishInterval(KeptApart(), scheduled, v, j, 0), KeptApart().jobs[j].levels[0].cores)
  }

  lemma FinishMins(known: map<nat, Interval>, j: nat, start: Interval, finish: Interval, pending: set<nat>,
                   c: JobConstraints, single: bool)
    ensures var r := FinishTimes(known, j, start, finish, pending, c, single);
            && (j in r ==> r[j] == finish)
            && forall q :: q in r && q != j ==> q in known && r[q].min <= known[q].min
  {
  }

  lemma FollowingCores(scheduled: set<nat>, v: View, j: nat)
    requires DispatchReady(KeptApart(), scheduled, v, j, 0) && scheduled <= {0, 1, 2, 3} && |v.cores| == 1
    ensures Following(scheduled, v, j).cores == [FinishInterval(KeptApart(), scheduled, v, j, 0)]
    ensures FinishInterval(KeptApart(), scheduled, v, j, 0).Ok()
  {
    KeptApartJob(j);
    TimedCores(KeptApart(), scheduled, v, j, 0);
    DispatchIntervalsOk(KeptApart(), scheduled, v, j, 0);
    DispatchedOnOneCore(v.cores, StartInterval(KeptApart(), scheduled, v, j, 0),
        FinishInterval(KeptApart(), scheduled, v, j, 0), FreedCores(v.running, KeptApart().cons[j]));
    hide ValidProblem, Dispatchable, StartInterval, FinishInterval, Dispatched, Certain, PendingSet, KeptApart,
        StartTimes, FinishTimes, Survivors, InsertByJob, FreedCores, Conserved, WellFormed;
  }

  lemma FollowingFinishes(scheduled: set<nat>, v: View, j: nat)
    requires DispatchReady(KeptApart(), scheduled, v, j, 0) && scheduled <= {0, 1, 2, 3} && |v.cores| == 1
    ensures var w := Following(scheduled, v, j);
            && w.lowest == None
            && (j in w.finishes ==> w.finishes[j] == FinishInterval(KeptApart(), scheduled, v, j, 0))
            && forall q :: q in w.finishes && q != j ==> q in v.finishes && w.finishes[q].min <= v.finishes[q].min
  {
    KeptApartJob(j);
    TimedCores(KeptApart(), scheduled, v, j, 0);
    FinishMins(v.finishes, j, StartInterval(KeptApart(), scheduled, v, j, 0),
        FinishInterval(KeptApart(), scheduled, v, j, 0), PendingSet(KeptApart(), FinishConstraints, scheduled + {j}),
        KeptApart().cons[j], true);
    hide ValidProblem, Dispatchable, StartInterval, FinishInterval, Dispatched, Certain, PendingSet, KeptApart,
        StartTimes, FinishTimes, Survivors, InsertByJob, FreedCores, Conserved, WellFormed;
  }

  lemma ConcludedCertain(later: set<nat>, t: View)
    requires ValidProblem(KeptApart()) && |t.cores| == 1 && 0 in later && 1 in later
    ensures var w := Concluded(KeptApart(), later, [], t);
            LeB(Fin(6), w.certainSuccessor) && LeB(Fin(6), w.certainGang) && LeB(Fin(6), w.certainMutex)
  {
    CertainFrom(later, t, Successor, 6);
    CertainFrom(later, t, Gang, 6);
    CertainFrom(later, t, MutexSource, 6);
    hide ValidProblem, Certain, LowestNext;
  }

  lemma FollowingCertain(scheduled: set<nat>, v: View, j: nat)
    requires DispatchReady(KeptApart(), scheduled, v, j, 0) && scheduled <= {0, 1, 2, 3} && |v.cores| == 1
    requires 0 in scheduled + {j} && 1 in scheduled + {j}
    ensures var w := Following(scheduled, v, j);
            LeB(Fin(6), w.certainSuccessor) && LeB(Fin(6), w.certainGang) && LeB(Fin(6), w.certainMutex)
  {
    KeptApartJob(j);
    TimedCores(KeptApart(), scheduled, v, j, 0);
    FollowingCores(scheduled, v, j);
    hide ValidProblem, Dispatchable, StartInterval, FinishInterval, Certain, KeptApart, Timed, StateInvariant,
        Closed, Conserved, WellFormed;
    ConcludedCertain(scheduled + {j}, Timed(KeptApart(), scheduled + {j}, v, j,
        StartInterval(KeptApart(), scheduled, v, j, 0), FinishInterval(KeptApart(), scheduled, v, j, 0),
        KeptApart().jobs[j].levels[0].cores));
  }

  lemma FollowingExpects(scheduled: set<nat>, v: View, j: nat)
    requires ValidProblem(KeptApart()) && Expects(scheduled, v) && CanFollow(scheduled, v, j)
    requires scheduled <= {0, 1, 2, 3}
    ensures DispatchReady(KeptApart(), scheduled, v, j, 0) && Expects(scheduled + {j}, Following(scheduled, v, j))
  {
    hide CoreExact, FreedCores, Closed, ValidJob, Refers, Realisable, NextView;
    FollowReady(scheduled, v, j);
    NothingReady(scheduled + {j});
    KeptApartJob(j);
    hide ValidProblem, Sound, DispatchReady, StartInterval, FinishInterval, CanFollow, Concluded, Timed, KeptApart,
        ReadyExact;
    NextSound(KeptApart(), PLATFORM, scheduled, v, j, 0, []);
    FollowingCores(scheduled, v, j);
    FollowingFinishes(scheduled, v, j);
    if 0 in scheduled + {j} && 1 in scheduled + {j} {
      FollowingCertain(scheduled, v, j);
    }
  }

  lemma ExpectsFacts(scheduled: set<nat>, v: View)
    requires Expects(scheduled, v)
    ensures |v.cores| == 1 && v.cores[0].Ok() && v.lowest == None && Sound(KeptApart(), PLATFORM, scheduled, v)
  {
  }

  /** The earliest times after a dispatch. */
  lemma Follow(scheduled: set<nat>, v: View, j: nat) returns (w: View)
    requires ValidProblem(KeptApart()) && Expects(scheduled, v) && |v.cores| == 1 && CanFollow(scheduled, v, j)
    requires scheduled <= {0, 1, 2, 3} && |KeptApart().jobs[j].levels| == 1
    ensures Expects(scheduled + {j}, w) && |w.cores| == 1
    ensures w.cores[0].min == EarliestStart(KeptApart(), v, j, 0) + KeptApart().jobs[j].levels[0].cost.min
    ensures j in w.finishes ==> w.finishes[j].min == w.cores[0].min
    ensures forall q :: q in w.finishes && q != j ==> q in v.finishes && w.finishes[q].min <= v.finishes[q].min
  {
    FollowingExpects(scheduled, v, j);
    FollowingCores(scheduled, v, j);
    FollowingFinishes(scheduled, v, j);
    w := Following(scheduled, v, j);
    hide ValidProblem, Expects, CanFollow, DispatchReady, Following, KeptApart, EarliestStart, LatestStart;
  }

  lemma Priorities(k: nat, j: nat)
    requires k < 4 && j < 4
    ensures PriorTo(KeptApart(), k, j) <==> (k < j && j != 3) || (k == 3 && j == 2) || (k < 2 && j == 3)
  {
  }

  lemma NotBeforeCore(scheduled: set<nat>, v: View)
    requires ValidProblem(KeptApart()) && |v.cores| == 1 && v.cores[0].Ok()
    ensures LeB(Fin(v.cores[0].min), WorkConservingBound(KeptApart(), scheduled, v))
  {
    hide ValidProblem, NextCertainReady;
  }

  lemma ReadyAtOnce(scheduled: set<nat>, v: View, j: nat)
    requires ValidProblem(KeptApart()) && |v.cores| == 1 && v.cores[0].Ok() && v.cores[0].min >= 0
    requires 2 !in v.finishes && j < 2 && j !in scheduled && (v.cores[0].min == 0 || 0 in scheduled || 1 in scheduled)
    ensures CanFollow(scheduled, v, j) && EarliestStart(KeptApart(), v, j, 0) == v.cores[0].min
    ensures KeptApart().jobs[j].levels[0].cost.min == 1
  {
    EarliestStartIs(v, j);
    NotBeforeCore(scheduled, v);
    assert KeptApart().jobs[0].arrival.max == 1;
    forall k: nat | k < 4
      ensures PriorTo(KeptApart(), k, j) ==> k == 0 && j == 1
    {
      Priorities(k, j);
    }
    hide ValidProblem, EarliestStart, WorkConservingBound, PriorTo;
  }

  /** What the dispatch of the first two jobs leaves behind. */
  ghost predicate BothDone(v: View, a: int, b: int) {
    && Expects({0, 1}, v) && |v.cores| == 1 && v.cores[0].min == 2
    && 0 in v.finishes && 1 in v.finishes && v.finishes[0].min <= a && v.finishes[1].min <= b
  }

  /** Job `i` before the other one. */
  lemma OneOrder(i: nat) returns (v: View)
    requires i < 2
    ensures ValidProblem(KeptApart()) && (if i == 0 then BothDone(v, 1, 2) else BothDone(v, 2, 1))
  {
    FirstExpects();
    hide ValidProblem, Sound, EarliestStart, InitialView, CanFollow, Expects, KeptApart;
    var v0 := InitialView(KeptApart(), PLATFORM);
    ExpectsFacts({}, v0);
    FinishesKnown({}, v0, i);
    ReadyAtOnce({}, v0, i);
    KeptApartJob(i);
    var v1 := Follow({}, v0, i);
    assert {} + {i} == {i};
    ExpectsFacts({i}, v1);
    FinishesKnown({i}, v1, i);
    ReadyAtOnce({i}, v1, 1 - i);
    KeptApartJob(1 - i);
    v := Follow({i}, v1, 1 - i);
    assert {i} + {1 - i} == {0, 1};
    ExpectsFacts({0, 1}, v);
    FinishesKnown({0, 1}, v, 0);
    FinishesKnown({0, 1}, v, 1);
  }

  lemma MergedBoth(a: View, b: View)
    requires BothDone(a, 1, 2) && BothDone(b, 2, 1) && Mergeables(KeptApart(), a, b)
    requires Sound(KeptApart(), PLATFORM, {0, 1}, Merged(KeptApart(), a, b))
    ensures BothDone(Merged(KeptApart(), a, b), 1, 1)
  {
    hide Sound, KeptApart, Common, SameJobs;
  }

  lemma CoresOverlap(a: View, b: View)
    requires BothDone(a, 1, 2) && BothDone(b, 2, 1)
    ensures Mergeable(a.cores, b.cores, false)
    ensures Sound(KeptApart(), PLATFORM, {0, 1}, a) && Sound(KeptApart(), PLATFORM, {0, 1}, b)
  {
    hide Sound, KeptApart;
  }

  /** The two orders are merged, and it seems that both jobs may have finished at 1. */
  lemma BothOrders() returns (v: View)
    ensures ValidProblem(KeptApart()) && BothDone(v, 1, 1)
  {
    hide ValidProblem, Sound, KeptApart, BothDone, Merged, Mergeable, SameJobs;
    var a := OneOrder(0);
    var b := OneOrder(1);
    CoresOverlap(a, b);
    MergedSound(KeptApart(), PLATFORM, {0, 1}, a, b, false);
    MergedBoth(a, b);
    v := Merged(KeptApart(), a, b);
  }

  lemma NotBeforeSix(v: View)
    requires ValidProblem(KeptApart()) && |v.cores| == 1
    requires LeB(Fin(6), v.certainSuccessor) && LeB(Fin(6), v.certainGang) && LeB(Fin(6), v.certainMutex)
    ensures LeB(Fin(6), WorkConservingBound(KeptApart(), {0, 1}, v))
  {
    assert KeptApart().jobs[2].arrival.max == 6 && KeptApart().jobs[3].arrival.max == 7;
    hide ValidProblem, Certain, KeptApart;
    CertainFrom({0, 1}, v, Sequential, 6);
  }

  lemma BothDoneFacts(v: View)
    requires BothDone(v, 1, 1)
    ensures |v.cores| == 1 && v.cores[0].min == 2
    ensures 0 in v.finishes && 1 in v.finishes && v.finishes[0].min <= 1 && v.finishes[1].min <= 1
    ensures LeB(Fin(6), v.certainSuccessor) && LeB(Fin(6), v.certainGang) && LeB(Fin(6), v.certainMutex)
  {
    hide Sound;
  }

  lemma LastFollows(v: View)
    requires ValidProblem(KeptApart()) && BothDone(v, 1, 1)
    ensures |v.cores| == 1 && CanFollow({0, 1}, v, 2) && EarliestStart(KeptApart(), v, 2, 0) == 6
    ensures KeptApart().jobs[2].levels[0].cost.min == 3
  {
    hide Expects, Refers;
    assert KeptApart().jobs[3].arrival.max == 7 && KeptApart().jobs[2].levels[0].cost.min == 3;
    hide ValidProblem, EarliestStart, WorkConservingBound, BothDone, PriorTo, KeptApart;
    BothDoneFacts(v);
    EarliestStartIs(v, 2);
    NotBeforeSix(v);
    forall k: nat | k < 4 && k !in {0, 1}
      ensures PriorTo(KeptApart(), k, 2) ==> k == 3
    {
      Priorities(k, 2);
    }
  }

  /** In the merged state the last job can be dispatched at 6, so that the urgent one has to wait until 9. */
  lemma MissDeemedPossible()
    ensures MissPossible(KeptApart(), PLATFORM)
  {
    var v := BothOrders();
    hide ValidProblem, Sound, EarliestStart, CanFollow, Expects, KeptApart;
    LastFollows(v);
    KeptApartJob(2);
    var w := Follow({0, 1}, v, 2);
    assert {0, 1} + {2} == {0, 1, 2};
    ExpectsFacts({0, 1, 2}, w);
    UrgentWaits(w);
  }

  lemma UrgentWaits(w: View)
    requires |w.cores| == 1 && w.cores[0].min == 9
    ensures LateIn(KeptApart(), {0, 1, 2}, w, 3)
  {
  }

  /** With exclusion constraints, a miss that the analysis deems possible on one core need not be real. */
  lemma ExclusionsNotExact()
    ensures var p := KeptApart();
            && ValidProblem(p) && ValidPlatform(p, PLATFORM) && p.m == 1
            && (forall k: nat :: p.IsJob(k) ==> !HasPreds(p, k) && |p.jobs[k].levels| == 1)
            && MissPossible(p, PLATFORM) && DeadlinesMet(p, PLATFORM)
  {
    KeptApartValid();
    hide ValidProblem, MissPossible, DeadlinesMet, ValidPlatform;
    MissDeemedPossible();
    AllInTime();
    forall k: nat | KeptApart().IsJob(k)
      ensures !HasPreds(KeptApart(), k) && |KeptApart().jobs[k].levels| == 1
    {
      SourceOf(k);
      KeptApartJob(k);
    }
  }
}
