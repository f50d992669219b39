// No legal scheduling decision escapes the formulas: the job is dispatchable at its
// level, starts within the start interval and finishes within the finish interval.
module StepCoverage {
  import opened Times
  import opened Counting
  import opened Jobs
  import opened Workload
  import opened Scheduler
  import opened CoreAvailability
  import opened RunningJobs
  import opened PendingSuccessors
  import opened Abstraction
  import opened LatestReady
  import opened NextDispatch

  /** What holds when a decision is taken in a configuration covered by a state. */
  ghost predicate Situation(p: Problem, sc: Scenario, s: View, c: Config) {
    && ValidProblem(p) && ValidScenario(p, sc)
    && Consistent(p, sc, c)
    && StateInvariant(p, c.start.Keys, s)
    && Covers(p, sc, s, c)
  }

  /** A job without constraints of its own is ready once released. */
  lemma IndependentReady(p: Problem, sc: Scenario, c: Config, k: nat, x: int)
    requires p.IsJob(k) && ValidScenario(p, sc) && !HasPreds(p, k) && !HasExclusions(p, k)
    requires p.jobs[k].arrival.max <= x
    ensures ReadyBy(p, sc, c, k, x)
  {
    assert p.jobs[k].arrival.Has(sc.release(k));
  }

  /** A job that is ready and has its cores by `x` keeps both later. */
  lemma StartableLater(p: Problem, sc: Scenario, c: Config, k: nat, x: int, y: int)
    requires Startable(p, sc, c, k, x) && x <= y
    ensures Startable(p, sc, c, k, y)
  {
    BelowMonotone(FreeTimes(c.cores), x, y);
  }

  /** An independent job can be started once it is released and its cores are available. */
  lemma IndependentStartable(p: Problem, sc: Scenario, s: View, c: Config, k: nat, x: int)
    requires ValidProblem(p) && ValidScenario(p, sc) && |s.cores| == p.m && WellFormed(s.cores)
        && CoresCover(s.cores, c)
    requires Eligible(p, c.start.Keys, k) && !HasPreds(p, k) && !HasExclusions(p, k)
    requires p.jobs[k].arrival.max <= x && CoresBy(p, s.cores, k) <= x
    ensures Startable(p, sc, c, k, x)
  {
    assert ValidJob(p.jobs[k], p.m);
    IndependentReady(p, sc, c, k, x);
    AvailableBy(s.cores, c, p.jobs[k].MinCores(), x);
  }

  /** Any job can be started once its latest ready time has passed and its cores are available. */
  lemma ConstrainedStartable(p: Problem, sc: Scenario, s: View, c: Config, k: nat, x: int)
    requires ValidProblem(p) && ValidScenario(p, sc) && c.start.Keys == c.finish.Keys
    requires StateInvariant(p, c.start.Keys, s) && CoresCover(s.cores, c)
    requires TimesCover(s.starts, c.start) && TimesCover(s.finishes, c.finish)
    requires Eligible(p, c.start.Keys, k) && ReadyTimes(p, s, k).max <= x && CoresBy(p, s.cores, k) <= x
    ensures Startable(p, sc, c, k, x)
  {
    assert ValidJob(p.jobs[k], p.m);
    ReadyTimesLatest(p, sc, c.start.Keys, s, c, k, x);
    AvailableBy(s.cores, c, p.jobs[k].MinCores(), x);
  }

  /** The time by which a job can certainly be started is right. */
  lemma CertainTimeSound(p: Problem, sc: Scenario, s: View, c: Config, k: nat, x: int)
    requires ValidProblem(p) && ValidScenario(p, sc) && c.start.Keys == c.finish.Keys
    requires StateInvariant(p, c.start.Keys, s) && CoresCover(s.cores, c)
    requires TimesCover(s.starts, c.start) && TimesCover(s.finishes, c.finish)
    requires Eligible(p, c.start.Keys, k) && CertainTime(p, s, k) <= x
    requires InCategory(p, c.start.Keys, Sequential, k) ==> s.cores[0].max <= x
    ensures Startable(p, sc, c, k, x)
  {
    assert ValidJob(p.jobs[k], p.m);
    if CategoryOf(p, k) == Sequential || CategoryOf(p, k) == Gang {
      IndependentStartable(p, sc, s, c, k, x);
    } else {
      ConstrainedStartable(p, sc, s, c, k, x);
    }
  }

  /** Once a rival's time has come, the rival can be started. */
  lemma RivalTimeSound(p: Problem, sc: Scenario, s: View, c: Config, j: nat, used: nat, k: nat, t: int)
    requires Situation(p, sc, s, c)
    requires Eligible(p, c.start.Keys, k) && p.IsJob(j)
    requires ReadyBy(p, sc, c, j, t) && c.now <= t && FreeAt(c, t) >= used >= 1
    requires RivalTime(p, c.start.Keys, s, j, used, k) <= t
    ensures Startable(p, sc, c, k, t)
  {
    assert ValidJob(p.jobs[k], p.m);
    match CategoryOf(p, k) {
      case Sequential =>
        IndependentReady(p, sc, c, k, t);
      case Gang =>
        IndependentReady(p, sc, c, k, t);
        if p.jobs[k].MinCores() > used {
          AvailableBy(s.cores, c, p.jobs[k].MinCores(), t);
        }
      case _ =>
        ConditionalLatestReadySound(p, sc, s, c, k, j, used, t);
    }
  }

  /** No job of higher priority can be started when `j` is. */
  ghost predicate TopPriority(p: Problem, sc: Scenario, c: Config, j: nat, t: int)
    requires p.IsJob(j)
  {
    forall k :: Startable(p, sc, c, k, t) ==> !PriorTo(p, k, j)
  }

  /** No job could have been started before `t`. */
  ghost predicate NothingBefore(p: Problem, sc: Scenario, c: Config, t: int) {
    forall k, x :: x < t ==> !Startable(p, sc, c, k, x)
  }

  lemma BeforeRival(p: Problem, sc: Scenario, s: View, c: Config, j: nat, used: nat, cat: Category, t: int)
    requires Situation(p, sc, s, c) && p.IsJob(j) && TopPriority(p, sc, c, j, t)
    requires ReadyBy(p, sc, c, j, t) && c.now <= t && FreeAt(c, t) >= used >= 1
    ensures !Reached(Rival(p, c.start.Keys, s, j, used, cat), t)
  {
    hide ValidProblem;
    var d := c.start.Keys;
    NextRivalExact(p, d, s, j, used, cat, |p.jobs|);
    if Reached(Rival(p, d, s, j, used, cat), t) {
      var k: nat :| k < |p.jobs| && RivalBound(p, d, s, j, used, cat, k) == Rival(p, d, s, j, used, cat);
      RivalTimeSound(p, sc, s, c, j, used, k, t);
      assert false;
    }
  }

  /** The dispatched job starts before the priority bound. */
  lemma BeforePriorityBound(p: Problem, sc: Scenario, s: View, c: Config, j: nat, used: nat, t: int)
    requires Situation(p, sc, s, c) && p.IsJob(j) && TopPriority(p, sc, c, j, t)
    requires ReadyBy(p, sc, c, j, t) && c.now <= t && FreeAt(c, t) >= used >= 1
    ensures !Reached(PriorityBound(p, c.start.Keys, s, j, used), t)
  {
    BeforeRival(p, sc, s, c, j, used, Sequential, t);
    BeforeRival(p, sc, s, c, j, used, Gang, t);
    BeforeRival(p, sc, s, c, j, used, MutexSource, t);
    BeforeRival(p, sc, s, c, j, used, Successor, t);
  }

  /** A bound by which some job can certainly be started does not lie before the next dispatch. */
  lemma BeforeCertain(p: Problem, sc: Scenario, c: Config, b: Bound, t: int)
    requires CertainBy(p, sc, c, b) && NothingBefore(p, sc, c, t)
    ensures LeB(Fin(t), b)
  {
  }

  /** The next dispatch happens by the work-conserving bound. */
  lemma ByWorkConservingBound(p: Problem, sc: Scenario, s: View, c: Config, t: int)
    requires Situation(p, sc, s, c) && NothingBefore(p, sc, c, t)
    ensures LeB(Fin(t), WorkConservingBound(p, c.start.Keys, s))
  {
    hide ValidProblem;
    var d := c.start.Keys;
    BeforeCertain(p, sc, c, s.certainSuccessor, t);
    BeforeCertain(p, sc, c, s.certainGang, t);
    BeforeCertain(p, sc, c, s.certainMutex, t);
    NextCertainExact(p, d, s, Sequential, |p.jobs|);
    var b := Certain(p, d, s, Sequential);
    if b.Fin? && b.t < t && s.cores[0].max < t {
      var k: nat :| k < |p.jobs| && CertainBound(p, d, s, Sequential, k) == b;
      CertainTimeSound(p, sc, s, c, k, Max(b.t, s.cores[0].max));
      assert false;
    }
  }

  /** The job starts by the latest of its ready time and the availability of its cores. */
  lemma ByLatestReady(p: Problem, sc: Scenario, s: View, c: Config, j: nat, used: nat, t: int)
    requires Situation(p, sc, s, c) && NothingBefore(p, sc, c, t)
    requires Eligible(p, c.start.Keys, j) && |p.jobs[j].levels| > 0 && p.jobs[j].MinCores() <= used && 1 <= used <= p.m
    ensures t <= Max(ReadyTimes(p, s, j).max, s.cores[used - 1].max)
  {
    var x := Max(ReadyTimes(p, s, j).max, s.cores[used - 1].max);
    if x < t {
      ReadyTimesLatest(p, sc, c.start.Keys, s, c, j, x);
      AvailableBy(s.cores, c, used, x);
      assert Startable(p, sc, c, j, x);
      assert false;
    }
  }

  /** The job whose priority bounds the next dispatch from below does not exclude the job. */
  lemma LowestAllows(p: Problem, sc: Scenario, s: View, c: Config, j: nat, t: int)
    requires Situation(p, sc, s, c) && p.IsJob(j) && TopPriority(p, sc, c, j, t)
    requires c.now <= t && FreeAt(c, t) >= 1
    ensures s.lowest.Some? ==> p.IsJob(s.lowest.value) && !PriorTo(p, s.lowest.value, j)
  {
    hide ValidProblem;
    if s.lowest.Some? {
      var k :| Startable(p, sc, c, k, t) && !PriorTo(p, s.lowest.value, k);
    }
  }

  /** All bounds on the start of a job at a level hold at `t`. */
  ghost predicate WithinBounds(p: Problem, scheduled: set<nat>, s: View, j: nat, level: nat, t: int)
    requires ValidProblem(p) && p.IsJob(j) && level < |p.jobs[j].levels| && |s.cores| == p.m
  {
    LevelOnPlatform(p, j, level);
    var used := p.jobs[j].levels[level].cores;
    && (s.lowest.Some? ==> p.IsJob(s.lowest.value) && !PriorTo(p, s.lowest.value, j))
    && ReadyTimes(p, s, j).min <= t && s.cores[used - 1].min <= t
    && t <= Max(ReadyTimes(p, s, j).max, s.cores[used - 1].max)
    && LeB(Fin(t), WorkConservingBound(p, scheduled, s))
    && !Reached(PriorityBound(p, scheduled, s, j, used), t)
    && !Reached(ParallelismBound(p, s, j, level), t)
  }

  lemma BeforeParallelismBound(p: Problem, s: View, c: Config, j: nat, level: nat, t: int)
    requires ValidProblem(p) && |s.cores| == p.m && WellFormed(s.cores) && CoresCover(s.cores, c)
    requires p.IsJob(j) && level < |p.jobs[j].levels|
    requires level + 1 < |p.jobs[j].levels| ==> FreeAt(c, t) < p.jobs[j].levels[level + 1].cores
    ensures !Reached(ParallelismBound(p, s, j, level), t)
  {
    if level + 1 < |p.jobs[j].levels| {
      LevelOnPlatform(p, j, level + 1);
      if s.cores[p.jobs[j].levels[level + 1].cores - 1].max <= t {
        AvailableBy(s.cores, c, p.jobs[j].levels[level + 1].cores, t);
      }
    }
  }

  lemma LegalWithinBounds(p: Problem, sc: Scenario, s: View, c: Config, j: nat, level: nat, t: int)
    requires Situation(p, sc, s, c) && Eligible(p, c.start.Keys, j) && level < |p.jobs[j].levels|
    requires TopPriority(p, sc, c, j, t) && NothingBefore(p, sc, c, t) && ReadyBy(p, sc, c, j, t) && c.now <= t
    requires FreeAt(c, t) >= p.jobs[j].levels[level].cores
    requires level + 1 < |p.jobs[j].levels| ==> FreeAt(c, t) < p.jobs[j].levels[level + 1].cores
    ensures WithinBounds(p, c.start.Keys, s, j, level, t)
  {
    hide Consistent;
    var used := p.jobs[j].levels[level].cores;
    LevelOnPlatform(p, j, level);
    LowestAllows(p, sc, s, c, j, t);
    ReadyTimesEarliest(p, sc, s, c, j, t);
    AvailableFrom(s.cores, c, used, t);
    ByWorkConservingBound(p, sc, s, c, t);
    BeforePriorityBound(p, sc, s, c, j, used, t);
    ByLatestReady(p, sc, s, c, j, used, t);
    BeforeParallelismBound(p, s, c, j, level, t);
  }

  lemma BoundsDispatchable(p: Problem, scheduled: set<nat>, s: View, j: nat, level: nat, t: int, f: int)
    requires ValidProblem(p) && |s.cores| == p.m && Eligible(p, scheduled, j) && level < |p.jobs[j].levels|
    requires WithinBounds(p, scheduled, s, j, level, t) && p.jobs[j].levels[level].cost.Has(f - t)
    ensures Dispatchable(p, scheduled, s, j, level)
    ensures StartInterval(p, scheduled, s, j, level).Has(t) && FinishInterval(p, scheduled, s, j, level).Has(f)
  {
  }

  /** No guard excludes a legal decision, and the job starts and finishes within its intervals. */
  lemma LegalIsDispatchable(p: Problem, sc: Scenario, s: View, c: Config, d: Decision)
    requires Situation(p, sc, s, c) && Legal(p, sc, c, d)
    ensures Dispatchable(p, c.start.Keys, s, d.job, d.level)
    ensures StartInterval(p, c.start.Keys, s, d.job, d.level).Has(d.t)
    ensures FinishInterval(p, c.start.Keys, s, d.job, d.level).Has(d.f)
  {
    ReadyPreds(p, sc, c, d.job, d.t);
    LegalWithinBounds(p, sc, s, c, d.job, d.level, d.t);
    BoundsDispatchable(p, c.start.Keys, s, d.job, d.level, d.t, d.f);
  }
}
