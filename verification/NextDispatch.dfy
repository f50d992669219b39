// The formulas that decide whether a job may be the next one dispatched in a
// state, and within which intervals it then starts and finishes.
module NextDispatch {
  import opened Times
  import opened Counting
  import opened Jobs
  import opened Workload
  import opened Scheduler
  import opened CoreAvailability
  import opened RunningJobs
  import opened PendingSuccessors
  import opened ReadyJobs
  import opened Abstraction
  import opened LatestReady

  // ---- Kinds of jobs ----

  datatype Category = Sequential | Gang | MutexSource | Successor

  /** Jobs with predecessors; other jobs with exclusion constraints; and independent jobs that
      need one core or more. */
  function CategoryOf(p: Problem, k: nat): Category
    requires p.IsJob(k) && |p.jobs[k].levels| > 0
  {
    if HasPreds(p, k) then Successor
    else if HasExclusions(p, k) then MutexSource
    else if p.jobs[k].MinCores() == 1 then Sequential
    else Gang
  }

  /** Not dispatched yet, and all predecessors have been: such a job may be the next one. */
  predicate Eligible(p: Problem, scheduled: set<nat>, k: nat) {
    p.IsJob(k) && k !in scheduled && PredsIn(p, k, scheduled)
  }

  /** The latest availability of the cores that `k` needs at least. */
  function CoresBy(p: Problem, cores: seq<Interval>, k: nat): int
    requires ValidProblem(p) && p.IsJob(k) && |cores| == p.m
  {
    assert ValidJob(p.jobs[k], p.m);
    cores[p.jobs[k].MinCores() - 1].max
  }

  /** When `k` can certainly be started. */
  function CertainTime(p: Problem, s: View, k: nat): int
    requires ValidProblem(p) && p.IsJob(k) && |s.cores| == p.m
  {
    assert ValidJob(p.jobs[k], p.m);
    match CategoryOf(p, k)
    case Sequential => p.jobs[k].arrival.max
    case Gang => Max(p.jobs[k].arrival.max, CoresBy(p, s.cores, k))
    case _ => Max(ReadyTimes(p, s, k).max, CoresBy(p, s.cores, k))
  }

  /** When `k` certainly takes precedence over `j`, if `j` is about to be dispatched on `used` cores. */
  function RivalTime(p: Problem, scheduled: set<nat>, s: View, j: nat, used: nat, k: nat): int
    requires ValidProblem(p) && p.IsJob(j) && p.IsJob(k) && |s.cores| == p.m
  {
    assert ValidJob(p.jobs[k], p.m);
    match CategoryOf(p, k)
    case Sequential => p.jobs[k].arrival.max
    case Gang => if p.jobs[k].MinCores() > used then Max(p.jobs[k].arrival.max,
        CoresBy(p, s.cores, k)) else p.jobs[k].arrival.max
    case _ => ConditionalLatestReady(p, scheduled, s, k, j, used)
  }

  predicate InCategory(p: Problem, scheduled: set<nat>, cat: Category, k: nat)
    requires ValidProblem(p)
  {
    Eligible(p, scheduled, k) && (assert ValidJob(p.jobs[k], p.m); CategoryOf(p, k) == cat)
  }

  function CertainBound(p: Problem, scheduled: set<nat>, s: View, cat: Category, k: nat): Bound
    requires ValidProblem(p) && |s.cores| == p.m
  {
    if InCategory(p, scheduled, cat, k) then Fin(CertainTime(p, s, k)) else Inf
  }

  function RivalBound(p: Problem, scheduled: set<nat>, s: View, j: nat, used: nat, cat: Category, k: nat): Bound
    requires ValidProblem(p) && p.IsJob(j) && |s.cores| == p.m
  {
    if InCategory(p, scheduled, cat, k) && PriorTo(p, k, j) then Fin(RivalTime(p, scheduled, s, j, used, k)) else Inf
  }

  // ---- Minima over all jobs ----

  /** Earliest time by which some job of a category can certainly be started. */
  function NextCertain(p: Problem, scheduled: set<nat>, s: View, cat: Category, n: nat): Bound
    requires ValidProblem(p) && |s.cores| == p.m
  {
    if n == 0 then Inf else MinB(NextCertain(p, scheduled, s, cat, n - 1), CertainBound(p, scheduled, s, cat, n - 1))
  }

  /** Earliest time by which some job of a category certainly takes precedence over `j`. */
  function NextRival(p: Problem, scheduled: set<nat>, s: View, j: nat, used: nat, cat: Category, n: nat): Bound
    requires ValidProblem(p) && p.IsJob(j) && |s.cores| == p.m
  {
    if n == 0 then Inf
    else MinB(NextRival(p, scheduled, s, j, used, cat, n - 1), RivalBound(p, scheduled, s, j, used, cat, n - 1))
  }

  function Certain(p: Problem, scheduled: set<nat>, s: View, cat: Category): Bound
    requires ValidProblem(p) && |s.cores| == p.m
  {
    NextCertain(p, scheduled, s, cat, |p.jobs|)
  }

  function Rival(p: Problem, scheduled: set<nat>, s: View, j: nat, used: nat, cat: Category): Bound
    requires ValidProblem(p) && p.IsJob(j) && |s.cores| == p.m
  {
    NextRival(p, scheduled, s, j, used, cat, |p.jobs|)
  }

  lemma {:induction false} NextCertainExact(p: Problem, scheduled: set<nat>, s: View, cat: Category, n: nat)
    requires ValidProblem(p) && |s.cores| == p.m
    ensures forall k: nat :: k < n ==> LeB(NextCertain(p, scheduled, s, cat, n), CertainBound(p, scheduled, s, cat, k))
    ensures NextCertain(p, scheduled, s, cat, n).Fin? ==>
              exists k: nat :: k < n && CertainBound(p, scheduled, s, cat, k) == NextCertain(p, scheduled, s, cat, n)
  {
    if n > 0 {
      NextCertainExact(p, scheduled, s, cat, n - 1);
      assert CertainBound(p, scheduled, s, cat, n - 1) == CertainBound(p, scheduled, s, cat, n - 1);
    }
  }

  lemma {:induction false} NextRivalExact(p: Problem, scheduled: set<nat>, s: View, j: nat, used: nat, cat: Category,
                                          n: nat)
    requires ValidProblem(p) && p.IsJob(j) && |s.cores| == p.m
    ensures forall k: nat :: k < n ==>
              LeB(NextRival(p, scheduled, s, j, used, cat, n), RivalBound(p, scheduled, s, j, used, cat, k))
    ensures NextRival(p, scheduled, s, j, used, cat, n).Fin? ==>
              exists k: nat :: k < n && RivalBound(p, scheduled, s, j, used, cat, k) == NextRival(p, scheduled, s, j,
                  used, cat, n)
  {
    hide RivalBound;
    if n > 0 {
      NextRivalExact(p, scheduled, s, j, used, cat, n - 1);
      assert RivalBound(p, scheduled, s, j, used, cat, n - 1) == RivalBound(p, scheduled, s, j, used, cat, n - 1);
    }
  }

  // ---- The decision ----

  /** Earliest time by which some job can certainly be started in state `s`. */
  function NextCertainReady(p: Problem, scheduled: set<nat>, s: View): Bound
    requires ValidProblem(p) && |s.cores| == p.m
  {
    MinB(Certain(p, scheduled, s, Sequential), MinB(s.certainMutex, MinB(s.certainGang, s.certainSuccessor)))
  }

  /** By then a work-conserving scheduler has dispatched some job. */
  function WorkConservingBound(p: Problem, scheduled: set<nat>, s: View): Bound
    requires ValidProblem(p) && |s.cores| == p.m
  {
    MaxB(Fin(s.cores[0].max), NextCertainReady(p, scheduled, s))
  }

  /** From then on some job of higher priority is dispatched rather than `j`. */
  function PriorityBound(p: Problem, scheduled: set<nat>, s: View, j: nat, used: nat): Bound
    requires ValidProblem(p) && p.IsJob(j) && |s.cores| == p.m
  {
    MinB(Rival(p, scheduled, s, j, used, Sequential),
      MinB(Rival(p, scheduled, s, j, used, Gang),
        MinB(Rival(p, scheduled, s, j, used, MutexSource), Rival(p, scheduled, s, j, used, Successor))))
  }

  /** From then on `j` is dispatched on more cores. */
  function ParallelismBound(p: Problem, s: View, j: nat, level: nat): Bound
    requires ValidProblem(p) && p.IsJob(j) && level < |p.jobs[j].levels| && |s.cores| == p.m
  {
    assert ValidJob(p.jobs[j], p.m);
    var levels := p.jobs[j].levels;
    if level + 1 < |levels| then LevelOnPlatform(p, j,
        level + 1); Fin(s.cores[levels[level + 1].cores - 1].max) else Inf
  }

  lemma LevelOnPlatform(p: Problem, j: nat, level: nat)
    requires ValidProblem(p) && p.IsJob(j) && level < |p.jobs[j].levels|
    ensures p.jobs[j].MinCores() <= p.jobs[j].levels[level].cores <= p.m && p.jobs[j].MinCores() >= 1
  {
    assert ValidJob(p.jobs[j], p.m);
    var levels := p.jobs[j].levels;
    assert level < |levels| - 1 ==> levels[level].cores < levels[|levels| - 1].cores;
    assert 0 < level ==> levels[0].cores < levels[level].cores;
  }

  function EarliestStart(p: Problem, s: View, j: nat, level: nat): int
    requires ValidProblem(p) && p.IsJob(j) && level < |p.jobs[j].levels| && |s.cores| == p.m
  {
    LevelOnPlatform(p, j, level);
    Max(ReadyTimes(p, s, j).min, s.cores[p.jobs[j].levels[level].cores - 1].min)
  }

  function LatestStart(p: Problem, scheduled: set<nat>, s: View, j: nat, level: nat): int
    requires ValidProblem(p) && p.IsJob(j) && level < |p.jobs[j].levels| && |s.cores| == p.m
  {
    LevelOnPlatform(p, j, level);
    var used := p.jobs[j].levels[level].cores;
    Cap(Max(ReadyTimes(p, s, j).max, s.cores[used - 1].max),
      MinB(WorkConservingBound(p, scheduled, s),
        Prev(MinB(PriorityBound(p, scheduled, s, j, used), ParallelismBound(p, s, j, level)))))
  }

  /** No guard excludes that `j` is dispatched next at this level. */
  predicate Dispatchable(p: Problem, scheduled: set<nat>, s: View, j: nat, level: nat)
    requires ValidProblem(p) && |s.cores| == p.m
  {
    && Eligible(p, scheduled, j) && level < |p.jobs[j].levels|
    && (s.lowest.Some? ==> p.IsJob(s.lowest.value) && !PriorTo(p, s.lowest.value, j))
    && var est := EarliestStart(p, s, j, level);
    && LeB(Fin(est), WorkConservingBound(p, scheduled, s))
    && !Reached(PriorityBound(p, scheduled, s, j, p.jobs[j].levels[level].cores), est)
    && !Reached(ParallelismBound(p, s, j, level), est)
  }

  function StartInterval(p: Problem, scheduled: set<nat>, s: View, j: nat, level: nat): Interval
    requires ValidProblem(p) && p.IsJob(j) && level < |p.jobs[j].levels| && |s.cores| == p.m
  {
    Interval(EarliestStart(p, s, j, level), LatestStart(p, scheduled, s, j, level))
  }

  function FinishInterval(p: Problem, scheduled: set<nat>, s: View, j: nat, level: nat): Interval
    requires ValidProblem(p) && p.IsJob(j) && level < |p.jobs[j].levels| && |s.cores| == p.m
  {
    var start := StartInterval(p, scheduled, s, j, level);
    var cost := p.jobs[j].levels[level].cost;
    Interval(start.min + cost.min, start.max + cost.max)
  }

  /** The start and finish intervals of a dispatch are never inverted. */
  lemma DispatchIntervalsOk(p: Problem, scheduled: set<nat>, s: View, j: nat, level: nat)
    requires ValidProblem(p) && StateInvariant(p, scheduled, s) && Dispatchable(p, scheduled, s, j, level)
    ensures DispatchTimes(StartInterval(p, scheduled, s, j, level), FinishInterval(p, scheduled, s, j, level))
    ensures s.cores[p.jobs[j].levels[level].cores - 1].min <= StartInterval(p, scheduled, s, j, level).min
  {
    hide Rival, PriorTo, PredsIn, ReadyTimes;
    ReadyTimesOk(p, s, j);
    LevelOnPlatform(p, j, level);
    assert ValidJob(p.jobs[j], p.m);
    assert p.jobs[j].levels[level].cost.min <= p.jobs[j].levels[level].cost.max;
  }
}
