// A platform that is not idle, on which the analysis calls a problem schedulable although a run misses a deadline.
module UnsafeVerdicts {
  import opened Times
  import opened Counting
  import opened Jobs
  import opened Workload
  import opened Scheduler
  import opened CoreAvailability
  import opened RunningJobs
  import opened PendingSuccessors
  import opened ReadyJobs
  import opened Abstraction
  import opened NextDispatch
  import opened PriorityPruning
  import opened SpaceData
  import opened NextState
  import opened ScheduleStates
  import opened InitialStates
  import opened Layers
  import opened Runs
  import opened Verdicts
  import opened Exploration
  import opened Analysis

  // ---- The problem ----

  /** One core for one time unit, released at some time from 0 to 10, due at 5. */
  function Urgent(): Job {
    Job(Interval(0, 10), [Level(1, Interval(1, 1))], 5, 0, 0, 0, 0, 1, 1, 0)
  }

  /** Both cores for one time unit, of lower priority, released at 0. */
  function Wide(): Job {
    Job(Interval(0, 0), [Level(2, Interval(1, 1))], 100, 1, 0, 1, 0, 1, 1, 0)
  }

  function TwoJobs(): (p: Problem)
    ensures p.m == 2 && |p.jobs| == |p.cons| == 2 && p.jobs[0] == Urgent() && p.jobs[1] == Wide()
    ensures p.cons[0] == Unconstrained() && p.cons[1] == Unconstrained()
  {
    Problem([Urgent(), Wide()], [Unconstrained(), Unconstrained()], 2)
  }

  /** One core is available from 0 on, the other one from 5 on. */
  const PLATFORM: seq<Interval> := [Interval(0, 0), Interval(5, 5)]

  lemma TwoJobsValid()
    ensures ValidProblem(TwoJobs()) && ValidPlatform(TwoJobs(), PLATFORM)
  {
    var p := TwoJobs();
    JobsValid();
    hide ValidJob;
    forall j | 0 <= j < 2
      ensures ValidJob(p.jobs[j], 2) && p.cons[j] == Unconstrained()
    {
    }
    hide TwoJobs, Urgent, Wide;
    assert ValidConstraints(Unconstrained(), 2) && SortedByPriority(p.jobs, Refs([]));
  }

  lemma JobsValid()
    ensures ValidJob(Urgent(), 2) && ValidJob(Wide(), 2)
  {
    assert Urgent().levels[..0] == [] && Wide().levels[..0] == [];
  }

  /** What holds of the jobs in any state. */
  lemma JobFacts(v: View, k: nat)
    requires |v.cores| == 2 && k < 2
    ensures ValidProblem(TwoJobs()) && ReadyTimes(TwoJobs(), v, k) == TwoJobs().jobs[k].arrival
    ensures !HasPreds(TwoJobs(), k)
    ensures CategoryOf(TwoJobs(), k) == if k == 0 then Sequential else Gang
    ensures FreedCores(v.running, TwoJobs().cons[k]) == 0
  {
    TwoJobsValid();
    NoneFreed(v.running);
  }

  lemma {:induction false} NoneFreed(running: seq<Running>)
    ensures FreedCores(running, Unconstrained()) == 0
  {
    if |running| > 0 {
      NoneFreed(running[..|running| - 1]);
    }
  }

  // ---- The states that the exploration derives ----

  ghost predicate NothingElse(v: View) {
    v.certainSuccessor == Inf && v.certainMutex == Inf && v.lowest == None
  }

  /** What a derivable state records: the urgent job is dispatched first, at 0, and the wide one second. */
  ghost predicate Expected(scheduled: set<nat>, v: View) {
    || (scheduled == {} && v.cores == PLATFORM && v.certainGang == Fin(0) && NothingElse(v))
    || (scheduled == {0} && v.cores == [Interval(1, 1), Interval(5, 5)] && v.certainGang == Fin(5) && NothingElse(v))
    || (scheduled == {0, 1} && |v.cores| == 2)
  }

  lemma FirstExpected()
    ensures ValidProblem(TwoJobs()) && Expected({}, InitialView(TwoJobs(), PLATFORM))
  {
    TwoJobsValid();
    var p := TwoJobs();
    hide ValidProblem;
    PairSorted(Interval(0, 0), Interval(5, 5));
    LeastKeyExact(p, {}, ByLatest, {Gang}, 2);
    LeastKeyExact(p, {}, ByLatest, {MutexSource}, 2);
    JobFacts(InitialView(p, PLATFORM), 0);
    JobFacts(InitialView(p, PLATFORM), 1);
    assert Open(p, {}, {Gang}, 1) && KeyOf(p, ByLatest, 1) == 0;
  }

  /** No job has priority over the urgent one, and none over the wide one once the urgent one is dispatched. */
  lemma NoRivals(scheduled: set<nat>, v: View, j: nat, used: nat)
    requires ValidProblem(TwoJobs()) && |v.cores| == 2 && (j == 0 || (j == 1 && 0 in scheduled))
    ensures PriorityBound(TwoJobs(), scheduled, v, j, used) == Inf
  {
    var p := TwoJobs();
    NextRivalExact(p, scheduled, v, j, used, Sequential, 2);
    NextRivalExact(p, scheduled, v, j, used, Gang, 2);
    NextRivalExact(p, scheduled, v, j, used, MutexSource, 2);
    NextRivalExact(p, scheduled, v, j, used, Successor, 2);
    hide ValidProblem, NextRival, RivalTime, InCategory;
    forall cat: Category, k: nat | k < 2
      ensures RivalBound(p, scheduled, v, j, used, cat, k) == Inf
    {
      NotPrior(scheduled, j, cat, k);
    }
  }

  lemma NotPrior(scheduled: set<nat>, j: nat, cat: Category, k: nat)
    requires ValidProblem(TwoJobs()) && k < 2 && (j == 0 || (j == 1 && 0 in scheduled))
    ensures !(InCategory(TwoJobs(), scheduled, cat, k) && PriorTo(TwoJobs(), k, j))
  {
  }

  /** By when some job of a kind can certainly be started after the urgent one was dispatched. */
  lemma CertainAfterUrgent(v: View)
    requires ValidProblem(TwoJobs()) && v.cores == [Interval(1, 1), Interval(5, 5)]
    ensures Certain(TwoJobs(), {0}, v, Sequential) == Inf && Certain(TwoJobs(), {0}, v, Gang) == Fin(5)
    ensures Certain(TwoJobs(), {0}, v, MutexSource) == Inf && Certain(TwoJobs(), {0}, v, Successor) == Inf
  {
    var p := TwoJobs();
    forall cat: Category, k: nat | k < 2
      ensures CertainBound(p, {0}, v, cat, k) == if k == 1 && cat == Gang then Fin(5) else Inf
    {
      CertainOne(v, cat, k);
    }
    hide CertainBound, ValidProblem;
    NextCertainExact(p, {0}, v, Sequential, 2);
    NextCertainExact(p, {0}, v, Gang, 2);
    NextCertainExact(p, {0}, v, MutexSource, 2);
    NextCertainExact(p, {0}, v, Successor, 2);
  }

  lemma CertainOne(v: View, cat: Category, k: nat)
    requires ValidProblem(TwoJobs()) && v.cores == [Interval(1, 1), Interval(5, 5)] && k < 2
    ensures CertainBound(TwoJobs(), {0}, v, cat, k) == if k == 1 && cat == Gang then Fin(5) else Inf
  {
    JobFacts(v, k);
    hide ValidProblem;
  }

  /** In the first state only the urgent job can be dispatched, and only at 0. */
  lemma FirstDispatch(v: View, j: nat, level: nat)
    requires ValidProblem(TwoJobs()) && Expected({}, v)
    ensures Dispatchable(TwoJobs(), {}, v, j, level) <==> j == 0 && level == 0
    ensures StartInterval(TwoJobs(), {}, v, 0, 0) == Interval(0, 0)
    ensures FinishInterval(TwoJobs(), {}, v, 0, 0) == Interval(1, 1)
  {
    var p := TwoJobs();
    JobFacts(v, 0);
    JobFacts(v, 1);
    NoRivals({}, v, 0, 1);
    hide ValidProblem, Certain, PriorityBound;
    assert WorkConservingBound(p, {}, v) == Fin(0);
    assert Eligible(p, {}, 0) && EarliestStart(p, v, 0, 0) == 0 && EarliestStart(p, v, 1, 0) == 5;
  }

  /** In the second state the wide job can be dispatched, only at 5. */
  lemma SecondDispatch(v: View, j: nat, level: nat)
    requires ValidProblem(TwoJobs()) && Expected({0}, v)
    ensures Dispatchable(TwoJobs(), {0}, v, j, level) <==> j == 1 && level == 0
    ensures StartInterval(TwoJobs(), {0}, v, 1, 0) == Interval(5, 5)
    ensures FinishInterval(TwoJobs(), {0}, v, 1, 0) == Interval(6, 6)
  {
    var p := TwoJobs();
    JobFacts(v, 1);
    NoRivals({0}, v, 1, 2);
    CertainAfterUrgent(v);
    hide ValidProblem, Certain, PriorityBound;
    assert WorkConservingBound(p, {0}, v) == Fin(5);
    assert Eligible(p, {0}, 1) && EarliestStart(p, v, 1, 0) == 5;
  }

  lemma DispatchedCores()
    ensures Dispatched(PLATFORM, Interval(0, 0), Interval(1, 1), 1, 0) == [Interval(1, 1), Interval(5, 5)]
  {
    var rest := [5];
    assert Mins(PLATFORM)[1..] == rest && Maxs(PLATFORM)[1..] == rest;
    assert Raise(rest, 0) == rest && Rep(1, 1) == [1] && Rep(0, 0) == [];
    assert RaiseInsert(rest, 0, 1, 1) == [1, 5];
    assert EarlyTimes(PLATFORM, 0, 0, 1, 1) == [];
    assert PossibleTimes(PLATFORM, 0, 1, 1, 0) == [1, 5] && CertainTimes(PLATFORM, 0, 0, 1, 1, 0) == [1, 5];
  }

  lemma NoneEverReady(scheduled: set<nat>, ready: seq<nat>)
    requires ReadyExact(TwoJobs(), scheduled, ready)
    ensures ready == []
  {
    forall i | 0 <= i < |ready|
      ensures IsReadySuccessor(TwoJobs(), scheduled, ready[i])
    {
      assert ready[i] in ready;
    }
    assert |ready| == 0 || IsReadySuccessor(TwoJobs(), scheduled, ready[0]);
  }

  /** The state after the urgent job has been dispatched. */
  lemma SecondExpected(from: View, ready: seq<nat>)
    requires Expected({}, from) && CanExtend(TwoJobs(), {}, from, 0, 0, ready)
    ensures Expected({0}, Extension(TwoJobs(), {}, from, 0, 0, ready))
  {
    var p := TwoJobs();
    TwoJobsValid();
    JobFacts(from, 0);
    FirstDispatch(from, 0, 0);
    DispatchedCores();
    assert {} + {0} == {0};
    assert ReadyExact(p, {0}, ready);
    hide ReadyExact, Dispatchable, ValidProblem, Dispatched;
    NoneEverReady({0}, ready);
    var w := Timed(p, {0}, from, 0, Interval(0, 0), Interval(1, 1), 1);
    CertainAfterUrgent(w);
    hide Certain;
    assert Concluded(p, {0}, [], w).lowest == None;
  }

  lemma ExtendedExpected(scheduled: set<nat>, from: View, j: nat, level: nat, ready: seq<nat>)
    requires Expected(scheduled, from) && CanExtend(TwoJobs(), scheduled, from, j, level, ready)
    ensures Expected(scheduled + {j}, Extension(TwoJobs(), scheduled, from, j, level, ready))
  {
    hide CanExtend, Extension, ValidProblem, Dispatchable, StartInterval, FinishInterval;
    TwoJobsValid();
    CanDispatch(scheduled, from, j, level, ready);
    if scheduled == {} {
      FirstDispatch(from, j, level);
      SecondExpected(from, ready);
      assert scheduled + {j} == {0};
    } else {
      OnlyWideLeft(scheduled, from, j, level);
      assert scheduled + {j} == {0, 1};
      ExtensionCores(scheduled, from, j, level, ready);
    }
  }

  lemma CanDispatch(scheduled: set<nat>, from: View, j: nat, level: nat, ready: seq<nat>)
    requires CanExtend(TwoJobs(), scheduled, from, j, level, ready)
    ensures ValidProblem(TwoJobs()) && |from.cores| == 2 && Dispatchable(TwoJobs(), scheduled, from, j, level)
  {
  }

  lemma OnlyWideLeft(scheduled: set<nat>, from: View, j: nat, level: nat)
    requires ValidProblem(TwoJobs()) && |from.cores| == 2 && Expected(scheduled, from) && scheduled != {}
    requires Dispatchable(TwoJobs(), scheduled, from, j, level)
    ensures scheduled == {0} && j == 1 && level == 0
  {
  }

  lemma ExtensionCores(scheduled: set<nat>, from: View, j: nat, level: nat, ready: seq<nat>)
    requires CanExtend(TwoJobs(), scheduled, from, j, level, ready) && |from.cores| == 2
    ensures |Extension(TwoJobs(), scheduled, from, j, level, ready).cores| == 2
  {
  }

  lemma JoinedExpected(scheduled: set<nat>, a: View, b: View)
    requires Expected(scheduled, a) && Expected(scheduled, b) && Mergeables(TwoJobs(), a, b)
    ensures Expected(scheduled, Merged(TwoJobs(), a, b))
  {
    if scheduled != {0, 1} {
      assert Widened(a.cores, b.cores) == a.cores;
    }
  }

  /** Every derivable state is as expected. */
  lemma {:induction false} DerivedExpected(d: Derivation, scheduled: set<nat>, v: View)
    requires Derives(TwoJobs(), PLATFORM, d, scheduled, v)
    ensures Expected(scheduled, v)
  {
    hide CanExtend, Extension, Merged, Mergeables, Mergeable, Expected, InitialView;
    match d {
      case First =>
        FirstExpected();
      case Extended(before, from, job, level, ready) =>
        DerivedExpected(before, scheduled - {job}, from);
        ExtendedExpected(scheduled - {job}, from, job, level, ready);
        assert scheduled - {job} + {job} == scheduled;
      case Joined(left, a, right, b, conservative) =>
        DerivedExpected(left, scheduled, a);
        DerivedExpected(right, scheduled, b);
        JoinedExpected(scheduled, a, b);
    }
  }

  // ---- Nothing that the exploration derives hints at a miss ----

  lemma SoundExpected(scheduled: set<nat>, v: View)
    requires Sound(TwoJobs(), PLATFORM, scheduled, v)
    ensures Expected(scheduled, v)
  {
    hide StateInvariant, Expected;
    var d :| Derives(TwoJobs(), PLATFORM, d, scheduled, v);
    DerivedExpected(d, scheduled, v);
  }

  lemma NoLateFinish(scheduled: set<nat>, v: View, j: nat, level: nat)
    requires Expected(scheduled, v) && DispatchReady(TwoJobs(), scheduled, v, j, level)
    ensures FinishInterval(TwoJobs(), scheduled, v, j, level).max <= TwoJobs().jobs[j].deadline
  {
    if scheduled == {} {
      FirstDispatch(v, j, level);
    } else {
      OnlyWideLeft(scheduled, v, j, level);
      SecondDispatch(v, j, level);
    }
  }

  lemma NoneLate(scheduled: set<nat>, v: View, j: nat)
    requires Expected(scheduled, v)
    ensures !LateIn(TwoJobs(), scheduled, v, j)
  {
  }

  lemma NoneStuck(scheduled: set<nat>, v: View)
    requires Expected(scheduled, v)
    ensures !Stuck(TwoJobs(), scheduled, v)
  {
    TwoJobsValid();
    if scheduled == {} {
      FirstDispatch(v, 0, 0);
    } else if scheduled == {0} {
      SecondDispatch(v, 1, 0);
    }
  }

  lemma NoMissPossible()
    ensures !MissPossible(TwoJobs(), PLATFORM)
  {
    hide Sound, Expected, DispatchReady, FinishInterval, LateIn, Stuck;
    forall scheduled: set<nat>, v: View | Sound(TwoJobs(), PLATFORM, scheduled, v)
      ensures !Stuck(TwoJobs(), scheduled, v) && forall j: nat :: !LateIn(TwoJobs(), scheduled, v, j)
    {
      SoundExpected(scheduled, v);
      NoneStuck(scheduled, v);
      forall j: nat
        ensures !LateIn(TwoJobs(), scheduled, v, j)
      {
        NoneLate(scheduled, v, j);
      }
    }
    forall j: nat, range: Interval | PossibleFinish(TwoJobs(), PLATFORM, j, range) && TwoJobs().IsJob(j)
      ensures range.max <= TwoJobs().jobs[j].deadline
    {
      FinishInTime(j, range);
    }
  }

  lemma FinishInTime(j: nat, range: Interval)
    requires PossibleFinish(TwoJobs(), PLATFORM, j, range) && TwoJobs().IsJob(j)
    ensures range.max <= TwoJobs().jobs[j].deadline
  {
    var scheduled: set<nat>, v: View, level: nat :|
      Sound(TwoJobs(), PLATFORM, scheduled, v) && DispatchReady(TwoJobs(), scheduled, v, j, level)
      && range == FinishInterval(TwoJobs(), scheduled, v, j, level);
    SoundExpected(scheduled, v);
    NoLateFinish(scheduled, v, j, level);
  }

  // ---- A run that misses a deadline ----

  /** The urgent job is released at 10. */
  function LateRelease(): Scenario {
    Scenario((k: nat) => if k == 0 then 10 else 0, (_, _, _) => 0)
  }

  function AtFirst(): Config {
    Config([Core(None, 0), Core(None, 5)], 0, map[], map[])
  }

  function Between(): Config {
    Config([Core(Some(1), 6), Core(Some(1), 6)], 5, map[1 := 5], map[1 := 6])
  }

  function Behind(): Config {
    Config([Core(Some(0), 11), Core(Some(1), 6)], 10, map[1 := 5, 0 := 10], map[1 := 6, 0 := 11])
  }

  lemma TwoFree(c: Config, x: int)
    requires |c.cores| == 2
    ensures FreeAt(c, x) == (if c.cores[0].free <= x then 1 else 0) + (if c.cores[1].free <= x then 1 else 0)
  {
    var v := FreeTimes(c.cores);
    assert v == [c.cores[0].free, c.cores[1].free];
    TwoBelow(v, x);
  }

  lemma TwoOwned(cores: seq<Core>, j: nat)
    requires |cores| == 2
    ensures Owned(cores, j)
         == (if cores[0].owner == Some(j) then 1 else 0) + (if cores[1].owner == Some(j) then 1 else 0)
  {
    assert cores[..1] == [cores[0]] && [cores[0]][..0] == [];
  }

  /** Without constraints a job can be started once it is released and enough cores are free. */
  lemma StartableWhen(c: Config, k: nat, x: int)
    requires |c.cores| == 2 && k < 2
    ensures Startable(TwoJobs(), LateRelease(), c, k, x) <==>
              k !in c.start && (if k == 0 then 10 else 0) <= x && FreeAt(c, x) >= (if k == 0 then 1 else 2)
  {
    hide FreeAt;
  }

  lemma OnlyTwo(c: Config, k: nat, x: int)
    requires Startable(TwoJobs(), LateRelease(), c, k, x)
    ensures k < 2
  {
  }

  lemma WideFirst()
    ensures Step(TwoJobs(), LateRelease(), AtFirst(), Decision(1, 0, 5, 6), Between())
  {
    TwoFree(AtFirst(), 5);
    TwoOwned(Between().cores, 1);
    StartableWhen(AtFirst(), 1, 5);
    forall k, x | Startable(TwoJobs(), LateRelease(), AtFirst(), k, x)
      ensures x >= 5 && (x == 5 ==> k == 1)
    {
      OnlyTwo(AtFirst(), k, x);
      StartableWhen(AtFirst(), k, x);
      TwoFree(AtFirst(), x);
    }
    hide Startable, FreeAt;
  }

  lemma UrgentSecond()
    ensures Step(TwoJobs(), LateRelease(), Between(), Decision(0, 0, 10, 11), Behind())
  {
    TwoFree(Between(), 10);
    TwoOwned(Behind().cores, 0);
    StartableWhen(Between(), 0, 10);
    forall k, x | Startable(TwoJobs(), LateRelease(), Between(), k, x)
      ensures x >= 10 && k == 0
    {
      OnlyTwo(Between(), k, x);
      StartableWhen(Between(), k, x);
    }
    hide Startable, FreeAt;
  }

  lemma StartsThere()
    ensures InitialConfig(TwoJobs(), LateRelease(), PLATFORM, AtFirst()) && ValidScenario(TwoJobs(), LateRelease())
  {
    forall k, x | x < 0
      ensures !Startable(TwoJobs(), LateRelease(), AtFirst(), k, x)
    {
      if k < 2 {
        StartableWhen(AtFirst(), k, x);
      }
    }
    hide Startable;
  }

  /** The urgent job, released at 10, finishes at 11. */
  lemma UrgentFinishesLate()
    ensures !DeadlinesMet(TwoJobs(), PLATFORM)
  {
    StartsThere();
    WideFirst();
    UrgentSecond();
    hide Step, InitialConfig, ValidScenario;
    var r := Then(Then(Begin(AtFirst()), Decision(1, 0, 5, 6), Between()), Decision(0, 0, 10, 11), Behind());
    assert IsRun(TwoJobs(), LateRelease(), PLATFORM, r);
  }

  /** The analysis calls the problem schedulable, although a run misses a deadline. */
  method VerdictCanBeUnsafe(options: Options) returns (schedulable: bool, completion: seq<Option<Interval>>)
    requires options.maxDepth == 0
    ensures schedulable && !DeadlinesMet(TwoJobs(), PLATFORM)
  {
    hide DeadlinesMet, MissPossible, ValidProblem, ValidPlatform, Analysable;
    TwoJobsValid();
    NoMissPossible();
    UrgentFinishesLate();
    schedulable, completion := Analyse(TwoJobs(), PLATFORM, options);
  }
}
