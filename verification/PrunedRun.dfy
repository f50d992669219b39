// Two jobs that wait for the same running job are both counted as candidates: a state that the exploration derives
// excludes the decision that a run takes from there.
module PrunedRuns {
  import opened Times
  import opened Counting
  import opened Jobs
  import opened Workload
  import opened Scheduler
  import opened CoreAvailability
  import opened RunningJobs
  import opened JobTiming
  import opened PendingSuccessors
  import opened ReadyJobs
  import opened Abstraction
  import opened NextDispatch
  import opened PriorityPruning
  import opened NextState
  import opened ScheduleStates
  import opened InitialStates
  import opened Layers
  import opened Runs
  import opened Exactness
  import opened Misleading

  const IDLE: seq<Interval> := [NOW, NOW]

  // ---- The first state ----

  lemma IdleSorted()
    ensures Initial(IDLE) == IDLE
  {
    PairSorted(NOW, NOW);
  }

  lemma FirstReady(v: View)
    requires v.starts == map[] && v.finishes == map[]
    ensures |SharedPartner().jobs| == |SharedPartner().cons| == 4 && ReadyTimes(SharedPartner(), v, 0) == NOW
  {
    var c := SharedPartner().cons[0];
    assert EarliestOver(c.exclFinish, v.finishes, 0, 1) == 0 && LatestOver(c.exclFinish, v.finishes, 0, 1) == 0;
  }

  /** No job has priority over the first one. */
  lemma FirstPrevails(scheduled: set<nat>, v: View)
    requires ValidProblem(SharedPartner()) && |v.cores| == 2
    ensures PriorityBound(SharedPartner(), scheduled, v, 0, 1) == Inf
  {
    var p := SharedPartner();
    assert forall k: nat :: p.IsJob(k) ==> !PriorTo(p, k, 0);
    NextRivalExact(p, scheduled, v, 0, 1, Sequential, 4);
    NextRivalExact(p, scheduled, v, 0, 1, Gang, 4);
    NextRivalExact(p, scheduled, v, 0, 1, MutexSource, 4);
    NextRivalExact(p, scheduled, v, 0, 1, Successor, 4);
  }

  lemma FirstDispatched(v: View)
    requires ValidProblem(SharedPartner()) && SharedPartner().m == 2
    requires v.cores == IDLE && v.lowest == None && v.starts == map[] && v.finishes == map[]
    ensures |SharedPartner().jobs| == 4 && SharedPartner().jobs[0] == Sequentially(0)
    ensures Dispatchable(SharedPartner(), {}, v, 0, 0)
    ensures StartInterval(SharedPartner(), {}, v, 0, 0) == NOW
    ensures FinishInterval(SharedPartner(), {}, v, 0, 0) == Interval(10, 10)
  {
    FirstReady(v);
    FirstPrevails({}, v);
    var c := SharedPartner().cons[0];
    assert SharedPartner().jobs[0] == Sequentially(0) && c.predStart == [] == c.predFinish;
    hide ValidProblem, NextCertainReady, PriorityBound, ReadyTimes, SharedPartner;
  }

  // ---- The state after the first dispatch ----

  lemma OneCoreTaken()
    ensures Dispatched(IDLE, NOW, Interval(10, 10), 1, 0) == FirstRunsView().cores
  {
    var rest := [0];
    assert Mins(IDLE)[1..] == rest && Maxs(IDLE)[1..] == rest;
    assert Raise(rest, 0) == rest && Rep(10, 1) == [10] && Rep(0, 0) == [];
    assert RaiseInsert(rest, 0, 10, 1) == [0, 10];
    assert EarlyTimes(IDLE, 0, 0, 1, 1) == [];
    assert PossibleTimes(IDLE, 0, 10, 1, 0) == [0, 10] && CertainTimes(IDLE, 0, 0, 10, 1, 0) == [0, 10];
  }

  lemma FirstPending(kind: ConstraintType)
    ensures PendingSet(SharedPartner(), kind, {0}) == {0}
  {
    PartnersOf(0, 1);
  }

  lemma FirstRecorded(c: JobConstraints)
    ensures StartTimes(map[], 0, NOW, {0}, c) == map[0 := NOW]
    ensures FinishTimes(map[], 0, NOW, Interval(10, 10), {0}, c, false) == map[0 := Interval(10, 10)]
  {
  }

  lemma FirstTimed(v: View)
    requires v.cores == IDLE && v.running == [] && v.starts == map[] && v.finishes == map[]
    ensures |SharedPartner().jobs| == |SharedPartner().cons| == 4
    ensures Timed(SharedPartner(), {0}, v, 0, NOW, Interval(10, 10), 1) == FirstRunsView()
  {
    OneCoreTaken();
    FirstPending(StartConstraints);
    FirstPending(FinishConstraints);
    var p := SharedPartner();
    FirstRecorded(p.cons[0]);
    assert |p.jobs| == |p.cons| == 4 && FirstRunsView() == View(FirstRunsView().cores,
        [Running(0, 1, 1, Interval(10, 10))], map[0 := NOW], map[0 := Interval(10, 10)], Inf, Inf, Inf, None);
    hide SharedPartner, Dispatched, FirstRunsView, PendingSet, StartTimes, FinishTimes;
  }

  /** What the exploration records after the first job was dispatched at 0. */
  ghost function PrunedView(): View
    requires ValidProblem(SharedPartner())
  {
    Concluded(SharedPartner(), {0}, [1, 2], FirstRunsView())
  }

  lemma NothingYet()
    ensures SharedPartner().m == 2 && |SharedPartner().cons| == 4 && ValidPlatform(SharedPartner(), IDLE)
    ensures Closed(SharedPartner(), {}) && FreedCores([], SharedPartner().cons[0]) == 0
  {
  }

  lemma FirstSound(v: View)
    requires ValidProblem(SharedPartner()) && v == InitialView(SharedPartner(), IDLE)
    ensures StateInvariant(SharedPartner(), {}, v) && Derivable(SharedPartner(), IDLE, {}, v)
  {
    NothingYet();
    hide ValidProblem, StateInvariant, Derivable, SharedPartner, InitialView, ValidPlatform, SequentialJobs,
        Uniprocessor;
    InitialSound(SharedPartner(), IDLE);
  }

  lemma FirstDispatchReady(v: View)
    requires ValidProblem(SharedPartner()) && v == InitialView(SharedPartner(), IDLE)
    ensures DispatchReady(SharedPartner(), {}, v, 0, 0)
  {
    NothingYet();
    IdleSorted();
    FirstSound(v);
    hide ValidProblem, StateInvariant, Dispatchable, SharedPartner, Closed, Initial;
    FirstDispatched(v);
  }

  /** The first dispatch starts from the first state. */
  lemma FirstExtends(v: View)
    requires ValidProblem(SharedPartner()) && v == InitialView(SharedPartner(), IDLE)
    ensures CanExtend(SharedPartner(), {}, v, 0, 0, [1, 2])
  {
    FirstDispatchReady(v);
    IdleSorted();
    assert {} + {0} == {0} && SharedPartner().jobs[0] == Sequentially(0);
    hide ReadyExact, DispatchReady, SharedPartner, Initial;
    PartnersListed();
  }

  lemma FirstExtension(v: View)
    requires ValidProblem(SharedPartner()) && v == InitialView(SharedPartner(), IDLE)
    requires CanExtend(SharedPartner(), {}, v, 0, 0, [1, 2])
    ensures Extension(SharedPartner(), {}, v, 0, 0, [1, 2]) == PrunedView()
  {
    assert {} + {0} == {0};
    NothingYet();
    IdleSorted();
    hide SharedPartner, Timed, CanExtend, ValidProblem, Dispatchable, StartInterval, FinishInterval, Concluded,
        Closed, Initial, ValidPlatform;
    FirstDispatched(v);
    FirstTimed(v);
  }

  lemma PrunedDerivable()
    ensures ValidProblem(SharedPartner()) && Derivable(SharedPartner(), IDLE, {0}, PrunedView())
  {
    SharedPartnerValid();
    var p := SharedPartner();
    var v := InitialView(p, IDLE);
    assert {} + {0} == {0};
    hide SharedPartner, ValidProblem, InitialView, CanExtend, Extension, Derivable, PrunedView;
    FirstSound(v);
    FirstExtends(v);
    FirstExtension(v);
    NextDerivable(p, IDLE, {}, v, 0, 0, [1, 2]);
  }

  lemma LastExcluded()
    ensures ValidProblem(SharedPartner()) && PrunedView().lowest == Some(2) && |PrunedView().cores| == SharedPartner().m
    ensures forall level: nat :: !Dispatchable(SharedPartner(), {0}, PrunedView(), 3, level)
  {
    ScanStopsAtSecond();
    LastIsNext();
  }

  // ---- A run ----

  function Idle(): Config {
    Config([Core(None, 0), Core(None, 0)], 0, map[], map[])
  }

  lemma IdleStart()
    ensures InitialConfig(SharedPartner(), NoDelays(), IDLE, Idle())
  {
    forall k, x | x < 0
      ensures !Startable(SharedPartner(), NoDelays(), Idle(), k, x)
    {
      TwoBelow(FreeTimes(Idle().cores), x);
    }
  }

  lemma FirstStarts()
    ensures Step(SharedPartner(), NoDelays(), Idle(), Decision(0, 0, 0, 10), FirstRuns())
  {
    IdleStart();
    TwoBelow(FreeTimes(Idle().cores), 0);
    assert SharedPartner().jobs[0] == Sequentially(0);
  }

  lemma FirstRun()
    ensures IsRun(SharedPartner(), NoDelays(), IDLE, Then(Begin(Idle()), Decision(0, 0, 0, 10), FirstRuns()))
  {
    IdleStart();
    FirstStarts();
    hide SharedPartner, NoDelays, Step, InitialConfig, Idle, FirstRuns;
  }

  /** The exploration derives a state that covers the timing of a run, and that excludes the decision which the
      run takes next. */
  lemma ExclusionsCanMislead()
    ensures var p, sc := SharedPartner(), NoDelays();
            && ValidProblem(p) && !ExclusionsSafe(p) && ValidPlatform(p, IDLE)
            && Derivable(p, IDLE, {0}, PrunedView())
            && IsRun(p, sc, IDLE, Then(Begin(Idle()), Decision(0, 0, 0, 10), FirstRuns()))
            && TimingSituation(p, sc, PrunedView(), FirstRuns())
            && Legal(p, sc, FirstRuns(), Decision(3, 0, 0, 10)) && PrunedView().lowest == Some(2) && PriorTo(p, 2, 3)
            && forall level: nat :: !Dispatchable(p, {0}, PrunedView(), 3, level)
  {
    IdleOnTwo();
    hide SharedPartner, FirstRuns, FirstRunsView, NoDelays, ValidProblem, Dispatchable, Derivable, PrunedView,
        ExclusionsSafe, TimingSituation, Legal, IsRun, ValidPlatform;
    PrunedDerivable();
    FirstRun();
    LastIsNext();
    PartnersNotSafe();
    PrunedTiming();
    LastExcluded();
  }

  lemma IdleOnTwo()
    ensures SharedPartner().m == 2 && |FirstRunsView().cores| == 2 && ValidPlatform(SharedPartner(), IDLE)
  {
  }

  lemma PrunedTiming()
    ensures ValidProblem(SharedPartner()) && TimingSituation(SharedPartner(), NoDelays(), PrunedView(), FirstRuns())
  {
    FirstRunsSituation();
    hide SharedPartner, ValidProblem, ValidScenario, NoDelays, FirstRuns, FirstRunsView;
  }
}
