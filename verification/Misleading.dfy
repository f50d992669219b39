// Inputs on which the analysis is not safe, and why the conditions under which it is exclude them.
module Misleading {
  import opened Times
  import opened Counting
  import opened Jobs
  import opened Workload
  import opened Scheduler
  import opened CoreAvailability
  import opened RunningJobs
  import opened ReadyJobs
  import opened Abstraction
  import opened SpaceData
  import opened NextDispatch
  import opened PriorityPruning
  import opened ScheduleStates
  import opened InitialStates
  import opened Layers

  const NOW: Interval := Interval(0, 0)

  function Sequentially(priority: int): Job {
    Job(NOW, [Level(1, Interval(10, 10))], 100, priority, 0, 0, 0, 10, 10, 0)
  }

  // ---- Exclusion partners are not recorded when candidates are counted ----

  /** Jobs 1 and 2 may start as soon as job 0 has started, but neither may run alongside it; job 3, of lowest
      priority, is independent. */
  function SharedPartner(): Problem {
    var after0 := JobConstraints([Delay(0, NOW)], [], [], [], [], [Delay(0, NOW)]);
    var before12 := JobConstraints([], [], [Delay(1, NOW), Delay(2, NOW)], [], [], [Delay(1, NOW), Delay(2, NOW)]);
    Problem([Sequentially(0), Sequentially(1), Sequentially(2), Sequentially(3)],
        [before12, after0, after0, Unconstrained()], 2)
  }

  /** Job 0 runs on the first core until time 10. */
  function FirstRuns(): Config {
    Config([Core(Some(0), 10), Core(None, 0)], 0, map[0 := 0], map[0 := 10])
  }

  function FirstRunsView(): View {
    View([NOW, Interval(10, 10)], [Running(0, 1, 1, Interval(10, 10))], map[0 := NOW], map[0 := Interval(10, 10)],
         Inf, Inf, Inf, None)
  }

  function NoDelays(): Scenario {
    Scenario((_: nat) => 0, (_, _, _) => 0)
  }

  /** Whom job `k` of the problem refers to. */
  lemma PartnersOf(k: nat, q: nat)
    requires k < 4
    ensures var c := SharedPartner().cons[k];
            && (Refers(c.succStart, q) <==> k == 0 && q in {1, 2})
            && (Refers(c.predStart, q) <==> k in {1, 2} && q == 0)
            && (Refers(c.exclFinish, q) <==> (k == 0 && q in {1, 2}) || (k in {1, 2} && q == 0))
            && !Refers(c.predFinish, q) && !Refers(c.succFinish, q) && !Refers(c.exclStart, q)
  {
    var c := SharedPartner().cons[k];
    if k == 0 {
      assert c.succStart[0].ref == 1 && c.succStart[1].ref == 2 && c.exclFinish[0].ref == 1 && c.exclFinish[1].ref == 2;
    } else if k < 3 {
      assert c.predStart[0].ref == 0 && c.exclFinish[0].ref == 0;
    }
  }

  lemma PartnersValid(k: nat)
    requires k < 4
    ensures var p := SharedPartner();
            && ValidJob(p.jobs[k], 2) && ValidConstraints(p.cons[k], 4)
            && SortedByPriority(p.jobs, Refs(p.cons[k].succStart))
                && SortedByPriority(p.jobs, Refs(p.cons[k].succFinish))
  {
    hide Refs;
    var p := SharedPartner();
    assert p.jobs[k] == Sequentially(k);
    var levels := p.jobs[k].levels;
    assert levels[..0] == [];
    if k == 0 {
      assert Refs(p.cons[0].succStart) == [1, 2];
    }
  }

  lemma SharedPartnerValid()
    ensures ValidProblem(SharedPartner())
  {
    var p := SharedPartner();
    assert |p.jobs| == |p.cons| == 4 && p.m == 2;
    hide SharedPartner, ValidJob, ValidConstraints, Refers, SortedByPriority;
    forall k | 0 <= k < 4
      ensures ValidJob(p.jobs[k], 2)
      ensures ValidConstraints(p.cons[k], 4)
      ensures SortedByPriority(p.jobs, Refs(p.cons[k].succStart))
          && SortedByPriority(p.jobs, Refs(p.cons[k].succFinish))
    {
      PartnersValid(k);
    }
    forall j, k | 0 <= j < 4 && 0 <= k < 4
      ensures (Refers(p.cons[j].succStart, k) <==> Refers(p.cons[k].predStart, j))
           && (Refers(p.cons[j].succFinish, k) <==> Refers(p.cons[k].predFinish, j))
           && (Refers(p.cons[j].exclStart, k) <==> Refers(p.cons[k].exclStart, j))
           && (Refers(p.cons[j].exclFinish, k) <==> Refers(p.cons[k].exclFinish, j))
    {
      PartnersOf(j, k);
      PartnersOf(k, j);
    }
  }

  lemma NoDelaysValid()
    ensures ValidScenario(SharedPartner(), NoDelays())
  {
    var p := SharedPartner();
    forall k: nat, i: nat | k < 4 && i < 2
      ensures p.jobs[k].arrival == NOW
      ensures i < |p.cons[k].predStart| ==> p.cons[k].predStart[i].delay == NOW
      ensures i < |p.cons[k].exclFinish| ==> p.cons[k].exclFinish[i].delay == NOW
    {
    }
  }

  lemma OneCoreFree(x: int)
    ensures FreeAt(FirstRuns(), x) == (if x >= 10 then 1 else 0) + (if x >= 0 then 1 else 0)
  {
    var v := FreeTimes(FirstRuns().cores);
    assert v == [10, 0];
    TwoBelow(v, x);
  }

  lemma FirstRunsCovered()
    ensures WellFormed(FirstRunsView().cores) && CoresCover(FirstRunsView().cores, FirstRuns())
  {
    var cores := FirstRunsView().cores;
    forall x
      ensures Below(Maxs(cores), x) == Below(Mins(cores), x) == FreeAt(FirstRuns(), x)
    {
      TwoBelow(Mins(cores), x);
      TwoBelow(Maxs(cores), x);
      OneCoreFree(x);
    }
  }

  lemma FirstRunsConsistent()
    ensures TimesConsistent(SharedPartner(), FirstRuns()) && PredsConsistent(SharedPartner(), FirstRuns())
        && CoresConsistent(FirstRuns())
    ensures TimesCover(FirstRunsView().starts, FirstRuns().start)
        && TimesCover(FirstRunsView().finishes, FirstRuns().finish)
  {
    hide Refers, ValidJob;
    OneOwner();
    assert SharedPartner().jobs[0] == Sequentially(0);
    assert SharedPartner().cons[0].predStart == [] && SharedPartner().cons[0].predFinish == [];
  }

  lemma OneOwner()
    ensures Owned(FirstRuns().cores, 0) == 1
  {
    var cores := FirstRuns().cores;
    assert cores[..1][..0] == [] && Owned(cores[..1], 0) == 1;
  }

  lemma FirstRunsSituation()
    ensures ValidProblem(SharedPartner()) && TimingSituation(SharedPartner(), NoDelays(), FirstRunsView(), FirstRuns())
  {
    assert SharedPartner().m == |FirstRunsView().cores| == |FirstRuns().cores| == 2;
    hide SharedPartner, FirstRuns, FirstRunsView, NoDelays, ValidProblem, ValidScenario, WellFormed, CoresCover,
        TimesConsistent, PredsConsistent, CoresConsistent, TimesCover;
    SharedPartnerValid();
    NoDelaysValid();
    FirstRunsCovered();
    FirstRunsConsistent();
  }

  /** Neither job 1 nor job 2 can be started before job 0 has finished. */
  lemma PartnerWaits(k: nat, x: int)
    requires (k == 1 || k == 2) && x < 10
    ensures !Startable(SharedPartner(), NoDelays(), FirstRuns(), k, x)
  {
    assert SharedPartner().cons[k].exclFinish[0].ref == 0;
  }

  lemma OnlyLast(k: nat, x: int)
    requires Startable(SharedPartner(), NoDelays(), FirstRuns(), k, x) && x < 10
    ensures k == 3 && x >= 0
  {
    PartnerWaits(1, x);
    PartnerWaits(2, x);
    assert |SharedPartner().jobs| == 4;
    OneCoreFree(x);
  }

  lemma LastIsNext()
    ensures Legal(SharedPartner(), NoDelays(), FirstRuns(), Decision(3, 0, 0, 10)) && PriorTo(SharedPartner(), 2, 3)
  {
    var p, sc, c := SharedPartner(), NoDelays(), FirstRuns();
    OneCoreFree(0);
    assert p.jobs[3] == Sequentially(3) && p.cons[3] == Unconstrained();
    assert Startable(p, sc, c, 3, 0);
    forall k, x | Startable(p, sc, c, k, x) && x <= 0
      ensures k == 3 && x == 0
    {
      OnlyLast(k, x);
    }
  }

  ghost predicate Counts(p: Problem, scheduled: set<nat>, s: View, k: nat)
    requires ValidProblem(p) && |s.cores| == p.m
  {
    && p.IsJob(k) && |p.jobs[k].levels| > 0 && p.jobs[k].MinCores() == 1 && SharedAmong(p, p.cons[k].predFinish) == []
    && Candidate(p, scheduled, s, k, []) && !CertainlyReady(p, scheduled, s, k)
  }

  lemma PartnersCounted(k: nat)
    requires k == 1 || k == 2
    ensures var p, s := SharedPartner(), FirstRunsView();
            ValidProblem(p) && |s.cores| == p.m && Counts(p, {0}, s, k) && IsReadySuccessor(p, {0}, k)
  {
    SharedPartnerValid();
    var p, s := SharedPartner(), FirstRunsView();
    hide ValidProblem;
    assert p.jobs[k] == Sequentially(k);
    assert p.cons[k].predStart == [Delay(0, NOW)] && p.cons[k].exclFinish == [Delay(0, NOW)]
        && p.cons[0].succFinish == [];
    assert !CertainlyDone(p, {0}, s, 0, 0);
    assert p.cons[k].predStart[0].ref == 0;
    assert ArrivesBefore(p.cons[k].predStart, {0}, s.starts, 0);
  }

  lemma OnlyPartners(k: nat)
    requires IsReadySuccessor(SharedPartner(), {0}, k)
    ensures k == 1 || k == 2
  {
    assert SharedPartner().cons[3] == Unconstrained() && |SharedPartner().jobs| == 4;
  }

  lemma PartnersOrdered()
    ensures ByPriority(SharedPartner(), [1, 2])
  {
    var p := SharedPartner();
    assert p.jobs[1] == Sequentially(1) && p.jobs[2] == Sequentially(2);
  }

  lemma PartnersListed()
    ensures ReadyExact(SharedPartner(), {0}, [1, 2])
  {
    hide SharedPartner, Counts, ValidProblem, FirstRunsView, ByPriority, IsReadySuccessor;
    PartnersOrdered();
    PartnersCounted(1);
    PartnersCounted(2);
    forall k | IsReadySuccessor(SharedPartner(), {0}, k)
      ensures k == 1 || k == 2
    {
      OnlyPartners(k);
    }
  }

  /** On two cores, the scan stops at the second candidate. */
  lemma TwoScanned(p: Problem, scheduled: set<nat>, s: View, a: nat, b: nat)
    requires ValidProblem(p) && |s.cores| == p.m == 2 && Counts(p, scheduled, s, a) && Counts(p, scheduled, s, b)
    ensures LowestNext(p, scheduled, s, [a, b], 0, 2, []) == Some(b)
  {
    hide Candidate, CertainlyReady;
    assert [] + SharedAmong(p, p.cons[a].predFinish) == [];
    assert ScanAt(p, scheduled, s, b, 1, 1, []) == Stop(b);
    assert LowestNext(p, scheduled, s, [a, b], 1, 1, []) == Some(b);
  }

  /** Both candidates are counted although they wait for the same job. */
  lemma ScanStopsAtSecond()
    ensures ValidProblem(SharedPartner())
    ensures LowestNext(SharedPartner(), {0}, FirstRunsView(), [1, 2], 0, 2, []) == Some(2)
  {
    assert SharedPartner().m == 2 && |FirstRunsView().cores| == 2;
    hide SharedPartner, FirstRunsView, ValidProblem, Counts, LowestNext;
    SharedPartnerValid();
    PartnersCounted(1);
    PartnersCounted(2);
    TwoScanned(SharedPartner(), {0}, FirstRunsView(), 1, 2);
  }

  lemma PartnersNotSafe()
    ensures !ExclusionsSafe(SharedPartner())
  {
    var p := SharedPartner();
    PartnersOf(1, 0);
    PartnersOf(2, 0);
    assert p.IsJob(1) && p.IsJob(2) && HasPreds(p, 1) && HasPreds(p, 2);
    assert Refers(p.cons[1].exclFinish, 0) && WaitsFor(p, 2, 0);
  }

  // ---- The first state ignores when cores become available ----

  /** A job that needs both cores. */
  function OneGang(): Problem {
    Problem([Job(NOW, [Level(2, Interval(1, 1))], 100, 0, 0, 0, 0, 1, 1, 0)], [Unconstrained()], 2)
  }

  lemma OneGangValid()
    ensures ValidProblem(OneGang()) && ValidScenario(OneGang(), NoDelays())
  {
    hide Refers, Refs;
    var levels := OneGang().jobs[0].levels;
    assert levels[..0] == [];
  }

  lemma OneGangKey()
    ensures ValidProblem(OneGang()) && Cat(OneGang(), 0) == Gang && NextKey(OneGang(), {}, ByLatest, {Gang}) == Fin(0)
  {
    OneGangValid();
    hide ValidProblem, ValidScenario;
    LeastKeyExact(OneGang(), {}, ByLatest, {Gang}, 1);
    assert Open(OneGang(), {}, {Gang}, 0) && KeyOf(OneGang(), ByLatest, 0) == 0;
  }

  /** One core becomes available at 0, the other one at 5. */
  function LateCore(): Config {
    Config([Core(None, 0), Core(None, 5)], 0, map[], map[])
  }

  lemma LateCoreWaits(k: nat, x: int)
    requires Startable(OneGang(), NoDelays(), LateCore(), k, x)
    ensures x >= 5
  {
    TwoBelow(FreeTimes(LateCore().cores), x);
  }

  lemma LateCoreDoesNotFit()
    ensures ValidProblem(OneGang()) && !SourcesFit(OneGang(), [NOW, Interval(5, 5)])
  {
    var p, platform := OneGang(), [NOW, Interval(5, 5)];
    OneGangKey();
    InitialCovers(platform, LateCore());
    TwoBelow(FreeTimes(LateCore().cores), 0);
    if Initial(platform)[1].max <= 0 {
      AvailableBy(Initial(platform), LateCore(), 2, 0);
    }
    assert p.IsJob(0) && CoresBy(p, Initial(platform), 0) == Initial(platform)[1].max;
  }

  /** The first state claims that the job can be started at 0. */
  lemma InitialStateCanMislead()
    ensures var p, platform := OneGang(), [NOW, Interval(5, 5)];
            && ValidProblem(p) && ValidPlatform(p, platform) && ValidScenario(p, NoDelays())
            && InitialConfig(p, NoDelays(), platform, LateCore())
            && !SourcesFit(p, platform) && !Covers(p, NoDelays(), InitialView(p, platform), LateCore())
  {
    OneGangValid();
    OneGangKey();
    LateCoreDoesNotFit();
    forall k, x | x < 5
      ensures !Startable(OneGang(), NoDelays(), LateCore(), k, x)
    {
      if Startable(OneGang(), NoDelays(), LateCore(), k, x) {
        LateCoreWaits(k, x);
      }
    }
    hide Startable, SourcesFit, ValidProblem, ValidScenario;
    assert !CertainBy(OneGang(), NoDelays(), LateCore(), Fin(0));
  }
}
