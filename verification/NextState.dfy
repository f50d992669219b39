// The state that results from a dispatch, the merge of two states, and why both
// keep covering the configurations they should.
module NextState {
  import opened Times
  import opened Counting
  import opened Jobs
  import opened Workload
  import opened Scheduler
  import opened CoreAvailability
  import opened RunningJobs
  import opened JobTiming
  import opened PendingSuccessors
  import opened ReadyJobs
  import opened Abstraction
  import opened LatestReady
  import opened NextDispatch
  import opened StepCoverage
  import opened PriorityPruning

  /** The dispatched jobs that are pending for a kind of constraint. */
  ghost function PendingSet(p: Problem, kind: ConstraintType, scheduled: set<nat>): set<nat> {
    set q | q in scheduled && Live(p, q, kind, scheduled)
  }

  /** Cores, running jobs and times after `j` was dispatched; nothing else is known yet. */
  ghost function Timed(p: Problem, later: set<nat>, s: View, j: nat, start: Interval, finish: Interval, used: nat): View
    requires p.IsJob(j) && used <= |s.cores| && FreedCores(s.running, p.cons[j]) <= |s.cores|
  {
    var c := p.cons[j];
    View(Dispatched(s.cores, start, finish, used, FreedCores(s.running, c)),
         InsertByJob(Survivors(s.running, c, start.max), Running(j, used, used, finish)),
         StartTimes(s.starts, j, start, PendingSet(p, StartConstraints, later), c),
         FinishTimes(s.finishes, j, start, finish, PendingSet(p, FinishConstraints, later), c, |s.cores| == 1),
         Inf, Inf, Inf, None)
  }

  /** What a state concludes from its cores and times. */
  function Concluded(p: Problem, scheduled: set<nat>, ready: seq<nat>, v: View): View
    requires ValidProblem(p) && |v.cores| == p.m && AllJobs(p, ready)
  {
    v.(certainSuccessor := Certain(p, scheduled, v, Successor),
       certainGang := Certain(p, scheduled, v, Gang),
       certainMutex := Certain(p, scheduled, v, MutexSource),
       lowest := LowestNext(p, scheduled, v, ready, 0, p.m, []))
  }

  /** The state after `j` was dispatched; `later` and `ready` belong to the node it leads to. */
  ghost function NextView(p: Problem, later: set<nat>, ready: seq<nat>, s: View, j: nat, start: Interval,
                          finish: Interval, used: nat): View
    requires ValidProblem(p) && |s.cores| == p.m && AllJobs(p, ready)
    requires p.IsJob(j) && used <= |s.cores| && FreedCores(s.running, p.cons[j]) <= |s.cores|
  {
    Concluded(p, later, ready, Timed(p, later, s, j, start, finish, used))
  }

  // ---- The invariant of states ----

  /** What a dispatch starts from, on the abstract side. */
  ghost predicate DispatchReady(p: Problem, scheduled: set<nat>, s: View, j: nat, level: nat) {
    && ValidProblem(p) && Closed(p, scheduled)
    && StateInvariant(p, scheduled, s)
    && Dispatchable(p, scheduled, s, j, level)
  }

  /** A job that is still pending after a dispatch was pending before, unless it is the dispatched one. */
  lemma LiveBefore(p: Problem, kind: ConstraintType, scheduled: set<nat>, j: nat, q: nat)
    requires q in scheduled && Live(p, q, kind, scheduled + {j})
    ensures Live(p, q, kind, scheduled)
  {
  }

  lemma StartKeysExact(p: Problem, scheduled: set<nat>, known: map<nat, Interval>, j: nat, start: Interval)
    requires p.IsJob(j) && KeysExact(p, StartConstraints, scheduled, known)
    ensures KeysExact(p, StartConstraints, scheduled + {j},
                      StartTimes(known, j, start, PendingSet(p, StartConstraints, scheduled + {j}), p.cons[j]))
  {
    forall q | q in scheduled && Live(p, q, StartConstraints, scheduled + {j})
      ensures q in known
    {
      LiveBefore(p, StartConstraints, scheduled, j, q);
    }
  }

  lemma FinishKeysExact(p: Problem, scheduled: set<nat>, known: map<nat, Interval>, j: nat, start: Interval,
                        finish: Interval, single: bool)
    requires p.IsJob(j) && KeysExact(p, FinishConstraints, scheduled, known)
    ensures KeysExact(p, FinishConstraints, scheduled + {j},
                      FinishTimes(known, j, start, finish, PendingSet(p, FinishConstraints, scheduled + {j}),
                          p.cons[j], single))
  {
    forall q | q in scheduled && Live(p, q, FinishConstraints, scheduled + {j})
      ensures q in known
    {
      LiveBefore(p, FinishConstraints, scheduled, j, q);
    }
  }

  lemma {:induction false} EarliestOverBound(list: seq<Delay>, known: map<nat, Interval>, acc: int, n: nat, i: nat)
    requires n <= |list|
    ensures acc <= EarliestOver(list, known, acc, n)
    ensures i < n && list[i].ref in known ==> known[list[i].ref].min + list[i].delay.min <= EarliestOver(list, known,
        acc, n)
  {
    if n > 0 {
      EarliestOverBound(list, known, acc, n - 1, i);
    }
  }

  lemma EarliestOverDelay(list: seq<Delay>, known: map<nat, Interval>, acc: int, q: nat, n: nat)
    requires ValidList(list, n) && q in known
    ensures acc <= EarliestOver(list, known, acc, |list|)
    ensures MinDelayIn(list, q) != -1 ==> known[q].min + MinDelayIn(list, q) <= EarliestOver(list, known, acc, |list|)
  {
    MinDelayInExact(list, q, n);
    EarliestOverBound(list, known, acc, |list|, 0);
    if MinDelayIn(list, q) != -1 {
      var i :| 0 <= i < |list| && list[i].ref == q && MinDelayIn(list, q) == list[i].delay.min;
      EarliestOverBound(list, known, acc, |list|, i);
    }
  }

  /** The earliest ready time accounts for the least delays after recorded jobs, so that the
      bounds tightened by those delays never fall below the earliest times. */
  lemma TighteningNeverInverts(p: Problem, s: View, j: nat, q: nat, lst: int)
    requires ValidProblem(p) && p.IsJob(j) && ReadyTimes(p, s, j).min <= lst
    ensures q in s.starts && MinDelayAfterStart(p.cons[j], q) >= 0 ==>
              s.starts[q].min <= lst - MinDelayAfterStart(p.cons[j], q)
    ensures q in s.finishes && MinDelayAfterFinish(p.cons[j], q) >= 0 ==>
              s.finishes[q].min <= lst - MinDelayAfterFinish(p.cons[j], q)
  {
    var c := p.cons[j];
    assert ValidConstraints(c, |p.jobs|);
    var lo0 := p.jobs[j].arrival.min;
    var lo1 := EarliestOver(c.predStart, s.starts, lo0, |c.predStart|);
    var lo2 := EarliestOver(c.exclStart, s.starts, lo1, |c.exclStart|);
    var lo3 := EarliestOver(c.predFinish, s.finishes, lo2, |c.predFinish|);
    EarliestOverBound(c.exclFinish, s.finishes, lo3, |c.exclFinish|, 0);
    EarliestOverBound(c.predFinish, s.finishes, lo2, |c.predFinish|, 0);
    EarliestOverBound(c.exclStart, s.starts, lo1, |c.exclStart|, 0);
    if q in s.starts {
      EarliestOverDelay(c.predStart, s.starts, lo0, q, |p.jobs|);
      EarliestOverDelay(c.exclStart, s.starts, lo1, q, |p.jobs|);
    }
    if q in s.finishes {
      EarliestOverDelay(c.predFinish, s.finishes, lo2, q, |p.jobs|);
      EarliestOverDelay(c.exclFinish, s.finishes, lo3, q, |p.jobs|);
    }
  }

  /** On one core, the recorded earliest finish times stay below the availability of the core. */
  lemma SingleCoreTimes(cores: seq<Interval>, known: map<nat, Interval>, j: nat, start: Interval, finish: Interval,
                        pending: set<nat>, c: JobConstraints, freed: nat)
    requires |cores| == 1 && freed <= 1 && DispatchTimes(start, finish) && WellFormed(cores)
    requires cores[0].min <= start.min && forall q :: q in known ==> known[q].min <= cores[0].min
    ensures Dispatched(cores, start, finish, 1, freed)[0].min == finish.min
    ensures var r := FinishTimes(known, j, start, finish, pending, c, true);
            forall q :: q in r ==> r[q].min <= finish.min
  {
    DispatchedWellFormed(cores, start, finish, 1, freed);
    assert Mins(cores)[1..] == [];
    assert PossibleTimes(cores, start.min, finish.min, 1, freed)[0] == finish.min;
    assert Mins(Dispatched(cores, start, finish, 1, freed))[0] == finish.min;
  }

  lemma TimedRunning(p: Problem, scheduled: set<nat>, s: View, j: nat, lst: int, used: nat, finish: Interval)
    requires p.IsJob(j) && j !in scheduled && SortedByJob(s.running)
    requires forall i :: 0 <= i < |s.running| ==> s.running[i].job in scheduled
    ensures var r := InsertByJob(Survivors(s.running, p.cons[j], lst), Running(j, used, used, finish));
            SortedByJob(r) && forall i :: 0 <= i < |r| ==> r[i].job in scheduled + {j}
  {
    var kept := Survivors(s.running, p.cons[j], lst);
    SurvivorsOf(s.running, p.cons[j], lst);
    assert forall i :: 0 <= i < |kept| ==> kept[i] in kept;
    InsertByJobSorted(kept, Running(j, used, used, finish));
    var r := InsertByJob(kept, Running(j, used, used, finish));
    assert forall i :: 0 <= i < |r| ==> r[i] in r;
  }

  lemma TimedIntervals(s: View, j: nat, start: Interval, finish: Interval, pending: set<nat>, c: JobConstraints,
                       single: bool)
    requires IntervalsOk(s.starts) && IntervalsOk(s.finishes) && start.Ok() && finish.Ok()
    ensures IntervalsOk(StartTimes(s.starts, j, start, pending, c))
    ensures IntervalsOk(FinishTimes(s.finishes, j, start, finish, pending, c, single))
  {
  }

  /** A dispatch keeps the balance of cores, so that no index runs past the vector. */
  lemma TimedCores(p: Problem, scheduled: set<nat>, s: View, j: nat, level: nat)
    requires DispatchReady(p, scheduled, s, j, level)
    ensures var start := StartInterval(p, scheduled, s, j, level);
            var finish := FinishInterval(p, scheduled, s, j, level);
            var used := p.jobs[j].levels[level].cores;
            && 1 <= used <= |s.cores| && FreedCores(s.running, p.cons[j]) <= |s.cores|
            && DispatchTimes(start, finish) && s.cores[used - 1].min <= start.min
            && var v := Timed(p, scheduled + {j}, s, j, start, finish, used);
               WellFormed(v.cores) && Conserved(v.cores, v.running)
  {
    DispatchIntervalsOk(p, scheduled, s, j, level);
    LevelOnPlatform(p, j, level);
    var start, finish := StartInterval(p, scheduled, s, j, level), FinishInterval(p, scheduled, s, j, level);
    var used := p.jobs[j].levels[level].cores;
    DispatchConserves(s.cores, s.running, p.cons[j], j, start, finish, used);
    DispatchedWellFormed(s.cores, start, finish, used, FreedCores(s.running, p.cons[j]));
  }

  /** A dispatch keeps the invariant of states: in particular the recorded times are again
      precisely those that matter. */
  lemma TimedInvariant(p: Problem, scheduled: set<nat>, s: View, j: nat, level: nat)
    requires DispatchReady(p, scheduled, s, j, level)
    ensures p.jobs[j].levels[level].cores <= |s.cores| && FreedCores(s.running, p.cons[j]) <= |s.cores|
    ensures StateInvariant(p, scheduled + {j},
                           Timed(p, scheduled + {j}, s, j, StartInterval(p, scheduled, s, j, level),
                                 FinishInterval(p, scheduled, s, j, level), p.jobs[j].levels[level].cores))
  {
    TimedCores(p, scheduled, s, j, level);
    var start, finish := StartInterval(p, scheduled, s, j, level), FinishInterval(p, scheduled, s, j, level);
    var used, later := p.jobs[j].levels[level].cores, scheduled + {j};
    var v := Timed(p, later, s, j, start, finish, used);
    assert SortedByJob(v.running) && forall i :: 0 <= i < |v.running| ==> v.running[i].job in later by {
      TimedRunning(p, scheduled, s, j, start.max, used, finish);
    }
    assert KeysExact(p, StartConstraints, later, v.starts) by {
      StartKeysExact(p, scheduled, s.starts, j, start);
    }
    assert KeysExact(p, FinishConstraints, later, v.finishes) by {
      FinishKeysExact(p, scheduled, s.finishes, j, start, finish, |s.cores| == 1);
    }
    assert IntervalsOk(v.starts) && IntervalsOk(v.finishes) by {
      TimedIntervals(s, j, start, finish, PendingSet(p, StartConstraints, later), p.cons[j], false);
      TimedIntervals(s, j, start, finish, PendingSet(p, FinishConstraints, later), p.cons[j], |s.cores| == 1);
    }
    if p.m == 1 {
      SingleCoreTimes(s.cores, s.finishes, j, start, finish, PendingSet(p, FinishConstraints, later), p.cons[j],
                      FreedCores(s.running, p.cons[j]));
    }
  }

  // ---- The new state covers the new configuration ----

  /** Recorded start times stay right: a job that `j` waits for started early enough. */
  lemma StartTimesCover(p: Problem, sc: Scenario, c: Config, known: map<nat, Interval>, j: nat, start: Interval,
                        pending: set<nat>, t: int, f: int)
    requires ValidProblem(p) && ValidScenario(p, sc) && p.IsJob(j) && ReadyBy(p, sc, c, j, t)
    requires c.start.Keys == c.finish.Keys && TimesCover(known, c.start) && start.Has(t) && j !in c.start
    ensures TimesCover(StartTimes(known, j, start, pending, p.cons[j]), c.start[j := t])
  {
    forall q | q in known && q != j
      ensures TightenStart(known[q], start.max, MinDelayAfterStart(p.cons[j], q)).Has(c.start[q])
    {
      WaitedAfter(p, sc, c, j, q, t);
    }
  }

  /** Recorded finish times stay right: on one core everything dispatched has finished when `j`
      starts, and a job that `j` waits for finished early enough. */
  lemma FinishTimesCover(p: Problem, sc: Scenario, c: Config, known: map<nat, Interval>, j: nat, start: Interval,
                         finish: Interval,
                         pending: set<nat>, t: int, f: int)
    requires ValidProblem(p) && ValidScenario(p, sc) && p.IsJob(j) && ReadyBy(p, sc, c, j, t)
    requires CoresConsistent(c) && c.now <= t && FreeAt(c, t) >= 1
    requires c.start.Keys == c.finish.Keys && TimesCover(known, c.finish) && j !in c.start
    requires start.Has(t) && finish.Has(f)
    ensures TimesCover(FinishTimes(known, j, start, finish, pending, p.cons[j], |c.cores| == 1), c.finish[j := f])
  {
    forall q | q in known && q != j
      ensures TightenFinish(known[q], start.max, MinDelayAfterFinish(p.cons[j], q), |c.cores| == 1).Has(c.finish[q])
    {
      WaitedAfter(p, sc, c, j, q, t);
      if c.finish[q] > t {
        RunningBesideFreeCore(c, q, t);
      }
    }
  }

  /** Jobs that must have finished when `j` starts have done so. */
  lemma MustHaveFinished(p: Problem, sc: Scenario, c: Config, j: nat, t: int, q: nat)
    requires ValidProblem(p) && ValidScenario(p, sc) && p.IsJob(j) && ReadyBy(p, sc, c, j, t)
    requires q in c.finish && MustBeFinished(p.cons[j], q)
    ensures c.finish[q] <= t
  {
    assert ValidConstraints(p.cons[j], |p.jobs|);
    if i: nat :| i < |p.cons[j].predFinish| && p.cons[j].predFinish[i].ref == q {
      assert p.cons[j].predFinish[i].delay.Has(sc.delay(PredFinish, j, i));
    } else {
      var i: nat :| i < |p.cons[j].exclFinish| && p.cons[j].exclFinish[i].ref == q;
      assert p.cons[j].exclFinish[i].delay.Has(sc.delay(ExclFinish, j, i));
    }
  }

  /** The core availability after the step covers the cores after the step. */
  lemma CoresCoverStep(p: Problem, sc: Scenario, s: View, c: Config, d: Decision, c': Config, start: Interval,
                       finish: Interval)
    requires Situation(p, sc, s, c) && Step(p, sc, c, d, c')
    requires DispatchTimes(start, finish) && start.Has(d.t) && finish.Has(d.f)
    ensures var used := p.jobs[d.job].levels[d.level].cores;
            && used <= |s.cores| && FreedCores(s.running, p.cons[d.job]) <= |s.cores|
            && CoresCover(Dispatched(s.cores, start, finish, used, FreedCores(s.running, p.cons[d.job])), c')
  {
    hide ValidProblem;
    LevelOnPlatform(p, d.job, d.level);
    CostBounds(p, d);
    forall q | q in c.finish && MustBeFinished(p.cons[d.job], q)
      ensures c.finish[q] <= d.t
    {
      MustHaveFinished(p, sc, c, d.job, d.t, q);
    }
    FreedCoresAreFree(s.running, c, p.cons[d.job], d.t);
    DispatchCovers(s.cores, c, start, finish, p.jobs[d.job].levels[d.level].cores, FreedCores(s.running, p.cons[d.job]),
                   d.job, d.t, d.f, c');
  }

  /** Cores, running jobs and recorded times after the step are right. */
  lemma TimedCovers(p: Problem, sc: Scenario, s: View, c: Config, d: Decision, c': Config)
    requires Situation(p, sc, s, c) && Step(p, sc, c, d, c')
    ensures Dispatchable(p, c.start.Keys, s, d.job, d.level)
    ensures var used := p.jobs[d.job].levels[d.level].cores;
            && used <= |s.cores| && FreedCores(s.running, p.cons[d.job]) <= |s.cores|
            && var v := Timed(p, c'.start.Keys, s, d.job, StartInterval(p, c.start.Keys, s, d.job, d.level),
                              FinishInterval(p, c.start.Keys, s, d.job, d.level), used);
               CoresCover(v.cores, c') && RunningCover(v.running, c')
               && TimesCover(v.starts, c'.start) && TimesCover(v.finishes, c'.finish)
  {
    LegalIsDispatchable(p, sc, s, c, d);
    DispatchIntervalsOk(p, c.start.Keys, s, d.job, d.level);
    LevelOnPlatform(p, d.job, d.level);
    var start, finish := StartInterval(p, c.start.Keys, s, d.job, d.level),
        FinishInterval(p, c.start.Keys, s, d.job, d.level);
    CoresCoverStep(p, sc, s, c, d, c', start, finish);
    RunningUpdateCovers(s.running, c, p.cons[d.job], d.job, d.t, d.f, start, finish,
        p.jobs[d.job].levels[d.level].cores, c');
    StartTimesCover(p, sc, c, s.starts, d.job, start, PendingSet(p, StartConstraints, c'.start.Keys), d.t, d.f);
    FinishTimesCover(p, sc, c, s.finishes, d.job, start, finish, PendingSet(p, FinishConstraints, c'.start.Keys), d.t,
        d.f);
  }

  /** The time by which some job of a category can certainly be started is right. */
  lemma CertainSound(p: Problem, sc: Scenario, s: View, c: Config, cat: Category)
    requires ValidProblem(p) && ValidScenario(p, sc) && c.start.Keys == c.finish.Keys && cat != Sequential
    requires StateInvariant(p, c.start.Keys, s) && CoresCover(s.cores, c)
    requires TimesCover(s.starts, c.start) && TimesCover(s.finishes, c.finish)
    ensures CertainBy(p, sc, c, Certain(p, c.start.Keys, s, cat))
  {
    var b := Certain(p, c.start.Keys, s, cat);
    NextCertainExact(p, c.start.Keys, s, cat, |p.jobs|);
    if b.Fin? {
      var k: nat :| k < |p.jobs| && CertainBound(p, c.start.Keys, s, cat, k) == b;
      CertainTimeSound(p, sc, s, c, k, b.t);
    }
  }

  lemma InitialScan(p: Problem, sc: Scenario, s: View, c: Config, ready: seq<nat>)
    requires TimingSituation(p, sc, s, c) && ReadyExact(p, c.start.Keys, ready)
    ensures ScanState(p, sc, s, c, ready, 0, p.m, [], [])
  {
  }

  /** What a state concludes does not affect its invariant. */
  lemma ConcludedInvariant(p: Problem, scheduled: set<nat>, v: View, ready: seq<nat>)
    requires ValidProblem(p) && StateInvariant(p, scheduled, v) && AllJobs(p, ready)
    ensures StateInvariant(p, scheduled, Concluded(p, scheduled, ready, v))
  {
    LowestNextIsJob(p, scheduled, v, ready, 0, p.m, []);
  }

  /** Everything a state concludes from its cores and times is right. */
  lemma ConcludedCovers(p: Problem, sc: Scenario, v: View, c: Config, ready: seq<nat>)
    requires ValidProblem(p) && ValidScenario(p, sc) && Consistent(p, sc, c)
    requires ExclusionsSafe(p) && ReadyExact(p, c.start.Keys, ready) && RepeatsShared(p, ready)
    requires StateInvariant(p, c.start.Keys, v) && CoresCover(v.cores, c) && RunningCover(v.running, c)
    requires TimesCover(v.starts, c.start) && TimesCover(v.finishes, c.finish)
    ensures StateInvariant(p, c.start.Keys, Concluded(p, c.start.Keys, ready, v))
    ensures Covers(p, sc, Concluded(p, c.start.Keys, ready, v), c)
  {
    CertainSound(p, sc, v, c, Successor);
    CertainSound(p, sc, v, c, Gang);
    CertainSound(p, sc, v, c, MutexSource);
    InitialScan(p, sc, v, c, ready);
    LowestNextSound(p, sc, v, c, ready, 0, p.m, [], []);
    ConcludedInvariant(p, c.start.Keys, v, ready);
  }

  lemma StaysClosed(p: Problem, c: Config)
    requires PredsConsistent(p, c)
    ensures Closed(p, c.start.Keys)
  {
  }

  /** The exploration dispatches `j` at this level in state `s`, and the state it constructs
      meets the invariant and covers `c'`. */
  ghost predicate LeadsTo(p: Problem, sc: Scenario, scheduled: set<nat>, s: View, d: Decision, later: set<nat>,
                          ready: seq<nat>, c': Config) {
    && ValidProblem(p) && |s.cores| == p.m && AllJobs(p, ready)
    && Dispatchable(p, scheduled, s, d.job, d.level)
    && FinishInterval(p, scheduled, s, d.job, d.level).Has(d.f)
    && var used := p.jobs[d.job].levels[d.level].cores;
    && used <= |s.cores| && FreedCores(s.running, p.cons[d.job]) <= |s.cores|
    && var v := NextView(p, later, ready, s, d.job, StartInterval(p, scheduled, s, d.job, d.level),
                         FinishInterval(p, scheduled, s, d.job, d.level), used);
    && StateInvariant(p, later, v) && Covers(p, sc, v, c')
  }

  lemma TimedSituation(p: Problem, sc: Scenario, s: View, c: Config, d: Decision, c': Config)
    requires Situation(p, sc, s, c) && Step(p, sc, c, d, c') && CostsSafe(p)
    ensures DispatchReady(p, c.start.Keys, s, d.job, d.level)
    ensures Consistent(p, sc, c') && c'.start.Keys == c.start.Keys + {d.job}
    ensures FinishInterval(p, c.start.Keys, s, d.job, d.level).Has(d.f)
  {
    hide ValidProblem, Problem.IsJob;
    StepConsistent(p, sc, c, d, c');
    LegalIsDispatchable(p, sc, s, c, d);
    StaysClosed(p, c);
  }

  lemma ConcludeStep(p: Problem, sc: Scenario, scheduled: set<nat>, s: View, d: Decision, c': Config, ready: seq<nat>,
                     start: Interval, finish: Interval, used: nat)
    requires ValidScenario(p, sc) && Consistent(p, sc, c') && c'.start.Keys == scheduled + {d.job}
    requires ExclusionsSafe(p) && ReadyExact(p, c'.start.Keys, ready) && RepeatsShared(p, ready)
    requires DispatchReady(p, scheduled, s, d.job, d.level)
    requires start == StartInterval(p, scheduled, s, d.job, d.level)
    requires finish == FinishInterval(p, scheduled, s, d.job, d.level) && finish.Has(d.f)
    requires used == p.jobs[d.job].levels[d.level].cores
    requires used <= |s.cores| && FreedCores(s.running, p.cons[d.job]) <= |s.cores|
    requires var v := Timed(p, c'.start.Keys, s, d.job, start, finish, used);
             && StateInvariant(p, c'.start.Keys, v) && CoresCover(v.cores, c') && RunningCover(v.running, c')
             && TimesCover(v.starts, c'.start) && TimesCover(v.finishes, c'.finish)
    ensures LeadsTo(p, sc, scheduled, s, d, c'.start.Keys, ready, c')
  {
    var v := Timed(p, c'.start.Keys, s, d.job, start, finish, used);
    var w := Concluded(p, c'.start.Keys, ready, v);
    ConcludedCovers(p, sc, v, c', ready);
    assert w == NextView(p, c'.start.Keys, ready, s, d.job, start, finish, used);
  }

  /** Step coverage: whatever the scheduler does next in a covered configuration, the exploration
      dispatches the same job at the same level, and the state it constructs covers the result. */
  lemma StepCovered(p: Problem, sc: Scenario, s: View, c: Config, d: Decision, c': Config, ready: seq<nat>)
    requires Situation(p, sc, s, c) && Step(p, sc, c, d, c') && CostsSafe(p) && ExclusionsSafe(p)
    requires ReadyExact(p, c'.start.Keys, ready) && RepeatsShared(p, ready)
    ensures LeadsTo(p, sc, c.start.Keys, s, d, c'.start.Keys, ready, c')
  {
    hide ValidProblem;
    TimedCovers(p, sc, s, c, d, c');
    TimedSituation(p, sc, s, c, d, c');
    TimedInvariant(p, c.start.Keys, s, d.job, d.level);
    ConcludeStep(p, sc, c.start.Keys, s, d, c', ready, StartInterval(p, c.start.Keys, s, d.job, d.level),
                 FinishInterval(p, c.start.Keys, s, d.job, d.level), p.jobs[d.job].levels[d.level].cores);
  }

  // ---- Merging states ----

  /** The lower-priority job of the two, when both are known. */
  function LowerOf(p: Problem, a: Option<nat>, b: Option<nat>): Option<nat>
    requires (a.Some? ==> p.IsJob(a.value)) && (b.Some? ==> p.IsJob(b.value))
  {
    if a.None? || b.None? then None
    else if PriorTo(p, a.value, b.value) then b
    else a
  }

  /** The merge of two states of the same node. */
  ghost function Merged(p: Problem, a: View, b: View): View
    requires |a.cores| == |b.cores|
    requires (a.lowest.Some? ==> p.IsJob(a.lowest.value)) && (b.lowest.Some? ==> p.IsJob(b.lowest.value))
  {
    View(Widened(a.cores, b.cores), Common(a.running, b.running),
         WidenedTimes(a.starts, b.starts), WidenedTimes(a.finishes, b.finishes),
         MaxB(a.certainSuccessor, b.certainSuccessor), MaxB(a.certainGang, b.certainGang),
         MaxB(a.certainMutex, b.certainMutex), LowerOf(p, a.lowest, b.lowest))
  }

  lemma CommonJobs(a: seq<Running>, b: seq<Running>, scheduled: set<nat>)
    requires SortedByJob(a) && SortedByJob(b) && forall i :: 0 <= i < |a| ==> a[i].job in scheduled
    ensures SortedByJob(Common(a, b)) && forall i :: 0 <= i < |Common(a, b)| ==> Common(a, b)[i].job in scheduled
  {
    CommonSorted(a, b);
    forall i | 0 <= i < |Common(a, b)|
      ensures Common(a, b)[i].job in scheduled
    {
      CommonOf(a, b, i);
    }
  }

  lemma WidenedKeys(p: Problem, kind: ConstraintType, scheduled: set<nat>, a: map<nat, Interval>, b: map<nat, Interval>)
    requires KeysExact(p, kind, scheduled, a) && IntervalsOk(a) && IntervalsOk(b)
    ensures KeysExact(p, kind, scheduled, WidenedTimes(a, b)) && IntervalsOk(WidenedTimes(a, b))
  {
  }

  lemma MergedCores(p: Problem, scheduled: set<nat>, a: View, b: View, r: View)
    requires CoresInvariant(p, scheduled, a) && CoresInvariant(p, scheduled, b)
    requires r.cores == Widened(a.cores, b.cores) && r.running == Common(a.running, b.running)
    ensures CoresInvariant(p, scheduled, r)
  {
    WidenedCovers(a.cores, b.cores);
    MergeConserves(a.cores, b.cores, a.running, b.running);
    CommonJobs(a.running, b.running, scheduled);
  }

  lemma MergedTimes(p: Problem, scheduled: set<nat>, a: View, b: View, r: View)
    requires TimesInvariant(p, scheduled, a) && TimesInvariant(p, scheduled, b) && |a.cores| == |b.cores|
    requires r.cores == Widened(a.cores, b.cores)
    requires r.starts == WidenedTimes(a.starts, b.starts) && r.finishes == WidenedTimes(a.finishes, b.finishes)
    ensures TimesInvariant(p, scheduled, r)
  {
    WidenedKeys(p, StartConstraints, scheduled, a.starts, b.starts);
    WidenedKeys(p, FinishConstraints, scheduled, a.finishes, b.finishes);
    if |r.cores| == 1 {
      SingleCoreMerge(a, b);
    }
  }

  /** A merge keeps the invariant of states. */
  lemma MergedInvariant(p: Problem, scheduled: set<nat>, a: View, b: View)
    requires StateInvariant(p, scheduled, a) && StateInvariant(p, scheduled, b)
    ensures StateInvariant(p, scheduled, Merged(p, a, b))
  {
    var r := Merged(p, a, b);
    MergedCores(p, scheduled, a, b, r);
    MergedTimes(p, scheduled, a, b, r);
  }

  lemma SingleCoreMerge(a: View, b: View)
    requires |a.cores| == |b.cores| == 1
    requires forall q :: q in a.finishes ==> a.finishes[q].min <= a.cores[0].min
    requires forall q :: q in b.finishes ==> b.finishes[q].min <= b.cores[0].min
    requires a.finishes.Keys == b.finishes.Keys
    ensures forall q :: q in WidenedTimes(a.finishes, b.finishes) ==>
              WidenedTimes(a.finishes, b.finishes)[q].min <= Widened(a.cores, b.cores)[0].min
  {
  }

  lemma LowerOfHolds(p: Problem, sc: Scenario, c: Config, a: Option<nat>, b: Option<nat>)
    requires (a.Some? ==> p.IsJob(a.value)) && (b.Some? ==> p.IsJob(b.value))
    requires LowestHolds(p, sc, c, a) || LowestHolds(p, sc, c, b)
    ensures LowestHolds(p, sc, c, LowerOf(p, a, b))
  {
    var r := LowerOf(p, a, b);
    if r.Some? {
      var of := if LowestHolds(p, sc, c, a) then a.value else b.value;
      forall t | c.now <= t && FreeAt(c, t) >= 1
        ensures exists k :: Startable(p, sc, c, k, t) && !PriorTo(p, r.value, k)
      {
        var k :| Startable(p, sc, c, k, t) && !PriorTo(p, of, k);
      }
    }
  }

  lemma CertainByLater(p: Problem, sc: Scenario, c: Config, a: Bound, b: Bound)
    requires CertainBy(p, sc, c, a) && LeB(a, b)
    ensures CertainBy(p, sc, c, b)
  {
    if b.Fin? {
      var k :| Startable(p, sc, c, k, a.t);
      StartableLater(p, sc, c, k, a.t, b.t);
    }
  }

  /** Merging loses nothing: the merge covers every configuration that either state covers. */
  lemma MergedCovers(p: Problem, sc: Scenario, a: View, b: View, c: Config)
    requires WellFormed(a.cores) && WellFormed(b.cores) && |a.cores| == |b.cores|
    requires SortedByJob(a.running) && SortedByJob(b.running) && a.starts.Keys == b.starts.Keys
        && a.finishes.Keys == b.finishes.Keys
    requires (a.lowest.Some? ==> p.IsJob(a.lowest.value)) && (b.lowest.Some? ==> p.IsJob(b.lowest.value))
    requires Covers(p, sc, a, c) || Covers(p, sc, b, c)
    ensures Covers(p, sc, Merged(p, a, b), c)
  {
    hide CoresCover, CertainBy;
    var r, s := Merged(p, a, b), if Covers(p, sc, a, c) then a else b;
    assert CoresCover(r.cores, c) by { WidenedCovers(a.cores, b.cores); }
    assert RunningCover(r.running, c) by { CommonCovers(a.running, b.running, c); }
    CertainByLater(p, sc, c, s.certainSuccessor, r.certainSuccessor);
    CertainByLater(p, sc, c, s.certainGang, r.certainGang);
    CertainByLater(p, sc, c, s.certainMutex, r.certainMutex);
    LowerOfHolds(p, sc, c, a.lowest, b.lowest);
  }
}
