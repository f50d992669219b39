// What the exploration of one layer establishes about runs, and what follows for
// the verdict once all layers have been explored.
module Verdicts {
  import opened Times
  import opened Counting
  import opened Jobs
  import opened Workload
  import opened Scheduler
  import opened CoreAvailability
  import opened RunningJobs
  import opened PendingSuccessors
  import opened ReadyJobs
  import opened Abstraction
  import opened NextDispatch
  import opened StepCoverage
  import opened PriorityPruning
  import opened NextState
  import opened ScheduleStates
  import opened Runs
  import opened Exactness
  import opened InitialStates
  import opened Layers

  /** A node: the dispatched jobs, and its states. */
  datatype Snapshot = Snapshot(scheduled: set<nat>, views: seq<View>)

  ghost predicate LayerCovers(p: Problem, sc: Scenario, layer: seq<Snapshot>, c: Config) {
    exists i :: 0 <= i < |layer| && layer[i].scheduled == c.start.Keys && ViewsCover(p, sc, layer[i].views, c)
  }

  /** Every configuration that layer `a` covers, layer `b` covers as well. */
  ghost predicate Grows(p: Problem, b: seq<Snapshot>, a: seq<Snapshot>) {
    forall sc: Scenario, c: Config :: LayerCovers(p, sc, a, c) ==> LayerCovers(p, sc, b, c)
  }

  /** The layer covers what a state in which `scheduled` has been dispatched covers. */
  ghost predicate Absorbed(p: Problem, layer: seq<Snapshot>, scheduled: set<nat>, v: View) {
    forall sc: Scenario, c: Config :: Covers(p, sc, v, c) && c.start.Keys == scheduled ==> LayerCovers(p, sc, layer, c)
  }

  lemma GrowsReflexive(p: Problem, a: seq<Snapshot>)
    ensures Grows(p, a, a)
  {
  }

  lemma GrowsTransitive(p: Problem, c: seq<Snapshot>, b: seq<Snapshot>, a: seq<Snapshot>)
    requires Grows(p, c, b) && Grows(p, b, a)
    ensures Grows(p, c, a)
  {
  }

  /** Improving one node of a layer. */
  lemma ImproveNode(p: Problem, layer: seq<Snapshot>, i: nat, views: seq<View>, v: View)
    requires i < |layer| && Subsumes(p, views, layer[i].views) && Subsumes(p, views, [v])
    ensures var w := layer[i := Snapshot(layer[i].scheduled, views)];
            Grows(p, w, layer) && Absorbed(p, w, layer[i].scheduled, v)
  {
    var w := layer[i := Snapshot(layer[i].scheduled, views)];
    forall sc: Scenario, c: Config | LayerCovers(p, sc, layer, c)
      ensures LayerCovers(p, sc, w, c)
    {
      var k :| 0 <= k < |layer| && layer[k].scheduled == c.start.Keys && ViewsCover(p, sc, layer[k].views, c);
      assert w[k].scheduled == c.start.Keys && ViewsCover(p, sc, w[k].views, c);
    }
    forall sc: Scenario, c: Config | Covers(p, sc, v, c) && c.start.Keys == layer[i].scheduled
      ensures LayerCovers(p, sc, w, c)
    {
      assert Covers(p, sc, [v][0], c);
      assert ViewsCover(p, sc, [v], c);
      assert w[i].scheduled == c.start.Keys && ViewsCover(p, sc, w[i].views, c);
    }
  }

  lemma AppendNode(p: Problem, layer: seq<Snapshot>, n: Snapshot)
    ensures Grows(p, layer + [n], layer)
  {
    forall sc: Scenario, c: Config | LayerCovers(p, sc, layer, c)
      ensures LayerCovers(p, sc, layer + [n], c)
    {
      var k :| 0 <= k < |layer| && layer[k].scheduled == c.start.Keys && ViewsCover(p, sc, layer[k].views, c);
      assert (layer + [n])[k] == layer[k];
    }
  }

  // ---- Completion times ----

  ghost predicate Reported(completion: seq<Option<Interval>>, j: nat, range: Interval) {
    j < |completion| && completion[j].Some? && completion[j].value.Contains(range)
  }

  /** Completion times only widen. */
  ghost predicate Widens(b: seq<Option<Interval>>, a: seq<Option<Interval>>) {
    |a| == |b| && forall j :: 0 <= j < |a| && a[j].Some? ==> b[j].Some? && b[j].value.Contains(a[j].value)
  }

  // ---- Exploring a state ----

  /** The dispatch of `j` at this level has been explored: its finish times are reported, and the
      next layer covers the state it leads to. */
  ghost predicate Handled(p: Problem, layer: seq<Snapshot>, completion: seq<Option<Interval>>, scheduled: set<nat>,
                          s: View,
                          j: nat, level: nat)
    requires ValidProblem(p) && |s.cores| == p.m && p.IsJob(j) && level < |p.jobs[j].levels|
  {
    var start, finish := StartInterval(p, scheduled, s, j, level), FinishInterval(p, scheduled, s, j, level);
    var used, later := p.jobs[j].levels[level].cores, scheduled + {j};
    && Reported(completion, j, finish)
    && used <= |s.cores| && FreedCores(s.running, p.cons[j]) <= |s.cores|
    && exists ready ::
         && ReadyExact(p, later, ready) && (SimpleStartEdges(p) ==> RepeatsShared(p, ready))
         && Absorbed(p, layer, later, NextView(p, later, ready, s, j, start, finish, used))
  }

  ghost predicate HandledIf(p: Problem, layer: seq<Snapshot>, completion: seq<Option<Interval>>, scheduled: set<nat>,
                            s: View,
                            j: nat, level: nat)
    requires ValidProblem(p) && |s.cores| == p.m
  {
    Dispatchable(p, scheduled, s, j, level) ==> Handled(p, layer, completion, scheduled, s, j, level)
  }

  lemma HandledGrows(p: Problem, a: seq<Snapshot>, b: seq<Snapshot>, ca: seq<Option<Interval>>,
                     cb: seq<Option<Interval>>,
                     scheduled: set<nat>, s: View, j: nat, level: nat)
    requires ValidProblem(p) && |s.cores| == p.m && p.IsJob(j) && level < |p.jobs[j].levels|
    requires Grows(p, b, a) && Widens(cb, ca) && Handled(p, a, ca, scheduled, s, j, level)
    ensures Handled(p, b, cb, scheduled, s, j, level)
  {
    hide NextView;
    var start, finish := StartInterval(p, scheduled, s, j, level), FinishInterval(p, scheduled, s, j, level);
    var used, later := p.jobs[j].levels[level].cores, scheduled + {j};
    var ready :| ReadyExact(p, later, ready) && (SimpleStartEdges(p) ==> RepeatsShared(p, ready))
                 && Absorbed(p, a, later, NextView(p, later, ready, s, j, start, finish, used));
    assert Absorbed(p, b, later, NextView(p, later, ready, s, j, start, finish, used));
  }

  /** All dispatches of `j` below level `l` have been explored. */
  ghost predicate LevelsDone(p: Problem, layer: seq<Snapshot>, completion: seq<Option<Interval>>, scheduled: set<nat>,
                             s: View,
                             j: nat, l: nat)
    requires ValidProblem(p) && |s.cores| == p.m
  {
    forall level: nat :: level < l ==> HandledIf(p, layer, completion, scheduled, s, j, level)
  }

  /** `j` cannot be dispatched below level `l`. */
  ghost predicate NoLevel(p: Problem, scheduled: set<nat>, s: View, j: nat, l: nat)
    requires ValidProblem(p) && |s.cores| == p.m
  {
    forall level: nat :: level < l ==> !Dispatchable(p, scheduled, s, j, level)
  }

  lemma LevelsGrow(p: Problem, a: seq<Snapshot>, b: seq<Snapshot>, ca: seq<Option<Interval>>, cb: seq<Option<Interval>>,
                   scheduled: set<nat>, s: View, j: nat, l: nat)
    requires ValidProblem(p) && |s.cores| == p.m && Grows(p, b, a) && Widens(cb, ca)
    requires LevelsDone(p, a, ca, scheduled, s, j, l)
    ensures LevelsDone(p, b, cb, scheduled, s, j, l)
  {
    forall level: nat | level < l
      ensures HandledIf(p, b, cb, scheduled, s, j, level)
    {
      assert HandledIf(p, a, ca, scheduled, s, j, level);
      if Dispatchable(p, scheduled, s, j, level) {
        HandledGrows(p, a, b, ca, cb, scheduled, s, j, level);
      }
    }
  }

  /** All dispatches of `j` from the first `n` states have been explored. */
  ghost predicate StatesDone(p: Problem, layer: seq<Snapshot>, completion: seq<Option<Interval>>, scheduled: set<nat>,
                             views: seq<View>, j: nat, n: nat)
    requires ValidProblem(p) && p.IsJob(j) && n <= |views|
  {
    forall i :: 0 <= i < n ==>
      |views[i].cores| == p.m && LevelsDone(p, layer, completion, scheduled, views[i], j, |p.jobs[j].levels|)
  }

  /** `j` cannot be dispatched from the first `n` states. */
  ghost predicate NoState(p: Problem, scheduled: set<nat>, views: seq<View>, j: nat, n: nat)
    requires ValidProblem(p) && p.IsJob(j) && n <= |views|
  {
    forall i :: 0 <= i < n ==> |views[i].cores| == p.m && NoLevel(p, scheduled, views[i], j, |p.jobs[j].levels|)
  }

  lemma StatesGrow(p: Problem, a: seq<Snapshot>, b: seq<Snapshot>, ca: seq<Option<Interval>>, cb: seq<Option<Interval>>,
                   scheduled: set<nat>, views: seq<View>, j: nat, n: nat)
    requires ValidProblem(p) && p.IsJob(j) && n <= |views| && Grows(p, b, a) && Widens(cb, ca)
    requires StatesDone(p, a, ca, scheduled, views, j, n)
    ensures StatesDone(p, b, cb, scheduled, views, j, n)
  {
    forall i | 0 <= i < n
      ensures LevelsDone(p, b, cb, scheduled, views[i], j, |p.jobs[j].levels|)
    {
      LevelsGrow(p, a, b, ca, cb, scheduled, views[i], j, |p.jobs[j].levels|);
    }
  }

  /** All dispatches of the given jobs have been explored. */
  ghost predicate JobsDone(p: Problem, layer: seq<Snapshot>, completion: seq<Option<Interval>>, scheduled: set<nat>,
                           views: seq<View>, jobs: set<nat>)
    requires ValidProblem(p)
  {
    forall j: nat :: j in jobs && p.IsJob(j) ==> StatesDone(p, layer, completion, scheduled, views, j, |views|)
  }

  /** None of the given jobs can be dispatched. */
  ghost predicate NoJob(p: Problem, scheduled: set<nat>, views: seq<View>, jobs: set<nat>)
    requires ValidProblem(p)
  {
    forall j: nat :: j in jobs && p.IsJob(j) ==> NoState(p, scheduled, views, j, |views|)
  }

  lemma JobsGrow(p: Problem, a: seq<Snapshot>, b: seq<Snapshot>, ca: seq<Option<Interval>>, cb: seq<Option<Interval>>,
                 scheduled: set<nat>, views: seq<View>, jobs: set<nat>)
    requires ValidProblem(p) && Grows(p, b, a) && Widens(cb, ca) && JobsDone(p, a, ca, scheduled, views, jobs)
    ensures JobsDone(p, b, cb, scheduled, views, jobs)
  {
    forall j: nat | j in jobs && p.IsJob(j)
      ensures StatesDone(p, b, cb, scheduled, views, j, |views|)
    {
      StatesGrow(p, a, b, ca, cb, scheduled, views, j, |views|);
    }
  }

  lemma JobSkipped(p: Problem, layer: seq<Snapshot>, completion: seq<Option<Interval>>, scheduled: set<nat>,
                   views: seq<View>, j: nat)
    requires ValidProblem(p) && p.IsJob(j) && NoState(p, scheduled, views, j, |views|)
    ensures StatesDone(p, layer, completion, scheduled, views, j, |views|)
  {
    forall i | 0 <= i < |views|
      ensures LevelsDone(p, layer, completion, scheduled, views[i], j, |p.jobs[j].levels|)
    {
      assert NoLevel(p, scheduled, views[i], j, |p.jobs[j].levels|);
    }
  }

  lemma AllJobsExplored(p: Problem, layer: seq<Snapshot>, completion: seq<Option<Interval>>, scheduled: set<nat>,
                        views: seq<View>,
                        jobs: set<nat>, i: nat)
    requires ValidProblem(p) && i < |views| && |views[i].cores| == p.m
    requires JobsDone(p, layer, completion, scheduled, views, jobs) && forall j: nat :: p.IsJob(j) ==> j in jobs
    ensures Explored(p, layer, completion, scheduled, views[i])
  {
    forall j: nat, level: nat
      ensures HandledIf(p, layer, completion, scheduled, views[i], j, level)
    {
      if p.IsJob(j) {
        assert StatesDone(p, layer, completion, scheduled, views, j, |views|);
        assert LevelsDone(p, layer, completion, scheduled, views[i], j, |p.jobs[j].levels|);
      }
    }
  }

  /** Levels that cannot be chosen need no exploration. */
  lemma LevelsSkipped(p: Problem, layer: seq<Snapshot>, completion: seq<Option<Interval>>, scheduled: set<nat>, s: View,
                      j: nat, l: nat, l': nat)
    requires ValidProblem(p) && |s.cores| == p.m && LevelsDone(p, layer, completion, scheduled, s, j, l)
    requires forall level: nat :: l <= level < l' ==> !Dispatchable(p, scheduled, s, j, level)
    ensures LevelsDone(p, layer, completion, scheduled, s, j, l')
    ensures NoLevel(p, scheduled, s, j, l) ==> NoLevel(p, scheduled, s, j, l')
  {
  }

  /** All dispatches from a state have been explored. */
  ghost predicate Explored(p: Problem, layer: seq<Snapshot>, completion: seq<Option<Interval>>, scheduled: set<nat>,
                           s: View)
    requires ValidProblem(p) && |s.cores| == p.m
  {
    forall j: nat, level: nat :: HandledIf(p, layer, completion, scheduled, s, j, level)
  }

  lemma ExploredGrows(p: Problem, a: seq<Snapshot>, b: seq<Snapshot>, ca: seq<Option<Interval>>,
                      cb: seq<Option<Interval>>,
                      scheduled: set<nat>, s: View)
    requires ValidProblem(p) && |s.cores| == p.m
    requires Grows(p, b, a) && Widens(cb, ca) && Explored(p, a, ca, scheduled, s)
    ensures Explored(p, b, cb, scheduled, s)
  {
    forall j: nat, level: nat
      ensures HandledIf(p, b, cb, scheduled, s, j, level)
    {
      assert HandledIf(p, a, ca, scheduled, s, j, level);
      if Dispatchable(p, scheduled, s, j, level) {
        HandledGrows(p, a, b, ca, cb, scheduled, s, j, level);
      }
    }
  }

  // ---- Preconditions of the analysis ----

  /** Problems and platforms for which the analysis is safe. */
  ghost predicate Analysable(p: Problem, platform: seq<Interval>) {
    && ValidProblem(p) && CostsSafe(p) && ExclusionsSafe(p) && SimpleStartEdges(p)
    && ValidPlatform(p, platform) && SourcesFit(p, platform)
  }

  /** Whatever the scheduler does next in a covered configuration, it finishes within the reported
      times and leads to a configuration that the next layer covers. */
  lemma ExploredStep(p: Problem, sc: Scenario, layer: seq<Snapshot>, completion: seq<Option<Interval>>, s: View,
                     b: Config, d: Decision, c: Config)
    requires Situation(p, sc, s, b) && Step(p, sc, b, d, c)
    requires CostsSafe(p) && ExclusionsSafe(p) && SimpleStartEdges(p)
    requires Explored(p, layer, completion, b.start.Keys, s)
    ensures LayerCovers(p, sc, layer, c)
    ensures d.job < |completion| && completion[d.job].Some? && completion[d.job].value.Has(d.f)
  {
    LegalIsDispatchable(p, sc, s, b, d);
    assert HandledIf(p, layer, completion, b.start.Keys, s, d.job, d.level);
    StepAbsorbed(p, sc, layer, completion, s, b, d, c);
  }

  lemma StepAbsorbed(p: Problem, sc: Scenario, layer: seq<Snapshot>, completion: seq<Option<Interval>>, s: View,
                     b: Config, d: Decision, c: Config)
    requires Situation(p, sc, s, b) && Step(p, sc, b, d, c)
    requires CostsSafe(p) && ExclusionsSafe(p) && SimpleStartEdges(p)
    requires Handled(p, layer, completion, b.start.Keys, s, d.job, d.level)
    ensures LayerCovers(p, sc, layer, c)
  {
    hide CostsSafe, ExclusionsSafe, RepeatsShared, StartInterval, FinishInterval, NextView, Covers;
    var scheduled, later := b.start.Keys, b.start.Keys + {d.job};
    assert c.start.Keys == later;
    var start, finish := StartInterval(p, scheduled, s, d.job, d.level),
        FinishInterval(p, scheduled, s, d.job, d.level);
    var used := p.jobs[d.job].levels[d.level].cores;
    var ready :| ReadyExact(p, later, ready) && RepeatsShared(p, ready)
                 && Absorbed(p, layer, later, NextView(p, later, ready, s, d.job, start, finish, used));
    StepCovered(p, sc, s, b, d, c, ready);
  }

  // ---- Layer by layer ----

  function Length(r: Run): nat {
    match r
    case Begin(_) => 0
    case Then(before, _, _) => Length(before) + 1
  }

  /** After `n` dispatches every run has reached a configuration that the layer covers. */
  ghost predicate CoversRuns(p: Problem, platform: seq<Interval>, layer: seq<Snapshot>, n: nat) {
    forall sc: Scenario, r: Run ::
      ValidScenario(p, sc) && IsRun(p, sc, platform, r) && Length(r) == n ==> LayerCovers(p, sc, layer, r.end)
  }

  ghost predicate ReportsDecision(completion: seq<Option<Interval>>, d: Decision) {
    d.job < |completion| && completion[d.job].Some? && completion[d.job].value.Has(d.f)
  }

  /** The finish times of the first `n` dispatches of every run lie within the reported ones. */
  ghost predicate ReportsRuns(p: Problem, platform: seq<Interval>, completion: seq<Option<Interval>>, n: nat) {
    forall sc: Scenario, r: Run ::
      ValidScenario(p, sc) && IsRun(p, sc, platform, r) && r.Then? && Length(r) <= n ==>
        ReportsDecision(completion, r.decision)
  }

  ghost predicate LayerSound(p: Problem, platform: seq<Interval>, layer: seq<Snapshot>) {
    forall i :: 0 <= i < |layer| ==> AllSound(p, platform, layer[i].scheduled, layer[i].views)
  }

  /** All dispatches from all states of the layer `front` have been explored. */
  ghost predicate LayerExplored(p: Problem, next: seq<Snapshot>, completion: seq<Option<Interval>>,
                                front: seq<Snapshot>)
    requires ValidProblem(p)
  {
    forall i, k :: 0 <= i < |front| && 0 <= k < |front[i].views| ==>
      |front[i].views[k].cores| == p.m && Explored(p, next, completion, front[i].scheduled, front[i].views[k])
  }

  lemma InitialLayer(p: Problem, platform: seq<Interval>)
    requires Analysable(p, platform)
    ensures CoversRuns(p, platform, [Snapshot({}, [InitialView(p, platform)])], 0)
  {
    var v := InitialView(p, platform);
    var layer := [Snapshot({}, [v])];
    forall sc: Scenario, r: Run | ValidScenario(p, sc) && IsRun(p, sc, platform, r) && Length(r) == 0
      ensures LayerCovers(p, sc, layer, r.end)
    {
      InitialViewCovers(p, sc, platform, r.end);
      assert Covers(p, sc, layer[0].views[0], r.end);
    }
  }

  /** One more dispatch of a run whose configuration the explored layer covers. */
  lemma RunAdvances(p: Problem, platform: seq<Interval>, sc: Scenario, front: seq<Snapshot>, next: seq<Snapshot>,
                    completion: seq<Option<Interval>>, r: Run)
    requires Analysable(p, platform) && LayerSound(p, platform, front) && LayerExplored(p, next, completion, front)
    requires ValidScenario(p, sc) && IsRun(p, sc, platform, r) && r.Then? && LayerCovers(p, sc, front, r.before.end)
    ensures LayerCovers(p, sc, next, r.end) && ReportsDecision(completion, r.decision)
  {
    hide Derivable;
    var b := r.before.end;
    RunConsistent(p, sc, platform, r.before);
    var i :| 0 <= i < |front| && front[i].scheduled == b.start.Keys && ViewsCover(p, sc, front[i].views, b);
    var k :| 0 <= k < |front[i].views| && Covers(p, sc, front[i].views[k], b);
    var s := front[i].views[k];
    assert Sound(p, platform, front[i].scheduled, s);
    ExploredStep(p, sc, next, completion, s, b, r.decision, r.end);
  }

  /** Exploring a layer that covers all runs so far yields a next layer that does, one dispatch later. */
  lemma LayerAdvances(p: Problem, platform: seq<Interval>, front: seq<Snapshot>, next: seq<Snapshot>,
                      completion: seq<Option<Interval>>, n: nat)
    requires Analysable(p, platform) && LayerSound(p, platform, front) && LayerExplored(p, next, completion, front)
    requires CoversRuns(p, platform, front, n) && ReportsRuns(p, platform, completion, n)
    ensures CoversRuns(p, platform, next, n + 1) && ReportsRuns(p, platform, completion, n + 1)
  {
    hide ValidProblem, Step, AllSound;
    forall sc: Scenario, r: Run | ValidScenario(p, sc) && IsRun(p, sc, platform, r) && Length(r) == n + 1
      ensures LayerCovers(p, sc, next, r.end) && ReportsDecision(completion, r.decision)
    {
      assert LayerCovers(p, sc, front, r.before.end);
      RunAdvances(p, platform, sc, front, next, completion, r);
    }
  }

  // ---- Runs go on ----

  /** Some job that has not been dispatched has all its predecessors dispatched. */
  ghost predicate SomeNext(p: Problem, scheduled: set<nat>) {
    exists j: nat :: Eligible(p, scheduled, j)
  }

  /** In no node of the layer the exploration ended before all jobs were dispatched. */
  ghost predicate NoDeadEnds(p: Problem, layer: seq<Snapshot>) {
    forall i :: 0 <= i < |layer| && |layer[i].scheduled| != |p.jobs| ==> SomeNext(p, layer[i].scheduled)
  }

  ghost predicate CanStep(p: Problem, sc: Scenario, c: Config) {
    exists d: Decision, c': Config :: Step(p, sc, c, d, c')
  }

  /** As long as jobs remain, the scheduler has a next step after fewer than `n` dispatches. */
  ghost predicate RunsGoOn(p: Problem, platform: seq<Interval>, n: nat) {
    forall sc: Scenario, r: Run ::
      ValidScenario(p, sc) && IsRun(p, sc, platform, r) && Length(r) < n && Length(r) < |p.jobs| ==>
        CanStep(p, sc, r.end)
  }

  lemma RunGoesOn(p: Problem, platform: seq<Interval>, sc: Scenario, layer: seq<Snapshot>, r: Run)
    requires ValidProblem(p) && CostsSafe(p) && NoDeadEnds(p, layer)
    requires ValidScenario(p, sc) && IsRun(p, sc, platform, r) && LayerCovers(p, sc, layer, r.end)
    requires Length(r) < |p.jobs|
    ensures CanStep(p, sc, r.end)
  {
    hide TimesConsistent;
    RunConsistent(p, sc, platform, r);
    RunLength(p, sc, platform, r);
    var i :| 0 <= i < |layer| && layer[i].scheduled == r.end.start.Keys && ViewsCover(p, sc, layer[i].views, r.end);
    assert |r.end.start.Keys| == |r.end.start|;
    assert SomeNext(p, layer[i].scheduled);
    var j: nat :| Eligible(p, layer[i].scheduled, j);
    var d, c := NextStep(p, sc, r.end, j);
  }

  lemma RunsAdvance(p: Problem, platform: seq<Interval>, layer: seq<Snapshot>, n: nat)
    requires ValidProblem(p) && CostsSafe(p) && NoDeadEnds(p, layer)
    requires CoversRuns(p, platform, layer, n) && RunsGoOn(p, platform, n)
    ensures RunsGoOn(p, platform, n + 1)
  {
    forall sc: Scenario, r: Run |
        ValidScenario(p, sc) && IsRun(p, sc, platform, r) && Length(r) == n && Length(r) < |p.jobs|
      ensures CanStep(p, sc, r.end)
    {
      RunGoesOn(p, platform, sc, layer, r);
    }
  }

  /** What the first `n` layers establish about the runs. */
  ghost predicate Accounts(p: Problem, platform: seq<Interval>, layer: seq<Snapshot>, completion: seq<Option<Interval>>,
                           n: nat) {
    CoversRuns(p, platform, layer, n) && ReportsRuns(p, platform, completion, n) && RunsGoOn(p, platform, n)
  }

  /** A layer more has been explored. */
  lemma LayerAccounts(p: Problem, platform: seq<Interval>, front: seq<Snapshot>, next: seq<Snapshot>,
                      before: seq<Option<Interval>>, completion: seq<Option<Interval>>, n: nat)
    requires Analysable(p, platform) && LayerSound(p, platform, front) && LayerExplored(p, next, completion, front)
    requires NoDeadEnds(p, front) && Widens(completion, before) && Accounts(p, platform, front, before, n)
    ensures Accounts(p, platform, next, completion, n + 1)
  {
    hide CoversRuns, ReportsRuns, RunsGoOn, LayerSound, LayerExplored, NoDeadEnds, Widens;
    ReportsWiden(p, platform, before, completion, n);
    LayerAdvances(p, platform, front, next, completion, n);
    RunsAdvance(p, platform, front, n);
  }

  lemma AllAccounted(p: Problem, platform: seq<Interval>, layer: seq<Snapshot>, completion: seq<Option<Interval>>,
                     n: nat)
    requires Accounts(p, platform, layer, completion, n)
    ensures ReportsRuns(p, platform, completion, n) && RunsGoOn(p, platform, n)
  {
  }

  /** Every run can be continued until all jobs have been dispatched. */
  ghost predicate RunsComplete(p: Problem, platform: seq<Interval>) {
    forall sc: Scenario, r: Run :: ValidScenario(p, sc) && IsRun(p, sc, platform, r) ==> Completes(p, sc, platform, r)
  }

  ghost predicate Completes(p: Problem, sc: Scenario, platform: seq<Interval>, r: Run) {
    exists r': Run :: IsRun(p, sc, platform, r') && Continues(r', r) && forall j: nat :: p.IsJob(j) ==>
      j in r'.end.start
  }

  lemma {:induction false} CompleteRun(p: Problem, sc: Scenario, platform: seq<Interval>, r: Run)
    requires ValidProblem(p) && ValidScenario(p, sc) && IsRun(p, sc, platform, r)
    requires RunsGoOn(p, platform, |p.jobs|) && Length(r) <= |p.jobs|
    ensures Completes(p, sc, platform, r)
    decreases |p.jobs| - Length(r)
  {
    hide Step, InitialConfig, ValidProblem, ValidScenario;
    if Length(r) < |p.jobs| {
      assert CanStep(p, sc, r.end);
      var d: Decision, c: Config :| Step(p, sc, r.end, d, c);
      CompleteRun(p, sc, platform, Then(r, d, c));
      var r' :| IsRun(p, sc, platform, r') && Continues(r', Then(r, d, c))
          && forall j: nat :: p.IsJob(j) ==> j in r'.end.start;
      ContinuesBefore(r', r, d, c);
    } else {
      RunLength(p, sc, platform, r);
      AllDispatched(r.end.start.Keys, |p.jobs|);
    }
  }

  lemma {:induction false} ContinuesBefore(r': Run, r: Run, d: Decision, c: Config)
    requires Continues(r', Then(r, d, c))
    ensures Continues(r', r)
  {
    if r' != Then(r, d, c) {
      ContinuesBefore(r'.before, r, d, c);
    } else {
      assert Continues(r'.before, r);
    }
  }

  lemma AllDispatched(keys: set<nat>, n: nat)
    requires |keys| == n && forall q :: q in keys ==> q < n
    ensures forall j: nat :: j < n ==> j in keys
  {
    forall j: nat | j < n
      ensures j in keys
    {
      if j !in keys {
        JobsBelow(keys + {j}, n);
      }
    }
  }

  lemma AllComplete(p: Problem, platform: seq<Interval>)
    requires ValidProblem(p) && RunsGoOn(p, platform, |p.jobs|)
    ensures RunsComplete(p, platform)
  {
    hide RunsGoOn, Completes, ValidProblem, ValidScenario;
    forall sc: Scenario, r: Run | ValidScenario(p, sc) && IsRun(p, sc, platform, r)
      ensures Completes(p, sc, platform, r)
    {
      RunLength(p, sc, platform, r);
      JobsBelow(r.end.start.Keys, |p.jobs|);
      assert |r.end.start.Keys| == |r.end.start|;
      CompleteRun(p, sc, platform, r);
    }
  }

  lemma ReportsWiden(p: Problem, platform: seq<Interval>, a: seq<Option<Interval>>, b: seq<Option<Interval>>, n: nat)
    requires Widens(b, a) && ReportsRuns(p, platform, a, n)
    ensures ReportsRuns(p, platform, b, n)
  {
    forall sc: Scenario, r: Run | ValidScenario(p, sc) && IsRun(p, sc, platform, r) && r.Then? && Length(r) <= n
      ensures ReportsDecision(b, r.decision)
    {
      assert ReportsDecision(a, r.decision);
    }
  }

  // ---- The verdict ----

  /** Every reported latest finish time meets the deadline. */
  predicate WithinDeadlines(p: Problem, completion: seq<Option<Interval>>) {
    |completion| == |p.jobs| &&
    forall j :: 0 <= j < |completion| && completion[j].Some? ==> completion[j].value.max <= p.jobs[j].deadline
  }

  lemma {:induction false} RunLength(p: Problem, sc: Scenario, platform: seq<Interval>, r: Run)
    requires IsRun(p, sc, platform, r)
    ensures |r.end.start| == Length(r) && forall q :: q in r.end.start ==> p.IsJob(q)
  {
    match r {
      case Begin(c) =>
      case Then(before, d, c) =>
        RunLength(p, sc, platform, before);
        StepKeys(before.end, d, c);
    }
  }

  lemma StepKeys(b: Config, d: Decision, c: Config)
    requires d.job !in b.start && c.start == b.start[d.job := d.t]
    ensures |c.start| == |b.start| + 1
  {
    assert c.start.Keys == b.start.Keys + {d.job};
    assert |c.start.Keys| == |c.start| && |b.start.Keys| == |b.start|;
  }

  lemma {:induction false} JobsBelow(keys: set<nat>, n: nat)
    requires forall q :: q in keys ==> q < n
    ensures |keys| <= n
  {
    if n == 0 {
      assert keys == {};
    } else {
      JobsBelow(keys - {n - 1}, n - 1);
    }
  }

  /** Whole-run safety: once all layers have been explored, every job of every run finishes within its
      reported times and, if those meet the deadlines, so does every run. */
  lemma SafeVerdict(p: Problem, platform: seq<Interval>, completion: seq<Option<Interval>>)
    requires ReportsRuns(p, platform, completion, |p.jobs|)
    ensures forall sc: Scenario, r: Run ::
              ValidScenario(p, sc) && IsRun(p, sc, platform, r) && r.Then? ==> ReportsDecision(completion, r.decision)
    ensures WithinDeadlines(p, completion) ==> DeadlinesMet(p, platform)
  {
    forall sc: Scenario, r: Run | ValidScenario(p, sc) && IsRun(p, sc, platform, r) && r.Then?
      ensures ReportsDecision(completion, r.decision) && p.IsJob(r.decision.job)
    {
      RunLength(p, sc, platform, r);
      JobsBelow(r.end.start.Keys, |p.jobs|);
      assert |r.end.start.Keys| == |r.end.start|;
      assert r.decision.job in r.end.start;
    }
  }

  // ---- What the reports and the verdict stem from ----

  /** Some derivable state allows a dispatch of `j` that finishes within exactly this interval. */
  ghost predicate PossibleFinish(p: Problem, platform: seq<Interval>, j: nat, range: Interval) {
    exists scheduled: set<nat>, v: View, level: nat ::
      Sound(p, platform, scheduled, v) && DispatchReady(p, scheduled, v, j, level)
          && range == FinishInterval(p, scheduled, v, j, level)
  }

  /** The reported interval of a job starts with a possible finish and ends with one. */
  ghost predicate Attained(p: Problem, platform: seq<Interval>, j: nat, range: Interval) {
    && (exists a: Interval :: PossibleFinish(p, platform, j, a) && a.min == range.min)
    && (exists b: Interval :: PossibleFinish(p, platform, j, b) && b.max == range.max)
  }

  ghost predicate ReportsAttained(p: Problem, platform: seq<Interval>, completion: seq<Option<Interval>>) {
    forall j: nat :: j < |completion| && completion[j].Some? ==> Attained(p, platform, j, completion[j].value)
  }

  /** The cores that `j` needs are available only after its deadline. */
  ghost predicate TooLate(p: Problem, v: View, j: nat) {
    && p.IsJob(j) && |p.jobs[j].levels| > 0 && 1 <= p.jobs[j].MinCores() <= |v.cores|
    && p.jobs[j].deadline < v.cores[p.jobs[j].MinCores() - 1].min
  }

  /** `j` waits beyond its deadline: it has not been dispatched, and its cores are available too late. */
  ghost predicate LateIn(p: Problem, scheduled: set<nat>, v: View, j: nat) {
    TooLate(p, v, j) && j !in scheduled
  }

  /** Jobs remain, but none can be dispatched. */
  ghost predicate Stuck(p: Problem, scheduled: set<nat>, v: View) {
    && ValidProblem(p) && |v.cores| == p.m && (exists u: nat :: p.IsJob(u) && u !in scheduled)
    && forall j: nat, level: nat :: !Dispatchable(p, scheduled, v, j, level)
  }

  /** Some derivable state shows that a deadline may be missed. */
  ghost predicate MissPossible(p: Problem, platform: seq<Interval>) {
    || (exists j: nat, range: Interval ::
          PossibleFinish(p, platform, j, range) && p.IsJob(j) && p.jobs[j].deadline < range.max)
    || (exists scheduled: set<nat>, v: View, j: nat :: Sound(p, platform, scheduled, v) && LateIn(p, scheduled, v, j))
    || (exists scheduled: set<nat>, v: View :: Sound(p, platform, scheduled, v) && Stuck(p, scheduled, v))
  }

  // ---- When a miss is real ----

  /** Some run finishes `j` at `f`. */
  ghost predicate Finishes(p: Problem, platform: seq<Interval>, j: nat, f: int) {
    exists sc: Scenario, r: Run ::
      ValidScenario(p, sc) && IsRun(p, sc, platform, r) && r.Then? && r.decision.job == j && r.decision.f == f
  }

  /** The ends of every reported interval are attained. */
  ghost predicate ExactReports(p: Problem, platform: seq<Interval>, completion: seq<Option<Interval>>) {
    forall j: nat :: j < |completion| && completion[j].Some? ==>
      Finishes(p, platform, j, completion[j].value.min) && Finishes(p, platform, j, completion[j].value.max)
  }

  lemma FinishesLate(p: Problem, platform: seq<Interval>, j: nat, f: int)
    requires Finishes(p, platform, j, f) && p.IsJob(j) && f > p.jobs[j].deadline
    ensures !DeadlinesMet(p, platform)
  {
  }

  /** On one core, the ends of the finish interval of a dispatch are attained. */
  lemma DispatchFinishes(p: Problem, platform: seq<Interval>, scheduled: set<nat>, s: View, j: nat, level: nat)
    requires DispatchReady(p, scheduled, s, j, level) && Uniprocessor(p) && CoreExact(p, platform, scheduled, s.cores)
    ensures Finishes(p, platform, j, FinishInterval(p, scheduled, s, j, level).min)
    ensures Finishes(p, platform, j, FinishInterval(p, scheduled, s, j, level).max)
  {
    assert level == 0;
    DispatchIntervalsOk(p, scheduled, s, j, level);
    var sc, r := FinishRealised(p, platform, scheduled, s, j, FinishInterval(p, scheduled, s, j, level).min);
    sc, r := FinishRealised(p, platform, scheduled, s, j, FinishInterval(p, scheduled, s, j, level).max);
  }

  /** On one core, a job that still waits when the core is deemed busy beyond its deadline misses it. */
  lemma WaitingMisses(p: Problem, platform: seq<Interval>, scheduled: set<nat>, s: View, j: nat)
    requires ValidProblem(p) && CostsSafe(p) && Uniprocessor(p) && CoreExact(p, platform, scheduled, s.cores)
    requires s.cores[0].Ok() && p.IsJob(j) && j !in scheduled && p.jobs[j].deadline < s.cores[0].min
    ensures !DeadlinesMet(p, platform)
  {
    var f := s.cores[0].min;
    assert s.cores[0].Has(f);
    var sc: Scenario, r: Run :| Realises(p, platform, scheduled, f, sc, r);
    var busy := r.end.cores[0].free - 1;
    FreeOnOneCore(r.end, busy);
    IndependentRanks(p);
    var r' := EventuallyDispatched(p, sc, platform, r, j, busy);
    ReleasedBefore(p, sc, platform, r', j);
  }

  /** A job is dispatched once it has been released. */
  lemma ReleasedBefore(p: Problem, sc: Scenario, platform: seq<Interval>, r: Run, j: nat)
    requires IsRun(p, sc, platform, r) && r.Then? && r.decision.job == j
    ensures sc.release(j) <= r.decision.t
  {
  }

  lemma IndependentRanks(p: Problem)
    requires ValidProblem(p) && SequentialJobs(p)
    ensures RanksIncrease(p)
  {
    forall k: nat | k < |p.jobs|
      ensures |p.cons[k].predStart| == 0 && |p.cons[k].predFinish| == 0
    {
      assert p.IsJob(k) && Independent(p, k);
    }
  }

  lemma UniprocessorCosts(p: Problem)
    requires ValidProblem(p) && Uniprocessor(p)
    ensures CostsSafe(p)
  {
    forall j: nat | j < |p.jobs|
      ensures ZeroCostSafe(p.jobs[j].levels)
    {
      assert p.IsJob(j);
    }
  }

  /** With sequential independent jobs, some job can be dispatched from every state while jobs remain. */
  lemma NeverStuck(p: Problem, platform: seq<Interval>, scheduled: set<nat>, v: View)
    requires Sound(p, platform, scheduled, v) && Stuck(p, scheduled, v)
    ensures !SequentialJobs(p)
  {
    hide StateInvariant, Dispatchable, CoreExact, Derivable;
    if SequentialJobs(p) {
      var u: nat :| p.IsJob(u) && u !in scheduled;
      var j := NoDeadEnd(p, scheduled, v, u);
    }
  }

  /** On one core the bounds of a possible finish are finish times of runs. */
  lemma PossibleFinishes(p: Problem, platform: seq<Interval>, j: nat, range: Interval)
    requires Uniprocessor(p) && PossibleFinish(p, platform, j, range)
    ensures Finishes(p, platform, j, range.min) && Finishes(p, platform, j, range.max)
  {
    hide CoreExact, Derivable, Undisturbed;
    var scheduled: set<nat>, v: View, level: nat :|
      Sound(p, platform, scheduled, v) && DispatchReady(p, scheduled, v, j, level)
          && range == FinishInterval(p, scheduled, v, j, level);
    DispatchFinishes(p, platform, scheduled, v, j, level);
  }

  /** On one core the reported completion times are the best and the worst of all runs. */
  lemma AttainedExact(p: Problem, platform: seq<Interval>, completion: seq<Option<Interval>>)
    requires Uniprocessor(p) && ReportsAttained(p, platform, completion)
    ensures ExactReports(p, platform, completion)
  {
    hide PossibleFinish, Finishes, Uniprocessor;
    forall j: nat | j < |completion| && completion[j].Some?
      ensures Finishes(p, platform, j, completion[j].value.min) && Finishes(p, platform, j, completion[j].value.max)
    {
      assert Attained(p, platform, j, completion[j].value);
      var a, b :| PossibleFinish(p, platform, j, a) && a.min == completion[j].value.min
          && PossibleFinish(p, platform, j, b) && b.max == completion[j].value.max;
      PossibleFinishes(p, platform, j, a);
      PossibleFinishes(p, platform, j, b);
    }
  }

  /** On one core a possible miss is real. */
  lemma MissIsReal(p: Problem, platform: seq<Interval>)
    requires ValidProblem(p) && Uniprocessor(p) && MissPossible(p, platform)
    ensures !DeadlinesMet(p, platform)
  {
    hide PossibleFinish, Finishes, Sound, LateIn, Stuck, DeadlinesMet;
    UniprocessorCosts(p);
    if j: nat, range: Interval :|
        PossibleFinish(p, platform, j, range) && p.IsJob(j) && p.jobs[j].deadline < range.max {
      PossibleFinishes(p, platform, j, range);
      FinishesLate(p, platform, j, range.max);
    } else if scheduled: set<nat>, v: View, j: nat :| Sound(p, platform, scheduled, v) && LateIn(p, scheduled, v, j) {
      LateMisses(p, platform, scheduled, v, j);
    } else {
      var scheduled: set<nat>, v: View :| Sound(p, platform, scheduled, v) && Stuck(p, scheduled, v);
      NeverStuck(p, platform, scheduled, v);
    }
  }

  lemma LateMisses(p: Problem, platform: seq<Interval>, scheduled: set<nat>, v: View, j: nat)
    requires ValidProblem(p) && CostsSafe(p) && Uniprocessor(p) && Sound(p, platform, scheduled, v)
        && LateIn(p, scheduled, v, j)
    ensures !DeadlinesMet(p, platform)
  {
    hide Derivable, DeadlinesMet;
    assert p.jobs[j].MinCores() == 1;
    WaitingMisses(p, platform, scheduled, v, j);
  }
}
