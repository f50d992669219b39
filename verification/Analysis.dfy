// The schedulability analysis as a whole: what its verdict and the completion times it
// reports mean for the runs of the scheduler.
module Analysis {
  import opened Times
  import opened Jobs
  import opened Workload
  import opened Scheduler
  import opened CoreAvailability
  import opened Runs
  import opened Exactness
  import opened InitialStates
  import opened Layers
  import opened PriorityPruning
  import opened SpaceData
  import opened NextDispatch
  import opened Verdicts
  import opened Exploration

  /** Every job of every run finishes within its reported completion times. */
  ghost predicate ReportsContain(p: Problem, platform: seq<Interval>, completion: seq<Option<Interval>>) {
    forall j: nat, f: int :: Finishes(p, platform, j, f) ==>
      j < |completion| && completion[j].Some? && completion[j].value.Has(f)
  }

  /** Every job has reported completion times, and they are its earliest and latest finish times over all runs. */
  ghost predicate BestAndWorstCase(p: Problem, platform: seq<Interval>, completion: seq<Option<Interval>>) {
    && ReportsContain(p, platform, completion)
    && forall j: nat :: p.IsJob(j) ==>
         && j < |completion| && completion[j].Some?
         && Finishes(p, platform, j, completion[j].value.min)
         && Finishes(p, platform, j, completion[j].value.max)
  }

  /** Independent jobs on one core meet all conditions under which the analysis is safe. */
  lemma UniprocessorAnalysable(p: Problem, platform: seq<Interval>)
    requires ValidProblem(p) && ValidPlatform(p, platform) && Uniprocessor(p)
    ensures Analysable(p, platform)
  {
    UniprocessorCosts(p);
    LeastKeyExact(p, {}, ByLatest, {Gang}, |p.jobs|);
    LeastKeyExact(p, {}, ByLatest, {MutexSource}, |p.jobs|);
    forall k: nat | p.IsJob(k)
      ensures Independent(p, k) && Cat(p, k) !in {Gang, MutexSource} && Refs(p.cons[k].succStart) == []
    {
      assert Independent(p, k);
    }
  }

  /** Some run finishes `j`. */
  lemma SomeFinish(p: Problem, platform: seq<Interval>, j: nat) returns (f: int)
    requires ValidProblem(p) && ValidPlatform(p, platform) && Uniprocessor(p) && p.IsJob(j)
    ensures Finishes(p, platform, j, f)
  {
    InitialExact(p, platform);
    InitialPlatform(platform);
    var free := Initial(platform)[0].min;
    assert Initial(platform)[0].Has(free);
    var sc: Scenario, r: Run :| Realises(p, platform, {}, free, sc, r);
    FreeOnOneCore(r.end, r.end.cores[0].free - 1);
    IndependentRanks(p);
    UniprocessorCosts(p);
    var r' := EventuallyDispatched(p, sc, platform, r, j, r.end.cores[0].free - 1);
    f := r'.decision.f;
  }

  /** On one core, the reported completion times are the best and the worst case. */
  lemma ExactCompletion(p: Problem, platform: seq<Interval>, completion: seq<Option<Interval>>)
    requires ValidProblem(p) && ValidPlatform(p, platform) && Uniprocessor(p)
    requires ReportsContain(p, platform, completion) && ExactReports(p, platform, completion)
    ensures BestAndWorstCase(p, platform, completion)
  {
    forall j: nat | p.IsJob(j)
      ensures j < |completion| && completion[j].Some?
    {
      var f := SomeFinish(p, platform, j);
    }
  }

  lemma ReportedContains(p: Problem, platform: seq<Interval>, completion: seq<Option<Interval>>)
    requires ReportsRuns(p, platform, completion, |p.jobs|)
    ensures ReportsContain(p, platform, completion)
    ensures WithinDeadlines(p, completion) ==> DeadlinesMet(p, platform)
  {
    SafeVerdict(p, platform, completion);
    forall j: nat, f: int | Finishes(p, platform, j, f)
      ensures j < |completion| && completion[j].Some? && completion[j].value.Has(f)
    {
      var sc: Scenario, r: Run :| ValidScenario(p, sc) && IsRun(p, sc, platform, r) && r.Then? && r.decision.job == j
          && r.decision.f == f;
      assert ReportsDecision(completion, r.decision);
    }
  }

  /** Before the exploration nothing has been reported. */
  lemma NothingReported(p: Problem, platform: seq<Interval>, completion: seq<Option<Interval>>)
    requires completion == seq(|p.jobs|, _ => None)
    ensures WithinDeadlines(p, completion) && ReportsAttained(p, platform, completion)
  {
  }

  /** Analyse a problem: whether it is deemed schedulable, and the best-case and worst-case completion
      times found. A positive verdict is safe, and a negative one stems from a state that may miss a deadline.
      On one core, with independent jobs, the verdict is exact, and so are the completion times that come
      with a positive one. */
  method Analyse(p: Problem, platform: seq<Interval>, options: Options) returns (schedulable: bool,
                 completion: seq<Option<Interval>>)
    requires ValidProblem(p) && ValidPlatform(p, platform)
    ensures Analysable(p, platform) && schedulable ==>
              DeadlinesMet(p, platform) && ReportsContain(p, platform, completion)
    ensures Analysable(p, platform) && schedulable ==> RunsComplete(p, platform)
    ensures schedulable || !options.earlyExit ==> ReportsAttained(p, platform, completion)
    ensures !schedulable && options.maxDepth == 0 ==> MissPossible(p, platform)
    ensures Uniprocessor(p) && schedulable ==> DeadlinesMet(p, platform) && BestAndWorstCase(p, platform, completion)
    ensures Uniprocessor(p) && options.maxDepth == 0 ==> (schedulable <==> DeadlinesMet(p, platform))
  {
    hide Analysable, Uniprocessor, SequentialJobs, DeadlinesMet, ReportsContain, ReportsRuns, ExactReports,
        WithinDeadlines, RunsGoOn, RunsComplete, BestAndWorstCase, ReportsAttained, MissPossible, ValidProblem,
        ValidPlatform;
    var space := new StateSpace(p, platform, options);
    NothingReported(p, platform, space.completion);
    space.Explore();
    schedulable, completion := !space.aborted && !space.missed, space.completion;
    if Analysable(p, platform) && schedulable {
      ReportedContains(p, platform, completion);
      AllComplete(p, platform);
    }
    if Uniprocessor(p) {
      UniprocessorAnalysable(p, platform);
      if schedulable {
        AttainedExact(p, platform, completion);
        ExactCompletion(p, platform, completion);
      } else if space.missed {
        MissIsReal(p, platform);
      }
    }
  }
}
