// On one core, with independent jobs, the analysis is exact: every time it deems
// possible is realised by a legal run.
module Exactness {
  import opened Times
  import opened Counting
  import opened Jobs
  import opened Workload
  import opened Scheduler
  import opened CoreAvailability
  import opened RunningJobs
  import opened PendingSuccessors
  import opened ReadyJobs
  import opened Abstraction
  import opened NextDispatch
  import opened Runs

  predicate Independent(p: Problem, k: nat)
    requires p.IsJob(k)
  {
    && !HasPreds(p, k) && !HasExclusions(p, k)
    && |p.cons[k].succStart| == 0 && |p.cons[k].succFinish| == 0
  }

  /** Independent jobs that run on a single core. */
  ghost predicate SequentialJobs(p: Problem) {
    forall k: nat :: p.IsJob(k) ==> Independent(p, k) && |p.jobs[k].levels| == 1 && p.jobs[k].levels[0].cores == 1
  }

  /** One core, and independent jobs. */
  ghost predicate Uniprocessor(p: Problem) {
    p.m == 1 && SequentialJobs(p)
  }

  /** Undispatched jobs are released as late as possible. */
  ghost predicate LatestReleases(p: Problem, sc: Scenario, scheduled: set<nat>) {
    forall k: nat :: p.IsJob(k) && k !in scheduled ==> sc.release(k) == p.jobs[k].arrival.max
  }

  /** `k` has not been dispatched, but can be at `f`, and may take no time. */
  ghost predicate Deferred(p: Problem, sc: Scenario, c: Config, k: nat, f: int) {
    && p.IsJob(k) && k !in c.start && |p.jobs[k].levels| == 1
    && p.jobs[k].levels[0].cost.Has(0) && sc.release(k) <= f
  }

  /** The core is free at `f`, and nothing can be started before. */
  ghost predicate IdleUntil(p: Problem, sc: Scenario, c: Config, f: int) {
    && |c.cores| == 1 && c.cores[0].free <= f
    && forall k: nat :: p.IsJob(k) && k !in c.start ==> f <= c.cores[0].free || f <= sc.release(k)
  }

  /** `r` has dispatched `scheduled` before `f`, except for jobs that can be dispatched at `f` and take no time. It
      leaves the core free for `f`, and would allow all other jobs to be released as late as possible. */
  ghost predicate Realises(p: Problem, platform: seq<Interval>, scheduled: set<nat>, f: int, sc: Scenario, r: Run) {
    && ValidScenario(p, sc) && IsRun(p, sc, platform, r) && r.end.now < f && IdleUntil(p, sc, r.end, f)
    && r.end.start.Keys <= scheduled && (forall k :: k in scheduled - r.end.start.Keys ==> Deferred(p, sc, r.end, k, f))
    && LatestReleases(p, sc, scheduled)
  }

  ghost predicate Realisable(p: Problem, platform: seq<Interval>, scheduled: set<nat>, f: int) {
    exists sc: Scenario, r: Run :: Realises(p, platform, scheduled, f, sc, r)
  }

  /** Every time at which the core is deemed to become free is realised. */
  ghost predicate CoreExact(p: Problem, platform: seq<Interval>, scheduled: set<nat>, cores: seq<Interval>) {
    |cores| == 1 && forall f :: cores[0].Has(f) ==> Realisable(p, platform, scheduled, f)
  }

  lemma FreeOnOneCore(c: Config, x: int)
    requires |c.cores| == 1
    ensures FreeAt(c, x) == if c.cores[0].free <= x then 1 else 0
  {
    assert FreeTimes(c.cores)[..0] == [];
  }

  /** On one core a job can be started once it is released and the core is free. */
  lemma StartableOnOneCore(p: Problem, sc: Scenario, c: Config, k: nat, x: int)
    requires Uniprocessor(p) && p.IsJob(k) && |c.cores| == 1
    ensures |p.jobs[k].levels| == 1
    ensures Startable(p, sc, c, k, x) <==> k !in c.start && sc.release(k) <= x && c.cores[0].free <= x
  {
    assert Independent(p, k);
    FreeOnOneCore(c, x);
  }

  lemma IndependentScenario(p: Problem, release: nat -> int) returns (sc: Scenario)
    requires Uniprocessor(p) && forall k: nat :: p.IsJob(k) ==> p.jobs[k].arrival.Has(release(k))
    ensures ValidScenario(p, sc) && sc.release == release
  {
    sc := Scenario(release, (_, _, _) => 0);
    forall k: nat | p.IsJob(k)
      ensures |p.cons[k].predStart| == |p.cons[k].predFinish| == |p.cons[k].exclStart| == |p.cons[k].exclFinish| == 0
    {
      assert Independent(p, k);
    }
  }

  /** Every time within the initial availability of the core is realised. */
  lemma InitialExact(p: Problem, platform: seq<Interval>)
    requires ValidProblem(p) && Uniprocessor(p) && |platform| == 1 && platform[0].Ok()
    ensures CoreExact(p, platform, {}, Initial(platform))
  {
    assert SortTimes([]) == [];
    assert Mins(platform)[..0] == [] && Maxs(platform)[..0] == [];
    assert SortTimes(Mins(platform)) == [platform[0].min] && SortTimes(Maxs(platform)) == [platform[0].max];
    var release: nat -> int := (k: nat) => if p.IsJob(k) then p.jobs[k].arrival.max else 0;
    forall k: nat | p.IsJob(k)
      ensures p.jobs[k].arrival.Has(release(k))
    {
      assert ValidJob(p.jobs[k], p.m);
    }
    var sc := IndependentScenario(p, release);
    forall f | platform[0].Has(f)
      ensures Realisable(p, platform, {}, f)
    {
      var c := Config([Core(None, f)], f - 1, map[], map[]);
      forall k, x | x < c.now
        ensures !Startable(p, sc, c, k, x)
      {
        if p.IsJob(k) {
          StartableOnOneCore(p, sc, c, k, x);
        }
      }
      assert InitialConfig(p, sc, platform, c);
      assert IsRun(p, sc, platform, Begin(c));
      assert Realises(p, platform, {}, f, sc, Begin(c));
    }
  }

  // ---- Releasing an undispatched job earlier, but not before the last dispatch ----

  /** The two scenarios differ at most in the release of `j`, and release it after `now` in both. */
  ghost predicate Postponed(p: Problem, sc: Scenario, sc': Scenario, j: nat, now: int) {
    && sc'.delay == sc.delay
    && (forall k: nat :: k != j ==> sc'.release(k) == sc.release(k))
    && (sc'.release(j) == sc.release(j) || (now < sc.release(j) && now < sc'.release(j)))
  }

  lemma PostponedStartable(p: Problem, sc: Scenario, sc': Scenario, j: nat, now: int, c: Config, k: nat, x: int)
    requires Uniprocessor(p) && Postponed(p, sc, sc', j, now) && |c.cores| == 1 && x <= now
    ensures Startable(p, sc', c, k, x) <==> Startable(p, sc, c, k, x)
  {
    if p.IsJob(k) {
      StartableOnOneCore(p, sc, c, k, x);
      StartableOnOneCore(p, sc', c, k, x);
    }
  }

  lemma PostponedLegal(p: Problem, sc: Scenario, sc': Scenario, j: nat, now: int, c: Config, d: Decision)
    requires Uniprocessor(p) && Postponed(p, sc, sc', j, now) && |c.cores| == 1
    requires Legal(p, sc, c, d) && d.t <= now
    ensures Legal(p, sc', c, d)
  {
    forall k, x | x <= now
      ensures Startable(p, sc', c, k, x) <==> Startable(p, sc, c, k, x)
    {
      PostponedStartable(p, sc, sc', j, now, c, k, x);
    }
  }

  /** A run remains a run when a job that it does not dispatch is released at another time after its end. */
  lemma {:induction false} PostponedRun(p: Problem, sc: Scenario, sc': Scenario, platform: seq<Interval>, j: nat,
                                        now: int, r: Run)
    requires Uniprocessor(p) && Postponed(p, sc, sc', j, now)
    requires IsRun(p, sc, platform, r) && r.end.now <= now
    ensures IsRun(p, sc', platform, r) && |r.end.cores| == 1
  {
    match r {
      case Begin(c) =>
        forall k, x | x < c.now
          ensures !Startable(p, sc', c, k, x)
        {
          PostponedStartable(p, sc, sc', j, now, c, k, x);
        }
      case Then(before, d, c) =>
        PostponedRun(p, sc, sc', platform, j, now, before);
        PostponedLegal(p, sc, sc', j, now, before.end, d);
    }
  }

  // ---- Every start time is realised ----

  lemma AllSequential(p: Problem, k: nat)
    requires ValidProblem(p) && SequentialJobs(p) && p.IsJob(k)
    ensures CategoryOf(p, k) == Sequential && PredsIn(p, k, {})
  {
    assert Independent(p, k);
  }

  /** What the bounds on the start of `j` say about the other undispatched jobs. */
  lemma StartBounds(p: Problem, scheduled: set<nat>, s: View, j: nat, t: int, k: nat)
    requires ValidProblem(p) && Uniprocessor(p) && |s.cores| == 1
    requires Dispatchable(p, scheduled, s, j, 0) && t <= LatestStart(p, scheduled, s, j, 0)
    requires p.IsJob(k) && k !in scheduled
    ensures t <= Max(s.cores[0].max, p.jobs[k].arrival.max)
    ensures PriorTo(p, k, j) ==> t < p.jobs[k].arrival.max
  {
    hide ValidProblem;
    AllSequential(p, k);
    NextCertainExact(p, scheduled, s, Sequential, |p.jobs|);
    assert CertainBound(p, scheduled, s, Sequential, k) == Fin(p.jobs[k].arrival.max);
    assert LeB(NextCertainReady(p, scheduled, s), Fin(p.jobs[k].arrival.max));
    if PriorTo(p, k, j) {
      NextRivalExact(p, scheduled, s, j, 1, Sequential, |p.jobs|);
      assert RivalBound(p, scheduled, s, j, 1, Sequential, k) == Fin(p.jobs[k].arrival.max);
      assert LeB(PriorityBound(p, scheduled, s, j, 1), Fin(p.jobs[k].arrival.max));
    }
  }

  lemma NothingKnown(p: Problem, s: View, j: nat)
    requires SequentialJobs(p) && p.IsJob(j)
    ensures ReadyTimes(p, s, j) == p.jobs[j].arrival
  {
    assert Independent(p, j);
  }

  /** The scenario in which `j` is released in time for a start at `t`, and no earlier than needed. */
  lemma ReleasedFor(p: Problem, sc: Scenario, scheduled: set<nat>, j: nat, t: int, now: int) returns (sc': Scenario)
    requires ValidProblem(p) && Uniprocessor(p) && ValidScenario(p, sc) && LatestReleases(p, sc, scheduled)
    requires p.IsJob(j) && j !in scheduled && p.jobs[j].arrival.min <= t && now < t
    ensures ValidScenario(p, sc') && LatestReleases(p, sc', scheduled + {j}) && Postponed(p, sc, sc', j, now)
    ensures sc'.release(j) == Min(t, p.jobs[j].arrival.max)
  {
    assert ValidJob(p.jobs[j], p.m);
    var at := Min(t, p.jobs[j].arrival.max);
    var release: nat -> int := (k: nat) => if k == j then at else sc.release(k);
    sc' := Scenario(release, sc.delay);
    forall k: nat | p.IsJob(k)
      ensures |p.cons[k].predStart| == |p.cons[k].predFinish| == |p.cons[k].exclStart| == |p.cons[k].exclFinish| == 0
    {
      assert Independent(p, k);
    }
  }

  /** The step that follows a decision on one core. */
  lemma TakeStep(p: Problem, sc: Scenario, platform: seq<Interval>, before: Run, d: Decision) returns (r: Run)
    requires Uniprocessor(p) && IsRun(p, sc, platform, before) && |before.end.cores| == 1
    requires p.IsJob(d.job) && d.level == 0 && Legal(p, sc, before.end, d)
    ensures IsRun(p, sc, platform, r) && r.Then? && r.before == before && r.decision == d
    ensures r.end.cores == [Core(Some(d.job), d.f)] && r.end.now == d.t
        && r.end.start.Keys == before.end.start.Keys + {d.job}
  {
    var c := before.end;
    FreeOnOneCore(c, d.t);
    var c' := Config([Core(Some(d.job), d.f)], d.t, c.start[d.job := d.t], c.finish[d.job := d.f]);
    assert Owned(c'.cores[..0], d.job) == 0;
    r := Then(before, d, c');
  }

  lemma PriorityTransitive(p: Problem, a: nat, b: nat, c: nat)
    requires p.IsJob(a) && p.IsJob(b) && p.IsJob(c) && PriorTo(p, a, b) && PriorTo(p, b, c)
    ensures PriorTo(p, a, c)
  {
  }

  /** No other job that is ready at `f` has priority over a job of the group. */
  ghost predicate GroupFirst(p: Problem, sc: Scenario, c: Config, group: set<nat>, f: int) {
    forall l, k: nat :: l in group && p.IsJob(l) && p.IsJob(k) && k !in group && k !in c.start && sc.release(k) <= f ==>
      !PriorTo(p, k, l)
  }

  /** The first job of a group can be dispatched at `f`, and take no time. */
  lemma FirstOfGroup(p: Problem, sc: Scenario, c: Config, group: set<nat>, f: int, l: nat) returns (k: nat)
    requires Uniprocessor(p) && |p.cons| == |p.jobs| && c.now <= f && IdleUntil(p, sc, c, f)
    requires l in group - c.start.Keys && GroupFirst(p, sc, c, group, f)
    requires forall q :: q in group - c.start.Keys ==> Deferred(p, sc, c, q, f)
    ensures k in group - c.start.Keys && Legal(p, sc, c, Decision(k, 0, f, f))
  {
    StartableOnOneCore(p, sc, c, l, f);
    k := TopStartable(p, sc, c, f, l, |p.jobs|);
    StartableOnOneCore(p, sc, c, k, f);
    FreeOnOneCore(c, f);
    forall q, x | x < f
      ensures !Startable(p, sc, c, q, x)
    {
      if p.IsJob(q) {
        StartableOnOneCore(p, sc, c, q, x);
      }
    }
  }

  /** A group of jobs that take no time is dispatched at `f`. */
  lemma {:induction false} DispatchGroup(p: Problem, sc: Scenario, platform: seq<Interval>, r: Run, group: set<nat>,
                                         f: int)
      returns (r': Run)
    requires Uniprocessor(p) && |p.cons| == |p.jobs| && IsRun(p, sc, platform, r)
    requires r.end.now <= f && IdleUntil(p, sc, r.end, f) && GroupFirst(p, sc, r.end, group, f)
    requires forall q :: q in group - r.end.start.Keys ==> Deferred(p, sc, r.end, q, f)
    ensures IsRun(p, sc, platform, r') && r'.end.now <= f && IdleUntil(p, sc, r'.end, f)
    ensures r'.end.start.Keys == r.end.start.Keys + group
    decreases group - r.end.start.Keys
  {
    if l :| l in group - r.end.start.Keys {
      var k := FirstOfGroup(p, sc, r.end, group, f, l);
      r' := TakeStep(p, sc, platform, r, Decision(k, 0, f, f));
      assert group - r'.end.start.Keys < group - r.end.start.Keys;
      r' := DispatchGroup(p, sc, platform, r', group, f);
    } else {
      forall q | q in group
        ensures q in r.end.start.Keys
      {
        assert q !in group - r.end.start.Keys;
      }
      r' := r;
    }
  }

  /** The deferred jobs that come before `j`, which is started at `t`. */
  ghost function Before(p: Problem, waiting: set<nat>, j: nat, f: int, t: int): set<nat>
    requires p.IsJob(j) && forall l :: l in waiting ==> p.IsJob(l)
  {
    set l | l in waiting && (f < t || PriorTo(p, l, j))
  }

  /** A job that is neither among those nor dispatched lets `j` start at `t`. */
  lemma OthersWait(p: Problem, sc: Scenario, scheduled: set<nat>, s: View, j: nat, t: int, waiting: set<nat>, k: nat)
    requires ValidProblem(p) && Uniprocessor(p) && |s.cores| == 1
    requires Dispatchable(p, scheduled, s, j, 0) && t <= LatestStart(p, scheduled, s, j, 0)
    requires LatestReleases(p, sc, scheduled + {j}) && sc.release(j) == Min(t, p.jobs[j].arrival.max)
    requires p.IsJob(k) && forall l :: l in waiting ==> p.IsJob(l)
    requires k !in scheduled || (k in waiting && k !in Before(p, waiting, j, Min(t, s.cores[0].max), t))
    ensures s.cores[0].max < t ==> t <= sc.release(k)
    ensures sc.release(k) <= t ==> !PriorTo(p, k, j)
  {
    hide ValidProblem, Dispatchable, LatestStart;
    if k !in scheduled {
      StartBounds(p, scheduled, s, j, t, k);
    }
  }

  /** Once the jobs before it have been dispatched, the scheduler starts `j` at `t`. */
  lemma StartIsLegal(p: Problem, sc: Scenario, scheduled: set<nat>, s: View, j: nat, t: int, waiting: set<nat>,
                     c: Config, cost: int)
    requires ValidProblem(p) && Uniprocessor(p) && |s.cores| == 1
    requires Dispatchable(p, scheduled, s, j, 0) && StartInterval(p, scheduled, s, j, 0).Has(t)
    requires LatestReleases(p, sc, scheduled + {j}) && sc.release(j) == Min(t, p.jobs[j].arrival.max)
    requires c.now <= t && IdleUntil(p, sc, c, Min(t, s.cores[0].max))
    requires forall l :: l in waiting ==> p.IsJob(l) && l in scheduled
    requires c.start.Keys == scheduled - waiting + Before(p, waiting, j, Min(t, s.cores[0].max), t)
    requires p.jobs[j].levels[0].cost.Has(cost)
    ensures Legal(p, sc, c, Decision(j, 0, t, t + cost))
  {
    StartableOnOneCore(p, sc, c, j, t);
    FreeOnOneCore(c, t);
    forall k, x | x <= t && Startable(p, sc, c, k, x)
      ensures x == t && !PriorTo(p, k, j)
    {
      StartableOnOneCore(p, sc, c, k, x);
      OthersWait(p, sc, scheduled, s, j, t, waiting, k);
    }
  }

  /** The jobs before `j` come first when the core is free. */
  lemma BeforeComesFirst(p: Problem, sc: Scenario, scheduled: set<nat>, s: View, j: nat, t: int, c: Config)
    requires ValidProblem(p) && Uniprocessor(p) && |s.cores| == 1
    requires Dispatchable(p, scheduled, s, j, 0) && t <= LatestStart(p, scheduled, s, j, 0)
    requires LatestReleases(p, sc, scheduled + {j}) && sc.release(j) == Min(t, p.jobs[j].arrival.max)
    requires c.start.Keys <= scheduled && forall l :: l in scheduled - c.start.Keys ==> p.IsJob(l)
    ensures var f := Min(t, s.cores[0].max);
            GroupFirst(p, sc, c, Before(p, scheduled - c.start.Keys, j, f, t), f)
  {
    var f := Min(t, s.cores[0].max);
    var group := Before(p, scheduled - c.start.Keys, j, f, t);
    forall l, k: nat | l in group && p.IsJob(l) && p.IsJob(k) && k !in group && k !in c.start && sc.release(k) <= f
      ensures !PriorTo(p, k, l)
    {
      OthersWait(p, sc, scheduled, s, j, t, scheduled - c.start.Keys, k);
      if PriorTo(p, k, l) {
        PriorityTransitive(p, k, l, j);
      }
    }
  }

  /** A run that has dispatched `scheduled` but for some jobs that take no time, under a scenario that releases `j` in
      time for a start at `t`. */
  ghost predicate Prepared(p: Problem, platform: seq<Interval>, scheduled: set<nat>, j: nat, f: int, t: int,
                           sc: Scenario, r: Run)
    requires p.IsJob(j)
  {
    && ValidScenario(p, sc) && IsRun(p, sc, platform, r) && r.end.now <= f && IdleUntil(p, sc, r.end, f)
    && r.end.start.Keys <= scheduled && (forall k :: k in scheduled - r.end.start.Keys ==> Deferred(p, sc, r.end, k, f))
    && LatestReleases(p, sc, scheduled + {j}) && sc.release(j) == Min(t, p.jobs[j].arrival.max)
  }

  /** What a possible start of `j` says about the job itself. */
  lemma StartOf(p: Problem, scheduled: set<nat>, s: View, j: nat, t: int)
    requires ValidProblem(p) && Uniprocessor(p) && |s.cores| == 1
    requires Dispatchable(p, scheduled, s, j, 0) && StartInterval(p, scheduled, s, j, 0).Has(t)
    ensures p.IsJob(j) && j !in scheduled && |p.jobs[j].levels| == 1 && p.jobs[j].arrival.min <= t
    ensures |p.cons| == |p.jobs| && t <= LatestStart(p, scheduled, s, j, 0)
  {
    NothingKnown(p, s, j);
  }

  lemma PrepareStart(p: Problem, platform: seq<Interval>, scheduled: set<nat>, s: View, j: nat, t: int)
      returns (sc: Scenario, r: Run)
    requires ValidProblem(p) && Uniprocessor(p) && CoreExact(p, platform, scheduled, s.cores) && s.cores[0].Ok()
    requires Dispatchable(p, scheduled, s, j, 0) && StartInterval(p, scheduled, s, j, 0).Has(t)
    ensures Prepared(p, platform, scheduled, j, Min(t, s.cores[0].max), t, sc, r) && r.end.now < Min(t, s.cores[0].max)
  {
    var f := Min(t, s.cores[0].max);
    StartOf(p, scheduled, s, j, t);
    assert s.cores[0].min <= t;
    hide ValidProblem, Dispatchable, StartInterval, LatestStart, ValidScenario, Uniprocessor, IsRun;
    assert Realisable(p, platform, scheduled, f);
    var sc0: Scenario, first: Run :| Realises(p, platform, scheduled, f, sc0, first);
    r := first;
    sc := ReleasedFor(p, sc0, scheduled, j, t, r.end.now);
    PostponedRun(p, sc0, sc, platform, j, r.end.now, r);
  }

  lemma DispatchBefore(p: Problem, platform: seq<Interval>, scheduled: set<nat>, s: View, j: nat, t: int, sc: Scenario,
                       first: Run, cost: int)
      returns (r: Run)
    requires ValidProblem(p) && Uniprocessor(p) && |s.cores| == 1 && p.IsJob(j)
    requires Dispatchable(p, scheduled, s, j, 0) && StartInterval(p, scheduled, s, j, 0).Has(t)
    requires p.jobs[j].levels[0].cost.Has(cost)
    requires Prepared(p, platform, scheduled, j, Min(t, s.cores[0].max), t, sc, first)
    ensures Prepared(p, platform, scheduled, j, Min(t, s.cores[0].max), t, sc, r)
    ensures Legal(p, sc, r.end, Decision(j, 0, t, t + cost)) && (s.cores[0].max < t ==> r.end.start.Keys == scheduled)
  {
    hide ValidProblem, Dispatchable, StartInterval, LatestStart, Legal, ValidScenario, Uniprocessor, IsRun;
    StartOf(p, scheduled, s, j, t);
    var f := Min(t, s.cores[0].max);
    var waiting := scheduled - first.end.start.Keys;
    BeforeComesFirst(p, sc, scheduled, s, j, t, first.end);
    r := DispatchGroup(p, sc, platform, first, Before(p, waiting, j, f, t), f);
    StartIsLegal(p, sc, scheduled, s, j, t, waiting, r.end, cost);
  }

  /** `j` runs for some time, and what is left of `scheduled` can be dispatched when it finishes. */
  lemma RunsOn(p: Problem, platform: seq<Interval>, scheduled: set<nat>, j: nat, f: int, t: int, sc: Scenario,
               middle: Run, r: Run, cost: int)
    requires p.IsJob(j) && Prepared(p, platform, scheduled, j, f, t, sc, middle) && f <= t && cost > 0
    requires IsRun(p, sc, platform, r) && r.end.now == t && r.end.start.Keys == middle.end.start.Keys + {j}
    requires |r.end.cores| == 1 && r.end.cores[0].free == t + cost
    ensures Realises(p, platform, scheduled + {j}, t + cost, sc, r)
  {
    hide ValidScenario, IsRun;
    forall k | k in scheduled + {j} - r.end.start.Keys
      ensures Deferred(p, sc, r.end, k, t + cost)
    {
      assert k in scheduled - middle.end.start.Keys;
    }
  }

  /** `j` takes no time either, and can be dispatched at `t`. */
  lemma TakesNoTime(p: Problem, platform: seq<Interval>, scheduled: set<nat>, j: nat, f: int, t: int, sc: Scenario,
                    r: Run)
    requires p.IsJob(j) && j !in scheduled && |p.jobs[j].levels| == 1 && p.jobs[j].levels[0].cost.Has(0)
    requires Prepared(p, platform, scheduled, j, f, t, sc, r) && f <= t && r.end.now < t && IdleUntil(p, sc, r.end, t)
    ensures Realises(p, platform, scheduled + {j}, t, sc, r)
  {
    hide ValidScenario, IsRun;
    forall k | k in scheduled + {j} - r.end.start.Keys
      ensures Deferred(p, sc, r.end, k, t)
    {
      assert k == j || k in scheduled - r.end.start.Keys;
    }
  }

  /** Every start time and every execution time of a dispatch is realised. */
  lemma StartRealised(p: Problem, platform: seq<Interval>, scheduled: set<nat>, s: View, j: nat, t: int, cost: int)
      returns (sc: Scenario, r: Run)
    requires ValidProblem(p) && Uniprocessor(p) && CoreExact(p, platform, scheduled, s.cores)
    requires Dispatchable(p, scheduled, s, j, 0) && StartInterval(p, scheduled, s, j, 0).Has(t) && s.cores[0].Ok()
    requires p.jobs[j].levels[0].cost.Has(cost)
    ensures ValidScenario(p, sc) && IsRun(p, sc, platform, r) && r.Then? && r.decision == Decision(j, 0, t, t + cost)
    ensures Realisable(p, platform, scheduled + {j}, t + cost)
  {
    hide Problem.IsJob, InitialConfig;
    assert |s.cores| == 1;
    hide ValidProblem, ValidScenario, IsRun, StartInterval, LatestStart, Dispatchable, Uniprocessor, Legal,
        CoreExact, Realises;
    var first, middle: Run;
    StartOf(p, scheduled, s, j, t);
    sc, first := PrepareStart(p, platform, scheduled, s, j, t);
    middle := DispatchBefore(p, platform, scheduled, s, j, t, sc, first, cost);
    var f := Min(t, s.cores[0].max);
    r := TakeStep(p, sc, platform, middle, Decision(j, 0, t, t + cost));
    if cost > 0 {
      RunsOn(p, platform, scheduled, j, f, t, sc, middle, r, cost);
    } else if f == t {
      TakesNoTime(p, platform, scheduled, j, f, t, sc, first);
    } else {
      IdleLonger(p, platform, scheduled, s, j, t, sc, middle);
      TakesNoTime(p, platform, scheduled, j, f, t, sc, middle);
    }
  }

  lemma IdleLonger(p: Problem, platform: seq<Interval>, scheduled: set<nat>, s: View, j: nat, t: int, sc: Scenario,
                   r: Run)
    requires ValidProblem(p) && Uniprocessor(p) && |s.cores| == 1 && s.cores[0].max < t
    requires Dispatchable(p, scheduled, s, j, 0) && t <= LatestStart(p, scheduled, s, j, 0)
    requires Prepared(p, platform, scheduled, j, s.cores[0].max, t, sc, r) && r.end.start.Keys == scheduled
    ensures IdleUntil(p, sc, r.end, t)
  {
    hide ValidProblem, Dispatchable, LatestStart, Uniprocessor, ValidScenario, IsRun;
    forall k: nat | p.IsJob(k) && k !in r.end.start
      ensures t <= sc.release(k)
    {
      OthersWait(p, sc, scheduled, s, j, t, {}, k);
    }
  }

  /** The finish times of a dispatch are all realised. */
  lemma FinishRealised(p: Problem, platform: seq<Interval>, scheduled: set<nat>, s: View, j: nat, f: int)
      returns (sc: Scenario, r: Run)
    requires ValidProblem(p) && Uniprocessor(p) && CoreExact(p, platform, scheduled, s.cores)
    requires Dispatchable(p, scheduled, s, j, 0) && StartInterval(p, scheduled, s, j, 0).Ok() && s.cores[0].Ok()
    requires FinishInterval(p, scheduled, s, j, 0).Has(f)
    ensures ValidScenario(p, sc) && IsRun(p, sc, platform, r) && r.Then? && r.decision.job == j && r.decision.f == f
    ensures Realisable(p, platform, scheduled + {j}, f)
  {
    hide IsRun;
    var start, cost := StartInterval(p, scheduled, s, j, 0), p.jobs[j].levels[0].cost;
    assert ValidJob(p.jobs[j], p.m);
    var t := if start.min + cost.max >= f then start.min else f - cost.max;
    sc, r := StartRealised(p, platform, scheduled, s, j, t, f - t);
  }

  // ---- Merging is exact as well ----

  /** Two core intervals that are merged leave no gap. */
  lemma WidenedExact(p: Problem, platform: seq<Interval>, scheduled: set<nat>, a: seq<Interval>, b: seq<Interval>,
                     conservative: bool)
    requires CoreExact(p, platform, scheduled, a) && CoreExact(p, platform, scheduled, b)
    requires a[0].Ok() && b[0].Ok() && Mergeable(a, b, conservative)
    ensures CoreExact(p, platform, scheduled, Widened(a, b))
  {
    forall f | Widened(a, b)[0].Has(f)
      ensures a[0].Has(f) || b[0].Has(f)
    {
    }
  }

  /** After a dispatch the core becomes free when the job finishes. */
  lemma DispatchedOnOneCore(cores: seq<Interval>, start: Interval, finish: Interval, freed: nat)
    requires |cores| == 1 && freed <= 1 && WellFormed(cores) && DispatchTimes(start, finish)
    ensures Dispatched(cores, start, finish, 1, freed) == [finish]
  {
    DispatchedWellFormed(cores, start, finish, 1, freed);
    assert Mins(cores)[1..] == [] && Maxs(cores)[1..] == [];
    assert PossibleTimes(cores, start.min, finish.min, 1, freed) == [finish.min];
    assert CertainTimes(cores, start.min, start.max, finish.max, 1, freed) == [finish.max];
    assert Mins(Dispatched(cores, start, finish, 1, freed))[0] == finish.min;
    assert Maxs(Dispatched(cores, start, finish, 1, freed))[0] == finish.max;
  }

  // ---- No dead ends ----

  /** With sequential jobs only, a state derives nothing from other kinds of jobs. */
  ghost predicate Undisturbed(s: View) {
    s.certainSuccessor == Inf && s.certainGang == Inf && s.certainMutex == Inf && s.lowest == None
  }

  lemma NoOtherKinds(p: Problem, scheduled: set<nat>, s: View, cat: Category)
    requires ValidProblem(p) && SequentialJobs(p) && |s.cores| == p.m && cat != Sequential
    ensures Certain(p, scheduled, s, cat) == Inf
    ensures forall j: nat, used: nat :: p.IsJob(j) ==> Rival(p, scheduled, s, j, used, cat) == Inf
  {
    forall k: nat | p.IsJob(k)
      ensures !InCategory(p, scheduled, cat, k)
    {
      AllSequential(p, k);
    }
    NextCertainExact(p, scheduled, s, cat, |p.jobs|);
    forall j: nat, used: nat | p.IsJob(j)
      ensures Rival(p, scheduled, s, j, used, cat) == Inf
    {
      NextRivalExact(p, scheduled, s, j, used, cat, |p.jobs|);
    }
  }

  /** The first undispatched job that may arrive. */
  lemma {:induction false} FirstArrival(p: Problem, scheduled: set<nat>, u: nat, n: nat) returns (k: nat)
    requires p.IsJob(u) && u !in scheduled && n <= |p.jobs| && |p.cons| == |p.jobs|
    ensures p.IsJob(k) && k !in scheduled && p.jobs[k].arrival.min <= p.jobs[u].arrival.min
    ensures forall q: nat :: q < n && q !in scheduled ==> p.jobs[k].arrival.min <= p.jobs[q].arrival.min
  {
    if n == 0 {
      k := u;
    } else {
      k := FirstArrival(p, scheduled, u, n - 1);
      if n - 1 !in scheduled && p.jobs[n - 1].arrival.min < p.jobs[k].arrival.min {
        k := n - 1;
      }
    }
  }

  /** Among the undispatched jobs that may have arrived at `t`, one of highest priority. */
  lemma {:induction false} TopArrived(p: Problem, scheduled: set<nat>, t: int, u: nat, n: nat) returns (k: nat)
    requires p.IsJob(u) && u !in scheduled && p.jobs[u].arrival.min <= t && n <= |p.jobs| && |p.cons| == |p.jobs|
    ensures p.IsJob(k) && k !in scheduled && p.jobs[k].arrival.min <= t && (k == u || PriorTo(p, k, u))
    ensures forall q: nat :: q < n && q !in scheduled && p.jobs[q].arrival.min <= t ==> !PriorTo(p, q, k)
  {
    if n == 0 {
      k := u;
    } else {
      k := TopArrived(p, scheduled, t, u, n - 1);
      if n - 1 !in scheduled && p.jobs[n - 1].arrival.min <= t && PriorTo(p, n - 1, k) {
        k := n - 1;
      }
    }
  }

  /** No job of higher priority is certainly released when a job of highest priority may start. */
  lemma BeforeRivals(p: Problem, scheduled: set<nat>, s: View, j: nat, t: int)
    requires ValidProblem(p) && SequentialJobs(p) && |s.cores| == p.m && p.IsJob(j)
    requires forall q: nat :: q < |p.jobs| && q !in scheduled && p.jobs[q].arrival.min <= t ==> !PriorTo(p, q, j)
    ensures !Reached(PriorityBound(p, scheduled, s, j, 1), t)
  {
    NoOtherKinds(p, scheduled, s, Gang);
    NoOtherKinds(p, scheduled, s, MutexSource);
    NoOtherKinds(p, scheduled, s, Successor);
    forall k: nat | k < |p.jobs|
      ensures !Reached(RivalBound(p, scheduled, s, j, 1, Sequential, k), t)
    {
      assert ValidJob(p.jobs[k], p.m);
    }
    NextRivalExact(p, scheduled, s, j, 1, Sequential, |p.jobs|);
  }

  lemma WithinWorkConserving(p: Problem, scheduled: set<nat>, s: View, a: int)
    requires ValidProblem(p) && |s.cores| == p.m && s.cores[0].Ok() && Undisturbed(s)
    requires forall q: nat :: q < |p.jobs| && q !in scheduled ==> a <= p.jobs[q].arrival.min
    ensures LeB(Fin(Max(s.cores[0].min, a)), WorkConservingBound(p, scheduled, s))
  {
    NextCertainExact(p, scheduled, s, Sequential, |p.jobs|);
    var b := Certain(p, scheduled, s, Sequential);
    if b.Fin? {
      var k: nat :| k < |p.jobs| && CertainBound(p, scheduled, s, Sequential, k) == b;
      assert ValidJob(p.jobs[k], p.m);
    }
  }

  /** In every state of an incomplete node some job can be dispatched. */
  lemma NoDeadEnd(p: Problem, scheduled: set<nat>, s: View, u: nat) returns (j: nat)
    requires ValidProblem(p) && SequentialJobs(p) && StateInvariant(p, scheduled, s) && Undisturbed(s)
    requires p.IsJob(u) && u !in scheduled
    ensures Dispatchable(p, scheduled, s, j, 0)
  {
    var first := FirstArrival(p, scheduled, u, |p.jobs|);
    var a := p.jobs[first].arrival.min;
    var t := Max(s.cores[0].min, a);
    j := TopArrived(p, scheduled, t, first, |p.jobs|);
    AllSequential(p, j);
    NothingKnown(p, s, j);
    BeforeRivals(p, scheduled, s, j, t);
    WithinWorkConserving(p, scheduled, s, a);
    assert EarliestStart(p, s, j, 0) == t;
  }
}
