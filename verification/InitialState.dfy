// The initial state, and exactly when it covers every initial configuration.
module InitialStates {
  import opened Times
  import opened Counting
  import opened Jobs
  import opened Workload
  import opened Scheduler
  import opened CoreAvailability
  import opened Abstraction
  import opened NextDispatch
  import opened SpaceData
  import opened ScheduleStates

  ghost predicate ValidPlatform(p: Problem, platform: seq<Interval>) {
    |platform| == p.m && forall i :: 0 <= i < |platform| ==> platform[i].Ok()
  }

  /** By the least latest arrival of a kind of source jobs, which the initial state takes for the time by
      which one of them can be started, some source job arrives and finds its cores available. */
  ghost predicate KindFits(p: Problem, platform: seq<Interval>, kind: Category)
    requires ValidProblem(p) && |platform| == p.m
  {
    var b := NextKey(p, {}, ByLatest, {kind});
    b.Fin? ==> exists k: nat :: SourceFits(p, platform, k, b.t)
  }

  ghost predicate SourceFits(p: Problem, platform: seq<Interval>, k: nat, t: int)
    requires ValidProblem(p) && |platform| == p.m
  {
    p.IsJob(k) && !HasPreds(p, k) && p.jobs[k].arrival.max <= t && CoresBy(p, Initial(platform), k) <= t
  }

  ghost predicate SourcesFit(p: Problem, platform: seq<Interval>)
    requires ValidProblem(p) && |platform| == p.m
  {
    KindFits(p, platform, Gang) && KindFits(p, platform, MutexSource)
  }

  ghost predicate CoversInitially(p: Problem, platform: seq<Interval>)
    requires ValidProblem(p)
  {
    forall sc: Scenario, c: Config :: ValidScenario(p, sc) && InitialConfig(p, sc, platform, c) ==>
      Covers(p, sc, InitialView(p, platform), c)
  }

  lemma InitialPlatform(platform: seq<Interval>)
    requires |platform| >= 1 && forall i :: 0 <= i < |platform| ==> platform[i].Ok()
    ensures WellFormed(Initial(platform))
  {
    var cores := seq(|platform|, i requires 0 <= i < |platform| => Core(None, platform[i].min));
    InitialCovers(platform, Config(cores, 0, map[], map[]));
  }

  /** Two cores that become available one after the other. */
  lemma PairSorted(a: Interval, b: Interval)
    requires a.Ok() && b.Ok() && a.min <= b.min && a.max <= b.max
    ensures Initial([a, b]) == [a, b]
  {
    TimesSorted(a.min, b.min);
    TimesSorted(a.max, b.max);
    assert Mins([a, b]) == [a.min, b.min] && Maxs([a, b]) == [a.max, b.max];
    assert Pair([a.min, b.min], [a.max, b.max]) == [a, b];
  }

  lemma TimesSorted(a: int, b: int)
    requires a <= b
    ensures SortTimes([a, b]) == [a, b]
  {
    assert [a, b][..1] == [a] && [a][..0] == [] && [a][1..] == [];
    assert Rep(a, 1) == [a] && Rep(b, 1) == [b];
    assert SortTimes([a]) == Insert([], a, 1) == [a];
    assert Insert([a], b, 1) == [a] + Insert([], b, 1) == [a, b];
  }

  // ---- The condition suffices ----

  /** A source job is ready once released when nothing has been dispatched. */
  lemma SourceReady(p: Problem, sc: Scenario, c: Config, k: nat, x: int)
    requires p.IsJob(k) && !HasPreds(p, k) && c.start == map[] && c.finish == map[] && sc.release(k) <= x
    ensures ReadyBy(p, sc, c, k, x)
  {
  }

  /** A source job that arrives and whose cores become available by a time can be started then. */
  lemma SourceStartable(p: Problem, sc: Scenario, platform: seq<Interval>, c: Config, k: nat, t: int)
    requires ValidProblem(p) && |platform| == p.m && SourceFits(p, platform, k, t)
    requires p.jobs[k].arrival.Has(sc.release(k)) && CoresCover(Initial(platform), c) && WellFormed(Initial(platform))
    requires c.start == map[] && c.finish == map[]
    ensures Startable(p, sc, c, k, t)
  {
    hide CoresCover, WellFormed, ReadyBy;
    LevelOnPlatform(p, k, 0);
    SourceReady(p, sc, c, k, t);
    AvailableBy(Initial(platform), c, p.jobs[k].MinCores(), t);
  }

  lemma KindCertain(p: Problem, sc: Scenario, platform: seq<Interval>, c: Config, kind: Category)
    requires ValidProblem(p) && ValidScenario(p, sc) && |platform| == p.m && KindFits(p, platform, kind)
    requires CoresCover(Initial(platform), c) && WellFormed(Initial(platform))
    requires c.start == map[] && c.finish == map[]
    ensures CertainBy(p, sc, c, NextKey(p, {}, ByLatest, {kind}))
  {
    hide ValidProblem, CoresCover, WellFormed, SourceFits, Startable, NextKey;
    var b := NextKey(p, {}, ByLatest, {kind});
    if b.Fin? {
      var k: nat :| SourceFits(p, platform, k, b.t);
      JobOf(p, platform, k, b.t);
      SourceStartable(p, sc, platform, c, k, b.t);
    }
  }

  lemma JobOf(p: Problem, platform: seq<Interval>, k: nat, t: int)
    requires ValidProblem(p) && |platform| == p.m && SourceFits(p, platform, k, t)
    ensures p.IsJob(k)
  {
  }

  /** The initial state covers every initial configuration. */
  lemma InitialViewCovers(p: Problem, sc: Scenario, platform: seq<Interval>, c: Config)
    requires ValidProblem(p) && ValidScenario(p, sc) && ValidPlatform(p, platform) && SourcesFit(p, platform)
    requires InitialConfig(p, sc, platform, c)
    ensures Covers(p, sc, InitialView(p, platform), c)
  {
    hide ValidScenario, CoresCover, WellFormed, KindFits, Startable, WorkConserved, Initial, NextKey;
    InitialCovers(platform, c);
    KindCertain(p, sc, platform, c, Gang);
    KindCertain(p, sc, platform, c, MutexSource);
  }

  // ---- The condition is necessary ----

  /** Everything happens as late as possible, but delays are as short as possible. */
  ghost function LatestScenario(p: Problem): Scenario {
    Scenario((k: nat) => if p.IsJob(k) then p.jobs[k].arrival.max else 0,
             (kind: Kind, k: nat, i: nat) => ShortestDelay(p, kind, k, i))
  }

  function ShortestDelay(p: Problem, kind: Kind, k: nat, i: nat): int {
    if p.IsJob(k) && i < |ListOf(p.cons[k], kind)| then ListOf(p.cons[k], kind)[i].delay.min else 0
  }

  function ListOf(c: JobConstraints, kind: Kind): seq<Delay> {
    match kind
    case PredStart => c.predStart
    case PredFinish => c.predFinish
    case ExclStart => c.exclStart
    case ExclFinish => c.exclFinish
  }

  lemma LatestDelays(p: Problem, kind: Kind, k: nat)
    requires ValidProblem(p) && p.IsJob(k)
    ensures DelaysWithin(LatestScenario(p), kind, k, ListOf(p.cons[k], kind))
  {
    assert ValidConstraints(p.cons[k], |p.jobs|);
    assert ValidList(ListOf(p.cons[k], kind), |p.jobs|);
  }

  lemma LatestScenarioValid(p: Problem)
    requires ValidProblem(p)
    ensures ValidScenario(p, LatestScenario(p))
  {
    hide DelaysWithin, ValidConstraints;
    forall k: nat | p.IsJob(k)
      ensures p.jobs[k].arrival.Ok()
      ensures DelaysWithin(LatestScenario(p), PredStart, k, p.cons[k].predStart)
      ensures DelaysWithin(LatestScenario(p), PredFinish, k, p.cons[k].predFinish)
      ensures DelaysWithin(LatestScenario(p), ExclStart, k, p.cons[k].exclStart)
      ensures DelaysWithin(LatestScenario(p), ExclFinish, k, p.cons[k].exclFinish)
    {
      assert ValidJob(p.jobs[k], p.m);
      LatestDelays(p, PredStart, k);
      LatestDelays(p, PredFinish, k);
      LatestDelays(p, ExclStart, k);
      LatestDelays(p, ExclFinish, k);
    }
  }

  /** A time before all latest arrivals. */
  lemma {:induction false} BeforeArrivals(p: Problem, n: nat) returns (t: int)
    requires n <= |p.jobs|
    ensures forall k: nat :: k < n ==> t <= p.jobs[k].arrival.max
  {
    t := 0;
    if n > 0 {
      t := BeforeArrivals(p, n - 1);
      t := Min(t, p.jobs[n - 1].arrival.max);
    }
  }

  /** Every core becomes available as late as possible. */
  ghost function LatestConfig(platform: seq<Interval>, now: int): Config {
    Config(seq(|platform|, i requires 0 <= i < |platform| => Core(None, platform[i].max)), now, map[], map[])
  }

  lemma LatestConfigInitial(p: Problem, platform: seq<Interval>, now: int)
    requires ValidPlatform(p, platform) && forall k: nat :: k < |p.jobs| ==> now <= p.jobs[k].arrival.max
    ensures InitialConfig(p, LatestScenario(p), platform, LatestConfig(platform, now))
  {
    forall k, x | x < now
      ensures !Startable(p, LatestScenario(p), LatestConfig(platform, now), k, x)
    {
    }
  }

  lemma LatestCores(p: Problem, platform: seq<Interval>, now: int, x: int)
    requires ValidPlatform(p, platform) && |platform| >= 1
    ensures FreeAt(LatestConfig(platform, now), x) == Below(Maxs(Initial(platform)), x)
    ensures Sorted(Maxs(Initial(platform))) && |Initial(platform)| == |platform|
  {
    InitialSorted(platform);
    SortTimesSorts(Maxs(platform), x);
    assert FreeTimes(LatestConfig(platform, now).cores) == Maxs(platform);
  }

  /** Nothing has started or finished that a predecessor constraint could refer to. */
  lemma NotElapsed(sc: Scenario, kind: Kind, k: nat, list: seq<Delay>, t: int)
    requires kind.PredStart? || kind.PredFinish?
    ensures |list| > 0 ==> !Elapsed(sc, kind, k, list, map[], t)
  {
    if |list| > 0 {
      var none: map<nat, int> := map[];
      assert list[0].ref !in none;
    }
  }

  lemma FreeFits(p: Problem, platform: seq<Interval>, now: int, k: nat, t: int)
    requires ValidProblem(p) && ValidPlatform(p, platform) && p.IsJob(k) && |p.jobs[k].levels| > 0
    requires FreeAt(LatestConfig(platform, now), t) >= p.jobs[k].MinCores()
    ensures CoresBy(p, Initial(platform), k) <= t
  {
    hide LatestConfig, Initial, WellFormed, FreeAt;
    LevelOnPlatform(p, k, 0);
    LatestCores(p, platform, now, t);
    SortedBelow(Maxs(Initial(platform)), t, p.jobs[k].MinCores() - 1);
  }

  /** What can be started in that configuration is a source job that fits. */
  lemma StartableFits(p: Problem, platform: seq<Interval>, now: int, k: nat, t: int)
    requires ValidProblem(p) && ValidPlatform(p, platform)
    requires Startable(p, LatestScenario(p), LatestConfig(platform, now), k, t)
    ensures SourceFits(p, platform, k, t)
  {
    hide ValidProblem, FreeAt, Elapsed, CoresBy;
    FreeFits(p, platform, now, k, t);
    NotElapsed(LatestScenario(p), PredStart, k, p.cons[k].predStart, t);
    NotElapsed(LatestScenario(p), PredFinish, k, p.cons[k].predFinish, t);
  }

  lemma CertainFits(p: Problem, platform: seq<Interval>, now: int, kind: Category)
    requires ValidProblem(p) && ValidPlatform(p, platform)
    requires CertainBy(p, LatestScenario(p), LatestConfig(platform, now), NextKey(p, {}, ByLatest, {kind}))
    ensures KindFits(p, platform, kind)
  {
    hide ValidProblem, Startable, SourceFits, NextKey, LatestScenario, LatestConfig;
    var b := NextKey(p, {}, ByLatest, {kind});
    if b.Fin? {
      var k :| Startable(p, LatestScenario(p), LatestConfig(platform, now), k, b.t);
      StartableFits(p, platform, now, k, b.t);
    }
  }

  /** The initial state covers every initial configuration if and only if the sources fit. */
  lemma InitialViewExact(p: Problem, platform: seq<Interval>)
    requires ValidProblem(p) && ValidPlatform(p, platform)
    ensures CoversInitially(p, platform) <==> SourcesFit(p, platform)
  {
    hide ValidProblem, ValidScenario, InitialConfig, Covers, KindFits, CertainBy, LatestScenario, LatestConfig,
        InitialView;
    if SourcesFit(p, platform) {
      forall sc: Scenario, c: Config | ValidScenario(p, sc) && InitialConfig(p, sc, platform, c)
        ensures Covers(p, sc, InitialView(p, platform), c)
      {
        InitialViewCovers(p, sc, platform, c);
      }
    }
    if CoversInitially(p, platform) {
      var now := BeforeArrivals(p, |p.jobs|);
      LatestScenarioValid(p);
      LatestConfigInitial(p, platform, now);
      CertainOfView(p, LatestScenario(p), platform, LatestConfig(platform, now));
      CertainFits(p, platform, now, Gang);
      CertainFits(p, platform, now, MutexSource);
    }
  }

  lemma CertainOfView(p: Problem, sc: Scenario, platform: seq<Interval>, c: Config)
    requires ValidProblem(p) && Covers(p, sc, InitialView(p, platform), c)
    ensures CertainBy(p, sc, c, NextKey(p, {}, ByLatest, {Gang}))
    ensures CertainBy(p, sc, c, NextKey(p, {}, ByLatest, {MutexSource}))
  {
    hide CertainBy;
  }
}
