// What a schedule state records, which configurations it covers, and the
// formulas by which the exploration decides what may be dispatched next.
module Abstraction {
  import opened Times
  import opened Counting
  import opened Jobs
  import opened Workload
  import opened Scheduler
  import opened CoreAvailability
  import opened RunningJobs
  import opened PendingSuccessors

  /** Everything a schedule state records. */
  datatype View = View(
    cores: seq<Interval>,
    running: seq<Running>,
    starts: map<nat, Interval>,
    finishes: map<nat, Interval>,
    certainSuccessor: Bound,   // by then a ready successor job can certainly be started
    certainGang: Bound,        // the same for an independent gang job
    certainMutex: Bound,       // the same for a source job with exclusion constraints
    lowest: Option<nat>        // no job of lower priority than this one is dispatched next
  )

  // ---- Coverage ----

  ghost predicate TimesCover(known: map<nat, Interval>, times: map<nat, int>) {
    forall q :: q in known ==> q in times && known[q].Has(times[q])
  }

  /** Some undispatched job can be started once the bound is reached. */
  ghost predicate CertainBy(p: Problem, sc: Scenario, c: Config, b: Bound) {
    b.Fin? ==> exists k :: Startable(p, sc, c, k, b.t)
  }

  /** Whenever a core is free, some job of at least the priority of `b` can be started. */
  ghost predicate LowestHolds(p: Problem, sc: Scenario, c: Config, b: Option<nat>) {
    b.Some? ==>
      && p.IsJob(b.value)
      && forall t :: c.now <= t && FreeAt(c, t) >= 1 ==>
           exists k :: Startable(p, sc, c, k, t) && !PriorTo(p, b.value, k)
  }

  /** A state covers a configuration when everything it records is true of it. */
  ghost predicate Covers(p: Problem, sc: Scenario, s: View, c: Config) {
    && CoresCover(s.cores, c)
    && RunningCover(s.running, c)
    && TimesCover(s.starts, c.start)
    && TimesCover(s.finishes, c.finish)
    && CertainBy(p, sc, c, s.certainSuccessor)
    && CertainBy(p, sc, c, s.certainGang)
    && CertainBy(p, sc, c, s.certainMutex)
    && LowestHolds(p, sc, c, s.lowest)
  }

  // ---- Invariants of a state, given the set of dispatched jobs ----

  ghost predicate IntervalsOk(known: map<nat, Interval>) {
    forall q :: q in known ==> known[q].Ok()
  }

  /** The recorded jobs are precisely those whose times still matter. */
  ghost predicate KeysExact(p: Problem, kind: ConstraintType, scheduled: set<nat>, known: map<nat, Interval>) {
    forall q :: q in known <==> q in scheduled && Live(p, q, kind, scheduled)
  }

  ghost predicate CoresInvariant(p: Problem, scheduled: set<nat>, s: View) {
    && |s.cores| == p.m
    && WellFormed(s.cores)
    && Conserved(s.cores, s.running)
    && SortedByJob(s.running)
    && (forall i :: 0 <= i < |s.running| ==> s.running[i].job in scheduled)
  }

  ghost predicate TimesInvariant(p: Problem, scheduled: set<nat>, s: View) {
    && KeysExact(p, StartConstraints, scheduled, s.starts)
    && KeysExact(p, FinishConstraints, scheduled, s.finishes)
    && IntervalsOk(s.starts) && IntervalsOk(s.finishes)
    // on one core, everything dispatched has finished before the core can be free again
    && (|s.cores| == 1 ==> forall q :: q in s.finishes ==> s.finishes[q].min <= s.cores[0].min)
  }

  ghost predicate StateInvariant(p: Problem, scheduled: set<nat>, s: View) {
    && CoresInvariant(p, scheduled, s)
    && TimesInvariant(p, scheduled, s)
    && (s.lowest.Some? ==> p.IsJob(s.lowest.value))
  }

  // ---- Ready times ----

  /** Latest of `acc` and the earliest times at which the first `n` constraints of a list can be over. */
  function EarliestOver(list: seq<Delay>, known: map<nat, Interval>, acc: int, n: nat): int
    requires n <= |list|
  {
    if n == 0 then acc
    else
      var r := EarliestOver(list, known, acc, n - 1);
      var d := list[n - 1];
      if d.ref in known then Max(r, known[d.ref].min + d.delay.min) else r
  }

  /** Latest of `acc` and the latest times at which the first `n` constraints of a list are over. */
  function LatestOver(list: seq<Delay>, known: map<nat, Interval>, acc: int, n: nat): int
    requires n <= |list|
  {
    if n == 0 then acc
    else
      var r := LatestOver(list, known, acc, n - 1);
      var d := list[n - 1];
      if d.ref in known then Max(r, known[d.ref].max + d.delay.max) else r
  }

  /** The interval in which `j` becomes ready. */
  function ReadyTimes(p: Problem, s: View, j: nat): Interval
    requires p.IsJob(j)
  {
    var c := p.cons[j];
    var lo1 := EarliestOver(c.predStart, s.starts, p.jobs[j].arrival.min, |c.predStart|);
    var lo2 := EarliestOver(c.exclStart, s.starts, lo1, |c.exclStart|);
    var lo3 := EarliestOver(c.predFinish, s.finishes, lo2, |c.predFinish|);
    var hi1 := LatestOver(c.predStart, s.starts, p.jobs[j].arrival.max, |c.predStart|);
    var hi2 := LatestOver(c.exclStart, s.starts, hi1, |c.exclStart|);
    var hi3 := LatestOver(c.predFinish, s.finishes, hi2, |c.predFinish|);
    Interval(EarliestOver(c.exclFinish, s.finishes, lo3, |c.exclFinish|),
             LatestOver(c.exclFinish, s.finishes, hi3, |c.exclFinish|))
  }

  lemma {:induction false} EarliestOverSound(sc: Scenario, kind: Kind, j: nat, list: seq<Delay>, known: map<nat,
                                             Interval>,
                                             times: map<nat, int>, acc: int, n: nat, t: int)
    requires n <= |list| && acc <= t
    requires DelaysWithin(sc, kind, j, list) && TimesCover(known, times) && Elapsed(sc, kind, j, list, times, t)
    ensures EarliestOver(list, known, acc, n) <= t
  {
    if n > 0 {
      EarliestOverSound(sc, kind, j, list, known, times, acc, n - 1, t);
      var i := n - 1;
      assert list[i].delay.Has(sc.delay(kind, j, i));
    }
  }

  /** A job is never ready before its earliest ready time. */
  lemma ReadyTimesEarliest(p: Problem, sc: Scenario, s: View, c: Config, j: nat, t: int)
    requires p.IsJob(j) && ValidScenario(p, sc) && TimesCover(s.starts, c.start) && TimesCover(s.finishes, c.finish)
    requires ReadyBy(p, sc, c, j, t)
    ensures ReadyTimes(p, s, j).min <= t
  {
    var k := p.cons[j];
    var lo := p.jobs[j].arrival.min;
    EarliestOverSound(sc, PredStart, j, k.predStart, s.starts, c.start, lo, |k.predStart|, t);
    lo := EarliestOver(k.predStart, s.starts, lo, |k.predStart|);
    EarliestOverSound(sc, ExclStart, j, k.exclStart, s.starts, c.start, lo, |k.exclStart|, t);
    lo := EarliestOver(k.exclStart, s.starts, lo, |k.exclStart|);
    EarliestOverSound(sc, PredFinish, j, k.predFinish, s.finishes, c.finish, lo, |k.predFinish|, t);
    lo := EarliestOver(k.predFinish, s.finishes, lo, |k.predFinish|);
    EarliestOverSound(sc, ExclFinish, j, k.exclFinish, s.finishes, c.finish, lo, |k.exclFinish|, t);
  }

  /** Every dispatched job that a list refers to is recorded. */
  ghost predicate Recorded(list: seq<Delay>, known: map<nat, Interval>, times: map<nat, int>) {
    forall i :: 0 <= i < |list| && list[i].ref in times ==> list[i].ref in known
  }

  lemma {:induction false} LatestOverBound(list: seq<Delay>, known: map<nat, Interval>, acc: int, n: nat, i: nat)
    requires n <= |list|
    ensures acc <= LatestOver(list, known, acc, n)
    ensures i < n && list[i].ref in known ==> known[list[i].ref].max + list[i].delay.max <= LatestOver(list, known,
        acc, n)
  {
    if n > 0 {
      LatestOverBound(list, known, acc, n - 1, i);
    }
  }

  lemma LatestOverSound(sc: Scenario, kind: Kind, j: nat, list: seq<Delay>, known: map<nat, Interval>,
                        times: map<nat, int>, acc: int, t: int)
    requires DelaysWithin(sc, kind, j, list) && TimesCover(known, times) && Recorded(list, known, times)
    requires kind.PredStart? || kind.PredFinish? ==> forall i :: 0 <= i < |list| ==> list[i].ref in times
    requires LatestOver(list, known, acc, |list|) <= t
    ensures acc <= t && Elapsed(sc, kind, j, list, times, t)
  {
    LatestOverBound(list, known, acc, |list|, 0);
    forall i: nat | i < |list| && list[i].ref in times
      ensures times[list[i].ref] + sc.delay(kind, j, i) <= t
    {
      assert list[i].delay.Has(sc.delay(kind, j, i));
      LatestOverBound(list, known, acc, |list|, i);
    }
  }

  /** All times that the constraints of an undispatched job refer to are recorded. */
  lemma AllRecorded(p: Problem, scheduled: set<nat>, s: View, j: nat)
    requires ValidProblem(p) && p.IsJob(j) && j !in scheduled
    requires KeysExact(p, StartConstraints, scheduled, s.starts)
        && KeysExact(p, FinishConstraints, scheduled, s.finishes)
    ensures forall i :: 0 <= i < |p.cons[j].predStart| && p.cons[j].predStart[i].ref in scheduled ==>
              p.cons[j].predStart[i].ref in s.starts
    ensures forall i :: 0 <= i < |p.cons[j].exclStart| && p.cons[j].exclStart[i].ref in scheduled ==>
              p.cons[j].exclStart[i].ref in s.starts
    ensures forall i :: 0 <= i < |p.cons[j].predFinish| && p.cons[j].predFinish[i].ref in scheduled ==>
              p.cons[j].predFinish[i].ref in s.finishes
    ensures forall i :: 0 <= i < |p.cons[j].exclFinish| && p.cons[j].exclFinish[i].ref in scheduled ==>
              p.cons[j].exclFinish[i].ref in s.finishes
  {
    assert ValidConstraints(p.cons[j], |p.jobs|);
    var c := p.cons[j];
    forall i | 0 <= i < |c.predStart| && c.predStart[i].ref in scheduled
      ensures c.predStart[i].ref in s.starts
    {
      ConstraintIsLive(p, scheduled, j, c.predStart[i].ref);
    }
    forall i | 0 <= i < |c.exclStart| && c.exclStart[i].ref in scheduled
      ensures c.exclStart[i].ref in s.starts
    {
      ConstraintIsLive(p, scheduled, j, c.exclStart[i].ref);
    }
    forall i | 0 <= i < |c.predFinish| && c.predFinish[i].ref in scheduled
      ensures c.predFinish[i].ref in s.finishes
    {
      ConstraintIsLive(p, scheduled, j, c.predFinish[i].ref);
    }
    forall i | 0 <= i < |c.exclFinish| && c.exclFinish[i].ref in scheduled
      ensures c.exclFinish[i].ref in s.finishes
    {
      ConstraintIsLive(p, scheduled, j, c.exclFinish[i].ref);
    }
  }

  /** A dispatched job that an undispatched job refers to is pending. */
  lemma ConstraintIsLive(p: Problem, scheduled: set<nat>, j: nat, q: nat)
    requires ValidProblem(p) && p.IsJob(j) && p.IsJob(q) && j !in scheduled
    ensures Refers(p.cons[j].predStart, q) || Refers(p.cons[j].exclStart, q) ==> Live(p, q, StartConstraints, scheduled)
    ensures Refers(p.cons[j].predFinish, q) || Refers(p.cons[j].exclFinish, q) ==> Live(p, q, FinishConstraints,
        scheduled)
  {
    assert Refers(p.cons[q].succStart, j) <==> Refers(p.cons[j].predStart, q);
    assert Refers(p.cons[q].succFinish, j) <==> Refers(p.cons[j].predFinish, q);
    assert Refers(p.cons[q].exclStart, j) <==> Refers(p.cons[j].exclStart, q);
    assert Refers(p.cons[q].exclFinish, j) <==> Refers(p.cons[j].exclFinish, q);
  }

  /** A job whose predecessors have been dispatched is ready from its latest ready time on. */
  lemma ReadyTimesLatest(p: Problem, sc: Scenario, scheduled: set<nat>, s: View, c: Config, j: nat, t: int)
    requires ValidProblem(p) && p.IsJob(j) && j !in scheduled && PredsIn(p, j, scheduled) && ValidScenario(p, sc)
    requires c.start.Keys == c.finish.Keys == scheduled && StateInvariant(p, scheduled, s)
    requires TimesCover(s.starts, c.start) && TimesCover(s.finishes, c.finish)
    requires ReadyTimes(p, s, j).max <= t
    ensures ReadyBy(p, sc, c, j, t)
  {
    AllRecorded(p, scheduled, s, j);
    var k := p.cons[j];
    var h0 := p.jobs[j].arrival.max;
    var h1 := LatestOver(k.predStart, s.starts, h0, |k.predStart|);
    var h2 := LatestOver(k.exclStart, s.starts, h1, |k.exclStart|);
    var h3 := LatestOver(k.predFinish, s.finishes, h2, |k.predFinish|);
    LatestOverSound(sc, ExclFinish, j, k.exclFinish, s.finishes, c.finish, h3, t);
    LatestOverSound(sc, PredFinish, j, k.predFinish, s.finishes, c.finish, h2, t);
    LatestOverSound(sc, ExclStart, j, k.exclStart, s.starts, c.start, h1, t);
    LatestOverSound(sc, PredStart, j, k.predStart, s.starts, c.start, h0, t);
  }

  lemma {:induction false} OverOrdered(list: seq<Delay>, known: map<nat, Interval>, a: int, b: int, n: nat, size: nat)
    requires n <= |list| && a <= b && IntervalsOk(known) && ValidList(list, size)
    ensures a <= EarliestOver(list, known, a, n) <= LatestOver(list, known, b, n)
  {
    if n > 0 {
      OverOrdered(list, known, a, b, n - 1, size);
    }
  }

  lemma ReadyTimesOk(p: Problem, s: View, j: nat)
    requires ValidProblem(p) && p.IsJob(j) && IntervalsOk(s.starts) && IntervalsOk(s.finishes)
    ensures ReadyTimes(p, s, j).Ok() && p.jobs[j].arrival.min <= ReadyTimes(p, s, j).min
  {
    var c := p.cons[j];
    assert ValidConstraints(c, |p.jobs|) && ValidJob(p.jobs[j], p.m);
    var n := |p.jobs|;
    var a0, b0 := p.jobs[j].arrival.min, p.jobs[j].arrival.max;
    OverOrdered(c.predStart, s.starts, a0, b0, |c.predStart|, n);
    var a1, b1 := EarliestOver(c.predStart, s.starts, a0, |c.predStart|),
        LatestOver(c.predStart, s.starts, b0, |c.predStart|);
    OverOrdered(c.exclStart, s.starts, a1, b1, |c.exclStart|, n);
    var a2, b2 := EarliestOver(c.exclStart, s.starts, a1, |c.exclStart|),
        LatestOver(c.exclStart, s.starts, b1, |c.exclStart|);
    OverOrdered(c.predFinish, s.finishes, a2, b2, |c.predFinish|, n);
    var a3, b3 := EarliestOver(c.predFinish, s.finishes, a2, |c.predFinish|),
        LatestOver(c.predFinish, s.finishes, b2, |c.predFinish|);
    OverOrdered(c.exclFinish, s.finishes, a3, b3, |c.exclFinish|, n);
  }
}
