// How tight the bounds of a dispatch are: each of them is reached exactly when the recorded intervals say so.
module Tightness {
  import opened Times
  import opened Counting
  import opened Jobs
  import opened Workload
  import opened Scheduler
  import opened CoreAvailability
  import opened RunningJobs
  import opened JobTiming
  import opened PendingSuccessors
  import opened ReadyJobs
  import opened Abstraction
  import opened LatestReady
  import opened NextDispatch
  import opened PriorityPruning
  import opened NextState

  // ---- Cores ----

  /** `n` cores are free at `t` in every configuration that the vector covers. */
  ghost predicate CertainlyFree(cores: seq<Interval>, n: nat, t: int) {
    forall c: Config :: CoresCover(cores, c) ==> FreeAt(c, t) >= n
  }

  /** The configuration in which every core becomes available as late as the vector allows. */
  function LatestFree(cores: seq<Interval>): Config {
    Config(seq(|cores|, i requires 0 <= i < |cores| => Core(None, cores[i].max)), 0, map[], map[])
  }

  lemma LatestFreeCovered(cores: seq<Interval>, t: int)
    requires WellFormed(cores)
    ensures CoresCover(cores, LatestFree(cores)) && FreeAt(LatestFree(cores), t) == Below(Maxs(cores), t)
  {
    assert FreeTimes(LatestFree(cores).cores) == Maxs(cores);
    forall x
      ensures Below(Maxs(cores), x) <= Below(Mins(cores), x)
    {
      BelowPointwise(Mins(cores), Maxs(cores), x);
    }
  }

  /** The latest availability of the `n`-th core is when `n` cores are certainly free. */
  lemma CertainlyFreeExact(cores: seq<Interval>, n: nat, t: int)
    requires WellFormed(cores) && 1 <= n <= |cores|
    ensures cores[n - 1].max <= t <==> CertainlyFree(cores, n, t)
  {
    hide WellFormed, CoresCover, FreeAt;
    if cores[n - 1].max <= t {
      forall c: Config | CoresCover(cores, c)
        ensures FreeAt(c, t) >= n
      {
        AvailableBy(cores, c, n, t);
      }
    }
    if CertainlyFree(cores, n, t) {
      LatestFreeCovered(cores, t);
      CountedBelow(cores, n, t);
    }
  }

  lemma CountedBelow(cores: seq<Interval>, n: nat, t: int)
    requires WellFormed(cores) && 1 <= n <= |cores| && Below(Maxs(cores), t) >= n
    ensures cores[n - 1].max <= t
  {
    SortedBelow(Maxs(cores), t, n - 1);
  }

  /** A job is kept from running at a level exactly when the cores of the next level are certainly free. */
  lemma ParallelismExact(p: Problem, s: View, j: nat, level: nat, t: int)
    requires ValidProblem(p) && p.IsJob(j) && level < |p.jobs[j].levels| && |s.cores| == p.m && WellFormed(s.cores)
    ensures Reached(ParallelismBound(p, s, j, level), t) <==>
              level + 1 < |p.jobs[j].levels| && CertainlyFree(s.cores, p.jobs[j].levels[level + 1].cores, t)
  {
    hide WellFormed, CertainlyFree;
    if level + 1 < |p.jobs[j].levels| {
      LevelOnPlatform(p, j, level + 1);
      CertainlyFreeExact(s.cores, p.jobs[j].levels[level + 1].cores, t);
    }
  }

  // ---- Ready times ----

  /** By `t` all recorded constraints of a list are certainly over. */
  ghost predicate CertainlyOver(list: seq<Delay>, known: map<nat, Interval>, t: int) {
    forall i :: 0 <= i < |list| && list[i].ref in known ==> known[list[i].ref].max + list[i].delay.max <= t
  }

  /** By `t` all recorded constraints of a list may be over. */
  ghost predicate PossiblyOver(list: seq<Delay>, known: map<nat, Interval>, t: int) {
    forall i :: 0 <= i < |list| && list[i].ref in known ==> known[list[i].ref].min + list[i].delay.min <= t
  }

  lemma {:induction false} OverExact(list: seq<Delay>, known: map<nat, Interval>, acc: int, n: nat, t: int)
    requires n <= |list|
    ensures LatestOver(list, known, acc, n) <= t <==> acc <= t && CertainlyOver(list[..n], known, t)
    ensures EarliestOver(list, known, acc, n) <= t <==> acc <= t && PossiblyOver(list[..n], known, t)
  {
    if n > 0 {
      OverExact(list, known, acc, n - 1, t);
      assert list[..n] == list[..n - 1] + [list[n - 1]];
    }
  }

  lemma AllOverExact(list: seq<Delay>, known: map<nat, Interval>, acc: int, t: int)
    ensures LatestOver(list, known, acc, |list|) <= t <==> acc <= t && CertainlyOver(list, known, t)
    ensures EarliestOver(list, known, acc, |list|) <= t <==> acc <= t && PossiblyOver(list, known, t)
  {
    assert list[..|list|] == list;
    OverExact(list, known, acc, |list|, t);
  }

  /** The ready times are the first time at which all that is recorded may allow the job to be ready, and the first
      time at which it certainly does. */
  lemma ReadyTimesExact(p: Problem, s: View, j: nat, t: int)
    requires p.IsJob(j)
    ensures var c := p.cons[j];
            ReadyTimes(p, s, j).min <= t <==>
              && p.jobs[j].arrival.min <= t
              && PossiblyOver(c.predStart, s.starts, t) && PossiblyOver(c.exclStart, s.starts, t)
              && PossiblyOver(c.predFinish, s.finishes, t) && PossiblyOver(c.exclFinish, s.finishes, t)
    ensures ReadyTimes(p, s, j).max <= t <==> CertainlyReadyBy(p, s, j, t)
  {
    hide PossiblyOver, CertainlyOver, EarliestOver, LatestOver;
    var c, lo, hi := p.cons[j], p.jobs[j].arrival.min, p.jobs[j].arrival.max;
    AllOverExact(c.predStart, s.starts, lo, t);
    AllOverExact(c.predStart, s.starts, hi, t);
    lo := EarliestOver(c.predStart, s.starts, lo, |c.predStart|);
    hi := LatestOver(c.predStart, s.starts, hi, |c.predStart|);
    AllOverExact(c.exclStart, s.starts, lo, t);
    AllOverExact(c.exclStart, s.starts, hi, t);
    lo := EarliestOver(c.exclStart, s.starts, lo, |c.exclStart|);
    hi := LatestOver(c.exclStart, s.starts, hi, |c.exclStart|);
    AllOverExact(c.predFinish, s.finishes, lo, t);
    AllOverExact(c.predFinish, s.finishes, hi, t);
    lo := EarliestOver(c.predFinish, s.finishes, lo, |c.predFinish|);
    hi := LatestOver(c.predFinish, s.finishes, hi, |c.predFinish|);
    AllOverExact(c.exclFinish, s.finishes, lo, t);
    AllOverExact(c.exclFinish, s.finishes, hi, t);
  }

  /** By `t` the job has been released, and all its recorded constraints are certainly over. */
  ghost predicate CertainlyReadyBy(p: Problem, s: View, j: nat, t: int)
    requires p.IsJob(j)
  {
    var c := p.cons[j];
    && p.jobs[j].arrival.max <= t
    && CertainlyOver(c.predStart, s.starts, t) && CertainlyOver(c.exclStart, s.starts, t)
    && CertainlyOver(c.predFinish, s.finishes, t) && CertainlyOver(c.exclFinish, s.finishes, t)
  }

  // ---- Ready times when a job of lower priority is dispatched next ----

  /** A job with the constraints `a` and `b` waits for at least `d` time units after `q`. */
  ghost predicate WaitsAtLeast(a: seq<Delay>, b: seq<Delay>, q: nat, d: int) {
    && (Refers(a, q) || Refers(b, q))
    && (forall i :: 0 <= i < |a| && a[i].ref == q ==> d <= a[i].delay.min)
    && (forall i :: 0 <= i < |b| && b[i].ref == q ==> d <= b[i].delay.min)
  }

  lemma WaitsAtLeastExact(a: seq<Delay>, b: seq<Delay>, q: nat, d: int, n: nat)
    requires ValidList(a, n) && ValidList(b, n)
    ensures MinDelayAmong(a, b, q) != -1 && MinDelayAmong(a, b, q) >= d <==> WaitsAtLeast(a, b, q, d)
  {
    MinDelayInExact(a, q, n);
    MinDelayInExact(b, q, n);
  }

  /** Why a constraint with the start of `q` is over when `low` is dispatched: it imposes no delay, or `low` itself
      waits for as long after `q`. */
  ghost predicate StartPassed(p: Problem, low: JobConstraints, q: nat, d: int, precedence: bool)
    requires p.IsJob(q)
  {
    || (precedence && d == 0)
    || WaitsAtLeast(low.predStart, low.exclStart, q, d)
    || WaitsAtLeast(low.predFinish, low.exclFinish, q, d - p.jobs[q].bcet)
  }

  /** Why a constraint with the completion of `q` is over when `low` is dispatched: it imposes no delay and `q` has
      certainly finished (there is one core, `q` finishes before a second core is available, or a job that waits for
      `q` has been dispatched), or `low` itself waits for as long after `q`. */
  ghost predicate FinishPassed(p: Problem, scheduled: set<nat>, s: View, low: JobConstraints, q: nat, d: int)
    requires p.IsJob(q) && |s.cores| == p.m && q in s.finishes
  {
    || (d == 0 && (p.m <= 1 || s.finishes[q].max < s.cores[1].min
        || exists k: nat :: k in scheduled && Refers(p.cons[q].succFinish, k)))
    || WaitsAtLeast(low.predFinish, low.exclFinish, q, d)
    || WaitsAtLeast(low.predStart, low.exclStart, q, d + p.jobs[q].wcet)
  }

  ghost predicate StartsOver(p: Problem, s: View, low: JobConstraints, list: seq<Delay>, precedence: bool, t: int)
    requires ValidList(list, |p.jobs|) && |p.cons| == |p.jobs|
  {
    forall i :: 0 <= i < |list| && list[i].ref in s.starts ==>
      StartPassed(p, low, list[i].ref, list[i].delay.max, precedence)
        || s.starts[list[i].ref].max + list[i].delay.max <= t
  }

  ghost predicate FinishesOver(p: Problem, scheduled: set<nat>, s: View, low: JobConstraints, list: seq<Delay>, t: int)
    requires ValidList(list, |p.jobs|) && |p.cons| == |p.jobs| && |s.cores| == p.m
  {
    forall i :: 0 <= i < |list| && list[i].ref in s.finishes ==>
      FinishPassed(p, scheduled, s, low, list[i].ref, list[i].delay.max)
        || s.finishes[list[i].ref].max + list[i].delay.max <= t
  }

  lemma StartPassedExact(p: Problem, low: nat, q: nat, d: int, precedence: bool)
    requires ValidProblem(p) && p.IsJob(low) && p.IsJob(q)
    ensures SkipStart(p, p.cons[low], q, d, precedence) <==> StartPassed(p, p.cons[low], q, d, precedence)
  {
    var c := p.cons[low];
    assert ValidConstraints(c, |p.jobs|);
    hide ValidProblem, WaitsAtLeast;
    WaitsAtLeastExact(c.predStart, c.exclStart, q, d, |p.jobs|);
    WaitsAtLeastExact(c.predFinish, c.exclFinish, q, d - p.jobs[q].bcet, |p.jobs|);
  }

  lemma FinishPassedExact(p: Problem, scheduled: set<nat>, s: View, low: nat, q: nat, d: int)
    requires ValidProblem(p) && p.IsJob(low) && p.IsJob(q) && |s.cores| == p.m && q in s.finishes
    ensures SkipFinish(p, scheduled, s, p.cons[low], q, s.finishes[q], d) <==>
              FinishPassed(p, scheduled, s, p.cons[low], q, d)
  {
    var c := p.cons[low];
    assert ValidConstraints(c, |p.jobs|);
    hide ValidProblem, WaitsAtLeast;
    WaitsAtLeastExact(c.predFinish, c.exclFinish, q, d, |p.jobs|);
    WaitsAtLeastExact(c.predStart, c.exclStart, q, d + p.jobs[q].wcet, |p.jobs|);
  }

  lemma {:induction false} StartsDueExact(p: Problem, s: View, low: nat, list: seq<Delay>, precedence: bool, acc: int,
                                          n: nat, t: int)
    requires ValidProblem(p) && p.IsJob(low) && n <= |list| && ValidList(list, |p.jobs|)
    ensures StartsDue(p, s, p.cons[low], list, precedence, acc, n) <= t <==>
              acc <= t && StartsOver(p, s, p.cons[low], list[..n], precedence, t)
  {
    assert |p.cons| == |p.jobs|;
    hide ValidProblem, StartPassed, SkipStart;
    if n > 0 {
      StartsDueExact(p, s, low, list, precedence, acc, n - 1, t);
      StartPassedExact(p, low, list[n - 1].ref, list[n - 1].delay.max, precedence);
      assert list[..n] == list[..n - 1] + [list[n - 1]];
    }
  }

  lemma {:induction false} FinishesDueExact(p: Problem, scheduled: set<nat>, s: View, low: nat, list: seq<Delay>,
                                            acc: int, n: nat, t: int)
    requires ValidProblem(p) && p.IsJob(low) && n <= |list| && ValidList(list, |p.jobs|) && |s.cores| == p.m
    ensures FinishesDue(p, scheduled, s, p.cons[low], list, acc, n) <= t <==>
              acc <= t && FinishesOver(p, scheduled, s, p.cons[low], list[..n], t)
  {
    assert |p.cons| == |p.jobs|;
    hide ValidProblem, FinishPassed, SkipFinish;
    if n > 0 {
      FinishesDueExact(p, scheduled, s, low, list, acc, n - 1, t);
      var d := list[n - 1];
      if d.ref in s.finishes {
        FinishPassedExact(p, scheduled, s, low, d.ref, d.delay.max);
      }
      assert list[..n] == list[..n - 1] + [list[n - 1]];
    }
  }

  /** At `t`, when `low` is dispatched on `used` cores, `high` certainly takes precedence. */
  ghost predicate TakesPrecedence(p: Problem, scheduled: set<nat>, s: View, high: nat, low: nat, used: nat, t: int)
    requires ValidProblem(p) && p.IsJob(high) && p.IsJob(low) && |s.cores| == p.m
  {
    assert ValidConstraints(p.cons[high], |p.jobs|);
    assert ValidJob(p.jobs[high], p.m);
    var h, l, n := p.cons[high], p.cons[low], p.jobs[high].MinCores();
    && p.jobs[high].arrival.max <= t && (n > used ==> s.cores[n - 1].max <= t)
    && StartsOver(p, s, l, h.predStart, true, t) && StartsOver(p, s, l, h.exclStart, false, t)
    && FinishesOver(p, scheduled, s, l, h.predFinish, t) && FinishesOver(p, scheduled, s, l, h.exclFinish, t)
  }

  /** The conditional latest ready time is the first time by which the job is released, has its cores, and every
      recorded constraint is over or has passed for one of the reasons above. */
  lemma ConditionalLatestReadyExact(p: Problem, scheduled: set<nat>, s: View, high: nat, low: nat, used: nat, t: int)
    requires ValidProblem(p) && p.IsJob(high) && p.IsJob(low) && |s.cores| == p.m
    ensures ConditionalLatestReady(p, scheduled, s, high, low, used) <= t <==>
              TakesPrecedence(p, scheduled, s, high, low, used, t)
  {
    assert ValidConstraints(p.cons[high], |p.jobs|);
    assert ValidJob(p.jobs[high], p.m);
    hide ValidProblem, StartsOver, FinishesOver, StartsDue, FinishesDue, ValidList;
    var h, l, n := p.cons[high], p.cons[low], p.jobs[high].MinCores();
    assert h.predStart[..|h.predStart|] == h.predStart && h.exclStart[..|h.exclStart|] == h.exclStart;
    assert h.predFinish[..|h.predFinish|] == h.predFinish && h.exclFinish[..|h.exclFinish|] == h.exclFinish;
    var r := p.jobs[high].arrival.max;
    r := if n > used then Max(r, s.cores[n - 1].max) else r;
    StartsDueExact(p, s, low, h.predStart, true, r, |h.predStart|, t);
    r := StartsDue(p, s, l, h.predStart, true, r, |h.predStart|);
    StartsDueExact(p, s, low, h.exclStart, false, r, |h.exclStart|, t);
    r := StartsDue(p, s, l, h.exclStart, false, r, |h.exclStart|);
    FinishesDueExact(p, scheduled, s, low, h.predFinish, r, |h.predFinish|, t);
    r := FinishesDue(p, scheduled, s, l, h.predFinish, r, |h.predFinish|);
    FinishesDueExact(p, scheduled, s, low, h.exclFinish, r, |h.exclFinish|, t);
  }

  // ---- The bounds of a dispatch ----

  /** The rival formulas of all four categories say when the job takes precedence. */
  lemma RivalTimeExact(p: Problem, scheduled: set<nat>, s: View, j: nat, used: nat, k: nat, t: int)
    requires ValidProblem(p) && p.IsJob(j) && p.IsJob(k) && |s.cores| == p.m && used >= 1
    ensures RivalTime(p, scheduled, s, j, used, k) <= t <==> TakesPrecedence(p, scheduled, s, k, j, used, t)
  {
    ConditionalLatestReadyExact(p, scheduled, s, k, j, used, t);
    assert ValidJob(p.jobs[k], p.m);
    hide ValidProblem;
  }

  /** Some job of a category that may be the next one takes precedence over `j` at `t`. */
  ghost predicate SomePrecedes(p: Problem, scheduled: set<nat>, s: View, j: nat, used: nat, cat: Category, t: int)
    requires ValidProblem(p) && p.IsJob(j) && |s.cores| == p.m
  {
    exists k: nat ::
      InCategory(p, scheduled, cat, k) && PriorTo(p, k, j) && TakesPrecedence(p, scheduled, s, k, j, used, t)
  }

  lemma CategoryExact(p: Problem, scheduled: set<nat>, s: View, j: nat, used: nat, cat: Category, t: int)
    requires ValidProblem(p) && p.IsJob(j) && |s.cores| == p.m && used >= 1
    ensures Reached(Rival(p, scheduled, s, j, used, cat), t) <==> SomePrecedes(p, scheduled, s, j, used, cat, t)
  {
    NextRivalExact(p, scheduled, s, j, used, cat, |p.jobs|);
    forall k: nat | p.IsJob(k)
      ensures RivalTime(p, scheduled, s, j, used, k) <= t <==> TakesPrecedence(p, scheduled, s, k, j, used, t)
    {
      RivalTimeExact(p, scheduled, s, j, used, k, t);
    }
    hide ValidProblem, TakesPrecedence, RivalTime, InCategory, NextRival;
    if k: nat :|
        InCategory(p, scheduled, cat, k) && PriorTo(p, k, j) && TakesPrecedence(p, scheduled, s, k, j, used, t) {
      assert LeB(NextRival(p, scheduled, s, j, used, cat, |p.jobs|), RivalBound(p, scheduled, s, j, used, cat, k));
    }
  }

  /** A job is kept from starting at `t` exactly when some job of higher priority certainly takes precedence then. */
  lemma PriorityExact(p: Problem, scheduled: set<nat>, s: View, j: nat, used: nat, t: int)
    requires ValidProblem(p) && p.IsJob(j) && |s.cores| == p.m && used >= 1
    ensures Reached(PriorityBound(p, scheduled, s, j, used), t) <==>
              exists k: nat :: Eligible(p, scheduled, k) && PriorTo(p, k, j)
                               && TakesPrecedence(p, scheduled, s, k, j, used, t)
  {
    hide TakesPrecedence, Rival, ValidProblem;
    CategoryExact(p, scheduled, s, j, used, Sequential, t);
    CategoryExact(p, scheduled, s, j, used, Gang, t);
    CategoryExact(p, scheduled, s, j, used, MutexSource, t);
    CategoryExact(p, scheduled, s, j, used, Successor, t);
    if k: nat :| Eligible(p, scheduled, k) && PriorTo(p, k, j) && TakesPrecedence(p, scheduled, s, k, j, used, t) {
      KindOf(p, scheduled, k);
      assert SomePrecedes(p, scheduled, s, j, used, CategoryOf(p, k), t);
    }
  }

  lemma KindOf(p: Problem, scheduled: set<nat>, k: nat)
    requires ValidProblem(p) && Eligible(p, scheduled, k)
    ensures |p.jobs[k].levels| > 0 && InCategory(p, scheduled, CategoryOf(p, k), k)
  {
    assert ValidJob(p.jobs[k], p.m);
  }

  // ---- The work-conserving bound ----

  /** The scheduler may be idle until `t`: no core is certainly free before, or no job that may be the next one
      certainly has its cores and is ready before. */
  ghost predicate MayIdle(p: Problem, scheduled: set<nat>, s: View, t: int)
    requires ValidProblem(p) && |s.cores| == p.m
  {
    || t <= s.cores[0].max
    || forall k: nat :: Eligible(p, scheduled, k) ==> t <= ReadyTimes(p, s, k).max || t <= CoresBy(p, s.cores, k)
  }

  lemma CertainExact(p: Problem, scheduled: set<nat>, s: View, cat: Category, t: int)
    requires ValidProblem(p) && |s.cores| == p.m
    ensures LeB(Fin(t), Certain(p, scheduled, s, cat)) <==>
              forall k: nat :: InCategory(p, scheduled, cat, k) ==> t <= CertainTime(p, s, k)
  {
    NextCertainExact(p, scheduled, s, cat, |p.jobs|);
    hide ValidProblem, InCategory, CertainTime, NextCertain;
    var b := Certain(p, scheduled, s, cat);
    forall k: nat | InCategory(p, scheduled, cat, k)
      ensures p.IsJob(k) && LeB(b, Fin(CertainTime(p, s, k)))
    {
      InCategoryIsJob(p, scheduled, cat, k);
      assert LeB(b, CertainBound(p, scheduled, s, cat, k));
    }
    if b.Fin? {
      var k: nat :| k < |p.jobs| && CertainBound(p, scheduled, s, cat, k) == b;
      assert InCategory(p, scheduled, cat, k);
    }
  }

  lemma InCategoryIsJob(p: Problem, scheduled: set<nat>, cat: Category, k: nat)
    requires ValidProblem(p) && InCategory(p, scheduled, cat, k)
    ensures p.IsJob(k) && Eligible(p, scheduled, k)
  {
  }

  /** When a job is certainly started, on cores that are not available before `t`. */
  lemma CertainTimeExact(p: Problem, scheduled: set<nat>, s: View, k: nat, t: int)
    requires ValidProblem(p) && Eligible(p, scheduled, k) && |s.cores| == p.m && s.cores[0].max < t
    ensures t <= CertainTime(p, s, k) <==> t <= ReadyTimes(p, s, k).max || t <= CoresBy(p, s.cores, k)
  {
    assert ValidJob(p.jobs[k], p.m);
    hide ValidProblem;
  }

  /** In a state that results from a dispatch, the work-conserving bound is the last time until which the scheduler
      may be idle. */
  lemma WorkConservingExact(p: Problem, scheduled: set<nat>, ready: seq<nat>, v: View, t: int)
    requires ValidProblem(p) && |v.cores| == p.m && AllJobs(p, ready)
    ensures var w := Concluded(p, scheduled, ready, v);
            LeB(Fin(t), WorkConservingBound(p, scheduled, w)) <==> MayIdle(p, scheduled, w, t)
  {
    hide ValidJob, CertainBound, Problem.IsJob;
    var w := Concluded(p, scheduled, ready, v);
    forall cat: Category
      ensures Certain(p, scheduled, w, cat) == Certain(p, scheduled, v, cat)
    {
      SameCertain(p, scheduled, v, w, cat, |p.jobs|);
    }
    CertainExact(p, scheduled, w, Sequential, t);
    CertainExact(p, scheduled, w, Gang, t);
    CertainExact(p, scheduled, w, MutexSource, t);
    CertainExact(p, scheduled, w, Successor, t);
    hide ValidProblem, Certain, CertainTime, ReadyTimes, CoresBy, LowestNext, InCategory;
    if w.cores[0].max < t {
      forall k: nat | Eligible(p, scheduled, k)
        ensures t <= CertainTime(p, w, k) <==> t <= ReadyTimes(p, w, k).max || t <= CoresBy(p, w.cores, k)
        ensures exists cat: Category :: InCategory(p, scheduled, cat, k)
      {
        CertainTimeExact(p, scheduled, w, k, t);
        KindOf(p, scheduled, k);
      }
      forall cat: Category, k: nat | InCategory(p, scheduled, cat, k)
        ensures Eligible(p, scheduled, k)
      {
        InCategoryIsJob(p, scheduled, cat, k);
      }
    }
  }

  lemma {:induction false} SameCertain(p: Problem, scheduled: set<nat>, v: View, w: View, cat: Category, n: nat)
    requires ValidProblem(p) && |v.cores| == p.m
    requires w.cores == v.cores && w.starts == v.starts && w.finishes == v.finishes
    ensures NextCertain(p, scheduled, w, cat, n) == NextCertain(p, scheduled, v, cat, n)
  {
    if n > 0 {
      SameCertain(p, scheduled, v, w, cat, n - 1);
    }
  }

  // ---- The start and finish intervals ----

  /** All bounds on the start of `j` at a level allow `t`. */
  ghost predicate MayStartAt(p: Problem, scheduled: set<nat>, s: View, j: nat, level: nat, t: int)
    requires ValidProblem(p) && p.IsJob(j) && level < |p.jobs[j].levels| && |s.cores| == p.m
  {
    LevelOnPlatform(p, j, level);
    var used := p.jobs[j].levels[level].cores;
    && ReadyTimes(p, s, j).min <= t && s.cores[used - 1].min <= t
    && (t <= ReadyTimes(p, s, j).max || t <= s.cores[used - 1].max)
    && LeB(Fin(t), WorkConservingBound(p, scheduled, s))
    && !Reached(PriorityBound(p, scheduled, s, j, used), t) && !Reached(ParallelismBound(p, s, j, level), t)
  }

  /** The start interval holds exactly the times that all bounds allow. */
  lemma StartIntervalExact(p: Problem, scheduled: set<nat>, s: View, j: nat, level: nat, t: int)
    requires ValidProblem(p) && p.IsJob(j) && level < |p.jobs[j].levels| && |s.cores| == p.m
    ensures StartInterval(p, scheduled, s, j, level).Has(t) <==> MayStartAt(p, scheduled, s, j, level, t)
  {
    LevelOnPlatform(p, j, level);
    hide ValidProblem, ReadyTimes, WorkConservingBound, PriorityBound, ParallelismBound;
  }

  /** A job can be dispatched at a level exactly when it may be the next one, priority pruning does not exclude it, and
      some start time is allowed. */
  lemma DispatchableExact(p: Problem, scheduled: set<nat>, s: View, j: nat, level: nat)
    requires ValidProblem(p) && StateInvariant(p, scheduled, s) && p.IsJob(j) && level < |p.jobs[j].levels|
    ensures Dispatchable(p, scheduled, s, j, level) <==>
              && Eligible(p, scheduled, j)
              && (s.lowest.Some? ==> !PriorTo(p, s.lowest.value, j))
              && exists t :: MayStartAt(p, scheduled, s, j, level, t)
  {
    ReadyTimesOk(p, s, j);
    LevelOnPlatform(p, j, level);
    var est := EarliestStart(p, s, j, level);
    assert s.cores[p.jobs[j].levels[level].cores - 1].Ok();
    hide ValidProblem, ReadyTimes, WorkConservingBound, PriorityBound, ParallelismBound, PriorTo, PredsIn;
    if Dispatchable(p, scheduled, s, j, level) {
      assert MayStartAt(p, scheduled, s, j, level, est);
    }
    if t :| MayStartAt(p, scheduled, s, j, level, t) {
      assert est <= t;
    }
  }

  /** The finish interval holds exactly the sums of a start time and an execution time. */
  lemma FinishIntervalExact(p: Problem, scheduled: set<nat>, s: View, j: nat, level: nat, f: int)
    requires ValidProblem(p) && StateInvariant(p, scheduled, s) && Dispatchable(p, scheduled, s, j, level)
    ensures FinishInterval(p, scheduled, s, j, level).Has(f) <==>
              exists t: int ::
                StartInterval(p, scheduled, s, j, level).Has(t) && p.jobs[j].levels[level].cost.Has(f - t)
  {
    DispatchIntervalsOk(p, scheduled, s, j, level);
    var start, cost := StartInterval(p, scheduled, s, j, level), p.jobs[j].levels[level].cost;
    assert ValidJob(p.jobs[j], p.m);
    hide ValidProblem, StateInvariant, Dispatchable, StartInterval;
    if FinishInterval(p, scheduled, s, j, level).Has(f) {
      var t := if start.min + cost.max >= f then start.min else f - cost.max;
      assert start.Has(t) && cost.Has(f - t);
    }
  }

  // ---- Recorded times ----

  /** The state after a dispatch, as far as cores and times are concerned. */
  ghost function DispatchedView(p: Problem, scheduled: set<nat>, s: View, j: nat, level: nat): View
    requires DispatchReady(p, scheduled, s, j, level)
  {
    TimedCores(p, scheduled, s, j, level);
    Timed(p, scheduled + {j}, s, j, StartInterval(p, scheduled, s, j, level),
          FinishInterval(p, scheduled, s, j, level), p.jobs[j].levels[level].cores)
  }

  /** No recorded time starts after what it is tightened to. */
  lemma Tightenable(p: Problem, scheduled: set<nat>, s: View, j: nat, level: nat, q: nat)
    requires DispatchReady(p, scheduled, s, j, level)
    ensures var lst := LatestStart(p, scheduled, s, j, level);
            && (q in s.finishes ==>
                  && s.finishes[q].Ok() && (p.m == 1 ==> s.finishes[q].min <= lst)
                  && (MinDelayAfterFinish(p.cons[j], q) >= 0 ==>
                        s.finishes[q].min <= lst - MinDelayAfterFinish(p.cons[j], q)))
            && (q in s.starts ==>
                  && s.starts[q].Ok()
                  && (MinDelayAfterStart(p.cons[j], q) >= 0 ==>
                        s.starts[q].min <= lst - MinDelayAfterStart(p.cons[j], q)))
  {
    EarliestFinish(p, scheduled, s, j, level, q);
    DispatchIntervalsOk(p, scheduled, s, j, level);
    TighteningNeverInverts(p, s, j, q, LatestStart(p, scheduled, s, j, level));
  }

  lemma EarliestFinish(p: Problem, scheduled: set<nat>, s: View, j: nat, level: nat, q: nat)
    requires DispatchReady(p, scheduled, s, j, level)
    ensures (q in s.finishes ==> s.finishes[q].Ok()) && (q in s.starts ==> s.starts[q].Ok())
    ensures q in s.finishes && p.m == 1 ==> s.finishes[q].min <= EarliestStart(p, s, j, level)
    ensures ReadyTimes(p, s, j).min <= EarliestStart(p, s, j, level)
  {
    LevelOnPlatform(p, j, level);
    hide ReadyTimes;
  }

  /** The latest finish time of another job becomes the least of what was recorded and what the start of the
      dispatched job allows; its earliest finish time stays. */
  lemma FinishTimesTight(p: Problem, scheduled: set<nat>, s: View, j: nat, level: nat, q: nat)
    requires DispatchReady(p, scheduled, s, j, level)
    requires q != j && q in DispatchedView(p, scheduled, s, j, level).finishes
    ensures q in s.finishes
    ensures var lst, d := LatestStart(p, scheduled, s, j, level), MinDelayAfterFinish(p.cons[j], q);
            var old_, new_ := s.finishes[q], DispatchedView(p, scheduled, s, j, level).finishes[q];
            && new_.min == old_.min
            && new_.max == if p.m == 1 && old_.max > lst then lst
                         else if d >= 0 && old_.max > lst - d then lst - d
                         else old_.max
  {
    hide DispatchedView, DispatchReady, LatestStart, MinDelayAfterFinish, MinDelayAfterStart;
    Tightenable(p, scheduled, s, j, level, q);
    FinishesAfter(p, scheduled, s, j, level, q);
  }

  lemma FinishesAfter(p: Problem, scheduled: set<nat>, s: View, j: nat, level: nat, q: nat)
    requires DispatchReady(p, scheduled, s, j, level)
    requires q != j && q in DispatchedView(p, scheduled, s, j, level).finishes
    ensures |s.cores| == p.m && q in s.finishes
    ensures DispatchedView(p, scheduled, s, j, level).finishes[q]
         == TightenFinish(s.finishes[q], LatestStart(p, scheduled, s, j, level), MinDelayAfterFinish(p.cons[j], q),
                          p.m == 1)
  {
    TimedCores(p, scheduled, s, j, level);
    assert |s.cores| == p.m;
    hide ValidProblem, StateInvariant, Dispatchable, LatestStart, EarliestStart, PendingSet, Dispatched, FreedCores,
        StartTimes, Conserved, WellFormed, TightenFinish, Survivors, InsertByJob;
  }

  /** The same for latest start times. */
  lemma StartTimesTight(p: Problem, scheduled: set<nat>, s: View, j: nat, level: nat, q: nat)
    requires DispatchReady(p, scheduled, s, j, level) && q != j && q in DispatchedView(p, scheduled, s, j, level).starts
    ensures q in s.starts
    ensures var lst, d := LatestStart(p, scheduled, s, j, level), MinDelayAfterStart(p.cons[j], q);
            var old_, new_ := s.starts[q], DispatchedView(p, scheduled, s, j, level).starts[q];
            && new_.min == old_.min
            && new_.max == if d >= 0 && old_.max > lst - d then lst - d else old_.max
  {
    hide DispatchedView, DispatchReady, LatestStart, MinDelayAfterFinish, MinDelayAfterStart;
    Tightenable(p, scheduled, s, j, level, q);
    StartsAfter(p, scheduled, s, j, level, q);
  }

  lemma StartsAfter(p: Problem, scheduled: set<nat>, s: View, j: nat, level: nat, q: nat)
    requires DispatchReady(p, scheduled, s, j, level) && q != j && q in DispatchedView(p, scheduled, s, j, level).starts
    ensures q in s.starts
    ensures DispatchedView(p, scheduled, s, j, level).starts[q]
         == TightenStart(s.starts[q], LatestStart(p, scheduled, s, j, level), MinDelayAfterStart(p.cons[j], q))
  {
    TimedCores(p, scheduled, s, j, level);
    hide ValidProblem, StateInvariant, Dispatchable, LatestStart, EarliestStart, PendingSet, Dispatched, FreedCores,
        FinishTimes, Conserved, WellFormed, TightenStart, Survivors, InsertByJob;
  }

  // ---- Merged states ----

  /** A merge knows the later of two certain dispatch times, and the lower of two lowest jobs if both are known. */
  lemma MergedExact(p: Problem, a: View, b: View, t: int)
    requires |a.cores| == |b.cores| && a.starts.Keys == b.starts.Keys && a.finishes.Keys == b.finishes.Keys
    requires (a.lowest.Some? ==> p.IsJob(a.lowest.value)) && (b.lowest.Some? ==> p.IsJob(b.lowest.value))
    ensures var m := Merged(p, a, b);
            && (Reached(m.certainSuccessor, t) <==> Reached(a.certainSuccessor, t) && Reached(b.certainSuccessor, t))
            && (Reached(m.certainGang, t) <==> Reached(a.certainGang, t) && Reached(b.certainGang, t))
            && (Reached(m.certainMutex, t) <==> Reached(a.certainMutex, t) && Reached(b.certainMutex, t))
            && (m.lowest.Some? <==> a.lowest.Some? && b.lowest.Some?)
            && (m.lowest.Some? ==> m.lowest in {a.lowest, b.lowest} && !PriorTo(p, m.lowest.value, a.lowest.value)
                                   && !PriorTo(p, m.lowest.value, b.lowest.value))
            && m.starts.Keys == a.starts.Keys && m.finishes.Keys == a.finishes.Keys
            && (forall q :: q in a.starts ==> m.starts[q] == a.starts[q].Widen(b.starts[q]))
            && (forall q :: q in a.finishes ==> m.finishes[q] == a.finishes[q].Widen(b.finishes[q]))
  {
  }
}
