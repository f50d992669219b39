// The trackers a state derives from its cores and times: when some job can
// certainly be started, and which priority the next dispatched job has at least.
module DispatchTrackers {
  import opened Times
  import opened Jobs
  import opened Workload
  import opened CoreAvailability
  import opened JobTiming
  import opened PendingSuccessors
  import opened ReadyJobs
  import opened Abstraction
  import opened LatestReady
  import opened NextDispatch
  import opened PriorityPruning
  import opened SpaceData
  import opened NextState

  /** The cores and times a view records are those of the trackers. */
  ghost predicate ViewOf(v: View, cores: CoreAvailabilityTracker, starts: JobTimingTracker, finishes: JobTimingTracker)
    reads cores, starts, finishes
  {
    && v.cores == cores.avail
    && starts.Valid() && v.starts == Known(starts.times)
    && finishes.Valid() && v.finishes == Known(finishes.times)
  }

  // ---- Scans over lists of constraints ----

  /** The latest time by which the recorded constraints of a list are over. */
  method LatestOf(list: seq<Delay>, times: JobTimingTracker, acc: int) returns (r: int)
    requires times.Valid()
    ensures r == LatestOver(list, Known(times.times), acc, |list|)
  {
    r := acc;
    var i := 0;
    while i < |list|
      invariant 0 <= i <= |list| && r == LatestOver(list, Known(times.times), acc, i)
    {
      var t := times.Get(list[i].ref);
      if t.Some? {
        r := Max(r, t.value.max + list[i].delay.max);
      }
      i := i + 1;
    }
  }

  /** The same, giving up when a constraint refers to a job that is not recorded. */
  method LatestOfAll(list: seq<Delay>, times: JobTimingTracker, acc: Bound) returns (r: Bound)
    requires times.Valid()
    ensures acc.Inf? ==> r.Inf?
    ensures acc.Fin? && (forall i :: 0 <= i < |list| ==> list[i].ref in Known(times.times)) ==>
              r == Fin(LatestOver(list, Known(times.times), acc.t, |list|))
  {
    r := acc;
    var i := 0;
    while i < |list| && r.Fin?
      invariant 0 <= i <= |list| && (acc.Inf? ==> r.Inf?)
      invariant acc.Fin? && (forall l :: 0 <= l < |list| ==> list[l].ref in Known(times.times)) ==>
                  r == Fin(LatestOver(list, Known(times.times), acc.t, i))
    {
      var t := times.Get(list[i].ref);
      if t.Some? {
        r := Fin(Max(r.t, t.value.max + list[i].delay.max));
      } else {
        r := Inf;
      }
      i := i + 1;
    }
  }

  /** The earliest time at which the recorded constraints of a list can be over. */
  method EarliestOf(list: seq<Delay>, times: JobTimingTracker, acc: int) returns (r: int)
    requires times.Valid()
    ensures r == EarliestOver(list, Known(times.times), acc, |list|)
  {
    r := acc;
    var i := 0;
    while i < |list|
      invariant 0 <= i <= |list| && r == EarliestOver(list, Known(times.times), acc, i)
    {
      var t := times.Get(list[i].ref);
      if t.Some? {
        r := Max(r, t.value.min + list[i].delay.min);
      }
      i := i + 1;
    }
  }

  /** Maxima can be taken in any order. */
  lemma {:induction false} LatestOverShift(list: seq<Delay>, known: map<nat, Interval>, a: int, b: int, n: nat)
    requires n <= |list|
    ensures LatestOver(list, known, Max(a, b), n) == Max(LatestOver(list, known, a, n), b)
  {
    if n > 0 {
      LatestOverShift(list, known, a, b, n - 1);
    }
  }

  lemma {:induction false} LatestOverSwap(a: seq<Delay>, ka: map<nat, Interval>, n: nat,
                                          b: seq<Delay>, kb: map<nat, Interval>, k: nat, acc: int)
    requires n <= |a| && k <= |b|
    ensures LatestOver(a, ka, LatestOver(b, kb, acc, k), n) == LatestOver(b, kb, LatestOver(a, ka, acc, n), k)
  {
    if n > 0 {
      LatestOverSwap(a, ka, n - 1, b, kb, k, acc);
      if a[n - 1].ref in ka {
        LatestOverShift(b, kb, LatestOver(a, ka, acc, n - 1), ka[a[n - 1].ref].max + a[n - 1].delay.max, k);
      }
    }
  }

  // ---- When some job can certainly be started ----

  lemma SourceInCategory(p: Problem, scheduled: set<nat>, cat: Category, k: nat)
    requires ValidProblem(p) && cat != Successor
    ensures InCategory(p, scheduled, cat, k) <==> Open(p, scheduled, {cat}, k)
  {
    if p.IsJob(k) {
      assert ValidJob(p.jobs[k], p.m);
    }
  }

  /** A bound on all jobs of a category that some job attains is the least one. */
  lemma CertainIs(p: Problem, scheduled: set<nat>, v: View, cat: Category, r: Bound)
    requires ValidProblem(p) && |v.cores| == p.m
    requires forall k: nat :: InCategory(p, scheduled, cat, k) ==> LeB(r, Fin(CertainTime(p, v, k)))
    requires r.Fin? ==> exists k: nat :: InCategory(p, scheduled, cat, k) && CertainTime(p, v, k) == r.t
    ensures r == Certain(p, scheduled, v, cat)
  {
    hide ValidProblem;
    NextCertainExact(p, scheduled, v, cat, |p.jobs|);
    var c := Certain(p, scheduled, v, cat);
    if r.Fin? {
      var k: nat :| InCategory(p, scheduled, cat, k) && CertainTime(p, v, k) == r.t;
      assert CertainBound(p, scheduled, v, cat, k) == r;
    }
    if c.Fin? {
      var k: nat :| k < |p.jobs| && CertainBound(p, scheduled, v, cat, k) == c;
      assert LeB(r, Fin(CertainTime(p, v, k)));
    }
  }

  /** No source job can certainly be started before its latest arrival. */
  lemma CertainAfterArrival(p: Problem, v: View, k: nat)
    requires ValidProblem(p) && p.IsJob(k) && |v.cores| == p.m
    ensures p.jobs[k].arrival.max <= CertainTime(p, v, k)
  {
    assert ValidJob(p.jobs[k], p.m);
    var c := p.cons[k];
    var h0 := p.jobs[k].arrival.max;
    LatestOverBound(c.predStart, v.starts, h0, |c.predStart|, 0);
    var h1 := LatestOver(c.predStart, v.starts, h0, |c.predStart|);
    LatestOverBound(c.exclStart, v.starts, h1, |c.exclStart|, 0);
    var h2 := LatestOver(c.exclStart, v.starts, h1, |c.exclStart|);
    LatestOverBound(c.predFinish, v.finishes, h2, |c.predFinish|, 0);
    var h3 := LatestOver(c.predFinish, v.finishes, h2, |c.predFinish|);
    LatestOverBound(c.exclFinish, v.finishes, h3, |c.exclFinish|, 0);
  }

  class CertainDispatchTimes {
    var successor: Bound
    var gang: Bound
    var mutex: Bound

    constructor (gang: Bound, mutex: Bound)
      ensures this.successor == Inf && this.gang == gang && this.mutex == mutex
    {
      this.successor, this.gang, this.mutex := Inf, gang, mutex;
    }

    method Merge(other: CertainDispatchTimes)
      modifies this
      ensures successor == MaxB(old(successor), old(other.successor))
      ensures gang == MaxB(old(gang), old(other.gang)) && mutex == MaxB(old(mutex), old(other.mutex))
    {
      var s, g, m := other.successor, other.gang, other.mutex;
      successor, gang, mutex := MaxB(successor, s), MaxB(gang, g), MaxB(mutex, m);
    }

    /** The search over the independent gang jobs in the order of their latest arrival; it starts at
        the next release of a source job and stops once later jobs cannot lower the result. */
    method UpdateGang(d: Data, after: Bound, scheduled: set<nat>, cores: CoreAvailabilityTracker, ghost v: View)
      requires ValidData(d) && |cores.avail| == d.p.m && v.cores == cores.avail
      requires forall k: nat :: Open(d.p, scheduled, {Gang}, k) ==> LeB(after, Fin(KeyOf(d.p, ByLatest, k)))
      modifies `gang
      ensures gang == Certain(d.p, scheduled, v, Gang)
    {
      var least := Inf;
      var list := d.gangByLatest;
      var i := LowerBound(d.p, ByLatest, list, after);
      while i < |list|
        invariant 0 <= i <= |list|
        invariant LeastSoFar(d.p, scheduled, v, Gang, list[..i], least)
      {
        var k := list[i];
        assert k in list && ValidJob(d.p.jobs[k], d.p.m);
        if LeB(least, Fin(d.p.jobs[k].arrival.max)) {
          break;
        }
        assert list[..i + 1] == list[..i] + [k];
        SourceInCategory(d.p, scheduled, Gang, k);
        ghost var before := least;
        if k !in scheduled {
          var disp := GangReady(d.p, k, cores, v);
          least := MinB(least, Fin(disp));
        }
        LeastStep(d.p, scheduled, v, Gang, list[..i], k, before, least);
        i := i + 1;
      }
      SearchComplete(d, list, Gang, scheduled, v, i, least);
      gang := least;
    }

    /** The same search over source jobs with exclusion constraints. */
    method UpdateMutex(d: Data, after: Bound, scheduled: set<nat>, cores: CoreAvailabilityTracker,
                       starts: JobTimingTracker, finishes: JobTimingTracker, ghost v: View)
      requires ValidData(d) && |cores.avail| == d.p.m && ViewOf(v, cores, starts, finishes)
      requires forall k: nat :: Open(d.p, scheduled, {MutexSource}, k) ==> LeB(after, Fin(KeyOf(d.p, ByLatest, k)))
      modifies `mutex
      ensures mutex == Certain(d.p, scheduled, v, MutexSource)
    {
      hide ValidJob;
      var least := Inf;
      var list := d.mutexByLatest;
      var i := LowerBound(d.p, ByLatest, list, after);
      while i < |list|
        invariant 0 <= i <= |list|
        invariant LeastSoFar(d.p, scheduled, v, MutexSource, list[..i], least)
      {
        var k := list[i];
        assert k in list && ValidJob(d.p.jobs[k], d.p.m);
        if LeB(least, Fin(d.p.jobs[k].arrival.max)) {
          break;
        }
        assert list[..i + 1] == list[..i] + [k];
        SourceInCategory(d.p, scheduled, MutexSource, k);
        ghost var before := least;
        if k !in scheduled {
          var ready := MutexReady(d.p, k, cores, starts, finishes, v);
          least := MinB(least, Fin(ready));
        }
        LeastStep(d.p, scheduled, v, MutexSource, list[..i], k, before, least);
        i := i + 1;
      }
      SearchComplete(d, list, MutexSource, scheduled, v, i, least);
      mutex := least;
    }

    /** The search over the ready successor jobs. */
    method UpdateSuccessor(p: Problem, scheduled: set<nat>, ready: seq<nat>, cores: CoreAvailabilityTracker,
                           starts: JobTimingTracker, finishes: JobTimingTracker, ghost v: View)
      requires ValidProblem(p) && |cores.avail| == p.m && ViewOf(v, cores, starts, finishes)
      requires ReadyExact(p, scheduled, ready) && TimesInvariant(p, scheduled, v)
      modifies `successor
      ensures successor == Certain(p, scheduled, v, Successor)
    {
      hide Problem.IsJob;
      var least := Inf;
      var i := 0;
      while i < |ready|
        invariant 0 <= i <= |ready|
        invariant LeastSoFar(p, scheduled, v, Successor, ready[..i], least)
      {
        var k := ready[i];
        assert k in ready && ValidJob(p.jobs[k], p.m);
        assert ready[..i + 1] == ready[..i] + [k];
        var time := SuccessorReady(p, scheduled, k, cores, starts, finishes, v);
        least := MinB(least, time);
        i := i + 1;
      }
      assert ready[..i] == ready;
      ReadyComplete(p, scheduled, v, ready, least);
      successor := least;
    }
  }

  /** The least certain time among the jobs of the category listed so far. */
  ghost predicate LeastSoFar(p: Problem, scheduled: set<nat>, v: View, cat: Category, done: seq<nat>, r: Bound)
    requires ValidProblem(p) && |v.cores| == p.m
  {
    && (forall k: nat :: k in done && InCategory(p, scheduled, cat, k) ==> LeB(r, Fin(CertainTime(p, v, k))))
    && (r.Fin? ==> exists k: nat :: InCategory(p, scheduled, cat, k) && CertainTime(p, v, k) == r.t)
  }

  lemma LeastStep(p: Problem, scheduled: set<nat>, v: View, cat: Category, done: seq<nat>, k: nat, r: Bound, r': Bound)
    requires ValidProblem(p) && |v.cores| == p.m && LeastSoFar(p, scheduled, v, cat, done, r)
    requires r' == if InCategory(p, scheduled, cat, k) then MinB(r, Fin(CertainTime(p, v, k))) else r
    ensures LeastSoFar(p, scheduled, v, cat, done + [k], r')
  {
  }

  method GangReady(p: Problem, k: nat, cores: CoreAvailabilityTracker, ghost v: View) returns (ready: int)
    requires ValidProblem(p) && p.IsJob(k) && Cat(p, k) == Gang && |cores.avail| == p.m && v.cores == cores.avail
    ensures ready == CertainTime(p, v, k)
  {
    assert ValidJob(p.jobs[k], p.m);
    ready := Max(p.jobs[k].arrival.max, cores.Availability(p.jobs[k].MinCores()).max);
  }

  method MutexReady(p: Problem, k: nat, cores: CoreAvailabilityTracker, starts: JobTimingTracker,
                    finishes: JobTimingTracker,
                    ghost v: View) returns (ready: int)
    requires ValidProblem(p) && p.IsJob(k) && Cat(p, k) == MutexSource
    requires |cores.avail| == p.m && ViewOf(v, cores, starts, finishes)
    ensures ready == CertainTime(p, v, k)
  {
    assert ValidJob(p.jobs[k], p.m);
    ready := Max(cores.Availability(p.jobs[k].MinCores()).max, p.jobs[k].arrival.max);
    ready := LatestOf(p.cons[k].exclFinish, finishes, ready);
    ready := LatestOf(p.cons[k].exclStart, starts, ready);
    MutexTime(p, v, k);
  }

  method SuccessorReady(p: Problem, scheduled: set<nat>, k: nat, cores: CoreAvailabilityTracker,
                        starts: JobTimingTracker,
                        finishes: JobTimingTracker, ghost v: View) returns (time: Bound)
    requires ValidProblem(p) && |cores.avail| == p.m && ViewOf(v, cores, starts, finishes)
    requires IsReadySuccessor(p, scheduled, k) && TimesInvariant(p, scheduled, v)
    ensures time == Fin(CertainTime(p, v, k))
  {
    hide LatestOver;
    assert ValidJob(p.jobs[k], p.m);
    AllRecorded(p, scheduled, v, k);
    time := Fin(Max(cores.Availability(p.jobs[k].MinCores()).max, p.jobs[k].arrival.max));
    time := LatestOfAll(p.cons[k].predStart, starts, time);
    time := LatestOfAll(p.cons[k].predFinish, finishes, time);
    if time.Fin? {
      var t := LatestOf(p.cons[k].exclStart, starts, time.t);
      t := LatestOf(p.cons[k].exclFinish, finishes, t);
      time := Fin(t);
    }
    SuccessorTime(p, v, k);
  }

  lemma ReadyComplete(p: Problem, scheduled: set<nat>, v: View, ready: seq<nat>, r: Bound)
    requires ValidProblem(p) && |v.cores| == p.m && ReadyExact(p, scheduled, ready)
    requires LeastSoFar(p, scheduled, v, Successor, ready, r)
    ensures r == Certain(p, scheduled, v, Successor)
  {
    forall k: nat | InCategory(p, scheduled, Successor, k)
      ensures k in ready
    {
      assert ValidJob(p.jobs[k], p.m);
    }
    CertainIs(p, scheduled, v, Successor, r);
  }

  /** An ordered search that stopped at index `i` has found the minimum. */
  lemma SearchComplete(d: Data, list: seq<nat>, cat: Category, scheduled: set<nat>, v: View, i: nat, r: Bound)
    requires ValidData(d) && |v.cores| == d.p.m && cat != Successor && ListsCategory(d.p, list, cat)
    requires i <= |list| && (i < |list| ==> LeB(r, Fin(KeyOf(d.p, ByLatest, list[i]))))
    requires LeastSoFar(d.p, scheduled, v, cat, list[..i], r)
    ensures r == Certain(d.p, scheduled, v, cat)
  {
    hide Problem.IsJob;
    forall k: nat | InCategory(d.p, scheduled, cat, k)
      ensures LeB(r, Fin(CertainTime(d.p, v, k)))
    {
      SourceInCategory(d.p, scheduled, cat, k);
      assert k in list;
      var l :| 0 <= l < |list| && list[l] == k;
      CertainAfterArrival(d.p, v, k);
      if l < i {
        assert list[..i][l] == k;
      }
    }
    CertainIs(d.p, scheduled, v, cat, r);
  }

  lemma MutexTime(p: Problem, v: View, k: nat)
    requires ValidProblem(p) && p.IsJob(k) && |v.cores| == p.m && Cat(p, k) == MutexSource
    ensures var c := p.cons[k];
            var r := LatestOver(c.exclFinish, v.finishes, Max(CoresBy(p, v.cores, k), p.jobs[k].arrival.max),
                |c.exclFinish|);
            CertainTime(p, v, k) == LatestOver(c.exclStart, v.starts, r, |c.exclStart|)
  {
    var c, b, h := p.cons[k], CoresBy(p, v.cores, k), p.jobs[k].arrival.max;
    LatestOverShift(c.exclFinish, v.finishes, h, b, |c.exclFinish|);
    LatestOverShift(c.exclStart, v.starts, LatestOver(c.exclFinish, v.finishes, h, |c.exclFinish|), b, |c.exclStart|);
    LatestOverSwap(c.exclStart, v.starts, |c.exclStart|, c.exclFinish, v.finishes, |c.exclFinish|, h);
  }

  lemma SuccessorTime(p: Problem, v: View, k: nat)
    requires ValidProblem(p) && p.IsJob(k) && |v.cores| == p.m && Cat(p, k) == Successor
    ensures var c := p.cons[k];
            var r := LatestOver(c.predStart, v.starts, Max(CoresBy(p, v.cores, k), p.jobs[k].arrival.max),
                |c.predStart|);
            var r' := LatestOver(c.predFinish, v.finishes, r, |c.predFinish|);
            var r'' := LatestOver(c.exclStart, v.starts, r', |c.exclStart|);
            CertainTime(p, v, k) == LatestOver(c.exclFinish, v.finishes, r'', |c.exclFinish|)
  {
    var c, b, h := p.cons[k], CoresBy(p, v.cores, k), p.jobs[k].arrival.max;
    var h1 := LatestOver(c.predStart, v.starts, h, |c.predStart|);
    LatestOverShift(c.predStart, v.starts, h, b, |c.predStart|);
    LatestOverShift(c.predFinish, v.finishes, h1, b, |c.predFinish|);
    var h2 := LatestOver(c.predFinish, v.finishes, h1, |c.predFinish|);
    LatestOverShift(c.exclStart, v.starts, h2, b, |c.exclStart|);
    LatestOverSwap(c.exclStart, v.starts, |c.exclStart|, c.predFinish, v.finishes, |c.predFinish|, h1);
    LatestOverShift(c.exclFinish, v.finishes, LatestOver(c.exclStart, v.starts, h2, |c.exclStart|), b, |c.exclFinish|);
  }

  // ---- The lowest priority that may be dispatched next ----

  /** Whether every constraint with a dispatched job of the list certainly lies before the first core
      becomes available; all jobs of a precedence list have been dispatched. */
  method AllStarted(list: seq<Delay>, scheduled: set<nat>, precedence: bool, cores: CoreAvailabilityTracker,
                    starts: JobTimingTracker, ghost v: View) returns (r: bool)
    requires |cores.avail| > 0 && v.cores == cores.avail && starts.Valid() && v.starts == Known(starts.times)
    ensures r == forall i :: 0 <= i < |list| && (precedence || list[i].ref in scheduled) ==>
                               CertainlyStarted(v, list[i].ref, list[i].delay.max)
  {
    var i := 0;
    while i < |list|
      invariant 0 <= i <= |list|
      invariant forall l :: 0 <= l < i && (precedence || list[l].ref in scheduled) ==>
                              CertainlyStarted(v, list[l].ref, list[l].delay.max)
    {
      if precedence || list[i].ref in scheduled {
        if list[i].delay.max != 0 {
          var t := starts.Get(list[i].ref);
          if t.None? || t.value.max + list[i].delay.max > cores.Availability(1).min {
            return false;
          }
        }
      }
      i := i + 1;
    }
    return true;
  }

  /** Whether `q` certainly finished `delay` time units before the first core becomes available. */
  method CheckDone(p: Problem, q: nat, delay: int, scheduled: set<nat>, cores: CoreAvailabilityTracker,
                   finishes: JobTimingTracker, ghost v: View) returns (r: bool)
    requires p.IsJob(q) && |cores.avail| == p.m >= 1 && v.cores == cores.avail
    requires finishes.Valid() && v.finishes == Known(finishes.times)
    ensures r == CertainlyDone(p, scheduled, v, q, delay)
  {
    if |cores.avail| == 1 && delay == 0 {
      return true;
    }
    var t := finishes.Get(q);
    if t.None? {
      return false;
    }
    if delay > 0 {
      return t.value.max + delay <= cores.Availability(1).min;
    }
    if |cores.avail| > 1 && t.value.max < cores.Availability(2).min {
      return true;
    }
    var list := p.cons[q].succFinish;
    var i := 0;
    while i < |list|
      invariant 0 <= i <= |list|
      invariant forall l :: 0 <= l < i ==> list[l].ref !in scheduled
    {
      if list[i].ref in scheduled {
        return true;
      }
      i := i + 1;
    }
    return false;
  }

  method AllDone(p: Problem, list: seq<Delay>, scheduled: set<nat>, precedence: bool, cores: CoreAvailabilityTracker,
                 finishes: JobTimingTracker, ghost v: View) returns (r: bool)
    requires ValidProblem(p) && ValidList(list, |p.jobs|) && |cores.avail| == p.m && v.cores == cores.avail
    requires finishes.Valid() && v.finishes == Known(finishes.times)
    ensures r == forall i :: 0 <= i < |list| && (precedence || list[i].ref in scheduled) ==>
                               CertainlyDone(p, scheduled, v, list[i].ref, list[i].delay.max)
  {
    var i := 0;
    while i < |list|
      invariant 0 <= i <= |list|
      invariant forall l :: 0 <= l < i && (precedence || list[l].ref in scheduled) ==>
                              CertainlyDone(p, scheduled, v, list[l].ref, list[l].delay.max)
    {
      if precedence || list[i].ref in scheduled {
        var done := CheckDone(p, list[i].ref, list[i].delay.max, scheduled, cores, finishes, v);
        if !done {
          return false;
        }
      }
      i := i + 1;
    }
    return true;
  }

  method CheckReady(p: Problem, j: nat, scheduled: set<nat>, cores: CoreAvailabilityTracker, starts: JobTimingTracker,
                    finishes: JobTimingTracker, ghost v: View) returns (r: bool)
    requires ValidProblem(p) && p.IsJob(j) && |cores.avail| == p.m && ViewOf(v, cores, starts, finishes)
    ensures r == CertainlyReady(p, scheduled, v, j)
  {
    assert ValidConstraints(p.cons[j], |p.jobs|);
    if p.jobs[j].arrival.max > cores.Availability(1).min {
      return false;
    }
    r := AllStarted(p.cons[j].predStart, scheduled, true, cores, starts, v);
    if r {
      r := AllDone(p, p.cons[j].predFinish, scheduled, true, cores, finishes, v);
    }
    if r {
      r := AllStarted(p.cons[j].exclStart, scheduled, false, cores, starts, v);
    }
    if r {
      r := AllDone(p, p.cons[j].exclFinish, scheduled, false, cores, finishes, v);
    }
  }

  /** One pass over a list of constraints of a possible candidate: no delays, no recorded jobs, and
      whether one of the jobs shows that the candidate arrives in time. */
  method Inspect(list: seq<Delay>, scheduled: set<nat>, recorded: seq<nat>, times: JobTimingTracker, arrival: int)
      returns (plain: bool, arrives: bool)
    requires times.Valid()
    ensures plain == Plain(list, scheduled, recorded)
    ensures plain ==> arrives == ArrivesBefore(list, scheduled, Known(times.times), arrival)
  {
    plain, arrives := true, false;
    var i := 0;
    while i < |list|
      invariant 0 <= i <= |list| && plain
      invariant forall l :: 0 <= l < i && list[l].ref in scheduled ==>
                  list[l].delay.max <= 0 && list[l].ref !in recorded
      invariant arrives ==> ArrivesBefore(list, scheduled, Known(times.times), arrival)
      invariant !arrives ==> forall l :: 0 <= l < i && list[l].ref in scheduled && list[l].ref in Known(times.times) ==>
                                           Known(times.times)[list[l].ref].min < arrival
    {
      if list[i].ref in scheduled {
        if list[i].delay.max > 0 || list[i].ref in recorded {
          plain := false;
          return;
        }
        if !arrives {
          var t := times.Get(list[i].ref);
          if t.Some? && t.value.min >= arrival {
            arrives := true;
          }
        }
      }
      i := i + 1;
    }
  }

  method CheckCandidate(p: Problem, j: nat, scheduled: set<nat>, recorded: seq<nat>, starts: JobTimingTracker,
                        finishes: JobTimingTracker, ghost v: View) returns (r: bool)
    requires p.IsJob(j) && starts.Valid() && finishes.Valid()
    requires v.starts == Known(starts.times) && v.finishes == Known(finishes.times)
    ensures r == Candidate(p, scheduled, v, j, recorded)
  {
    var c, arrival := p.cons[j], p.jobs[j].arrival.max;
    var plain, arrives := Inspect(c.predFinish, scheduled, recorded, finishes, arrival);
    if !plain {
      return false;
    }
    var more: bool;
    plain, more := Inspect(c.predStart, scheduled, recorded, starts, arrival);
    if !plain {
      return false;
    }
    arrives := arrives || more;
    plain, more := Inspect(c.exclStart, scheduled, recorded, starts, arrival);
    if !plain {
      return false;
    }
    arrives := arrives || more;
    plain, more := Inspect(c.exclFinish, scheduled, recorded, finishes, arrival);
    return plain && (arrives || more);
  }

  method RecordShared(p: Problem, list: seq<Delay>, recorded: seq<nat>) returns (r: seq<nat>)
    ensures r == recorded + SharedAmong(p, list)
  {
    r := recorded;
    var i := 0;
    while i < |list|
      invariant 0 <= i <= |list| && r == recorded + SharedAmong(p, list[..i])
    {
      assert list[..i + 1][..i] == list[..i];
      var q := list[i].ref;
      if p.IsJob(q) && |p.cons[q].succStart| + |p.cons[q].succFinish| > 1 {
        r := r + [q];
      }
      i := i + 1;
    }
    assert list[..i] == list;
  }

  class PriorityTracker {
    var lowest: Option<nat>

    constructor ()
      ensures lowest == None
    {
      lowest := None;
    }

    /** Keep the job of lower priority; nothing is known when one of the two trackers knows nothing. */
    method Merge(p: Problem, other: PriorityTracker)
      requires (lowest.Some? ==> p.IsJob(lowest.value)) && (other.lowest.Some? ==> p.IsJob(other.lowest.value))
      modifies this
      ensures lowest == LowerOf(p, old(lowest), old(other.lowest))
    {
      if lowest == None || other.lowest == None {
        lowest := None;
      } else if PriorTo(p, lowest.value, other.lowest.value) {
        lowest := other.lowest;
      }
    }

    method Update(p: Problem, scheduled: set<nat>, ready: seq<nat>, cores: CoreAvailabilityTracker,
                  starts: JobTimingTracker,
                  finishes: JobTimingTracker, ghost v: View)
      requires ValidProblem(p) && AllJobs(p, ready) && |cores.avail| == p.m && ViewOf(v, cores, starts, finishes)
      modifies this
      ensures lowest == LowestNext(p, scheduled, v, ready, 0, p.m, [])
    {
      var found := FindLowest(p, scheduled, ready, cores, starts, finishes, v);
      lowest := found;
    }
  }

  /** One step of the scan of the ready list; `Continue` holds the counters for the next step. */
  method ScanJob(p: Problem, scheduled: set<nat>, j: nat, left: nat, count: nat, recorded: seq<nat>,
                 cores: CoreAvailabilityTracker, starts: JobTimingTracker, finishes: JobTimingTracker, ghost v: View)
      returns (r: Outcome)
    requires ValidProblem(p) && p.IsJob(j) && |cores.avail| == p.m && ViewOf(v, cores, starts, finishes)
    ensures r == ScanAt(p, scheduled, v, j, left, count, recorded)
  {
    assert ValidJob(p.jobs[j], p.m);
    r := Continue(count, recorded);
    if p.jobs[j].MinCores() > 1 {
      return;
    }
    var certain := CheckReady(p, j, scheduled, cores, starts, finishes, v);
    if certain {
      return Stop(j);
    }
    if left >= count {
      var candidate := CheckCandidate(p, j, scheduled, recorded, starts, finishes, v);
      if candidate {
        var shared := RecordShared(p, p.cons[j].predFinish, recorded);
        if count <= 1 {
          return Stop(j);
        }
        r := Continue(count - 1, shared);
      }
    }
  }

  /** The scan of the ready list. */
  method FindLowest(p: Problem, scheduled: set<nat>, ready: seq<nat>, cores: CoreAvailabilityTracker,
                    starts: JobTimingTracker,
                    finishes: JobTimingTracker, ghost v: View) returns (r: Option<nat>)
    requires ValidProblem(p) && AllJobs(p, ready) && |cores.avail| == p.m && ViewOf(v, cores, starts, finishes)
    ensures r == LowestNext(p, scheduled, v, ready, 0, p.m, [])
  {
    ghost var result := LowestNext(p, scheduled, v, ready, 0, p.m, []);
    var count, recorded: seq<nat> := p.m, [];
    var i := 0;
    while i < |ready|
      invariant 0 <= i <= |ready|
      invariant result == LowestNext(p, scheduled, v, ready, i, count, recorded)
    {
      var step := ScanJob(p, scheduled, ready[i], |ready| - i, count, recorded, cores, starts, finishes, v);
      match step {
        case Stop(j) => return Some(j);
        case Continue(count', recorded') => count, recorded := count', recorded';
      }
      i := i + 1;
    }
    return None;
  }
}
