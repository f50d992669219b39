// Tracking the jobs that are certainly running, and on how many cores.
module RunningJobs {
  import opened Times
  import opened Counting
  import opened Workload
  import opened Scheduler
  import opened CoreAvailability

  datatype Running = Running(job: nat, parMin: nat, parMax: nat, finish: Interval)

  ghost predicate SortedByJob(v: seq<Running>) {
    forall i, k :: 0 <= i < k < |v| ==> v[i].job < v[k].job
  }

  /** Jobs that may still run when a job with constraints `c` has started by `lst`. */
  function Survivors(from: seq<Running>, c: JobConstraints, lst: int): seq<Running> {
    if |from| == 0 then []
    else
      var last := from[|from| - 1];
      Survivors(from[..|from| - 1], c, lst)
        + if !MustBeFinished(c, last.job) && lst < last.finish.min then [last] else []
  }

  function InsertByJob(v: seq<Running>, r: Running): seq<Running> {
    if |v| == 0 then [r]
    else if v[0].job > r.job then [r] + v
    else [v[0]] + InsertByJob(v[1..], r)
  }

  /** Cores released by the running jobs that must have finished. */
  function FreedCores(from: seq<Running>, c: JobConstraints): nat {
    if |from| == 0 then 0
    else
      var last := from[|from| - 1];
      FreedCores(from[..|from| - 1], c) + if MustBeFinished(c, last.job) then last.parMin else 0
  }

  /** Jobs running in both, with their information widened. */
  function Common(a: seq<Running>, b: seq<Running>): seq<Running> {
    if |a| == 0 || |b| == 0 then []
    else if a[0].job == b[0].job then
      [Running(a[0].job, if a[0].parMin <= b[0].parMin then a[0].parMin else b[0].parMin,
               if a[0].parMax <= b[0].parMax then b[0].parMax else a[0].parMax, a[0].finish.Widen(b[0].finish))]
        + Common(a[1..], b[1..])
    else if a[0].job < b[0].job then Common(a[1..], b)
    else Common(a, b[1..])
  }

  /** The jobs that stay so far, with the new one in its place once it has been added. */
  ghost predicate PartOf(v: seq<Running>, kept: seq<Running>, self: Running, added: bool) {
    if added then v == InsertByJob(kept, self) && exists k :: 0 <= k < |kept| && kept[k].job > self.job
    else v == kept && forall k :: 0 <= k < |kept| ==> kept[k].job <= self.job
  }

  lemma NothingKept(self: Running)
    ensures PartOf([], [], self, false)
  {
  }

  lemma KeepMore(v: seq<Running>, kept: seq<Running>, r: Running, self: Running, added: bool)
    requires PartOf(v, kept, self, added)
    ensures PartOf(if !added && r.job > self.job then v + [self] + [r] else v + [r], kept + [r], self,
        added || r.job > self.job)
  {
    InsertSnoc(kept, r, self);
    if added {
      var k :| 0 <= k < |kept| && kept[k].job > self.job;
      assert (kept + [r])[k].job > self.job;
    } else {
      assert (kept + [r])[|kept|] == r;
    }
  }

  lemma KeptAll(v: seq<Running>, kept: seq<Running>, self: Running, added: bool)
    requires PartOf(v, kept, self, added)
    ensures InsertByJob(kept, self) == if added then v else v + [self]
  {
    InsertSnoc(kept, self, self);
  }

  class RunningJobsTracker {
    var running: seq<Running>

    constructor ()
      ensures running == []
    {
      running := [];
    }

    /** Become the running jobs after `j` was dispatched; returns the cores freed by finished jobs. */
    method UpdateAndCountPredecessors(from: RunningJobsTracker, j: nat, start: Interval, finish: Interval, used: nat,
                                      c: JobConstraints) returns (freed: nat)
      requires from != this
      modifies this
      ensures freed == FreedCores(from.running, c)
      ensures running == InsertByJob(Survivors(from.running, c, start.max), Running(j, used, used, finish))
    {
      hide MustBeFinished, InsertByJob, PartOf;
      var self := Running(j, used, used, finish);
      var added := false;
      running, freed := [], 0;
      NothingKept(self);
      var i := 0;
      while i < |from.running|
        invariant 0 <= i <= |from.running|
        invariant freed == FreedCores(from.running[..i], c)
        invariant PartOf(running, Survivors(from.running[..i], c, start.max), self, added)
      {
        var r := from.running[i];
        assert from.running[..i + 1][..i] == from.running[..i];
        ghost var kept := Survivors(from.running[..i], c, start.max);
        assert Survivors(from.running[..i + 1], c, start.max)
            == if !MustBeFinished(c, r.job) && start.max < r.finish.min then kept + [r] else kept;
        if MustBeFinished(c, r.job) {
          freed := freed + r.parMin;
        } else if start.max < r.finish.min {
          KeepMore(running, kept, r, self, added);
          if !added && r.job > j {
            running := running + [self];
            added := true;
          }
          running := running + [r];
        }
        i := i + 1;
      }
      assert from.running[..i] == from.running;
      KeptAll(running, Survivors(from.running, c, start.max), self, added);
      if !added {
        running := running + [self];
      }
    }

    /** Keep the jobs that run in both, widening what is known about them. */
    method Merge(other: RunningJobsTracker)
      modifies this
      ensures running == Common(old(running), old(other.running))
    {
      var mine, theirs := running, other.running;
      var merged: seq<Running> := [];
      var i, k := 0, 0;
      while i < |mine| && k < |theirs|
        invariant 0 <= i <= |mine| && 0 <= k <= |theirs|
        invariant merged + Common(mine[i..], theirs[k..]) == Common(mine, theirs)
        decreases |mine| - i + |theirs| - k
      {
        if mine[i].job == theirs[k].job {
          var both := Running(mine[i].job,
                              if mine[i].parMin <= theirs[k].parMin then mine[i].parMin else theirs[k].parMin,
                              if mine[i].parMax <= theirs[k].parMax then theirs[k].parMax else mine[i].parMax,
                              mine[i].finish.Widen(theirs[k].finish));
          assert mine[i..][1..] == mine[i + 1..] && theirs[k..][1..] == theirs[k + 1..];
          assert merged + ([both] + Common(mine[i + 1..], theirs[k + 1..]))
              == merged + [both] + Common(mine[i + 1..], theirs[k + 1..]);
          merged := merged + [both];
          i, k := i + 1, k + 1;
        } else if mine[i].job < theirs[k].job {
          assert mine[i..][1..] == mine[i + 1..];
          i := i + 1;
        } else {
          assert theirs[k..][1..] == theirs[k + 1..];
          k := k + 1;
        }
      }
      running := merged;
    }
  }

  lemma {:induction false} InsertSnoc(v: seq<Running>, r: Running, self: Running)
    ensures (exists k :: 0 <= k < |v| && v[k].job > self.job) ==>
              InsertByJob(v + [r], self) == InsertByJob(v, self) + [r]
    ensures (forall k :: 0 <= k < |v| ==> v[k].job <= self.job) ==>
              && InsertByJob(v, self) == v + [self]
              && (r.job > self.job ==> InsertByJob(v + [r], self) == v + [self, r])
  {
    if |v| > 0 {
      assert (v + [r])[1..] == v[1..] + [r];
      InsertSnoc(v[1..], r, self);
    }
  }

  // ---- What the tracker says about a configuration ----

  /** Every tracked job finishes within its interval and occupies at least `parMin` cores until then. */
  ghost predicate RunningCover(v: seq<Running>, c: Config) {
    && SortedByJob(v)
    && forall i :: 0 <= i < |v| ==>
         && v[i].job in c.finish
         && v[i].finish.Has(c.finish[v[i].job])
         && Owned(c.cores, v[i].job) >= v[i].parMin
  }

  lemma {:induction false} SurvivorsOf(v: seq<Running>, jc: JobConstraints, lst: int)
    ensures SortedByJob(v) ==> SortedByJob(Survivors(v, jc, lst))
    ensures forall r :: r in Survivors(v, jc, lst) <==> r in v && lst < r.finish.min && !MustBeFinished(jc, r.job)
  {
    if |v| > 0 {
      assert v == v[..|v| - 1] + [v[|v| - 1]];
      SurvivorsOf(v[..|v| - 1], jc, lst);
      if SortedByJob(v) {
        forall r | r in Survivors(v[..|v| - 1], jc, lst)
          ensures r.job < v[|v| - 1].job
        {
          assert r in v[..|v| - 1];
        }
      }
    }
  }

  /** Jobs are counted as freed one by one: with all their cores if they must be finished, else not at all. */
  lemma {:induction false} FreedCoresExact(a: seq<Running>, b: seq<Running>, r: Running, c: JobConstraints)
    ensures FreedCores(a + b, c) == FreedCores(a, c) + FreedCores(b, c)
    ensures FreedCores([r], c) == if MustBeFinished(c, r.job) then r.parMin else 0
  {
    assert [r][..0] == [];
    if |b| == 0 {
      assert a + b == a;
    } else {
      FreedCoresExact(a, b[..|b| - 1], r, c);
      assert (a + b)[..|a + b| - 1] == a + b[..|b| - 1];
    }
  }

  lemma {:induction false} InsertByJobSorted(v: seq<Running>, r: Running)
    requires SortedByJob(v) && forall i :: 0 <= i < |v| ==> v[i].job != r.job
    ensures SortedByJob(InsertByJob(v, r))
    ensures forall x :: x in InsertByJob(v, r) <==> x in v || x == r
  {
    if |v| > 0 && v[0].job <= r.job {
      InsertByJobSorted(v[1..], r);
      assert v == [v[0]] + v[1..];
      forall x | x in InsertByJob(v[1..], r)
        ensures v[0].job < x.job
      {
        assert x in v[1..] || x == r;
      }
    }
  }

  /** After a dispatch, the updated list still describes jobs that are certainly running. */
  lemma RunningUpdateCovers(v: seq<Running>, c: Config, jc: JobConstraints, j: nat, t: int, f: int,
                            start: Interval, finish: Interval, used: nat, c': Config)
    requires RunningCover(v, c) && CoresConsistent(c) && c.start.Keys == c.finish.Keys
    requires j !in c.finish && start.Has(t) && finish.Has(f)
    requires Occupies(c.cores, c'.cores, j, used, t, f) && c'.finish == c.finish[j := f]
    ensures RunningCover(InsertByJob(Survivors(v, jc, start.max), Running(j, used, used, finish)), c')
  {
    var kept := Survivors(v, jc, start.max);
    SurvivorsOf(v, jc, start.max);
    InsertByJobSorted(kept, Running(j, used, used, finish));
    var next := InsertByJob(kept, Running(j, used, used, finish));
    forall i | 0 <= i < |next|
      ensures next[i].job in c'.finish && next[i].finish.Has(c'.finish[next[i].job])
      ensures Owned(c'.cores, next[i].job) >= next[i].parMin
    {
      var r := next[i];
      assert r in next;
      if r.job != j {
        assert r in v;
        OccupyKeeps(c.cores, c'.cores, j, t, f, r.job);
      }
    }
  }

  /** The cores counted as freed are indeed free once the dispatched job may start. */
  lemma FreedCoresAreFree(v: seq<Running>, c: Config, jc: JobConstraints, t: int)
    requires RunningCover(v, c) && CoresConsistent(c)
    requires forall q :: q in c.finish && MustBeFinished(jc, q) ==> c.finish[q] <= t
    ensures FreedCores(v, jc) <= FreeAt(c, t)
  {
    var gone := FreedOwned(v, c, jc);
    OwnedByFree(c.cores, gone, t);
  }

  lemma {:induction false} FreedOwned(v: seq<Running>, c: Config, jc: JobConstraints) returns (gone: set<nat>)
    requires RunningCover(v, c)
    ensures FreedCores(v, jc) <= OwnedBy(c.cores, gone)
    ensures forall q :: q in gone ==> MustBeFinished(jc, q) && exists i :: 0 <= i < |v| && v[i].job == q
  {
    if |v| == 0 {
      gone := {};
    } else {
      var last := v[|v| - 1].job;
      gone := FreedOwned(v[..|v| - 1], c, jc);
      if MustBeFinished(jc, last) {
        OwnedByAdd(c.cores, gone, last);
        gone := gone + {last};
      }
    }
  }

  /** The list says at least as much about the job of `r` as `r` does. */
  ghost predicate Says(v: seq<Running>, r: Running) {
    exists i :: 0 <= i < |v| && v[i].job == r.job && r.parMin <= v[i].parMin && r.finish.Contains(v[i].finish)
  }

  lemma SaysTail(v: seq<Running>, r: Running)
    requires |v| > 0 && Says(v[1..], r)
    ensures Says(v, r)
  {
    var i :| 0 <= i < |v[1..]| && v[1..][i].job == r.job && r.parMin <= v[1..][i].parMin
        && r.finish.Contains(v[1..][i].finish);
    assert v[i + 1] == v[1..][i];
  }

  /** Keeping the common jobs keeps only what both lists say. */
  lemma {:induction false} CommonOf(a: seq<Running>, b: seq<Running>, k: nat)
    requires SortedByJob(a) && SortedByJob(b) && k < |Common(a, b)|
    ensures Says(a, Common(a, b)[k]) && Says(b, Common(a, b)[k])
    decreases |a| + |b|
  {
    var r := Common(a, b)[k];
    if a[0].job == b[0].job {
      if k == 0 {
        assert a[0].job == r.job && b[0].job == r.job;
      } else {
        CommonOf(a[1..], b[1..], k - 1);
        SaysTail(a, r);
        SaysTail(b, r);
      }
    } else if a[0].job < b[0].job {
      CommonOf(a[1..], b, k);
      SaysTail(a, r);
    } else {
      CommonOf(a, b[1..], k);
      SaysTail(b, r);
    }
  }

  /** What two entries of the same job agree on. */
  function Agreed(x: Running, y: Running): Running {
    Running(x.job, if x.parMin <= y.parMin then x.parMin else y.parMin,
            if x.parMax <= y.parMax then y.parMax else x.parMax, x.finish.Widen(y.finish))
  }

  /** Every job that runs in both is kept. */
  lemma {:induction false} CommonKeeps(a: seq<Running>, b: seq<Running>, i: nat, k: nat)
    requires SortedByJob(a) && SortedByJob(b) && i < |a| && k < |b| && a[i].job == b[k].job
    ensures Agreed(a[i], b[k]) in Common(a, b)
    decreases |a| + |b|
  {
    if a[0].job == b[0].job {
      if i > 0 && k > 0 {
        CommonKeeps(a[1..], b[1..], i - 1, k - 1);
      }
    } else if a[0].job < b[0].job {
      CommonKeeps(a[1..], b, i - 1, k);
    } else {
      CommonKeeps(a, b[1..], i, k - 1);
    }
  }

  lemma {:induction false} CommonSorted(a: seq<Running>, b: seq<Running>)
    requires SortedByJob(a) && SortedByJob(b)
    ensures SortedByJob(Common(a, b))
    decreases |a| + |b|
  {
    if |a| == 0 || |b| == 0 {
    } else if a[0].job == b[0].job {
      CommonSorted(a[1..], b[1..]);
      forall k | 0 <= k < |Common(a[1..], b[1..])|
        ensures a[0].job < Common(a[1..], b[1..])[k].job
      {
        CommonOf(a[1..], b[1..], k);
      }
    } else if a[0].job < b[0].job {
      CommonSorted(a[1..], b);
    } else {
      CommonSorted(a, b[1..]);
    }
  }

  /** Merging loses no configuration of either list. */
  lemma CommonCovers(a: seq<Running>, b: seq<Running>, c: Config)
    requires SortedByJob(a) && SortedByJob(b) && (RunningCover(a, c) || RunningCover(b, c))
    ensures RunningCover(Common(a, b), c)
  {
    CommonSorted(a, b);
    var v := Common(a, b);
    forall i | 0 <= i < |v|
      ensures v[i].job in c.finish && v[i].finish.Has(c.finish[v[i].job]) && Owned(c.cores, v[i].job) >= v[i].parMin
    {
      CommonOf(a, b, i);
    }
  }

  // ---- Core conservation ----

  /** Cores certainly used by jobs that finish at `x` at the earliest. */
  function Load(v: seq<Running>, x: int): nat {
    if |v| == 0 then 0
    else Load(v[..|v| - 1], x) + if x <= v[|v| - 1].finish.min then v[|v| - 1].parMin else 0
  }

  /** For every time `x`, at least as many cores become free at `x` or later as running jobs
      that finish at `x` or later certainly use. */
  ghost predicate Conserved(cores: seq<Interval>, v: seq<Running>) {
    forall x :: Load(v, x) + Below(Mins(cores), x - 1) <= |cores|
  }

  lemma {:induction false} LoadConcat(a: seq<Running>, b: seq<Running>, x: int)
    ensures Load(a + b, x) == Load(a, x) + Load(b, x)
  {
    if |b| == 0 {
      assert a + b == a;
    } else {
      assert (a + b)[..|a + b| - 1] == a + b[..|b| - 1];
      LoadConcat(a, b[..|b| - 1], x);
    }
  }

  lemma {:induction false} LoadInsert(v: seq<Running>, r: Running, x: int)
    ensures Load(InsertByJob(v, r), x) == Load(v, x) + if x <= r.finish.min then r.parMin else 0
  {
    LoadConcat([], [r], x);
    if |v| == 0 {
    } else if v[0].job > r.job {
      LoadConcat([r], v, x);
      assert [r] == [] + [r];
    } else {
      LoadInsert(v[1..], r, x);
      LoadConcat([v[0]], InsertByJob(v[1..], r), x);
      LoadConcat([v[0]], v[1..], x);
      assert v == [v[0]] + v[1..];
    }
  }

  /** The load of the survivors, alone or together with the cores freed. */
  lemma {:induction false} LoadSurvivors(v: seq<Running>, jc: JobConstraints, lst: int, x: int, low: int)
    requires forall i :: 0 <= i < |v| ==> low <= v[i].finish.min
    ensures Load(Survivors(v, jc, lst), x) <= Load(v, x)
    ensures Load(Survivors(v, jc, lst), x) <= Load(v, lst + 1)
    ensures Load(Survivors(v, jc, lst), x) + FreedCores(v, jc) <= Load(v, low)
  {
    if |v| > 0 {
      var last := v[|v| - 1];
      var init := Survivors(v[..|v| - 1], jc, lst);
      LoadSurvivors(v[..|v| - 1], jc, lst, x, low);
      LoadConcat(init, [last], x);
      assert init + [] == init;
      assert [last][..0] == [];
    }
  }

  lemma {:induction false} LowestFinish(v: seq<Running>, bound: int) returns (low: int)
    ensures low <= bound && forall i :: 0 <= i < |v| ==> low <= v[i].finish.min
  {
    if |v| == 0 {
      low := bound;
    } else {
      low := LowestFinish(v[..|v| - 1], Min(bound, v[|v| - 1].finish.min));
    }
  }

  /** The cores freed by predecessors are among the cores of the platform. */
  lemma FreedFits(cores: seq<Interval>, v: seq<Running>, jc: JobConstraints, lst: int, x: int)
    requires WellFormed(cores) && Conserved(cores, v)
    ensures Load(Survivors(v, jc, lst), x) + FreedCores(v, jc) <= |cores|
  {
    var low := LowestFinish(v, cores[0].min);
    LoadSurvivors(v, jc, lst, x, low);
    assert Load(v, low) + Below(Mins(cores), low - 1) <= |cores|;
  }

  /** The three bounds on the cores that jobs still use after a dispatch. */
  lemma KeptBounds(cores: seq<Interval>, v: seq<Running>, jc: JobConstraints, used: nat, lst: int, x: int)
    requires WellFormed(cores) && Conserved(cores, v)
    requires 1 <= used <= |cores| && cores[used - 1].min <= lst
    ensures Load(Survivors(v, jc, lst), x) + FreedCores(v, jc) <= |cores|
    ensures Load(Survivors(v, jc, lst), x) + used <= |cores|
    ensures Load(Survivors(v, jc, lst), x) + Below(Mins(cores), x - 1) <= |cores|
  {
    FreedFits(cores, v, jc, lst, x);
    var low := LowestFinish(v, 0);
    LoadSurvivors(v, jc, lst, x, low);
    SortedBelow(Mins(cores), lst, used - 1);
    assert Load(v, lst + 1) + Below(Mins(cores), (lst + 1) - 1) <= |cores|;
    assert Load(v, x) + Below(Mins(cores), x - 1) <= |cores|;
  }

  /** The balance after a dispatch, at one point in time. */
  lemma BalanceAt(cores: seq<Interval>, v: seq<Running>, jc: JobConstraints, self: Running, start: Interval, x: int)
    requires Sorted(Mins(cores)) && start.min <= start.max && start.min <= self.finish.min
    requires self.parMin <= |cores| && FreedCores(v, jc) <= |cores|
    requires Load(Survivors(v, jc, start.max), x) + FreedCores(v, jc) <= |cores|
    requires Load(Survivors(v, jc, start.max), x) + self.parMin <= |cores|
    requires Load(Survivors(v, jc, start.max), x) + Below(Mins(cores), x - 1) <= |cores|
    ensures Load(InsertByJob(Survivors(v, jc, start.max), self), x)
              + Below(PossibleTimes(cores, start.min, self.finish.min, self.parMin, FreedCores(v, jc)),
                  x - 1) <= |cores|
  {
    LoadInsert(Survivors(v, jc, start.max), self, x);
    CountPossible(cores, start.min, self.finish.min, self.parMin, FreedCores(v, jc), x - 1);
  }

  /** A dispatch keeps the balance of cores. */
  lemma DispatchConserves(cores: seq<Interval>, v: seq<Running>, jc: JobConstraints, j: nat,
                          start: Interval, finish: Interval, used: nat)
    requires WellFormed(cores) && Conserved(cores, v) && DispatchTimes(start, finish)
    requires 1 <= used <= |cores| && cores[used - 1].min <= start.max
    ensures FreedCores(v, jc) <= |cores|
    ensures Conserved(Dispatched(cores, start, finish, used, FreedCores(v, jc)),
                      InsertByJob(Survivors(v, jc, start.max), Running(j, used, used, finish)))
  {
    FreedFits(cores, v, jc, start.max, 0);
    DispatchedWellFormed(cores, start, finish, used, FreedCores(v, jc));
    forall x
      ensures Load(InsertByJob(Survivors(v, jc, start.max), Running(j, used, used, finish)), x)
                + Below(PossibleTimes(cores, start.min, finish.min, used, FreedCores(v, jc)), x - 1) <= |cores|
    {
      KeptBounds(cores, v, jc, used, start.max, x);
      BalanceAt(cores, v, jc, Running(j, used, used, finish), start, x);
    }
  }

  lemma {:induction false} LoadTail(v: seq<Running>, x: int)
    requires |v| > 0
    ensures Load(v, x) == (if x <= v[0].finish.min then v[0].parMin else 0) + Load(v[1..], x)
  {
    assert v == [v[0]] + v[1..];
    LoadConcat([v[0]], v[1..], x);
    assert [v[0]][..0] == [];
  }

  lemma {:induction false} LoadCommon(a: seq<Running>, b: seq<Running>, x: int)
    ensures Load(Common(a, b), x) <= Load(a, x)
    ensures Load(Common(a, b), x) <= Load(b, x)
    decreases |a| + |b|
  {
    if |a| == 0 || |b| == 0 {
    } else {
      LoadTail(a, x);
      LoadTail(b, x);
      if a[0].job == b[0].job {
        LoadTail(Common(a, b), x);
        assert Common(a, b)[1..] == Common(a[1..], b[1..]);
        LoadCommon(a[1..], b[1..], x);
      } else if a[0].job < b[0].job {
        LoadCommon(a[1..], b, x);
      } else {
        LoadCommon(a, b[1..], x);
      }
    }
  }

  lemma WidenedOrdered(a: seq<Interval>, b: seq<Interval>)
    requires WellFormed(a) && WellFormed(b) && |a| == |b|
    ensures Sorted(Mins(a)) && Sorted(Mins(b)) && Sorted(Mins(Widened(a, b)))
    ensures forall i :: 0 <= i < |a| ==> Mins(Widened(a, b))[i] == Min(Mins(a)[i], Mins(b)[i])
  {
    WidenedCovers(a, b);
  }

  /** The merged vector has as many early entries as one of the two. */
  lemma WidenedBelow(a: seq<Interval>, b: seq<Interval>, x: int)
    requires WellFormed(a) && WellFormed(b) && |a| == |b|
    ensures Below(Mins(Widened(a, b)), x) <= Below(Mins(a), x) || Below(Mins(Widened(a, b)), x) <= Below(Mins(b), x)
  {
    hide WellFormed;
    WidenedOrdered(a, b);
    var n := Below(Mins(Widened(a, b)), x);
    if n > 0 {
      SortedBelow(Mins(Widened(a, b)), x, n - 1);
      SortedBelow(Mins(a), x, n - 1);
      SortedBelow(Mins(b), x, n - 1);
    }
  }

  /** A merge keeps the balance of cores. */
  lemma MergeConserves(a: seq<Interval>, b: seq<Interval>, va: seq<Running>, vb: seq<Running>)
    requires WellFormed(a) && WellFormed(b) && |a| == |b|
    requires Conserved(a, va) && Conserved(b, vb)
    ensures Conserved(Widened(a, b), Common(va, vb))
  {
    forall x
      ensures Load(Common(va, vb), x) + Below(Mins(Widened(a, b)), x - 1) <= |a|
    {
      LoadCommon(va, vb, x);
      WidenedBelow(a, b, x - 1);
      assert Load(va, x) + Below(Mins(a), x - 1) <= |a|;
      assert Load(vb, x) + Below(Mins(b), x - 1) <= |b|;
    }
  }
}
