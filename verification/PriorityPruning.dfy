// Choosing a job such that no job of lower priority is dispatched next, and why
// skipping those jobs is safe.
module PriorityPruning {
  import opened Times
  import opened Counting
  import opened Jobs
  import opened Workload
  import opened Scheduler
  import opened CoreAvailability
  import opened RunningJobs
  import opened PendingSuccessors
  import opened ReadyJobs
  import opened Abstraction
  import opened LatestReady

  /** `q` certainly started `delay` time units before the first core becomes available. */
  predicate CertainlyStarted(s: View, q: nat, delay: int) {
    delay == 0 || (q in s.starts && |s.cores| > 0 && s.starts[q].max + delay <= s.cores[0].min)
  }

  /** `q` certainly finished `delay` time units before the first core becomes available. */
  predicate CertainlyDone(p: Problem, scheduled: set<nat>, s: View, q: nat, delay: int)
    requires p.IsJob(q) && |s.cores| == p.m >= 1
  {
    || (p.m == 1 && delay == 0)
    || (q in s.finishes &&
          if delay > 0 then s.finishes[q].max + delay <= s.cores[0].min
          else
            || (p.m > 1 && s.finishes[q].max < s.cores[1].min)
            || exists i :: 0 <= i < |p.cons[q].succFinish| && p.cons[q].succFinish[i].ref in scheduled)
  }

  /** `j` is certainly ready when the first core becomes available. */
  predicate CertainlyReady(p: Problem, scheduled: set<nat>, s: View, j: nat)
    requires ValidProblem(p) && p.IsJob(j) && |s.cores| == p.m
  {
    assert ValidConstraints(p.cons[j], |p.jobs|);
    var c := p.cons[j];
    && p.jobs[j].arrival.max <= s.cores[0].min
    && (forall i :: 0 <= i < |c.predStart| ==> CertainlyStarted(s, c.predStart[i].ref, c.predStart[i].delay.max))
    && (forall i :: 0 <= i < |c.predFinish| ==>
          CertainlyDone(p, scheduled, s, c.predFinish[i].ref, c.predFinish[i].delay.max))
    && (forall i :: 0 <= i < |c.exclStart| && c.exclStart[i].ref in scheduled ==>
          CertainlyStarted(s, c.exclStart[i].ref, c.exclStart[i].delay.max))
    && (forall i :: 0 <= i < |c.exclFinish| && c.exclFinish[i].ref in scheduled ==>
          CertainlyDone(p, scheduled, s, c.exclFinish[i].ref, c.exclFinish[i].delay.max))
  }

  /** The constraints of a list impose no delay and refer to no recorded job. */
  predicate Plain(list: seq<Delay>, only: set<nat>, recorded: seq<nat>) {
    forall i :: 0 <= i < |list| && list[i].ref in only ==> list[i].delay.max <= 0 && list[i].ref !in recorded
  }

  /** Some job of the list started, or finished, only after `arrival`. */
  predicate ArrivesBefore(list: seq<Delay>, only: set<nat>, known: map<nat, Interval>, arrival: int) {
    exists i :: 0 <= i < |list| && list[i].ref in only && list[i].ref in known && arrival <= known[list[i].ref].min
  }

  /** `j` is ready as soon as the jobs it waits for complete, none of which has been recorded. */
  predicate Candidate(p: Problem, scheduled: set<nat>, s: View, j: nat, recorded: seq<nat>)
    requires p.IsJob(j)
  {
    var c, arrival := p.cons[j], p.jobs[j].arrival.max;
    && Plain(c.predFinish, scheduled, recorded) && Plain(c.predStart, scheduled, recorded)
    && Plain(c.exclStart, scheduled, recorded) && Plain(c.exclFinish, scheduled, recorded)
    && ( || ArrivesBefore(c.predFinish, scheduled, s.finishes, arrival)
         || ArrivesBefore(c.predStart, scheduled, s.starts, arrival)
         || ArrivesBefore(c.exclStart, scheduled, s.starts, arrival)
         || ArrivesBefore(c.exclFinish, scheduled, s.finishes, arrival))
  }

  /** `q` leads to more than one job. */
  predicate Shared(p: Problem, q: nat) {
    p.IsJob(q) && |p.cons[q].succStart| + |p.cons[q].succFinish| > 1
  }

  function SharedAmong(p: Problem, list: seq<Delay>): seq<nat> {
    if |list| == 0 then []
    else SharedAmong(p, list[..|list| - 1]) + if Shared(p, list[|list| - 1].ref) then [list[|list| - 1].ref] else []
  }

  datatype Outcome = Stop(job: nat) | Continue(count: nat, recorded: seq<nat>)

  /** One step of the scan of the ready list: stop at a job that is certainly ready, or at the job
      that completes a group of as many candidates as there are cores. `count` more candidates are
      needed; `recorded` are the shared predecessors of those found; `left` jobs are left. */
  function ScanAt(p: Problem, scheduled: set<nat>, s: View, j: nat, left: nat, count: nat, recorded: seq<nat>): Outcome
    requires ValidProblem(p) && |s.cores| == p.m && p.IsJob(j)
  {
    assert ValidJob(p.jobs[j], p.m);
    if p.jobs[j].MinCores() > 1 then Continue(count, recorded)
    else if CertainlyReady(p, scheduled, s, j) then Stop(j)
    else if left >= count && Candidate(p, scheduled, s, j, recorded) then
      if count <= 1 then Stop(j) else Continue(count - 1, recorded + SharedAmong(p, p.cons[j].predFinish))
    else Continue(count, recorded)
  }

  /** The scan of the ready list, highest priority first. */
  function LowestNext(p: Problem, scheduled: set<nat>, s: View, ready: seq<nat>, i: nat, count: nat,
                      recorded: seq<nat>): Option<nat>
    requires ValidProblem(p) && |s.cores| == p.m && AllJobs(p, ready) && i <= |ready|
    decreases |ready| - i
  {
    if i == |ready| then None
    else
      match ScanAt(p, scheduled, s, ready[i], |ready| - i, count, recorded)
      case Stop(j) => Some(j)
      case Continue(count', recorded') => LowestNext(p, scheduled, s, ready, i + 1, count', recorded')
  }

  lemma {:induction false} LowestNextIsJob(p: Problem, scheduled: set<nat>, s: View, ready: seq<nat>, i: nat,
                                           count: nat, recorded: seq<nat>)
    requires ValidProblem(p) && |s.cores| == p.m && AllJobs(p, ready) && i <= |ready|
    ensures var r := LowestNext(p, scheduled, s, ready, i, count, recorded); r.Some? ==> p.IsJob(r.value)
    decreases |ready| - i
  {
    if i < |ready| {
      match ScanAt(p, scheduled, s, ready[i], |ready| - i, count, recorded) {
        case Stop(_) =>
        case Continue(count', recorded') => LowestNextIsJob(p, scheduled, s, ready, i + 1, count', recorded');
      }
    }
  }

  // ---- Safety ----

  /** `k` waits for, or is kept apart from, the completion of `q`. */
  ghost predicate WaitsFor(p: Problem, k: nat, q: nat)
    requires p.IsJob(k)
  {
    Refers(p.cons[k].predFinish, q) || Refers(p.cons[k].exclFinish, q)
  }

  predicate SingleCore(p: Problem, k: nat)
    requires p.IsJob(k)
  {
    |p.jobs[k].levels| > 0 && p.jobs[k].MinCores() == 1
  }

  ghost predicate Undelayed(list: seq<Delay>, q: nat) {
    forall i :: 0 <= i < |list| && list[i].ref == q ==> list[i].delay.max <= 0
  }

  /** `k` waits for the completion of `q` and for no time beyond it. */
  ghost predicate WaitsPlainly(p: Problem, k: nat, q: nat)
    requires p.IsJob(k)
  {
    WaitsFor(p, k, q) && Undelayed(p.cons[k].predFinish, q) && Undelayed(p.cons[k].exclFinish, q)
  }

  /** On more than one core, no job is an execution-exclusion partner of one single-core successor job while
      another single-core successor job also waits for it, both without delays. */
  ghost predicate ExclusionsSafe(p: Problem) {
    p.m > 1 ==>
      forall a: nat, b: nat, q: nat ::
        (p.IsJob(a) && p.IsJob(b) && a != b && SingleCore(p, a) && SingleCore(p, b) && HasPreds(p, a) && HasPreds(p, b)
         && Refers(p.cons[a].exclFinish, q) && WaitsPlainly(p, a, q))
        ==> !WaitsPlainly(p, b, q)
  }

  /** A job that is listed more than once shares a predecessor that is recorded with it. */
  ghost predicate RepeatsShared(p: Problem, ready: seq<nat>) {
    forall k: nat :: p.IsJob(k) && multiset(ready)[k] >= 2 ==>
      exists q :: Refers(p.cons[k].predFinish, q) && Shared(p, q)
  }

  /** No two start edges connect the same jobs. */
  ghost predicate SimpleStartEdges(p: Problem) {
    forall j: nat, k: nat :: p.IsJob(j) ==> multiset(Refs(p.cons[j].succStart))[k] <= 1
  }

  /** Updating the ready list keeps this: a newly ready job is listed twice only if the dispatched job
      leads to it by a finish edge and another edge. */
  lemma RepeatsStayShared(p: Problem, scheduled: set<nat>, old_: seq<nat>, j: nat, ready: seq<nat>)
    requires ValidProblem(p) && SimpleStartEdges(p) && Closed(p, scheduled)
    requires p.IsJob(j) && j !in scheduled && PredsIn(p, j, scheduled)
    requires ReadyExact(p, scheduled, old_) && RepeatsShared(p, old_)
    requires forall k :: multiset(ready)[k] == UpdatedCount(p, old_, j, scheduled + {j}, k)
    ensures RepeatsShared(p, ready)
  {
    forall k: nat | p.IsJob(k) && multiset(ready)[k] >= 2
      ensures exists q :: Refers(p.cons[k].predFinish, q) && Shared(p, q)
    {
      NewlyReady(p, scheduled, j, k);
      RefsOf(p.cons[j].succStart, k);
      RefsOf(p.cons[j].succFinish, k);
      if multiset(old_)[k] > 0 {
        assert k in old_;
      } else {
        assert |Refs(p.cons[j].succStart)| >= multiset(Refs(p.cons[j].succStart))[k];
        assert |Refs(p.cons[j].succFinish)| >= multiset(Refs(p.cons[j].succFinish))[k];
        assert Refers(p.cons[k].predFinish, j) && Shared(p, j);
      }
    }
  }

  /** A job that is certainly ready can be started as soon as a core is free. */
  lemma CertainlyReadySound(p: Problem, sc: Scenario, s: View, c: Config, j: nat, t: int)
    requires TimingSituation(p, sc, s, c) && IsReadySuccessor(p, c.start.Keys, j)
    requires p.jobs[j].MinCores() == 1 && CertainlyReady(p, c.start.Keys, s, j)
    requires c.now <= t && FreeAt(c, t) >= 1
    ensures Startable(p, sc, c, j, t)
  {
    AvailableFrom(s.cores, c, 1, t);
    var k := p.cons[j];
    assert p.jobs[j].arrival.Has(sc.release(j));
    StartedElapsed(sc, s, c, j, PredStart, k.predStart, t);
    StartedElapsed(sc, s, c, j, ExclStart, k.exclStart, t);
    DoneElapsed(p, sc, s, c, j, PredFinish, k.predFinish, t);
    DoneElapsed(p, sc, s, c, j, ExclFinish, k.exclFinish, t);
  }

  /** What the recorded times and cores of a state say about a configuration. */
  ghost predicate TimingSituation(p: Problem, sc: Scenario, s: View, c: Config) {
    && ValidProblem(p) && ValidScenario(p, sc) && |s.cores| == p.m == |c.cores|
    && TimesConsistent(p, c) && PredsConsistent(p, c) && CoresConsistent(c)
    && WellFormed(s.cores) && CoresCover(s.cores, c)
    && TimesCover(s.starts, c.start) && TimesCover(s.finishes, c.finish)
  }

  lemma StartedElapsed(sc: Scenario, s: View, c: Config, j: nat, kind: Kind, list: seq<Delay>, t: int)
    requires DelaysWithin(sc, kind, j, list) && TimesCover(s.starts, c.start)
    requires kind.PredStart? || kind.ExclStart?
    requires kind.PredStart? ==> forall i :: 0 <= i < |list| ==> list[i].ref in c.start
    requires forall q :: q in c.start ==> c.start[q] <= t
    requires |s.cores| > 0 && s.cores[0].min <= t
    requires forall i :: 0 <= i < |list| && list[i].ref in c.start.Keys ==>
               CertainlyStarted(s, list[i].ref, list[i].delay.max)
    ensures Elapsed(sc, kind, j, list, c.start, t)
  {
    forall i: nat | i < |list| && list[i].ref in c.start
      ensures c.start[list[i].ref] + sc.delay(kind, j, i) <= t
    {
      assert list[i].delay.Has(sc.delay(kind, j, i));
      assert CertainlyStarted(s, list[i].ref, list[i].delay.max);
    }
  }

  lemma DoneElapsed(p: Problem, sc: Scenario, s: View, c: Config, j: nat, kind: Kind, list: seq<Delay>, t: int)
    requires TimingSituation(p, sc, s, c) && ValidList(list, |p.jobs|) && DelaysWithin(sc, kind, j, list)
    requires kind.PredFinish? || kind.ExclFinish?
    requires kind.PredFinish? ==> forall i :: 0 <= i < |list| ==> list[i].ref in c.finish
    requires c.now <= t && FreeAt(c, t) >= 1 && s.cores[0].min <= t
    requires forall i :: 0 <= i < |list| && list[i].ref in c.start.Keys ==>
               CertainlyDone(p, c.start.Keys, s, list[i].ref, list[i].delay.max)
    ensures Elapsed(sc, kind, j, list, c.finish, t)
  {
    forall i: nat | i < |list| && list[i].ref in c.finish
      ensures c.finish[list[i].ref] + sc.delay(kind, j, i) <= t
    {
      var q, delay := list[i].ref, list[i].delay;
      assert delay.Has(sc.delay(kind, j, i));
      assert CertainlyDone(p, c.start.Keys, s, q, delay.max);
      if delay.max == 0 {
        DoneByNow(p, s, c, q, t);
      } else {
        assert s.finishes[q].Has(c.finish[q]);
      }
    }
  }

  lemma DoneByNow(p: Problem, s: View, c: Config, q: nat, t: int)
    requires ValidProblem(p) && |s.cores| == p.m == |c.cores|
    requires TimesConsistent(p, c) && PredsConsistent(p, c) && CoresConsistent(c)
    requires WellFormed(s.cores) && CoresCover(s.cores, c) && TimesCover(s.finishes, c.finish)
    requires q in c.finish && p.IsJob(q) && CertainlyDone(p, c.start.Keys, s, q, 0)
    requires c.now <= t && FreeAt(c, t) >= 1
    ensures c.finish[q] <= t
  {
    if c.finish[q] > t {
      RunningBesideFreeCore(c, q, t);
      if s.finishes[q].max < s.cores[1].min {
        AvailableFrom(s.cores, c, 2, c.finish[q]);
      } else {
        var k :| 0 <= k < |p.cons[q].succFinish| && p.cons[q].succFinish[k].ref in c.start.Keys;
        FinishedBeforeSuccessor(p, c, q, k);
      }
    }
  }

  /** A candidate whose awaited jobs have all finished has been released, and can be started. */
  lemma CandidateStartable(p: Problem, sc: Scenario, s: View, c: Config, k: nat, recorded: seq<nat>, t: int)
    requires TimingSituation(p, sc, s, c) && IsReadySuccessor(p, c.start.Keys, k)
    requires p.jobs[k].MinCores() == 1 && Candidate(p, c.start.Keys, s, k, recorded)
    requires c.now <= t && FreeAt(c, t) >= 1
    requires forall i: nat :: i < |p.cons[k].predFinish| && p.cons[k].predFinish[i].ref in c.finish ==>
                                c.finish[p.cons[k].predFinish[i].ref] <= t
    requires forall i: nat :: i < |p.cons[k].exclFinish| && p.cons[k].exclFinish[i].ref in c.finish ==>
                                c.finish[p.cons[k].exclFinish[i].ref] <= t
    ensures Startable(p, sc, c, k, t)
  {
    var j := p.cons[k];
    PlainElapsed(sc, k, PredStart, j.predStart, c.start, recorded, t);
    PlainElapsed(sc, k, ExclStart, j.exclStart, c.start, recorded, t);
    PlainElapsed(sc, k, PredFinish, j.predFinish, c.finish, recorded, t);
    PlainElapsed(sc, k, ExclFinish, j.exclFinish, c.finish, recorded, t);
    assert p.jobs[k].arrival.max <= t by {
      CandidateArrived(p, s, c, j.predFinish, s.finishes, c.finish, p.jobs[k].arrival.max, t);
      CandidateArrived(p, s, c, j.exclFinish, s.finishes, c.finish, p.jobs[k].arrival.max, t);
      CandidateArrived(p, s, c, j.predStart, s.starts, c.start, p.jobs[k].arrival.max, t);
      CandidateArrived(p, s, c, j.exclStart, s.starts, c.start, p.jobs[k].arrival.max, t);
    }
    assert p.jobs[k].arrival.Has(sc.release(k));
  }

  lemma CandidateArrived(p: Problem, s: View, c: Config, list: seq<Delay>, known: map<nat, Interval>, times: map<nat,
                         int>,
                         arrival: int, t: int)
    requires TimesCover(known, times)
    requires forall i: nat :: i < |list| && list[i].ref in times ==> times[list[i].ref] <= t
    ensures ArrivesBefore(list, times.Keys, known, arrival) ==> arrival <= t
  {
    if ArrivesBefore(list, times.Keys, known, arrival) {
      var i :| 0 <= i < |list| && list[i].ref in times.Keys && list[i].ref in known
          && arrival <= known[list[i].ref].min;
      assert known[list[i].ref].Has(times[list[i].ref]);
    }
  }

  /** A candidate that cannot be started although a core is free waits for a job that still runs. */
  lemma CandidateBlocked(p: Problem, sc: Scenario, s: View, c: Config, k: nat, recorded: seq<nat>,
                         t: int) returns (q: nat)
    requires TimingSituation(p, sc, s, c) && IsReadySuccessor(p, c.start.Keys, k)
    requires p.jobs[k].MinCores() == 1 && Candidate(p, c.start.Keys, s, k, recorded)
    requires c.now <= t && FreeAt(c, t) >= 1 && !Startable(p, sc, c, k, t)
    ensures WaitsFor(p, k, q) && q in c.finish && c.finish[q] > t
  {
    var j := p.cons[k];
    if i: nat :| i < |j.predFinish| && j.predFinish[i].ref in c.finish && c.finish[j.predFinish[i].ref] > t {
      q := j.predFinish[i].ref;
    } else if i: nat :| i < |j.exclFinish| && j.exclFinish[i].ref in c.finish && c.finish[j.exclFinish[i].ref] > t {
      q := j.exclFinish[i].ref;
    } else {
      CandidateStartable(p, sc, s, c, k, recorded, t);
      assert false;
    }
  }

  lemma PlainElapsed(sc: Scenario, k: nat, kind: Kind, list: seq<Delay>, times: map<nat, int>, recorded: seq<nat>,
                     t: int)
    requires DelaysWithin(sc, kind, k, list) && Plain(list, times.Keys, recorded)
    requires kind.PredStart? || kind.PredFinish? ==> forall i :: 0 <= i < |list| ==> list[i].ref in times
    requires forall i: nat :: i < |list| && list[i].ref in times ==> times[list[i].ref] <= t
    ensures Elapsed(sc, kind, k, list, times, t)
  {
    forall i: nat | i < |list| && list[i].ref in times
      ensures times[list[i].ref] + sc.delay(kind, k, i) <= t
    {
      assert list[i].delay.Has(sc.delay(kind, k, i));
    }
  }

  // ---- The pigeonhole argument ----

  ghost predicate Member(p: Problem, scheduled: set<nat>, s: View, k: nat, recorded: seq<nat>) {
    && IsReadySuccessor(p, scheduled, k)
    && |p.jobs[k].levels| > 0 && p.jobs[k].MinCores() == 1
    && Candidate(p, scheduled, s, k, [])
    && (forall q :: Refers(p.cons[k].predFinish, q) && Shared(p, q) ==> q in recorded)
  }

  /** No two members wait for the same dispatched job. */
  ghost predicate Separate(p: Problem, scheduled: set<nat>, group: seq<nat>)
    requires AllJobs(p, group)
  {
    forall x, y, q :: 0 <= x < y < |group| && q in scheduled && WaitsFor(p, group[x], q) ==> !WaitsFor(p, group[y], q)
  }

  /** The candidates counted so far: none of them shares an awaited job with another,
      and the predecessors by which a later one could share are recorded. */
  ghost predicate Group(p: Problem, scheduled: set<nat>, s: View, group: seq<nat>, recorded: seq<nat>) {
    && AllJobs(p, group)
    && (forall x :: 0 <= x < |group| ==> Member(p, scheduled, s, group[x], recorded))
    && Separate(p, scheduled, group)
  }

  /** Jobs that still run at `t` and that some member of the group waits for. */
  ghost predicate Awaited(p: Problem, c: Config, group: seq<nat>, running: set<nat>, t: int) {
    forall q :: q in running ==>
      q in c.finish && c.finish[q] > t && exists x :: 0 <= x < |group| && p.IsJob(group[x]) && WaitsFor(p, group[x], q)
  }

  lemma AwaitedMore(p: Problem, c: Config, group: seq<nat>, running: set<nat>, q: nat, t: int)
    requires |group| > 0 && AllJobs(p, group) && Separate(p, c.finish.Keys, group)
    requires Awaited(p, c, group[..|group| - 1], running, t)
    requires WaitsFor(p, group[|group| - 1], q) && q in c.finish && c.finish[q] > t
    ensures q !in running && Awaited(p, c, group, running + {q}, t)
  {
    var n := |group| - 1;
    forall r | r in running
      ensures r != q && exists x :: 0 <= x < |group| && WaitsFor(p, group[x], r)
    {
      var x :| 0 <= x < n && p.IsJob(group[..n][x]) && WaitsFor(p, group[..n][x], r);
      assert WaitsFor(p, group[x], r);
    }
  }

  /** One more member that cannot be started keeps one more job running. */
  lemma MemberBlocked(p: Problem, sc: Scenario, s: View, c: Config, group: seq<nat>, recorded: seq<nat>, n: nat,
                      running: set<nat>, t: int) returns (q: nat)
    requires TimingSituation(p, sc, s, c) && Group(p, c.start.Keys, s, group, recorded) && n < |group|
    requires c.now <= t && FreeAt(c, t) >= 1 && !Startable(p, sc, c, group[n], t)
    requires Awaited(p, c, group[..n], running, t)
    ensures OwnedBy(c.cores, running + {q}) > OwnedBy(c.cores, running)
        && Awaited(p, c, group[..n + 1], running + {q}, t)
  {
    hide Candidate, Startable, FreeAt, IsReadySuccessor, WaitsFor, OwnedBy, WellFormed, CoresCover, ValidProblem,
        ValidScenario;
    assert Member(p, c.start.Keys, s, group[n], recorded);
    q := CandidateBlocked(p, sc, s, c, group[n], [], t);
    assert group[..n + 1][..n] == group[..n];
    AwaitedMore(p, c, group[..n + 1], running, q, t);
    OwnedByAdd(c.cores, running, q);
  }

  lemma NoneAwaited(p: Problem, c: Config, group: seq<nat>, t: int) returns (running: set<nat>)
    ensures running == {} && OwnedBy(c.cores, {}) >= 0 && Awaited(p, c, [], {}, t) && group[..0] == []
  {
    running := {};
  }

  /** A group none of whose members can be started keeps as many jobs running as it has members. */
  lemma {:induction false} GroupBlocked(p: Problem, sc: Scenario, s: View, c: Config, group: seq<nat>,
                                        recorded: seq<nat>, n: nat, t: int)
      returns (running: set<nat>)
    requires TimingSituation(p, sc, s, c) && Group(p, c.start.Keys, s, group, recorded) && n <= |group|
    requires c.now <= t && FreeAt(c, t) >= 1
    requires forall x :: 0 <= x < |group| ==> !Startable(p, sc, c, group[x], t)
    ensures OwnedBy(c.cores, running) >= n && Awaited(p, c, group[..n], running, t)
  {
    hide Group, TimingSituation, Startable, FreeAt, Awaited, OwnedBy;
    running := NoneAwaited(p, c, group, t);
    if n > 0 {
      running := GroupBlocked(p, sc, s, c, group, recorded, n - 1, t);
      var q := MemberBlocked(p, sc, s, c, group, recorded, n - 1, running, t);
      running := running + {q};
    }
  }

  /** As many candidates as there are cores cannot all be blocked while a core is free. */
  lemma GroupStartable(p: Problem, sc: Scenario, s: View, c: Config, group: seq<nat>, recorded: seq<nat>,
                       t: int) returns (x: nat)
    requires TimingSituation(p, sc, s, c) && Group(p, c.start.Keys, s, group, recorded)
    requires |group| == p.m && c.now <= t && FreeAt(c, t) >= 1
    ensures x < |group| && Startable(p, sc, c, group[x], t)
  {
    if forall y: nat :: y < |group| ==> !Startable(p, sc, c, group[y], t) {
      var running := GroupBlocked(p, sc, s, c, group, recorded, |group|, t);
      OwnedByBusy(c.cores, running, t);
      assert false;
    }
    x :| x < |group| && Startable(p, sc, c, group[x], t);
  }

  /** The group has been found among the first `i` jobs of the ready list. */
  ghost predicate Within(group: seq<nat>, ready: seq<nat>, i: nat)
    requires i <= |ready|
  {
    forall x :: 0 <= x < |group| ==> group[x] in ready[..i]
  }

  lemma WithinMore(group: seq<nat>, ready: seq<nat>, i: nat)
    requires i < |ready| && Within(group, ready, i)
    ensures Within(group, ready, i + 1) && Within(group + [ready[i]], ready, i + 1)
  {
    assert ready[..i + 1] == ready[..i] + [ready[i]];
  }

  /** A further candidate can join the group. */
  lemma GroupJoin(p: Problem, scheduled: set<nat>, s: View, ready: seq<nat>, i: nat, group: seq<nat>,
                  recorded: seq<nat>)
    requires ValidProblem(p) && ExclusionsSafe(p) && RepeatsShared(p, ready)
    requires i < |ready| && Group(p, scheduled, s, group, recorded) && |group| < p.m
    requires Within(group, ready, i)
    requires IsReadySuccessor(p, scheduled, ready[i])
    requires p.jobs[ready[i]].levels != [] && p.jobs[ready[i]].MinCores() == 1
    requires Candidate(p, scheduled, s, ready[i], recorded)
    ensures Group(p, scheduled, s, group + [ready[i]], recorded + SharedAmong(p, p.cons[ready[i]].predFinish))
  {
    var j := ready[i];
    var recorded' := recorded + SharedAmong(p, p.cons[j].predFinish);
    SharedAmongExact(p, p.cons[j].predFinish);
    PlainWeaker(p, scheduled, s, j, recorded);
    assert Member(p, scheduled, s, j, recorded');
    forall x | 0 <= x < |group|
      ensures Member(p, scheduled, s, group[x], recorded')
    {
      assert Member(p, scheduled, s, group[x], recorded);
    }
    forall x, q | 0 <= x < |group| && q in scheduled && WaitsFor(p, group[x], q)
      ensures !WaitsFor(p, j, q)
    {
      assert Member(p, scheduled, s, group[x], recorded);
      NoSharing(p, scheduled, s, ready, i, group[x], recorded, q);
    }
    SeparateJoin(p, scheduled, group, j);
  }

  lemma PlainWeaker(p: Problem, scheduled: set<nat>, s: View, j: nat, recorded: seq<nat>)
    requires p.IsJob(j) && Candidate(p, scheduled, s, j, recorded)
    ensures Candidate(p, scheduled, s, j, [])
  {
  }

  lemma SeparateJoin(p: Problem, scheduled: set<nat>, group: seq<nat>, j: nat)
    requires AllJobs(p, group) && p.IsJob(j) && Separate(p, scheduled, group)
    requires forall x, q :: 0 <= x < |group| && q in scheduled && WaitsFor(p, group[x], q) ==> !WaitsFor(p, j, q)
    ensures AllJobs(p, group + [j]) && Separate(p, scheduled, group + [j])
  {
  }

  lemma {:induction false} SharedAmongExact(p: Problem, list: seq<Delay>)
    ensures forall q :: q in SharedAmong(p, list) <==> Refers(list, q) && Shared(p, q)
  {
    if |list| > 0 {
      var n := |list| - 1;
      SharedAmongExact(p, list[..n]);
      forall q
        ensures Refers(list, q) <==> Refers(list[..n], q) || list[n].ref == q
      {
        if i :| 0 <= i < |list| && list[i].ref == q {
          assert i < n ==> list[..n][i].ref == q;
        }
        if i :| 0 <= i < n && list[..n][i].ref == q {
          assert list[i].ref == q;
        }
      }
    }
  }

  /** A candidate waits for no recorded job. */
  lemma CandidateUnrecorded(p: Problem, scheduled: set<nat>, s: View, b: nat, recorded: seq<nat>, q: nat)
    requires IsReadySuccessor(p, scheduled, b) && Candidate(p, scheduled, s, b, recorded)
    requires Refers(p.cons[b].predFinish, q)
    ensures q !in recorded
  {
    var l :| 0 <= l < |p.cons[b].predFinish| && p.cons[b].predFinish[l].ref == q;
    assert p.cons[b].predFinish[l].ref in scheduled;
  }

  /** A job that is listed twice is not counted twice. */
  lemma CandidateIsNew(p: Problem, scheduled: set<nat>, s: View, ready: seq<nat>, i: nat, a: nat, recorded: seq<nat>)
    requires RepeatsShared(p, ready) && i < |ready| && a in ready[..i] && Member(p, scheduled, s, a, recorded)
    requires IsReadySuccessor(p, scheduled, ready[i]) && Candidate(p, scheduled, s, ready[i], recorded)
    ensures a != ready[i]
  {
    forall q | Refers(p.cons[ready[i]].predFinish, q)
      ensures q !in recorded
    {
      CandidateUnrecorded(p, scheduled, s, ready[i], recorded, q);
    }
    if ready[i] in ready[..i] {
      RepeatedTwice(ready, i);
    }
  }

  lemma CandidateUndelayed(p: Problem, scheduled: set<nat>, s: View, k: nat, recorded: seq<nat>, q: nat)
    requires p.IsJob(k) && Candidate(p, scheduled, s, k, recorded) && q in scheduled
    ensures Undelayed(p.cons[k].predFinish, q) && Undelayed(p.cons[k].exclFinish, q)
  {
  }

  /** A member of the group and a new candidate do not wait for the same job. */
  lemma NoSharing(p: Problem, scheduled: set<nat>, s: View, ready: seq<nat>, i: nat, a: nat, recorded: seq<nat>, q: nat)
    requires ValidProblem(p) && ExclusionsSafe(p) && RepeatsShared(p, ready)
    requires i < |ready| && a in ready[..i] && Member(p, scheduled, s, a, recorded) && p.m > 1
    requires IsReadySuccessor(p, scheduled, ready[i]) && Candidate(p, scheduled, s, ready[i], recorded)
    requires SingleCore(p, ready[i]) && q in scheduled && WaitsFor(p, a, q)
    ensures !WaitsFor(p, ready[i], q)
  {
    hide ValidProblem;
    var b := ready[i];
    CandidateIsNew(p, scheduled, s, ready, i, a, recorded);
    CandidateUndelayed(p, scheduled, s, a, [], q);
    CandidateUndelayed(p, scheduled, s, b, recorded, q);
    if Refers(p.cons[a].predFinish, q) && Refers(p.cons[b].predFinish, q) {
      TwoSuccessors(p, q, a, b);
      CandidateUnrecorded(p, scheduled, s, b, recorded, q);
    }
  }

  lemma RepeatedTwice(v: seq<nat>, i: nat)
    requires i < |v| && v[i] in v[..i]
    ensures multiset(v)[v[i]] >= 2
  {
    assert v == v[..i] + [v[i]] + v[i + 1..];
  }

  lemma TwoSuccessors(p: Problem, q: nat, a: nat, b: nat)
    requires ValidProblem(p) && p.IsJob(a) && p.IsJob(b) && a != b
    requires Refers(p.cons[a].predFinish, q) && Refers(p.cons[b].predFinish, q)
    ensures Shared(p, q)
  {
    assert ValidConstraints(p.cons[a], |p.jobs|);
    assert Refers(p.cons[q].succFinish, a) && Refers(p.cons[q].succFinish, b);
  }

  lemma CertainlyReadyLowest(p: Problem, sc: Scenario, s: View, c: Config, j: nat)
    requires TimingSituation(p, sc, s, c) && IsReadySuccessor(p, c.start.Keys, j)
    requires p.jobs[j].levels != [] && p.jobs[j].MinCores() == 1 && CertainlyReady(p, c.start.Keys, s, j)
    ensures LowestHolds(p, sc, c, Some(j))
  {
    forall t | c.now <= t && FreeAt(c, t) >= 1
      ensures exists k :: Startable(p, sc, c, k, t) && !PriorTo(p, j, k)
    {
      CertainlyReadySound(p, sc, s, c, j, t);
      assert Startable(p, sc, c, j, t) && !PriorTo(p, j, j);
    }
  }

  lemma NotAfter(p: Problem, ready: seq<nat>, i: nat, k: nat)
    requires ByPriority(p, ready) && i < |ready| && k in ready[..i + 1]
    ensures p.IsJob(k) && !PriorTo(p, ready[i], k)
  {
    var l :| 0 <= l < i + 1 && ready[..i + 1][l] == k;
    assert ready[l] == k;
  }

  /** A complete group bounds the priority of the next dispatched job by that of its last member. */
  lemma GroupLowest(p: Problem, sc: Scenario, s: View, c: Config, ready: seq<nat>, i: nat, group: seq<nat>,
                    recorded: seq<nat>)
    requires TimingSituation(p, sc, s, c) && ByPriority(p, ready) && i < |ready|
    requires Group(p, c.start.Keys, s, group, recorded) && |group| == p.m
    requires Within(group, ready, i + 1)
    ensures LowestHolds(p, sc, c, Some(ready[i]))
  {
    forall t | c.now <= t && FreeAt(c, t) >= 1
      ensures exists k :: Startable(p, sc, c, k, t) && !PriorTo(p, ready[i], k)
    {
      var x := GroupStartable(p, sc, s, c, group, recorded, t);
      NotAfter(p, ready, i, group[x]);
    }
  }

  /** What the scan has established when it reaches index `i`. */
  ghost predicate ScanState(p: Problem, sc: Scenario, s: View, c: Config, ready: seq<nat>, i: nat, count: nat,
                            recorded: seq<nat>, group: seq<nat>) {
    && TimingSituation(p, sc, s, c)
    && ReadyExact(p, c.start.Keys, ready)
    && i <= |ready| && count >= 1 && |group| + count == p.m
    && Group(p, c.start.Keys, s, group, recorded)
    && Within(group, ready, i)
  }

  lemma ScanSkip(p: Problem, sc: Scenario, s: View, c: Config, ready: seq<nat>, i: nat, count: nat,
                 recorded: seq<nat>, group: seq<nat>)
    requires ScanState(p, sc, s, c, ready, i, count, recorded, group) && i < |ready|
    ensures ScanState(p, sc, s, c, ready, i + 1, count, recorded, group)
  {
    WithinMore(group, ready, i);
  }

  lemma ScanCount(p: Problem, sc: Scenario, s: View, c: Config, ready: seq<nat>, i: nat, count: nat,
                  recorded: seq<nat>, group: seq<nat>)
    requires ScanState(p, sc, s, c, ready, i, count, recorded, group) && i < |ready|
    requires ExclusionsSafe(p) && RepeatsShared(p, ready)
    requires p.IsJob(ready[i]) && p.jobs[ready[i]].levels != [] && p.jobs[ready[i]].MinCores() == 1
    requires Candidate(p, c.start.Keys, s, ready[i], recorded)
    ensures count > 1 ==> ScanState(p, sc, s, c, ready, i + 1, count - 1,
                                    recorded + SharedAmong(p, p.cons[ready[i]].predFinish), group + [ready[i]])
    ensures count == 1 ==> LowestHolds(p, sc, c, Some(ready[i]))
  {
    assert ready[i] in ready;
    WithinMore(group, ready, i);
    GroupJoin(p, c.start.Keys, s, ready, i, group, recorded);
    if count == 1 {
      GroupLowest(p, sc, s, c, ready, i, group + [ready[i]], recorded + SharedAmong(p, p.cons[ready[i]].predFinish));
    }
  }

  lemma ScannedJob(p: Problem, sc: Scenario, s: View, c: Config, ready: seq<nat>, i: nat, count: nat,
                   recorded: seq<nat>, group: seq<nat>)
    requires ScanState(p, sc, s, c, ready, i, count, recorded, group) && i < |ready|
    ensures ValidProblem(p) && p.IsJob(ready[i]) && |p.jobs[ready[i]].levels| > 0
        && IsReadySuccessor(p, c.start.Keys, ready[i])
  {
    assert ready[i] in ready && ValidJob(p.jobs[ready[i]], p.m);
  }

  /** One step of the scan stops with a safe result or continues with what it has established. */
  lemma ScanAtSound(p: Problem, sc: Scenario, s: View, c: Config, ready: seq<nat>, i: nat, count: nat,
                    recorded: seq<nat>, group: seq<nat>) returns (group': seq<nat>)
    requires ScanState(p, sc, s, c, ready, i, count, recorded, group) && i < |ready|
    requires ExclusionsSafe(p) && RepeatsShared(p, ready)
    ensures match ScanAt(p, c.start.Keys, s, ready[i], |ready| - i, count, recorded)
            case Stop(j) => LowestHolds(p, sc, c, Some(j))
            case Continue(count', recorded') => ScanState(p, sc, s, c, ready, i + 1, count', recorded', group')
  {
    hide Candidate, CertainlyReady, LowestHolds, Group, Within, SharedAmong;
    var j := ready[i];
    ScannedJob(p, sc, s, c, ready, i, count, recorded, group);
    group' := group;
    match ScanAt(p, c.start.Keys, s, j, |ready| - i, count, recorded) {
      case Stop(_) =>
        if CertainlyReady(p, c.start.Keys, s, j) {
          CertainlyReadyLowest(p, sc, s, c, j);
        } else {
          ScanCount(p, sc, s, c, ready, i, count, recorded, group);
        }
      case Continue(count', recorded') =>
        if count' == count {
          ScanSkip(p, sc, s, c, ready, i, count, recorded, group);
        } else {
          ScanCount(p, sc, s, c, ready, i, count, recorded, group);
          group' := group + [j];
        }
    }
  }

  /** The scan is safe: in every covered configuration, whenever a core is free, some job of at
      least the priority of the result can be started. */
  lemma {:induction false} LowestNextSound(p: Problem, sc: Scenario, s: View, c: Config, ready: seq<nat>, i: nat,
                                           count: nat,
                                           recorded: seq<nat>, group: seq<nat>)
    requires ScanState(p, sc, s, c, ready, i, count, recorded, group)
    requires ExclusionsSafe(p) && RepeatsShared(p, ready)
    ensures LowestHolds(p, sc, c, LowestNext(p, c.start.Keys, s, ready, i, count, recorded))
    decreases |ready| - i
  {
    if i < |ready| {
      var group' := ScanAtSound(p, sc, s, c, ready, i, count, recorded, group);
      match ScanAt(p, c.start.Keys, s, ready[i], |ready| - i, count, recorded) {
        case Stop(_) =>
        case Continue(count', recorded') =>
          LowestNextSound(p, sc, s, c, ready, i + 1, count', recorded', group');
      }
    }
  }

  // ---- When the scan finds a job ----

  /** The scan stops at the entry at `k`, or before. */
  ghost predicate StopsBy(ready: seq<nat>, r: Option<nat>, k: nat) {
    r.Some? && exists i :: 0 <= i <= k && i < |ready| && ready[i] == r.value
  }

  /** What the scan finds no later than at `k` is not of lower priority than the job there. */
  lemma StopsByPriority(p: Problem, ready: seq<nat>, r: Option<nat>, k: nat)
    requires ByPriority(p, ready) && k < |ready| && StopsBy(ready, r, k)
    ensures p.IsJob(r.value) && p.IsJob(ready[k]) && !PriorTo(p, ready[k], r.value)
  {
    var i :| 0 <= i <= k && i < |ready| && ready[i] == r.value;
  }

  /** The constraints of a list with starts are over before the first core is available: they impose no delay, or the
      delay has passed since the latest start. */
  ghost predicate StartsKnownOver(s: View, list: seq<Delay>, only: set<nat>)
    requires |s.cores| >= 1
  {
    forall i :: 0 <= i < |list| && list[i].ref in only ==>
      var q, d := list[i].ref, list[i].delay.max;
      d == 0 || (q in s.starts && s.starts[q].max + d <= s.cores[0].min)
  }

  /** `q` finished `d` time units before the first core is available: that has passed since its latest completion or,
      without delay, the only core is free, it finished before a second core is available, or a job that waits for it
      has been dispatched. */
  ghost predicate KnownOver(p: Problem, scheduled: set<nat>, s: View, q: nat, d: int)
    requires p.IsJob(q) && |s.cores| == p.m >= 1
  {
    || (d == 0 && p.m == 1)
    || (d > 0 && q in s.finishes && s.finishes[q].max + d <= s.cores[0].min)
    || (d == 0 && q in s.finishes && p.m > 1 && s.finishes[q].max < s.cores[1].min)
    || (d == 0 && q in s.finishes && exists k: nat :: k in scheduled && Refers(p.cons[q].succFinish, k))
  }

  lemma KnownOverExact(p: Problem, scheduled: set<nat>, s: View, q: nat, d: int)
    requires p.IsJob(q) && |s.cores| == p.m >= 1 && d >= 0
    ensures KnownOver(p, scheduled, s, q, d) <==> CertainlyDone(p, scheduled, s, q, d)
  {
  }

  ghost predicate FinishesKnownOver(p: Problem, scheduled: set<nat>, s: View, list: seq<Delay>)
    requires ValidList(list, |p.jobs|) && |p.cons| == |p.jobs| && |s.cores| == p.m >= 1
  {
    forall i :: 0 <= i < |list| && list[i].ref in scheduled ==>
      KnownOver(p, scheduled, s, list[i].ref, list[i].delay.max)
  }

  /** The job is released, and all its constraints are over, before the first core is available. */
  ghost predicate KnownReady(p: Problem, scheduled: set<nat>, s: View, j: nat)
    requires ValidProblem(p) && p.IsJob(j) && |s.cores| == p.m
  {
    assert ValidConstraints(p.cons[j], |p.jobs|);
    var c := p.cons[j];
    && p.jobs[j].arrival.max <= s.cores[0].min && PredsIn(p, j, scheduled)
    && StartsKnownOver(s, c.predStart, scheduled) && StartsKnownOver(s, c.exclStart, scheduled)
    && FinishesKnownOver(p, scheduled, s, c.predFinish) && FinishesKnownOver(p, scheduled, s, c.exclFinish)
  }

  lemma KnownReadyExact(p: Problem, scheduled: set<nat>, s: View, j: nat)
    requires ValidProblem(p) && p.IsJob(j) && |s.cores| == p.m
    ensures KnownReady(p, scheduled, s, j) <==> CertainlyReady(p, scheduled, s, j) && PredsIn(p, j, scheduled)
  {
    var c := p.cons[j];
    assert ValidConstraints(c, |p.jobs|);
    forall q: nat, d: int | p.IsJob(q) && d >= 0
      ensures KnownOver(p, scheduled, s, q, d) <==> CertainlyDone(p, scheduled, s, q, d)
    {
      KnownOverExact(p, scheduled, s, q, d);
    }
    hide ValidProblem, CertainlyDone, KnownOver;
  }

  /** A single-core job in the list that is certainly ready when the first core becomes available is found. */
  lemma {:induction false} ReadyJobFound(p: Problem, scheduled: set<nat>, s: View, ready: seq<nat>, i: nat, count: nat,
                                         recorded: seq<nat>, k: nat)
    requires ValidProblem(p) && |s.cores| == p.m && AllJobs(p, ready) && i <= k < |ready|
    requires p.IsJob(ready[k]) && SingleCore(p, ready[k]) && KnownReady(p, scheduled, s, ready[k])
    ensures StopsBy(ready, LowestNext(p, scheduled, s, ready, i, count, recorded), k)
    decreases |ready| - i
  {
    KnownReadyExact(p, scheduled, s, ready[k]);
    hide ValidProblem, CertainlyReady, Candidate, KnownReady;
    match ScanAt(p, scheduled, s, ready[i], |ready| - i, count, recorded) {
      case Stop(j) =>
        StopsAt(p, scheduled, s, ready, i, count, recorded);
      case Continue(count', recorded') =>
        assert i != k;
        ReadyJobFound(p, scheduled, s, ready, i + 1, count', recorded', k);
    }
  }

  lemma StopsAt(p: Problem, scheduled: set<nat>, s: View, ready: seq<nat>, i: nat, count: nat, recorded: seq<nat>)
    requires ValidProblem(p) && |s.cores| == p.m && AllJobs(p, ready) && i < |ready|
    requires ScanAt(p, scheduled, s, ready[i], |ready| - i, count, recorded).Stop?
    ensures ScanAt(p, scheduled, s, ready[i], |ready| - i, count, recorded).job == ready[i]
    ensures LowestNext(p, scheduled, s, ready, i, count, recorded) == Some(ready[i])
  {
    hide ValidProblem, CertainlyReady, Candidate;
  }

  /** The dispatched jobs of a list impose no delay, and lead to no other job. */
  ghost predicate Exclusive(p: Problem, scheduled: set<nat>, list: seq<Delay>) {
    forall i :: 0 <= i < |list| && list[i].ref in scheduled ==>
      && list[i].delay.max <= 0
      && (p.IsJob(list[i].ref) ==> |p.cons[list[i].ref].succStart| + |p.cons[list[i].ref].succFinish| <= 1)
  }

  /** The entry of a list refers to a dispatched job that did not start, or finish, before `arrival`. */
  ghost predicate HeldUp(list: seq<Delay>, scheduled: set<nat>, known: map<nat, Interval>, arrival: int, i: nat) {
    i < |list| && list[i].ref in scheduled && list[i].ref in known && arrival <= known[list[i].ref].min
  }

  /** A single-core job that becomes ready when the jobs that it alone waits for complete. */
  ghost predicate AwaitsAlone(p: Problem, scheduled: set<nat>, s: View, k: nat) {
    && p.IsJob(k) && SingleCore(p, k)
    && var c, arrival := p.cons[k], p.jobs[k].arrival.max;
       && Exclusive(p, scheduled, c.predStart) && Exclusive(p, scheduled, c.predFinish)
       && Exclusive(p, scheduled, c.exclStart) && Exclusive(p, scheduled, c.exclFinish)
       && exists i: nat ::
            || HeldUp(c.predStart, scheduled, s.starts, arrival, i)
            || HeldUp(c.predFinish, scheduled, s.finishes, arrival, i)
            || HeldUp(c.exclStart, scheduled, s.starts, arrival, i)
            || HeldUp(c.exclFinish, scheduled, s.finishes, arrival, i)
  }

  ghost predicate AllShared(p: Problem, recorded: seq<nat>) {
    forall q :: q in recorded ==> Shared(p, q)
  }

  lemma ExclusivePlain(p: Problem, scheduled: set<nat>, list: seq<Delay>, recorded: seq<nat>)
    requires Exclusive(p, scheduled, list) && AllShared(p, recorded)
    ensures Plain(list, scheduled, recorded)
  {
  }

  lemma AwaitsCandidate(p: Problem, scheduled: set<nat>, s: View, k: nat, recorded: seq<nat>)
    requires AwaitsAlone(p, scheduled, s, k) && AllShared(p, recorded)
    ensures Candidate(p, scheduled, s, k, recorded)
  {
    var c, arrival := p.cons[k], p.jobs[k].arrival.max;
    ExclusivePlain(p, scheduled, c.predStart, recorded);
    ExclusivePlain(p, scheduled, c.predFinish, recorded);
    ExclusivePlain(p, scheduled, c.exclStart, recorded);
    ExclusivePlain(p, scheduled, c.exclFinish, recorded);
    hide Plain, Exclusive, Shared;
  }

  /** Positions in the ready list from `i` on, in increasing order. */
  ghost predicate Positions(at: seq<nat>, i: nat, n: nat) {
    && (forall x :: 0 <= x < |at| ==> i <= at[x] < n)
    && forall x, y :: 0 <= x < y < |at| ==> at[x] < at[y]
  }

  lemma {:induction false} PositionsFit(at: seq<nat>, i: nat, n: nat)
    requires Positions(at, i, n) && i <= n
    ensures |at| <= n - i
  {
    if |at| > 0 {
      PositionsFit(at[1..], at[0] + 1, n);
    }
  }

  lemma AllSharedMore(p: Problem, recorded: seq<nat>, list: seq<Delay>)
    requires AllShared(p, recorded)
    ensures AllShared(p, recorded + SharedAmong(p, list))
  {
    SharedAmongExact(p, list);
  }

  /** As many such jobs as candidates are needed make the scan stop, at the last of them at the latest. */
  lemma {:induction false} GroupFound(p: Problem, scheduled: set<nat>, s: View, ready: seq<nat>, i: nat, count: nat,
                                      recorded: seq<nat>, at: seq<nat>)
    requires ValidProblem(p) && |s.cores| == p.m && AllJobs(p, ready) && i <= |ready|
    requires Positions(at, i, |ready|) && 1 <= count <= |at| && AllShared(p, recorded)
    requires forall x :: 0 <= x < |at| ==> AwaitsAlone(p, scheduled, s, ready[at[x]])
    ensures StopsBy(ready, LowestNext(p, scheduled, s, ready, i, count, recorded), at[|at| - 1])
    decreases |ready| - i
  {
    hide ValidProblem, CertainlyReady, Candidate, AwaitsAlone, AllShared, SharedAmong;
    PositionsFit(at, i, |ready|);
    if ScanAt(p, scheduled, s, ready[i], |ready| - i, count, recorded).Stop? {
      StopsAt(p, scheduled, s, ready, i, count, recorded);
    } else {
      var next := ScanAt(p, scheduled, s, ready[i], |ready| - i, count, recorded);
      AllSharedMore(p, recorded, p.cons[ready[i]].predFinish);
      if at[0] == i {
        AwaitsSingle(p, scheduled, s, ready[i]);
        AwaitsCandidate(p, scheduled, s, ready[i], recorded);
        GroupFound(p, scheduled, s, ready, i + 1, next.count, next.recorded, at[1..]);
      } else {
        GroupFound(p, scheduled, s, ready, i + 1, next.count, next.recorded, at);
      }
    }
  }

  lemma AwaitsSingle(p: Problem, scheduled: set<nat>, s: View, k: nat)
    requires AwaitsAlone(p, scheduled, s, k)
    ensures p.IsJob(k) && SingleCore(p, k)
  {
  }

  lemma ListOfJobs(p: Problem, ready: seq<nat>)
    requires ValidProblem(p) && ByPriority(p, ready)
    ensures AllJobs(p, ready) && AllShared(p, []) && p.m >= 1
  {
  }

  /** If the list holds as many of them as there are cores, the result is a job that is not of lower priority than the
      last one. */
  lemma LowestNextFound(p: Problem, scheduled: set<nat>, s: View, ready: seq<nat>, at: seq<nat>)
    requires ValidProblem(p) && |s.cores| == p.m && ByPriority(p, ready)
    requires Positions(at, 0, |ready|) && |at| == p.m
    requires forall x :: 0 <= x < p.m ==> AwaitsAlone(p, scheduled, s, ready[at[x]])
    ensures AllJobs(p, ready)
    ensures var r := LowestNext(p, scheduled, s, ready, 0, p.m, []);
            r.Some? && p.IsJob(r.value) && !PriorTo(p, ready[at[p.m - 1]], r.value)
  {
    hide ValidProblem, AwaitsAlone, ByPriority, LowestNext;
    ListOfJobs(p, ready);
    GroupFound(p, scheduled, s, ready, 0, p.m, [], at);
    StopsByPriority(p, ready, LowestNext(p, scheduled, s, ready, 0, p.m, []), at[p.m - 1]);
  }
}
