// A scheduling problem in the shape the exploration works on: jobs, and for
// every job the lists of its precedence and exclusion constraints.
module Workload {
  import opened Times
  import opened Jobs

  /** A constraint with another job: the time that must pass since that job started or finished. */
  datatype Delay = Delay(ref: nat, delay: Interval)

  datatype JobConstraints = JobConstraints(
    predStart: seq<Delay>,    // this job waits for the start of `ref`
    predFinish: seq<Delay>,   // this job waits for the completion of `ref`
    succStart: seq<Delay>,    // `ref` waits for the start of this job
    succFinish: seq<Delay>,   // `ref` waits for the completion of this job
    exclStart: seq<Delay>,    // starts of this job and `ref` are kept apart, in either order
    exclFinish: seq<Delay>    // executions of this job and `ref` are kept apart, in either order
  )

  datatype Problem = Problem(jobs: seq<Job>, cons: seq<JobConstraints>, m: nat) {
    predicate IsJob(j: nat) {
      j < |jobs| && j < |cons|
    }
  }

  function Unconstrained(): JobConstraints {
    JobConstraints([], [], [], [], [], [])
  }

  predicate Refers(list: seq<Delay>, q: nat) {
    exists i :: 0 <= i < |list| && list[i].ref == q
  }

  predicate ValidList(list: seq<Delay>, n: nat) {
    forall i :: 0 <= i < |list| ==> list[i].ref < n && 0 <= list[i].delay.min <= list[i].delay.max
  }

  predicate SortedByPriority(jobs: seq<Job>, list: seq<nat>) {
    && (forall i :: 0 <= i < |list| ==> list[i] < |jobs|)
    && (forall i, j :: 0 <= i < j < |list| ==> !Higher(jobs[list[j]], jobs[list[i]]))
  }

  function Refs(list: seq<Delay>): (r: seq<nat>)
    ensures |r| == |list| && forall i :: 0 <= i < |list| ==> r[i] == list[i].ref
  {
    seq(|list|, i requires 0 <= i < |list| => list[i].ref)
  }

  predicate ValidConstraints(c: JobConstraints, n: nat) {
    && ValidList(c.predStart, n) && ValidList(c.predFinish, n)
    && ValidList(c.succStart, n) && ValidList(c.succFinish, n)
    && ValidList(c.exclStart, n) && ValidList(c.exclFinish, n)
  }

  ghost predicate ValidProblem(p: Problem) {
    && p.m >= 1
    && |p.cons| == |p.jobs|
    && (forall j :: 0 <= j < |p.jobs| ==> ValidJob(p.jobs[j], p.m))
    && (forall j :: 0 <= j < |p.jobs| ==> ValidConstraints(p.cons[j], |p.jobs|))
    && (forall j :: 0 <= j < |p.jobs| ==>
          && SortedByPriority(p.jobs, Refs(p.cons[j].succStart))
          && SortedByPriority(p.jobs, Refs(p.cons[j].succFinish)))
    && (forall j, k :: 0 <= j < |p.jobs| && 0 <= k < |p.jobs| ==>
          && (Refers(p.cons[j].succStart, k) <==> Refers(p.cons[k].predStart, j))
          && (Refers(p.cons[j].succFinish, k) <==> Refers(p.cons[k].predFinish, j))
          && (Refers(p.cons[j].exclStart, k) <==> Refers(p.cons[k].exclStart, j))
          && (Refers(p.cons[j].exclFinish, k) <==> Refers(p.cons[k].exclFinish, j)))
  }

  predicate HasPreds(p: Problem, k: nat)
    requires p.IsJob(k)
  {
    |p.cons[k].predStart| > 0 || |p.cons[k].predFinish| > 0
  }

  predicate HasExclusions(p: Problem, k: nat)
    requires p.IsJob(k)
  {
    |p.cons[k].exclStart| > 0 || |p.cons[k].exclFinish| > 0
  }

  predicate AllIn(list: seq<Delay>, dispatched: set<nat>) {
    forall i :: 0 <= i < |list| ==> list[i].ref in dispatched
  }

  /** Every predecessor of `k` has been dispatched. */
  predicate PredsIn(p: Problem, k: nat, dispatched: set<nat>)
    requires p.IsJob(k)
  {
    AllIn(p.cons[k].predStart, dispatched) && AllIn(p.cons[k].predFinish, dispatched)
  }

  predicate PriorTo(p: Problem, a: nat, b: nat)
    requires p.IsJob(a) && p.IsJob(b)
  {
    Higher(p.jobs[a], p.jobs[b])
  }

  /** Least minimum delay a list imposes after `q`; -1 when it does not mention `q`. */
  function MinDelayIn(list: seq<Delay>, q: nat): int {
    if |list| == 0 then -1
    else
      var k := |list| - 1;
      var d := MinDelayIn(list[..k], q);
      if list[k].ref != q then d
      else if d == -1 then list[k].delay.min
      else Min(d, list[k].delay.min)
  }

  lemma {:induction false} MinDelayInExact(list: seq<Delay>, q: nat, n: nat)
    requires ValidList(list, n)
    ensures MinDelayIn(list, q) == -1 <==> !Refers(list, q)
    ensures MinDelayIn(list, q) >= -1
    ensures forall i :: 0 <= i < |list| && list[i].ref == q ==> MinDelayIn(list, q) <= list[i].delay.min
    ensures Refers(list, q) ==>
              exists i :: 0 <= i < |list| && list[i].ref == q && MinDelayIn(list, q) == list[i].delay.min
  {
    if |list| > 0 {
      var k := |list| - 1;
      MinDelayInExact(list[..k], q, n);
      if i :| 0 <= i < k && list[..k][i].ref == q && MinDelayIn(list[..k], q) == list[..k][i].delay.min {
        assert list[i].ref == q;
      }
    }
  }

  function MinDelayAmong(a: seq<Delay>, b: seq<Delay>, q: nat): int {
    var x := MinDelayIn(a, q);
    var y := MinDelayIn(b, q);
    if x == -1 then y else if y == -1 then x else Min(x, y)
  }

  /** Least delay after the start of `q` that the constraints of a job impose; -1 when there is none. */
  function MinDelayAfterStart(c: JobConstraints, q: nat): int {
    MinDelayAmong(c.predStart, c.exclStart, q)
  }

  function MinDelayAfterFinish(c: JobConstraints, q: nat): int {
    MinDelayAmong(c.predFinish, c.exclFinish, q)
  }

  /** Jobs that have finished whenever `j` starts. */
  predicate MustBeFinished(c: JobConstraints, q: nat) {
    Refers(c.predFinish, q) || Refers(c.exclFinish, q)
  }

  function Elems(v: seq<nat>): set<nat> {
    set q | q in v
  }
}
