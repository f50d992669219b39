// Tracking the jobs whose predecessors have all been dispatched, highest priority first.
module ReadyJobs {
  import opened Times
  import opened Jobs
  import opened Workload
  import opened PendingSuccessors

  ghost predicate ByPriority(p: Problem, v: seq<nat>) {
    && AllJobs(p, v)
    && forall i, k :: 0 <= i < k < |v| ==> !PriorTo(p, v[k], v[i])
  }

  /** The ready list holds, in priority order, precisely the undispatched jobs that have
      predecessors, all of them dispatched. */
  ghost predicate ReadyExact(p: Problem, scheduled: set<nat>, ready: seq<nat>) {
    && ByPriority(p, ready)
    && forall k :: k in ready <==> IsReadySuccessor(p, scheduled, k)
  }

  ghost predicate IsReadySuccessor(p: Problem, scheduled: set<nat>, k: nat) {
    p.IsJob(k) && k !in scheduled && HasPreds(p, k) && PredsIn(p, k, scheduled)
  }

  class ReadyJobsTracker {
    var ready: seq<nat>

    constructor ()
      ensures ready == []
    {
      ready := [];
    }

    /** Whether all predecessors of `k` have been dispatched. */
    method IsReady(p: Problem, k: nat, scheduled: set<nat>) returns (r: bool)
      requires p.IsJob(k)
      ensures r == PredsIn(p, k, scheduled)
    {
      var i := 0;
      while i < |p.cons[k].predStart|
        invariant 0 <= i <= |p.cons[k].predStart|
        invariant forall l :: 0 <= l < i ==> p.cons[k].predStart[l].ref in scheduled
      {
        if p.cons[k].predStart[i].ref !in scheduled {
          return false;
        }
        i := i + 1;
      }
      i := 0;
      while i < |p.cons[k].predFinish|
        invariant 0 <= i <= |p.cons[k].predFinish|
        invariant forall l :: 0 <= l < i ==> p.cons[k].predFinish[l].ref in scheduled
      {
        if p.cons[k].predFinish[i].ref !in scheduled {
          return false;
        }
        i := i + 1;
      }
      return true;
    }

    /** The entries of an old ready list that are not the dispatched job. */
    method Others(p: Problem, v: seq<nat>, j: nat) returns (r: seq<nat>)
      requires ByPriority(p, v)
      ensures ByPriority(p, r)
      ensures multiset(r) == multiset(v)[j := 0]
    {
      hide PriorTo;
      r := [];
      var i := 0;
      while i < |v|
        invariant 0 <= i <= |v|
        invariant ByPriority(p, r) && NoneHigher(p, r, v[i..])
        invariant multiset(r) == multiset(v[..i])[j := 0]
      {
        assert v[..i + 1] == v[..i] + [v[i]] && v[i] in v[i..];
        if v[i] != j {
          AppendByPriority(p, r, v[i]);
          r := r + [v[i]];
        }
        i := i + 1;
      }
      assert v[..i] == v;
    }

    /** The successors in the list whose predecessors have all been dispatched. */
    method ReadyAmong(p: Problem, v: seq<nat>, scheduled: set<nat>) returns (r: seq<nat>)
      requires ByPriority(p, v)
      ensures ByPriority(p, r)
      ensures forall k :: multiset(r)[k] == if p.IsJob(k) && PredsIn(p, k, scheduled) then multiset(v)[k] else 0
    {
      r := [];
      var i := 0;
      while i < |v|
        invariant 0 <= i <= |v|
        invariant ByPriority(p, r) && NoneHigher(p, r, v[i..])
        invariant forall k :: multiset(r)[k] == if p.IsJob(k)
            && PredsIn(p, k, scheduled) then multiset(v[..i])[k] else 0
      {
        assert v[..i + 1] == v[..i] + [v[i]] && v[i] in v[i..];
        var b := IsReady(p, v[i], scheduled);
        if b {
          AppendByPriority(p, r, v[i]);
          r := r + [v[i]];
        }
        i := i + 1;
      }
      assert v[..i] == v;
    }

    /** The head of highest priority, the earlier list winning ties, and the list it comes from. */
    method Candidate(p: Problem, a: seq<nat>, b: seq<nat>, c: seq<nat>) returns (q: nat, source: nat)
      requires AllJobs(p, a) && AllJobs(p, b) && AllJobs(p, c)
      requires |a| > 0 || |b| > 0 || |c| > 0
      ensures p.IsJob(q)
      ensures source == 0 ==> |a| > 0 && q == a[0]
      ensures source == 1 ==> |b| > 0 && q == b[0]
      ensures source >= 2 ==> |c| > 0 && q == c[0]
      ensures (|a| > 0 ==> !PriorTo(p, a[0], q)) && (|b| > 0 ==> !PriorTo(p, b[0], q))
          && (|c| > 0 ==> !PriorTo(p, c[0], q))
    {
      var candidate: Option<nat> := None;
      source := 0;
      if |a| > 0 {
        candidate := Some(a[0]);
      }
      if |b| > 0 && (candidate.None? || PriorTo(p, b[0], candidate.value)) {
        candidate, source := Some(b[0]), 1;
      }
      if |c| > 0 && (candidate.None? || PriorTo(p, c[0], candidate.value)) {
        candidate, source := Some(c[0]), 2;
      }
      q := candidate.value;
    }

    /** Three-way merge of lists in priority order. */
    method MergeByPriority(p: Problem, a: seq<nat>, b: seq<nat>, c: seq<nat>) returns (r: seq<nat>)
      requires ByPriority(p, a) && ByPriority(p, b) && ByPriority(p, c)
      ensures ByPriority(p, r) && multiset(r) == multiset(a) + multiset(b) + multiset(c)
    {
      hide ByPriority, NoneHigher, PriorTo, AllJobs;
      r := [];
      var x, y, z := a, b, c;
      NothingPlaced(p, a, b, c);
      while |x| > 0 || |y| > 0 || |z| > 0
        invariant ByPriority(p, r) && ByPriority(p, x) && ByPriority(p, y) && ByPriority(p, z)
        invariant NoneHigher(p, r, x) && NoneHigher(p, r, y) && NoneHigher(p, r, z)
        invariant multiset(r) + multiset(x) + multiset(y) + multiset(z) == multiset(a) + multiset(b) + multiset(c)
        decreases |x| + |y| + |z|
      {
        OrderedJobs(p, x);
        OrderedJobs(p, y);
        OrderedJobs(p, z);
        var q, source := Candidate(p, x, y, z);
        TakeHead(p, r, x, q);
        TakeHead(p, r, y, q);
        TakeHead(p, r, z, q);
        AppendHead(p, r, if source == 0 then x else if source == 1 then y else z, q);
        r := r + [q];
        if source == 0 {
          HeadAndTail(x);
          x := x[1..];
        } else if source == 1 {
          HeadAndTail(y);
          y := y[1..];
        } else {
          HeadAndTail(z);
          z := z[1..];
        }
      }
    }

    /** Become the ready list after `j` was dispatched, starting from the list `from`; `scheduled` includes `j`. */
    method Update(p: Problem, from: seq<nat>, j: nat, scheduled: set<nat>)
      requires ValidProblem(p) && p.IsJob(j) && ByPriority(p, from)
      modifies this
      ensures ByPriority(p, ready)
      ensures forall k :: multiset(ready)[k] == UpdatedCount(p, from, j, scheduled, k)
    {
      var a := Others(p, from, j);
      SuccessorsByPriority(p, j);
      var b := ReadyAmong(p, Refs(p.cons[j].succStart), scheduled);
      var c := ReadyAmong(p, Refs(p.cons[j].succFinish), scheduled);
      ready := MergeByPriority(p, a, b, c);
    }
  }

  /** How often a job appears in the updated list: old entries other than `j`, and once for every
      edge from `j` that leads to it, if it has become ready. */
  ghost function UpdatedCount(p: Problem, old_: seq<nat>, j: nat, scheduled: set<nat>, k: nat): nat
    requires p.IsJob(j)
  {
    (if k == j then 0 else multiset(old_)[k])
      + if p.IsJob(k) && PredsIn(p, k, scheduled)
        then multiset(Refs(p.cons[j].succStart))[k] + multiset(Refs(p.cons[j].succFinish))[k] else 0
  }

  /** No job of `rest` has higher priority than a job of `done`. */
  ghost predicate NoneHigher(p: Problem, done: seq<nat>, rest: seq<nat>) {
    forall a, b :: a in done && b in rest && p.IsJob(a) && p.IsJob(b) ==> !PriorTo(p, b, a)
  }

  lemma AppendByPriority(p: Problem, v: seq<nat>, q: nat)
    requires ByPriority(p, v) && p.IsJob(q)
    requires forall a :: a in v && p.IsJob(a) ==> !PriorTo(p, q, a)
    ensures ByPriority(p, v + [q])
  {
    assert forall i :: 0 <= i < |v| ==> v[i] in v;
  }

  lemma HeadAndTail(v: seq<nat>)
    requires |v| > 0
    ensures multiset(v) == multiset{v[0]} + multiset(v[1..])
  {
    assert v == [v[0]] + v[1..];
  }

  lemma OrderedJobs(p: Problem, v: seq<nat>)
    requires ByPriority(p, v)
    ensures AllJobs(p, v)
  {
  }

  lemma NothingPlaced(p: Problem, a: seq<nat>, b: seq<nat>, c: seq<nat>)
    ensures ByPriority(p, []) && NoneHigher(p, [], a) && NoneHigher(p, [], b) && NoneHigher(p, [], c)
  {
  }

  /** The head of a list that `v` does not go beyond can follow `v`. */
  lemma AppendHead(p: Problem, v: seq<nat>, list: seq<nat>, q: nat)
    requires ByPriority(p, v) && p.IsJob(q) && NoneHigher(p, v, list) && |list| > 0 && q == list[0]
    ensures ByPriority(p, v + [q])
  {
    AppendByPriority(p, v, q);
  }

  /** A job that the head of a list does not precede can follow what the whole list may follow. */
  lemma TakeHead(p: Problem, r: seq<nat>, v: seq<nat>, q: nat)
    requires ByPriority(p, v) && NoneHigher(p, r, v) && p.IsJob(q)
    requires |v| > 0 ==> !PriorTo(p, v[0], q)
    ensures NoneHigher(p, r + [q], v)
    ensures |v| > 0 ==> ByPriority(p, v[1..]) && NoneHigher(p, r + [q], v[1..])
  {
    forall b | b in v && p.IsJob(b)
      ensures !PriorTo(p, b, q)
    {
      var k :| 0 <= k < |v| && v[k] == b;
      assert k > 0 ==> !PriorTo(p, v[k], v[0]);
    }
  }

  lemma SuccessorsByPriority(p: Problem, j: nat)
    requires ValidProblem(p) && p.IsJob(j)
    ensures ByPriority(p, Refs(p.cons[j].succStart)) && ByPriority(p, Refs(p.cons[j].succFinish))
  {
  }

  lemma RefsOf(list: seq<Delay>, k: nat)
    ensures k in Refs(list) <==> Refers(list, k)
    ensures multiset(Refs(list))[k] > 0 <==> Refers(list, k)
  {
    if k in Refs(list) {
      var i :| 0 <= i < |list| && Refs(list)[i] == k;
      assert list[i].ref == k;
    }
    if Refers(list, k) {
      var i :| 0 <= i < |list| && list[i].ref == k;
      assert Refs(list)[i] == k;
    }
  }

  /** A job that becomes ready when `j` is dispatched is a successor of `j`, and conversely. */
  lemma NewlyReady(p: Problem, scheduled: set<nat>, j: nat, k: nat)
    requires ValidProblem(p) && Closed(p, scheduled)
    requires p.IsJob(j) && j !in scheduled && PredsIn(p, j, scheduled) && p.IsJob(k)
    ensures IsReadySuccessor(p, scheduled + {j}, k) && !IsReadySuccessor(p, scheduled, k)
       <==> PredsIn(p, k, scheduled + {j}) && (Refers(p.cons[j].succStart, k) || Refers(p.cons[j].succFinish, k))
  {
    assert Refers(p.cons[j].succStart, k) <==> Refers(p.cons[k].predStart, j);
    assert Refers(p.cons[j].succFinish, k) <==> Refers(p.cons[k].predFinish, j);
    if Refers(p.cons[k].predStart, j) || Refers(p.cons[k].predFinish, j) {
      assert k !in scheduled;
      assert !PredsIn(p, k, scheduled);
      assert k != j;
      assert HasPreds(p, k);
    } else if PredsIn(p, k, scheduled + {j}) {
      assert PredsIn(p, k, scheduled);
    }
  }

  /** The ready list is exact on every path: it is sorted by priority and holds precisely the
      undispatched jobs that have predecessors, all of them dispatched. */
  lemma UpdatedReadyExact(p: Problem, scheduled: set<nat>, old_: seq<nat>, j: nat, ready: seq<nat>)
    requires ValidProblem(p) && Closed(p, scheduled)
    requires p.IsJob(j) && j !in scheduled && PredsIn(p, j, scheduled)
    requires ReadyExact(p, scheduled, old_) && ByPriority(p, ready)
    requires forall k :: multiset(ready)[k] == UpdatedCount(p, old_, j, scheduled + {j}, k)
    ensures ReadyExact(p, scheduled + {j}, ready)
  {
    forall k
      ensures k in ready <==> IsReadySuccessor(p, scheduled + {j}, k)
    {
      assert k in ready <==> multiset(ready)[k] > 0;
      assert k in old_ <==> multiset(old_)[k] > 0;
      if p.IsJob(k) {
        RefsOf(p.cons[j].succStart, k);
        RefsOf(p.cons[j].succFinish, k);
        NewlyReady(p, scheduled, j, k);
      }
    }
  }

  ghost predicate DuplicateFree(v: seq<nat>) {
    forall k :: multiset(v)[k] <= 1
  }

  /** A list without duplicates stays so exactly when the dispatched job leads to each job that
      becomes ready by a single edge: a start and a finish edge to the same job list it twice. */
  lemma ReadyDuplicates(p: Problem, scheduled: set<nat>, old_: seq<nat>, j: nat, ready: seq<nat>)
    requires ValidProblem(p) && Closed(p, scheduled)
    requires p.IsJob(j) && j !in scheduled && PredsIn(p, j, scheduled)
    requires ReadyExact(p, scheduled, old_) && DuplicateFree(old_)
    requires forall k :: multiset(ready)[k] == UpdatedCount(p, old_, j, scheduled + {j}, k)
    ensures DuplicateFree(ready) <==>
              forall k :: p.IsJob(k) && PredsIn(p, k, scheduled + {j}) ==>
                multiset(Refs(p.cons[j].succStart))[k] + multiset(Refs(p.cons[j].succFinish))[k] <= 1
  {
    forall k | p.IsJob(k)
      ensures PredsIn(p, k, scheduled + {j})
              && multiset(Refs(p.cons[j].succStart))[k] + multiset(Refs(p.cons[j].succFinish))[k] >= 1
              ==> multiset(old_)[k] == 0 && k != j
    {
      RefsOf(p.cons[j].succStart, k);
      RefsOf(p.cons[j].succFinish, k);
      NewlyReady(p, scheduled, j, k);
      assert k in old_ <==> multiset(old_)[k] > 0;
    }
    forall k | p.IsJob(k)
      ensures multiset(ready)[k] == UpdatedCount(p, old_, j, scheduled + {j}, k)
      ensures multiset(old_)[k] <= 1
    {
    }
    if DuplicateFree(ready) {
      forall k | p.IsJob(k) && PredsIn(p, k, scheduled + {j})
        ensures multiset(Refs(p.cons[j].succStart))[k] + multiset(Refs(p.cons[j].succFinish))[k] <= 1
      {
        assert multiset(ready)[k] <= 1;
      }
    }
  }
}
