// Tracking the dispatched jobs whose start or finish time still constrains an undispatched job.
module PendingSuccessors {
  import opened Times
  import opened Jobs
  import opened Workload
  import opened JobTiming

  datatype ConstraintType = StartConstraints | FinishConstraints

  function Successors(c: JobConstraints, kind: ConstraintType): seq<Delay> {
    if kind == StartConstraints then c.succStart else c.succFinish
  }

  function Exclusions(c: JobConstraints, kind: ConstraintType): seq<Delay> {
    if kind == StartConstraints then c.exclStart else c.exclFinish
  }

  /** A dispatched job that a still undispatched job must wait for or be kept apart from. */
  predicate StillPending(c: JobConstraints, kind: ConstraintType, scheduled: set<nat>) {
    !AllIn(Successors(c, kind), scheduled) || !AllIn(Exclusions(c, kind), scheduled)
  }

  /** The test for the job being dispatched: none of its successors can have been dispatched. */
  predicate NewlyPending(c: JobConstraints, kind: ConstraintType, scheduled: set<nat>) {
    |Successors(c, kind)| > 0 || !AllIn(Exclusions(c, kind), scheduled)
  }

  ghost predicate PendingExact(p: Problem, kind: ConstraintType, scheduled: set<nat>, list: seq<nat>) {
    && IncreasingJobs(list)
    && forall q :: q in list <==> q in scheduled && Live(p, q, kind, scheduled)
  }

  predicate Live(p: Problem, q: nat, kind: ConstraintType, scheduled: set<nat>) {
    p.IsJob(q) && StillPending(p.cons[q], kind, scheduled)
  }

  /** A job is pending exactly if some undispatched job waits for it or is kept apart from it. */
  lemma LiveExact(p: Problem, q: nat, scheduled: set<nat>)
    requires p.IsJob(q)
    ensures Live(p, q, StartConstraints, scheduled) <==>
              exists k: nat :: k !in scheduled && (Refers(p.cons[q].succStart, k) || Refers(p.cons[q].exclStart, k))
    ensures Live(p, q, FinishConstraints, scheduled) <==>
              exists k: nat :: k !in scheduled && (Refers(p.cons[q].succFinish, k) || Refers(p.cons[q].exclFinish, k))
  {
    UndispatchedExact(p.cons[q].succStart, scheduled);
    UndispatchedExact(p.cons[q].exclStart, scheduled);
    UndispatchedExact(p.cons[q].succFinish, scheduled);
    UndispatchedExact(p.cons[q].exclFinish, scheduled);
    hide AllIn, Refers;
  }

  lemma UndispatchedExact(list: seq<Delay>, scheduled: set<nat>)
    ensures !AllIn(list, scheduled) <==> exists k: nat :: k !in scheduled && Refers(list, k)
  {
    if i :| 0 <= i < |list| && list[i].ref !in scheduled {
      assert Refers(list, list[i].ref);
    }
  }

  predicate NewlyLive(p: Problem, q: nat, kind: ConstraintType, scheduled: set<nat>) {
    p.IsJob(q) && NewlyPending(p.cons[q], kind, scheduled)
  }

  predicate AllJobs(p: Problem, v: seq<nat>) {
    forall i :: 0 <= i < |v| ==> v[i] < |p.jobs| && v[i] < |p.cons|
  }

  class PendingSuccessorsTracker {
    var pendingStart: seq<nat>
    var pendingFinish: seq<nat>

    constructor ()
      ensures pendingStart == [] && pendingFinish == []
    {
      pendingStart, pendingFinish := [], [];
    }

    /** Whether one of the constraints of the list involves a job that has not been dispatched. */
    method Unmet(list: seq<Delay>, scheduled: set<nat>) returns (r: bool)
      ensures r == !AllIn(list, scheduled)
    {
      var i := 0;
      while i < |list|
        invariant 0 <= i <= |list|
        invariant forall k :: 0 <= k < i ==> list[k].ref in scheduled
      {
        if list[i].ref !in scheduled {
          return true;
        }
        i := i + 1;
      }
      return false;
    }

    /** The jobs of `dispatched` to add to a list. */
    method JobsToAdd(p: Problem, dispatched: seq<nat>, kind: ConstraintType,
                     scheduled: set<nat>) returns (added: seq<nat>)
      requires AllJobs(p, dispatched) && IncreasingJobs(dispatched)
      ensures IncreasingJobs(added)
      ensures forall q :: q in added <==> q in dispatched && NewlyLive(p, q, kind, scheduled)
    {
      added := [];
      var i := 0;
      while i < |dispatched|
        invariant 0 <= i <= |dispatched|
        invariant IncreasingJobs(added)
        invariant forall q :: q in added <==> q in dispatched[..i] && NewlyLive(p, q, kind, scheduled)
      {
        var q := dispatched[i];
        assert dispatched[..i + 1] == dispatched[..i] + [q];
        var c := p.cons[q];
        var pending := |Successors(c, kind)| > 0;
        if !pending {
          pending := Unmet(Exclusions(c, kind), scheduled);
        }
        assert pending == NewlyLive(p, q, kind, scheduled);
        if pending {
          AppendIncreasing(added, q);
          added := added + [q];
        }
        i := i + 1;
      }
      assert dispatched[..i] == dispatched;
    }

    /** Whether job `q`, dispatched earlier, is still pending. */
    method CheckLive(p: Problem, q: nat, kind: ConstraintType, scheduled: set<nat>) returns (pending: bool)
      requires p.IsJob(q)
      ensures pending == Live(p, q, kind, scheduled)
    {
      var c := p.cons[q];
      pending := Unmet(Successors(c, kind), scheduled);
      if !pending {
        pending := Unmet(Exclusions(c, kind), scheduled);
      }
    }

    /** Push the jobs of `added` from index `add` on that come before `limit`. */
    method PushBefore(result: seq<nat>, added: seq<nat>, add: nat, limit: nat) returns (result': seq<nat>, add': nat)
      requires add <= |added| && IncreasingJobs(added) && IncreasingJobs(result)
      requires forall r :: r in result ==> r < limit && (add < |added| ==> r < added[add])
      ensures add <= add' <= |added| && (add' < |added| ==> limit <= added[add'])
      ensures IncreasingJobs(result') && forall r :: r in result' ==> r < limit
      ensures forall r :: r in result' <==> r in result || r in added[add..add']
    {
      result', add' := result, add;
      while add' < |added| && limit > added[add']
        invariant add <= add' <= |added|
        invariant IncreasingJobs(result')
        invariant forall r :: r in result' ==> r < limit && (add' < |added| ==> r < added[add'])
        invariant forall r :: r in result' <==> r in result || r in added[add..add']
      {
        assert added[add..add' + 1] == added[add..add'] + [added[add']];
        AppendIncreasing(result', added[add']);
        result' := result' + [added[add']];
        add' := add' + 1;
      }
    }

    /** The sorted merge of the jobs of an old list that are still pending with the newly dispatched ones. */
    method UpdatePendingList(p: Problem, list: seq<nat>, dispatched: seq<nat>, kind: ConstraintType,
                             scheduled: set<nat>)
        returns (result: seq<nat>)
      requires AllJobs(p, list) && AllJobs(p, dispatched) && IncreasingJobs(list) && IncreasingJobs(dispatched)
      requires forall q :: q in list ==> q !in dispatched
      ensures IncreasingJobs(result)
      ensures forall q :: q in result <==> (q in list && Live(p, q, kind, scheduled))
                                           || (q in dispatched && NewlyLive(p, q, kind, scheduled))
    {
      result := [];
      var added := JobsToAdd(p, dispatched, kind, scheduled);
      var i, add := 0, 0;
      while i < |list|
        invariant 0 <= i <= |list| && 0 <= add <= |added|
        invariant IncreasingJobs(result)
        invariant forall r :: r in result ==> (i < |list| ==> r < list[i]) && (add < |added| ==> r < added[add])
        invariant forall q :: q in result <==> (q in list[..i] && Live(p, q, kind, scheduled)) || q in added[..add]
      {
        var q := list[i];
        assert list[..i + 1] == list[..i] + [q];
        ghost var before := add;
        result, add := PushBefore(result, added, add, q);
        assert added[..add] == added[..before] + added[before..add];
        assert add < |added| ==> added[add] in added;
        var pending := CheckLive(p, q, kind, scheduled);
        if pending {
          AppendIncreasing(result, q);
          result := result + [q];
        }
        i := i + 1;
      }
      assert list[..i] == list;
      while add < |added|
        invariant 0 <= add <= |added|
        invariant IncreasingJobs(result)
        invariant add < |added| ==> forall r :: r in result ==> r < added[add]
        invariant forall q :: q in result <==> (q in list && Live(p, q, kind, scheduled)) || q in added[..add]
      {
        assert added[..add + 1] == added[..add] + [added[add]];
        AppendIncreasing(result, added[add]);
        result := result + [added[add]];
        add := add + 1;
      }
      assert added[..add] == added;
    }

    /** Become the lists after `j` was dispatched, starting from the lists of another tracker. */
    method Update(p: Problem, fromStart: seq<nat>, fromFinish: seq<nat>, j: nat, scheduled: set<nat>)
      requires ValidProblem(p) && Closed(p, scheduled)
      requires p.IsJob(j) && j !in scheduled && PredsIn(p, j, scheduled)
      requires PendingExact(p, StartConstraints, scheduled, fromStart)
          && PendingExact(p, FinishConstraints, scheduled, fromFinish)
      modifies this
      ensures Exact(p, scheduled + {j})
    {
      var c := p.cons[j];
      var dispatched: seq<nat> := [];
      if |c.succStart| > 0 || |c.succFinish| > 0 || |c.exclStart| > 0 || |c.exclFinish| > 0 {
        dispatched := [j];
      }
      PendingJobs(p, StartConstraints, scheduled, fromStart);
      PendingJobs(p, FinishConstraints, scheduled, fromFinish);
      pendingStart := UpdatePendingList(p, fromStart, dispatched, StartConstraints, scheduled + {j});
      pendingFinish := UpdatePendingList(p, fromFinish, dispatched, FinishConstraints, scheduled + {j});
      UpdatedListExact(p, scheduled, fromStart, j, StartConstraints, pendingStart, dispatched);
      UpdatedListExact(p, scheduled, fromFinish, j, FinishConstraints, pendingFinish, dispatched);
    }

    ghost predicate Exact(p: Problem, scheduled: set<nat>)
      reads this
    {
      && PendingExact(p, StartConstraints, scheduled, pendingStart)
      && PendingExact(p, FinishConstraints, scheduled, pendingFinish)
    }
  }

  lemma AppendIncreasing(v: seq<nat>, q: nat)
    requires IncreasingJobs(v) && forall r :: r in v ==> r < q
    ensures IncreasingJobs(v + [q])
  {
    assert forall i :: 0 <= i < |v| ==> v[i] in v;
  }

  lemma PendingJobs(p: Problem, kind: ConstraintType, scheduled: set<nat>, list: seq<nat>)
    requires PendingExact(p, kind, scheduled, list)
    ensures AllJobs(p, list) && forall q :: q in list ==> q in scheduled
  {
    assert forall i :: 0 <= i < |list| ==> list[i] in list;
  }

  /** Dispatched sets are closed under predecessors. */
  ghost predicate Closed(p: Problem, scheduled: set<nat>) {
    forall k :: k in scheduled ==> p.IsJob(k) && PredsIn(p, k, scheduled)
  }

  lemma SuccessorsUndispatched(p: Problem, scheduled: set<nat>, j: nat, kind: ConstraintType, i: nat)
    requires ValidProblem(p) && Closed(p, scheduled) && p.IsJob(j) && j !in scheduled && PredsIn(p, j, scheduled)
    requires i < |Successors(p.cons[j], kind)|
    ensures Successors(p.cons[j], kind)[i].ref !in scheduled + {j}
  {
    var k := Successors(p.cons[j], kind)[i].ref;
    assert Refers(Successors(p.cons[j], kind), k);
    assert ValidConstraints(p.cons[j], |p.jobs|);
    assert Refers(p.cons[k].predStart, j) || Refers(p.cons[k].predFinish, j);
  }

  /** The pending lists stay exact: on every path they hold, in increasing order, precisely the
      dispatched jobs with an undispatched successor or exclusion partner of that kind. */
  lemma UpdatedListExact(p: Problem, scheduled: set<nat>, list: seq<nat>, j: nat, kind: ConstraintType,
                         result: seq<nat>, dispatched: seq<nat>)
    requires ValidProblem(p) && Closed(p, scheduled) && p.IsJob(j) && j !in scheduled && PredsIn(p, j, scheduled)
    requires PendingExact(p, kind, scheduled, list) && IncreasingJobs(result)
    requires dispatched == [j] || (dispatched == [] && !NewlyLive(p, j, kind, scheduled + {j}))
    requires forall q :: q in result <==> (q in list && Live(p, q, kind, scheduled + {j}))
                                          || (q in dispatched && NewlyLive(p, q, kind, scheduled + {j}))
    ensures PendingExact(p, kind, scheduled + {j}, result)
  {
    var later := scheduled + {j};
    assert NewlyLive(p, j, kind, later) <==> Live(p, j, kind, later) by {
      if |Successors(p.cons[j], kind)| > 0 {
        SuccessorsUndispatched(p, scheduled, j, kind, 0);
      }
    }
    forall q | q in scheduled && Live(p, q, kind, later)
      ensures q in list
    {
      assert StillPending(p.cons[q], kind, scheduled);
    }
  }
}
