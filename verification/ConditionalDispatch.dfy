// Conditional forks: which jobs are alternatives to each other, and which jobs rule each other out.
module ConditionalDispatch {
  import opened Times
  import opened Precedence

  ghost predicate FollowsFork(g: Graph, forks: seq<bool>, s: nat, f: nat) {
    f < |forks| && f < |g.successors| && forks[f] && s in g.successors[f]
  }

  /** The jobs that follow the same fork as `s`, the one of highest index if there are several; `s` alone
      if there is none. */
  ghost predicate SiblingsOf(g: Graph, forks: seq<bool>, s: nat, list: seq<nat>) {
    if exists f: nat :: FollowsFork(g, forks, s, f)
    then
      exists f: nat ::
        && FollowsFork(g, forks, s, f) && list == g.successors[f]
        && forall h: nat :: FollowsFork(g, forks, s, h) ==> h <= f
    else list == [s]
  }

  /** What is known when the forks below `n` have been considered. */
  ghost predicate SiblingsSoFar(g: Graph, forks: seq<bool>, s: nat, n: nat, list: Option<seq<nat>>) {
    if exists f: nat :: f < n && FollowsFork(g, forks, s, f)
    then exists f: nat :: f < n && FollowsFork(g, forks, s, f) && list == Some(g.successors[f])
                     && forall h: nat :: h < n && FollowsFork(g, forks, s, h) ==> h <= f
    else list == if s < n then Some([s]) else None
  }

  lemma SiblingsNext(g: Graph, forks: seq<bool>, s: nat, n: nat, a: Option<seq<nat>>, b: Option<seq<nat>>)
    requires SiblingsSoFar(g, forks, s, n, a)
    requires b == if FollowsFork(g, forks, s, n) then Some(g.successors[n]) else if s == n
        && a.None? then Some([s]) else a
    ensures SiblingsSoFar(g, forks, s, n + 1, b)
  {
  }

  /** Every job that follows a fork gets the successors of that fork as its siblings. */
  method BuildSiblings(g: Graph, forks: seq<bool>) returns (siblings: seq<seq<nat>>)
    requires Proper(g) && |forks| == |g.successors|
    ensures |siblings| == |forks| && forall s :: 0 <= s < |siblings| ==> SiblingsOf(g, forks, s, siblings[s])
  {
    var n := |forks|;
    var found: seq<Option<seq<nat>>> := seq(n, _ => None);
    var j := 0;
    while j < n
      invariant 0 <= j <= n && |found| == n
      invariant forall s :: 0 <= s < n ==> SiblingsSoFar(g, forks, s, j, found[s])
    {
      ghost var before := found;
      if forks[j] {
        found := ShareSiblings(found, g.successors[j]);
      }
      if found[j].None? {
        found := found[j := Some([j])];
      }
      forall s | 0 <= s < n
        ensures SiblingsSoFar(g, forks, s, j + 1, found[s])
      {
        SiblingsNext(g, forks, s, j, before[s], found[s]);
      }
      j := j + 1;
    }
    forall s | 0 <= s < n
      ensures found[s].Some? && SiblingsOf(g, forks, s, found[s].value)
    {
      AllForksConsidered(g, forks, s, found[s]);
    }
    siblings := seq(n, s requires 0 <= s < n => found[s].value);
  }

  lemma AllForksConsidered(g: Graph, forks: seq<bool>, s: nat, list: Option<seq<nat>>)
    requires s < |forks| && SiblingsSoFar(g, forks, s, |forks|, list)
    ensures list.Some? && SiblingsOf(g, forks, s, list.value)
  {
  }

  /** The jobs of the list become siblings. */
  method ShareSiblings(found: seq<Option<seq<nat>>>, list: seq<nat>) returns (r: seq<Option<seq<nat>>>)
    requires forall i :: 0 <= i < |list| ==> list[i] < |found|
    ensures |r| == |found| && forall s :: 0 <= s < |r| ==> r[s] == if s in list then Some(list) else found[s]
  {
    r := found;
    var i := 0;
    while i < |list|
      invariant 0 <= i <= |list| && |r| == |found|
      invariant forall s :: 0 <= s < |r| ==> r[s] == if s in list[..i] then Some(list) else found[s]
    {
      r := r[list[i] := Some(list)];
      assert list[..i + 1] == list[..i] + [list[i]];
      i := i + 1;
    }
    assert list[..i] == list;
  }

  // ---- Incompatible jobs ----

  /** After `j` is dispatched, `u` never will be: it is a sibling of `j` or follows one, but does not follow `j`. */
  ghost predicate RuledOut(g: Graph, siblings: seq<nat>, j: nat, u: nat) {
    if |siblings| > 1
    then (u in siblings || exists s :: s in siblings && Reaches(g.successors, s, u)) && !Reaches(g.successors, j, u)
    else u == j
  }

  /** Some job that may still be dispatched after `j` waits for `u`, or `u` is part of an exclusion constraint. */
  ghost predicate ExcludedOrAwaited(g: Graph, exclusive: seq<bool>, j: nat, u: nat) {
    u < |exclusive| && u < |g.successors|
        && (exclusive[u] || exists s :: s in g.successors[u] && Reaches(g.successors, j, s))
  }

  /** Siblings have the same siblings: every job follows at most one fork. */
  ghost predicate Grouped(siblings: seq<seq<nat>>) {
    forall j: nat, s: nat :: j < |siblings| && s in siblings[j] ==> s < |siblings| && siblings[s] == siblings[j]
  }

  ghost predicate OneFork(g: Graph, forks: seq<bool>) {
    forall s: nat, f: nat, h: nat :: FollowsFork(g, forks, s, f) && FollowsFork(g, forks, s, h) ==> f == h
  }

  lemma OneForkGroups(g: Graph, forks: seq<bool>, siblings: seq<seq<nat>>)
    requires Proper(g) && |forks| == |g.successors| == |siblings|
    requires forall s :: 0 <= s < |siblings| ==> SiblingsOf(g, forks, s, siblings[s])
    requires OneFork(g, forks)
    ensures Grouped(siblings)
  {
    forall j: nat, s: nat | j < |siblings| && s in siblings[j]
      ensures s < |siblings| && siblings[s] == siblings[j]
    {
      if f: nat :| FollowsFork(g, forks, j, f) {
        assert siblings[j] == g.successors[f] && FollowsFork(g, forks, s, f);
        var i :| 0 <= i < |g.successors[f]| && g.successors[f][i] == s;
      }
    }
  }

  /** What has been found for `j` is what there is to find. */
  ghost predicate Complete(g: Graph, exclusive: seq<bool>, siblings: seq<nat>, j: nat, incompatible: set<nat>,
                           pending: set<nat>) {
    && (forall u :: u in incompatible <==> RuledOut(g, siblings, j, u))
    && (forall u :: u in pending <==> RuledOut(g, siblings, j, u) && ExcludedOrAwaited(g, exclusive, j, u))
  }

  ghost predicate CompleteOrEmpty(g: Graph, exclusive: seq<bool>, siblings: seq<nat>, j: nat, incompatible: set<nat>,
                                  pending: set<nat>) {
    (incompatible == {} && pending == {}) || Complete(g, exclusive, siblings, j, incompatible, pending)
  }

  /** For every job the jobs that it rules out, and those of them that have pending successors. */
  method FindAllIncompatibleJobs(g: Graph, exclusive: seq<bool>, siblings: seq<seq<nat>>)
      returns (incompatible: seq<set<nat>>, pending: seq<set<nat>>)
    requires Proper(g) && |exclusive| == |g.successors| == |siblings|
    requires forall j :: 0 <= j < |siblings| ==> j in siblings[j] && AllBelow(siblings[j], |siblings|)
    ensures |incompatible| == |pending| == |siblings|
    ensures Grouped(siblings) ==>
              forall j :: 0 <= j < |siblings| ==> Complete(g, exclusive, siblings[j], j, incompatible[j], pending[j])
  {
    hide Complete;
    var n := |siblings|;
    incompatible, pending := seq(n, _ => {}), seq(n, _ => {});
    var i := 0;
    while i < n
      invariant 0 <= i <= n == |incompatible| == |pending|
      invariant Grouped(siblings) ==>
                  forall j :: 0 <= j < i ==> Complete(g, exclusive, siblings[j], j, incompatible[j], pending[j])
      invariant Grouped(siblings) ==>
                  forall j :: i <= j < n ==> CompleteOrEmpty(g, exclusive, siblings[j], j, incompatible[j], pending[j])
    {
      if incompatible[i] == {} {
        if |siblings[i]| > 1 {
          incompatible, pending := Together(g, exclusive, siblings, i, incompatible, pending);
        } else {
          var alone := |g.successors[i]| > 0 || exclusive[i];
          incompatible := incompatible[i := {i}];
          pending := pending[i := if alone then {i} else {}];
          AloneComplete(g, exclusive, siblings[i], i, pending[i]);
        }
      }
      i := i + 1;
    }
  }

  lemma AloneComplete(g: Graph, exclusive: seq<bool>, siblings: seq<nat>, j: nat, pending: set<nat>)
    requires Proper(g) && |exclusive| == |g.successors| && j < |g.successors| && |siblings| <= 1
    requires pending == if |g.successors[j]| > 0 || exclusive[j] then {j} else {}
    ensures Complete(g, exclusive, siblings, j, {j}, pending)
  {
    if |g.successors[j]| > 0 {
      var s := g.successors[j][0];
      ReachesFurther(g.successors, j, j, s);
      assert s in g.successors[j];
    }
  }

  /** The descendants of all siblings, and the siblings and their descendants taken together. */
  method Descendants(g: Graph, list: seq<nat>) returns (of: seq<set<nat>>, all: set<nat>)
    requires Proper(g) && forall k :: 0 <= k < |list| ==> list[k] < |g.successors|
    ensures |of| == |list| && forall k,
        u: nat :: 0 <= k < |list| ==> (u in of[k] <==> Reaches(g.successors, list[k], u))
    ensures forall u: nat :: u in all <==> u in list || exists k :: 0 <= k < |list| && u in of[k]
  {
    of, all := [], {};
    var k := 0;
    while k < |list|
      invariant 0 <= k <= |list| && |of| == k
      invariant forall l, u: nat :: 0 <= l < k ==> (u in of[l] <==> Reaches(g.successors, list[l], u))
      invariant forall u: nat :: u in all <==> u in list[..k] || exists l :: 0 <= l < k && u in of[l]
    {
      var d := GetDescendants(list[k], g);
      ghost var before := of;
      of := of + [d];
      all := all + d + {list[k]};
      assert list[..k + 1] == list[..k] + [list[k]];
      assert forall l :: 0 <= l < k ==> of[l] == before[l];
      k := k + 1;
    }
    assert list[..k] == list;
  }

  /** The candidates that do not follow the job itself, and those of them that are awaited. */
  method Collect(g: Graph, exclusive: seq<bool>, all: set<nat>, own: set<nat>) returns (incompatible: set<nat>,
                 pending: set<nat>)
    requires |exclusive| == |g.successors| && forall u :: u in all ==> u < |exclusive|
    ensures incompatible == all - own
    ensures forall u ::
              u in pending <==> u in all - own && (exclusive[u] || exists s :: s in g.successors[u] && s in own)
  {
    incompatible, pending := {}, {};
    var u := 0;
    while u < |exclusive|
      invariant 0 <= u <= |exclusive|
      invariant forall x :: x in incompatible <==> x in all - own && x < u
      invariant forall x ::
                  x in pending <==>
                    x in all - own && x < u && (exclusive[x] || exists s :: s in g.successors[x] && s in own)
    {
      if u in all && u !in own {
        incompatible := incompatible + {u};
        if exclusive[u] {
          pending := pending + {u};
        } else {
          var leads := LeadsInto(g.successors[u], own);
          if leads {
            pending := pending + {u};
          }
        }
      }
      u := u + 1;
    }
  }

  method LeadsInto(list: seq<nat>, own: set<nat>) returns (leads: bool)
    ensures leads <==> exists s :: s in list && s in own
  {
    var k := 0;
    while k < |list|
      invariant 0 <= k <= |list|
      invariant forall l :: 0 <= l < k ==> list[l] !in own
    {
      if list[k] in own {
        return true;
      }
      k := k + 1;
    }
    return false;
  }

  /** All siblings at once. */
  method Together(g: Graph, exclusive: seq<bool>, siblings: seq<seq<nat>>, i: nat, incompatible: seq<set<nat>>,
                  pending: seq<set<nat>>)
      returns (incompatible': seq<set<nat>>, pending': seq<set<nat>>)
    requires Proper(g) && |exclusive| == |g.successors| == |siblings| == |incompatible| == |pending|
    requires i < |siblings| && |siblings[i]| > 1 && AllBelow(siblings[i], |siblings|)
    requires Grouped(siblings) ==>
               forall j :: 0 <= j < |siblings| ==> CompleteOrEmpty(g, exclusive, siblings[j], j, incompatible[j],
                   pending[j])
    ensures |incompatible'| == |pending'| == |siblings|
    ensures Grouped(siblings) ==> forall j :: 0 <= j < |siblings| && j in siblings[i] ==>
              Complete(g, exclusive, siblings[j], j, incompatible'[j], pending'[j])
    ensures forall j :: 0 <= j < |siblings| && j !in siblings[i] ==>
              incompatible'[j] == incompatible[j] && pending'[j] == pending[j]
  {
    hide Complete, Proper;
    incompatible', pending' := incompatible, pending;
    var list := siblings[i];
    var of, all := Descendants(g, list);
    AllJobsOf(g, list, of, all);
    var k := 0;
    while k < |list|
      invariant 0 <= k <= |list| && |incompatible'| == |pending'| == |siblings|
      invariant Grouped(siblings) ==>
                  forall j :: 0 <= j < |siblings| && j in list[..k] ==>
                    Complete(g, exclusive, siblings[j], j, incompatible'[j], pending'[j])
      invariant forall j :: 0 <= j < |siblings| && j !in list[..k] ==>
                  incompatible'[j] == incompatible[j] && pending'[j] == pending[j]
    {
      var s := list[k];
      var more, open := Collect(g, exclusive, all, of[k]);
      CollectedComplete(g, exclusive, list, of, all, k, more, open);
      if Grouped(siblings) {
        assert s in list && siblings[s] == list;
        SameOrNothing(g, exclusive, list, s, incompatible'[s], pending'[s], more, open);
      }
      incompatible' := incompatible'[s := incompatible'[s] + more];
      pending' := pending'[s := pending'[s] + open];
      assert list[..k + 1] == list[..k] + [s];
      k := k + 1;
    }
    assert list[..k] == list;
  }

  ghost predicate DescendantsOf(g: Graph, list: seq<nat>, of: seq<set<nat>>, all: set<nat>) {
    && |of| == |list| && (forall k, u: nat :: 0 <= k < |list| ==> (u in of[k] <==> Reaches(g.successors, list[k], u)))
    && forall u: nat :: u in all <==> u in list || exists k :: 0 <= k < |list| && u in of[k]
  }

  lemma AllJobsOf(g: Graph, list: seq<nat>, of: seq<set<nat>>, all: set<nat>)
    requires DescendantsOf(g, list, of, all) && forall k :: 0 <= k < |list| ==> list[k] < |g.successors|
    ensures forall u :: u in all ==> u < |g.successors|
  {
    forall u | u in all
      ensures u < |g.successors|
    {
      if k :| 0 <= k < |list| && u in of[k] {
        var path :| IsPath(g.successors, path) && |path| > 1 && path[0] == list[k] && path[|path| - 1] == u;
      }
    }
  }

  lemma CollectedComplete(g: Graph, exclusive: seq<bool>, list: seq<nat>, of: seq<set<nat>>, all: set<nat>, k: nat,
                          incompatible: set<nat>, pending: set<nat>)
    requires DescendantsOf(g, list, of, all) && k < |list| && |list| > 1 && |exclusive| == |g.successors|
    requires forall u :: u in all ==> u < |exclusive|
    requires incompatible == all - of[k]
    requires forall u ::
               u in pending <==> u in all - of[k] && (exclusive[u] || exists s :: s in g.successors[u] && s in of[k])
    ensures Complete(g, exclusive, list, list[k], incompatible, pending)
  {
    forall u
      ensures u in incompatible <==> RuledOut(g, list, list[k], u)
    {
      if s :| s in list && Reaches(g.successors, s, u) {
        var l :| 0 <= l < |list| && list[l] == s;
        assert u in of[l];
      }
    }
  }

  /** Adding what there is to find to nothing, or to all of it, yields all of it. */
  lemma SameOrNothing(g: Graph, exclusive: seq<bool>, siblings: seq<nat>, j: nat, a: set<nat>, b: set<nat>,
                      c: set<nat>, d: set<nat>)
    requires Complete(g, exclusive, siblings, j, c, d)
    requires CompleteOrEmpty(g, exclusive, siblings, j, a, b)
    ensures Complete(g, exclusive, siblings, j, a + c, b + d)
  {
  }

  // ---- What the incompatible jobs are like ----

  /** A job rules itself out unless it lies on a cycle of a fork; it never rules out what follows it. */
  lemma RulesOutItself(g: Graph, siblings: seq<nat>, j: nat, u: nat)
    requires j in siblings
    ensures RuledOut(g, siblings, j, j) <==> |siblings| <= 1 || !Reaches(g.successors, j, j)
    ensures Acyclic(g) && j < |g.successors| && RuledOut(g, siblings, j, u) ==> !Reaches(g.successors, j, u)
  {
  }

  /** Two siblings rule each other out exactly when neither follows the other. */
  lemma AlternativesExclude(g: Graph, siblings: seq<nat>, a: nat, b: nat)
    requires a in siblings && b in siblings && a != b
    ensures RuledOut(g, siblings, a, b) && RuledOut(g, siblings, b, a) <==>
              !Reaches(g.successors, a, b) && !Reaches(g.successors, b, a)
  {
    var i :| 0 <= i < |siblings| && siblings[i] == a;
    var k :| 0 <= k < |siblings| && siblings[k] == b;
    assert i != k;
  }

  /** The siblings of all jobs, and what they rule out. */
  class ConditionalDispatchConstraints {
    const siblings: seq<seq<nat>>
    const incompatible: seq<set<nat>>
    const incompatibleWithPending: seq<set<nat>>

    /** If every job follows at most one fork, the incompatible jobs are exactly those ruled out. */
    constructor (g: Graph, forks: seq<bool>, exclusive: seq<bool>)
      requires Proper(g) && |forks| == |exclusive| == |g.successors|
      ensures |siblings| == |incompatible| == |incompatibleWithPending| == |forks|
      ensures forall j :: 0 <= j < |forks| ==> SiblingsOf(g, forks, j, siblings[j])
      ensures OneFork(g, forks) ==>
                forall j :: 0 <= j < |forks| ==> Complete(g, exclusive, siblings[j], j, incompatible[j],
                    incompatibleWithPending[j])
    {
      var list := BuildSiblings(g, forks);
      if OneFork(g, forks) {
        OneForkGroups(g, forks, list);
      }
      OwnSibling(g, forks, list);
      var all, pending := FindAllIncompatibleJobs(g, exclusive, list);
      siblings, incompatible, incompatibleWithPending := list, all, pending;
    }

    predicate HasConditionalSiblings(j: nat)
      requires j < |siblings|
    {
      |siblings[j]| > 1
    }

    predicate AreIncompatible(a: nat, b: nat)
      requires a < |incompatible|
    {
      b in incompatible[a]
    }
  }

  lemma OwnSibling(g: Graph, forks: seq<bool>, siblings: seq<seq<nat>>)
    requires Proper(g) && |siblings| == |forks| == |g.successors|
    requires forall s :: 0 <= s < |siblings| ==> SiblingsOf(g, forks, s, siblings[s])
    ensures forall s :: 0 <= s < |siblings| ==> s in siblings[s] && AllBelow(siblings[s], |siblings|)
  {
    forall s | 0 <= s < |siblings|
      ensures s in siblings[s] && AllBelow(siblings[s], |siblings|)
    {
      assert SiblingsOf(g, forks, s, siblings[s]);
    }
  }
}
