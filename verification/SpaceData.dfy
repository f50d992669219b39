// The problem together with its jobs ordered by release, and the ordered
// searches for the next release of an undispatched job.
module SpaceData {
  import opened Times
  import opened Jobs
  import opened Workload
  import opened Scheduler
  import opened Abstraction
  import opened NextDispatch

  /** Jobs in the order of their latest arrival, earliest arrival or deadline. Successor jobs are
      listed by deadline only: they cannot be ready before some source job is. */
  datatype Data = Data(
    p: Problem,
    sequentialByLatest: seq<nat>,
    gangByLatest: seq<nat>,
    mutexByLatest: seq<nat>,
    sourcesByEarliest: seq<nat>,
    byDeadline: seq<nat>
  )

  datatype Key = ByLatest | ByEarliest | ByDeadline

  function KeyOf(p: Problem, key: Key, k: nat): int
    requires p.IsJob(k)
  {
    match key
    case ByLatest => p.jobs[k].arrival.max
    case ByEarliest => p.jobs[k].arrival.min
    case ByDeadline => p.jobs[k].deadline
  }

  function Cat(p: Problem, k: nat): Category
    requires ValidProblem(p) && p.IsJob(k)
  {
    assert ValidJob(p.jobs[k], p.m);
    CategoryOf(p, k)
  }

  ghost predicate Ordered(p: Problem, key: Key, list: seq<nat>) {
    && (forall i :: 0 <= i < |list| ==> p.IsJob(list[i]))
    && (forall i, k :: 0 <= i < k < |list| ==> KeyOf(p, key, list[i]) <= KeyOf(p, key, list[k]))
  }

  ghost predicate ListsCategory(p: Problem, list: seq<nat>, cat: Category)
    requires ValidProblem(p)
  {
    Ordered(p, ByLatest, list) && forall k: nat :: k in list <==> p.IsJob(k) && Cat(p, k) == cat
  }

  ghost predicate ValidData(d: Data) {
    && ValidProblem(d.p)
    && ListsCategory(d.p, d.sequentialByLatest, Sequential)
    && ListsCategory(d.p, d.gangByLatest, Gang)
    && ListsCategory(d.p, d.mutexByLatest, MutexSource)
    && Ordered(d.p, ByEarliest, d.sourcesByEarliest)
    && (forall k: nat :: k in d.sourcesByEarliest <==> d.p.IsJob(k) && !HasPreds(d.p, k))
    && Ordered(d.p, ByDeadline, d.byDeadline)
    && (forall k: nat :: k in d.byDeadline <==> d.p.IsJob(k))
  }

  /** Ordered insertion, after entries with the same key. */
  function InsertBy(p: Problem, key: Key, list: seq<nat>, k: nat): seq<nat>
    requires p.IsJob(k) && forall i :: 0 <= i < |list| ==> p.IsJob(list[i])
  {
    if |list| == 0 then [k]
    else if KeyOf(p, key, k) < KeyOf(p, key, list[0]) then [k] + list
    else [list[0]] + InsertBy(p, key, list[1..], k)
  }

  lemma {:induction false} InsertByOrdered(p: Problem, key: Key, list: seq<nat>, k: nat)
    requires p.IsJob(k) && Ordered(p, key, list)
    ensures Ordered(p, key, InsertBy(p, key, list, k))
    ensures forall q :: q in InsertBy(p, key, list, k) <==> q == k || q in list
  {
    if |list| > 0 && KeyOf(p, key, k) >= KeyOf(p, key, list[0]) {
      InsertByOrdered(p, key, list[1..], k);
      assert list == [list[0]] + list[1..];
      var rest := InsertBy(p, key, list[1..], k);
      forall i | 0 <= i < |rest|
        ensures KeyOf(p, key, list[0]) <= KeyOf(p, key, rest[i])
      {
        assert rest[i] in rest;
        if rest[i] != k {
          var l :| 0 <= l < |list[1..]| && list[1..][l] == rest[i];
          assert list[l + 1] == rest[i];
        }
      }
    }
  }

  /** The list after the jobs below `n` have been considered. */
  ghost predicate ListsFirst(p: Problem, key: Key, list: seq<nat>, n: nat, kind: set<Category>)
    requires ValidProblem(p)
  {
    && Ordered(p, key, list)
    && forall k: nat :: k in list <==> k < n && p.IsJob(k) && Cat(p, k) in kind
  }

  /** The list with job `k` added if it is of one of the kinds listed. */
  function Extend(p: Problem, key: Key, list: seq<nat>, k: nat, kind: set<Category>): seq<nat>
    requires ValidProblem(p) && p.IsJob(k) && forall i :: 0 <= i < |list| ==> p.IsJob(list[i])
  {
    if Cat(p, k) in kind then InsertBy(p, key, list, k) else list
  }

  lemma ExtendLists(p: Problem, key: Key, list: seq<nat>, k: nat, kind: set<Category>)
    requires ValidProblem(p) && p.IsJob(k) && ListsFirst(p, key, list, k, kind)
    ensures ListsFirst(p, key, Extend(p, key, list, k, kind), k + 1, kind)
  {
    InsertByOrdered(p, key, list, k);
  }

  /** The constructor fills the ordered maps job by job. */
  method Build(p: Problem) returns (d: Data)
    requires ValidProblem(p)
    ensures d.p == p && ValidData(d)
  {
    var seqs: seq<nat>, gangs: seq<nat>, mutexes: seq<nat>, sources: seq<nat>, all: seq<nat> := [], [], [], [], [];
    var any := {Sequential, Gang, MutexSource, Successor};
    var k := 0;
    while k < |p.jobs|
      invariant 0 <= k <= |p.jobs|
      invariant ListsFirst(p, ByLatest, seqs, k, {Sequential})
      invariant ListsFirst(p, ByLatest, gangs, k, {Gang})
      invariant ListsFirst(p, ByLatest, mutexes, k, {MutexSource})
      invariant ListsFirst(p, ByEarliest, sources, k, {Sequential, Gang, MutexSource})
      invariant ListsFirst(p, ByDeadline, all, k, any)
    {
      ExtendLists(p, ByLatest, seqs, k, {Sequential});
      ExtendLists(p, ByLatest, gangs, k, {Gang});
      ExtendLists(p, ByLatest, mutexes, k, {MutexSource});
      ExtendLists(p, ByEarliest, sources, k, {Sequential, Gang, MutexSource});
      ExtendLists(p, ByDeadline, all, k, any);
      seqs := Extend(p, ByLatest, seqs, k, {Sequential});
      gangs := Extend(p, ByLatest, gangs, k, {Gang});
      mutexes := Extend(p, ByLatest, mutexes, k, {MutexSource});
      sources := Extend(p, ByEarliest, sources, k, {Sequential, Gang, MutexSource});
      all := Extend(p, ByDeadline, all, k, any);
      k := k + 1;
    }
    d := Data(p, seqs, gangs, mutexes, sources, all);
    ListsValid(d);
  }

  lemma ListsValid(d: Data)
    requires ValidProblem(d.p)
    requires var n := |d.p.jobs|;
             && ListsFirst(d.p, ByLatest, d.sequentialByLatest, n, {Sequential})
             && ListsFirst(d.p, ByLatest, d.gangByLatest, n, {Gang})
             && ListsFirst(d.p, ByLatest, d.mutexByLatest, n, {MutexSource})
             && ListsFirst(d.p, ByEarliest, d.sourcesByEarliest, n, {Sequential, Gang, MutexSource})
             && ListsFirst(d.p, ByDeadline, d.byDeadline, n, {Sequential, Gang, MutexSource, Successor})
    ensures ValidData(d)
  {
    forall k: nat | d.p.IsJob(k)
      ensures Cat(d.p, k) in {Sequential, Gang, MutexSource} <==> !HasPreds(d.p, k)
    {
      assert ValidJob(d.p.jobs[k], d.p.m);
    }
  }

  /** Index of the first entry whose key is not below the bound. */
  method LowerBound(p: Problem, key: Key, list: seq<nat>, b: Bound) returns (i: nat)
    requires Ordered(p, key, list)
    ensures i <= |list|
    ensures forall l :: 0 <= l < i ==> !LeB(b, Fin(KeyOf(p, key, list[l])))
    ensures forall l :: i <= l < |list| ==> LeB(b, Fin(KeyOf(p, key, list[l])))
  {
    i := 0;
    while i < |list| && !LeB(b, Fin(KeyOf(p, key, list[i])))
      invariant 0 <= i <= |list|
      invariant forall l :: 0 <= l < i ==> !LeB(b, Fin(KeyOf(p, key, list[l])))
    {
      i := i + 1;
    }
  }

  // ---- The next release of an undispatched job ----

  /** An undispatched job of one of the kinds, as an entry of an ordered list. */
  predicate Open(p: Problem, scheduled: set<nat>, kind: set<Category>, k: nat)
    requires ValidProblem(p)
  {
    p.IsJob(k) && k !in scheduled && Cat(p, k) in kind
  }

  /** The least key over the undispatched jobs of the given kinds. */
  function LeastKey(p: Problem, scheduled: set<nat>, key: Key, kind: set<Category>, n: nat): Bound
    requires ValidProblem(p) && n <= |p.jobs|
  {
    if n == 0 then Inf
    else MinB(LeastKey(p, scheduled, key, kind, n - 1),
              if Open(p, scheduled, kind, n - 1) then Fin(KeyOf(p, key, n - 1)) else Inf)
  }

  function NextKey(p: Problem, scheduled: set<nat>, key: Key, kind: set<Category>): Bound
    requires ValidProblem(p)
  {
    LeastKey(p, scheduled, key, kind, |p.jobs|)
  }

  lemma {:induction false} LeastKeyExact(p: Problem, scheduled: set<nat>, key: Key, kind: set<Category>, n: nat)
    requires ValidProblem(p) && n <= |p.jobs|
    ensures forall k: nat :: k < n && Open(p, scheduled, kind, k) ==> LeB(LeastKey(p, scheduled, key, kind, n),
        Fin(KeyOf(p, key, k)))
    ensures LeastKey(p, scheduled, key, kind, n).Fin? ==>
              exists k: nat :: k < n && Open(p, scheduled, kind, k)
                  && LeastKey(p, scheduled, key, kind, n) == Fin(KeyOf(p, key, k))
  {
    if n > 0 {
      LeastKeyExact(p, scheduled, key, kind, n - 1);
    }
  }

  /** A value that is below every open key, and is one of them or infinite, is the least key. */
  lemma LeastKeyIs(p: Problem, scheduled: set<nat>, key: Key, kind: set<Category>, r: Bound)
    requires ValidProblem(p)
    requires forall k: nat :: Open(p, scheduled, kind, k) ==> LeB(r, Fin(KeyOf(p, key, k)))
    requires r.Fin? ==> exists k: nat :: Open(p, scheduled, kind, k) && r == Fin(KeyOf(p, key, k))
    ensures r == NextKey(p, scheduled, key, kind)
  {
    LeastKeyExact(p, scheduled, key, kind, |p.jobs|);
  }

  /** The first undispatched job at or after the bound. It is the first of all when no undispatched
      job lies before the bound, which is what the caches of a node guarantee. */
  method EarliestRelease(p: Problem, key: Key, list: seq<nat>, kind: set<Category>, after: Bound, scheduled: set<nat>)
      returns (r: Bound)
    requires ValidProblem(p) && Ordered(p, key, list)
    requires forall k: nat :: k in list <==> p.IsJob(k) && Cat(p, k) in kind
    requires forall k: nat :: Open(p, scheduled, kind, k) ==> LeB(after, Fin(KeyOf(p, key, k)))
    ensures r == NextKey(p, scheduled, key, kind)
  {
    var i := LowerBound(p, key, list, after);
    while i < |list|
      invariant 0 <= i <= |list|
      invariant forall l :: 0 <= l < i ==> !Open(p, scheduled, kind, list[l])
    {
      if list[i] !in scheduled {
        r := Fin(KeyOf(p, key, list[i]));
        assert list[i] in list;
        LeastKeyIs(p, scheduled, key, kind, r);
        return;
      }
      i := i + 1;
    }
    r := Inf;
    LeastKeyIs(p, scheduled, key, kind, r);
  }

  /** Dispatching a job can only postpone the next release. */
  lemma NextKeyLater(p: Problem, scheduled: set<nat>, j: nat, key: Key, kind: set<Category>, after: Bound)
    requires ValidProblem(p) && LeB(after, NextKey(p, scheduled, key, kind))
    ensures forall k: nat :: Open(p, scheduled + {j}, kind, k) ==> LeB(after, Fin(KeyOf(p, key, k)))
  {
    LeastKeyExact(p, scheduled, key, kind, |p.jobs|);
  }

  lemma NextKeyBelow(p: Problem, scheduled: set<nat>, key: Key, kind: set<Category>, k: nat)
    requires ValidProblem(p) && Open(p, scheduled, kind, k)
    ensures LeB(NextKey(p, scheduled, key, kind), Fin(KeyOf(p, key, k)))
  {
    LeastKeyExact(p, scheduled, key, kind, |p.jobs|);
  }

  /** The first release of a source job of any kind. */
  function NextSource(p: Problem, scheduled: set<nat>): Bound
    requires ValidProblem(p)
  {
    MinB(NextKey(p, scheduled, ByLatest, {Sequential}),
         MinB(NextKey(p, scheduled, ByLatest, {Gang}), NextKey(p, scheduled, ByLatest, {MutexSource})))
  }

  lemma NextSourceBelow(p: Problem, scheduled: set<nat>, k: nat)
    requires ValidProblem(p) && Open(p, scheduled, {Sequential, Gang, MutexSource}, k)
    ensures LeB(NextSource(p, scheduled), Fin(KeyOf(p, ByLatest, k)))
  {
    NextKeyBelow(p, scheduled, ByLatest, {Cat(p, k)}, k);
  }

  // ---- Lookup keys ----

  /** Exclusive or, bit by bit from the lowest. */
  function Xor(a: nat, b: nat): nat {
    if a == 0 && b == 0 then 0 else 2 * Xor(a / 2, b / 2) + (if a % 2 == b % 2 then 0 else 1)
  }

  lemma XorHalf(a: nat, b: nat)
    ensures Xor(a, b) / 2 == Xor(a / 2, b / 2) && (Xor(a, b) % 2 == 0 <==> a % 2 == b % 2)
  {
  }

  lemma {:induction false} XorSwap(a: nat, b: nat, c: nat)
    ensures Xor(Xor(a, b), c) == Xor(Xor(a, c), b)
    decreases a + b + c
  {
    if a != 0 || b != 0 || c != 0 {
      XorSwap(a / 2, b / 2, c / 2);
      XorHalf(a, b);
      XorHalf(a, c);
      XorHalf(Xor(a, b), c);
      XorHalf(Xor(a, c), b);
    }
  }

  /** The keys of the dispatched jobs below `n`, combined by exclusive or. */
  function XorBelow(p: Problem, scheduled: set<nat>, n: nat): nat
    requires n <= |p.jobs|
  {
    if n == 0 then 0
    else if n - 1 in scheduled then Xor(XorBelow(p, scheduled, n - 1), p.jobs[n - 1].key)
    else XorBelow(p, scheduled, n - 1)
  }

  /** The lookup key of a set of dispatched jobs: it does not depend on the order of the dispatches. */
  function XorKey(p: Problem, scheduled: set<nat>): nat {
    XorBelow(p, scheduled, |p.jobs|)
  }

  /** Dispatching a job changes the key by that job's key. */
  lemma {:induction false} XorAdd(p: Problem, scheduled: set<nat>, later: set<nat>, j: nat, n: nat)
    requires j !in scheduled && later == scheduled + {j} && j < |p.jobs| && n <= |p.jobs|
    ensures j >= n ==> XorBelow(p, later, n) == XorBelow(p, scheduled, n)
    ensures j < n ==> XorBelow(p, later, n) == Xor(XorBelow(p, scheduled, n), p.jobs[j].key)
  {
    if n > 0 {
      XorAdd(p, scheduled, later, j, n - 1);
      if n - 1 in scheduled && n - 1 > j {
        XorSwap(XorBelow(p, scheduled, n - 1), p.jobs[n - 1].key, p.jobs[j].key);
      }
    }
  }
}
