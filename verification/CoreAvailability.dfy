// Tracking when the p-th core becomes available: the sorted vector of
// availability intervals, its update by a dispatch, and its merge.
module CoreAvailability {
  import opened Times
  import opened Counting
  import opened Scheduler

  function Mins(v: seq<Interval>): (r: seq<int>)
    ensures |r| == |v| && forall i :: 0 <= i < |v| ==> r[i] == v[i].min
  {
    seq(|v|, i requires 0 <= i < |v| => v[i].min)
  }

  function Maxs(v: seq<Interval>): (r: seq<int>)
    ensures |r| == |v| && forall i :: 0 <= i < |v| ==> r[i] == v[i].max
  {
    seq(|v|, i requires 0 <= i < |v| => v[i].max)
  }

  function Pair(pa: seq<int>, ca: seq<int>): (r: seq<Interval>)
    requires |pa| == |ca|
    ensures |r| == |pa| && forall i :: 0 <= i < |pa| ==> r[i] == Span(pa[i], ca[i])
  {
    seq(|pa|, i requires 0 <= i < |pa| => Span(pa[i], ca[i]))
  }

  /** Availability vectors are sorted on both ends, and every interval is proper. */
  ghost predicate WellFormed(v: seq<Interval>) {
    && |v| >= 1
    && Sorted(Mins(v)) && Sorted(Maxs(v))
    && forall i :: 0 <= i < |v| ==> v[i].Ok()
  }

  /** The vector covers a configuration: at any time at least as many cores are free as it
      promises, and from `now` on at most as many as it deems possible. */
  ghost predicate CoresCover(v: seq<Interval>, c: Config) {
    && |v| == |c.cores|
    && (forall x :: Below(Maxs(v), x) <= FreeAt(c, x))
    && (forall x :: c.now <= x ==> FreeAt(c, x) <= Below(Mins(v), x))
  }

  /** `p` cores are certainly available from the latest availability of the p-th core. */
  lemma AvailableBy(v: seq<Interval>, c: Config, p: nat, x: int)
    requires WellFormed(v) && CoresCover(v, c) && 1 <= p <= |v| && v[p - 1].max <= x
    ensures FreeAt(c, x) >= p
  {
    SortedBelow(Maxs(v), x, p - 1);
  }

  /** `p` cores are never available before the earliest availability of the p-th core. */
  lemma AvailableFrom(v: seq<Interval>, c: Config, p: nat, x: int)
    requires WellFormed(v) && CoresCover(v, c) && 1 <= p <= |v| && c.now <= x && FreeAt(c, x) >= p
    ensures v[p - 1].min <= x
  {
    SortedBelow(Mins(v), x, p - 1);
  }

  /** Raise entries to `floor`, inserting `k` copies of `e` before the first entry above `e`. */
  function RaiseInsert(v: seq<int>, floor: int, e: int, k: nat): (r: seq<int>)
    ensures |r| == |v| + k
  {
    if |v| == 0 then Rep(e, k)
    else if e < v[0] then Rep(e, k) + Raise(v, floor)
    else [Max(floor, v[0])] + RaiseInsert(v[1..], floor, e, k)
  }

  /** When the cores freed by predecessors, beyond those the job uses, are certainly available. */
  function EarlyTimes(from: seq<Interval>, est: int, lst: int, used: nat, skip: nat): (r: seq<int>)
    requires used <= skip <= |from|
    ensures |r| == skip - used
    ensures forall i :: 0 <= i < skip - used ==> r[i] == Min(lst, Max(est, from[used + i].max))
  {
    seq(skip - used, i requires 0 <= i < skip - used => Min(lst, Max(est, from[used + i].max)))
  }

  function Skip(used: nat, freed: nat): nat {
    if freed > used then freed else used
  }

  /** How many of the entries at most `x` remain once the first `skip` are dropped. */
  function Beyond(n: nat, skip: nat): nat {
    if n >= skip then n - skip else 0
  }

  function PossibleTimes(from: seq<Interval>, est: int, eft: int, used: nat, freed: nat): (r: seq<int>)
    requires used <= |from| && freed <= |from|
    ensures |r| == |from|
  {
    var skip := Skip(used, freed);
    Rep(est, skip - used) + RaiseInsert(Mins(from)[skip..], est, eft, used)
  }

  function CertainTimes(from: seq<Interval>, est: int, lst: int, lft: int, used: nat, freed: nat): (r: seq<int>)
    requires used <= |from| && freed <= |from|
    ensures |r| == |from|
  {
    var skip := Skip(used, freed);
    EarlyTimes(from, est, lst, used, skip) + RaiseInsert(Maxs(from)[skip..], est, lft, used)
  }

  /** The availability after a job has been dispatched on `used` cores, knowing that
      `freed` cores have been released by the predecessors it waited for. */
  function Dispatched(from: seq<Interval>, start: Interval, finish: Interval, used: nat, freed: nat): (r: seq<Interval>)
    requires used <= |from| && freed <= |from|
    ensures |r| == |from|
  {
    Pair(PossibleTimes(from, start.min, finish.min, used, freed),
         CertainTimes(from, start.min, start.max, finish.max, used, freed))
  }

  lemma {:induction false} RaiseInsertIsInsert(v: seq<int>, floor: int, e: int, k: nat)
    requires floor <= e
    ensures RaiseInsert(v, floor, e, k) == Insert(Raise(v, floor), e, k)
  {
    if |v| == 0 {
    } else if e < v[0] {
    } else {
      RaiseInsertIsInsert(v[1..], floor, e, k);
      assert Raise(v, floor)[1..] == Raise(v[1..], floor);
    }
  }

  ghost predicate DispatchTimes(start: Interval, finish: Interval) {
    start.min <= start.max <= finish.max && start.min <= finish.min <= finish.max
  }

  lemma CountRaiseInsert(v: seq<int>, skip: nat, floor: int, e: int, k: nat, x: int)
    requires Sorted(v) && skip <= |v| && floor <= e
    ensures Below(RaiseInsert(v[skip..], floor, e, k), x)
         == (if floor <= x then Beyond(Below(v, x), skip) else 0) + (if e <= x then k else 0)
  {
    RaiseInsertIsInsert(v[skip..], floor, e, k);
    BelowInsert(Raise(v[skip..], floor), e, k, x);
    BelowRaise(v[skip..], floor, x);
    BelowDrop(v, skip, x);
  }

  lemma CountPossible(from: seq<Interval>, est: int, eft: int, used: nat, freed: nat, x: int)
    requires Sorted(Mins(from)) && est <= eft && used <= |from| && freed <= |from|
    ensures var skip := Skip(used, freed);
            Below(PossibleTimes(from, est, eft, used, freed), x)
              == (if est <= x then skip - used + Beyond(Below(Mins(from), x),
                  skip) else 0) + (if eft <= x then used else 0)
  {
    var skip := Skip(used, freed);
    CountRaiseInsert(Mins(from), skip, est, eft, used, x);
    BelowRep(est, skip - used, x);
    BelowConcat(Rep(est, skip - used), RaiseInsert(Mins(from)[skip..], est, eft, used), x);
  }

  /** The cores freed by predecessors beyond those the job uses. */
  lemma {:induction false} CountEarly(from: seq<Interval>, est: int, lst: int, used: nat, skip: nat, x: int)
    requires Sorted(Maxs(from)) && est <= lst && used <= skip <= |from|
    ensures Below(EarlyTimes(from, est, lst, used, skip), x)
         == if lst <= x then skip - used
            else if est <= x then Beyond(Min(skip, Below(Maxs(from), x)), used) else 0
  {
    hide Maxs;
    var early := EarlyTimes(from, est, lst, used, skip);
    if skip > used {
      CountEarly(from, est, lst, used, skip - 1, x);
      assert early[..|early| - 1] == EarlyTimes(from, est, lst, used, skip - 1);
      SortedBelow(Maxs(from), x, skip - 1);
    }
  }

  lemma CountCertain(from: seq<Interval>, est: int, lst: int, lft: int, used: nat, freed: nat, x: int)
    requires Sorted(Maxs(from)) && est <= lst <= lft && used <= |from| && freed <= |from|
    ensures var skip := Skip(used, freed);
            Below(CertainTimes(from, est, lst, lft, used, freed), x)
              == (if lst <= x then skip - used
                  else if est <= x then Beyond(Min(skip, Below(Maxs(from), x)), used) else 0)
               + (if est <= x then Beyond(Below(Maxs(from), x), skip) else 0)
               + (if lft <= x then used else 0)
  {
    var skip := Skip(used, freed);
    CountRaiseInsert(Maxs(from), skip, est, lft, used, x);
    CountEarly(from, est, lst, used, skip, x);
    BelowConcat(EarlyTimes(from, est, lst, used, skip), RaiseInsert(Maxs(from)[skip..], est, lft, used), x);
  }

  lemma PossibleSorted(from: seq<Interval>, est: int, eft: int, used: nat, freed: nat)
    requires Sorted(Mins(from)) && est <= eft && used <= |from| && freed <= |from|
    ensures Sorted(PossibleTimes(from, est, eft, used, freed))
  {
    var kept := Mins(from)[Skip(used, freed)..];
    RaiseInsertIsInsert(kept, est, eft, used);
    InsertSorted(Raise(kept, est), eft, used, est);
  }

  lemma CertainSorted(from: seq<Interval>, est: int, lst: int, lft: int, used: nat, freed: nat)
    requires Sorted(Maxs(from)) && est <= lst <= lft && used <= |from| && freed <= |from|
    ensures Sorted(CertainTimes(from, est, lst, lft, used, freed))
  {
    var skip := Skip(used, freed);
    var kept := Maxs(from)[skip..];
    RaiseInsertIsInsert(kept, est, lft, used);
    var floor := if skip > used then Min(lst, Max(est, from[skip - 1].max)) else est;
    InsertSorted(Raise(kept, est), lft, used, floor);
    var early := EarlyTimes(from, est, lst, used, skip);
    assert Sorted(early);
    assert forall i :: 0 <= i < |early| ==> early[i] <= floor;
  }

  lemma PairWellFormed(pa: seq<int>, ca: seq<int>)
    requires |pa| == |ca| >= 1 && Sorted(pa) && Sorted(ca)
    requires forall x :: Below(ca, x) <= Below(pa, x)
    ensures WellFormed(Pair(pa, ca)) && Mins(Pair(pa, ca)) == pa && Maxs(Pair(pa, ca)) == ca
  {
    forall i | 0 <= i < |pa|
      ensures pa[i] <= ca[i]
    {
      SortedBelow(ca, ca[i], i);
      SortedBelow(pa, ca[i], i);
    }
  }

  /** The updated vector is well formed again, so its p-th entry still speaks about the p-th core. */
  lemma DispatchedWellFormed(from: seq<Interval>, start: Interval, finish: Interval, used: nat, freed: nat)
    requires WellFormed(from) && DispatchTimes(start, finish) && used <= |from| && freed <= |from|
    ensures WellFormed(Dispatched(from, start, finish, used, freed))
    ensures Mins(Dispatched(from, start, finish, used, freed)) == PossibleTimes(from, start.min, finish.min, used,
        freed)
    ensures Maxs(Dispatched(from, start, finish, used, freed)) == CertainTimes(from, start.min, start.max, finish.max,
        used, freed)
  {
    var pa := PossibleTimes(from, start.min, finish.min, used, freed);
    var ca := CertainTimes(from, start.min, start.max, finish.max, used, freed);
    PossibleSorted(from, start.min, finish.min, used, freed);
    CertainSorted(from, start.min, start.max, finish.max, used, freed);
    forall x
      ensures Below(ca, x) <= Below(pa, x)
    {
      CountPossible(from, start.min, finish.min, used, freed, x);
      CountCertain(from, start.min, start.max, finish.max, used, freed, x);
      BelowPointwise(Mins(from), Maxs(from), x);
    }
    PairWellFormed(pa, ca);
  }

  lemma DispatchCoversAt(from: seq<Interval>, c: Config, start: Interval, finish: Interval, used: nat, freed: nat,
                         j: nat, t: int, f: int, c': Config, x: int)
    requires WellFormed(from) && CoresCover(from, c) && DispatchTimes(start, finish)
    requires used <= |from| && freed <= |from|
    requires start.Has(t) && finish.Has(f) && t <= f && c.now <= t && c'.now == t
    requires FreeAt(c, t) >= used && FreeAt(c, t) >= freed
    requires Occupies(c.cores, c'.cores, j, used, t, f)
    requires forall i :: 0 <= i < |c.cores| ==> c.cores[i].owner != Some(j)
    ensures var next := Dispatched(from, start, finish, used, freed);
            Below(Maxs(next), x) <= FreeAt(c', x) && (t <= x ==> FreeAt(c', x) <= Below(Mins(next), x))
  {
    hide Dispatched, Below;
    DispatchedWellFormed(from, start, finish, used, freed);
    CountPossible(from, start.min, finish.min, used, freed, x);
    CountCertain(from, start.min, start.max, finish.max, used, freed, x);
    OccupyCount(c.cores, c'.cores, j, t, f, x);
    if t <= x {
      BelowMonotone(FreeTimes(c.cores), t, x);
    }
  }

  /** Refinement: if the vector covers a configuration before a dispatch,
      the updated vector covers the configuration after it. */
  lemma DispatchCovers(from: seq<Interval>, c: Config, start: Interval, finish: Interval, used: nat, freed: nat,
                       j: nat, t: int, f: int, c': Config)
    requires WellFormed(from) && CoresCover(from, c) && DispatchTimes(start, finish)
    requires used <= |from| && freed <= |from|
    requires start.Has(t) && finish.Has(f) && t <= f && c.now <= t && c'.now == t
    requires FreeAt(c, t) >= used && FreeAt(c, t) >= freed
    requires Occupies(c.cores, c'.cores, j, used, t, f)
    requires forall i :: 0 <= i < |c.cores| ==> c.cores[i].owner != Some(j)
    ensures CoresCover(Dispatched(from, start, finish, used, freed), c')
  {
    hide Dispatched;
    var next := Dispatched(from, start, finish, used, freed);
    DispatchedWellFormed(from, start, finish, used, freed);
    forall x
      ensures Below(Maxs(next), x) <= FreeAt(c', x) && (c'.now <= x ==> FreeAt(c', x) <= Below(Mins(next), x))
    {
      DispatchCoversAt(from, c, start, finish, used, freed, j, t, f, c', x);
    }
  }

  // ---- Building the two vectors in place ----

  /** What a buffer holds after the entries `v` have been processed: all of them raised to
      `floor` and, once an entry above `e` has been met, the `k` copies of `e` as well. */
  ghost predicate Built(buf: seq<int>, prefix: seq<int>, v: seq<int>, floor: int, e: int, k: nat, added: bool) {
    if added
    then (exists i :: 0 <= i < |v| && e < v[i]) && buf == prefix + RaiseInsert(v, floor, e, k)
    else (forall i :: 0 <= i < |v| ==> v[i] <= e) && buf == prefix + Raise(v, floor)
  }

  /** Entries that do not exceed the finish time come before it. */
  lemma {:induction false} InsertAfter(v: seq<int>, w: seq<int>, floor: int, e: int, k: nat)
    requires forall i :: 0 <= i < |v| ==> v[i] <= e
    ensures RaiseInsert(v + w, floor, e, k) == Raise(v, floor) + RaiseInsert(w, floor, e, k)
  {
    if |v| == 0 {
      assert v + w == w && Raise(v, floor) == [];
    } else {
      assert (v + w)[0] == v[0] && (v + w)[1..] == v[1..] + w;
      InsertAfter(v[1..], w, floor, e, k);
      assert Raise(v, floor) == [Max(floor, v[0])] + Raise(v[1..], floor);
    }
  }

  /** Once an entry exceeds the finish time, further entries follow both. */
  lemma {:induction false} InsertBefore(v: seq<int>, i: nat, a: int, floor: int, e: int, k: nat)
    requires i < |v| && e < v[i]
    ensures RaiseInsert(v + [a], floor, e, k) == RaiseInsert(v, floor, e, k) + [Max(floor, a)]
  {
    assert (v + [a])[0] == v[0] && (v + [a])[1..] == v[1..] + [a];
    if e < v[0] {
      assert Raise(v + [a], floor) == Raise(v, floor) + [Max(floor, a)];
    } else {
      InsertBefore(v[1..], i - 1, a, floor, e, k);
    }
  }

  lemma RaiseInsertSnoc(v: seq<int>, a: int, floor: int, e: int, k: nat)
    ensures (exists i :: 0 <= i < |v| && e < v[i]) ==>
              RaiseInsert(v + [a], floor, e, k) == RaiseInsert(v, floor, e, k) + [Max(floor, a)]
    ensures (forall i :: 0 <= i < |v| ==> v[i] <= e) ==>
              && RaiseInsert(v, floor, e, k) == Raise(v, floor) + Rep(e, k)
              && (e < a ==> RaiseInsert(v + [a], floor, e, k) == Raise(v, floor) + Rep(e, k) + [Max(floor, a)])
  {
    if i :| 0 <= i < |v| && e < v[i] {
      InsertBefore(v, i, a, floor, e, k);
    } else {
      InsertAfter(v, [], floor, e, k);
      InsertAfter(v, [a], floor, e, k);
      assert v + [] == v && Raise([a], floor) == [Max(floor, a)];
    }
  }

  /** Store `k` copies of `e` from index `at` on. */
  method Fill(buf: array<int>, at: nat, e: int, k: nat)
    requires at + k <= buf.Length
    modifies buf
    ensures buf[..at + k] == old(buf[..at]) + Rep(e, k)
  {
    var i := 0;
    while i < k
      invariant 0 <= i <= k
      invariant buf[..at + i] == old(buf[..at]) + Rep(e, i)
    {
      buf[at + i] := e;
      assert buf[..at + i + 1] == buf[..at + i] + [e];
      i := i + 1;
    }
  }

  /** Process one entry `a` of the old vector: first the finish time of the dispatched job,
      if it belongs before `a` and was not stored yet, then the raised entry. */
  method Place(buf: array<int>, at: nat, added: bool, a: int, floor: int, e: int, k: nat,
               ghost prefix: seq<int>, ghost v: seq<int>) returns (at': nat, added': bool)
    requires at + (if !added && e < a then k else 0) < buf.Length
    requires Built(buf[..at], prefix, v, floor, e, k, added)
    modifies buf
    ensures added' == (added || e < a)
    ensures at' == at + (if !added && e < a then k else 0) + 1
    ensures at' <= buf.Length && Built(buf[..at'], prefix, v + [a], floor, e, k, added')
  {
    hide RaiseInsert;
    at', added' := at, added;
    if !added && e < a {
      Fill(buf, at, e, k);
      at', added' := at + k, true;
    }
    buf[at'] := Max(floor, a);
    at' := at' + 1;
    assert buf[..at'] == buf[..at' - 1] + [Max(floor, a)];
    RaiseInsertSnoc(v, a, floor, e, k);
    assert Raise(v + [a], floor) == Raise(v, floor) + [Max(floor, a)];
    assert (v + [a])[|v|] == a;
    assert forall i :: 0 <= i < |v| ==> (v + [a])[i] == v[i];
  }

  /** Store the finish times if no entry of the old vector called for them earlier. */
  method Complete(buf: array<int>, at: nat, added: bool, floor: int, e: int, k: nat,
                  ghost prefix: seq<int>, ghost v: seq<int>)
    requires at + (if added then 0 else k) == buf.Length
    requires Built(buf[..at], prefix, v, floor, e, k, added)
    modifies buf
    ensures buf[..] == prefix + RaiseInsert(v, floor, e, k)
  {
    if !added {
      Fill(buf, at, e, k);
      RaiseInsertSnoc(v, 0, floor, e, k);
    }
    assert buf[..] == buf[..buf.Length];
  }

  /** The entries for cores that predecessors freed beyond those the job uses;
      returns the number of entries of the old vector that are accounted for. */
  method StoreFreed(pa: array<int>, ca: array<int>, from: seq<Interval>, est: int, lst: int, used: nat, freed: nat)
      returns (i: nat)
    requires pa != ca && pa.Length == ca.Length == |from| && used <= |from| && freed <= |from|
    modifies pa, ca
    ensures i == Skip(used, freed)
    ensures pa[..i - used] == Rep(est, i - used)
    ensures ca[..i - used] == EarlyTimes(from, est, lst, used, i)
  {
    i := used;
    while i < freed
      invariant used <= i <= Skip(used, freed)
      invariant pa[..i - used] == Rep(est, i - used)
      invariant ca[..i - used] == EarlyTimes(from, est, lst, used, i)
    {
      pa[i - used] := est;
      ca[i - used] := Min(lst, Max(est, from[i].max));
      assert pa[..i + 1 - used] == pa[..i - used] + [est];
      assert ca[..i + 1 - used] == ca[..i - used] + [Min(lst, Max(est, from[i].max))];
      i := i + 1;
    }
  }

  /** The entries for the remaining cores, with the finish times of the job in their place.
      The source runs this scan for both buffers in one loop; the two do not interact. */
  method StoreRemaining(buf: array<int>, v: seq<int>, floor: int, e: int, k: nat)
    requires |v| + k <= buf.Length
    modifies buf
    ensures buf[..] == old(buf[..buf.Length - |v| - k]) + RaiseInsert(v, floor, e, k)
  {
    var added := false;
    ghost var prefix := buf[..buf.Length - |v| - k];
    assert prefix + Raise(v[..0], floor) == prefix;
    var at, i := buf.Length - |v| - k, 0;
    while i < |v|
      invariant 0 <= i <= |v|
      invariant at == buf.Length - |v| + i - (if added then 0 else k)
      invariant Built(buf[..at], prefix, v[..i], floor, e, k, added)
    {
      assert v[..i] + [v[i]] == v[..i + 1];
      at, added := Place(buf, at, added, v[i], floor, e, k, prefix, v[..i]);
      i := i + 1;
    }
    assert v[..i] == v;
    Complete(buf, at, added, floor, e, k, prefix, v);
  }

  class CoreAvailabilityTracker {
    var avail: seq<Interval>

    /** All cores available from time zero. */
    constructor Idle(n: nat)
      requires n > 0
      ensures avail == seq(n, _ => Interval(0, 0))
    {
      avail := seq(n, _ => Interval(0, 0));
    }

    /** Cores that become available within the given intervals, in no particular order. */
    constructor FromIntervals(initial: seq<Interval>)
      requires |initial| > 0
      ensures avail == Initial(initial)
      ensures AllOk(initial) ==> WellFormed(avail)
      ensures AllOk(initial) ==>
                multiset(Mins(avail)) == multiset(Mins(initial)) && multiset(Maxs(avail)) == multiset(Maxs(initial))
    {
      if AllOk(initial) {
        InitialSorted(initial);
      }
      avail := Pair(SortTimes(Mins(initial)), SortTimes(Maxs(initial)));
    }

    function Availability(p: nat): Interval
      requires 1 <= p <= |avail|
      reads this
    {
      avail[p - 1]
    }

    /** Become the availability that results from dispatching a job in `from`. */
    method Update(from: CoreAvailabilityTracker, start: Interval, finish: Interval, used: nat, freed: nat)
      requires from != this && used <= |from.avail| && freed <= |from.avail|
      modifies this
      ensures avail == Dispatched(from.avail, start, finish, used, freed)
    {
      var v := from.avail;
      var pa, ca := new int[|v|], new int[|v|];
      var i := StoreFreed(pa, ca, v, start.min, start.max, used, freed);
      StoreRemaining(pa, Mins(v)[i..], start.min, finish.min, used);
      StoreRemaining(ca, Maxs(v)[i..], start.min, finish.max, used);
      var possible, certain := pa[..], ca[..];
      assert possible == PossibleTimes(v, start.min, finish.min, used, freed);
      assert certain == CertainTimes(v, start.min, start.max, finish.max, used, freed);
      avail := Pair(possible, certain);
    }

    /** Widen every interval to include the other tracker's. */
    method Merge(other: CoreAvailabilityTracker)
      requires |avail| == |other.avail|
      modifies this
      ensures avail == Widened(old(avail), old(other.avail))
    {
      var i := 0;
      while i < |avail|
        invariant 0 <= i <= |avail| == |old(avail)|
        invariant other != this ==> other.avail == old(other.avail)
        invariant forall k :: 0 <= k < i ==> avail[k] == old(avail)[k].Widen(old(other.avail)[k])
        invariant forall k :: i <= k < |avail| ==> avail[k] == old(avail)[k]
      {
        avail := avail[i := avail[i].Widen(other.avail[i])];
        i := i + 1;
      }
    }

    /** Whether two trackers overlap in every entry or, conservatively, one contains the other. */
    method OverlapWith(other: CoreAvailabilityTracker, conservative: bool) returns (ok: bool, otherInThis: bool)
      requires |avail| == |other.avail|
      ensures ok == Mergeable(avail, other.avail, conservative)
      ensures otherInThis == (conservative && AllContained(other.avail, avail))
    {
      otherInThis := false;
      if conservative {
        var contained := true;
        var i := 0;
        while i < |avail| && contained
          invariant 0 <= i <= |avail|
          invariant contained ==> forall k :: 0 <= k < i ==> avail[k].Contains(other.avail[k])
          invariant !contained ==> !AllContained(other.avail, avail)
        {
          if !avail[i].Contains(other.avail[i]) {
            contained := false;
          }
          i := i + 1;
        }
        if contained {
          return true, true;
        }
        i := 0;
        while i < |avail|
          invariant 0 <= i <= |avail|
          invariant forall k :: 0 <= k < i ==> other.avail[k].Contains(avail[k])
        {
          if !other.avail[i].Contains(avail[i]) {
            return false, otherInThis;
          }
          i := i + 1;
        }
        ok := true;
      } else {
        var i := 0;
        while i < |avail|
          invariant 0 <= i <= |avail|
          invariant forall k :: 0 <= k < i ==> avail[k].Intersects(other.avail[k])
        {
          if !avail[i].Intersects(other.avail[i]) {
            return false, otherInThis;
          }
          i := i + 1;
        }
        ok := true;
      }
    }
  }

  function Widened(a: seq<Interval>, b: seq<Interval>): (r: seq<Interval>)
    requires |a| == |b|
    ensures |r| == |a| && forall i :: 0 <= i < |a| ==> r[i] == a[i].Widen(b[i])
  {
    seq(|a|, i requires 0 <= i < |a| => a[i].Widen(b[i]))
  }

  predicate AllContained(inner: seq<Interval>, outer: seq<Interval>) {
    |inner| == |outer| && forall i :: 0 <= i < |inner| ==> outer[i].Contains(inner[i])
  }

  predicate Mergeable(a: seq<Interval>, b: seq<Interval>, conservative: bool) {
    && |a| == |b|
    && if conservative then AllContained(b, a) || AllContained(a, b)
       else forall i :: 0 <= i < |a| ==> a[i].Intersects(b[i])
  }

  ghost predicate AllOk(v: seq<Interval>) {
    forall i :: 0 <= i < |v| ==> v[i].Ok()
  }

  /** Each core is available at no time between the two intervals that are merged for it. */
  ghost predicate NoGap(a: seq<Interval>, b: seq<Interval>)
    requires |a| == |b|
  {
    forall p, x :: 0 <= p < |a| && Widened(a, b)[p].Has(x) ==> a[p].Has(x) || b[p].Has(x)
  }

  /** Vectors are merged exactly if that adds no time for any core or, when merging conservatively, if one of them
      is the result. */
  lemma MergeableExact(a: seq<Interval>, b: seq<Interval>)
    requires |a| == |b| && AllOk(a) && AllOk(b)
    ensures Mergeable(a, b, false) <==> NoGap(a, b)
    ensures AllContained(b, a) <==> Widened(a, b) == a
    ensures Mergeable(a, b, true) <==> Widened(a, b) == a || Widened(a, b) == b
  {
    if NoGap(a, b) {
      forall p | 0 <= p < |a|
        ensures a[p].Intersects(b[p])
      {
        assert Widened(a, b)[p].Has(a[p].max + 1) ==> a[p].Has(a[p].max + 1) || b[p].Has(a[p].max + 1);
        assert Widened(a, b)[p].Has(b[p].max + 1) ==> a[p].Has(b[p].max + 1) || b[p].Has(b[p].max + 1);
      }
    }
    assert AllContained(b, a) ==> Widened(a, b) == a;
    assert AllContained(a, b) ==> Widened(a, b) == b;
    assert forall p :: 0 <= p < |a| ==> Widened(a, b)[p].Contains(a[p]) && Widened(a, b)[p].Contains(b[p]);
  }

  /** Sorting a vector of times. */
  function SortTimes(v: seq<int>): (r: seq<int>)
    ensures |r| == |v|
  {
    if |v| == 0 then [] else Insert(SortTimes(v[..|v| - 1]), v[|v| - 1], 1)
  }

  /** The earliest and the latest availability times are sorted separately. */
  function Initial(initial: seq<Interval>): seq<Interval> {
    Pair(SortTimes(Mins(initial)), SortTimes(Maxs(initial)))
  }

  lemma {:induction false} SortTimesSorts(v: seq<int>, x: int)
    ensures Sorted(SortTimes(v)) && Below(SortTimes(v), x) == Below(v, x)
  {
    if |v| > 0 {
      var w := SortTimes(v[..|v| - 1]);
      var e := v[|v| - 1];
      SortTimesSorts(v[..|v| - 1], x);
      BelowInsert(w, e, 1, x);
      InsertSorted(w, e, 1, if |w| > 0 && w[0] < e then w[0] else e);
    }
  }

  lemma {:induction false} SortTimesKeeps(v: seq<int>)
    ensures multiset(SortTimes(v)) == multiset(v)
  {
    if |v| > 0 {
      var n := |v| - 1;
      SortTimesKeeps(v[..n]);
      InsertKeeps(SortTimes(v[..n]), v[n]);
      assert v == v[..n] + [v[n]];
    }
  }

  /** The earliest and the latest times of the cores are sorted separately, and none is lost. */
  lemma InitialSorted(initial: seq<Interval>)
    requires |initial| > 0 && AllOk(initial)
    ensures WellFormed(Initial(initial))
    ensures Mins(Initial(initial)) == SortTimes(Mins(initial)) && Maxs(Initial(initial)) == SortTimes(Maxs(initial))
    ensures multiset(Mins(Initial(initial))) == multiset(Mins(initial))
    ensures multiset(Maxs(Initial(initial))) == multiset(Maxs(initial))
  {
    hide Sorted, WellFormed;
    SortTimesSorts(Mins(initial), 0);
    SortTimesSorts(Maxs(initial), 0);
    SortTimesKeeps(Mins(initial));
    SortTimesKeeps(Maxs(initial));
    forall x
      ensures Below(SortTimes(Maxs(initial)), x) <= Below(SortTimes(Mins(initial)), x)
    {
      SortTimesSorts(Mins(initial), x);
      SortTimesSorts(Maxs(initial), x);
      BelowPointwise(Mins(initial), Maxs(initial), x);
    }
    PairWellFormed(SortTimes(Mins(initial)), SortTimes(Maxs(initial)));
  }

  /** The initial vector covers every configuration whose cores become free within the
      given intervals, whatever the order in which the intervals are listed. */
  lemma InitialCovers(initial: seq<Interval>, c: Config)
    requires |initial| == |c.cores| >= 1
    requires forall i :: 0 <= i < |initial| ==> initial[i].Ok() && initial[i].Has(c.cores[i].free)
    ensures WellFormed(Initial(initial)) && CoresCover(Initial(initial), c)
  {
    var pa, ca := SortTimes(Mins(initial)), SortTimes(Maxs(initial));
    SortTimesSorts(Mins(initial), 0);
    SortTimesSorts(Maxs(initial), 0);
    forall x
      ensures Below(ca, x) <= FreeAt(c, x) <= Below(pa, x)
    {
      SortTimesSorts(Mins(initial), x);
      SortTimesSorts(Maxs(initial), x);
      BelowPointwise(Mins(initial), FreeTimes(c.cores), x);
      BelowPointwise(FreeTimes(c.cores), Maxs(initial), x);
    }
    PairWellFormed(pa, ca);
  }

  /** Merging widens: it keeps vectors well formed and loses no configuration of either. */
  lemma WidenedCovers(a: seq<Interval>, b: seq<Interval>)
    requires WellFormed(a) && WellFormed(b) && |a| == |b|
    ensures WellFormed(Widened(a, b))
    ensures forall c :: CoresCover(a, c) || CoresCover(b, c) ==> CoresCover(Widened(a, b), c)
  {
    hide Below;
    var w := Widened(a, b);
    forall i, k | 0 <= i < k < |w|
      ensures w[i].min <= w[k].min && w[i].max <= w[k].max
    {
      assert Mins(a)[i] <= Mins(a)[k] && Maxs(a)[i] <= Maxs(a)[k];
      assert Mins(b)[i] <= Mins(b)[k] && Maxs(b)[i] <= Maxs(b)[k];
    }
    forall c, x | CoresCover(a, c) || CoresCover(b, c)
      ensures Below(Maxs(w), x) <= FreeAt(c, x)
      ensures c.now <= x ==> FreeAt(c, x) <= Below(Mins(w), x)
    {
      BelowPointwise(Maxs(a), Maxs(w), x);
      BelowPointwise(Maxs(b), Maxs(w), x);
      BelowPointwise(Mins(w), Mins(a), x);
      BelowPointwise(Mins(w), Mins(b), x);
    }
  }
}
