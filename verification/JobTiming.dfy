// Tracking the start and finish times of dispatched jobs that still matter.
module JobTiming {
  import opened Times
  import opened Workload

  datatype Entry = Entry(job: nat, time: Interval)

  ghost predicate Increasing(v: seq<Entry>) {
    forall i, k :: 0 <= i < k < |v| ==> v[i].job < v[k].job
  }

  ghost predicate IncreasingJobs(v: seq<nat>) {
    forall i, k :: 0 <= i < k < |v| ==> v[i] < v[k]
  }

  /** What a list of entries records. */
  ghost function Known(v: seq<Entry>): map<nat, Interval> {
    if |v| == 0 then map[] else Known(v[1..])[v[0].job := v[0].time]
  }

  /** A recorded finish interval once a job that starts by `lst` has been dispatched: on one core
      everything dispatched before has finished by then; otherwise a job it waits for has finished
      at least `d` earlier. */
  function TightenFinish(time: Interval, lst: int, d: int, singleCore: bool): Interval {
    if singleCore && time.max > lst then Span(time.min, lst)
    else if d >= 0 then Span(time.min, Min(time.max, lst - d))
    else Span(time.min, time.max)
  }

  function TightenStart(time: Interval, lst: int, d: int): Interval {
    if d >= 0 then Span(time.min, Min(time.max, lst - d)) else time
  }

  /** The finish times recorded after `j` was dispatched, for the jobs `pending`. */
  ghost function FinishTimes(known: map<nat, Interval>, j: nat, start: Interval, finish: Interval, pending: set<nat>,
                             c: JobConstraints, singleCore: bool): map<nat, Interval> {
    map q | q in pending && (q == j || q in known) ::
      if q == j then finish
      else TightenFinish(known[q], start.max, MinDelayAfterFinish(c, q), singleCore)
  }

  ghost function StartTimes(known: map<nat, Interval>, j: nat, start: Interval, pending: set<nat>,
                            c: JobConstraints): map<nat, Interval> {
    map q | q in pending && (q == j || q in known) ::
      if q == j then start else TightenStart(known[q], start.max, MinDelayAfterStart(c, q))
  }

  /** Advance to the first entry of `q`, or to the end when there is none. */
  function SkipTo(v: seq<Entry>, q: nat): (r: seq<Entry>)
    ensures |r| <= |v|
  {
    if |v| == 0 || v[0].job == q then v else SkipTo(v[1..], q)
  }

  /** Advance to the first entry of `q` or of a later job. */
  function SkipBelow(v: seq<Entry>, q: nat): (r: seq<Entry>)
    ensures |r| <= |v|
  {
    if |v| == 0 || v[0].job >= q then v else SkipBelow(v[1..], q)
  }

  /** The scan of the finish-time tracker. */
  function ScanFinishes(v: seq<Entry>, j: nat, start: Interval, finish: Interval, pending: seq<nat>,
                        c: JobConstraints, singleCore: bool): seq<Entry>
    decreases |pending|
  {
    if |pending| == 0 then []
    else if pending[0] == j then [Entry(j, finish)] + ScanFinishes(v, j, start, finish, pending[1..], c, singleCore)
    else
      var rest := SkipBelow(v, pending[0]);
      if |rest| == 0 || rest[0].job > pending[0] then ScanFinishes(rest, j, start, finish, pending[1..], c, singleCore)
      else [Entry(pending[0], TightenFinish(rest[0].time, start.max, MinDelayAfterFinish(c, pending[0]), singleCore))]
             + ScanFinishes(rest, j, start, finish, pending[1..], c, singleCore)
  }

  /** The scan of the start-time tracker: it looks for each pending job from where the search for
      the previous one stopped, and that search runs to the very end when it fails. */
  function ScanStarts(v: seq<Entry>, j: nat, start: Interval, pending: seq<nat>, c: JobConstraints): seq<Entry>
    decreases |pending|
  {
    if |pending| == 0 then []
    else if pending[0] == j then [Entry(j, start)] + ScanStarts(v, j, start, pending[1..], c)
    else
      var rest := SkipTo(v, pending[0]);
      if |rest| == 0 then ScanStarts(rest, j, start, pending[1..], c)
      else [Entry(pending[0], TightenStart(rest[0].time, start.max, MinDelayAfterStart(c, pending[0])))]
             + ScanStarts(rest, j, start, pending[1..], c)
  }

  /** The two-pointer widening of one list by another. */
  function WidenLists(a: seq<Entry>, b: seq<Entry>): seq<Entry>
    decreases |a| + |b|
  {
    if |a| == 0 || |b| == 0 then a
    else if a[0].job == b[0].job then [Entry(a[0].job, a[0].time.Widen(b[0].time))] + WidenLists(a[1..], b[1..])
    else if a[0].job < b[0].job then [a[0]] + WidenLists(a[1..], b)
    else WidenLists(a, b[1..])
  }

  /** The two-pointer comparison of two lists. */
  function Compatible(a: seq<Entry>, b: seq<Entry>, conservative: bool, otherInThis: bool): bool
    decreases |a| + |b|
  {
    if |a| == 0 || |b| == 0 then true
    else if a[0].job == b[0].job then
      && (if conservative then
            if otherInThis then a[0].time.Contains(b[0].time) else b[0].time.Contains(a[0].time)
          else a[0].time.Intersects(b[0].time))
      && Compatible(a[1..], b[1..], conservative, otherInThis)
    else if conservative then false
    else if a[0].job < b[0].job then Compatible(a[1..], b, conservative, otherInThis)
    else Compatible(a, b[1..], conservative, otherInThis)
  }

  /** Start or finish times of jobs with pending successors, sorted by job. */
  class JobTimingTracker {
    var times: seq<Entry>

    ghost predicate Valid()
      reads this
    {
      Increasing(times)
    }

    constructor ()
      ensures times == [] && Valid()
    {
      times := [];
    }

    /** Binary search for the position of `q`, or where it would be inserted. */
    method Find(q: nat) returns (at: nat)
      requires Valid()
      ensures at <= |times|
      ensures forall i :: 0 <= i < at ==> times[i].job < q
      ensures forall i :: at <= i < |times| ==> times[i].job >= q
    {
      var lo, hi := 0, |times|;
      while lo < hi
        invariant 0 <= lo <= hi <= |times|
        invariant forall i :: 0 <= i < lo ==> times[i].job < q
        invariant forall i :: hi <= i < |times| ==> times[i].job >= q
      {
        var mid := (lo + hi) / 2;
        if times[mid].job == q {
          return mid;
        } else if times[mid].job < q {
          lo := mid + 1;
        } else {
          hi := mid;
        }
      }
      return lo;
    }

    /** The interval recorded for `q`, if any. */
    method Get(q: nat) returns (r: Option<Interval>)
      requires Valid()
      ensures r == if q in Known(times) then Some(Known(times)[q]) else None
    {
      var at := Find(q);
      KnownExact(times);
      if at < |times| && times[at].job == q {
        return Some(times[at].time);
      }
      return None;
    }

    /** Become the finish times after `j` was dispatched; `pending` lists the jobs to record. */
    method UpdateFinishTimes(from: JobTimingTracker, j: nat, start: Interval, finish: Interval, pending: seq<nat>,
                             c: JobConstraints, singleCore: bool)
      requires from != this
      modifies this
      ensures times == ScanFinishes(from.times, j, start, finish, pending, c, singleCore)
    {
      times := [];
      var i, at := 0, 0;
      ghost var all := ScanFinishes(from.times, j, start, finish, pending, c, singleCore);
      while i < |pending|
        invariant 0 <= i <= |pending| && 0 <= at <= |from.times|
        invariant times + ScanFinishes(from.times[at..], j, start, finish, pending[i..], c, singleCore) == all
      {
        var q := pending[i];
        ghost var done := times;
        assert pending[i..][1..] == pending[i + 1..];
        if q == j {
          times := times + [Entry(q, finish)];
        } else {
          ghost var rest := SkipBelow(from.times[at..], q);
          while at < |from.times| && from.times[at].job < q
            invariant 0 <= at <= |from.times|
            invariant SkipBelow(from.times[at..], q) == rest
            invariant times == done
          {
            assert from.times[at..][1..] == from.times[at + 1..];
            at := at + 1;
          }
          assert rest == from.times[at..];
          if at < |from.times| && from.times[at].job <= q {
            var d := MinDelayAfterFinish(c, q);
            times := times + [Entry(q, TightenFinish(from.times[at].time, start.max, d, singleCore))];
          }
        }
        i := i + 1;
      }
    }

    /** Become the start times after `j` was dispatched. */
    method UpdateStartTimes(from: JobTimingTracker, j: nat, start: Interval, pending: seq<nat>, c: JobConstraints)
      requires from != this
      modifies this
      ensures times == ScanStarts(from.times, j, start, pending, c)
    {
      hide TightenStart, Min;
      times := [];
      var i, at := 0, 0;
      ghost var all := ScanStarts(from.times, j, start, pending, c);
      while i < |pending|
        invariant 0 <= i <= |pending| && 0 <= at <= |from.times|
        invariant times + ScanStarts(from.times[at..], j, start, pending[i..], c) == all
      {
        var q := pending[i];
        ghost var done := times;
        assert pending[i..][1..] == pending[i + 1..];
        if q == j {
          times := times + [Entry(q, start)];
        } else {
          ghost var rest := SkipTo(from.times[at..], q);
          while at < |from.times| && from.times[at].job != q
            invariant 0 <= at <= |from.times|
            invariant SkipTo(from.times[at..], q) == rest
            invariant times == done
          {
            assert from.times[at..][1..] == from.times[at + 1..];
            at := at + 1;
          }
          assert rest == from.times[at..];
          if at < |from.times| && from.times[at].job <= q {
            times := times + [Entry(q, TightenStart(from.times[at].time, start.max, MinDelayAfterStart(c, q)))];
          }
        }
        i := i + 1;
      }
    }

    /** Widen every interval by what the other tracker records for the same job. */
    method Merge(other: JobTimingTracker)
      requires other != this
      modifies this
      ensures times == WidenLists(old(times), other.times)
    {
      var i, k := 0, 0;
      ghost var all := WidenLists(times, other.times);
      while i < |times| && k < |other.times|
        invariant 0 <= i <= |times| && 0 <= k <= |other.times|
        invariant times[..i] + WidenLists(times[i..], other.times[k..]) == all
        decreases |times| - i + |other.times| - k
      {
        ghost var before := times;
        assert times[i..][1..] == times[i + 1..] && other.times[k..][1..] == other.times[k + 1..];
        if times[i].job == other.times[k].job {
          times := times[i := Entry(times[i].job, times[i].time.Widen(other.times[k].time))];
          assert times[i + 1..] == before[i + 1..] && times[..i + 1] == before[..i] + [times[i]];
          i, k := i + 1, k + 1;
        } else if times[i].job < other.times[k].job {
          assert times[..i + 1] == times[..i] + [times[i]];
          i := i + 1;
        } else {
          k := k + 1;
        }
      }
      assert times == times[..i] + times[i..];
    }

    method OverlapWith(other: JobTimingTracker, conservative: bool, otherInThis: bool) returns (ok: bool)
      ensures ok == Compatible(times, other.times, conservative, otherInThis)
    {
      var i, k := 0, 0;
      while i < |times| && k < |other.times|
        invariant 0 <= i <= |times| && 0 <= k <= |other.times|
        invariant Compatible(times, other.times, conservative, otherInThis)
               == Compatible(times[i..], other.times[k..], conservative, otherInThis)
        decreases |times| - i + |other.times| - k
      {
        var a, b := times[i], other.times[k];
        assert times[i..][1..] == times[i + 1..] && other.times[k..][1..] == other.times[k + 1..];
        if a.job == b.job {
          if conservative {
            if otherInThis {
              if !a.time.Contains(b.time) {
                return false;
              }
            } else if !b.time.Contains(a.time) {
              return false;
            }
          } else if !a.time.Intersects(b.time) {
            return false;
          }
          i, k := i + 1, k + 1;
        } else if conservative {
          return false;
        } else if a.job < b.job {
          i := i + 1;
        } else {
          k := k + 1;
        }
      }
      return true;
    }
  }

  /** The intervals that two lists record for the same job intersect or, conservatively, those of one list
      contain those of the other. */
  ghost predicate TimesOverlap(a: map<nat, Interval>, b: map<nat, Interval>, conservative: bool, otherInThis: bool) {
    forall q :: q in a && q in b ==>
      if !conservative then a[q].Intersects(b[q]) else if otherInThis then a[q].Contains(b[q]) else b[q].Contains(a[q])
  }

  lemma KnownTail(v: seq<Entry>)
    requires Increasing(v) && |v| > 0
    ensures Known(v) == Known(v[1..])[v[0].job := v[0].time]
    ensures forall q :: q in Known(v[1..]) ==> v[0].job < q
  {
    KnownExact(v[1..]);
  }

  lemma TimesOverlapTail(a: seq<Entry>, b: seq<Entry>, conservative: bool, otherInThis: bool)
    requires Increasing(a) && Increasing(b) && |a| > 0 && |b| > 0 && a[0].job == b[0].job
    ensures TimesOverlap(Known(a), Known(b), conservative, otherInThis) <==>
              && (if !conservative then a[0].time.Intersects(b[0].time)
                  else if otherInThis then a[0].time.Contains(b[0].time) else b[0].time.Contains(a[0].time))
              && TimesOverlap(Known(a[1..]), Known(b[1..]), conservative, otherInThis)
    ensures Known(a).Keys == Known(b).Keys ==> Known(a[1..]).Keys == Known(b[1..]).Keys
  {
    KnownTail(a);
    KnownTail(b);
    assert a[0].job in Known(a) && a[0].job in Known(b);
    if TimesOverlap(Known(a), Known(b), conservative, otherInThis) {
      assert forall q :: q in Known(a[1..]) ==> q in Known(a) && Known(a)[q] == Known(a[1..])[q];
      assert forall q :: q in Known(b[1..]) ==> q in Known(b) && Known(b)[q] == Known(b[1..])[q];
    }
    if Known(a).Keys == Known(b).Keys {
      assert Known(a[1..]).Keys == Known(a).Keys - {a[0].job};
      assert Known(b[1..]).Keys == Known(b).Keys - {a[0].job};
    }
  }

  lemma SameHead(a: seq<Entry>, b: seq<Entry>)
    requires Increasing(a) && Increasing(b) && |a| > 0 && |b| > 0 && Known(a).Keys == Known(b).Keys
    ensures a[0].job == b[0].job
  {
    KnownTail(a);
    KnownTail(b);
    assert a[0].job in Known(a) && b[0].job in Known(b);
    assert a[0].job in Known(b).Keys && b[0].job in Known(a).Keys;
  }

  /** The two-pointer comparison is right about lists that are sorted by job and, for conservative merges,
      record the same jobs. */
  lemma {:induction false} CompatibleExact(a: seq<Entry>, b: seq<Entry>, conservative: bool, otherInThis: bool)
    requires Increasing(a) && Increasing(b) && (conservative ==> Known(a).Keys == Known(b).Keys)
    ensures Compatible(a, b, conservative, otherInThis) <==> TimesOverlap(Known(a), Known(b), conservative, otherInThis)
    decreases |a| + |b|
  {
    if |a| > 0 && |b| > 0 {
      KnownTail(a);
      KnownTail(b);
      if conservative {
        SameHead(a, b);
      }
      if a[0].job == b[0].job {
        TimesOverlapTail(a, b, conservative, otherInThis);
        CompatibleExact(a[1..], b[1..], conservative, otherInThis);
      } else if !conservative && a[0].job < b[0].job {
        assert a[0].job !in Known(b);
        CompatibleExact(a[1..], b, conservative, otherInThis);
      } else if !conservative {
        assert b[0].job !in Known(a);
        CompatibleExact(a, b[1..], conservative, otherInThis);
      }
    }
  }

  ghost function WidenedTimes(a: map<nat, Interval>, b: map<nat, Interval>): map<nat, Interval> {
    map q | q in a :: if q in b then a[q].Widen(b[q]) else a[q]
  }

  lemma {:induction false} KnownExact(v: seq<Entry>)
    ensures forall q :: q in Known(v) <==> exists i :: 0 <= i < |v| && v[i].job == q
    ensures Increasing(v) ==> forall i :: 0 <= i < |v| ==> v[i].job in Known(v) && Known(v)[v[i].job] == v[i].time
  {
    if |v| > 0 {
      KnownExact(v[1..]);
      assert v == [v[0]] + v[1..];
      forall i | 0 <= i < |v| && Increasing(v)
        ensures v[i].job in Known(v) && Known(v)[v[i].job] == v[i].time
      {
        if i > 0 {
          assert v[1..][i - 1] == v[i];
        }
      }
    }
  }

  lemma {:induction false} SkipBelowKeeps(v: seq<Entry>, q: nat, x: nat)
    requires Increasing(v) && x >= q
    ensures Increasing(SkipBelow(v, q))
    ensures x in Known(SkipBelow(v, q)) <==> x in Known(v)
    ensures x in Known(v) ==> Known(SkipBelow(v, q))[x] == Known(v)[x]
  {
    if |v| > 0 && v[0].job < q {
      SkipBelowKeeps(v[1..], q, x);
    }
  }

  lemma SkipBelowFinds(v: seq<Entry>, q: nat)
    requires Increasing(v)
    ensures var w := SkipBelow(v, q);
            q in Known(v) <==> |w| > 0 && w[0].job == q
  {
    SkipBelowKeeps(v, q, q);
    SkipBelowLow(v, q);
    KnownExact(SkipBelow(v, q));
  }

  lemma {:induction false} SkipBelowLow(v: seq<Entry>, q: nat)
    requires Increasing(v)
    ensures forall i :: 0 <= i < |SkipBelow(v, q)| ==> SkipBelow(v, q)[i].job >= q
  {
    if |v| > 0 && v[0].job < q {
      SkipBelowLow(v[1..], q);
    }
  }

  lemma {:induction false} ScanFinishesSorted(v: seq<Entry>, j: nat, start: Interval, finish: Interval,
                                              pending: seq<nat>,
                                              c: JobConstraints, singleCore: bool)
    requires IncreasingJobs(pending)
    ensures var r := ScanFinishes(v, j, start, finish, pending, c, singleCore);
            Increasing(r) && forall i :: 0 <= i < |r| ==> |pending| > 0 && pending[0] <= r[i].job
    decreases |pending|
  {
    if |pending| > 0 {
      var rest := if pending[0] == j then v else SkipBelow(v, pending[0]);
      ScanFinishesSorted(rest, j, start, finish, pending[1..], c, singleCore);
    }
  }

  lemma {:induction false} ScanFinishesAt(v: seq<Entry>, j: nat, start: Interval, finish: Interval, pending: seq<nat>,
                                          c: JobConstraints, singleCore: bool, x: nat)
    requires Increasing(v) && IncreasingJobs(pending)
    ensures var r := Known(ScanFinishes(v, j, start, finish, pending, c, singleCore));
            && (x in r <==> x in pending && (x == j || x in Known(v)))
            && (x in r ==> r[x] == if x == j then finish
                                   else TightenFinish(Known(v)[x], start.max, MinDelayAfterFinish(c, x), singleCore))
    decreases |pending|
  {
    if |pending| > 0 {
      var q := pending[0];
      assert pending == [q] + pending[1..];
      if q != j {
        SkipBelowKeeps(v, q, Max(q, x));
        SkipBelowFinds(v, q);
        SkipBelowLow(v, q);
        KnownExact(SkipBelow(v, q));
      }
      var rest := if q == j then v else SkipBelow(v, q);
      ScanFinishesAt(rest, j, start, finish, pending[1..], c, singleCore, x);
      assert x < q ==> x !in pending[1..];
    }
  }

  /** The finish-time scan records exactly the pending jobs it can know about. */
  lemma ScanFinishesExact(v: seq<Entry>, j: nat, start: Interval, finish: Interval, pending: seq<nat>,
                          c: JobConstraints, singleCore: bool)
    requires Increasing(v) && IncreasingJobs(pending)
    ensures Increasing(ScanFinishes(v, j, start, finish, pending, c, singleCore))
    ensures Known(ScanFinishes(v, j, start, finish, pending, c, singleCore))
         == FinishTimes(Known(v), j, start, finish, Elems(pending), c, singleCore)
  {
    ScanFinishesSorted(v, j, start, finish, pending, c, singleCore);
    var r := Known(ScanFinishes(v, j, start, finish, pending, c, singleCore));
    var s := FinishTimes(Known(v), j, start, finish, Elems(pending), c, singleCore);
    forall x
      ensures x in r <==> x in s
      ensures x in r ==> r[x] == s[x]
    {
      ScanFinishesAt(v, j, start, finish, pending, c, singleCore, x);
    }
  }

  lemma {:induction false} SkipToSearch(v: seq<Entry>, q: nat)
    requires Increasing(v)
    ensures SkipTo(v, q) == if q in Known(v) then SkipBelow(v, q) else []
  {
    if |v| > 0 && v[0].job != q {
      SkipToSearch(v[1..], q);
      KnownExact(v[1..]);
      if v[0].job > q {
        assert q !in Known(v[1..]);
      }
    }
  }

  lemma {:induction false} ScanStartsSorted(v: seq<Entry>, j: nat, start: Interval, pending: seq<nat>,
                                            c: JobConstraints)
    requires IncreasingJobs(pending)
    ensures var r := ScanStarts(v, j, start, pending, c);
            Increasing(r) && forall i :: 0 <= i < |r| ==> |pending| > 0 && pending[0] <= r[i].job
    decreases |pending|
  {
    if |pending| > 0 {
      var rest := if pending[0] == j then v else SkipTo(v, pending[0]);
      ScanStartsSorted(rest, j, start, pending[1..], c);
    }
  }

  /** The start-time scan records a pending job exactly when it is the dispatched one, or it is
      known and so is every pending job before it. */
  lemma {:induction false} ScanStartsAt(v: seq<Entry>, j: nat, start: Interval, pending: seq<nat>, c: JobConstraints,
                                        x: nat)
    requires Increasing(v) && IncreasingJobs(pending)
    ensures var r := Known(ScanStarts(v, j, start, pending, c));
            && (x in r <==> x in pending && (x == j || (x in Known(v) && NoneMissing(v, j, pending, x))))
            && (x in r ==> r[x] == if x == j then start
                                   else TightenStart(Known(v)[x], start.max, MinDelayAfterStart(c, x)))
    decreases |pending|
  {
    if |pending| > 0 {
      var q := pending[0];
      assert pending == [q] + pending[1..];
      SkipToSearch(v, q);
      SkipBelowKeeps(v, q, q);
      SkipBelowFinds(v, q);
      KnownExact(SkipBelow(v, q));
      var rest := if q == j then v else SkipTo(v, q);
      ScanStartsAt(rest, j, start, pending[1..], c, x);
      if x > q {
        NoneMissingTail(v, j, pending, x);
      }
    }
  }

  /** Skipping to the first pending job loses the later ones if and only if that job is unknown. */
  lemma NoneMissingTail(v: seq<Entry>, j: nat, pending: seq<nat>, x: nat)
    requires Increasing(v) && IncreasingJobs(pending) && |pending| > 0 && pending[0] < x
    ensures var rest := if pending[0] == j then v else SkipTo(v, pending[0]);
            && ((x in Known(rest) && NoneMissing(rest, j, pending[1..], x))
                <==> (x in Known(v) && NoneMissing(v, j, pending, x)))
            && (x in Known(rest) ==> x in Known(v) && Known(rest)[x] == Known(v)[x])
  {
    var q := pending[0];
    assert pending == [q] + pending[1..];
    SkipToSearch(v, q);
    SkipBelowKeeps(v, q, x);
    forall y | y in pending[1..]
      ensures q < y && (y in Known(SkipBelow(v, q)) <==> y in Known(v))
    {
      SkipBelowKeeps(v, q, y);
    }
  }

  /** No pending job before `x`, other than `j`, is unknown. */
  ghost predicate NoneMissing(v: seq<Entry>, j: nat, pending: seq<nat>, x: nat) {
    forall y :: y in pending && y != j && y < x ==> y in Known(v)
  }

  /** The start-time scan records everything the finish-time scan would, if and only if
      no pending job that is known comes after one that is not. */
  lemma ScanStartsExact(v: seq<Entry>, j: nat, start: Interval, pending: seq<nat>, c: JobConstraints)
    requires Increasing(v) && IncreasingJobs(pending)
    ensures Increasing(ScanStarts(v, j, start, pending, c))
    ensures Known(ScanStarts(v, j, start, pending, c)) == StartTimes(Known(v), j, start, Elems(pending), c)
       <==> forall x :: x in pending && x != j && x in Known(v) ==> NoneMissing(v, j, pending, x)
  {
    ScanStartsSorted(v, j, start, pending, c);
    var r := Known(ScanStarts(v, j, start, pending, c));
    var s := StartTimes(Known(v), j, start, Elems(pending), c);
    forall x
      ensures x in r <==> x in pending && (x == j || (x in Known(v) && NoneMissing(v, j, pending, x)))
      ensures x in r ==> x in s && r[x] == s[x]
    {
      ScanStartsAt(v, j, start, pending, c, x);
    }
    if forall x :: x in pending && x != j && x in Known(v) ==> NoneMissing(v, j, pending, x) {
      assert r == s;
    } else {
      var x :| x in pending && x != j && x in Known(v) && !NoneMissing(v, j, pending, x);
      assert x in s && x !in r;
    }
  }

  /** A recorded job that the scan loses, because an earlier pending job was never recorded. */
  lemma ScanStartsCanLose(start: Interval, t: Interval, c: JobConstraints)
    ensures ScanStarts([Entry(5, t)], 7, start, [3, 5], c) == []
    ensures 5 in StartTimes(Known([Entry(5, t)]), 7, start, Elems([3, 5]), c)
  {
    assert SkipTo([Entry(5, t)], 3) == SkipTo([], 3) == [] by {
      assert [Entry(5, t)][1..] == [];
    }
    assert [3, 5][1..] == [5];
    assert ScanStarts([], 7, start, [5], c) == ScanStarts([], 7, start, [5][1..], c) == [];
    assert Known([Entry(5, t)]) == Known([])[5 := t];
  }

  lemma {:induction false} WidenListsSorted(a: seq<Entry>, b: seq<Entry>)
    requires Increasing(a)
    ensures Increasing(WidenLists(a, b)) && |WidenLists(a, b)| == |a|
    ensures forall i :: 0 <= i < |a| ==> WidenLists(a, b)[i].job == a[i].job
    decreases |a| + |b|
  {
    if |a| > 0 && |b| > 0 {
      if a[0].job == b[0].job {
        WidenListsSorted(a[1..], b[1..]);
      } else if a[0].job < b[0].job {
        WidenListsSorted(a[1..], b);
      } else {
        WidenListsSorted(a, b[1..]);
      }
    }
  }

  lemma {:induction false} WidenListsAt(a: seq<Entry>, b: seq<Entry>, x: nat)
    requires Increasing(a) && Increasing(b)
    ensures var r := Known(WidenLists(a, b));
            && (x in r <==> x in Known(a))
            && (x in r ==> r[x] == if x in Known(b) then Known(a)[x].Widen(Known(b)[x]) else Known(a)[x])
    decreases |a| + |b|
  {
    hide Interval.Widen;
    if |a| > 0 && |b| > 0 {
      KnownExact(a);
      KnownExact(b);
      if a[0].job == b[0].job {
        WidenListsAt(a[1..], b[1..], x);
      } else if a[0].job < b[0].job {
        WidenListsAt(a[1..], b, x);
      } else {
        WidenListsAt(a, b[1..], x);
      }
    }
  }

  /** Widening keeps the jobs of the first list and widens those both record. */
  lemma WidenListsExact(a: seq<Entry>, b: seq<Entry>)
    requires Increasing(a) && Increasing(b)
    ensures Increasing(WidenLists(a, b))
    ensures Known(WidenLists(a, b)) == WidenedTimes(Known(a), Known(b))
  {
    WidenListsSorted(a, b);
    forall x
      ensures x in Known(WidenLists(a, b)) <==> x in WidenedTimes(Known(a), Known(b))
      ensures x in Known(a) ==> Known(WidenLists(a, b))[x] == WidenedTimes(Known(a), Known(b))[x]
    {
      WidenListsAt(a, b, x);
    }
  }
}
