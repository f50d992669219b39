// Counting how many entries of a vector of times are at most a given time.
module Counting {
  import opened Times

  function Below(v: seq<int>, x: int): (n: nat)
    ensures n <= |v|
  {
    if |v| == 0 then 0
    else Below(v[..|v| - 1], x) + if v[|v| - 1] <= x then 1 else 0
  }

  ghost predicate Sorted(v: seq<int>) {
    forall i, j :: 0 <= i < j < |v| ==> v[i] <= v[j]
  }

  /** In a sorted vector the entries at most `x` are exactly the first `Below(v, x)`. */
  lemma {:induction false} SortedBelow(v: seq<int>, x: int, k: nat)
    requires Sorted(v) && k < |v|
    ensures v[k] <= x <==> k < Below(v, x)
  {
    var w := v[..|v| - 1];
    if k < |w| {
      SortedBelow(w, x, k);
    } else if v[k] <= x {
      BelowAll(w, x);
    }
  }

  lemma {:induction false} BelowAll(v: seq<int>, x: int)
    ensures (forall i :: 0 <= i < |v| ==> v[i] <= x) <==> Below(v, x) == |v|
  {
    if |v| > 0 {
      BelowAll(v[..|v| - 1], x);
      assert v == v[..|v| - 1] + [v[|v| - 1]];
    }
  }

  lemma {:induction false} BelowConcat(v: seq<int>, w: seq<int>, x: int)
    ensures Below(v + w, x) == Below(v, x) + Below(w, x)
  {
    if |w| == 0 {
      assert v + w == v;
    } else {
      assert (v + w)[..|v + w| - 1] == v + w[..|w| - 1];
      BelowConcat(v, w[..|w| - 1], x);
    }
  }

  lemma {:induction false} BelowMonotone(v: seq<int>, x: int, y: int)
    requires x <= y
    ensures Below(v, x) <= Below(v, y)
  {
    if |v| > 0 {
      BelowMonotone(v[..|v| - 1], x, y);
    }
  }

  /** Pointwise smaller vectors have more entries below any time. */
  lemma {:induction false} BelowPointwise(v: seq<int>, w: seq<int>, x: int)
    requires |v| == |w|
    requires forall i :: 0 <= i < |v| ==> v[i] <= w[i]
    ensures Below(w, x) <= Below(v, x)
  {
    if |v| > 0 {
      BelowPointwise(v[..|v| - 1], w[..|w| - 1], x);
    }
  }

  /** Dropping the first `k` entries of a sorted vector removes the smallest ones. */
  lemma {:induction false} BelowDrop(v: seq<int>, k: nat, x: int)
    requires Sorted(v) && k <= |v|
    ensures Below(v[k..], x) == if Below(v, x) >= k then Below(v, x) - k else 0
  {
    assert v == v[..k] + v[k..];
    BelowConcat(v[..k], v[k..], x);
    if k < |v| && v[k] <= x {
      BelowAll(v[..k], x);
    } else if k < |v| {
      BelowNone(v[k..], x);
    }
  }

  lemma {:induction false} BelowNone(v: seq<int>, x: int)
    requires forall i :: 0 <= i < |v| ==> v[i] > x
    ensures Below(v, x) == 0
  {
    if |v| > 0 {
      BelowNone(v[..|v| - 1], x);
    }
  }

  lemma TwoBelow(v: seq<int>, x: int)
    requires |v| == 2
    ensures Below(v, x) == (if v[0] <= x then 1 else 0) + (if v[1] <= x then 1 else 0)
  {
    assert v[..1] == [v[0]] && [v[0]][..0] == [];
  }

  function Rep(e: int, k: nat): (r: seq<int>)
    ensures |r| == k && forall i :: 0 <= i < k ==> r[i] == e
  {
    seq(k, _ => e)
  }

  lemma BelowRep(e: int, k: nat, x: int)
    ensures Below(Rep(e, k), x) == if e <= x then k else 0
  {
    if e <= x {
      BelowAll(Rep(e, k), x);
    } else {
      BelowNone(Rep(e, k), x);
    }
  }

  /** Every entry raised to at least `e`. */
  function Raise(v: seq<int>, e: int): (r: seq<int>)
    ensures |r| == |v| && forall i :: 0 <= i < |v| ==> r[i] == Max(e, v[i])
  {
    seq(|v|, i requires 0 <= i < |v| => Max(e, v[i]))
  }

  lemma {:induction false} BelowRaise(v: seq<int>, e: int, x: int)
    ensures Below(Raise(v, e), x) == if e <= x then Below(v, x) else 0
  {
    if e > x {
      BelowNone(Raise(v, e), x);
    } else if |v| > 0 {
      BelowRaise(v[..|v| - 1], e, x);
      assert Raise(v, e)[..|v| - 1] == Raise(v[..|v| - 1], e);
    }
  }

  /** `k` copies of `e` inserted before the first larger entry. */
  function Insert(v: seq<int>, e: int, k: nat): (r: seq<int>)
    ensures |r| == |v| + k
  {
    if |v| == 0 then Rep(e, k)
    else if e < v[0] then Rep(e, k) + v
    else [v[0]] + Insert(v[1..], e, k)
  }

  lemma {:induction false} BelowInsert(v: seq<int>, e: int, k: nat, x: int)
    ensures Below(Insert(v, e, k), x) == Below(v, x) + if e <= x then k else 0
  {
    BelowRep(e, k, x);
    if |v| > 0 {
      if e < v[0] {
        BelowConcat(Rep(e, k), v, x);
      } else {
        BelowInsert(v[1..], e, k, x);
        BelowConcat([v[0]], Insert(v[1..], e, k), x);
        BelowConcat([v[0]], v[1..], x);
        assert v == [v[0]] + v[1..];
      }
    }
  }

  lemma {:induction false} InsertSorted(v: seq<int>, e: int, k: nat, floor: int)
    requires Sorted(v) && floor <= e
    requires forall i :: 0 <= i < |v| ==> floor <= v[i]
    ensures Sorted(Insert(v, e, k))
    ensures forall i :: 0 <= i < |v| + k ==> floor <= Insert(v, e, k)[i]
  {
    if |v| > 0 && e >= v[0] {
      InsertSorted(v[1..], e, k, v[0]);
    }
  }

  lemma {:induction false} InsertKeeps(v: seq<int>, e: int)
    ensures multiset(Insert(v, e, 1)) == multiset(v) + multiset{e}
  {
    assert Rep(e, 1) == [e];
    if |v| > 0 && e >= v[0] {
      InsertKeeps(v[1..], e);
      assert v == [v[0]] + v[1..];
    }
  }

  /** The natural numbers below `n`. */
  ghost function UpTo(n: nat): (r: set<nat>)
    ensures |r| == n && forall k: nat :: k in r <==> k < n
  {
    if n == 0 then {} else UpTo(n - 1) + {n - 1}
  }
}
