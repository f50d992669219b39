// Sets of job indices as vectors of 64-bit words.
module IndexSets {
  import opened Times

  const BITS := 64

  function Pow2(n: nat): (r: nat)
    ensures r >= 1
  {
    if n == 0 then 1 else 2 * Pow2(n - 1)
  }

  // ---- Words: bit operations on natural numbers ----

  /** Bit `i` of a word. */
  predicate Bit(w: nat, i: nat) {
    if i == 0 then w % 2 == 1 else Bit(w / 2, i - 1)
  }

  /** The word with bit `i` set: `w | (1 << i)`. */
  function WithBit(w: nat, i: nat): nat {
    if i == 0 then w / 2 * 2 + 1 else 2 * WithBit(w / 2, i - 1) + w % 2
  }

  /** Bitwise conjunction. */
  function And(a: nat, b: nat): nat {
    if a == 0 then 0 else 2 * And(a / 2, b / 2) + if a % 2 == 1 && b % 2 == 1 then 1 else 0
  }

  /** Bitwise conjunction with the complement. */
  function AndNot(a: nat, b: nat): nat {
    if a == 0 then 0 else 2 * AndNot(a / 2, b / 2) + if a % 2 == 1 && b % 2 == 0 then 1 else 0
  }

  lemma {:induction false} BitSet(w: nat, i: nat, c: nat)
    ensures Bit(WithBit(w, i), c) <==> c == i || Bit(w, c)
  {
    var v := WithBit(w, i);
    if i > 0 {
      assert v / 2 == WithBit(w / 2, i - 1) && v % 2 == w % 2;
      if c > 0 {
        BitSet(w / 2, i - 1, c - 1);
      }
    } else {
      assert v / 2 == w / 2;
    }
  }

  lemma {:induction false} BitOfAnd(a: nat, b: nat, c: nat)
    ensures Bit(And(a, b), c) <==> Bit(a, c) && Bit(b, c)
  {
    if a == 0 {
      ZeroBits(c);
    } else if c > 0 {
      assert And(a, b) / 2 == And(a / 2, b / 2);
      BitOfAnd(a / 2, b / 2, c - 1);
    }
  }

  lemma {:induction false} BitOfAndNot(a: nat, b: nat, c: nat)
    ensures Bit(AndNot(a, b), c) <==> Bit(a, c) && !Bit(b, c)
  {
    if a == 0 {
      ZeroBits(c);
    } else if c > 0 {
      assert AndNot(a, b) / 2 == AndNot(a / 2, b / 2);
      BitOfAndNot(a / 2, b / 2, c - 1);
    }
  }

  lemma {:induction false} ZeroBits(c: nat)
    ensures !Bit(0, c)
  {
    if c > 0 {
      ZeroBits(c - 1);
    }
  }

  lemma {:induction false} WordBounds(a: nat, b: nat, i: nat, n: nat)
    requires a < Pow2(n)
    ensures And(a, b) < Pow2(n) && AndNot(a, b) < Pow2(n)
    ensures i < n ==> WithBit(a, i) < Pow2(n)
  {
    if n > 0 {
      WordBounds(a / 2, b / 2, if i > 0 then i - 1 else 0, n - 1);
    }
  }

  /** The bits of a word determine it. */
  lemma {:induction false} BitsDecide(a: nat, b: nat, n: nat)
    requires a < Pow2(n) && b < Pow2(n)
    requires forall c: nat :: c < n ==> (Bit(a, c) <==> Bit(b, c))
    ensures a == b
  {
    if n > 0 {
      assert Bit(a, 0) <==> Bit(b, 0);
      forall c: nat | c < n - 1
        ensures Bit(a / 2, c) <==> Bit(b / 2, c)
      {
        assert Bit(a, c + 1) <==> Bit(b, c + 1);
      }
      BitsDecide(a / 2, b / 2, n - 1);
    }
  }

  lemma {:induction false} SomeBit(w: nat, n: nat) returns (c: nat)
    requires 0 < w < Pow2(n)
    ensures c < n && Bit(w, c)
  {
    if w % 2 == 1 {
      c := 0;
    } else {
      c := SomeBit(w / 2, n - 1);
      c := c + 1;
    }
  }

  // ---- Vectors of words ----

  ghost predicate Words(v: seq<nat>) {
    forall i :: 0 <= i < |v| ==> v[i] < Pow2(BITS)
  }

  /** The index of bit `c` of word `k`. */
  function IndexAt(k: nat, c: nat): (idx: nat)
    requires c < BITS
    ensures idx / BITS == k && idx % BITS == c
  {
    BITS * k + c
  }

  predicate Has(v: seq<nat>, idx: nat) {
    idx / BITS < |v| && Bit(v[idx / BITS], idx % BITS)
  }

  /** The vector is no longer than it needs to be. */
  predicate Canonical(v: seq<nat>) {
    |v| > 0 ==> v[|v| - 1] != 0
  }

  /** The last word of a canonical vector holds an index, and conversely. */
  lemma CanonicalIff(v: seq<nat>)
    requires Words(v)
    ensures Canonical(v) <==> |v| == 0 || exists idx: nat :: Has(v, idx) && idx / BITS == |v| - 1
  {
    if |v| > 0 {
      var w := v[|v| - 1];
      if w != 0 {
        var c := SomeBit(w, BITS);
        assert Has(v, IndexAt(|v| - 1, c));
      }
      if idx: nat :| Has(v, idx) && idx / BITS == |v| - 1 {
        ZeroBits(idx % BITS);
      }
    }
  }

  lemma NotLonger(a: seq<nat>, b: seq<nat>)
    requires Words(b) && Canonical(b) && forall idx: nat :: Has(b, idx) ==> Has(a, idx)
    ensures |b| <= |a|
  {
    CanonicalIff(b);
  }

  /** Canonicity: comparing word vectors decides whether they hold the same indices. */
  lemma EqualIffSame(a: seq<nat>, b: seq<nat>)
    requires Words(a) && Words(b) && Canonical(a) && Canonical(b)
    ensures a == b <==> forall idx: nat :: Has(a, idx) <==> Has(b, idx)
  {
    if forall idx: nat :: Has(a, idx) <==> Has(b, idx) {
      NotLonger(a, b);
      NotLonger(b, a);
      forall i | 0 <= i < |a|
        ensures a[i] == b[i]
      {
        forall c: nat | c < BITS
          ensures Bit(a[i], c) <==> Bit(b[i], c)
        {
          assert Has(a, IndexAt(i, c)) <==> Has(b, IndexAt(i, c));
        }
        BitsDecide(a[i], b[i], BITS);
      }
    }
  }

  /** The vector with zero words added up to length `n`. */
  function Resized(v: seq<nat>, n: nat): (r: seq<nat>)
    requires |v| <= n
    ensures |r| == n && forall i :: 0 <= i < n ==> r[i] == if i < |v| then v[i] else 0
  {
    v + seq(n - |v|, _ => 0)
  }

  lemma ResizedSame(v: seq<nat>, n: nat)
    requires |v| <= n && Words(v)
    ensures Words(Resized(v, n)) && forall idx: nat :: Has(Resized(v, n), idx) <==> Has(v, idx)
  {
    forall idx: nat
      ensures Has(Resized(v, n), idx) <==> Has(v, idx)
    {
      ZeroBits(idx % BITS);
    }
  }

  lemma BitAdded(v: seq<nat>, idx: nat)
    requires Words(v) && idx / BITS < |v|
    ensures var w := v[idx / BITS := WithBit(v[idx / BITS], idx % BITS)];
            Words(w) && forall i: nat :: Has(w, i) <==> Has(v, i) || i == idx
  {
    var w := v[idx / BITS := WithBit(v[idx / BITS], idx % BITS)];
    WordBounds(v[idx / BITS], 0, idx % BITS, BITS);
    forall i: nat
      ensures Has(w, i) <==> Has(v, i) || i == idx
    {
      BitSet(v[idx / BITS], idx % BITS, i % BITS);
    }
  }

  ghost predicate Ascending(indices: seq<nat>) {
    forall i, k :: 0 <= i < k < |indices| ==> indices[i] < indices[k]
  }

  /** How many words `indices` take; the empty set takes one word as well. */
  function WordsFor(indices: seq<nat>): nat {
    (if |indices| == 0 then 0 else indices[|indices| - 1]) / BITS + 1
  }

  /** A vector just long enough for what it holds is canonical. */
  lemma JustLongEnough(from: seq<nat>, indices: seq<nat>, v: seq<nat>)
    requires Words(from) && Canonical(from) && Words(v) && Ascending(indices)
        && |v| == Larger(|from|, WordsFor(indices))
    requires forall i: nat :: Has(v, i) <==> Has(from, i) || i in indices
    ensures Canonical(v) <==> |indices| > 0 || |from| > 0
  {
    CanonicalIff(v);
    CanonicalIff(from);
    if |from| >= WordsFor(indices) {
      var idx: nat :| Has(from, idx) && idx / BITS == |from| - 1;
      assert Has(v, idx);
    } else if |indices| > 0 {
      assert Has(v, indices[|indices| - 1]);
    } else if |from| == 0 {
      forall idx: nat
        ensures !Has(v, idx)
      {
        assert !Has(from, idx);
      }
    }
  }

  /** The vector with an index added, and made just long enough for it. */
  function Added(v: seq<nat>, idx: nat): seq<nat> {
    var w := Resized(v, Larger(|v|, idx / BITS + 1));
    w[idx / BITS := WithBit(w[idx / BITS], idx % BITS)]
  }

  lemma AddedExact(v: seq<nat>, idx: nat)
    requires Words(v)
    ensures Words(Added(v, idx)) && forall i: nat :: Has(Added(v, idx), i) <==> Has(v, i) || i == idx
    ensures Canonical(v) ==> Canonical(Added(v, idx))
  {
    ResizedSame(v, Larger(|v|, idx / BITS + 1));
    BitAdded(Resized(v, Larger(|v|, idx / BITS + 1)), idx);
    if Canonical(v) {
      assert forall i: nat :: i in [idx] <==> i == idx;
      JustLongEnough(v, [idx], Added(v, idx));
    }
  }

  // ---- Vectors that stand for a set ----

  /** The vector is the one that additions yield for a set of indices. */
  ghost predicate Holds(v: seq<nat>, s: set<nat>) {
    Words(v) && Canonical(v) && forall i: nat :: Has(v, i) <==> i in s
  }

  lemma HoldsAdded(v: seq<nat>, s: set<nat>, idx: nat)
    requires Holds(v, s)
    ensures Holds(Added(v, idx), s + {idx})
  {
    AddedExact(v, idx);
  }

  /** Comparing words is comparing sets. */
  lemma HoldsDecides(v: seq<nat>, s: set<nat>, w: seq<nat>, t: set<nat>)
    requires Holds(v, s) && Holds(w, t)
    ensures v == w <==> s == t
  {
    EqualIffSame(v, w);
    assert (forall i: nat :: Has(v, i) <==> Has(w, i)) ==> forall i :: i in s <==> i in t;
  }

  function AddedAll(v: seq<nat>, order: seq<nat>): seq<nat> {
    if |order| == 0 then v else Added(AddedAll(v, order[..|order| - 1]), order[|order| - 1])
  }

  lemma {:induction false} AddedAllExact(v: seq<nat>, order: seq<nat>)
    requires Words(v) && Canonical(v)
    ensures Words(AddedAll(v, order)) && Canonical(AddedAll(v, order))
    ensures forall i: nat :: Has(AddedAll(v, order), i) <==> Has(v, i) || i in order
  {
    if |order| > 0 {
      var n := |order| - 1;
      AddedAllExact(v, order[..n]);
      AddedExact(AddedAll(v, order[..n]), order[n]);
      assert order == order[..n] + [order[n]];
    }
  }

  /** Sets to which the same indices have been added are equal, whatever the order of the additions. */
  lemma InsertionOrder(v: seq<nat>, a: seq<nat>, b: seq<nat>)
    requires Words(v) && Canonical(v)
    ensures AddedAll(v, a) == AddedAll(v, b) <==> forall i: nat :: Has(v, i) || i in a <==> Has(v, i) || i in b
  {
    AddedAllExact(v, a);
    AddedAllExact(v, b);
    EqualIffSame(AddedAll(v, a), AddedAll(v, b));
  }

  class IndexSet {
    var words: seq<nat>

    ghost predicate Valid()
      reads this
    {
      Words(words)
    }

    constructor ()
      ensures Valid() && Canonical(words) && forall i: nat :: !Has(words, i)
    {
      words := [];
    }

    constructor Clone(from: IndexSet)
      ensures words == from.words
    {
      words := from.words;
    }

    /** Clone a set and add an index. */
    constructor With(from: IndexSet, idx: nat)
      requires from.Valid()
      ensures Valid() && words == Added(from.words, idx)
      ensures forall i: nat :: Has(words, i) <==> Has(from.words, i) || i == idx
      ensures Canonical(from.words) ==> Canonical(words)
    {
      words := Resized(from.words, Larger(|from.words|, idx / BITS + 1));
      new;
      ResizedSame(from.words, |words|);
      AddedExact(from.words, idx);
      SetBit(idx);
    }

    /** Clone a set and add a set of indices, given in increasing order. Without any, a clone of the empty
        set is one word long, and no longer equal to the empty set. */
    constructor WithAll(from: IndexSet, indices: seq<nat>)
      requires from.Valid() && Ascending(indices)
      ensures Valid() && forall i: nat :: Has(words, i) <==> Has(from.words, i) || i in indices
      ensures Canonical(from.words) ==> (Canonical(words) <==> |indices| > 0 || |from.words| > 0)
    {
      words := Resized(from.words, Larger(|from.words|, WordsFor(indices)));
      new;
      ghost var start := from.words;
      ResizedSame(from.words, |words|);
      SetBits(start, indices);
    }

    /** The difference of two sets. Words of `a` beyond those of `b` are dropped. */
    constructor Difference(a: IndexSet, b: IndexSet)
      requires a.Valid() && b.Valid()
      ensures Valid() && forall i: nat :: Has(words, i) <==> Has(a.words, i) && !Has(b.words, i) && i / BITS < |b.words|
    {
      words := Resized([], Larger(|a.words|, |b.words|));
      new;
      ghost var va, vb := a.words, b.words;
      var limit := if |a.words| <= |b.words| then |a.words| else |b.words|;
      var i := 0;
      while i < limit
        invariant 0 <= i <= limit && |words| == Larger(|va|, |vb|)
        invariant a != this ==> a.words == va
        invariant b != this ==> b.words == vb
        invariant forall k :: 0 <= k < |words| ==> words[k] == if k < i then AndNot(va[k], vb[k]) else 0
      {
        words := words[i := AndNot(a.words[i], b.words[i])];
        i := i + 1;
      }
      DifferenceBits(va, vb, words);
    }

    /** Become a clone of a set with an index added. A set that becomes a clone of itself loses its indices. */
    method Set(from: IndexSet, idx: nat)
      requires from.Valid()
      modifies this
      ensures Valid() && words == Added(if from == this then [] else old(from.words), idx)
      ensures forall i: nat :: Has(words, i) <==> (from != this && Has(old(from.words), i)) || i == idx
      ensures old(Canonical(from.words)) ==> Canonical(words)
    {
      words := [];
      ResizedSame(from.words, Larger(|from.words|, idx / BITS + 1));
      AddedExact(from.words, idx);
      words := Resized(from.words, Larger(|from.words|, idx / BITS + 1));
      SetBit(idx);
    }

    /** Become a clone of another set with a set of indices added. A set that becomes a clone of itself loses its
        indices. */
    method SetAll(from: IndexSet, indices: seq<nat>)
      requires from.Valid() && Ascending(indices)
      modifies this
      ensures Valid() && forall i: nat :: Has(words, i) <==> (from != this && Has(old(from.words), i)) || i in indices
      ensures from != this && Canonical(from.words) ==> (Canonical(words) <==> |indices| > 0 || |from.words| > 0)
      ensures from == this ==> (Canonical(words) <==> |indices| > 0)
    {
      words := [];
      ghost var start := from.words;
      ResizedSame(start, Larger(|start|, WordsFor(indices)));
      words := Resized(from.words, Larger(|from.words|, WordsFor(indices)));
      SetBits(start, indices);
    }

    /** Add an index. */
    method Add(idx: nat)
      requires Valid()
      modifies this
      ensures Valid() && words == Added(old(words), idx)
      ensures forall i: nat :: Has(words, i) <==> Has(old(words), i) || i == idx
      ensures old(Canonical(words)) ==> Canonical(words)
    {
      AddedExact(words, idx);
      ResizedSame(words, Larger(|words|, idx / BITS + 1));
      assert idx / BITS < |words| ==> words == Resized(words, |words|);
      if idx / BITS >= |words| {
        words := Resized(words, idx / BITS + 1);
      }
      SetBit(idx);
    }

    method Clear()
      modifies this
      ensures words == []
    {
      words := [];
    }

    method SetBit(idx: nat)
      requires Valid() && idx / BITS < |words|
      modifies this
      ensures Valid() && words == old(words)[idx / BITS := WithBit(old(words)[idx / BITS], idx % BITS)]
      ensures forall i: nat :: Has(words, i) <==> Has(old(words), i) || i == idx
    {
      BitAdded(words, idx);
      words := words[idx / BITS := WithBit(words[idx / BITS], idx % BITS)];
    }

    /** Set the bits of all indices; the vector is long enough for them. */
    method SetBits(ghost start: seq<nat>, indices: seq<nat>)
      requires Valid() && Words(start) && Ascending(indices) && |words| == Larger(|start|, WordsFor(indices))
      requires forall i: nat :: Has(words, i) <==> Has(start, i)
      modifies this
      ensures Valid() && forall i: nat :: Has(words, i) <==> Has(start, i) || i in indices
      ensures Canonical(start) ==> (Canonical(words) <==> |indices| > 0 || |start| > 0)
    {
      var k := 0;
      while k < |indices|
        invariant 0 <= k <= |indices| && Valid() && |words| == Larger(|start|, WordsFor(indices))
        invariant forall i: nat :: Has(words, i) <==> Has(start, i) || i in indices[..k]
      {
        assert indices[k] <= indices[|indices| - 1];
        SetBit(indices[k]);
        assert indices[..k + 1] == indices[..k] + [indices[k]];
        k := k + 1;
      }
      assert indices[..k] == indices;
      if Canonical(start) {
        JustLongEnough(start, indices, words);
      }
    }

    predicate Contains(idx: nat)
      reads this
    {
      if idx / BITS >= |words| then false else Bit(words[idx / BITS], idx % BITS)
    }

    method Includes(indices: seq<nat>) returns (all: bool)
      ensures all <==> forall i :: i in indices ==> Has(words, i)
    {
      var k := 0;
      while k < |indices|
        invariant 0 <= k <= |indices|
        invariant forall i :: i in indices[..k] ==> Has(words, i)
      {
        if !Contains(indices[k]) {
          assert indices[k] in indices && !Has(words, indices[k]);
          return false;
        }
        assert indices[..k + 1] == indices[..k] + [indices[k]];
        k := k + 1;
      }
      assert indices[..k] == indices;
      return true;
    }

    /** Word by word, whether this set is a subset of the other one. */
    method IsSubsetOf(other: IndexSet) returns (subset: bool)
      requires Valid() && other.Valid()
      ensures subset <==> forall i: nat :: Has(words, i) ==> Has(other.words, i)
    {
      var k := 0;
      while k < |words|
        invariant 0 <= k <= |words|
        invariant forall i: nat :: i / BITS < k && Has(words, i) ==> Has(other.words, i)
      {
        SubsetWord(words, other.words, k);
        if words[k] > 0 && (|other.words| <= k || And(words[k], other.words[k]) != words[k]) {
          ghost var i: nat :| i / BITS == k && Has(words, i) && !Has(other.words, i);
          return false;
        }
        k := k + 1;
      }
      return true;
    }

    /** Whether the word vectors are equal. */
    predicate Equals(other: IndexSet)
      reads this, other
    {
      words == other.words
    }
  }

  lemma DifferenceBits(a: seq<nat>, b: seq<nat>, v: seq<nat>)
    requires Words(a) && Words(b) && |v| == Larger(|a|, |b|)
    requires forall k :: 0 <= k < |v| ==> v[k] == if k < |a| && k < |b| then AndNot(a[k], b[k]) else 0
    ensures Words(v) && forall i: nat :: Has(v, i) <==> Has(a, i) && !Has(b, i) && i / BITS < |b|
  {
    forall k | 0 <= k < |v|
      ensures v[k] < Pow2(BITS)
    {
      if k < |a| && k < |b| {
        WordBounds(a[k], b[k], 0, BITS);
      }
    }
    forall i: nat
      ensures Has(v, i) <==> Has(a, i) && !Has(b, i) && i / BITS < |b|
    {
      var k, c := i / BITS, i % BITS;
      ZeroBits(c);
      if k < |a| && k < |b| {
        BitOfAndNot(a[k], b[k], c);
      }
    }
  }

  /** A word that is not its conjunction with another one has a bit that the other one lacks. */
  lemma BitOutside(a: nat, b: nat) returns (c: nat)
    requires a < Pow2(BITS) && And(a, b) != a
    ensures c < BITS && Bit(a, c) && !Bit(b, c)
  {
    WordBounds(a, b, 0, BITS);
    if forall c: nat :: c < BITS ==> (Bit(And(a, b), c) <==> Bit(a, c)) {
      BitsDecide(And(a, b), a, BITS);
    }
    c :| c < BITS && !(Bit(And(a, b), c) <==> Bit(a, c));
    BitOfAnd(a, b, c);
  }

  /** The comparison of one word decides about the indices it holds. */
  lemma SubsetWord(a: seq<nat>, b: seq<nat>, k: nat)
    requires Words(a) && Words(b) && k < |a|
    ensures (forall i: nat :: i / BITS == k && Has(a, i) ==> Has(b, i))
       <==> !(a[k] > 0 && (|b| <= k || And(a[k], b[k]) != a[k]))
  {
    if a[k] > 0 && |b| <= k {
      var c := SomeBit(a[k], BITS);
      assert Has(a, IndexAt(k, c)) && !Has(b, IndexAt(k, c));
    } else if a[k] > 0 && And(a[k], b[k]) != a[k] {
      var c := BitOutside(a[k], b[k]);
      assert Has(a, IndexAt(k, c)) && !Has(b, IndexAt(k, c));
    } else {
      forall i: nat | i / BITS == k && Has(a, i)
        ensures Has(b, i)
      {
        ZeroBits(i % BITS);
        BitOfAnd(a[k], b[k], i % BITS);
      }
    }
  }

  /** Two representations of the empty set that are not equal. */
  lemma EmptyCloneDiffers()
    ensures Words([]) && Words([0]) && [] != [0] && forall idx: nat :: !Has([], idx) && !Has([0], idx)
  {
    forall idx: nat
      ensures !Has([0], idx)
    {
      ZeroBits(idx % BITS);
    }
  }
}
