// The nodes of the layers under exploration, stored per depth in a ring and
// indexed by lookup key.
module StatesManagers {
  import IndexSets
  import opened Jobs
  import opened Workload
  import opened SpaceData
  import opened Nodes

  /** The slot of the ring that belongs to a depth. */
  function Slot(depth: nat, size: nat): (d: nat)
    requires size > 0
    ensures d < size
  {
    depth % size
  }

  /** The layers from one depth on, as many as there are slots, have a slot each. */
  lemma LiveSlots(depth: nat, a: nat, b: nat, size: nat)
    requires size > 0 && depth <= a < depth + size && depth <= b < depth + size
    ensures Slot(a, size) == Slot(b, size) <==> a == b
  {
    if a < b {
      SlotOffset(a, b - a, size);
    } else if b < a {
      SlotOffset(b, a - b, size);
    }
  }

  lemma {:induction false} SlotOffset(a: nat, k: nat, size: nat)
    requires 0 < k < size
    ensures (a + k) % size != a % size
  {
    var x, y := (a + k) / size, a / size;
    if (a + k) % size == a % size {
      NotMultiple(k, x, y, size);
    }
  }

  lemma NotMultiple(k: nat, x: int, y: int, size: nat)
    requires 0 < k < size
    ensures x * size - y * size != k
  {
    if x <= y {
      assert (y - x) * size >= 0;
    } else {
      assert (x - y - 1) * size >= 0;
    }
  }

  /** The buckets hold exactly the stored nodes, each under its own key. */
  ghost predicate Indexed(stored: seq<Node>, buckets: map<nat, seq<Node>>) {
    && (forall n :: n in stored ==> n.key in buckets && n in buckets[n.key])
    && (forall k :: k in buckets ==> forall n :: n in buckets[k] ==> n.key == k && n in stored)
  }

  /** The key and the words of every stored node are those of its set of dispatched jobs. */
  ghost predicate KeysRight(p: Problem, stored: seq<Node>) {
    forall n :: n in stored ==> n.key == XorKey(p, n.scheduled) && IndexSets.Holds(n.words, n.scheduled)
  }

  class StatesManager {
    const size: nat
    var storage: seq<seq<Node>>
    var byKey: seq<map<nat, seq<Node>>>

    predicate Valid()
      reads this
    {
      size > 0 && |storage| == size && |byKey| == size
    }

    constructor (size: nat)
      requires size > 0
      ensures Valid() && this.size == size
      ensures forall d :: 0 <= d < size ==> storage[d] == [] && byKey[d] == map[]
    {
      this.size := size;
      storage := seq(size, _ => []);
      byKey := seq(size, _ => map[]);
    }

    /** The nodes stored at a depth. */
    function NodesAt(depth: nat): seq<Node>
      requires Valid()
      reads this
    {
      storage[Slot(depth, size)]
    }

    /** The nodes stored at a depth can be found by their keys. */
    ghost predicate IndexedAt(depth: nat)
      requires Valid()
      reads this
    {
      Indexed(storage[Slot(depth, size)], byKey[Slot(depth, size)])
    }

    /** Store a node and cache it under its key. */
    method NewNode(depth: nat, n: Node)
      requires Valid()
      modifies this
      ensures Valid()
      ensures NodesAt(depth) == old(NodesAt(depth)) + [n] && (old(IndexedAt(depth)) ==> IndexedAt(depth))
      ensures forall e: nat :: Slot(e, size) != Slot(depth, size) ==>
                NodesAt(e) == old(NodesAt(e)) && IndexedAt(e) == old(IndexedAt(e))
    {
      var d := Slot(depth, size);
      storage := storage[d := storage[d] + [n]];
      var bucket := if n.key in byKey[d] then byKey[d][n.key] else [];
      var buckets: map<nat, seq<Node>> := byKey[d];
      buckets := buckets[n.key := bucket + [n]];
      byKey := byKey[d := buckets];
    }

    /** The cached node in which `scheduled` and `j` have been dispatched, if there is one. Nodes are compared word by
        word. */
    method FindNode(p: Problem, key: nat, depth: nat, words: seq<nat>, j: nat, ghost scheduled: set<nat>)
        returns (found: Node?)
      requires Valid() && IndexedAt(depth) && KeysRight(p, NodesAt(depth))
      requires key == XorKey(p, scheduled + {j}) && IndexSets.Holds(IndexSets.Added(words, j), scheduled + {j})
      ensures found != null ==> found in NodesAt(depth) && found.scheduled == scheduled + {j}
      ensures found == null ==> forall n :: n in NodesAt(depth) ==> n.scheduled != scheduled + {j}
    {
      var d := Slot(depth, size);
      if key in byKey[d] {
        var bucket := byKey[d][key];
        var wanted := IndexSets.Added(words, j);
        var i := 0;
        while i < |bucket|
          invariant 0 <= i <= |bucket|
          invariant forall l :: 0 <= l < i ==> bucket[l].scheduled != scheduled + {j}
        {
          assert bucket[i] in bucket;
          IndexSets.HoldsDecides(bucket[i].words, bucket[i].scheduled, wanted, scheduled + {j});
          if bucket[i].words == wanted {
            return bucket[i];
          }
          i := i + 1;
        }
      }
      return null;
    }

    /** Forget the cached nodes of a depth. */
    method ClearCacheAtDepth(depth: nat)
      requires Valid()
      modifies `byKey
      ensures Valid() && (NodesAt(depth) == [] ==> IndexedAt(depth))
      ensures byKey == old(byKey)[Slot(depth, size) := map[]]
    {
      byKey := byKey[Slot(depth, size) := map[]];
    }

    /** Drop the stored nodes of a depth. */
    method ClearStorageAtDepth(depth: nat)
      requires Valid()
      modifies `storage
      ensures Valid() && NodesAt(depth) == [] && (byKey[Slot(depth, size)] == map[] ==> IndexedAt(depth))
      ensures forall e: nat :: Slot(e, size) != Slot(depth, size) ==>
                NodesAt(e) == old(NodesAt(e)) && IndexedAt(e) == old(IndexedAt(e))
    {
      storage := storage[Slot(depth, size) := []];
    }
  }
}
