// The precedence graph: its construction, reachability, and the ranks of the jobs.
module Precedence {
  import opened Times
  import opened Counting
  import opened Workload
  import opened Runs

  /** The successors and the predecessors of every job, once for every edge. */
  datatype Graph = Graph(successors: seq<seq<nat>>, predecessors: seq<seq<nat>>)

  ghost predicate InRange(adj: seq<seq<nat>>) {
    forall a, i :: 0 <= a < |adj| && 0 <= i < |adj[a]| ==> adj[a][i] < |adj|
  }

  /** The two adjacency lists record the same edges, as often as each other. */
  ghost predicate Proper(g: Graph) {
    && |g.successors| == |g.predecessors| && InRange(g.successors) && InRange(g.predecessors)
    && forall a, b :: 0 <= a < |g.successors| && 0 <= b < |g.successors| ==>
         multiset(g.successors[a])[b] == multiset(g.predecessors[b])[a]
  }

  // ---- Construction ----

  datatype Edge = Edge(from: nat, to: nat, delay: Interval)

  datatype Result = Built(graph: Graph) | Invalid(job: nat)

  /** Where the edges from `a` lead. */
  function Targets(edges: seq<Edge>, a: nat): seq<nat> {
    if |edges| == 0 then []
    else Targets(edges[..|edges| - 1], a) + if edges[|edges| - 1].from == a then [edges[|edges| - 1].to] else []
  }

  /** Where the edges to `b` come from. */
  function Origins(edges: seq<Edge>, b: nat): seq<nat> {
    if |edges| == 0 then []
    else Origins(edges[..|edges| - 1], b) + if edges[|edges| - 1].to == b then [edges[|edges| - 1].from] else []
  }

  ghost predicate FirstReversed(edges: seq<Edge>, i: nat) {
    && i < |edges| && edges[i].delay.max < edges[i].delay.min
    && forall k :: 0 <= k < i ==> edges[k].delay.min <= edges[k].delay.max
  }

  /** The first edge whose delays are reversed is reported; without any, the graph is built. */
  method BuildGraph(n: nat, edges: seq<Edge>) returns (r: Result)
    requires forall i :: 0 <= i < |edges| ==> edges[i].from < n && edges[i].to < n
    ensures r.Built? <==> forall i :: 0 <= i < |edges| ==> edges[i].delay.min <= edges[i].delay.max
    ensures r.Invalid? ==> exists i: nat :: FirstReversed(edges, i) && r.job == edges[i].from
    ensures r.Built? ==> Records(r.graph, n, edges) && Proper(r.graph)
  {
    var i := 0;
    while i < |edges|
      invariant 0 <= i <= |edges| && forall k :: 0 <= k < i ==> edges[k].delay.min <= edges[k].delay.max
    {
      if edges[i].delay.max < edges[i].delay.min {
        assert FirstReversed(edges, i);
        return Invalid(edges[i].from);
      }
      i := i + 1;
    }
    var successors, predecessors := seq(n, _ => []), seq(n, _ => []);
    i := 0;
    while i < |edges|
      invariant 0 <= i <= |edges| && |successors| == |predecessors| == n
      invariant forall a :: 0 <= a < n ==>
                  successors[a] == Targets(edges[..i], a) && predecessors[a] == Origins(edges[..i], a)
    {
      var e := edges[i];
      assert edges[..i + 1][..i] == edges[..i];
      successors := successors[e.from := successors[e.from] + [e.to]];
      predecessors := predecessors[e.to := predecessors[e.to] + [e.from]];
      i := i + 1;
    }
    assert edges[..i] == edges;
    var graph := Graph(successors, predecessors);
    BuiltProper(n, edges, graph);
    return Built(graph);
  }

  lemma {:induction false} EdgeCounts(edges: seq<Edge>, a: nat, b: nat)
    ensures multiset(Targets(edges, a))[b] == multiset(Origins(edges, b))[a]
  {
    if |edges| > 0 {
      EdgeCounts(edges[..|edges| - 1], a, b);
    }
  }

  ghost predicate AllBelow(v: seq<nat>, n: nat) {
    forall i :: 0 <= i < |v| ==> v[i] < n
  }

  lemma {:induction false} EdgesWithin(edges: seq<Edge>, n: nat, a: nat)
    requires forall i :: 0 <= i < |edges| ==> edges[i].from < n && edges[i].to < n
    ensures AllBelow(Targets(edges, a), n) && AllBelow(Origins(edges, a), n)
  {
    if |edges| > 0 {
      EdgesWithin(edges[..|edges| - 1], n, a);
    }
  }

  ghost predicate Records(g: Graph, n: nat, edges: seq<Edge>) {
    && |g.successors| == |g.predecessors| == n
    && forall a :: 0 <= a < n ==> g.successors[a] == Targets(edges, a) && g.predecessors[a] == Origins(edges, a)
  }

  lemma RecordedCounts(n: nat, edges: seq<Edge>, g: Graph, a: nat, b: nat)
    requires Records(g, n, edges) && a < n && b < n
    ensures multiset(g.successors[a])[b] == multiset(g.predecessors[b])[a]
  {
    EdgeCounts(edges, a, b);
  }

  lemma RecordedWithin(n: nat, edges: seq<Edge>, g: Graph, a: nat)
    requires forall i :: 0 <= i < |edges| ==> edges[i].from < n && edges[i].to < n
    requires Records(g, n, edges) && a < n
    ensures AllBelow(g.successors[a], n) && AllBelow(g.predecessors[a], n)
  {
    EdgesWithin(edges, n, a);
  }

  /** The graph records every edge in both directions. */
  lemma BuiltProper(n: nat, edges: seq<Edge>, g: Graph)
    requires forall i :: 0 <= i < |edges| ==> edges[i].from < n && edges[i].to < n
    requires Records(g, n, edges)
    ensures Proper(g)
  {
    hide Records;
    RecordedSizes(g, n, edges);
    forall a | 0 <= a < n
      ensures AllBelow(g.successors[a], n)
    {
      RecordedWithin(n, edges, g, a);
    }
    forall a | 0 <= a < n
      ensures AllBelow(g.predecessors[a], n)
    {
      RecordedWithin(n, edges, g, a);
    }
    forall a, b | 0 <= a < n && 0 <= b < n
      ensures multiset(g.successors[a])[b] == multiset(g.predecessors[b])[a]
    {
      RecordedCounts(n, edges, g, a, b);
    }
  }

  lemma RecordedSizes(g: Graph, n: nat, edges: seq<Edge>)
    requires Records(g, n, edges)
    ensures |g.successors| == |g.predecessors| == n
  {
  }

  // ---- Reachability ----

  ghost predicate IsPath(adj: seq<seq<nat>>, path: seq<nat>) {
    && |path| > 0
    && (forall i :: 0 <= i < |path| ==> path[i] < |adj|)
    && forall i :: 0 <= i < |path| - 1 ==> path[i + 1] in adj[path[i]]
  }

  /** One or more edges lead from `a` to `b`. */
  ghost predicate Reaches(adj: seq<seq<nat>>, a: nat, b: nat) {
    exists path :: IsPath(adj, path) && |path| > 1 && path[0] == a && path[|path| - 1] == b
  }

  lemma ReachesFurther(adj: seq<seq<nat>>, a: nat, b: nat, c: nat)
    requires InRange(adj) && a < |adj| && b < |adj| && (a == b || Reaches(adj, a, b)) && c in adj[b]
    ensures Reaches(adj, a, c)
  {
    var path := [a];
    if a != b {
      path :| IsPath(adj, path) && |path| > 1 && path[0] == a && path[|path| - 1] == b;
    }
    assert IsPath(adj, path + [c]);
  }

  /** What is closed under edges holds everything that is reachable. */
  lemma {:induction false} ClosedHolds(adj: seq<seq<nat>>, j: nat, found: set<nat>, path: seq<nat>)
    requires forall x: nat, s :: x < |adj| && (x == j || x in found) && s in adj[x] ==> s in found
    requires IsPath(adj, path) && |path| > 1 && path[0] == j
    ensures path[|path| - 1] in found
  {
    var n := |path| - 1;
    if n > 1 {
      ClosedHolds(adj, j, found, path[..n]);
    }
    assert path[n] in adj[path[n - 1]];
  }

  /** Everything found is reachable, and all edges from what is not on the stack have been followed. */
  ghost predicate Searched(adj: seq<seq<nat>>, j: nat, found: set<nat>, stack: seq<nat>, current: nat) {
    && (forall x :: x in found ==> x < |adj| && Reaches(adj, j, x))
    && (forall i :: 0 <= i < |stack| ==> stack[i] < |adj| && (stack[i] == j || stack[i] in found))
    && (forall x: nat, s :: x < |adj| && (x == j || x in found) && x !in stack && x != current && s in adj[x] ==>
           s in found)
  }

  /** Follow one edge of the job at hand. */
  lemma EdgeFollowed(adj: seq<seq<nat>>, j: nat, found: set<nat>, stack: seq<nat>, current: nat, s: nat)
    requires InRange(adj) && j < |adj| && current < |adj| && Searched(adj, j, found, stack, current)
    requires (current == j || current in found) && s in adj[current] && s !in found
    ensures Searched(adj, j, found + {s}, stack + [s], current)
  {
    ReachesFurther(adj, j, current, s);
  }

  lemma Popped(adj: seq<seq<nat>>, j: nat, found: set<nat>, stack: seq<nat>)
    requires |stack| > 0 && Searched(adj, j, found, stack, |adj|)
    ensures Searched(adj, j, found, stack[..|stack| - 1], stack[|stack| - 1])
  {
    assert stack == stack[..|stack| - 1] + [stack[|stack| - 1]];
  }

  lemma FewerLeft(n: nat, a: set<nat>, b: set<nat>)
    requires a <= b && forall x :: x in b ==> x < n
    ensures a == b || |UpTo(n) - b| < |UpTo(n) - a|
  {
    if a != b {
      var x :| x in b && x !in a;
      SubsetSize(UpTo(n) - b, UpTo(n) - a - {x});
    }
  }

  /** The search with a stack finds exactly the jobs that are reachable from `j`. */
  method Search(adj: seq<seq<nat>>, j: nat) returns (found: set<nat>)
    requires InRange(adj) && j < |adj|
    ensures forall x: nat :: x in found <==> Reaches(adj, j, x)
  {
    hide UpTo, IsPath;
    found := {};
    var stack := [j];
    while |stack| > 0
      invariant Searched(adj, j, found, stack, |adj|)
      decreases |UpTo(|adj|) - found|, |stack|
    {
      Popped(adj, j, found, stack);
      var current := stack[|stack| - 1];
      stack := stack[..|stack| - 1];
      ghost var before, rest := found, stack;
      var i := 0;
      while i < |adj[current]|
        invariant 0 <= i <= |adj[current]| && Searched(adj, j, found, stack, current)
        invariant (current == j || current in found) && forall k :: 0 <= k < i ==> adj[current][k] in found
        invariant before <= found && (found == before ==> stack == rest)
      {
        var s := adj[current][i];
        if s !in found {
          EdgeFollowed(adj, j, found, stack, current, s);
          found := found + {s};
          stack := stack + [s];
        }
        i := i + 1;
      }
      FewerLeft(|adj|, before, found);
    }
    forall x: nat | Reaches(adj, j, x)
      ensures x in found
    {
      var path :| IsPath(adj, path) && |path| > 1 && path[0] == j && path[|path| - 1] == x;
      ClosedHolds(adj, j, found, path);
    }
  }

  /** All jobs from which edges lead to `j`. */
  method GetAncestors(j: nat, g: Graph) returns (ancestors: set<nat>)
    requires Proper(g) && j < |g.successors|
    ensures forall x: nat :: x in ancestors <==> Reaches(g.successors, x, j)
  {
    ancestors := Search(g.predecessors, j);
    forall x: nat
      ensures Reaches(g.predecessors, j, x) <==> Reaches(g.successors, x, j)
    {
      Converse(g, x, j);
    }
  }

  /** All jobs to which edges lead from `j`. */
  method GetDescendants(j: nat, g: Graph) returns (descendants: set<nat>)
    requires Proper(g) && j < |g.successors|
    ensures forall x: nat :: x in descendants <==> Reaches(g.successors, j, x)
  {
    descendants := Search(g.successors, j);
  }

  function Backwards(path: seq<nat>): (r: seq<nat>)
    ensures |r| == |path| && forall i :: 0 <= i < |path| ==> r[i] == path[|path| - 1 - i]
  {
    seq(|path|, i requires 0 <= i < |path| => path[|path| - 1 - i])
  }

  lemma EdgeBothWays(g: Graph, a: nat, b: nat)
    requires Proper(g) && a < |g.successors| && b < |g.successors|
    ensures b in g.successors[a] <==> a in g.predecessors[b]
  {
    assert b in g.successors[a] <==> multiset(g.successors[a])[b] > 0;
    assert a in g.predecessors[b] <==> multiset(g.predecessors[b])[a] > 0;
  }

  lemma PathBothWays(g: Graph, path: seq<nat>)
    requires Proper(g)
    ensures IsPath(g.successors, path) <==> IsPath(g.predecessors, Backwards(path))
  {
    var back := Backwards(path);
    if IsPath(g.successors, path) {
      forall i | 0 <= i < |path| - 1
        ensures back[i + 1] in g.predecessors[back[i]]
      {
        EdgeBothWays(g, path[|path| - 2 - i], path[|path| - 1 - i]);
        assert path[|path| - 2 - i + 1] in g.successors[path[|path| - 2 - i]];
      }
    }
    if IsPath(g.predecessors, back) {
      forall i | 0 <= i < |path|
        ensures path[i] == back[|path| - 1 - i] < |g.successors|
      {
      }
      forall i | 0 <= i < |path| - 1
        ensures path[i + 1] in g.successors[path[i]]
      {
        EdgeBothWays(g, path[i], path[i + 1]);
        assert back[|path| - 2 - i + 1] in g.predecessors[back[|path| - 2 - i]];
      }
    }
  }

  /** Ancestors and descendants are converse to each other. */
  lemma Converse(g: Graph, a: nat, b: nat)
    requires Proper(g)
    ensures Reaches(g.successors, a, b) <==> Reaches(g.predecessors, b, a)
  {
    if Reaches(g.successors, a, b) {
      var path :| IsPath(g.successors, path) && |path| > 1 && path[0] == a && path[|path| - 1] == b;
      PathBothWays(g, path);
      assert Backwards(path)[|path| - 1] == a;
    }
    if Reaches(g.predecessors, b, a) {
      var path :| IsPath(g.predecessors, path) && |path| > 1 && path[0] == b && path[|path| - 1] == a;
      assert Backwards(Backwards(path)) == path;
      PathBothWays(g, Backwards(path));
      assert Backwards(path)[|path| - 1] == b;
    }
  }

  // ---- Ranks ----

  ghost predicate Acyclic(g: Graph) {
    forall x: nat :: x < |g.successors| ==> !Reaches(g.successors, x, x)
  }

  ghost predicate RanksRise(g: Graph, rank: seq<nat>) {
    && |rank| == |g.successors|
    && forall a, i :: 0 <= a < |g.successors| && 0 <= i < |g.successors[a]| ==>
         g.successors[a][i] < |rank| && rank[a] < rank[g.successors[a][i]]
  }

  /** A path of `r` jobs leads to `s`. */
  ghost predicate PathTo(g: Graph, s: nat, r: nat) {
    exists path :: IsPath(g.successors, path) && |path| == r && path[r - 1] == s
  }

  /** The longest path to `s` consists of `r` jobs. */
  ghost predicate LongestTo(g: Graph, s: nat, r: nat) {
    PathTo(g, s, r) && forall path :: IsPath(g.successors, path) && path[|path| - 1] == s ==> |path| <= r
  }

  /** How many entries of a list are not in `done`. */
  function Pending(list: seq<nat>, done: seq<nat>): (n: nat)
    ensures n == 0 <==> forall i :: 0 <= i < |list| ==> list[i] in done
  {
    if |list| == 0 then 0
    else
      assert forall i :: 0 <= i < |list| - 1 ==> list[..|list| - 1][i] == list[i];
      Pending(list[..|list| - 1], done) + if list[|list| - 1] in done then 0 else 1
  }

  lemma {:induction false} PendingSplit(list: seq<nat>, done: seq<nat>, x: nat)
    requires x !in done
    ensures Pending(list, done) == Pending(list, done + [x]) + multiset(list)[x]
  {
    if |list| > 0 {
      var n := |list| - 1;
      PendingSplit(list[..n], done, x);
      assert list == list[..n] + [list[n]];
    }
  }

  lemma {:induction false} PendingNone(list: seq<nat>)
    ensures Pending(list, []) == |list|
  {
    if |list| > 0 {
      PendingNone(list[..|list| - 1]);
    }
  }

  /** The queue holds the jobs all of whose predecessors have been processed; `rest` are the successors of the
      last processed job that remain to be considered. */
  ghost predicate Sweep(g: Graph, inDegree: seq<nat>, queue: seq<nat>, head: nat, rest: seq<nat>) {
    && |inDegree| == |g.successors| == |g.predecessors| && head <= |queue|
    && (forall i :: 0 <= i < |queue| ==> queue[i] < |g.successors|)
    && (forall i, k :: 0 <= i < k < |queue| ==> queue[i] != queue[k])
    && (forall s :: 0 <= s < |inDegree| ==>
           inDegree[s] == Pending(g.predecessors[s], queue[..head]) + multiset(rest)[s])
    && (forall s :: 0 <= s < |inDegree| ==> (inDegree[s] == 0 <==> s in queue))
  }

  /** Every job in the queue has its rank, above those of its processed predecessors. */
  ghost predicate Ranked(g: Graph, rank: seq<nat>, queue: seq<nat>, head: nat, rest: seq<nat>) {
    && |rank| == |g.successors| && head <= |queue|
    && (forall i :: 0 <= i < |queue| ==> queue[i] < |rank| && rank[queue[i]] > 0)
    && (forall s :: 0 <= s < |rank| && rank[s] > 0 ==> PathTo(g, s, rank[s]))
    && (forall i, l :: 0 <= i < head && 0 <= l < |g.successors[queue[i]]| ==>
          var s := g.successors[queue[i]][l];
          s < |rank| && ((i == head - 1 && s in rest) || rank[queue[i]] < rank[s]))
  }

  /** Take the next job from the queue. */
  lemma SweepNext(g: Graph, inDegree: seq<nat>, queue: seq<nat>, head: nat)
    requires Proper(g) && Sweep(g, inDegree, queue, head, []) && head < |queue|
    ensures Sweep(g, inDegree, queue, head + 1, g.successors[queue[head]])
  {
    var current := queue[head];
    assert queue[..head + 1] == queue[..head] + [current];
    forall s | 0 <= s < |inDegree|
      ensures inDegree[s] == Pending(g.predecessors[s], queue[..head + 1]) + multiset(g.successors[current])[s]
    {
      PendingSplit(g.predecessors[s], queue[..head], current);
    }
  }

  /** One successor less to consider. */
  lemma SweepStep(g: Graph, inDegree: seq<nat>, queue: seq<nat>, head: nat, rest: seq<nat>)
    requires Proper(g) && Sweep(g, inDegree, queue, head, rest) && |rest| > 0 && rest[0] < |inDegree|
    ensures inDegree[rest[0]] > 0 && rest[0] !in queue
    ensures var t := rest[0]; var d := inDegree[t] - 1;
            Sweep(g, inDegree[t := d], if d == 0 then queue + [t] else queue, head, rest[1..])
  {
    hide Proper;
    var t := rest[0];
    assert rest == [t] + rest[1..];
    assert multiset(rest)[t] == 1 + multiset(rest[1..])[t];
    var queue' := if inDegree[t] == 1 then queue + [t] else queue;
    assert queue'[..head] == queue[..head];
    forall s | 0 <= s < |inDegree|
      ensures s in queue' <==> s in queue || (s == t && inDegree[t] == 1)
      ensures s != t ==> multiset(rest)[s] == multiset(rest[1..])[s]
    {
    }
  }

  lemma RankedNext(g: Graph, rank: seq<nat>, queue: seq<nat>, head: nat)
    requires Proper(g) && Ranked(g, rank, queue, head, []) && head < |queue|
    ensures Ranked(g, rank, queue, head + 1, g.successors[queue[head]])
  {
  }

  lemma PathFurther(g: Graph, a: nat, b: nat, r: nat)
    requires InRange(g.successors) && a < |g.successors| && PathTo(g, a, r) && b in g.successors[a]
    ensures PathTo(g, b, r + 1)
  {
    var path :| IsPath(g.successors, path) && |path| == r && path[r - 1] == a;
    assert IsPath(g.successors, path + [b]);
  }

  /** The rank of a successor that is not in the queue yet is raised above that of the processed job. */
  lemma RankedStep(g: Graph, rank: seq<nat>, queue: seq<nat>, head: nat, rest: seq<nat>, joins: bool)
    requires Proper(g) && Ranked(g, rank, queue, head, rest) && head > 0 && |rest| > 0
    requires rest[0] in g.successors[queue[head - 1]] && rest[0] !in queue
    ensures var t, current := rest[0], queue[head - 1];
            && t < |rank|
            && Ranked(g, rank[t := Larger(rank[t], rank[current] + 1)], if joins then queue + [t] else queue, head,
                rest[1..])
  {
    var t, current := rest[0], queue[head - 1];
    PathFurther(g, current, t, rank[current]);
    var rank' := rank[t := Larger(rank[t], rank[current] + 1)];
    forall i | 0 <= i < |queue|
      ensures rank'[queue[i]] == rank[queue[i]]
    {
      assert queue[i] in queue;
    }
    assert rest == [t] + rest[1..];
  }

  /** The jobs without predecessors start the queue, with rank one. */
  lemma SweepSources(g: Graph, inDegree: seq<nat>, rank: seq<nat>, queue: seq<nat>)
    requires Proper(g) && |inDegree| == |rank| == |g.successors|
    requires forall s :: 0 <= s < |inDegree| ==> inDegree[s] == |g.predecessors[s]|
    requires forall s :: 0 <= s < |rank| ==> rank[s] == if inDegree[s] == 0 then 1 else 0
    requires forall s: nat :: s in queue <==> s < |inDegree| && inDegree[s] == 0
    requires forall i, k :: 0 <= i < k < |queue| ==> queue[i] != queue[k]
    ensures Sweep(g, inDegree, queue, 0, []) && Ranked(g, rank, queue, 0, [])
  {
    forall s | 0 <= s < |inDegree|
      ensures Pending(g.predecessors[s], queue[..0]) == |g.predecessors[s]|
      ensures PathTo(g, s, 1)
    {
      PendingNone(g.predecessors[s]);
      assert queue[..0] == [];
      assert IsPath(g.successors, [s]);
    }
    forall i | 0 <= i < |queue|
      ensures queue[i] < |inDegree| && inDegree[queue[i]] == 0
    {
      assert queue[i] in queue;
    }
  }

  /** Kahn's algorithm. Whatever the graph, every job gets an entry; the ranks rise along all edges exactly
      when the graph is acyclic, and are then the lengths of the longest paths to the jobs. */
  method GetJobsRanks(g: Graph) returns (rank: seq<nat>)
    requires Proper(g)
    ensures |rank| == |g.successors|
    ensures RanksRise(g, rank) <==> Acyclic(g)
    ensures Acyclic(g) ==> forall j :: 0 <= j < |rank| ==> LongestTo(g, j, rank[j])
  {
    hide Sweep, Ranked, Proper;
    var n := |g.successors|;
    SameSize(g);
    var inDegree: seq<nat> := seq(n, i requires 0 <= i < |g.predecessors| => |g.predecessors[i]|);
    var queue;
    queue, rank := Sources(inDegree);
    SweepSources(g, inDegree, rank, queue);
    var head := 0;
    while head < |queue|
      invariant head <= |queue| && |inDegree| == |rank| == n
      invariant Sweep(g, inDegree, queue, head, []) && Ranked(g, rank, queue, head, [])
      decreases n - head
    {
      QueueFits(g, inDegree, queue, head);
      var current := queue[head];
      SweepNext(g, inDegree, queue, head);
      RankedNext(g, rank, queue, head);
      head := head + 1;
      inDegree, rank, queue := Release(g, inDegree, rank, queue, head, current);
    }
    SweepDone(g, inDegree, rank, queue);
  }

  method Sources(inDegree: seq<nat>) returns (queue: seq<nat>, rank: seq<nat>)
    ensures |rank| == |inDegree| && forall s :: 0 <= s < |rank| ==> rank[s] == if inDegree[s] == 0 then 1 else 0
    ensures forall s: nat :: s in queue <==> s < |inDegree| && inDegree[s] == 0
    ensures forall i, k :: 0 <= i < k < |queue| ==> queue[i] != queue[k]
  {
    queue, rank := [], seq(|inDegree|, _ => 0);
    var i := 0;
    while i < |inDegree|
      invariant 0 <= i <= |inDegree| == |rank|
      invariant forall s :: 0 <= s < |rank| ==> rank[s] == if s < i && inDegree[s] == 0 then 1 else 0
      invariant forall s: nat :: s in queue <==> s < i && inDegree[s] == 0
      invariant forall l, k :: 0 <= l < k < |queue| ==> queue[l] != queue[k]
    {
      if inDegree[i] == 0 {
        assert forall k :: 0 <= k < |queue| ==> queue[k] in queue;
        queue := queue + [i];
        rank := rank[i := 1];
      }
      i := i + 1;
    }
  }

  /** Account for the processed job in its successors. */
  method Release(g: Graph, inDegree: seq<nat>, rank: seq<nat>, queue: seq<nat>, head: nat, current: nat)
      returns (inDegree': seq<nat>, rank': seq<nat>, queue': seq<nat>)
    requires Proper(g) && 0 < head <= |queue| && current == queue[head - 1] < |g.successors|
    requires Sweep(g, inDegree, queue, head, g.successors[current])
        && Ranked(g, rank, queue, head, g.successors[current])
    ensures Sweep(g, inDegree', queue', head, []) && Ranked(g, rank', queue', head, [])
    ensures head <= |queue'| && |inDegree'| == |rank'| == |g.successors|
  {
    hide Sweep, Ranked;
    inDegree', rank', queue' := inDegree, rank, queue;
    var list := g.successors[current];
    Sizes(g, inDegree, rank, queue, head, list);
    assert list[0..] == list;
    var i := 0;
    while i < |list|
      invariant 0 <= i <= |list| && head <= |queue'| && queue'[head - 1] == current
      invariant |inDegree'| == |rank'| == |g.successors|
      invariant Sweep(g, inDegree', queue', head, list[i..]) && Ranked(g, rank', queue', head, list[i..])
    {
      var succ := list[i];
      assert list[i..][0] == succ && list[i..][1..] == list[i + 1..];
      SweepStep(g, inDegree', queue', head, list[i..]);
      RankedStep(g, rank', queue', head, list[i..], inDegree'[succ] == 1);
      rank' := rank'[succ := Larger(rank'[succ], rank'[current] + 1)];
      inDegree' := inDegree'[succ := inDegree'[succ] - 1];
      if inDegree'[succ] == 0 {
        queue' := queue' + [succ];
      }
      i := i + 1;
    }
    assert list[i..] == [];
  }

  lemma Sizes(g: Graph, inDegree: seq<nat>, rank: seq<nat>, queue: seq<nat>, head: nat, rest: seq<nat>)
    requires Sweep(g, inDegree, queue, head, rest) && Ranked(g, rank, queue, head, rest)
    ensures |inDegree| == |rank| == |g.successors|
  {
  }

  lemma SameSize(g: Graph)
    requires Proper(g)
    ensures |g.predecessors| == |g.successors|
  {
  }

  /** The queue holds every job at most once. */
  lemma QueueFits(g: Graph, inDegree: seq<nat>, queue: seq<nat>, head: nat)
    requires Sweep(g, inDegree, queue, head, [])
    ensures |queue| <= |g.successors|
    ensures head < |queue| ==> queue[head] < |g.successors|
  {
    DistinctFits(queue, |g.successors|);
  }

  lemma {:induction false} DistinctSize(v: seq<nat>)
    requires forall i, k :: 0 <= i < k < |v| ==> v[i] != v[k]
    ensures |Elems(v)| == |v|
  {
    if |v| > 0 {
      var n := |v| - 1;
      DistinctSize(v[..n]);
      assert Elems(v) == Elems(v[..n]) + {v[n]};
    }
  }

  lemma DistinctFits(v: seq<nat>, n: nat)
    requires forall i, k :: 0 <= i < k < |v| ==> v[i] != v[k]
    requires forall i :: 0 <= i < |v| ==> v[i] < n
    ensures |v| <= n
  {
    DistinctSize(v);
    SubsetSize(Elems(v), UpTo(n));
  }

  lemma {:induction false} SubsetSize(a: set<nat>, b: set<nat>)
    requires a <= b
    ensures |a| <= |b|
  {
    if a != {} {
      var x :| x in a;
      SubsetSize(a - {x}, b - {x});
    }
  }

  /** A job that never entered the queue has a predecessor that did not either. */
  lemma StuckPredecessor(g: Graph, inDegree: seq<nat>, queue: seq<nat>, s: nat) returns (q: nat)
    requires Proper(g) && Sweep(g, inDegree, queue, |queue|, []) && s < |g.successors| && s !in queue
    ensures q < |g.successors| && q !in queue && s in g.successors[q]
  {
    assert queue[..|queue|] == queue;
    var i :| 0 <= i < |g.predecessors[s]| && g.predecessors[s][i] !in queue;
    q := g.predecessors[s][i];
    EdgeBothWays(g, q, s);
  }

  /** Going back from such a job never ends. */
  lemma {:induction false} StuckPath(g: Graph, inDegree: seq<nat>, queue: seq<nat>, s: nat,
                                     n: nat) returns (path: seq<nat>)
    requires Proper(g) && Sweep(g, inDegree, queue, |queue|, []) && s < |g.successors| && s !in queue
    ensures IsPath(g.successors, path) && |path| == n + 1 && path[n] == s
    decreases n
  {
    if n == 0 {
      path := [s];
    } else {
      var q := StuckPredecessor(g, inDegree, queue, s);
      path := StuckPath(g, inDegree, queue, q, n - 1);
      path := path + [s];
    }
  }

  lemma PartOfPath(adj: seq<seq<nat>>, path: seq<nat>, i: nat, k: nat)
    requires IsPath(adj, path) && i < k < |path|
    ensures Reaches(adj, path[i], path[k]) && path[i] < |adj|
  {
    var part := path[i..k + 1];
    forall l | 0 <= l < |part| - 1
      ensures part[l + 1] in adj[part[l]]
    {
      assert path[i + l + 1] in adj[path[i + l]];
    }
    assert IsPath(adj, part) && |part| > 1 && part[0] == path[i] && part[|part| - 1] == path[k];
  }

  /** A path longer than the number of jobs goes around a cycle. */
  lemma LongPathCycles(g: Graph, path: seq<nat>)
    requires IsPath(g.successors, path) && |path| > |g.successors|
    ensures !Acyclic(g)
  {
    if forall i, k :: 0 <= i < k < |path| ==> path[i] != path[k] {
      DistinctFits(path, |g.successors|);
    }
    var i, k :| 0 <= i < k < |path| && path[i] == path[k];
    PartOfPath(g.successors, path, i, k);
  }

  /** Along a path, risen ranks are at least the positions. */
  lemma {:induction false} RanksAlong(g: Graph, rank: seq<nat>, path: seq<nat>)
    requires RanksRise(g, rank) && IsPath(g.successors, path)
    ensures rank[path[|path| - 1]] >= rank[path[0]] + |path| - 1
  {
    var n := |path| - 1;
    if n > 0 {
      RanksAlong(g, rank, path[..n]);
      var l :| 0 <= l < |g.successors[path[n - 1]]| && g.successors[path[n - 1]][l] == path[n];
    }
  }

  lemma RisenAcyclic(g: Graph, rank: seq<nat>)
    requires RanksRise(g, rank)
    ensures Acyclic(g)
  {
    forall x: nat | x < |g.successors| && Reaches(g.successors, x, x)
      ensures false
    {
      var path :| IsPath(g.successors, path) && |path| > 1 && path[0] == x && path[|path| - 1] == x;
      RanksAlong(g, rank, path);
    }
  }

  /** On an acyclic graph every job has entered the queue. */
  lemma AllQueued(g: Graph, inDegree: seq<nat>, queue: seq<nat>)
    requires Proper(g) && Sweep(g, inDegree, queue, |queue|, []) && Acyclic(g)
    ensures forall s: nat :: s < |g.successors| ==> s in queue
  {
    forall s: nat | s < |g.successors| && s !in queue
      ensures false
    {
      var path := StuckPath(g, inDegree, queue, s, |g.successors|);
      LongPathCycles(g, path);
    }
  }

  lemma SweepDone(g: Graph, inDegree: seq<nat>, rank: seq<nat>, queue: seq<nat>)
    requires Proper(g) && Sweep(g, inDegree, queue, |queue|, []) && Ranked(g, rank, queue, |queue|, [])
    ensures RanksRise(g, rank) <==> Acyclic(g)
    ensures Acyclic(g) ==> forall j :: 0 <= j < |rank| ==> LongestTo(g, j, rank[j])
  {
    if Acyclic(g) {
      AllQueued(g, inDegree, queue);
      RanksHaveRisen(g, rank, queue);
      forall j | 0 <= j < |rank|
        ensures LongestTo(g, j, rank[j])
      {
        LongestPath(g, rank, queue, j);
      }
    }
    if RanksRise(g, rank) {
      RisenAcyclic(g, rank);
    }
  }

  lemma RanksHaveRisen(g: Graph, rank: seq<nat>, queue: seq<nat>)
    requires Ranked(g, rank, queue, |queue|, []) && forall s: nat :: s < |g.successors| ==> s in queue
    ensures RanksRise(g, rank)
  {
    forall a, i | 0 <= a < |g.successors| && 0 <= i < |g.successors[a]|
      ensures g.successors[a][i] < |rank| && rank[a] < rank[g.successors[a][i]]
    {
      assert a in queue;
      var k :| 0 <= k < |queue| && queue[k] == a;
    }
  }

  lemma LongestPath(g: Graph, rank: seq<nat>, queue: seq<nat>, j: nat)
    requires Ranked(g, rank, queue, |queue|, []) && RanksRise(g, rank) && j < |rank|
    requires forall s: nat :: s < |g.successors| ==> s in queue
    ensures LongestTo(g, j, rank[j])
  {
    forall s: nat | s < |rank|
      ensures rank[s] > 0
    {
      assert s in queue;
    }
    forall path | IsPath(g.successors, path) && path[|path| - 1] == j
      ensures |path| <= rank[j]
    {
      RanksAlong(g, rank, path);
    }
  }

  /** Ranks for all jobs, and whether a cycle is reported: the number of ranks is compared with the number of jobs. */
  method AssignRanks(g: Graph) returns (rank: seq<nat>, reported: bool)
    requires Proper(g)
    ensures !reported
    ensures |rank| == |g.successors| && (RanksRise(g, rank) <==> Acyclic(g))
  {
    rank := GetJobsRanks(g);
    reported := |rank| != |g.successors|;
  }

  /** A cycle leaves no trace in the number of ranks, only in their order. */
  lemma CycleUnnoticed()
    ensures var g := Graph([[1], [0]], [[1], [0]]);
            Proper(g) && !Acyclic(g) && forall rank: seq<nat> :: |rank| == 2 ==> !RanksRise(g, rank)
  {
    var g := Graph([[1], [0]], [[1], [0]]);
    assert IsPath(g.successors, [0, 1, 0]);
    assert Reaches(g.successors, 0, 0);
    forall rank: seq<nat> | |rank| == 2
      ensures !RanksRise(g, rank)
    {
      if RanksRise(g, rank) {
        RisenAcyclic(g, rank);
      }
    }
  }

  /** Ranks computed from the precedence constraints of a problem rise from predecessors to successors. */
  lemma RanksOfProblem(p: Problem, g: Graph, rank: seq<nat>)
    requires ValidProblem(p) && Proper(g) && |g.successors| == |p.jobs| && RanksRise(g, rank)
    requires forall k: nat :: k < |p.jobs| ==> p.jobs[k].rank == rank[k]
    requires forall k: nat, i: nat :: k < |p.jobs| && i < |p.cons[k].predStart| ==>
               p.cons[k].predStart[i].ref in g.predecessors[k]
    requires forall k: nat, i: nat :: k < |p.jobs| && i < |p.cons[k].predFinish| ==>
               p.cons[k].predFinish[i].ref in g.predecessors[k]
    ensures RanksIncrease(p)
  {
    forall k: nat, q: nat | k < |p.jobs| && q in g.predecessors[k]
      ensures q < |p.jobs| && p.jobs[q].rank < p.jobs[k].rank
    {
      EdgeBothWays(g, q, k);
      var i :| 0 <= i < |g.successors[q]| && g.successors[q][i] == k;
      assert rank[q] < rank[g.successors[q][i]];
    }
  }
}
