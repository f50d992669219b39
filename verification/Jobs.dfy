// Jobs, their priority order, and the cost summary kept by each job.
module Jobs {
  import opened Times

  /** One level of parallelism: how many cores, and the execution time on that many. */
  datatype Level = Level(cores: nat, cost: Interval)

  datatype Job = Job(
    arrival: Interval,
    levels: seq<Level>,   // by strictly increasing number of cores
    deadline: int,
    priority: int,
    task: nat,
    id: nat,
    rank: nat,
    bcet: int,
    wcet: int,
    key: nat              // a hash value
  ) {
    function MinCores(): nat
      requires |levels| > 0
    {
      levels[0].cores
    }
  }

  predicate ValidLevels(levels: seq<Level>, m: nat) {
    && |levels| > 0
    && levels[0].cores >= 1
    && levels[|levels| - 1].cores <= m
    && (forall i, j :: 0 <= i < j < |levels| ==> levels[i].cores < levels[j].cores)
    && (forall i :: 0 <= i < |levels| ==> 0 <= levels[i].cost.min <= levels[i].cost.max)
  }

  predicate ValidJob(j: Job, m: nat) {
    && ValidLevels(j.levels, m)
    && j.arrival.Ok()
    && j.bcet == BestCost(j.levels)
    && j.wcet == WorstCost(j.levels)
  }

  /** Fixed priority, ties broken by task, then rank in the precedence graph, then job number. */
  predicate Higher(a: Job, b: Job) {
    || a.priority < b.priority
    || (a.priority == b.priority && a.task < b.task)
    || (a.priority == b.priority && a.task == b.task && a.rank < b.rank)
    || (a.priority == b.priority && a.task == b.task && a.rank == b.rank && a.id < b.id)
  }

  /** What the constructor's scan leaves in `bcet`: a zero found so far counts as "nothing yet". */
  function BestCost(levels: seq<Level>): int {
    if |levels| == 0 then 0
    else
      var b := BestCost(levels[..|levels| - 1]);
      var c := levels[|levels| - 1].cost.min;
      if c < b || b == 0 then c else b
  }

  function WorstCost(levels: seq<Level>): int {
    if |levels| == 0 then 0
    else Max(WorstCost(levels[..|levels| - 1]), levels[|levels| - 1].cost.max)
  }

  predicate IsMinCost(levels: seq<Level>, c: int) {
    && (exists i :: 0 <= i < |levels| && levels[i].cost.min == c)
    && (forall i :: 0 <= i < |levels| ==> c <= levels[i].cost.min)
  }

  /** A level of minimum cost zero is harmless only when the last level has it too. */
  predicate ZeroCostSafe(levels: seq<Level>) {
    forall i :: 0 <= i < |levels| && levels[i].cost.min == 0 ==> levels[|levels| - 1].cost.min == 0
  }

  /** The scan of the job constructor over its cost map. */
  method SummarizeCosts(levels: seq<Level>) returns (bcet: int, wcet: int)
    ensures bcet == BestCost(levels) && wcet == WorstCost(levels)
  {
    bcet, wcet := 0, 0;
    var i := 0;
    while i < |levels|
      invariant 0 <= i <= |levels|
      invariant bcet == BestCost(levels[..i]) && wcet == WorstCost(levels[..i])
    {
      assert levels[..i + 1][..i] == levels[..i];
      if levels[i].cost.min < bcet || bcet == 0 {
        bcet := levels[i].cost.min;
      }
      if levels[i].cost.max > wcet {
        wcet := levels[i].cost.max;
      }
      i := i + 1;
    }
    assert levels[..i] == levels;
  }

  /** `bcet` is the least minimum cost exactly for the cost maps that meet `ZeroCostSafe`. */
  lemma {:induction false} BestCostExact(levels: seq<Level>)
    requires |levels| > 0
    requires forall i :: 0 <= i < |levels| ==> 0 <= levels[i].cost.min
    ensures ZeroCostSafe(levels) <==> IsMinCost(levels, BestCost(levels))
  {
    BestCostScan(levels);
    var last := levels[|levels| - 1].cost.min;
    assert last >= BestCost(levels);
  }

  /** What the scan computes: the least of the minimum costs behind the last zero of a proper prefix. */
  lemma {:induction false} BestCostScan(levels: seq<Level>)
    requires |levels| > 0
    requires forall i :: 0 <= i < |levels| ==> 0 <= levels[i].cost.min
    ensures exists i :: 0 <= i < |levels| && levels[i].cost.min == BestCost(levels)
    ensures BestCost(levels) <= levels[|levels| - 1].cost.min
    ensures BestCost(levels) == 0 <==> levels[|levels| - 1].cost.min == 0
    ensures (forall i :: 0 <= i < |levels| ==> levels[i].cost.min > 0) ==>
              forall i :: 0 <= i < |levels| ==> BestCost(levels) <= levels[i].cost.min
  {
    var w := levels[..|levels| - 1];
    if |w| > 0 {
      BestCostScan(w);
      assert forall i :: 0 <= i < |w| ==> w[i] == levels[i];
      var k :| 0 <= k < |w| && w[k].cost.min == BestCost(w);
      assert levels[k].cost.min == BestCost(w);
    }
    assert levels[|levels| - 1].cost.min == BestCost(levels) || (|w| > 0 && BestCost(levels) == BestCost(w));
  }

  /** A cost map on which the scan is wrong: free on one core, five time units on two. */
  lemma BestCostCanBeWrong()
    ensures var levels := [Level(1, Interval(0, 3)), Level(2, Interval(5, 6))];
            ValidLevels(levels, 2) && BestCost(levels) == 5 && !IsMinCost(levels, 5)
  {
    var levels := [Level(1, Interval(0, 3)), Level(2, Interval(5, 6))];
    assert levels[..1] == [Level(1, Interval(0, 3))];
    assert levels[..1][..0] == [];
    assert BestCost(levels[..1]) == 0;
    assert levels[0].cost.min == 0;
  }

  lemma {:induction false} WorstCostBounds(levels: seq<Level>, i: nat)
    requires i < |levels|
    ensures levels[i].cost.max <= WorstCost(levels)
  {
    if i < |levels| - 1 {
      WorstCostBounds(levels[..|levels| - 1], i);
    }
  }
}
