// The exploration of the schedule graph, layer by layer.
module Exploration {
  import opened Times
  import opened Counting
  import opened Jobs
  import opened Workload
  import opened Scheduler
  import opened CoreAvailability
  import opened RunningJobs
  import opened PendingSuccessors
  import opened ReadyJobs
  import opened Abstraction
  import opened NextDispatch
  import opened PriorityPruning
  import opened SpaceData
  import opened NextState
  import opened ScheduleStates
  import opened Searches
  import opened Runs
  import opened Exactness
  import opened InitialStates
  import opened Layers
  import opened Nodes
  import opened StatesManagers
  import opened Decisions
  import opened Verdicts

  /** How states are merged, and when the exploration stops early. A depth of zero is no limit. */
  datatype Options = Options(conservative: bool, useTimes: bool, budget: int, naive: bool, earlyExit: bool,
      maxDepth: nat)

  // ---- The progress of the exploration ----

  datatype Progress = Progress(layer: seq<Snapshot>, completion: seq<Option<Interval>>, missed: bool, aborted: bool,
      front: seq<Node>)

  /** What has been established stays established. */
  ghost predicate Later(p: Problem, a: Progress, b: Progress) {
    && Grows(p, b.layer, a.layer) && Widens(b.completion, a.completion)
    && (a.missed ==> b.missed) && (a.aborted ==> b.aborted) && a.front == b.front
  }

  lemma LaterReflexive(p: Problem, a: Progress)
    ensures Later(p, a, a)
  {
    assert forall j :: 0 <= j < |a.completion| && a.completion[j].Some? ==>
             a.completion[j].value.Contains(a.completion[j].value);
  }

  lemma LaterTransitive(p: Problem, a: Progress, b: Progress, c: Progress)
    requires Later(p, a, b) && Later(p, b, c)
    ensures Later(p, a, c)
  {
    GrowsTransitive(p, c.layer, b.layer, a.layer);
  }

  // ---- A dispatch ----

  /** A job, a level and a state in which it can be dispatched, the cores it then uses, and its
      start and finish intervals. */
  datatype Dispatching = Dispatching(job: nat, level: nat, used: nat, start: Interval, finish: Interval)

  ghost predicate Planned(p: Problem, platform: seq<Interval>, scheduled: set<nat>, v: View, x: Dispatching) {
    && Sound(p, platform, scheduled, v) && DispatchReady(p, scheduled, v, x.job, x.level)
    && x.used == p.jobs[x.job].levels[x.level].cores
    && x.start == StartInterval(p, scheduled, v, x.job, x.level)
    && x.finish == FinishInterval(p, scheduled, v, x.job, x.level)
  }

  /** The state that the dispatch leads to. */
  ghost function After(p: Problem, platform: seq<Interval>, scheduled: set<nat>, v: View, x: Dispatching,
                       ready: seq<nat>): View
    requires Planned(p, platform, scheduled, v, x) && AllJobs(p, ready)
  {
    TimedCores(p, scheduled, v, x.job, x.level);
    NextView(p, scheduled + {x.job}, ready, v, x.job, x.start, x.finish, x.used)
  }

  lemma AfterSound(p: Problem, platform: seq<Interval>, scheduled: set<nat>, v: View, x: Dispatching, ready: seq<nat>)
    requires Planned(p, platform, scheduled, v, x) && ReadyExact(p, scheduled + {x.job}, ready)
    ensures Sound(p, platform, scheduled + {x.job}, After(p, platform, scheduled, v, x, ready))
  {
    NextSound(p, platform, scheduled, v, x.job, x.level, ready);
  }

  lemma PlannedAccounted(p: Problem, platform: seq<Interval>, scheduled: set<nat>, v: View, x: Dispatching)
    requires Planned(p, platform, scheduled, v, x)
    ensures p.IsJob(x.job) && Accounted(p, scheduled, v, x.job, x.start, x.finish, x.used)
  {
    DispatchAccounted(p, scheduled, v, x.job, x.level);
  }

  // ---- Layers of nodes ----

  ghost predicate NodeOk(p: Problem, platform: seq<Interval>, n: Node, depth: nat)
    reads n, Footprint(n.states)
  {
    n.Contained() && n.Valid(p, platform) && n.count == depth
  }

  /** The nodes of a layer lie apart from each other within `region`. */
  ghost predicate Laid(nodes: seq<Node>, region: set<object>)
    reads set n | n in nodes
  {
    && (forall i :: 0 <= i < |nodes| ==> nodes[i] in region && nodes[i].Repr <= region && nodes[i].Contained())
    && (forall i, k :: 0 <= i < |nodes| && 0 <= k < |nodes| && i != k ==> nodes[i].Repr !! nodes[k].Repr)
  }

  /** A layer of valid nodes. */
  ghost predicate LayerValid(p: Problem, platform: seq<Interval>, nodes: seq<Node>, depth: nat, region: set<object>)
    reads (set n | n in nodes), region
  {
    Laid(nodes, region) && forall i :: 0 <= i < |nodes| ==> NodeOk(p, platform, nodes[i], depth)
  }

  /** In no node exactly the given jobs have been dispatched. */
  ghost predicate NoneWith(nodes: seq<Node>, scheduled: set<nat>) {
    forall i :: 0 <= i < |nodes| ==> nodes[i].scheduled != scheduled
  }

  /** No two nodes stand for the same dispatched jobs. */
  ghost predicate DistinctSets(nodes: seq<Node>) {
    forall i, k :: 0 <= i < k < |nodes| ==> nodes[i].scheduled != nodes[k].scheduled
  }

  ghost predicate NonEmpty(layer: seq<Snapshot>) {
    forall i :: 0 <= i < |layer| ==> |layer[i].views| > 0
  }

  ghost function Snap(n: Node): Snapshot
    reads n, Footprint(n.states)
  {
    Snapshot(n.scheduled, n.Views())
  }

  ghost function Snaps(nodes: seq<Node>): (r: seq<Snapshot>)
    reads set n | n in nodes
    reads set n, o | n in nodes && o in Footprint(n.states) :: o
    ensures |r| == |nodes| && forall i :: 0 <= i < |nodes| ==> r[i] == Snap(nodes[i])
  {
    if |nodes| == 0 then [] else Snaps(nodes[..|nodes| - 1]) + [Snap(nodes[|nodes| - 1])]
  }

  /** A new state enters a node: it is merged into a state there, or added. */
  method NewOrMergeState(d: Data, platform: seq<Interval>, options: Options, next: Node, s: ScheduleState)
    requires next.Valid(d.p, platform) && next.Contained()
    requires s.Valid() && Sound(d.p, platform, next.scheduled, s.Contents())
    requires forall i :: 0 <= i < |next.states| ==> s.Apart(next.states[i])
    modifies next, Footprint(next.states)
    ensures next.Valid(d.p, platform) && next.Contained() && |next.states| > 0
    ensures next.Repr <= old(next.Repr) + s.Repr()
    ensures Subsumes(d.p, next.Views(), old(next.Views())) && Subsumes(d.p, next.Views(), [old(s.Contents())])
    ensures var before, v := old(next.Views()), old(s.Contents());
            if NoneOverlaps(before, v, |before|, options.conservative, options.useTimes) then
              next.Views() == before + [v]
            else
              IsMerge(d.p, before, next.Views(), v, options.conservative, options.useTimes, options.budget)
  {
    hide Sound, Bounded, Subsumes, Node.Fixed, Distinct, Footprint, Node.Views;
    ghost var views, v, all := next.Views(), s.Contents(), next.states;
    var merges := 0;
    if |next.states| > 0 {
      merges := next.MergeStates(d.p, platform, s, options.conservative, options.useTimes, options.budget);
      FootprintWithin(next.states, all);
    }
    if merges == 0 {
      FootprintAdd(next.states, s);
      next.AddState(d.p, platform, s);
      AddedCovers(d.p, views, v);
    }
  }

  lemma StoredKeys(p: Problem, platform: seq<Interval>, nodes: seq<Node>, depth: nat, region: set<object>)
    requires LayerValid(p, platform, nodes, depth, region)
    ensures KeysRight(p, nodes)
  {
  }

  lemma ApartStates(s: ScheduleState, states: seq<ScheduleState>)
    requires s.Repr() !! Footprint(states)
    ensures forall i :: 0 <= i < |states| ==> s.Apart(states[i])
  {
    forall i | 0 <= i < |states|
      ensures s.Apart(states[i])
    {
      InFootprint(states, states[i]);
      assert s.cores in s.Repr() && s.running in s.Repr() && s.starts in s.Repr();
      assert s.finishes in s.Repr() && s.certain in s.Repr() && s.priority in s.Repr();
    }
  }

  lemma OneMore(n: Node, next: Node, j: nat)
    requires n.count == |n.scheduled| && next.count == |next.scheduled| && j !in n.scheduled
        && next.scheduled == n.scheduled + {j}
    ensures next.count == n.count + 1
  {
  }

  lemma WithinRegion(p: Problem, platform: seq<Interval>, nodes: seq<Node>, depth: nat, region: set<object>, k: nat)
    requires LayerValid(p, platform, nodes, depth, region) && k < |nodes|
    ensures nodes[k] in region && Footprint(nodes[k].states) <= region
    ensures nodes[k].Valid(p, platform) && nodes[k].Contained()
  {
    hide Node.Valid;
  }

  lemma NothingLaid(p: Problem, platform: seq<Interval>, depth: nat)
    ensures LayerValid(p, platform, [], depth, {})
  {
  }

  /** A node is stored once. */
  lemma OnlyOnce(p: Problem, platform: seq<Interval>, nodes: seq<Node>, depth: nat, region: set<object>, k: nat)
    requires LayerValid(p, platform, nodes, depth, region) && k < |nodes|
    ensures forall i :: 0 <= i < |nodes| && i != k ==> nodes[i] != nodes[k]
  {
    hide Node.Valid;
  }

  lemma AppendValid(p: Problem, platform: seq<Interval>, nodes: seq<Node>, n: Node, depth: nat, region: set<object>)
    requires LayerValid(p, platform, nodes, depth, region) && n.Repr !! region
    requires NodeOk(p, platform, n, depth)
    ensures LayerValid(p, platform, nodes + [n], depth, region + n.Repr)
  {
    hide Node.Valid;
  }

  class StateSpace {
    const d: Data
    const platform: seq<Interval>
    const options: Options
    const manager: StatesManager
    var count: nat                            // the depth of the layer under exploration
    var completion: seq<Option<Interval>>     // best-case and worst-case completion times
    var aborted: bool
    var missed: bool

    constructor (p: Problem, platform: seq<Interval>, options: Options)
      requires ValidProblem(p) && ValidPlatform(p, platform)
      ensures d.p == p && this.platform == platform && this.options == options
      ensures Structure({}) && fresh(manager) && count == 0 && !aborted && !missed
      ensures manager.storage == [[], []] && completion == seq(|p.jobs|, _ => None)
    {
      hide ValidProblem, ListsCategory;
      var data := Build(p);
      d, this.platform, this.options := data, platform, options;
      manager := new StatesManager(2);
      count, aborted, missed := 0, false, false;
      completion := seq(|p.jobs|, _ => None);
    }

    function Next(): seq<Node>
      requires manager.Valid()
      reads this, manager
    {
      manager.NodesAt(count + 1)
    }

    /** The nodes of the next layer lie within `region`. */
    ghost predicate Structure(region: set<object>)
      reads this, manager, region
    {
      && ValidData(d) && ValidPlatform(d.p, platform)
      && manager.Valid() && manager.size == 2
      && this !in region && manager !in region
      && (forall i :: 0 <= i < |Next()| ==> Next()[i] in region)
      && LayerValid(d.p, platform, Next(), count + 1, region)
      && (!options.naive ==> manager.IndexedAt(count + 1) && DistinctSets(Next()))
    }

    /** A new node for the next layer. */
    method CreateNode(n: Node, j: nat, ghost region: set<object>) returns (next: Node, ghost region': set<object>)
      requires Structure(region) && n.Fixed(d.p) && n.count == count == |n.scheduled| && Eligible(d.p, n.scheduled, j)
      requires !options.naive ==> NoneWith(Next(), n.scheduled + {j})
      modifies manager
      ensures Structure(region') && fresh(region' - region) && region <= region'
      ensures manager.NodesAt(count) == old(manager.NodesAt(count))
      ensures next.scheduled == n.scheduled + {j} && next.states == []
      ensures Next() == old(Next()) + [next] && Snaps(old(Next())) == old(Snaps(Next()))
    {
      hide Node.Fixed, Node.Valid, ValidData, ValidPlatform, Snap, NextView, Footprint;
      ghost var nodes := Next();
      next := new Node.AfterDispatch(n, d, j);
      next.EmptyValid(d.p, platform);
      assert next in next.Repr;
      OneMore(n, next, j);
      region' := region + next.Repr;
      AppendValid(d.p, platform, nodes, next, count + 1, region);
      Store(next, nodes, region, region');
      forall i | 0 <= i < |nodes|
        ensures Snap(nodes[i]) == old(Snap(nodes[i]))
      {
      }
    }

    /** Store a new node in the next layer. */
    method Store(next: Node, ghost nodes: seq<Node>, ghost region: set<object>, ghost region': set<object>)
      requires Structure(region) && nodes == Next() && region' == region + next.Repr
      requires this !in next.Repr && manager !in next.Repr && next in next.Repr
      requires LayerValid(d.p, platform, nodes + [next], count + 1, region')
      requires !options.naive ==> NoneWith(nodes, next.scheduled)
      modifies manager
      ensures Structure(region') && manager.NodesAt(count) == old(manager.NodesAt(count))
      ensures Next() == nodes + [next]
    {
      hide Node.Fixed, LayerValid, ValidData, ValidPlatform;
      manager.NewNode(count + 1, next);
    }

    /** The node that dispatching `j` in `n` leads to: the one at hand, one stored before, or a new one. */
    method NextNode(n: Node, j: nat, cached: Node?, ghost region: set<object>) returns (next: Node,
                    ghost region': set<object>)
      requires Structure(region) && n.Fixed(d.p) && n.count == count == |n.scheduled| && Eligible(d.p, n.scheduled, j)
      requires cached != null ==> cached in Next() && cached.scheduled == n.scheduled + {j}
      modifies manager
      ensures Structure(region') && fresh(region' - region) && region <= region'
      ensures manager.NodesAt(count) == old(manager.NodesAt(count))
      ensures next in Next() && next.scheduled == n.scheduled + {j}
      ensures Next() == old(Next()) || (Next() == old(Next()) + [next] && next.states == [])
      ensures !options.naive && !NoneWith(old(Next()), n.scheduled + {j}) ==> Next() == old(Next())
      ensures options.naive || (cached == null && NoneWith(old(Next()), n.scheduled + {j})) ==>
                Next() == old(Next()) + [next]
      ensures Snaps(old(Next())) == old(Snaps(Next()))
    {
      hide Node.Fixed, LayerValid, ValidData, ValidPlatform, Snaps;
      if cached != null && !options.naive {
        return cached, region;
      }
      if !options.naive {
        var found := Lookup(n, j, region);
        if found != null {
          return found, region;
        }
      }
      next, region' := CreateNode(n, j, region);
    }

    /** The node of the next layer in which `j` has been dispatched after the jobs of `n`, if it exists. */
    method Lookup(n: Node, j: nat, ghost region: set<object>) returns (found: Node?)
      requires Structure(region) && n.Fixed(d.p) && Eligible(d.p, n.scheduled, j) && !options.naive
      ensures found != null ==> found in Next() && found.scheduled == n.scheduled + {j}
      ensures found == null ==> NoneWith(Next(), n.scheduled + {j})
      ensures Snaps(Next()) == old(Snaps(Next()))
    {
      hide KeysRight, ValidData, ValidPlatform, IndexSets.Holds, XorKey, Node.Fixed, Node.Valid;
      ghost var nodes := Next();
      StoredKeys(d.p, platform, nodes, count + 1, region);
      n.KeyAfter(d.p, j);
      found := manager.FindNode(d.p, n.NextKeyAfter(d.p, j), count + 1, n.words, j, n.scheduled);
      forall i | 0 <= i < |nodes|
        ensures Snap(nodes[i]) == old(Snap(nodes[i]))
      {
      }
    }

    // ---- Results ----

    /** What the reported completion times and the flags stand for, whatever remains to be explored. */
    ghost predicate Results()
      reads this
    {
      && |completion| == |d.p.jobs|
      && (!missed ==> WithinDeadlines(d.p, completion))
      && (aborted ==> (missed && (options.earlyExit || !SequentialJobs(d.p))) || options.maxDepth > 0)
      && (missed ==> MissPossible(d.p, platform))
      && (ReportsAttained(d.p, platform, completion) || (missed && options.earlyExit))
    }

    /** Widen the reported completion times of `j`, and note whether it may exceed its deadline. */
    method UpdateFinishTimes(j: nat, range: Interval)
      requires Results() && d.p.IsJob(j) && range.Ok()
      requires PossibleFinish(d.p, platform, j, range) || (missed && options.earlyExit)
      modifies `completion, `missed, `aborted
      ensures Results() && Widens(completion, old(completion)) && Reported(completion, j, range)
      ensures (old(missed) ==> missed) && (old(aborted) ==> aborted)
      ensures missed == (old(missed) || d.p.jobs[j].deadline < range.max)
      ensures aborted == (old(aborted) || (options.earlyExit && d.p.jobs[j].deadline < range.max))
    {
      hide SequentialJobs, PossibleFinish;
      if completion[j].None? {
        completion := completion[j := Some(range)];
      } else {
        completion := completion[j := Some(completion[j].value.Widen(range))];
      }
      if d.p.jobs[j].deadline < range.max {
        missed := true;
        if options.earlyExit {
          aborted := true;
        }
      }
    }

    /** Reporting finish times does not affect the nodes. */
    method Report(j: nat, range: Interval, ghost region: set<object>)
      requires Structure(region) && Results() && d.p.IsJob(j) && range.Ok()
      requires PossibleFinish(d.p, platform, j, range)
      modifies `completion, `missed, `aborted
      ensures Structure(region) && Next() == old(Next()) && Snaps(Next()) == old(Snaps(Next()))
      ensures Results() && Widens(completion, old(completion)) && Reported(completion, j, range)
      ensures (old(missed) ==> missed) && (old(aborted) ==> aborted)
    {
      hide Node.Valid, ValidData, ValidPlatform, Results, PossibleFinish;
      ghost var nodes := Next();
      UpdateFinishTimes(j, range);
      forall i | 0 <= i < |nodes|
        ensures NodeOk(d.p, platform, nodes[i], count + 1) && Snap(nodes[i]) == old(Snap(nodes[i]))
      {
      }
    }

    // ---- Dispatching a job in a state ----

    /** A new state enters a node of the next layer. */
    method EnterNode(next: Node, s: ScheduleState, ghost k: nat, ghost region: set<object>)
      requires Structure(region) && k < |Next()| && Next()[k] == next
      requires s.Valid() && Sound(d.p, platform, next.scheduled, s.Contents())
      requires s.Repr() !! region && this !in s.Repr() && manager !in s.Repr()
      modifies next, Footprint(next.states)
      ensures Structure(region + s.Repr()) && Next() == old(Next())
      ensures Snaps(Next()) == old(Snaps(Next()))[k := Snap(next)] && |Snap(next).views| > 0
      ensures Subsumes(d.p, next.Views(), old(next.Views())) && Subsumes(d.p, next.Views(), [old(s.Contents())])
    {
      hide Node.Valid, ValidData, ValidPlatform, Sound, Subsumes, LayerValid, Node.Views;
      WithinRegion(d.p, platform, Next(), count + 1, region, k);
      EnterLayer(d, platform, options, Next(), count + 1, region, k, next, s);
    }

    /** Dispatch a job at a level in state `s` of node `n`: report its finish times, and enter the state that
        results into the node it leads to. */
    method Perform(n: Node, s: ScheduleState, x: Dispatching, cached: Node?, ghost v: View, ghost region: set<object>)
        returns (next: Node, ghost region': set<object>)
      requires Structure(region) && Results() && NonEmpty(Snaps(Next()))
      requires n.Fixed(d.p) && n.count == count == |n.scheduled|
      requires s.Valid() && v == s.Contents() && s.Repr() !! region && this !in s.Repr() && manager !in s.Repr()
      requires Planned(d.p, platform, n.scheduled, v, x)
      requires cached != null ==> cached in Next() && cached.scheduled == n.scheduled + {x.job}
      modifies `completion, `missed, `aborted, manager, region
      ensures Structure(region') && fresh(region' - region) && region <= region' && NonEmpty(Snaps(Next()))
      ensures manager.NodesAt(count) == old(manager.NodesAt(count))
      ensures next in Next() && next.scheduled == n.scheduled + {x.job}
      ensures Results() && (old(missed) ==> missed) && (old(aborted) ==> aborted) && Widens(completion, old(completion))
      ensures Grows(d.p, Snaps(Next()), old(Snaps(Next())))
      ensures Completed(d.p, Snaps(Next()), completion, n.scheduled, v, x)
    {
      hide LayerValid, Snaps, NonEmpty, ValidData, ValidPlatform, Results, Planned, Completed, Grows, Node.Fixed,
          Absorbed, After, Sound, ScheduleState.Valid, ScheduleState.Contents, StatesManager.IndexedAt, Reported,
          Widens, PossibleFinish;
      FinishTimesAttained(d.p, platform, n.scheduled, v, x);
      Report(x.job, x.finish, region);
      next, region' := Reach(n, s, x, cached, v, region);
      ProvidesLists(d.p, next);
      HandledBy(d.p, platform, Snaps(Next()), completion, n.scheduled, v, x, next.ready);
    }

    /** Where a node of the next layer is stored. */
    lemma Stored(next: Node, region: set<object>) returns (k: nat)
      requires manager.Valid() && Structure(region) && next in Next()
      ensures k < |Next()| && Next()[k] == next && next.Fixed(d.p)
      ensures next in region && Footprint(next.states) <= region
    {
      k :| 0 <= k < |Next()| && Next()[k] == next;
      WithinRegion(d.p, platform, Next(), count + 1, region, k);
    }

    /** Find or create the node that the dispatch leads to, and enter the new state. */
    method Reach(n: Node, s: ScheduleState, x: Dispatching, cached: Node?, ghost v: View, ghost region: set<object>)
        returns (next: Node, ghost region': set<object>)
      requires Structure(region) && NonEmpty(Snaps(Next()))
      requires n.Fixed(d.p) && n.count == count == |n.scheduled|
      requires s.Valid() && v == s.Contents() && s.Repr() !! region && this !in s.Repr() && manager !in s.Repr()
      requires Planned(d.p, platform, n.scheduled, v, x)
      requires cached != null ==> cached in Next() && cached.scheduled == n.scheduled + {x.job}
      modifies manager, region
      ensures Structure(region') && fresh(region' - region) && region <= region' && NonEmpty(Snaps(Next()))
      ensures manager.NodesAt(count) == old(manager.NodesAt(count))
      ensures next in Next() && next.scheduled == n.scheduled + {x.job} && next.Fixed(d.p) && AllJobs(d.p, next.ready)
      ensures Grows(d.p, Snaps(Next()), old(Snaps(Next())))
      ensures Absorbed(d.p, Snaps(Next()), next.scheduled, After(d.p, platform, n.scheduled, v, x, next.ready))
    {
      hide LayerValid, ValidData, ValidPlatform, Snaps, ScheduleState.Valid, Node.Fixed, Grows, Absorbed, After,
          Planned, Sound, Snap, Eligible;
      ghost var layer, nodes := Snaps(Next()), Next();
      PlannedEligible(d.p, platform, n.scheduled, v, x);
      ghost var between;
      next, between := NextNode(n, x.job, cached, region);
      ghost var reached := Snaps(Next());
      StillCovered(d.p, nodes, Next(), next, layer);
      region' := AddTo(n, s, x, next, v, between);
      assert region' - region == (between - region) + (region' - between);
      GrowsTransitive(d.p, Snaps(Next()), reached, layer);
    }

    /** Enter the new state into a stored node. */
    method AddTo(n: Node, s: ScheduleState, x: Dispatching, next: Node, ghost v: View, ghost region: set<object>)
        returns (ghost region': set<object>)
      requires Structure(region) && next in Next() && next.scheduled == n.scheduled + {x.job}
      requires forall i :: 0 <= i < |Next()| && Next()[i] != next ==> |Snaps(Next())[i].views| > 0
      requires s.Valid() && v == s.Contents() && Planned(d.p, platform, n.scheduled, v, x)
      modifies region
      ensures Structure(region') && fresh(region' - region) && region <= region' && Next() == old(Next())
      ensures NonEmpty(Snaps(Next())) && next.Fixed(d.p) && AllJobs(d.p, next.ready)
      ensures Grows(d.p, Snaps(Next()), old(Snaps(Next())))
      ensures Absorbed(d.p, Snaps(Next()), next.scheduled, After(d.p, platform, n.scheduled, v, x, next.ready))
    {
      hide LayerValid, ValidData, ValidPlatform, Snaps, ScheduleState.Valid, Node.Fixed, Grows, Absorbed, After,
          Planned;
      ghost var k := Stored(next, region);
      ghost var nodes := Next();
      OnlyOnce(d.p, platform, nodes, count + 1, region, k);
      region' := AddNewState(n, s, x, next, k, v, region);
    }

    /** Construct the state that results from a dispatch. */
    method NewState(n: Node, s: ScheduleState, x: Dispatching, next: Node, ghost v: View) returns (t: ScheduleState)
      requires ValidData(d) && s.Valid() && v == s.Contents() && Planned(d.p, platform, n.scheduled, v, x)
      requires next.Fixed(d.p) && next.scheduled == n.scheduled + {x.job}
      ensures t.Valid() && fresh(t.cores) && fresh(t.running) && fresh(t.starts) && fresh(t.finishes)
          && fresh(t.certain) && fresh(t.priority)
      ensures AllJobs(d.p, next.ready) && t.Contents() == After(d.p, platform, n.scheduled, v, x, next.ready)
      ensures Sound(d.p, platform, next.scheduled, t.Contents())
    {
      hide ValidData, Sound, Planned, Accounted, NodeLists;
      PlannedAccounted(d.p, platform, n.scheduled, v, x);
      ProvidesLists(d.p, next);
      AfterSound(d.p, platform, n.scheduled, v, x, next.ready);
      t := new ScheduleState.AfterDispatch(s, d, n.scheduled, x.job, x.start, x.finish, next.scheduled,
        next.pendingStart, next.pendingFinish, next.ready, next.nextSource, x.used);
    }

    /** Construct the state that results from a dispatch and enter it into the node it leads to. */
    method AddNewState(n: Node, s: ScheduleState, x: Dispatching, next: Node, ghost k: nat, ghost v: View,
                       ghost region: set<object>)
        returns (ghost region': set<object>)
      requires Structure(region) && k < |Next()| && Next()[k] == next
      requires s.Valid() && v == s.Contents() && Planned(d.p, platform, n.scheduled, v, x)
      requires next.Fixed(d.p) && next.scheduled == n.scheduled + {x.job}
      modifies next, Footprint(next.states)
      ensures Structure(region') && fresh(region' - region) && region <= region' && Next() == old(Next())
      ensures Snaps(Next()) == old(Snaps(Next()))[k := Snap(next)] && |Snap(next).views| > 0
      ensures Grows(d.p, Snaps(Next()), old(Snaps(Next()))) && AllJobs(d.p, next.ready)
      ensures Absorbed(d.p, Snaps(Next()), next.scheduled, After(d.p, platform, n.scheduled, v, x, next.ready))
    {
      hide ValidPlatform, ValidData, Sound, Subsumes, Grows, Absorbed, Planned, After, Node.Fixed, LayerValid, Snaps;
      var t := PrepareState(n, s, x, next, v, region);
      region' := region + t.Repr();
      EnterAndImprove(next, t, k, region);
    }

    /** Constructing a state does not affect the nodes. */
    method PrepareState(n: Node, s: ScheduleState, x: Dispatching, next: Node, ghost v: View, ghost region: set<object>)
        returns (t: ScheduleState)
      requires Structure(region) && s.Valid() && v == s.Contents() && Planned(d.p, platform, n.scheduled, v, x)
      requires next.Fixed(d.p) && next.scheduled == n.scheduled + {x.job}
      ensures Structure(region) && Next() == old(Next()) && Snaps(Next()) == old(Snaps(Next()))
      ensures t.Valid() && fresh(t.Repr()) && t.Repr() !! region && this !in t.Repr() && manager !in t.Repr()
      ensures AllJobs(d.p, next.ready) && t.Contents() == After(d.p, platform, n.scheduled, v, x, next.ready)
      ensures Sound(d.p, platform, next.scheduled, t.Contents())
    {
      hide ValidPlatform, ValidData, Sound, Planned, After, Node.Valid, Node.Fixed;
      ghost var nodes := Next();
      t := NewState(n, s, x, next, v);
      forall i | 0 <= i < |nodes|
        ensures NodeOk(d.p, platform, nodes[i], count + 1) && Snap(nodes[i]) == old(Snap(nodes[i]))
      {
      }
    }

    /** Entering a state improves the layer. */
    method EnterAndImprove(next: Node, s: ScheduleState, ghost k: nat, ghost region: set<object>)
      requires Structure(region) && k < |Next()| && Next()[k] == next
      requires s.Valid() && Sound(d.p, platform, next.scheduled, s.Contents())
      requires s.Repr() !! region && this !in s.Repr() && manager !in s.Repr()
      modifies next, Footprint(next.states)
      ensures Structure(region + s.Repr()) && Next() == old(Next())
      ensures Snaps(Next()) == old(Snaps(Next()))[k := Snap(next)] && |Snap(next).views| > 0
      ensures Grows(d.p, Snaps(Next()), old(Snaps(Next())))
      ensures Absorbed(d.p, Snaps(Next()), next.scheduled, old(s.Contents()))
    {
      hide ValidPlatform, ValidData, Sound, Subsumes, Grows, Absorbed, LayerValid;
      ghost var layer, v := Snaps(Next()), s.Contents();
      EnterNode(next, s, k, region);
      ImproveNode(d.p, layer, k, next.Views(), v);
    }

    // ---- Exploring a node ----

    /** A node under exploration lies apart from the next layer. */
    ghost predicate Source(n: Node, views: seq<View>, region: set<object>)
      reads this, n, Footprint(n.states)
    {
      && n.Contained() && n.Valid(d.p, platform) && n.count == count && n.Views() == views
      && n.Repr !! region && this !in n.Repr && manager !in n.Repr
    }

    /** Everything is in place for dispatching jobs from a node. */
    ghost predicate InPlace(n: Node, views: seq<View>, region: set<object>)
      reads this, manager, region, n, Footprint(n.states)
    {
      && manager.Valid() && Structure(region) && Results() && NonEmpty(Snaps(Next())) && Source(n, views, region)
    }

    ghost function Now(): Progress
      requires manager.Valid()
      reads this, manager, set n | n in Next(), set n, o | n in Next() && o in Footprint(n.states) :: o
    {
      Progress.Progress(Snaps(Next()), completion, missed, aborted, manager.NodesAt(count))
    }

    /** Dispatch a job in one of the states of a node under exploration. */
    method DispatchOne(n: Node, i: nat, x: Dispatching, cached: Node?, ghost views: seq<View>,
                       ghost region: set<object>)
        returns (next: Node, ghost region': set<object>)
      requires InPlace(n, views, region)
      requires i < |n.states| && i < |views| && Planned(d.p, platform, n.scheduled, views[i], x)
      requires cached != null ==> cached in Next() && cached.scheduled == n.scheduled + {x.job}
      modifies `completion, `missed, `aborted, manager, region
      ensures InPlace(n, views, region') && fresh(region' - region) && region <= region' && n.states == old(n.states)
      ensures next in Next() && next.scheduled == n.scheduled + {x.job}
      ensures Later(d.p, old(Now()), Now()) && Completed(d.p, Now().layer, completion, n.scheduled, views[i], x)
    {
      hide LayerValid, ValidData, ValidPlatform, Results, Planned, Completed, Grows, NonEmpty, Snaps, Node.Fixed,
          ScheduleState.Repr, CoreExact, ScheduleState.Contents, StatesManager.IndexedAt, Widens, Node.Valid, Sound;
      FromNode(n, i, views, region);
      next, region' := Perform(n, n.states[i], x, cached, views[i], region);
    }

    /** Some job certainly misses its deadline. If the exploration stops at the first miss, its finish times are
        reported as well. */
    method SetMissed(j: nat, range: Interval)
      requires Results() && MissPossible(d.p, platform) && d.p.IsJob(j) && range.Ok()
      modifies `completion, `missed, `aborted
      ensures Results() && missed && (aborted <==> old(aborted) || options.earlyExit)
      ensures Widens(completion, old(completion))
      ensures if options.earlyExit then Reported(completion, j, range) else completion == old(completion)
    {
      hide SequentialJobs, MissPossible, ReportsAttained, WithinDeadlines;
      missed := true;
      if options.earlyExit {
        aborted := true;
        UpdateFinishTimes(j, range);
      }
    }

    /** Note a deadline miss; the nodes are not affected. */
    method RaiseMiss(n: Node, j: nat, range: Interval, ghost views: seq<View>, ghost region: set<object>)
      requires InPlace(n, views, region) && MissPossible(d.p, platform) && d.p.IsJob(j) && range.Ok()
      modifies `completion, `missed, `aborted
      ensures InPlace(n, views, region) && missed && (aborted <==> old(aborted) || options.earlyExit)
      ensures Next() == old(Next()) && Later(d.p, old(Now()), Now())
      ensures if options.earlyExit then Reported(completion, j, range) else completion == old(completion)
    {
      hide Results, NonEmpty, Node.Valid, ValidData, ValidPlatform, MissPossible, Widens, Grows, Reported, Snaps;
      ghost var nodes := Next();
      LaterReflexive(d.p, Now());
      SetMissed(j, range);
      forall k | 0 <= k < |nodes|
        ensures NodeOk(d.p, platform, nodes[k], count + 1) && Snap(nodes[k]) == old(Snap(nodes[k]))
      {
      }
    }

    /** The jobs of which `FindMiss` has made sure that they do not wait beyond their deadlines: from the deadline
        `from` on, all have been dispatched up to one whose cores are available in time. */
    ghost predicate NoneSkipped(scheduled: set<nat>, v: View, from: int) {
      exists i: nat :: i <= |d.byDeadline| && SkippedNone(scheduled, v, from, i)
    }

    ghost predicate SkippedNone(scheduled: set<nat>, v: View, from: int, i: nat)
      requires i <= |d.byDeadline|
    {
      && (forall l :: 0 <= l < i && d.p.IsJob(d.byDeadline[l]) && from <= d.p.jobs[d.byDeadline[l]].deadline ==>
            d.byDeadline[l] in scheduled)
      && (i < |d.byDeadline| ==> !TooLate(d.p, v, d.byDeadline[i]))
    }

    /** The check of a dispatch from `n` to `next` finds no job that waits beyond its deadline. */
    ghost predicate NothingLate(n: Node, next: Node)
      reads n, Footprint(n.states), next, Footprint(next.states)
    {
      && |n.states| > 0 && |n.states[0].Contents().cores| > 0 && |next.states| > 0
      && NoneSkipped(next.scheduled, next.states[|next.states| - 1].Contents(), n.states[0].Contents().cores[0].min)
    }

    /** Whether some job that has not been dispatched in `next` certainly misses its deadline there: the
        first core availability of `n` and the last state of `next` are sampled. */
    method FindMiss(n: Node, next: Node) returns (late: Option<nat>)
      requires ValidData(d) && |n.states| > 0 && |n.states[0].cores.avail| > 0
      requires |next.states| > 0 && |next.states[|next.states| - 1].cores.avail| == d.p.m
      ensures late.Some? ==> LateIn(d.p, next.scheduled, next.states[|next.states| - 1].Contents(), late.value)
      ensures late.None? ==> NoneSkipped(next.scheduled, next.states[|next.states| - 1].Contents(),
                                         n.states[0].cores.avail[0].min)
    {
      var from := n.states[0].cores.Availability(1).min;
      var last := next.states[|next.states| - 1];
      var i := LowerBound(d.p, ByDeadline, d.byDeadline, Fin(from));
      while i < |d.byDeadline|
        invariant 0 <= i <= |d.byDeadline|
        invariant forall l :: 0 <= l < i && from <= d.p.jobs[d.byDeadline[l]].deadline ==>
                    d.byDeadline[l] in next.scheduled
      {
        var j := d.byDeadline[i];
        LevelOnPlatform(d.p, j, 0);
        if d.p.jobs[j].deadline >= last.cores.Availability(d.p.jobs[j].MinCores()).min {
          assert SkippedNone(next.scheduled, last.Contents(), from, i);
          return None;
        }
        if j !in next.scheduled {
          return Some(j);
        }
        i := i + 1;
      }
      assert SkippedNone(next.scheduled, last.Contents(), from, i);
      late := None;
    }

    /** When a job that waits in the last state of a node would finish. */
    method SkippedFinish(next: Node, j: nat) returns (range: Interval)
      requires ValidProblem(d.p) && d.p.IsJob(j) && |next.states| > 0
      requires |next.states[|next.states| - 1].cores.avail| == d.p.m
          && WellFormed(next.states[|next.states| - 1].cores.avail)
      ensures range.Ok()
      ensures |d.p.jobs[j].levels| > 0 && 1 <= d.p.jobs[j].MinCores() <= d.p.m
      ensures var level := d.p.jobs[j].levels[0];
              var free := next.states[|next.states| - 1].cores.avail[d.p.jobs[j].MinCores() - 1];
              range == Interval(free.min + level.cost.min, free.max + level.cost.max)
    {
      assert ValidJob(d.p.jobs[j], d.p.m);
      LevelOnPlatform(d.p, j, 0);
      var free := next.states[|next.states| - 1].cores.Availability(d.p.jobs[j].MinCores());
      var cost := d.p.jobs[j].levels[0].cost;
      range := Interval(free.min + cost.min, free.max + cost.max);
    }

    lemma NoneFound(n: Node, next: Node)
      requires |n.states| > 0 && |n.states[0].cores.avail| > 0 && |next.states| > 0
      requires NoneSkipped(next.scheduled, next.states[|next.states| - 1].Contents(), n.states[0].cores.avail[0].min)
      ensures NothingLate(n, next)
    {
      hide NoneSkipped;
    }

    /** Sample the states of two nodes for a job that certainly misses its deadline. */
    method SampleMiss(n: Node, next: Node, ghost views: seq<View>,
                      ghost region: set<object>) returns (late: Option<nat>, range: Interval)
      requires InPlace(n, views, region) && next in Next() && |n.states| > 0
      ensures InPlace(n, views, region) && Now() == old(Now())
      ensures late.Some? ==> MissPossible(d.p, platform) && d.p.IsJob(late.value) && range.Ok()
      ensures late.None? ==> NothingLate(n, next)
    {
      hide Results, Node.Fixed, Node.Valid, ValidData, ValidPlatform, Sound, LateIn, NonEmpty, WellFormed,
          NoneSkipped, MissPossible, ScheduleState.Contents, Snap, Snaps;
      ghost var nodes := Next();
      ghost var v := Sampled(n, next, views, region);
      late := FindMiss(n, next);
      range := Interval(0, 0);
      if late.None? {
        NoneFound(n, next);
      }
      if late.Some? {
        LatePossible(d.p, platform, next.scheduled, v, late.value);
        range := SkippedFinish(next, late.value);
      }
      forall k | 0 <= k < |nodes|
        ensures NodeOk(d.p, platform, nodes[k], count + 1) && Snap(nodes[k]) == old(Snap(nodes[k]))
      {
      }
    }

    /** What is known about the sampled states. */
    lemma Sampled(n: Node, next: Node, views: seq<View>, region: set<object>) returns (v: View)
      requires InPlace(n, views, region) && next in Next() && |n.states| > 0
      ensures ValidData(d) && ValidProblem(d.p) && |n.states[0].cores.avail| > 0 && |next.states| > 0
      ensures v == next.states[|next.states| - 1].Contents() && Sound(d.p, platform, next.scheduled, v)
      ensures |next.states[|next.states| - 1].cores.avail| == d.p.m
      ensures WellFormed(next.states[|next.states| - 1].cores.avail)
    {
      hide Results, Node.Fixed, Node.Valid, ValidPlatform, Sound, NonEmpty, WellFormed;
      FromNode(n, 0, views, region);
      SoundCores(d.p, platform, n.scheduled, views[0]);
      v := LastOf(next, region);
      SoundCores(d.p, platform, next.scheduled, v);
    }

    lemma LastOf(next: Node, region: set<object>) returns (v: View)
      requires manager.Valid() && Structure(region) && NonEmpty(Snaps(Next())) && next in Next()
      ensures |next.states| > 0 && v == next.states[|next.states| - 1].Contents()
      ensures Sound(d.p, platform, next.scheduled, v) && |v.cores| == d.p.m && ValidProblem(d.p)
    {
      var k := Stored(next, region);
      WithinRegion(d.p, platform, Next(), count + 1, region, k);
      assert |Snaps(Next())[k].views| > 0;
      v := next.Views()[|next.states| - 1];
    }

    /** Check whether a job has been skipped that now certainly misses its deadline. */
    method CheckDeadlineMisses(n: Node, next: Node, ghost views: seq<View>,
                               ghost region: set<object>) returns (late: Option<nat>)
      requires InPlace(n, views, region) && next in Next() && |n.states| > 0
      modifies `completion, `missed, `aborted
      ensures InPlace(n, views, region) && Next() == old(Next()) && Later(d.p, old(Now()), Now())
      ensures late.None? ==> Now() == old(Now()) && NothingLate(n, next)
      ensures late.Some? ==> missed && (aborted <==> old(aborted) || options.earlyExit)
    {
      hide Structure, Results, NonEmpty, Snaps, Source, MissPossible, Grows, Widens;
      var range: Interval;
      late, range := SampleMiss(n, next, views, region);
      LaterReflexive(d.p, Now());
      if late.Some? {
        RaiseMiss(n, late.value, range, views, region);
      }
    }

    /** What is known about `j` and the `i`-th state of a node before its levels are considered. */
    ghost predicate AtState(n: Node, i: nat, j: nat, rt: Interval, wc: Bound, window: Bound, seqHigh: Bound,
                            views: seq<View>) {
      && ValidProblem(d.p) && i < |views| && d.p.IsJob(j) && |views[i].cores| == d.p.m
      && Considered(d.p, n.scheduled, views[i], j, rt, wc, window, seqHigh)
      && (views[i].lowest.Some? ==> d.p.IsJob(views[i].lowest.value))
      && MayStart(d.p, views[i].lowest, j, rt, wc, seqHigh)
    }

    /** Dispatch `j` at level `l` if it may be the next job; `rest` when no higher level can be. */
    method DispatchLevel(n: Node, i: nat, j: nat, l: nat, rt: Interval, wc: Bound, ghost window: Bound, seqHigh: Bound,
                         cached: Node?,
                         ghost views: seq<View>, ghost region: set<object>)
        returns (one: bool, rest: bool, next: Node?, ghost region': set<object>)
      requires InPlace(n, views, region) && i < |n.states|
      requires AtState(n, i, j, rt, wc, window, seqHigh, views) && l < |d.p.jobs[j].levels|
      requires cached != null ==> cached in Next() && cached.scheduled == n.scheduled + {j}
      modifies `completion, `missed, `aborted, manager, region
      ensures InPlace(n, views, region') && fresh(region' - region) && region <= region' && n.states == old(n.states)
      ensures next != null ==> next in Next() && next.scheduled == n.scheduled + {j}
      ensures Later(d.p, old(Now()), Now())
      ensures HandledIf(d.p, Now().layer, completion, n.scheduled, views[i], j, l)
      ensures !one ==> !Dispatchable(d.p, n.scheduled, views[i], j, l)
      ensures rest ==> !one && forall level: nat :: l <= level ==> !Dispatchable(d.p, n.scheduled, views[i], j, level)
      ensures (one || cached != null ==> next != null)
          && (one && options.naive && options.earlyExit ==> missed || NothingLate(n, next))
    {
      hide Structure, Results, NonEmpty, Snaps, Source, Considered, MayStart, Dispatchable, Handled, Later, Planned,
          StartInterval;
      one, rest, next, region' := false, false, cached, region;
      var choice := Choose(n, i, j, l, rt, wc, window, seqHigh, views, region);
      LaterReflexive(d.p, Now());
      match choice {
        case SkipLevel =>
        case SkipRest => rest := true;
        case Dispatch(start, finish) =>
          var x := Dispatching(j, l, d.p.jobs[j].levels[l].cores, start, finish);
          ChoicePlanned(n, i, rt, wc, window, seqHigh, views, region, x);
          next, region' := DispatchOne(n, i, x, cached, views, region);
          one := true;
          if options.naive && options.earlyExit {
            ghost var between := Now();
            var late := CheckDeadlineMisses(n, next, views, region');
            LaterTransitive(d.p, old(Now()), between, Now());
            StillHandled(d.p, between, Now(), n.scheduled, views[i], j, l);
          }
      }
    }

    /** Deciding about a level does not change anything. */
    method Choose(n: Node, i: nat, j: nat, l: nat, rt: Interval, wc: Bound, ghost window: Bound, seqHigh: Bound,
                  ghost views: seq<View>, ghost region: set<object>) returns (choice: Choice)
      requires InPlace(n, views, region) && i < |n.states|
      requires AtState(n, i, j, rt, wc, window, seqHigh, views) && l < |d.p.jobs[j].levels|
      ensures InPlace(n, views, region) && Now() == old(Now())
      ensures RightChoice(d.p, n.scheduled, views[i], j, l, choice)
    {
      hide Results, NonEmpty, Node.Fixed, Node.Valid, ValidData, ValidPlatform, Considered, MayStart, Dispatchable,
          RightChoice, Snaps, Derivable, XorKey;
      ghost var nodes := Next();
      FromNode(n, i, views, region);
      choice := DecideLevel(d, n, n.states[i], j, l, rt, wc, window, seqHigh);
      forall k | 0 <= k < |nodes|
        ensures NodeOk(d.p, platform, nodes[k], count + 1) && Snap(nodes[k]) == old(Snap(nodes[k]))
      {
      }
    }

    lemma ChoicePlanned(n: Node, i: nat, rt: Interval, wc: Bound, window: Bound, seqHigh: Bound, views: seq<View>,
                        region: set<object>,
                        x: Dispatching)
      requires InPlace(n, views, region) && AtState(n, i, x.job, rt, wc, window, seqHigh, views)
      requires x.level < |d.p.jobs[x.job].levels| && x.used == d.p.jobs[x.job].levels[x.level].cores
      requires RightChoice(d.p, n.scheduled, views[i], x.job, x.level, Dispatch(x.start, x.finish))
      ensures Planned(d.p, platform, n.scheduled, views[i], x)
    {
      hide Structure, Results, NonEmpty, Snaps;
    }

    /** Dispatch `j` at every level at which it may be the next job in the `i`-th state of a node; stop
        once a deadline miss has been observed. */
    method DispatchLevels(n: Node, i: nat, j: nat, rt: Interval, wc: Bound, ghost window: Bound, seqHigh: Bound,
                          cached: Node?,
                          ghost views: seq<View>, ghost region: set<object>) returns (one: bool, next: Node?,
                              ghost region': set<object>)
      requires InPlace(n, views, region) && i < |n.states|
      requires AtState(n, i, j, rt, wc, window, seqHigh, views)
      requires cached != null ==> cached in Next() && cached.scheduled == n.scheduled + {j}
      modifies `completion, `missed, `aborted, manager, region
      ensures InPlace(n, views, region') && fresh(region' - region) && region <= region' && n.states == old(n.states)
      ensures next != null ==> next in Next() && next.scheduled == n.scheduled + {j}
      ensures Later(d.p, old(Now()), Now())
      ensures one || cached != null ==> next != null
      ensures !missed ==> LevelsDone(d.p, Now().layer, completion, n.scheduled, views[i], j, |d.p.jobs[j].levels|)
      ensures !one ==> NoLevel(d.p, n.scheduled, views[i], j, |d.p.jobs[j].levels|)
    {
      hide Structure, Results, NonEmpty, Snaps, Source, Considered, MayStart, Dispatchable, HandledIf, Later,
          ValidProblem, Widens;
      one, next, region' := false, cached, region;
      LaterReflexive(d.p, Now());
      var l := 0;
      while l < |d.p.jobs[j].levels|
        invariant 0 <= l <= |d.p.jobs[j].levels|
        invariant InPlace(n, views, region') && fresh(region' - region) && region <= region'
            && n.states == old(n.states)
        invariant next != null ==> next in Next() && next.scheduled == n.scheduled + {j}
        invariant Later(d.p, old(Now()), Now()) && (one || cached != null ==> next != null)
        invariant LevelsDone(d.p, Now().layer, completion, n.scheduled, views[i], j, l)
        invariant !one ==> NoLevel(d.p, n.scheduled, views[i], j, l)
      {
        ghost var before := Now();
        var dispatched, rest: bool;
        dispatched, rest, next, region' := DispatchLevel(n, i, j, l, rt, wc, window, seqHigh, next, views, region');
        NextLevelDone(d.p, old(Now()), before, Now(), n.scheduled, views[i], j, l);
        one := one || dispatched;
        if rest {
          LevelsSkipped(d.p, Now().layer, completion, n.scheduled, views[i], j, l + 1, |d.p.jobs[j].levels|);
          return;
        }
        l := l + 1;
        if dispatched && missed {
          return;
        }
      }
    }

    /** Dispatch `j` in the `i`-th state of a node if it may be the next job there. */
    method DispatchState(n: Node, i: nat, j: nat, ghost window: Bound, seqHigh: Bound, cached: Node?,
                         ghost views: seq<View>, ghost region: set<object>) returns (one: bool, next: Node?,
                             ghost region': set<object>)
      requires InPlace(n, views, region) && i < |n.states| && i < |views|
          && InWindow(d.p, n.scheduled, j, views, window, seqHigh)
      requires cached != null ==> cached in Next() && cached.scheduled == n.scheduled + {j}
      modifies `completion, `missed, `aborted, manager, region
      ensures InPlace(n, views, region') && fresh(region' - region) && region <= region' && n.states == old(n.states)
      ensures next != null ==> next in Next() && next.scheduled == n.scheduled + {j}
      ensures Later(d.p, old(Now()), Now())
      ensures one || cached != null ==> next != null
      ensures !missed ==> LevelsDone(d.p, Now().layer, completion, n.scheduled, views[i], j, |d.p.jobs[j].levels|)
      ensures !one ==> NoLevel(d.p, n.scheduled, views[i], j, |d.p.jobs[j].levels|)
    {
      hide Structure, Results, NonEmpty, Snaps, Source, Considered, Dispatchable, HandledIf, Later, InWindow;
      var rt, wc, start := Prepare(n, i, j, window, seqHigh, views, region);
      if start {
        one, next, region' := DispatchLevels(n, i, j, rt, wc, window, seqHigh, cached, views, region);
      } else {
        one, next, region' := false, cached, region;
        LaterReflexive(d.p, Now());
      }
    }

    /** The ready times of `j` in a state, the work-conserving bound, and whether `j` may start at all. */
    method Prepare(n: Node, i: nat, j: nat, ghost window: Bound, seqHigh: Bound, ghost views: seq<View>,
                   ghost region: set<object>)
        returns (rt: Interval, wc: Bound, start: bool)
      requires InPlace(n, views, region) && i < |n.states| && i < |views|
          && InWindow(d.p, n.scheduled, j, views, window, seqHigh)
      ensures InPlace(n, views, region) && Now() == old(Now()) && InWindow(d.p, n.scheduled, j, views, window, seqHigh)
      ensures start ==> AtState(n, i, j, rt, wc, window, seqHigh, views)
      ensures !start ==> NoLevel(d.p, n.scheduled, views[i], j, |d.p.jobs[j].levels|)
                         && LevelsDone(d.p, Now().layer, completion, n.scheduled, views[i], j, |d.p.jobs[j].levels|)
    {
      hide Results, NonEmpty, Node.Fixed, Node.Valid, ValidData, ValidPlatform, Sound, InWindow, AtState, NoLevel,
          LevelsDone, Snap, Derivable, PendingExact, Snaps;
      ghost var nodes := Next();
      FromNode(n, i, views, region);
      WindowFacts(d.p, n.scheduled, j, views, window, seqHigh);
      rt, wc, start := Measure(n, n.states[i], i, j, window, seqHigh, views);
      forall k | 0 <= k < |nodes|
        ensures NodeOk(d.p, platform, nodes[k], count + 1) && Snap(nodes[k]) == old(Snap(nodes[k]))
      {
      }
      if !start {
        NoLevelDone(d.p, Snaps(nodes), completion, n.scheduled, views[i], j);
      }
    }

    /** The ready times of `j` in a state, the time by which some job is dispatched there, and whether `j` may start. */
    method Measure(n: Node, s: ScheduleState, ghost i: nat, j: nat, ghost window: Bound, seqHigh: Bound,
                   ghost views: seq<View>)
        returns (rt: Interval, wc: Bound, start: bool)
      requires n.Fixed(d.p) && s.Valid() && i < |views| && s.Contents() == views[i]
          && Sound(d.p, platform, n.scheduled, views[i])
      requires InWindow(d.p, n.scheduled, j, views, window, seqHigh)
      ensures d.p.IsJob(j) && |views[i].cores| == d.p.m && ValidProblem(d.p)
      ensures start ==> AtState(n, i, j, rt, wc, window, seqHigh, views)
      ensures !start ==> NoLevel(d.p, n.scheduled, views[i], j, |d.p.jobs[j].levels|)
    {
      hide Node.Fixed, Dispatchable, Sound, Considered, InWindow, StateInvariant;
      ghost var v := views[i];
      SoundState(d.p, platform, n, v);
      WindowFacts(d.p, n.scheduled, j, views, window, seqHigh);
      rt := ReadyInterval(d.p, s, j);
      wc := WorkConserving(d.p, n, s);
      MakeConsidered(d.p, n.scheduled, i, j, views, window, seqHigh, rt, wc);
      start := MayStart(d.p, s.priority.lowest, j, rt, wc, seqHigh);
      if !start {
        NeverStarts(d.p, n.scheduled, v, j, rt, wc, window, seqHigh);
      }
    }

    /** Dispatch `j` in all states of a node in which it may be the next job; stop once a deadline miss
        has been observed. */
    method DispatchJob(n: Node, j: nat, ghost window: Bound, seqHigh: Bound, ghost views: seq<View>,
                       ghost region: set<object>)
        returns (one: bool, ghost region': set<object>)
      requires InPlace(n, views, region) && InWindow(d.p, n.scheduled, j, views, window, seqHigh)
      modifies `completion, `missed, `aborted, manager, region
      ensures InPlace(n, views, region') && fresh(region' - region) && region <= region' && n.states == old(n.states)
      ensures Later(d.p, old(Now()), Now())
      ensures !missed ==> StatesDone(d.p, Now().layer, completion, n.scheduled, views, j, |views|)
      ensures one && options.earlyExit && !options.naive ==> missed || exists m :: m in Next() && NothingLate(n, m)
      ensures !one ==> NoState(d.p, n.scheduled, views, j, |views|)
    {
      hide ValidProblem, Grows, Widens, Sound, ViewsOf, Derivable, Snap, Footprint, Structure, Results, NonEmpty,
          Snaps, Source, Later, InWindow, LevelsDone, NoLevel, StatesDone, NoState, WorkConservingBound,
          ValidConstraints;
      var next: Node?;
      one, next, region' := false, null, region;
      LaterReflexive(d.p, Now());
      SameCount(n, views, region);
      WindowFacts(d.p, n.scheduled, j, views, window, seqHigh);
      NoStateYet(d.p, Now(), n.scheduled, views, j);
      var i := 0;
      while i < |n.states|
        invariant 0 <= i <= |n.states| == |views| && n.states == old(n.states)
        invariant InPlace(n, views, region') && fresh(region' - region) && region <= region'
        invariant next != null ==> next in Next() && next.scheduled == n.scheduled + {j}
        invariant Later(d.p, old(Now()), Now()) && (one ==> next != null && i > 0)
        invariant !missed ==> StatesDone(d.p, Now().layer, completion, n.scheduled, views, j, i)
        invariant !one ==> NoState(d.p, n.scheduled, views, j, i)
      {
        ghost var before := Now();
        var dispatched: bool;
        dispatched, next, region' := DispatchState(n, i, j, window, seqHigh, next, views, region');
        NextStateDone(d.p, old(Now()), before, Now(), n.scheduled, views, j, i);
        if !one && !dispatched {
          NextStateSkipped(d.p, n.scheduled, views, j, i);
        }
        one := one || dispatched;
        i := i + 1;
        if dispatched && missed {
          return;
        }
      }
      if options.earlyExit && !options.naive && next != null && |n.states| > 0 {
        ghost var before := Now();
        var late := CheckDeadlineMisses(n, next, views, region');
        LaterTransitive(d.p, old(Now()), before, Now());
        StillDone(d.p, before, Now(), n.scheduled, views, j);
      }
    }

    lemma SameCount(n: Node, views: seq<View>, region: set<object>)
      requires InPlace(n, views, region)
      ensures |n.states| == |views|
    {
    }

    /** When some sequential job of higher priority than `j` is certainly released; the nodes are not affected. */
    method SequentialHigh(n: Node, j: nat, window: Bound, ghost views: seq<View>,
                          ghost region: set<object>) returns (high: Bound)
      requires InPlace(n, views, region) && Eligible(d.p, n.scheduled, j) && Windowed(d.p, n.scheduled, views, window)
      ensures InPlace(n, views, region) && Now() == old(Now())
      ensures InWindow(d.p, n.scheduled, j, views, window, high)
    {
      hide Results, NonEmpty, Node.Fixed, Node.Filled, Eligible, ValidData, ValidPlatform, StateInvariant;
      ghost var nodes := Next();
      SourcesBelow(d.p, n);
      EligibleJob(d.p, n.scheduled, j);
      high := NextSequentialRival(d, n.scheduled, n.nextSource, j, Times.Next(window));
      forall k | 0 <= k < |nodes|
        ensures NodeOk(d.p, platform, nodes[k], count + 1) && Snap(nodes[k]) == old(Snap(nodes[k]))
      {
      }
    }

    /** Consider one job whose predecessors have been dispatched. */
    method ConsiderJob(n: Node, j: nat, window: Bound, ghost views: seq<View>, ghost region: set<object>)
        returns (one: bool, ghost region': set<object>)
      requires InPlace(n, views, region) && Eligible(d.p, n.scheduled, j) && Windowed(d.p, n.scheduled, views, window)
      modifies `completion, `missed, `aborted, manager, region
      ensures InPlace(n, views, region') && fresh(region' - region) && region <= region' && n.states == old(n.states)
      ensures Later(d.p, old(Now()), Now())
      ensures !missed ==> StatesDone(d.p, Now().layer, completion, n.scheduled, views, j, |views|)
      ensures !one ==> NoState(d.p, n.scheduled, views, j, |views|)
    {
      hide Structure, Results, NonEmpty, Snaps, Source, Later, InWindow, Windowed, Eligible, StatesDone, NoState;
      var high := SequentialHigh(n, j, window, views, region);
      EligibleJob(d.p, n.scheduled, j);
      if Reached(high, d.p.jobs[j].arrival.min) {
        LaterReflexive(d.p, Now());
        NotInWindow(d.p, n.scheduled, views, j, window, high);
        JobSkipped(d.p, Now().layer, completion, n.scheduled, views, j);
        one, region' := false, region;
      } else {
        one, region' := DispatchJob(n, j, window, high, views, region);
      }
    }

    /** Source jobs that arrive before the next release have all been dispatched. */
    method StartSources(n: Node, ghost views: seq<View>, ghost region: set<object>) returns (i: nat)
      requires InPlace(n, views, region)
      ensures InPlace(n, views, region) && Now() == old(Now()) && i <= |d.sourcesByEarliest|
      ensures JobsDone(d.p, Now().layer, completion, n.scheduled, views, Elems(d.sourcesByEarliest[..i]))
      ensures NoJob(d.p, n.scheduled, views, Elems(d.sourcesByEarliest[..i]))
    {
      hide Results, NonEmpty, Node.Valid, JobsDone, NoJob, StatesDone, NoState;
      ghost var nodes := Next();
      SourceEarliest(n, views, region);
      SourcesOrdered(d);
      i := LowerBound(d.p, ByEarliest, d.sourcesByEarliest, n.earliestRelease);
      DispatchedAlready(d, n, views, i, Snaps(nodes), completion);
      forall k | 0 <= k < |nodes|
        ensures NodeOk(d.p, platform, nodes[k], count + 1) && Snap(nodes[k]) == old(Snap(nodes[k]))
      {
      }
    }

    lemma SourceEarliest(n: Node, views: seq<View>, region: set<object>)
      requires InPlace(n, views, region)
      ensures ValidData(d) && n.earliestRelease == NextKey(d.p, n.scheduled, ByEarliest, SOURCES)
          && n.count == |n.scheduled|
      ensures forall i :: 0 <= i < |views| ==> |views[i].cores| == d.p.m
    {
      hide Results, NonEmpty, Snaps, LayerValid;
      forall i | 0 <= i < |views|
        ensures |views[i].cores| == d.p.m
      {
        assert Sound(d.p, platform, n.scheduled, views[i]);
      }
    }

    lemma SourceJob(n: Node, views: seq<View>, region: set<object>, i: nat)
      requires InPlace(n, views, region) && i < |d.sourcesByEarliest|
      ensures ValidData(d) && d.p.IsJob(d.sourcesByEarliest[i])
      ensures d.sourcesByEarliest[i] !in n.scheduled ==> Eligible(d.p, n.scheduled, d.sourcesByEarliest[i])
      ensures forall i :: 0 <= i < |views| ==> |views[i].cores| == d.p.m
    {
      hide Results, NonEmpty, Snaps, LayerValid, InPlace;
      SourceEarliest(n, views, region);
      assert d.sourcesByEarliest[i] in d.sourcesByEarliest;
    }

    /** Consider the source jobs that may arrive within the window. */
    method ExploreSources(n: Node, window: Bound, ghost views: seq<View>, ghost region: set<object>)
        returns (found: bool, ghost region': set<object>)
      requires InPlace(n, views, region) && Windowed(d.p, n.scheduled, views, window)
      modifies `completion, `missed, `aborted, manager, region
      ensures InPlace(n, views, region') && fresh(region' - region) && region <= region' && n.states == old(n.states)
      ensures Later(d.p, old(Now()), Now())
      ensures !missed ==> JobsDone(d.p, Now().layer, completion, n.scheduled, views, Elems(d.sourcesByEarliest))
      ensures if found then SomeNext(d.p, n.scheduled) else NoJob(d.p, n.scheduled, views, Elems(d.sourcesByEarliest))
    {
      hide Grows, Widens, StatesManager.NodesAt, Node.Valid, Derivable, Structure, Results, NonEmpty, Snaps, Source,
          Later, Windowed, Eligible, JobsDone, NoJob, NoState, StatesDone, Ordered, SomeNext, ValidProblem,
          SortedByPriority;
      var list := d.sourcesByEarliest;
      SourceEarliest(n, views, region);
      found, region' := false, region;
      var i := StartSources(n, views, region);
      LaterReflexive(d.p, Now());
      while i < |list|
        invariant 0 <= i <= |list| && list == d.sourcesByEarliest
        invariant InPlace(n, views, region') && fresh(region' - region) && region <= region'
            && n.states == old(n.states)
        invariant Later(d.p, old(Now()), Now())
        invariant !missed ==> JobsDone(d.p, Now().layer, completion, n.scheduled, views, Elems(list[..i]))
        invariant if found then SomeNext(d.p, n.scheduled) else NoJob(d.p, n.scheduled, views, Elems(list[..i]))
      {
        var j := list[i];
        SourceJob(n, views, region', i);
        if !LeB(Fin(d.p.jobs[j].arrival.min), window) {
          RestOutside(d, Now(), n.scheduled, views, window, i, found);
          return;
        }
        ghost var before := Now();
        var one := false;
        if j in n.scheduled {
          AlreadyDispatched(d.p, Now(), n.scheduled, views, j);
        } else {
          one, region' := ConsiderJob(n, j, window, views, region');
          NextFound(d.p, n.scheduled, j);
        }
        NextJobDone(d.p, old(Now()), before, Now(), n.scheduled, views, list, i);
        NextJobNone(d.p, n.scheduled, views, list, i, found, one);
        found := found || one;
        i := i + 1;
      }
      assert list[..i] == list;
    }

    /** Consider the ready successor jobs that may arrive within the window. */
    method ExploreReady(n: Node, window: Bound, ghost views: seq<View>, ghost region: set<object>)
        returns (found: bool, ghost region': set<object>)
      requires InPlace(n, views, region) && Windowed(d.p, n.scheduled, views, window)
      modifies `completion, `missed, `aborted, manager, region
      ensures InPlace(n, views, region') && fresh(region' - region) && region <= region' && n.states == old(n.states)
      ensures Later(d.p, old(Now()), Now())
      ensures !missed ==> JobsDone(d.p, Now().layer, completion, n.scheduled, views, Elems(n.ready))
      ensures if found then SomeNext(d.p, n.scheduled) else NoJob(d.p, n.scheduled, views, Elems(n.ready))
    {
      hide Structure, Results, NonEmpty, Snaps, Source, Later, Windowed, Eligible, SomeNext, ValidProblem,
          LevelsDone;
      var list := n.ready;
      SourceEarliest(n, views, region);
      found, region' := false, region;
      LaterReflexive(d.p, Now());
      var i := 0;
      while i < |list|
        invariant 0 <= i <= |list| && list == n.ready
        invariant InPlace(n, views, region') && fresh(region' - region) && region <= region'
            && n.states == old(n.states)
        invariant Later(d.p, old(Now()), Now())
        invariant !missed ==> JobsDone(d.p, Now().layer, completion, n.scheduled, views, Elems(list[..i]))
        invariant if found then SomeNext(d.p, n.scheduled) else NoJob(d.p, n.scheduled, views, Elems(list[..i]))
      {
        hide StatesDone, NoState, JobsDone, NoJob;
        var j := list[i];
        ReadyJob(n, views, region', i);
        ghost var before := Now();
        var one := false;
        if !LeB(Fin(d.p.jobs[j].arrival.min), window) {
          NotInWindow(d.p, n.scheduled, views, j, window, Inf);
          JobSkipped(d.p, Now().layer, completion, n.scheduled, views, j);
          LaterReflexive(d.p, Now());
        } else {
          one, region' := ConsiderJob(n, j, window, views, region');
          NextFound(d.p, n.scheduled, j);
        }
        NextJobDone(d.p, old(Now()), before, Now(), n.scheduled, views, list, i);
        NextJobNone(d.p, n.scheduled, views, list, i, found, one);
        found := found || one;
        i := i + 1;
      }
      assert list[..i] == list;
    }

    lemma ReadyJob(n: Node, views: seq<View>, region: set<object>, i: nat)
      requires InPlace(n, views, region) && i < |n.ready|
      ensures d.p.IsJob(n.ready[i]) && Eligible(d.p, n.scheduled, n.ready[i])
    {
      hide Structure, Results, NonEmpty, Snaps;
      assert n.ready[i] in n.ready;
    }

    // ---- Exploring a layer ----

    /** No job can be dispatched although not all have been: a dead end counts as a deadline miss. */
    method SetDeadEnd()
      requires Results() && !SequentialJobs(d.p) && MissPossible(d.p, platform)
      modifies `missed, `aborted
      ensures Results() && missed && aborted
    {
      hide SequentialJobs, MissPossible, ReportsAttained, WithinDeadlines;
      missed, aborted := true, true;
    }

    method RaiseDeadEnd(n: Node, ghost views: seq<View>, ghost region: set<object>)
      requires InPlace(n, views, region) && !SequentialJobs(d.p) && MissPossible(d.p, platform)
      modifies `missed, `aborted
      ensures InPlace(n, views, region) && missed && aborted && Later(d.p, old(Now()), Now())
    {
      hide Results, NonEmpty, Node.Valid, ValidData, ValidPlatform, SequentialJobs, MissPossible, Grows;
      ghost var nodes := Next();
      LaterReflexive(d.p, Now());
      SetDeadEnd();
      forall k | 0 <= k < |nodes|
        ensures NodeOk(d.p, platform, nodes[k], count + 1) && Snap(nodes[k]) == old(Snap(nodes[k]))
      {
      }
    }

    /** Explore all dispatches from a node. */
    method ExploreNode(n: Node, ghost views: seq<View>, ghost region: set<object>) returns (ghost region': set<object>)
      requires InPlace(n, views, region) && |views| > 0
      modifies `completion, `missed, `aborted, manager, region
      ensures InPlace(n, views, region') && fresh(region' - region) && region <= region' && n.states == old(n.states)
      ensures Later(d.p, old(Now()), Now())
      ensures !missed ==> NodeExplored(d.p, Now().layer, completion, n.scheduled, views)
    {
      hide Structure, Results, NonEmpty, Snaps, Later, Windowed, JobsDone, NoJob, SequentialJobs, MissPossible,
          Node.Valid, NodeExplored, SomeNext, Sound;
      // upper bound on the time by which some job is certainly dispatched in every state
      var window := MaxB(Fin(n.aMax), MinB(n.nextSuccessor, MinB(n.nextSequential, MinB(n.nextGang, n.nextMutex))));
      NodeWindow(d.p, platform, n, views, window);
      var one, two: bool;
      one, region' := ExploreSources(n, window, views, region);
      ghost var between := Now();
      two, region' := ExploreReady(n, window, views, region');
      LaterTransitive(d.p, old(Now()), between, Now());
      SourceEarliest(n, views, region');
      if !one && !two && n.count != |d.p.jobs| {
        DeadEnd(d, platform, n, views);
        ghost var before := Now();
        RaiseDeadEnd(n, views, region');
        LaterTransitive(d.p, old(Now()), before, Now());
      } else {
        NodeDone(d, platform, n, views, between, Now());
      }
    }

    /** The layer under exploration is valid, and lies apart from the next one. */
    ghost predicate Front(front: seq<Node>, region: set<object>, frontRegion: set<object>)
      reads this, (set n | n in front), frontRegion
    {
      && LayerValid(d.p, platform, front, count, frontRegion)
      && frontRegion !! region && this !in frontRegion && manager !in frontRegion
    }

    lemma FrontNode(front: seq<Node>, region: set<object>, frontRegion: set<object>, i: nat) returns (views: seq<View>)
      requires manager.Valid() && Structure(region) && Results() && NonEmpty(Snaps(Next()))
      requires Front(front, region, frontRegion) && NonEmpty(Snaps(front)) && i < |front|
      ensures InPlace(front[i], views, region) && views == Snaps(front)[i].views && |views| > 0
      ensures front[i].scheduled == Snaps(front)[i].scheduled
    {
      hide Structure, Results, Node.Valid;
      views := front[i].Views();
      assert |Snaps(front)[i].views| > 0;
    }

    /** Explore one node of the front; the others stay as they are. */
    method ExploreFrontNode(front: seq<Node>, i: nat, ghost snaps: seq<Snapshot>, ghost region: set<object>,
                            ghost frontRegion: set<object>)
        returns (ghost region': set<object>)
      requires manager.Valid() && Structure(region) && Results() && NonEmpty(Snaps(Next()))
      requires Front(front, region, frontRegion) && NonEmpty(Snaps(front)) && i < |front| && snaps == Snaps(front)
      modifies `completion, `missed, `aborted, manager, region
      ensures manager.Valid() && Structure(region') && Results() && NonEmpty(Snaps(Next()))
      ensures fresh(region' - region) && region <= region'
      ensures Front(front, region', frontRegion) && Snaps(front) == snaps
      ensures Later(d.p, old(Now()), Now())
      ensures !missed ==> NodeExplored(d.p, Now().layer, completion, snaps[i].scheduled, snaps[i].views)
    {
      hide Structure, Results, NonEmpty, Node.Valid, Later, NodeExplored, Snaps;
      ghost var views := FrontNode(front, region, frontRegion, i);
      region' := ExploreNode(front[i], views, region);
      forall k | 0 <= k < |front|
        ensures NodeOk(d.p, platform, front[k], count) && Snap(front[k]) == old(Snap(front[k]))
        ensures front[k].Repr == old(front[k].Repr)
      {
      }
    }

    /** Explore the nodes of the front, until the exploration is aborted. */
    method ExploreLayer(front: seq<Node>, ghost snaps: seq<Snapshot>, ghost region: set<object>,
                        ghost frontRegion: set<object>)
        returns (ghost region': set<object>)
      requires manager.Valid() && Structure(region) && Results() && NonEmpty(Snaps(Next()))
      requires Front(front, region, frontRegion) && NonEmpty(Snaps(front)) && snaps == Snaps(front)
      modifies `completion, `missed, `aborted, manager, region
      ensures manager.Valid() && Structure(region') && Results() && NonEmpty(Snaps(Next()))
      ensures fresh(region' - region) && region <= region'
      ensures Front(front, region', frontRegion) && Snaps(front) == snaps
      ensures Later(d.p, old(Now()), Now())
      ensures !missed && !aborted ==> FirstExplored(d.p, Now().layer, completion, snaps, |snaps|)
    {
      hide Structure, Results, NonEmpty, Front, Later, NodeExplored, Snaps;
      region' := region;
      LaterReflexive(d.p, Now());
      var i := 0;
      while i < |front|
        invariant 0 <= i <= |front| == |snaps| && Snaps(front) == snaps
        invariant manager.Valid() && Structure(region') && Results() && NonEmpty(Snaps(Next()))
        invariant fresh(region' - region) && region <= region'
        invariant Front(front, region', frontRegion)
        invariant Later(d.p, old(Now()), Now())
        invariant !missed ==> FirstExplored(d.p, Now().layer, completion, snaps, i)
      {
        ghost var before := Now();
        region' := ExploreFrontNode(front, i, snaps, region', frontRegion);
        NextExplored(d.p, old(Now()), before, Now(), snaps, i);
        i := i + 1;
        if aborted {
          break;
        }
      }
    }

    // ---- The main loop ----

    /** Between two layers: the front is valid, and the next layer is still empty. */
    ghost predicate AtLayer(front: seq<Node>, frontRegion: set<object>)
      reads this, manager, (set n | n in front), frontRegion
    {
      && manager.Valid() && Structure({}) && Results() && Next() == []
      && front == manager.NodesAt(count) && Front(front, {}, frontRegion) && count <= |d.p.jobs|
    }

    /** What the layers explored so far establish, unless a miss has been observed or the exploration aborted. */
    ghost predicate Established(snaps: seq<Snapshot>)
      reads this
    {
      && NonEmpty(snaps)
      && (Analysable(d.p, platform) && !missed && !aborted ==>
            Accounts(d.p, platform, snaps, completion, count))
    }

    /** The initial node, with the initial state. */
    method InitialNode() returns (n: Node)
      requires ValidData(d) && ValidPlatform(d.p, platform)
      ensures fresh(n) && fresh(n.Repr) && NodeOk(d.p, platform, n, 0) && n in n.Repr
      ensures Snap(n) == Snapshot({}, [InitialView(d.p, platform)])
    {
      hide ValidData, Sound, Node.Fixed, Derivable;
      ProblemOf(d);
      assert d.p.m >= 1;
      n := new Node.Start(d);
      var s := new ScheduleState.Start(d, platform);
      n.EmptyValid(d.p, platform);
      InitialSound(d.p, platform);
      FootprintAdd(n.states, s);
      n.AddState(d.p, platform, s);
    }

    method StoreInitial(n: Node)
      requires manager.Valid() && Structure({}) && Results() && count == 0 && manager.storage == [[], []]
      requires NodeOk(d.p, platform, n, 0) && n in n.Repr && this !in n.Repr && manager !in n.Repr
      modifies manager
      ensures AtLayer([n], n.Repr) && Snaps([n]) == [old(Snap(n))]
    {
      hide ValidData, ValidPlatform, Results, Node.Valid;
      manager.NewNode(0, n);
      assert Slot(0, 2) != Slot(1, 2);
      assert Snap(n) == old(Snap(n));
    }

    /** Creating the initial node does not affect what has been stored. */
    lemma ReadyToStore(n: Node)
      requires ValidData(d) && ValidPlatform(d.p, platform) && manager.Valid() && manager.size == 2
          && manager.storage == [[], []] && count == 0
      requires !options.naive ==> manager.IndexedAt(1)
      ensures Structure({})
    {
      assert Slot(1, 2) == 1;
    }

    /** Store the initial node. */
    method MakeInitialNode() returns (front: seq<Node>, ghost frontRegion: set<object>)
      requires manager.Valid() && Structure({}) && Results() && count == 0 && manager.storage == [[], []] && !missed
          && !aborted
      modifies manager
      ensures AtLayer(front, frontRegion) && fresh(frontRegion)
      ensures Established(Snaps(front))
    {
      hide ValidData, ValidPlatform, Results, Analysable, Accounts, Node.Valid, AtLayer, NonEmpty, Snaps;
      ProblemOf(d);
      var n := InitialNode();
      ReadyToStore(n);
      StoreInitial(n);
      front, frontRegion := [n], n.Repr;
      FirstLayer(d.p, platform, Snaps(front), completion);
    }

    /** The slot of the front serves the layer after the next one. */
    lemma SlotAfterNext()
      requires manager.Valid() && manager.size == 2
      ensures Slot(count + 2, 2) == Slot(count, 2) != Slot(count + 1, 2)
      ensures manager.NodesAt(count + 2) == manager.NodesAt(count)
      ensures manager.IndexedAt(count + 2) == manager.IndexedAt(count)
    {
      assert (count + 2) % 2 == count % 2;
    }

    /** Drop the nodes of the front. */
    method DropFront()
      requires manager.Valid() && manager.size == 2
      modifies manager
      ensures manager.Valid() && manager.NodesAt(count + 2) == [] && (!options.naive ==> manager.IndexedAt(count + 2))
      ensures manager.NodesAt(count + 1) == old(manager.NodesAt(count + 1))
    {
      SlotAfterNext();
      if !options.naive {
        manager.ClearCacheAtDepth(count);
      }
      manager.ClearStorageAtDepth(count);
      SlotAfterNext();
    }

    method Deepen()
      requires Results()
      modifies `count
      ensures Results() && count == old(count) + 1
    {
      hide WithinDeadlines, SequentialJobs, MissPossible, ReportsAttained;
      count := count + 1;
    }

    /** Make the next layer the one under exploration. */
    method Shift(front: seq<Node>, ghost region: set<object>)
      requires manager.Valid() && manager.size == 2 && Results() && front == Next()
      requires LayerValid(d.p, platform, front, count + 1, region) && this !in region && manager !in region
      modifies manager, `count
      ensures manager.Valid() && Results() && count == old(count) + 1
      ensures manager.NodesAt(count) == front && Next() == [] && (!options.naive ==> manager.IndexedAt(count + 1))
      ensures LayerValid(d.p, platform, front, count, region) && Snaps(front) == old(Snaps(front))
    {
      hide Node.Valid, Results, Indexed, Slot, StatesManager.NodesAt, StatesManager.IndexedAt;
      DropFront();
      Deepen();
      forall k | 0 <= k < |front|
        ensures NodeOk(d.p, platform, front[k], count) && Snap(front[k]) == old(Snap(front[k]))
      {
      }
    }

    /** Drop the explored layer and move on to the next one. */
    method Advance(ghost region: set<object>) returns (front: seq<Node>)
      requires manager.Valid() && Structure(region) && Results() && NonEmpty(Snaps(Next())) && count < |d.p.jobs|
      modifies manager, `count
      ensures AtLayer(front, region) && count == old(count) + 1
      ensures Snaps(front) == old(Snaps(Next())) && front == old(Next())
    {
      hide ValidData, ValidPlatform, Results, LayerValid, StatesManager.NodesAt, StatesManager.IndexedAt, NodeOk;
      front := Next();
      Shift(front, region);
      NothingLaid(d.p, platform, count + 1);
    }

    /** Nothing to explore at this depth: move on. */
    method SkipLayer(front: seq<Node>, ghost frontRegion: set<object>) returns (front': seq<Node>)
      requires AtLayer(front, frontRegion) && Established(Snaps(front)) && front == [] && count < |d.p.jobs|
      modifies manager, `count
      ensures AtLayer(front', {}) && Established(Snaps(front')) && count == old(count) + 1
      ensures missed == old(missed) && aborted == old(aborted)
    {
      hide Results, Structure, Analysable, Accounts;
      front' := Advance({});
      if !missed && !aborted {
        EmptyLayer(d.p, platform, completion, old(count));
      }
    }

    /** Explore the front and move on to the next layer. */
    method ExploreAndAdvance(front: seq<Node>, ghost frontRegion: set<object>) returns (front': seq<Node>,
                             ghost frontRegion': set<object>)
      requires AtLayer(front, frontRegion) && Established(Snaps(front)) && count < |d.p.jobs|
      modifies manager, `count, `completion, `missed, `aborted
      ensures AtLayer(front', frontRegion') && fresh(frontRegion') && Established(Snaps(front'))
          && count == old(count) + 1
    {
      hide Results, Structure, Analysable, Accounts, Later, FirstExplored, LayerValid, NonEmpty, Snaps, Front,
          NodeOk;
      ghost var snaps, before := Snaps(front), Now();
      FrontSound(front, frontRegion);
      NothingStored(front, frontRegion);
      ProblemOf(d);
      frontRegion' := ExploreLayer(front, snaps, {}, frontRegion);
      ghost var after := Now();
      front' := Advance(frontRegion');
      assert Snaps(front') == after.layer && completion == after.completion && missed == after.missed
          && aborted == after.aborted;
      LayerEstablished(d.p, platform, snaps, before, after, old(count));
    }

    lemma FrontSound(front: seq<Node>, frontRegion: set<object>)
      requires AtLayer(front, frontRegion)
      ensures ValidData(d) && LayerSound(d.p, platform, Snaps(front))
    {
      hide Results, Sound;
      forall i | 0 <= i < |front|
        ensures AllSound(d.p, platform, Snaps(front)[i].scheduled, Snaps(front)[i].views)
      {
        assert NodeOk(d.p, platform, front[i], count);
      }
    }

    lemma NothingStored(front: seq<Node>, frontRegion: set<object>)
      requires AtLayer(front, frontRegion)
      ensures NonEmpty(Snaps(Next()))
    {
    }

    lemma AtLayerBounds(front: seq<Node>, frontRegion: set<object>)
      requires AtLayer(front, frontRegion)
      ensures Results() && count <= |d.p.jobs|
    {
    }

    method CheckDepthAbort()
      requires Results()
      modifies `aborted
      ensures Results() && (aborted <==> old(aborted) || (options.maxDepth > 0 && count > options.maxDepth))
    {
      hide WithinDeadlines, SequentialJobs, MissPossible, ReportsAttained;
      if options.maxDepth > 0 && count > options.maxDepth {
        aborted := true;
      }
    }

    /** Stop beyond the maximum depth. */
    method LimitDepth(front: seq<Node>, ghost frontRegion: set<object>)
      requires AtLayer(front, frontRegion) && Established(Snaps(front))
      modifies `aborted
      ensures AtLayer(front, frontRegion) && Established(Snaps(front)) && Snaps(front) == old(Snaps(front))
      ensures aborted <==> old(aborted) || (options.maxDepth > 0 && count > options.maxDepth)
    {
      hide Results, Analysable, Accounts, Node.Valid, ValidData, ValidPlatform, NonEmpty, Snaps;
      CheckDepthAbort();
      forall k | 0 <= k < |front|
        ensures NodeOk(d.p, platform, front[k], count) && Snap(front[k]) == old(Snap(front[k]))
      {
      }
    }

    /** Explore the schedule graph layer by layer until all jobs have been dispatched. */
    method Explore()
      requires manager.Valid() && Structure({}) && Results() && count == 0 && manager.storage == [[], []] && !missed
          && !aborted
      modifies this, manager
      ensures Results() && (!aborted ==> count == |d.p.jobs|)
      ensures Analysable(d.p, platform) && !missed && !aborted ==>
                ReportsRuns(d.p, platform, completion, |d.p.jobs|) && RunsGoOn(d.p, platform, |d.p.jobs|)
    {
      hide Results, Structure, AtLayer, Snaps, NonEmpty, Analysable, Accounts;
      var front, frontRegion := MakeInitialNode();
      AtLayerBounds(front, frontRegion);
      while count < |d.p.jobs|
        invariant AtLayer(front, frontRegion) && Established(Snaps(front)) && Results() && count <= |d.p.jobs|
        decreases |d.p.jobs| - count
      {
        if |front| == 0 {
          front := SkipLayer(front, frontRegion);
          frontRegion := {};
        } else {
          LimitDepth(front, frontRegion);
          AtLayerBounds(front, frontRegion);
          if aborted {
            break;
          }
          front, frontRegion := ExploreAndAdvance(front, frontRegion);
        }
        AtLayerBounds(front, frontRegion);
      }
      if Analysable(d.p, platform) && !missed && !aborted {
        AllAccounted(d.p, platform, Snaps(front), completion, count);
      }
    }

    lemma FromNode(n: Node, i: nat, views: seq<View>, region: set<object>)
      requires Source(n, views, region) && i < |n.states|
      ensures n.Fixed(d.p) && n.count == count == |n.scheduled|
      ensures n.states[i].Valid() && views[i] == n.states[i].Contents() && n.states[i].Repr() <= n.Repr
      ensures Sound(d.p, platform, n.scheduled, views[i])
    {
      assert n.states[i] in n.states;
      InFootprint(n.states, n.states[i]);
    }
  }

  lemma SoundView(p: Problem, platform: seq<Interval>, scheduled: set<nat>, v: View)
    requires Sound(p, platform, scheduled, v)
    ensures |v.cores| == p.m > 0
  {
  }

  lemma LatePossible(p: Problem, platform: seq<Interval>, scheduled: set<nat>, v: View, j: nat)
    requires Sound(p, platform, scheduled, v) && LateIn(p, scheduled, v, j)
    ensures MissPossible(p, platform) && p.IsJob(j)
  {
    hide Sound;
  }

  lemma SoundState(p: Problem, platform: seq<Interval>, n: Node, v: View)
    requires Sound(p, platform, n.scheduled, v) && n.Fixed(p)
    ensures StateInvariant(p, n.scheduled, v) && (v.lowest.Some? ==> p.IsJob(v.lowest.value)) && |v.cores| == p.m
    ensures ValidProblem(p) && n.nextSequential == NextKey(p, n.scheduled, ByLatest, {Sequential})
  {
  }

  lemma NeverStarts(p: Problem, scheduled: set<nat>, v: View, j: nat,
                    rt: Interval, wc: Bound, window: Bound, seqHigh: Bound)
    requires Considered(p, scheduled, v, j, rt, wc, window, seqHigh) && !MayStart(p, v.lowest, j, rt, wc, seqHigh)
    ensures NoLevel(p, scheduled, v, j, |p.jobs[j].levels|)
  {
    hide Dispatchable;
    forall level: nat
      ensures !Dispatchable(p, scheduled, v, j, level)
    {
      MayNotStart(p, scheduled, v, j, rt, wc, window, seqHigh, level);
    }
  }

  /** A job that cannot be dispatched in a state needs no exploration there. */
  lemma NoLevelDone(p: Problem, layer: seq<Snapshot>, completion: seq<Option<Interval>>, scheduled: set<nat>, v: View,
                    j: nat)
    requires ValidProblem(p) && |v.cores| == p.m && p.IsJob(j) && NoLevel(p, scheduled, v, j, |p.jobs[j].levels|)
    ensures LevelsDone(p, layer, completion, scheduled, v, j, |p.jobs[j].levels|)
  {
    hide Dispatchable, Handled;
  }

  lemma NoStateYet(p: Problem, a: Progress, scheduled: set<nat>, views: seq<View>, j: nat)
    requires ValidProblem(p) && p.IsJob(j)
    ensures StatesDone(p, a.layer, a.completion, scheduled, views, j, 0) && NoState(p, scheduled, views, j, 0)
  {
  }

  lemma NextStateDone(p: Problem, a: Progress, b: Progress, c: Progress, scheduled: set<nat>, views: seq<View>, j: nat,
                      i: nat)
    requires ValidProblem(p) && p.IsJob(j) && i < |views| && |views[i].cores| == p.m && Later(p, a, b) && Later(p, b, c)
    requires !b.missed ==> StatesDone(p, b.layer, b.completion, scheduled, views, j, i)
    requires !c.missed ==> LevelsDone(p, c.layer, c.completion, scheduled, views[i], j, |p.jobs[j].levels|)
    ensures Later(p, a, c) && (!c.missed ==> StatesDone(p, c.layer, c.completion, scheduled, views, j, i + 1))
  {
    hide LevelsDone;
    LaterTransitive(p, a, b, c);
    if !c.missed {
      StatesGrow(p, b.layer, c.layer, b.completion, c.completion, scheduled, views, j, i);
    }
  }

  lemma NextStateSkipped(p: Problem, scheduled: set<nat>, views: seq<View>, j: nat, i: nat)
    requires ValidProblem(p) && p.IsJob(j) && i < |views| && |views[i].cores| == p.m
    requires NoState(p, scheduled, views, j, i) && NoLevel(p, scheduled, views[i], j, |p.jobs[j].levels|)
    ensures NoState(p, scheduled, views, j, i + 1)
  {
    hide NoLevel;
  }

  /** No state of the node is left waiting beyond the window. */
  ghost predicate Windowed(p: Problem, scheduled: set<nat>, views: seq<View>, window: Bound) {
    ValidProblem(p) && forall i :: 0 <= i < |views| ==>
      StateInvariant(p, scheduled, views[i]) && |views[i].cores| == p.m
          && LeB(WorkConservingBound(p, scheduled, views[i]), window)
  }

  lemma EligibleJob(p: Problem, scheduled: set<nat>, j: nat)
    requires Eligible(p, scheduled, j)
    ensures p.IsJob(j) && j !in scheduled
  {
  }

  lemma NotInWindow(p: Problem, scheduled: set<nat>, views: seq<View>, j: nat, window: Bound, seqHigh: Bound)
    requires Windowed(p, scheduled, views, window) && p.IsJob(j)
    requires (InWindow(p, scheduled, j, views, window, seqHigh) && Reached(seqHigh, p.jobs[j].arrival.min))
             || !LeB(Fin(p.jobs[j].arrival.min), window)
    ensures ValidProblem(p) && NoState(p, scheduled, views, j, |views|)
  {
    forall i, level: nat | 0 <= i < |views|
      ensures !Dispatchable(p, scheduled, views[i], j, level)
    {
      OutsideWindow(p, scheduled, views[i], j, window, seqHigh, level);
    }
  }

  lemma SourcesOrdered(d: Data)
    requires ValidData(d)
    ensures Ordered(d.p, ByEarliest, d.sourcesByEarliest)
  {
  }

  lemma NotEligible(p: Problem, scheduled: set<nat>, views: seq<View>, j: nat)
    requires ValidProblem(p) && p.IsJob(j) && j in scheduled && forall i :: 0 <= i < |views| ==> |views[i].cores| == p.m
    ensures NoState(p, scheduled, views, j, |views|)
  {
  }

  lemma AlreadyDispatched(p: Problem, a: Progress, scheduled: set<nat>, views: seq<View>, j: nat)
    requires ValidProblem(p) && p.IsJob(j) && j in scheduled && forall i :: 0 <= i < |views| ==> |views[i].cores| == p.m
    ensures Later(p, a, a) && NoState(p, scheduled, views, j, |views|)
    ensures StatesDone(p, a.layer, a.completion, scheduled, views, j, |views|)
  {
    hide Later, NoState, StatesDone;
    LaterReflexive(p, a);
    NotEligible(p, scheduled, views, j);
    JobSkipped(p, a.layer, a.completion, scheduled, views, j);
  }

  /** The source jobs before the next release have been dispatched. */
  lemma DispatchedAlready(d: Data, n: Node, views: seq<View>, i: nat, layer: seq<Snapshot>,
                          completion: seq<Option<Interval>>)
    requires ValidData(d) && n.earliestRelease == NextKey(d.p, n.scheduled, ByEarliest, SOURCES)
        && i <= |d.sourcesByEarliest|
    requires forall k :: 0 <= k < |views| ==> |views[k].cores| == d.p.m
    requires forall l :: 0 <= l < i ==> !LeB(n.earliestRelease, Fin(KeyOf(d.p, ByEarliest, d.sourcesByEarliest[l])))
    ensures JobsDone(d.p, layer, completion, n.scheduled, views, Elems(d.sourcesByEarliest[..i]))
    ensures NoJob(d.p, n.scheduled, views, Elems(d.sourcesByEarliest[..i]))
  {
    var list := d.sourcesByEarliest;
    Listed(d);
    forall j: nat | j in list[..i]
      ensures d.p.IsJob(j) && NoState(d.p, n.scheduled, views, j, |views|)
      ensures StatesDone(d.p, layer, completion, n.scheduled, views, j, |views|)
    {
      var l :| 0 <= l < i && list[..i][l] == j;
      assert list[l] in list;
      if j !in n.scheduled {
        NextKeyBelow(d.p, n.scheduled, ByEarliest, SOURCES, j);
        assert false;
      }
      NotEligible(d.p, n.scheduled, views, j);
      JobSkipped(d.p, layer, completion, n.scheduled, views, j);
    }
  }

  /** Once a job arrives outside the window, so do all later ones. */
  lemma RestOutside(d: Data, b: Progress, scheduled: set<nat>, views: seq<View>, window: Bound, i: nat, found: bool)
    requires ValidData(d) && Windowed(d.p, scheduled, views, window) && i < |d.sourcesByEarliest|
    requires !LeB(Fin(d.p.jobs[d.sourcesByEarliest[i]].arrival.min), window)
    requires !b.missed ==> JobsDone(d.p, b.layer, b.completion, scheduled, views, Elems(d.sourcesByEarliest[..i]))
    requires !found ==> NoJob(d.p, scheduled, views, Elems(d.sourcesByEarliest[..i]))
    ensures !b.missed ==> JobsDone(d.p, b.layer, b.completion, scheduled, views, Elems(d.sourcesByEarliest))
    ensures !found ==> NoJob(d.p, scheduled, views, Elems(d.sourcesByEarliest))
  {
    hide LevelsDone;
    var list := d.sourcesByEarliest;
    forall l | i <= l < |list|
      ensures d.p.IsJob(list[l]) && NoState(d.p, scheduled, views, list[l], |views|)
      ensures StatesDone(d.p, b.layer, b.completion, scheduled, views, list[l], |views|)
    {
      assert KeyOf(d.p, ByEarliest, list[i]) <= KeyOf(d.p, ByEarliest, list[l]);
      NotInWindow(d.p, scheduled, views, list[l], window, Inf);
      JobSkipped(d.p, b.layer, b.completion, scheduled, views, list[l]);
    }
    assert list == list[..i] + list[i..];
  }

  lemma NextJobDone(p: Problem, a: Progress, b: Progress, c: Progress, scheduled: set<nat>, views: seq<View>,
                    list: seq<nat>, i: nat)
    requires ValidProblem(p) && i < |list| && p.IsJob(list[i]) && Later(p, a, b) && Later(p, b, c)
    requires !b.missed ==> JobsDone(p, b.layer, b.completion, scheduled, views, Elems(list[..i]))
    requires !c.missed ==> StatesDone(p, c.layer, c.completion, scheduled, views, list[i], |views|)
    ensures Later(p, a, c)
    ensures !c.missed ==> JobsDone(p, c.layer, c.completion, scheduled, views, Elems(list[..i + 1]))
  {
    LaterTransitive(p, a, b, c);
    if !c.missed {
      JobsGrow(p, b.layer, c.layer, b.completion, c.completion, scheduled, views, Elems(list[..i]));
      assert list[..i + 1] == list[..i] + [list[i]];
    }
  }

  lemma NextJobNone(p: Problem, scheduled: set<nat>, views: seq<View>, list: seq<nat>, i: nat, found: bool, one: bool)
    requires ValidProblem(p) && i < |list| && p.IsJob(list[i])
    requires !found ==> NoJob(p, scheduled, views, Elems(list[..i]))
    requires !one ==> NoState(p, scheduled, views, list[i], |views|)
    ensures !(found || one) ==> NoJob(p, scheduled, views, Elems(list[..i + 1]))
  {
    assert list[..i + 1] == list[..i] + [list[i]];
  }

  lemma NodeWindow(p: Problem, platform: seq<Interval>, n: Node, views: seq<View>, window: Bound)
    requires n.Valid(p, platform) && views == n.Views()
    requires window == MaxB(Fin(n.aMax), MinB(n.nextSuccessor, MinB(n.nextSequential, MinB(n.nextGang, n.nextMutex))))
    ensures Windowed(p, n.scheduled, views, window)
  {
    forall i | 0 <= i < |views|
      ensures StateInvariant(p, n.scheduled, views[i]) && |views[i].cores| == p.m
      ensures LeB(WorkConservingBound(p, n.scheduled, views[i]), window)
    {
      assert Sound(p, platform, n.scheduled, views[i]);
      WindowHolds(p, n.scheduled, views[i], n.Totals(), window);
    }
  }

  /** Every job that may be the next one is a source job or a ready successor job. */
  lemma EligibleListed(d: Data, platform: seq<Interval>, n: Node, j: nat)
    requires ValidData(d) && n.Valid(d.p, platform) && Eligible(d.p, n.scheduled, j)
    ensures j in d.sourcesByEarliest || j in n.ready
  {
  }

  lemma NodeDone(d: Data, platform: seq<Interval>, n: Node, views: seq<View>, b: Progress, c: Progress)
    requires ValidData(d) && n.Valid(d.p, platform) && Later(d.p, b, c)
        && forall i :: 0 <= i < |views| ==> |views[i].cores| == d.p.m
    requires |n.scheduled| != |d.p.jobs| ==> SomeNext(d.p, n.scheduled)
    requires !b.missed ==> JobsDone(d.p, b.layer, b.completion, n.scheduled, views, Elems(d.sourcesByEarliest))
    requires !c.missed ==> JobsDone(d.p, c.layer, c.completion, n.scheduled, views, Elems(n.ready))
    ensures !c.missed ==> NodeExplored(d.p, c.layer, c.completion, n.scheduled, views)
  {
    hide Node.Valid, Explored;
    if !c.missed {
      JobsGrow(d.p, b.layer, c.layer, b.completion, c.completion, n.scheduled, views, Elems(d.sourcesByEarliest));
      var all := UpTo(|d.p.jobs|);
      forall j: nat | d.p.IsJob(j)
        ensures StatesDone(d.p, c.layer, c.completion, n.scheduled, views, j, |views|)
      {
        if Eligible(d.p, n.scheduled, j) {
          EligibleListed(d, platform, n, j);
        } else {
          JobSkipped(d.p, c.layer, c.completion, n.scheduled, views, j);
        }
      }
      forall i | 0 <= i < |views|
        ensures Explored(d.p, c.layer, c.completion, n.scheduled, views[i])
      {
        AllJobsExplored(d.p, c.layer, c.completion, n.scheduled, views, all, i);
      }
    }
  }

  lemma SomeUndispatched(p: Problem, scheduled: set<nat>) returns (u: nat)
    requires |scheduled| != |p.jobs| && forall q :: q in scheduled ==> q < |p.jobs|
    ensures u < |p.jobs| && u !in scheduled
  {
    var all := UpTo(|p.jobs|);
    assert scheduled <= all && all != scheduled;
    assert !(all <= scheduled);
    u :| u in all && u !in scheduled;
  }

  lemma StuckState(d: Data, platform: seq<Interval>, n: Node, views: seq<View>)
    requires ValidData(d) && n.Valid(d.p, platform) && views == n.Views() && |views| > 0 && n.count != |d.p.jobs|
    requires NoJob(d.p, n.scheduled, views, Elems(d.sourcesByEarliest))
        && NoJob(d.p, n.scheduled, views, Elems(n.ready))
    ensures Sound(d.p, platform, n.scheduled, views[0]) && Stuck(d.p, n.scheduled, views[0])
  {
    hide Sound, Dispatchable, ReadyExact, PendingExact, Bounded, Distinct, ValidData, PriorityBound;
    SoundView(d.p, platform, n.scheduled, views[0]);
    var u := SomeUndispatched(d.p, n.scheduled);
    forall j: nat, level: nat
      ensures !Dispatchable(d.p, n.scheduled, views[0], j, level)
    {
      if Dispatchable(d.p, n.scheduled, views[0], j, level) {
        DispatchedLevel(d.p, n.scheduled, views[0], j, level);
        EligibleListed(d, platform, n, j);
      }
    }
  }

  /** A node without any dispatch holds a state that is stuck, which does not happen to sequential independent jobs. */
  lemma DeadEnd(d: Data, platform: seq<Interval>, n: Node, views: seq<View>)
    requires ValidData(d) && n.Valid(d.p, platform) && views == n.Views() && |views| > 0 && n.count != |d.p.jobs|
    requires NoJob(d.p, n.scheduled, views, Elems(d.sourcesByEarliest))
        && NoJob(d.p, n.scheduled, views, Elems(n.ready))
    ensures MissPossible(d.p, platform) && !SequentialJobs(d.p)
  {
    hide Sound, Stuck;
    StuckState(d, platform, n, views);
    NeverStuck(d.p, platform, n.scheduled, views[0]);
  }

  lemma DispatchedLevel(p: Problem, scheduled: set<nat>, v: View, j: nat, level: nat)
    requires ValidProblem(p) && |v.cores| == p.m && Dispatchable(p, scheduled, v, j, level)
    ensures Eligible(p, scheduled, j) && level < |p.jobs[j].levels|
  {
  }

  lemma NodeExploredGrows(p: Problem, a: Progress, b: Progress, scheduled: set<nat>, views: seq<View>)
    requires Later(p, a, b) && NodeExplored(p, a.layer, a.completion, scheduled, views)
    ensures NodeExplored(p, b.layer, b.completion, scheduled, views)
  {
    hide Explored, Grows;
    forall i | 0 <= i < |views|
      ensures Explored(p, b.layer, b.completion, scheduled, views[i])
    {
      ExploredGrows(p, a.layer, b.layer, a.completion, b.completion, scheduled, views[i]);
    }
  }

  /** The first `n` nodes of a layer have been explored. */
  ghost predicate FirstExplored(p: Problem, layer: seq<Snapshot>, completion: seq<Option<Interval>>,
                                front: seq<Snapshot>, n: nat) {
    n <= |front| && forall i :: 0 <= i < n ==> NodeExplored(p, layer, completion, front[i].scheduled, front[i].views)
  }

  lemma NextExplored(p: Problem, a: Progress, b: Progress, c: Progress, front: seq<Snapshot>, i: nat)
    requires Later(p, a, b) && Later(p, b, c) && i < |front|
    requires !b.missed ==> FirstExplored(p, b.layer, b.completion, front, i)
    requires !c.missed ==> NodeExplored(p, c.layer, c.completion, front[i].scheduled, front[i].views)
    ensures Later(p, a, c) && (!c.missed ==> FirstExplored(p, c.layer, c.completion, front, i + 1))
  {
    hide NodeExplored, Grows;
    LaterTransitive(p, a, b, c);
    if !c.missed {
      forall k | 0 <= k < i
        ensures NodeExplored(p, c.layer, c.completion, front[k].scheduled, front[k].views)
      {
        NodeExploredGrows(p, b, c, front[k].scheduled, front[k].views);
      }
    }
  }

  lemma ProblemOf(d: Data)
    requires ValidData(d)
    ensures ValidProblem(d.p)
  {
  }

  lemma FirstLayer(p: Problem, platform: seq<Interval>, snaps: seq<Snapshot>, completion: seq<Option<Interval>>)
    requires ValidProblem(p) && snaps == [Snapshot({}, [InitialView(p, platform)])]
    ensures NonEmpty(snaps)
    ensures Analysable(p, platform) ==> Accounts(p, platform, snaps, completion, 0)
  {
    if Analysable(p, platform) {
      InitialLayer(p, platform);
    }
  }

  lemma EmptyLayer(p: Problem, platform: seq<Interval>, completion: seq<Option<Interval>>, n: nat)
    requires Analysable(p, platform) ==> Accounts(p, platform, [], completion, n)
    ensures Analysable(p, platform) ==> Accounts(p, platform, [], completion, n + 1)
  {
    if Analysable(p, platform) {
      LayerAccounts(p, platform, [], [], completion, completion, n);
    }
  }

  /** One more layer explored is one more dispatch of every run covered. */
  lemma LayerEstablished(p: Problem, platform: seq<Interval>, front: seq<Snapshot>, a: Progress, b: Progress, n: nat)
    requires ValidProblem(p) && LayerSound(p, platform, front) && Later(p, a, b)
    requires !b.missed && !b.aborted ==> FirstExplored(p, b.layer, b.completion, front, |front|)
    requires Analysable(p, platform) && !a.missed && !a.aborted ==>
               Accounts(p, platform, front, a.completion, n)
    ensures Analysable(p, platform) && !b.missed && !b.aborted ==>
              Accounts(p, platform, b.layer, b.completion, n + 1)
  {
    hide LayerSound, LayerExplored, NoDeadEnds, FirstExplored, Accounts, Grows, Widens, Analysable;
    if Analysable(p, platform) && !b.missed && !b.aborted {
      FrontExplored(p, b, front);
      LayerAccounts(p, platform, front, b.layer, a.completion, b.completion, n);
    }
  }

  lemma FrontExplored(p: Problem, b: Progress, front: seq<Snapshot>)
    requires ValidProblem(p) && FirstExplored(p, b.layer, b.completion, front, |front|)
    ensures NoDeadEnds(p, front) && LayerExplored(p, b.layer, b.completion, front)
  {
    hide Explored, SomeNext, ValidProblem;
    forall i | 0 <= i < |front|
      ensures |front[i].scheduled| != |p.jobs| ==> SomeNext(p, front[i].scheduled)
      ensures forall k :: 0 <= k < |front[i].views| ==>
                |front[i].views[k].cores| == p.m
                    && Explored(p, b.layer, b.completion, front[i].scheduled, front[i].views[k])
    {
      assert NodeExplored(p, b.layer, b.completion, front[i].scheduled, front[i].views);
    }
  }

  /** All dispatches from the states of a node have been explored, and it is no dead end. */
  ghost predicate NodeExplored(p: Problem, layer: seq<Snapshot>, completion: seq<Option<Interval>>,
                               scheduled: set<nat>, views: seq<View>) {
    && ValidProblem(p) && (|scheduled| != |p.jobs| ==> SomeNext(p, scheduled))
    && forall i :: 0 <= i < |views| ==>
         |views[i].cores| == p.m && Explored(p, layer, completion, scheduled, views[i])
  }

  lemma NextFound(p: Problem, scheduled: set<nat>, j: nat)
    requires Eligible(p, scheduled, j)
    ensures SomeNext(p, scheduled)
  {
  }

  lemma MakeConsidered(p: Problem, scheduled: set<nat>, i: nat, j: nat, views: seq<View>, window: Bound, seqHigh: Bound,
                       rt: Interval, wc: Bound)
    requires InWindow(p, scheduled, j, views, window, seqHigh) && i < |views| && StateInvariant(p, scheduled, views[i])
    requires rt == ReadyTimes(p, views[i], j) && wc == WorkConservingBound(p, scheduled, views[i])
    ensures Considered(p, scheduled, views[i], j, rt, wc, window, seqHigh)
  {
  }

  lemma WindowFacts(p: Problem, scheduled: set<nat>, j: nat, views: seq<View>, window: Bound, seqHigh: Bound)
    requires InWindow(p, scheduled, j, views, window, seqHigh)
    ensures ValidProblem(p) && p.IsJob(j) && forall i :: 0 <= i < |views| ==> |views[i].cores| == p.m
  {
  }

  /** The bounds on the window of interest of a node hold in each of its states. */
  ghost predicate InWindow(p: Problem, scheduled: set<nat>, j: nat, views: seq<View>, window: Bound, seqHigh: Bound) {
    && ValidProblem(p) && Eligible(p, scheduled, j)
    && (forall i :: 0 <= i < |views| ==>
           |views[i].cores| == p.m && LeB(WorkConservingBound(p, scheduled, views[i]), window))
    && (forall v: View, used: nat :: |v.cores| == p.m ==>
          seqHigh == MinB(Next(window), Rival(p, scheduled, v, j, used, Sequential)))
  }

  lemma StillHandled(p: Problem, a: Progress, b: Progress, scheduled: set<nat>, v: View, j: nat, l: nat)
    requires ValidProblem(p) && |v.cores| == p.m && p.IsJob(j) && l < |p.jobs[j].levels| && Later(p, a, b)
    requires HandledIf(p, a.layer, a.completion, scheduled, v, j, l)
    ensures HandledIf(p, b.layer, b.completion, scheduled, v, j, l)
  {
    hide Dispatchable, Handled, Grows, Widens;
    if Dispatchable(p, scheduled, v, j, l) {
      HandledGrows(p, a.layer, b.layer, a.completion, b.completion, scheduled, v, j, l);
    }
  }

  lemma StillDone(p: Problem, a: Progress, b: Progress, scheduled: set<nat>, views: seq<View>, j: nat)
    requires ValidProblem(p) && p.IsJob(j) && Later(p, a, b)
    requires !a.missed ==> StatesDone(p, a.layer, a.completion, scheduled, views, j, |views|)
    ensures !b.missed ==> StatesDone(p, b.layer, b.completion, scheduled, views, j, |views|)
  {
    hide StatesDone, Grows, Widens;
    if !b.missed {
      StatesGrow(p, a.layer, b.layer, a.completion, b.completion, scheduled, views, j, |views|);
    }
  }

  lemma NextLevelDone(p: Problem, a: Progress, b: Progress, c: Progress, scheduled: set<nat>, v: View, j: nat, l: nat)
    requires ValidProblem(p) && |v.cores| == p.m && Later(p, a, b) && Later(p, b, c)
    requires LevelsDone(p, b.layer, b.completion, scheduled, v, j, l)
        && HandledIf(p, c.layer, c.completion, scheduled, v, j, l)
    ensures Later(p, a, c) && LevelsDone(p, c.layer, c.completion, scheduled, v, j, l + 1)
  {
    LaterTransitive(p, a, b, c);
    LevelsGrow(p, b.layer, c.layer, b.completion, c.completion, scheduled, v, j, l);
  }

  /** A layer to which an empty node has been added, if any, covers what it covered before. */
  lemma StillCovered(p: Problem, nodes: seq<Node>, nodes': seq<Node>, next: Node, layer: seq<Snapshot>)
    requires nodes' == nodes || (nodes' == nodes + [next] && next.states == [])
    requires Snaps(nodes) == layer
    ensures Grows(p, Snaps(nodes'), layer)
    ensures NonEmpty(layer) ==> forall i :: 0 <= i < |nodes'| && nodes'[i] != next ==> |Snaps(nodes')[i].views| > 0
  {
    hide Grows;
    GrowsReflexive(p, layer);
    if nodes' == nodes + [next] {
      assert nodes'[..|nodes'| - 1] == nodes;
      AppendNode(p, layer, Snap(next));
    }
  }

  lemma PlannedEligible(p: Problem, platform: seq<Interval>, scheduled: set<nat>, v: View, x: Dispatching)
    requires Planned(p, platform, scheduled, v, x)
    ensures Eligible(p, scheduled, x.job) && x.level < |p.jobs[x.job].levels| && |v.cores| == p.m && ValidProblem(p)
  {
  }

  lemma FinishTimesAttained(p: Problem, platform: seq<Interval>, scheduled: set<nat>, v: View, x: Dispatching)
    requires Planned(p, platform, scheduled, v, x)
    ensures p.IsJob(x.job) && x.finish.Ok() && PossibleFinish(p, platform, x.job, x.finish)
  {
    DispatchIntervalsOk(p, scheduled, v, x.job, x.level);
  }

  /** The dispatch has been explored. */
  ghost predicate Completed(p: Problem, layer: seq<Snapshot>, completion: seq<Option<Interval>>, scheduled: set<nat>,
                            v: View, x: Dispatching) {
    && ValidProblem(p) && |v.cores| == p.m && p.IsJob(x.job) && x.level < |p.jobs[x.job].levels|
    && Handled(p, layer, completion, scheduled, v, x.job, x.level)
  }

  lemma HandledBy(p: Problem, platform: seq<Interval>, layer: seq<Snapshot>, completion: seq<Option<Interval>>,
                  scheduled: set<nat>,
                  v: View, x: Dispatching, ready: seq<nat>)
    requires Planned(p, platform, scheduled, v, x) && Reported(completion, x.job, x.finish)
    requires ReadyExact(p, scheduled + {x.job}, ready) && (SimpleStartEdges(p) ==> RepeatsShared(p, ready))
    requires Absorbed(p, layer, scheduled + {x.job}, After(p, platform, scheduled, v, x, ready))
    ensures Completed(p, layer, completion, scheduled, v, x)
  {
    hide Sound, Problem.IsJob;
    TimedCores(p, scheduled, v, x.job, x.level);
  }

  /** A node provides what the construction of its states needs. */
  lemma ProvidesLists(p: Problem, n: Node)
    requires n.Fixed(p)
    ensures NodeLists(p, n.scheduled, n.pendingStart, n.pendingFinish, n.ready, n.nextSource)
    ensures ReadyExact(p, n.scheduled, n.ready) && (SimpleStartEdges(p) ==> RepeatsShared(p, n.ready))
  {
    SourcesBelow(p, n);
  }

  /** A new state enters the node at index `k` of a layer; the other nodes stay as they are. */
  method EnterLayer(d: Data, platform: seq<Interval>, options: Options, nodes: seq<Node>, ghost depth: nat,
                    ghost region: set<object>,
                    ghost k: nat, next: Node, s: ScheduleState)
    requires LayerValid(d.p, platform, nodes, depth, region) && k < |nodes| && nodes[k] == next
    requires s.Valid() && Sound(d.p, platform, next.scheduled, s.Contents()) && s.Repr() !! region
    modifies next, Footprint(next.states)
    ensures LayerValid(d.p, platform, nodes, depth, region + s.Repr())
    ensures Snaps(nodes) == old(Snaps(nodes))[k := Snap(next)] && |Snap(next).views| > 0
    ensures Subsumes(d.p, next.Views(), old(next.Views())) && Subsumes(d.p, next.Views(), [old(s.Contents())])
  {
    hide Node.Valid, Sound, Subsumes, NodeOk, ViewsOf, Footprint;
    ghost var snaps, reprs := Snaps(nodes), Reprs(nodes);
    EnterOne(d, platform, options, nodes, depth, region, k, next, s);
    LayerRebuilt(d.p, platform, nodes, depth, region, k, s.Repr(), reprs);
    assert Snaps(nodes) == snaps[k := Snap(next)];
  }

  ghost function Reprs(nodes: seq<Node>): (r: seq<set<object>>)
    reads set n | n in nodes
    ensures |r| == |nodes| && forall i :: 0 <= i < |nodes| ==> r[i] == nodes[i].Repr
  {
    if |nodes| == 0 then [] else Reprs(nodes[..|nodes| - 1]) + [nodes[|nodes| - 1].Repr]
  }

  lemma LayerRebuilt(p: Problem, platform: seq<Interval>, nodes: seq<Node>, depth: nat, region: set<object>, k: nat,
                     added: set<object>, reprs: seq<set<object>>)
    requires |reprs| == |nodes| && k < |nodes| && added !! region
    requires forall i :: 0 <= i < |nodes| ==> nodes[i] in region && reprs[i] <= region
    requires forall i, l :: 0 <= i < |nodes| && 0 <= l < |nodes| && i != l ==> reprs[i] !! reprs[l]
    requires forall i :: 0 <= i < |nodes| ==> NodeOk(p, platform, nodes[i], depth)
    requires forall i :: 0 <= i < |nodes| && i != k ==> nodes[i].Repr == reprs[i]
    requires nodes[k].Repr <= reprs[k] + added
    ensures LayerValid(p, platform, nodes, depth, region + added)
  {
    hide Node.Valid;
  }

  method EnterOne(d: Data, platform: seq<Interval>, options: Options, nodes: seq<Node>, ghost depth: nat,
                  ghost region: set<object>,
                  ghost k: nat, next: Node, s: ScheduleState)
    requires LayerValid(d.p, platform, nodes, depth, region) && k < |nodes| && nodes[k] == next
    requires s.Valid() && Sound(d.p, platform, next.scheduled, s.Contents()) && s.Repr() !! region
    modifies next, Footprint(next.states)
    ensures forall i :: 0 <= i < |nodes| ==> NodeOk(d.p, platform, nodes[i], depth)
    ensures forall i :: 0 <= i < |nodes| && i != k ==>
              Snap(nodes[i]) == old(Snap(nodes[i])) && nodes[i].states == old(nodes[i].states)
                  && nodes[i].Repr == old(nodes[i].Repr)
    ensures |next.states| > 0 && next.Repr <= old(next.Repr) + s.Repr()
    ensures Subsumes(d.p, next.Views(), old(next.Views())) && Subsumes(d.p, next.Views(), [old(s.Contents())])
  {
    hide Node.Valid, Sound, Subsumes, Snap;
    ApartStates(s, next.states);
    NewOrMergeState(d, platform, options, next, s);
    forall i | 0 <= i < |nodes| && i != k
      ensures NodeOk(d.p, platform, nodes[i], depth) && Snap(nodes[i]) == old(Snap(nodes[i]))
      ensures nodes[i].states == old(nodes[i].states) && nodes[i].Repr == old(nodes[i].Repr)
    {
      assert nodes[i].Repr !! old(nodes[k].Repr);
    }
  }
}
