// Deciding whether a job may be the next one dispatched in a state at a certain
// level of parallelism, and when it then starts and finishes.
module Decisions {
  import opened Times
  import opened Counting
  import opened Jobs
  import opened Workload
  import opened CoreAvailability
  import opened PendingSuccessors
  import opened ReadyJobs
  import opened Abstraction
  import opened NextDispatch
  import opened SpaceData
  import opened DispatchTrackers
  import opened ScheduleStates
  import opened Searches
  import opened Nodes

  /** The outcome for one level: it is skipped, it and all higher levels are, or the job is dispatched. */
  datatype Choice = SkipLevel | SkipRest | Dispatch(start: Interval, finish: Interval)

  /** The next release of a sequential independent job is when one can certainly be started. */
  lemma SequentialRelease(p: Problem, scheduled: set<nat>, v: View)
    requires ValidProblem(p) && |v.cores| == p.m
    ensures NextKey(p, scheduled, ByLatest, {Sequential}) == Certain(p, scheduled, v, Sequential)
  {
    var r := NextKey(p, scheduled, ByLatest, {Sequential});
    LeastKeyExact(p, scheduled, ByLatest, {Sequential}, |p.jobs|);
    forall k: nat
      ensures InCategory(p, scheduled, Sequential, k) <==> Open(p, scheduled, {Sequential}, k)
    {
      SourceInCategory(p, scheduled, Sequential, k);
    }
    CertainIs(p, scheduled, v, Sequential, r);
  }

  /** By then some job has certainly been dispatched. */
  method WorkConserving(p: Problem, n: Node, s: ScheduleState) returns (wc: Bound)
    requires ValidProblem(p) && |s.cores.avail| == p.m
        && n.nextSequential == NextKey(p, n.scheduled, ByLatest, {Sequential})
    ensures wc == WorkConservingBound(p, n.scheduled, s.Contents())
  {
    SequentialRelease(p, n.scheduled, s.Contents());
    var ready := MinB(n.nextSequential, MinB(s.certain.mutex, MinB(s.certain.gang, s.certain.successor)));
    wc := MaxB(Fin(s.cores.Availability(1).max), ready);
  }

  /** Cutting the searches off just beyond the work-conserving bound does not change the latest start. */
  lemma CutOff(wc: Bound, window: Bound, seq_: Bound, gang: Bound, mutex: Bound, succ: Bound, avail: Bound)
    requires LeB(wc, window)
    ensures var cut := MinB(MinB(Next(window), seq_), MinB(MinB(Next(wc), gang), MinB(MinB(Next(wc), mutex), succ)));
            var all := MinB(seq_, MinB(gang, MinB(mutex, succ)));
            MinB(wc, Prev(MinB(cut, avail))) == MinB(wc, Prev(MinB(all, avail)))
  {
  }

  /** What is known about a state before the levels of a job are considered. */
  ghost predicate Considered(p: Problem, scheduled: set<nat>, v: View, j: nat, rt: Interval, wc: Bound, window: Bound,
                             seqHigh: Bound) {
    && ValidProblem(p) && StateInvariant(p, scheduled, v) && Eligible(p, scheduled, j)
    && rt == ReadyTimes(p, v, j)
    && wc == WorkConservingBound(p, scheduled, v) && LeB(wc, window)
    && (forall used: nat :: seqHigh == MinB(Next(window), Rival(p, scheduled, v, j, used, Sequential)))
  }

  /** Before the levels are considered: no level can be chosen when this fails. */
  predicate MayStart(p: Problem, lowest: Option<nat>, j: nat, rt: Interval, wc: Bound, seqHigh: Bound)
    requires p.IsJob(j) && (lowest.Some? ==> p.IsJob(lowest.value))
  {
    && (lowest.Some? ==> !PriorTo(p, lowest.value, j))
    && !Reached(seqHigh, rt.min)
    && LeB(Fin(rt.min), wc)
  }

  /** A job dispatchable at a level starts before the cut-off search results. */
  lemma DispatchableStart(p: Problem, scheduled: set<nat>, v: View, j: nat, rt: Interval, wc: Bound, window: Bound,
                          seqHigh: Bound,
                          level: nat) returns (est: int)
    requires Considered(p, scheduled, v, j, rt, wc, window, seqHigh) && Dispatchable(p, scheduled, v, j, level)
    ensures 1 <= p.jobs[j].levels[level].cores <= p.m
    ensures est == Max(rt.min, v.cores[p.jobs[j].levels[level].cores - 1].min)
    ensures LeB(Fin(est), wc) && !Reached(seqHigh, est)
  {
    LevelOnPlatform(p, j, level);
    var used := p.jobs[j].levels[level].cores;
    est := EarliestStart(p, v, j, level);
    assert seqHigh == MinB(Next(window), Rival(p, scheduled, v, j, used, Sequential));
  }

  lemma MayNotStart(p: Problem, scheduled: set<nat>, v: View, j: nat, rt: Interval, wc: Bound, window: Bound,
                    seqHigh: Bound, level: nat)
    requires Considered(p, scheduled, v, j, rt, wc, window, seqHigh) && !MayStart(p, v.lowest, j, rt, wc, seqHigh)
    ensures !Dispatchable(p, scheduled, v, j, level)
  {
    if Dispatchable(p, scheduled, v, j, level) {
      var est := DispatchableStart(p, scheduled, v, j, rt, wc, window, seqHigh, level);
    }
  }

  lemma HigherLevel(p: Problem, v: View, j: nat, level: nat, higher: nat)
    requires ValidProblem(p) && p.IsJob(j) && level <= higher < |p.jobs[j].levels| && |v.cores| == p.m
        && WellFormed(v.cores)
    ensures 1 <= p.jobs[j].levels[level].cores <= p.jobs[j].levels[higher].cores <= p.m
    ensures v.cores[p.jobs[j].levels[level].cores - 1].min <= v.cores[p.jobs[j].levels[higher].cores - 1].min
  {
    LevelOnPlatform(p, j, level);
    LevelOnPlatform(p, j, higher);
    assert ValidJob(p.jobs[j], p.m);
    assert Mins(v.cores)[p.jobs[j].levels[level].cores - 1] <= Mins(v.cores)[p.jobs[j].levels[higher].cores - 1];
  }

  /** A level whose cores cannot be available in time rules out all higher levels. */
  lemma RestRuledOut(p: Problem, scheduled: set<nat>, v: View, j: nat, rt: Interval, wc: Bound, window: Bound,
                     seqHigh: Bound,
                     level: nat, higher: nat)
    requires Considered(p, scheduled, v, j, rt, wc, window, seqHigh) && level <= higher
    requires level < |p.jobs[j].levels| && 1 <= p.jobs[j].levels[level].cores <= p.m
    requires var at := v.cores[p.jobs[j].levels[level].cores - 1].min; !LeB(Fin(at), wc) || Reached(seqHigh, at)
    ensures !Dispatchable(p, scheduled, v, j, higher)
  {
    if Dispatchable(p, scheduled, v, j, higher) {
      HigherLevel(p, v, j, level, higher);
      var est := DispatchableStart(p, scheduled, v, j, rt, wc, window, seqHigh, higher);
    }
  }

  /** One level: the results of the searches either exclude it or give the intervals of the dispatch. */
  lemma SearchesDecide(p: Problem, scheduled: set<nat>, v: View, j: nat, level: nat, rt: Interval, wc: Bound,
                       window: Bound,
                       seqHigh: Bound, gang: Bound, mutex: Bound, succ: Bound, est: int)
    requires Considered(p, scheduled, v, j, rt, wc, window, seqHigh) && MayStart(p, v.lowest, j, rt, wc, seqHigh)
    requires level < |p.jobs[j].levels| && 1 <= p.jobs[j].levels[level].cores <= p.m
    requires est == EarliestStart(p, v, j, level) && LeB(Fin(est), wc) && !Reached(seqHigh, est)
    requires var used := p.jobs[j].levels[level].cores;
             && Decides(p, scheduled, v, j, used, Gang, est, Next(wc), gang)
             && Decides(p, scheduled, v, j, used, MutexSource, est, Next(wc), mutex)
             && Decides(p, scheduled, v, j, used, Successor, est, Inf, succ)
    ensures Dispatchable(p, scheduled, v, j, level) <==>
              !Reached(gang, est) && !Reached(mutex, est) && !Reached(succ, est)
                  && !Reached(ParallelismBound(p, v, j, level), est)
    ensures Dispatchable(p, scheduled, v, j, level) ==>
              var high := MinB(seqHigh, MinB(gang, MinB(mutex, succ)));
              LatestStart(p, scheduled, v, j, level)
                == Cap(Max(rt.max, v.cores[p.jobs[j].levels[level].cores - 1].max),
                       MinB(wc, Prev(MinB(high, ParallelismBound(p, v, j, level)))))
  {
    hide WorkConservingBound, Rival, ReadyTimes, PriorTo, ValidProblem, PredsIn, Prev;
    var used := p.jobs[j].levels[level].cores;
    var rivalSeq, rivalGang := Rival(p, scheduled, v, j, used, Sequential), Rival(p, scheduled, v, j, used, Gang);
    var rivalMutex, rivalSucc := Rival(p, scheduled, v, j, used, MutexSource),
        Rival(p, scheduled, v, j, used, Successor);
    assert seqHigh == MinB(Next(window), rivalSeq);
    CutOff(wc, window, rivalSeq, rivalGang, rivalMutex, rivalSucc, ParallelismBound(p, v, j, level));
  }

  /** When `j` is dispatched on more cores than at this level. */
  method NextLevelAvailable(p: Problem, s: ScheduleState, j: nat, level: nat) returns (avail: Bound)
    requires ValidProblem(p) && p.IsJob(j) && level < |p.jobs[j].levels| && |s.cores.avail| == p.m
    ensures avail == ParallelismBound(p, s.Contents(), j, level)
  {
    var levels := p.jobs[j].levels;
    if level + 1 == |levels| {
      avail := Inf;
    } else {
      LevelOnPlatform(p, j, level + 1);
      avail := Fin(s.cores.Availability(levels[level + 1].cores).max);
    }
  }

  /** The least of the times from which on some job of higher priority is dispatched rather than `j`; `None`
      as soon as one of them shows that `j` is not dispatched at all. */
  method HigherPriority(d: Data, n: Node, s: ScheduleState, j: nat, used: nat, est: int, wc: Bound, seqHigh: Bound)
      returns (high: Option<Bound>, ghost gang: Bound, ghost mutex: Bound, ghost succ: Bound)
    requires ValidData(d) && n.Fixed(d.p) && d.p.IsJob(j) && s.Valid() && |s.cores.avail| == d.p.m
    requires KnownScheduled(n.scheduled, s) && !Reached(Next(wc), est)
    ensures Decides(d.p, n.scheduled, s.Contents(), j, used, Gang, est, Next(wc), gang)
    ensures Decides(d.p, n.scheduled, s.Contents(), j, used, MutexSource, est, Next(wc), mutex)
    ensures Decides(d.p, n.scheduled, s.Contents(), j, used, Successor, est, Inf, succ)
    ensures high == if Reached(gang, est) || Reached(mutex, est) || Reached(succ, est) then None
                    else Some(MinB(seqHigh, MinB(gang, MinB(mutex, succ))))
  {
    hide ValidProblem;
    ghost var v := s.Contents();
    gang := MinB(Next(wc), Rival(d.p, n.scheduled, v, j, used, Gang));
    mutex := MinB(Next(wc), Rival(d.p, n.scheduled, v, j, used, MutexSource));
    succ := MinB(Inf, Rival(d.p, n.scheduled, v, j, used, Successor));
    high := None;
    SourcesBelow(d.p, n);
    var g := NextGangRival(d, n.scheduled, n.nextSource, s, j, used, est, Next(wc));
    gang := g;
    if Reached(g, est) {
      return;
    }
    var m := NextMutexRival(d, n.scheduled, n.nextSource, s, j, used, est, Next(wc));
    mutex := m;
    if Reached(m, est) {
      return;
    }
    var u := NextSuccessorRival(d.p, n.scheduled, n.ready, s, j, used, est);
    succ := u;
    if Reached(u, est) {
      return;
    }
    high := Some(MinB(seqHigh, MinB(g, MinB(m, u))));
  }

  lemma SourcesBelow(p: Problem, n: Node)
    requires n.Fixed(p)
    ensures forall k: nat :: Open(p, n.scheduled, {Sequential}, k) || Open(p, n.scheduled, {Gang}, k) || Open(p,
        n.scheduled, {MutexSource}, k) ==>
              LeB(n.nextSource, Fin(KeyOf(p, ByLatest, k)))
  {
    forall k: nat | Open(p, n.scheduled, {Sequential, Gang, MutexSource}, k)
      ensures LeB(n.nextSource, Fin(KeyOf(p, ByLatest, k)))
    {
      NextSourceBelow(p, n.scheduled, k);
    }
  }

  /** The choice is right about level `level` of `j`. */
  ghost predicate RightChoice(p: Problem, scheduled: set<nat>, v: View, j: nat, level: nat, choice: Choice)
    requires ValidProblem(p) && |v.cores| == p.m && p.IsJob(j) && level < |p.jobs[j].levels|
  {
    match choice
    case SkipRest => forall higher: nat :: level <= higher ==> !Dispatchable(p, scheduled, v, j, higher)
    case SkipLevel => !Dispatchable(p, scheduled, v, j, level)
    case Dispatch(start, finish) =>
      && Dispatchable(p, scheduled, v, j, level)
      && start == StartInterval(p, scheduled, v, j, level)
      && finish == FinishInterval(p, scheduled, v, j, level)
  }

  lemma SkipRestRight(p: Problem, scheduled: set<nat>, v: View, j: nat, rt: Interval, wc: Bound, window: Bound,
                      seqHigh: Bound, level: nat)
    requires Considered(p, scheduled, v, j, rt, wc, window, seqHigh)
    requires level < |p.jobs[j].levels| && 1 <= p.jobs[j].levels[level].cores <= p.m
    requires var at := v.cores[p.jobs[j].levels[level].cores - 1].min; !LeB(Fin(at), wc) || Reached(seqHigh, at)
    ensures RightChoice(p, scheduled, v, j, level, SkipRest)
  {
    forall higher: nat | level <= higher
      ensures !Dispatchable(p, scheduled, v, j, higher)
    {
      RestRuledOut(p, scheduled, v, j, rt, wc, window, seqHigh, level, higher);
    }
  }

  /** What follows from the searches: no dispatch at this level, or one within these intervals. */
  function Conclusion(est: int, latest: int, wc: Bound, high: Option<Bound>, avail: Bound, cost: Interval): Choice {
    if high.None? || Reached(avail, est) then SkipLevel
    else
      var lst := Cap(latest, MinB(wc, Prev(MinB(high.value, avail))));
      Dispatch(Interval(est, lst), Interval(est + cost.min, lst + cost.max))
  }

  lemma ConclusionRight(p: Problem, scheduled: set<nat>, v: View, j: nat, level: nat, rt: Interval, wc: Bound,
                        window: Bound,
                        seqHigh: Bound, gang: Bound, mutex: Bound, succ: Bound, est: int, high: Option<Bound>)
    requires Considered(p, scheduled, v, j, rt, wc, window, seqHigh) && MayStart(p, v.lowest, j, rt, wc, seqHigh)
    requires level < |p.jobs[j].levels| && 1 <= p.jobs[j].levels[level].cores <= p.m
    requires est == Max(rt.min, v.cores[p.jobs[j].levels[level].cores - 1].min) && LeB(Fin(est), wc)
        && !Reached(seqHigh, est)
    requires var used := p.jobs[j].levels[level].cores;
             && Decides(p, scheduled, v, j, used, Gang, est, Next(wc), gang)
             && Decides(p, scheduled, v, j, used, MutexSource, est, Next(wc), mutex)
             && Decides(p, scheduled, v, j, used, Successor, est, Inf, succ)
    requires high == if Reached(gang, est) || Reached(mutex, est) || Reached(succ, est) then None
                     else Some(MinB(seqHigh, MinB(gang, MinB(mutex, succ))))
    ensures RightChoice(p, scheduled, v, j, level,
                        Conclusion(est, Max(rt.max, v.cores[p.jobs[j].levels[level].cores - 1].max), wc, high,
                                   ParallelismBound(p, v, j, level), p.jobs[j].levels[level].cost))
  {
    hide ValidProblem;
    assert est == EarliestStart(p, v, j, level);
    SearchesDecide(p, scheduled, v, j, level, rt, wc, window, seqHigh, gang, mutex, succ, est);
  }

  /** Decide about one level of `j` in state `s`. */
  method DecideLevel(d: Data, n: Node, s: ScheduleState, j: nat, level: nat, rt: Interval, wc: Bound,
                     ghost window: Bound, seqHigh: Bound)
      returns (choice: Choice)
    requires ValidData(d) && n.Fixed(d.p) && s.Valid()
    requires Considered(d.p, n.scheduled, s.Contents(), j, rt, wc, window, seqHigh) && level < |d.p.jobs[j].levels|
    requires MayStart(d.p, s.Contents().lowest, j, rt, wc, seqHigh)
    ensures RightChoice(d.p, n.scheduled, s.Contents(), j, level, choice)
  {
    hide Dispatchable, MayStart, WorkConservingBound, Rival, ReadyTimes, PriorTo, ScheduleState.Valid, Node.Fixed,
        RightChoice;
    LevelOnPlatform(d.p, j, level);
    var used := d.p.jobs[j].levels[level].cores;
    var at := s.cores.Availability(used);
    if !LeB(Fin(at.min), wc) || Reached(seqHigh, at.min) {
      SkipRestRight(d.p, n.scheduled, s.Contents(), j, rt, wc, window, seqHigh, level);
      return SkipRest;
    }
    choice := DecideStart(d, n, s, j, level, used, at, rt, wc, window, seqHigh);
  }

  lemma StartFacts(p: Problem, scheduled: set<nat>, v: View, j: nat, rt: Interval, wc: Bound, window: Bound,
                   seqHigh: Bound, at: int)
    requires Considered(p, scheduled, v, j, rt, wc, window, seqHigh) && MayStart(p, v.lowest, j, rt, wc, seqHigh)
    requires LeB(Fin(at), wc) && !Reached(seqHigh, at)
    ensures LeB(Fin(Max(rt.min, at)), wc) && !Reached(Next(wc), Max(rt.min, at)) && !Reached(seqHigh, Max(rt.min, at))
    ensures |v.cores| == p.m && p.IsJob(j)
    ensures (forall q :: q in v.starts ==> q in scheduled) && (forall q :: q in v.finishes ==> q in scheduled)
  {
  }

  /** Decide about a level whose cores may be available in time. */
  method DecideStart(d: Data, n: Node, s: ScheduleState, j: nat, level: nat, used: nat, at: Interval, rt: Interval,
                     wc: Bound,
                     ghost window: Bound, seqHigh: Bound) returns (choice: Choice)
    requires ValidData(d) && n.Fixed(d.p) && s.Valid()
    requires Considered(d.p, n.scheduled, s.Contents(), j, rt, wc, window, seqHigh) && level < |d.p.jobs[j].levels|
    requires MayStart(d.p, s.Contents().lowest, j, rt, wc, seqHigh)
    requires used == d.p.jobs[j].levels[level].cores && 1 <= used <= d.p.m && at == s.Contents().cores[used - 1]
    requires LeB(Fin(at.min), wc) && !Reached(seqHigh, at.min)
    ensures RightChoice(d.p, n.scheduled, s.Contents(), j, level, choice)
  {
    hide Dispatchable, Considered, MayStart, ScheduleState.Valid, Node.Fixed, RightChoice, Decides, Conclusion;
    var est := Max(rt.min, at.min);
    StartFacts(d.p, n.scheduled, s.Contents(), j, rt, wc, window, seqHigh, at.min);
    var high, gang, mutex, succ := HigherPriority(d, n, s, j, used, est, wc, seqHigh);
    var avail := NextLevelAvailable(d.p, s, j, level);
    choice := Conclusion(est, Max(rt.max, at.max), wc, high, avail, d.p.jobs[j].levels[level].cost);
    ConclusionRight(d.p, n.scheduled, s.Contents(), j, level, rt, wc, window, seqHigh, gang, mutex, succ, est, high);
  }

  // ---- The window of interest of a node ----

  /** No state of the node is left waiting beyond the window. */
  lemma WindowHolds(p: Problem, scheduled: set<nat>, v: View, a: Summary, window: Bound)
    requires ValidProblem(p) && StateInvariant(p, scheduled, v) && a.Bounds(v)
    requires window == MaxB(Fin(a.aMax),
        MinB(a.successor, MinB(NextKey(p, scheduled, ByLatest, {Sequential}), MinB(a.gang, a.mutex))))
    ensures LeB(WorkConservingBound(p, scheduled, v), window)
  {
    SequentialRelease(p, scheduled, v);
    assert Maxs(v.cores)[0] <= Maxs(v.cores)[|v.cores| - 1];
  }

  /** A dispatchable job arrives within the window, and before any sequential rival is certainly released. */
  lemma ArrivesInTime(p: Problem, scheduled: set<nat>, v: View, j: nat, window: Bound, level: nat)
    requires ValidProblem(p) && StateInvariant(p, scheduled, v) && LeB(WorkConservingBound(p, scheduled, v), window)
    requires Dispatchable(p, scheduled, v, j, level)
    ensures LeB(Fin(p.jobs[j].arrival.min), window)
    ensures !Reached(Rival(p, scheduled, v, j, p.jobs[j].levels[level].cores, Sequential), p.jobs[j].arrival.min)
  {
    ReadyTimesOk(p, v, j);
    assert p.jobs[j].arrival.min <= EarliestStart(p, v, j, level);
  }

  /** A job that arrives after the window, or after some job of higher priority is certainly released, is
      not the next one dispatched. */
  lemma OutsideWindow(p: Problem, scheduled: set<nat>, v: View, j: nat, window: Bound, seqHigh: Bound, level: nat)
    requires ValidProblem(p) && StateInvariant(p, scheduled, v) && p.IsJob(j)
        && LeB(WorkConservingBound(p, scheduled, v), window)
    requires || !LeB(Fin(p.jobs[j].arrival.min), window)
             || (Reached(seqHigh, p.jobs[j].arrival.min) &&
                   forall used: nat :: seqHigh == MinB(Next(window), Rival(p, scheduled, v, j, used, Sequential)))
    ensures !Dispatchable(p, scheduled, v, j, level)
  {
    if Dispatchable(p, scheduled, v, j, level) {
      ArrivesInTime(p, scheduled, v, j, window, level);
    }
  }
}
