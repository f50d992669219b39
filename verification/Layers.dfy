// What holds of every state of the exploration, and what a layer of nodes covers.
module Layers {
  import opened Times
  import opened Jobs
  import opened Workload
  import opened Scheduler
  import opened CoreAvailability
  import opened RunningJobs
  import opened JobTiming
  import opened PendingSuccessors
  import opened ReadyJobs
  import opened Abstraction
  import opened NextDispatch
  import opened StepCoverage
  import opened PriorityPruning
  import opened SpaceData
  import opened NextState
  import opened DispatchTrackers
  import opened ScheduleStates
  import opened InitialStates
  import opened Runs
  import opened Exactness

  // ---- Where states come from ----

  /** How a state has come about: it is the first one, or results from a dispatch in a state, or merges two states. */
  datatype Derivation =
    | First
    | Extended(before: Derivation, from: View, job: nat, level: nat, ready: seq<nat>)
    | Joined(left: Derivation, a: View, right: Derivation, b: View, conservative: bool)

  /** `j` can be dispatched in a state, and `ready` is the ready list after that. */
  ghost predicate CanExtend(p: Problem, scheduled: set<nat>, s: View, j: nat, level: nat, ready: seq<nat>) {
    && DispatchReady(p, scheduled, s, j, level) && ReadyExact(p, scheduled + {j}, ready)
    && p.jobs[j].levels[level].cores <= |s.cores| && FreedCores(s.running, p.cons[j]) <= |s.cores|
  }

  /** The state that results. */
  ghost function Extension(p: Problem, scheduled: set<nat>, s: View, j: nat, level: nat, ready: seq<nat>): View
    requires CanExtend(p, scheduled, s, j, level, ready)
  {
    NextView(p, scheduled + {j}, ready, s, j, StartInterval(p, scheduled, s, j, level),
        FinishInterval(p, scheduled, s, j, level),
             p.jobs[j].levels[level].cores)
  }

  ghost predicate Derives(p: Problem, platform: seq<Interval>, d: Derivation, scheduled: set<nat>, v: View) {
    match d
    case First => ValidProblem(p) && scheduled == {} && v == InitialView(p, platform)
    case Extended(before, from, job, level, ready) =>
      && job in scheduled && Derives(p, platform, before, scheduled - {job}, from)
      && CanExtend(p, scheduled - {job}, from, job, level, ready)
      && v == Extension(p, scheduled - {job}, from, job, level, ready)
    case Joined(left, a, right, b, conservative) =>
      && Derives(p, platform, left, scheduled, a) && Derives(p, platform, right, scheduled, b)
      && Mergeable(a.cores, b.cores, conservative) && Mergeables(p, a, b)
      && v == Merged(p, a, b)
  }

  ghost predicate Derivable(p: Problem, platform: seq<Interval>, scheduled: set<nat>, v: View) {
    exists d :: Derives(p, platform, d, scheduled, v)
  }

  // ---- Invariants of states ----

  ghost predicate Sound(p: Problem, platform: seq<Interval>, scheduled: set<nat>, v: View) {
    && StateInvariant(p, scheduled, v)
    && Derivable(p, platform, scheduled, v)
    && (SequentialJobs(p) ==> Undisturbed(v))
    && (Uniprocessor(p) ==> CoreExact(p, platform, scheduled, v.cores))
  }

  lemma InitialSound(p: Problem, platform: seq<Interval>)
    requires ValidProblem(p) && ValidPlatform(p, platform)
    ensures Sound(p, platform, {}, InitialView(p, platform))
  {
    hide Problem.IsJob, Realisable;
    InitialPlatform(platform);
    assert Derives(p, platform, First, {}, InitialView(p, platform));
    if SequentialJobs(p) {
      LeastKeyExact(p, {}, ByLatest, {Gang}, |p.jobs|);
      LeastKeyExact(p, {}, ByLatest, {MutexSource}, |p.jobs|);
      forall k: nat | p.IsJob(k)
        ensures Cat(p, k) == Sequential
      {
        AllSequential(p, k);
      }
    }
    if Uniprocessor(p) {
      InitialExact(p, platform);
    }
  }

  lemma NextUndisturbed(p: Problem, later: set<nat>, ready: seq<nat>, v: View)
    requires ValidProblem(p) && |v.cores| == p.m && SequentialJobs(p) && ReadyExact(p, later, ready)
    ensures Undisturbed(Concluded(p, later, ready, v))
  {
    NoOtherKinds(p, later, v, Successor);
    NoOtherKinds(p, later, v, Gang);
    NoOtherKinds(p, later, v, MutexSource);
    assert forall i :: 0 <= i < |ready| ==> ready[i] in ready;
    forall k: nat | p.IsJob(k)
      ensures k !in ready
    {
      assert Independent(p, k);
    }
  }

  lemma NextExact(p: Problem, platform: seq<Interval>, scheduled: set<nat>, s: View, j: nat, level: nat, v: View)
    requires Uniprocessor(p) && DispatchReady(p, scheduled, s, j, level) && CoreExact(p, platform, scheduled, s.cores)
    requires FreedCores(s.running, p.cons[j]) <= |s.cores|
    requires v.cores == Dispatched(s.cores, StartInterval(p, scheduled, s, j, level),
        FinishInterval(p, scheduled, s, j, level),
                                   1, FreedCores(s.running, p.cons[j]))
    ensures CoreExact(p, platform, scheduled + {j}, v.cores)
  {
    assert level == 0;
    var finish := FinishInterval(p, scheduled, s, j, 0);
    DispatchIntervalsOk(p, scheduled, s, j, 0);
    DispatchedOnOneCore(s.cores, StartInterval(p, scheduled, s, j, 0), finish, FreedCores(s.running, p.cons[j]));
    forall f | finish.Has(f)
      ensures Realisable(p, platform, scheduled + {j}, f)
    {
      var sc, r := FinishRealised(p, platform, scheduled, s, j, f);
    }
  }

  lemma NextDerivable(p: Problem, platform: seq<Interval>, scheduled: set<nat>, s: View, j: nat, level: nat,
                      ready: seq<nat>)
    requires CanExtend(p, scheduled, s, j, level, ready) && Derivable(p, platform, scheduled, s) && j !in scheduled
    ensures Derivable(p, platform, scheduled + {j}, Extension(p, scheduled, s, j, level, ready))
  {
    hide CanExtend, Extension;
    var d :| Derives(p, platform, d, scheduled, s);
    assert scheduled + {j} - {j} == scheduled;
    assert Derives(p, platform, Extended(d, s, j, level, ready), scheduled + {j},
        Extension(p, scheduled, s, j, level, ready));
  }

  lemma MergedDerivable(p: Problem, platform: seq<Interval>, scheduled: set<nat>, a: View, b: View, conservative: bool)
    requires Derivable(p, platform, scheduled, a) && Derivable(p, platform, scheduled, b)
    requires Mergeable(a.cores, b.cores, conservative) && Mergeables(p, a, b)
    ensures Derivable(p, platform, scheduled, Merged(p, a, b))
  {
    hide Merged, Mergeable;
    var d, e :| Derives(p, platform, d, scheduled, a) && Derives(p, platform, e, scheduled, b);
    assert Derives(p, platform, Joined(d, a, e, b, conservative), scheduled, Merged(p, a, b));
  }

  /** The state after a dispatch meets all invariants again. */
  lemma NextSound(p: Problem, platform: seq<Interval>, scheduled: set<nat>, s: View, j: nat, level: nat,
                  ready: seq<nat>)
    requires DispatchReady(p, scheduled, s, j, level) && Sound(p, platform, scheduled, s)
    requires ReadyExact(p, scheduled + {j}, ready)
    ensures p.jobs[j].levels[level].cores <= |s.cores| && FreedCores(s.running, p.cons[j]) <= |s.cores|
    ensures Sound(p, platform, scheduled + {j},
                  NextView(p, scheduled + {j}, ready, s, j, StartInterval(p, scheduled, s, j, level),
                           FinishInterval(p, scheduled, s, j, level), p.jobs[j].levels[level].cores))
  {
    TimedInvariant(p, scheduled, s, j, level);
    var v := Timed(p, scheduled + {j}, s, j, StartInterval(p, scheduled, s, j, level),
                   FinishInterval(p, scheduled, s, j, level), p.jobs[j].levels[level].cores);
    ConcludedInvariant(p, scheduled + {j}, v, ready);
    NextDerivable(p, platform, scheduled, s, j, level, ready);
    if SequentialJobs(p) {
      NextUndisturbed(p, scheduled + {j}, ready, v);
    }
    if Uniprocessor(p) {
      NextExact(p, platform, scheduled, s, j, level, v);
    }
  }

  /** So does the merge of two overlapping states. */
  lemma MergedSound(p: Problem, platform: seq<Interval>, scheduled: set<nat>, a: View, b: View, conservative: bool)
    requires Sound(p, platform, scheduled, a) && Sound(p, platform, scheduled, b)
    requires Mergeable(a.cores, b.cores, conservative)
    ensures Mergeables(p, a, b) && Sound(p, platform, scheduled, Merged(p, a, b))
  {
    hide Derivable, CoreExact, Mergeable;
    MergedInvariant(p, scheduled, a, b);
    MergedDerivable(p, platform, scheduled, a, b, conservative);
    if Uniprocessor(p) {
      WidenedExact(p, platform, scheduled, a.cores, b.cores, conservative);
    }
  }

  // ---- What a list of states covers ----

  ghost predicate ViewsCover(p: Problem, sc: Scenario, views: seq<View>, c: Config) {
    exists i :: 0 <= i < |views| && Covers(p, sc, views[i], c)
  }

  /** Every configuration that `a` covers, `b` covers as well. */
  ghost predicate Subsumes(p: Problem, b: seq<View>, a: seq<View>) {
    forall sc: Scenario, c: Config :: ViewsCover(p, sc, a, c) ==> ViewsCover(p, sc, b, c)
  }

  ghost predicate AllSound(p: Problem, platform: seq<Interval>, scheduled: set<nat>, views: seq<View>) {
    forall i :: 0 <= i < |views| ==> Sound(p, platform, scheduled, views[i])
  }

  lemma MergeCovers(p: Problem, scheduled: set<nat>, a: View, b: View, sc: Scenario, c: Config)
    requires StateInvariant(p, scheduled, a) && StateInvariant(p, scheduled, b)
    requires Covers(p, sc, a, c) || Covers(p, sc, b, c)
    ensures Covers(p, sc, Merged(p, a, b), c)
  {
    assert a.starts.Keys == b.starts.Keys && a.finishes.Keys == b.finishes.Keys;
    MergedCovers(p, sc, a, b, c);
  }

  /** Merging a state into the list loses neither. */
  lemma MergeInto(p: Problem, scheduled: set<nat>, views: seq<View>, k: nat, v: View)
    requires k < |views| && StateInvariant(p, scheduled, views[k]) && StateInvariant(p, scheduled, v)
    ensures var w := views[k := Merged(p, views[k], v)]; Subsumes(p, w, views) && Subsumes(p, w, [v])
  {
    var w := views[k := Merged(p, views[k], v)];
    forall sc: Scenario, c: Config | ViewsCover(p, sc, views, c) || ViewsCover(p, sc, [v], c)
      ensures ViewsCover(p, sc, w, c)
    {
      if Covers(p, sc, views[k], c) || Covers(p, sc, v, c) {
        MergeCovers(p, scheduled, views[k], v, sc, c);
        assert Covers(p, sc, w[k], c);
      } else {
        var i :| 0 <= i < |views| && Covers(p, sc, views[i], c);
        assert Covers(p, sc, w[i], c);
      }
    }
  }

  function Without<T>(s: seq<T>, i: nat): (r: seq<T>)
    requires i < |s|
    ensures |r| == |s| - 1 && forall x :: x in r ==> x in s
  {
    s[..i] + s[i + 1..]
  }

  /** A state that another one has absorbed can be erased. */
  lemma EraseAbsorbed(p: Problem, views: seq<View>, k: nat, i: nat)
    requires k < i < |views| && Subsumes(p, [views[k]], [views[i]])
    ensures Subsumes(p, Without(views, i), views)
  {
    var w := Without(views, i);
    forall sc: Scenario, c: Config | ViewsCover(p, sc, views, c)
      ensures ViewsCover(p, sc, w, c)
    {
      var l :| 0 <= l < |views| && Covers(p, sc, views[l], c);
      if l == i {
        assert ViewsCover(p, sc, [views[i]], c) by {
          assert Covers(p, sc, [views[i]][0], c);
        }
        assert ViewsCover(p, sc, [views[k]], c);
        assert Covers(p, sc, w[k], c);
      } else {
        assert w[if l < i then l else l - 1] == views[l];
      }
    }
  }

  lemma AddedCovers(p: Problem, views: seq<View>, v: View)
    ensures Subsumes(p, views + [v], views) && Subsumes(p, views + [v], [v])
  {
    var w := views + [v];
    forall sc: Scenario, c: Config | ViewsCover(p, sc, views, c) || ViewsCover(p, sc, [v], c)
      ensures ViewsCover(p, sc, w, c)
    {
      if Covers(p, sc, v, c) {
        assert Covers(p, sc, w[|views|], c);
      } else {
        var i :| 0 <= i < |views| && Covers(p, sc, views[i], c);
        assert Covers(p, sc, w[i], c);
      }
    }
  }
}
