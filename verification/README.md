# Verified model of the schedule-abstraction-graph engine

The engine decides whether a finite set of non-preemptive, possibly moldable gang jobs meets its deadlines under a
work-conserving fixed-priority scheduler on `m` identical cores. It does not enumerate runs. It explores abstract
states, layer by layer: a state records when each core becomes available, which jobs certainly run, and intervals for
the start and finish times that still matter; the states in which the same jobs have been dispatched form a node. A
dispatch constructs the next state, overlapping states are merged, and the finish interval of every dispatch widens
the reported completion times of its job.

This project models that engine and proves that its verdict can be trusted.

**Main result.** `Analysis.Analyse` runs the whole exploration, loop by loop, over the classes that model the
engine's objects. If it answers "schedulable" for a problem and platform that meet `Analysable`, then every run of
the concrete scheduler meets every deadline, every job finishes within its reported completion times, and every run
can be continued until all jobs have been dispatched. For independent jobs on one core, also for jobs that may take no
time, the answer is "schedulable" if and only if all runs meet all deadlines, for every merge option, and the
completion times reported with a positive answer are attained.

**The concrete side** (`Scheduler`, `Runs`). A configuration holds the free time and last owner of every core, the
time of the last dispatch, and the start and finish times of the dispatched jobs. A scenario fixes what the
environment decides: release times and delays. `Legal` says which decisions a work-conserving priority scheduler may
take next. A job runs on as many of its possible numbers of cores as are free when it starts.

**The abstraction** (`Abstraction`, `NextDispatch`, `NextState`). `View` is what a state records and `Covers` when it
covers a configuration. The formulas of the exploration are functions on views: `ReadyTimes`, `Dispatchable`,
`StartInterval`, `FinishInterval`, `NextView`, `Merged`. Step coverage, coverage of merges, and the state invariant
are proved about them.

**How tight it is** (`Tightness` and the lemmas called `...Exact`). Safety alone would allow bounds that are too wide.
Each bound of a dispatch, each recorded interval, the overlap of states and the scan of the ready list are therefore
characterised in both directions by what the state records.

**The engine** (all other modules). Trackers, states, nodes, the node store and the state space are classes with the
loops of the source; their contracts tie them to those functions. `Derivable` says where a state comes from: it is
the initial one, or follows from a dispatch or a merge. `Sound` collects what holds of every explored state.

**Preconditions of safety** (`Analysable`):
- `SourcesFit`: by the least latest arrival of the gang jobs without predecessors some job without predecessors
  arrives and finds its cores available, and likewise for the exclusion-constrained ones. This is exactly when the
  initial state covers all initial configurations (`InitialStates.InitialViewExact`); without it the verdict can be
  positive although a run misses a deadline (`UnsafeVerdicts.VerdictCanBeUnsafe`);
- `CostsSafe`: no level of a job has minimum cost zero unless its last level has. This is exactly when the cost
  summary is right (`Jobs.BestCostExact`);
- `ExclusionsSafe`: on several cores, no two single-core successor jobs wait for the completion of the same job, and
  for no delay beyond it, if one of them does so because of an exclusion constraint. Without it a state that the
  exploration derives can exclude the decision that a run takes next (`PrunedRuns.ExclusionsCanMislead`). Whether two
  such jobs are ever counted together depends on the states that are reached, not on the problem alone, so this
  condition is sufficient and no converse is claimed;
- `SimpleStartEdges`: at most one start-to-start edge between two jobs.

Where code and documentation differ, the model follows the code:
- the search of the start-time tracker looks for equality and loses entries behind an unknown job; no reachable state
  is affected (`ScheduleStates.ScansExact`);
- the check for cycles in the precedence graph compares sizes that are always equal (`Precedence.AssignRanks`).

README.md:17 of the repository describes the uniprocessor analysis as exact in the absence of precedence constraints.
Exactness is proved for all jobs without precedence and exclusion constraints. With exclusion constraints it fails:
merging forgets which of two jobs ran first, and on the input of `InexactExclusions.ExclusionsNotExact` a derivable
state shows a deadline miss that no run exhibits.

Times are integers, possibly negative; infinity is a separate value. Lookup keys are natural numbers combined by a
bitwise exclusive or. The 64-bit words of index sets are natural numbers below two to the power of 64.

## Model

| member | source | states |
|---|---|---|
| `Analysis.Analyse` | include/global/space.hpp:72-162 | a positive verdict means that every job of every run meets its deadline and finishes within its reported completion times, and that every run can be continued until all jobs have been dispatched; unless the exploration stops early at a miss, a reported time is always the bound of a dispatch some derivable state allows, and a negative verdict without a depth limit stems from a derivable state that may miss a deadline; on one core with independent jobs the verdict is positive if and only if all runs meet all deadlines, and the reported times are then the best and worst case over all runs |
| `Exploration.StateSpace.Explore` | include/global/space.hpp:995-1117 | unless the exploration aborts it reaches depth `num_jobs`, and if no miss was observed every dispatch of every run finishes within the reported times and, while jobs remain, every run has a next step; it aborts only for the depth limit, on early exit after a miss, or when jobs are not sequential and independent |
| `Verdicts.SafeVerdict` | include/global/space.hpp:137-162 | once all dispatches of all runs lie within the reported completion times, these contain every finish time, and if they meet the deadlines so does every run, whatever its length |
| `Verdicts.LayerAdvances` | include/global/space.hpp:1009-1106 | if a layer covers every run after `n` dispatches and all its states have been explored, the next layer covers every run after `n + 1` dispatches and those finish within the reported times |
| `Verdicts.RunGoesOn` | include/global/space.hpp:971-978 | a run whose configuration is covered by a layer without dead ends has a next step while jobs remain, whether or not ranks rise along the precedence constraints |
| `Verdicts.CompleteRun` | include/global/space.hpp:971-978 | if no run gets stuck while jobs remain, every run is the beginning of one that has dispatched all jobs |
| `Verdicts.ExploredStep` | include/global/space.hpp:745-848 | whatever the scheduler does next in a configuration covered by an explored state, it finishes within the reported completion times and leads to a configuration that the next layer covers |
| `Verdicts.MissIsReal` | README.md:17 | with independent jobs on one core, every kind of miss the exploration can observe (late finish, job waiting beyond its deadline, dead end) is a miss in some legal run |
| `Verdicts.AttainedExact` | README.md:17 | with independent jobs on one core, both ends of every reported completion interval are finish times of legal runs |
| `Analysis.ExactCompletion` | README.md:17 | with independent jobs on one core, completion times that contain all finish times and are attained exist for every job and are its best and worst case |
| `Exactness.InitialExact` | include/global/state.hpp:112-120 | on one core every time within the initial availability interval is realised by a legal start in which all jobs are released as late as possible |
| `Exactness.StartRealised` | include/global/space.hpp:762-813 | on one core every time between the computed earliest and latest start of a dispatch is the start of that job in some legal run, with every execution time, zero included; and a run that leaves the core free at that finish can be one after which all other jobs may still be released at their latest |
| `Exactness.FinishRealised` | include/global/space.hpp:762-813 | the same for every time between the computed earliest and latest finish |
| `Exactness.DispatchGroup` | include/global/space.hpp:762-813 | jobs that take no time and are ready when the core becomes free can all be dispatched at that instant if no other job comes first |
| `Exactness.WidenedExact` | include/global/trackers/core_availability_tracker.hpp:228-286 | merging two overlapping core intervals adds no time that is not realised: exactness survives every merge level |
| `Exactness.NoDeadEnd` | include/global/space.hpp:748-819 | while sequential independent jobs remain, every state allows some job to be dispatched |
| `Verdicts.NeverStuck` | include/global/space.hpp:971-978 | the dead-end branch is never taken for sequential independent jobs |
| `Verdicts.WaitingMisses` | include/global/space.hpp:555-601 | on one core, a job that still waits when the core is deemed busy beyond its deadline misses it in some run |
| `InexactExclusions.AllInTime` | README.md:17 | four jobs on one core, two of which keep a distance from a third: every run meets every deadline |
| `InexactExclusions.MissDeemedPossible` | include/global/state.hpp:559-580 | the merge of the two orders of those jobs is derivable and leads to a state in which a job waits beyond its deadline |
| `InexactExclusions.ExclusionsNotExact` | README.md:17 | so that a miss the analysis deems possible on one core, without precedence constraints, need not be real |
| `Exploration.StateSpace.ExploreNode` | include/global/space.hpp:887-979 | afterwards every dispatch that the formulas allow in any state of the node has been handled, unless a miss was observed; everything established before stays established |
| `Exploration.StateSpace.ExploreSources` | include/global/space.hpp:911-940 | the window and the search for released jobs of higher priority skip no source job that can be dispatched; the result says whether one was |
| `Exploration.StateSpace.ExploreReady` | include/global/space.hpp:943-969 | the same for the jobs of the ready list |
| `Exploration.StateSpace.DispatchJob` | include/global/space.hpp:733-882 | every dispatch of the job in every state is handled, unless a miss has been observed; without any, the job can be dispatched in no state of the node; on early exit, a dispatch is checked for skipped jobs that miss their deadlines |
| `Exploration.StateSpace.DispatchLevels` | include/global/space.hpp:767-870 | every level at which the job can be dispatched in the state is handled, unless a miss has been observed, including the levels behind an early `break` |
| `Exploration.StateSpace.Perform` | include/global/space.hpp:818-848 | one dispatch: its finish times are reported, and the next layer covers what the state it leads to covers |
| `Exploration.StateSpace.UpdateFinishTimes` | include/global/space.hpp:620-659 | reported completion times only widen, contain the new range, stay attained by possible dispatches unless the exploration stops at a miss, and a miss is noted, and the exploration aborted on early exit, exactly when the new latest finish exceeds the deadline |
| `Exploration.StateSpace.FindMiss` | include/global/space.hpp:555-576 | a job found by sampling has not been dispatched and its cores are available only after its deadline; if none is found, all jobs with a deadline from the sampled time on have been dispatched, up to one whose cores are available in time or to the last |
| `Exploration.StateSpace.CheckDeadlineMisses` | include/global/space.hpp:555-601 | a flag is raised only for a derivable state in which some job waits beyond its deadline, and only on early exit are finish times reported for it; otherwise nothing changes, and the scanned jobs are known not to be skipped |
| `Exploration.StateSpace.NextNode` | include/global/space.hpp:825-840 | the node reached has exactly one more dispatched job; unless the exploration is naive, no two nodes of the layer have the same dispatched jobs, and a node is added only if none has those of the node reached |
| `Exploration.NewOrMergeState` | include/global/space.hpp:472-503 | the node then covers everything its old states and the new state cover; the new state is appended exactly if no state overlaps it, and otherwise merged within the budget |
| `Exploration.StateSpace.InitialNode` | include/global/space.hpp:984-991 | the first node holds exactly the initial state and meets all invariants |
| `Exploration.StateSpace.Shift` | include/global/space.hpp:1100-1106 | clearing the index and the slot of the explored layer makes the next layer current, leaves its nodes untouched and the following slot empty |
| `Decisions.WorkConserving` | include/global/space.hpp:676-690 | the bound computed from the node's and the state's cached times equals the brute-force one: the first core's latest availability and the least time by which some undispatched job of any kind can certainly start |
| `Decisions.WindowHolds` | include/global/space.hpp:894-904 | the node-level window bounds the work-conserving bound of every state of the node |
| `Decisions.OutsideWindow` | include/global/space.hpp:911-931 | a job that arrives outside the window, or after a job of higher priority is certainly released, can be dispatched at no level of any state |
| `Decisions.DecideLevel` | include/global/space.hpp:770-813 | the guards skip a level only if no dispatch is possible there (or, for `break`, at any higher level), and otherwise yield exactly the start and finish intervals of the formulas |
| `Decisions.SearchesDecide` | include/global/space.hpp:783-805 | early-exit search results decide dispatchability, and give the same latest start as the exact minima over all undispatched jobs of higher priority |
| `Decisions.CutOff` | include/global/space.hpp:783-805 | cutting the searches off just beyond the work-conserving bound never changes the latest start |
| `NextState.StepCovered` | include/global/space.hpp:745-848 | step coverage: from a covered configuration, any legal next decision is dispatchable in the state, starts and finishes within its intervals, and the constructed state covers the resulting configuration and meets the state invariant |
| `StepCoverage.LegalIsDispatchable` | include/global/space.hpp:745-848 | no guard of the dispatch skips a decision that the work-conserving priority scheduler may take, and its start and finish lie in the computed intervals |
| `StepCoverage.ByWorkConservingBound` | include/global/space.hpp:760-764 | the next dispatch happens no later than the work-conserving bound |
| `StepCoverage.BeforePriorityBound` | include/global/space.hpp:783-793 | a job is dispatched only before any job of higher priority is certainly ready with enough cores |
| `StepCoverage.ByLatestReady` | include/global/space.hpp:804-805 | the next dispatch of the job happens no later than the later of its latest ready time and the latest availability of its cores |
| `StepCoverage.BeforeParallelismBound` | include/global/space.hpp:796-799 | a job is dispatched on a level only before the cores of the next level are certainly available |
| `Tightness.StartIntervalExact` | include/global/space.hpp:762-805 | the start interval holds exactly the times from which the job may be ready and have its cores, until which it or its cores may be late, and which neither the work-conserving, nor the priority, nor the parallelism bound excludes |
| `Tightness.FinishIntervalExact` | include/global/space.hpp:807-813 | the finish interval holds exactly the sums of a start and an execution time |
| `Tightness.DispatchableExact` | include/global/space.hpp:745-805 | a job can be dispatched at a level if and only if it may be the next one, priority pruning does not exclude it, and some start time is allowed |
| `Tightness.ParallelismExact` | include/global/space.hpp:796-799 | the parallelism bound is reached if and only if there is a next level and every covered configuration has its cores free |
| `Tightness.PriorityExact` | include/global/space.hpp:783-793 | the priority bound is reached if and only if some job of higher priority, of any kind, certainly takes precedence |
| `Tightness.WorkConservingExact` | include/global/space.hpp:676-690 | after a dispatch, the work-conserving bound is the last time until which no core need be free, or no job need be ready with its cores |
| `Tightness.ReadyTimesExact` | include/global/state_space_data.hpp:222-286 | the ready times are the first time by which everything recorded may be over, and the first time by which it certainly is |
| `NextDispatch.DispatchIntervalsOk` | include/global/space.hpp:780-813 | start and finish intervals of a possible dispatch are never inverted |
| `NextDispatch.NextRivalExact` | include/global/state_space_data.hpp:534-750 | the formula for the next certain rival of a category is the least over all undispatched jobs of higher priority in it |
| `NextState.TimedCovers` | include/global/state.hpp:272-304 | cores, running jobs, start and finish times after a dispatch cover the configuration after it |
| `NextState.ConcludedCovers` | include/global/state.hpp:301-304 | what the new state concludes about certain dispatch times and the next job's priority holds in every configuration it covers |
| `NextState.TimedInvariant` | include/global/state.hpp:272-304 | the state after a dispatch is well formed: sorted cores, conserved cores, exactly the pending jobs recorded, no inverted interval |
| `NextState.MergedCovers` | include/global/state.hpp:559-580 | a merged state covers whatever either of the two states covers |
| `NextState.MergedInvariant` | include/global/state.hpp:559-580 | merging two states of a node keeps the state invariant |
| `NextState.TighteningNeverInverts` | include/global/trackers/finish_times_tracker.hpp:50-75 | tightened start and finish bounds never fall below the recorded minimum |
| `Tightness.FinishTimesTight` | include/global/trackers/finish_times_tracker.hpp:50-85 | after a dispatch the latest finish time of another job is what was recorded, cut to the latest start less the least delay, or on one core to the latest start; the earliest one stays |
| `Tightness.StartTimesTight` | include/global/trackers/start_times_tracker.hpp:35-79 | the same for latest start times |
| `Tightness.MergedExact` | include/global/state.hpp:559-580 | a merge reaches a certain dispatch time when both states do, knows a lowest job exactly if both do, and records the hulls of all times |
| `InitialStates.InitialViewExact` | include/global/state.hpp:112-120 | the initial state covers every initial configuration of every scenario if and only if, for gang jobs and for exclusion-constrained jobs without predecessors, some job without predecessors arrives and finds its cores available by their least latest arrival |
| `InitialStates.InitialViewCovers` | include/global/state.hpp:112-120 | the sufficient half, for one configuration |
| `Layers.NextSound` | include/global/state.hpp:272-304 | every invariant of explored states, including exactness on one core, passes to the state after a dispatch |
| `Layers.MergedSound` | include/global/state.hpp:534-580 | the same for the merge of two overlapping states |
| `Misleading.InitialStateCanMislead` | include/global/state.hpp:112-114 | one core free at 0, one at 5, and a job on two cores: the initial state claims the job can start at 0 and does not cover the initial configuration |
| `UnsafeVerdicts.DerivedExpected` | include/global/space.hpp:745-848 | two cores available at 0 and 5, an urgent job on one core released between 0 and 10, and a job on both cores: in every derivable state the urgent job has been dispatched at 0 before the other one |
| `UnsafeVerdicts.UrgentFinishesLate` | include/global/state.hpp:112-114 | a legal run of that problem releases the urgent job at 10 and misses its deadline |
| `UnsafeVerdicts.VerdictCanBeUnsafe` | include/global/space.hpp:137-162 | the analysis calls that problem schedulable, for all merge options |
| `Abstraction.ReadyTimesEarliest` | include/global/state_space_data.hpp:222-286 | a job is never ready before its computed earliest ready time |
| `Abstraction.ReadyTimesLatest` | include/global/state_space_data.hpp:222-286 | at its computed latest ready time a job is ready, and every time the computation looks up is recorded |
| `Abstraction.ReadyTimesOk` | include/global/state_space_data.hpp:222-286 | earliest and latest ready time are ordered |
| `Searches.ReadyInterval` | include/global/state_space_data.hpp:222-286 | the loops over the constraint lists compute these ready times |
| `LatestReady.CertainlyFinishedSound` | include/global/state_space_data.hpp:297-327 | a job deemed certainly finished has finished when the lower-priority job starts while a core is free |
| `Searches.CheckFinished` | include/global/state_space_data.hpp:297-327 | the check inspects cores and successors and decides exactly that predicate |
| `LatestReady.ConditionalLatestReadySound` | include/global/state_space_data.hpp:379-511 | if the lower-priority job is dispatched at `t`, no earlier than the computed bound, then the higher-priority job is ready with enough cores at `t`, although shared constraints and those with certainly finished jobs are skipped |
| `LatestReady.ConditionalLatestReadyArrival` | include/global/state_space_data.hpp:379-511 | the bound is never before the latest arrival, which is what lets ordered searches stop early |
| `Searches.LatestReadyIf` | include/global/state_space_data.hpp:379-511 | the loops compute the conditional latest ready time, which the next row characterises |
| `Tightness.ConditionalLatestReadyExact` | include/global/state_space_data.hpp:379-511 | it is the first time by which the job is released, has its cores, and every recorded constraint is over or has passed: it imposes no delay and the job it refers to has certainly finished, or the job about to be dispatched waits for as long after that job |
| `Searches.NextSequentialRival` | include/global/state_space_data.hpp:534-565 | the ordered scan returns the least latest release of an undispatched sequential job of higher priority, cut off at the given bound |
| `Searches.NextGangRival` | include/global/state_space_data.hpp:586-637 | the early-exit scan returns the brute-force least time among independent gang jobs of higher priority when that exceeds the lower bound, and otherwise a value not above the lower bound |
| `Searches.NextMutexRival` | include/global/state_space_data.hpp:717-750 | the same for source jobs with exclusion constraints |
| `Searches.NextSuccessorRival` | include/global/state_space_data.hpp:659-710 | the same for the jobs of the ready list |
| `SpaceData.Build` | include/global/state_space_data.hpp:102-165 | the ordered lists hold exactly the jobs of their kinds, by nondecreasing key |
| `SpaceData.LowerBound` | include/global/state_space_data.hpp:757-775 | the first position whose key is not below the given one |
| `SpaceData.EarliestRelease` | include/global/state_space_data.hpp:757-840 | a scan that starts at the previous release finds the least key over all undispatched jobs of the kind |
| `CoreAvailability.DispatchCovers` | include/global/trackers/core_availability_tracker.hpp:119-217 | if the vector covers the free times before a dispatch, the updated one covers them after it, also when finished predecessors free more cores than the job uses |
| `CoreAvailability.DispatchedWellFormed` | include/global/trackers/core_availability_tracker.hpp:119-217 | both components of the updated vector are sorted and no interval is inverted |
| `CoreAvailability.CoreAvailabilityTracker.Update` | include/global/trackers/core_availability_tracker.hpp:119-217 | the in-place insertion into the two buffers yields exactly that vector |
| `CoreAvailability.CoreAvailabilityTracker.Merge` | include/global/trackers/core_availability_tracker.hpp:228-236 | every entry widens to the hull of the two |
| `CoreAvailability.WidenedCovers` | include/global/trackers/core_availability_tracker.hpp:228-236 | the merged vector is sorted and covers what either vector covers |
| `CoreAvailability.CoreAvailabilityTracker.OverlapWith` | include/global/trackers/core_availability_tracker.hpp:247-286 | the comparison decides the predicate that the next row characterises, and whether this vector contains the other one |
| `CoreAvailability.MergeableExact` | include/global/trackers/core_availability_tracker.hpp:228-286 | for any number of cores: vectors are merged if and only if that adds no time for any core or, conservatively, if and only if one of them is the merge |
| `CoreAvailability.CoreAvailabilityTracker.FromIntervals` | include/global/trackers/core_availability_tracker.hpp:316-335 | the vector is well formed, and its earliest and its latest times are those of the given intervals, each as often as it occurs there, although the two are sorted separately |
| `CoreAvailability.InitialCovers` | include/global/trackers/core_availability_tracker.hpp:316-335 | sorting them separately still covers every initial platform state |
| `CoreAvailability.AvailableBy` | include/global/trackers/core_availability_tracker.hpp:82-88 | `p` cores are free at the latest availability of the p-th core |
| `CoreAvailability.AvailableFrom` | include/global/trackers/core_availability_tracker.hpp:82-88 | `p` cores are not all free before the earliest availability of the p-th core |
| `RunningJobs.RunningJobsTracker.UpdateAndCountPredecessors` | include/global/trackers/running_jobs_tracker.hpp:77-119 | the list stays sorted by job, keeps exactly the jobs that may outlast the latest start and are not predecessors, and the count is the cores of running predecessors |
| `RunningJobs.RunningUpdateCovers` | include/global/trackers/running_jobs_tracker.hpp:77-119 | every job recorded after a dispatch really occupies at least its cores until it finishes |
| `RunningJobs.FreedCoresAreFree` | include/global/trackers/running_jobs_tracker.hpp:77-119 | the cores counted as freed are free when the dispatched job starts |
| `RunningJobs.DispatchConserves` | include/global/trackers/running_jobs_tracker.hpp:77-119 | core conservation: for every threshold, the cores of jobs that certainly run beyond it never exceed the cores deemed busy, before and after a dispatch |
| `RunningJobs.FreedFits` | include/global/trackers/core_availability_tracker.hpp:161-168 | hence the number of freed cores never exceeds the number of cores |
| `RunningJobs.SurvivorsOf` | include/global/trackers/running_jobs_tracker.hpp:77-119 | exactly the jobs that need not be finished and finish after the latest start stay in the list |
| `RunningJobs.FreedCoresExact` | include/global/trackers/running_jobs_tracker.hpp:77-119 | jobs are counted as freed one by one, with all their cores if they must be finished and else not at all |
| `RunningJobs.RunningJobsTracker.Merge` | include/global/trackers/running_jobs_tracker.hpp:129-155 | the two-pointer merge keeps the jobs that run in both, widened |
| `RunningJobs.CommonCovers` | include/global/trackers/running_jobs_tracker.hpp:129-155 | what it keeps is true of a configuration covered by either list |
| `RunningJobs.CommonKeeps` | include/global/trackers/running_jobs_tracker.hpp:129-155 | every job that runs in both is kept, on the fewest and the most cores, with the hull of its finish times |
| `RunningJobs.MergeConserves` | include/global/trackers/running_jobs_tracker.hpp:129-155 | merging keeps core conservation |
| `JobTiming.JobTimingTracker.Find` | include/global/trackers/job_timing_tracker.hpp:119-133 | binary search: the first position not below the job |
| `JobTiming.JobTimingTracker.Get` | include/global/trackers/job_timing_tracker.hpp:60-72 | the recorded interval, or none exactly when the job is not recorded |
| `JobTiming.JobTimingTracker.UpdateFinishTimes` | include/global/trackers/finish_times_tracker.hpp:31-85 | the co-moving scan computes the list that the next row characterises |
| `JobTiming.ScanFinishesExact` | include/global/trackers/finish_times_tracker.hpp:31-85 | the scan yields a sorted list of exactly the pending jobs that are known or just dispatched, each with its tightened interval |
| `JobTiming.JobTimingTracker.UpdateStartTimes` | include/global/trackers/start_times_tracker.hpp:35-79 | the scan of the start-time tracker, which looks for equality and may run to the end |
| `JobTiming.ScanStartsExact` | include/global/trackers/start_times_tracker.hpp:35-79 | it records everything it should if and only if no known pending job comes after an unknown one |
| `JobTiming.ScanStartsCanLose` | include/global/trackers/start_times_tracker.hpp:35-79 | an input on which it loses a recorded job |
| `ScheduleStates.ScansExact` | include/global/state.hpp:292-299 | in every reachable state that condition holds: the trackers record exactly the jobs with pending successors or exclusion partners |
| `JobTiming.JobTimingTracker.Merge` | include/global/trackers/job_timing_tracker.hpp:79-85 | the in-place two-pointer widening computes the list of the next row |
| `JobTiming.WidenListsExact` | include/global/trackers/job_timing_tracker.hpp:183-205 | every recorded interval widens to the hull with what the other tracker records for the same job, and no job is added or dropped |
| `JobTiming.JobTimingTracker.OverlapWith` | include/global/trackers/job_timing_tracker.hpp:139-180 | the two-pointer comparison, with its early exits |
| `JobTiming.CompatibleExact` | include/global/trackers/job_timing_tracker.hpp:139-180 | the comparison of two sorted lists succeeds exactly when the intervals of every job that both record overlap or, between the same jobs and when merging conservatively, when all intervals of one side contain those of the other |
| `PendingSuccessors.PendingSuccessorsTracker.CheckLive` | include/global/trackers/pending_successors_tracker.hpp:117-146 | whether a dispatched job still has an undispatched successor or exclusion partner of the kind |
| `PendingSuccessors.LiveExact` | include/global/trackers/pending_successors_tracker.hpp:117-146 | a dispatched job is pending if and only if some undispatched job waits for it or is kept apart from it |
| `PendingSuccessors.PendingSuccessorsTracker.UpdatePendingList` | include/global/trackers/pending_successors_tracker.hpp:158-224 | the sorted merge yields a strictly increasing list of the old jobs that are still pending and the newly pending ones |
| `PendingSuccessors.UpdatedListExact` | include/global/trackers/pending_successors_tracker.hpp:158-224 | if the list was exact before a dispatch, it is exact after it |
| `ReadyJobs.ReadyJobsTracker.Update` | include/global/trackers/ready_jobs_tracker.hpp:55-153 | the three-way merge keeps the priority order and lists a job as often as before, plus once per edge from the dispatched job that makes it ready |
| `ReadyJobs.UpdatedReadyExact` | include/global/trackers/ready_jobs_tracker.hpp:55-153 | on every path the list holds, in priority order, exactly the undispatched jobs that have predecessors, all of them dispatched |
| `ReadyJobs.ReadyDuplicates` | include/global/trackers/ready_jobs_tracker.hpp:55-153 | it stays duplicate-free if and only if the dispatched job leads to each job that becomes ready by a single edge |
| `ReadyJobs.ReadyJobsTracker.IsReady` | include/global/trackers/ready_jobs_tracker.hpp:172-195 | all predecessors of the job have been dispatched |
| `DispatchTrackers.CertainDispatchTimes.UpdateGang` | include/global/trackers/certain_dispatch_times_tracker.hpp:160-185 | the ordered scan with early break yields the least certain start time over all undispatched independent gang jobs |
| `DispatchTrackers.CertainDispatchTimes.UpdateMutex` | include/global/trackers/certain_dispatch_times_tracker.hpp:199-249 | the same over undispatched source jobs with exclusion constraints |
| `DispatchTrackers.CertainDispatchTimes.UpdateSuccessor` | include/global/trackers/certain_dispatch_times_tracker.hpp:267-358 | the same over the ready list |
| `DispatchTrackers.FindLowest` | include/global/trackers/priority_tracker.hpp:99-247 | the scan of the ready list with its counters computes the result whose safety and completeness the next rows state |
| `PriorityPruning.LowestNextSound` | include/global/trackers/priority_tracker.hpp:99-247 | priority pruning is safe: in every covered configuration, whenever a core is free some single-core job of at least the priority of the result can be started; so no job of lower priority is dispatched next |
| `PriorityPruning.LowestNextFound` | include/global/trackers/priority_tracker.hpp:99-247 | completeness: if the list holds as many single-core jobs as there are cores whose dispatched predecessors and exclusion partners impose no delay and lead to no other job, each of them held up by one of these, then the result is a job of at least the priority of the last of them |
| `PriorityPruning.ReadyJobFound` | include/global/trackers/priority_tracker.hpp:99-247 | a single-core job of the list that is released, and whose constraints are all over, before the first core is available makes the scan stop there at the latest |
| `PriorityPruning.GroupStartable` | include/global/trackers/priority_tracker.hpp:190-240 | the pigeonhole argument: as many candidates as cores, no two waiting for the same job, cannot all be blocked while a core is free |
| `PriorityPruning.CertainlyReadySound` | include/global/state.hpp:459-485 | a job deemed certainly ready can be started whenever a core is free |
| `PriorityPruning.RepeatsStayShared` | include/global/trackers/ready_jobs_tracker.hpp:55-153 | a job listed twice shares a recorded predecessor, so that it is never counted twice |
| `PrunedRuns.ExclusionsCanMislead` | include/global/trackers/priority_tracker.hpp:99-247 | two jobs that share an exclusion partner are both counted in a state that the exploration derives and that covers the cores and times of a run: it excludes, at every level, the dispatch with which the run legally goes on |
| `ScheduleStates.ScheduleState.Start` | include/global/state.hpp:112-120 | the initial state: idle platform intervals, nothing recorded, certain times from the first releases |
| `ScheduleStates.ScheduleState.AfterDispatch` | include/global/state.hpp:148-200 | the new state records exactly what the value-level next state does, and owns fresh trackers |
| `ScheduleStates.ScheduleState.CanMergeWith` | include/global/state.hpp:507-527 | decides the overlap of states that the next row characterises |
| `ScheduleStates.OverlapExact` | include/global/state.hpp:507-527 | states overlap if and only if merging them leaves no gap for any core and, when times count, for any recorded time; conservatively, if and only if the merge is the one of them whose cores contain those of the other |
| `ScheduleStates.ScheduleState.TryToMerge` | include/global/state.hpp:534-552 | exactly when the states overlap this one becomes the merge of both; otherwise nothing changes |
| `Nodes.Node.AfterDispatch` | include/global/node.hpp:284-312 | the new node's ready list, pending lists, lookup key and next releases are exact for its set of dispatched jobs |
| `Nodes.Node.NextReleases` | include/global/node.hpp:296-310 | searching from the parent's cached releases yields the true minima over the undispatched jobs |
| `Nodes.Node.KeyAfter` | include/global/node.hpp:432-440 | the key of the next node is the exclusive or over its dispatched jobs |
| `Nodes.Node.AddState` | include/global/node.hpp:459-467 | the state is appended, and the aggregated first and last availability and certain times become the extremes over the previous ones and those of the new state; they bound every state |
| `Nodes.Node.MergeStates` | include/global/node.hpp:571-630 | the inserted state is merged into the first state that overlaps it, and that one with later ones, one by one, as long as the budget lasts (one merge when merging conservatively); the result counts the merges and is zero exactly if no state overlaps; nothing covered before is lost |
| `Nodes.SweptNone` | include/global/node.hpp:601-620 | with budget left, later states are left alone exactly if none of them overlaps with the merged one |
| `Nodes.SweptCanLeaveOverlap` | include/global/node.hpp:601-620 | three states of which the last is merged into the first, which then overlaps with the second: a state passed over before is not tried again |
| `Nodes.SweptWithin` | include/global/node.hpp:601-620 | no more states are merged than the budget allows |
| `Nodes.Node.MergeOtherState` | include/global/node.hpp:590-625 | a later state that overlaps is absorbed and erased, and only then |
| `StatesManagers.LiveSlots` | include/global/states_manager.hpp:129-133 | as many consecutive depths as the ring has slots never share one |
| `StatesManagers.StatesManager.NewNode` | include/global/states_manager.hpp:79-91 | the node is stored at its depth and findable by its key; other depths are unaffected |
| `StatesManagers.StatesManager.FindNode` | include/global/states_manager.hpp:170-183 | looking nodes up by key and comparing their sets word by word returns a node with exactly the given dispatched set at that depth, and none only if there is none |
| `IndexSets.HoldsDecides` | include/index_set.hpp:82-85 | vectors that additions yield for two sets are equal if and only if the sets are |
| `StatesManagers.StatesManager.ClearCacheAtDepth` | include/global/states_manager.hpp:209-213 | only the index of that depth is emptied |
| `StatesManagers.StatesManager.ClearStorageAtDepth` | include/global/states_manager.hpp:219-223 | only the nodes of that depth are dropped |
| `SpaceData.XorAdd` | include/global/node.hpp:432-440 | dispatching one more job changes the key of a set by that job's key, so the key does not depend on the order of dispatches |
| `Jobs.BestCostExact` | include/jobs.hpp:139-155 | the best-case cost is the least minimum cost if and only if no level is free of cost or the last one is |
| `Jobs.SummarizeCosts` | include/jobs.hpp:139-155 | the constructor's loop computes the scan characterised by the previous row, and the greatest maximum cost |
| `Jobs.BestCostCanBeWrong` | include/jobs.hpp:139-155 | a cost map on which the best-case cost is too large |
| `Workload.MinDelayInExact` | include/inter_job_constraints.hpp:116-121 | the least minimum delay over all entries for a job, and -1 exactly when there is none |
| `Scheduler.StepConsistent` | README.md:3 | a step of the non-preemptive work-conserving priority scheduler keeps configurations consistent: cores are busy until their jobs finish, precedence is respected, nothing startable was passed over |
| `Runs.Progress` | README.md:3 | as long as jobs remain, and ranks rise from predecessors to successors, the scheduler has a next step: no run gets stuck |
| `IndexSets.EqualIffSame` | include/index_set.hpp:82-85 | canonicity: for word vectors without trailing zero words, equality of the vectors is equality of the sets |
| `IndexSets.InsertionOrder` | include/index_set.hpp:131-136 | vectors built by any two sequences of additions are equal if and only if they hold the same indices |
| `IndexSets.IndexSet.With` | include/index_set.hpp:28-34 | the clone holds the indices of the set and the new one, and is canonical if the set was |
| `IndexSets.IndexSet.WithAll` | include/index_set.hpp:37-43 | the clone holds both sets of indices, and stays canonical if and only if not both are empty |
| `IndexSets.IndexSet.Set` | include/index_set.hpp:46-52 | the same in place; a set that becomes a clone of itself keeps only the new index |
| `IndexSets.IndexSet.SetAll` | include/index_set.hpp:55-62 | the same for a set of indices; a set that becomes a clone of itself is canonical if and only if there are indices to add |
| `IndexSets.IndexSet.Difference` | include/index_set.hpp:65-71 | holds the indices of `a` that are not in `b`, except those beyond the words of `b`, which are dropped |
| `IndexSets.IndexSet.Add` | include/index_set.hpp:131-136 | exactly one index is added, and canonicity is kept |
| `IndexSets.IndexSet.Includes` | include/index_set.hpp:100-106 | true exactly when all listed indices are in the set |
| `IndexSets.IndexSet.IsSubsetOf` | include/index_set.hpp:108-119 | the word-by-word comparison decides set inclusion, also between vectors of different length |
| `IndexSets.EmptyCloneDiffers` | include/index_set.hpp:37-43 | the empty set and its clone with no indices hold the same indices but are not equal |
| `Precedence.BuildGraph` | include/precedence.hpp:207-255 | the first edge with reversed delays is reported; otherwise both adjacency lists record every edge as often as it occurs |
| `Precedence.GetDescendants` | include/precedence.hpp:285-300 | the stack search finds exactly the jobs that one or more edges lead to |
| `Precedence.GetAncestors` | include/precedence.hpp:261-276 | exactly the jobs from which edges lead to the given one |
| `Precedence.Converse` | include/precedence.hpp:261-300 | reachability along successors and along predecessors are converse |
| `Precedence.GetJobsRanks` | include/precedence.hpp:308-339 | Kahn's algorithm ends on every graph with an entry per job; the ranks rise along all edges if and only if the graph is acyclic, and then each rank is the number of jobs on the longest path to the job |
| `Precedence.AssignRanks` | include/problem_builder.hpp:71-82 | the number of ranks always equals the number of jobs, so that comparing the two reports no cycle, while the ranks rise along the edges if and only if there is none |
| `Precedence.CycleUnnoticed` | include/problem_builder.hpp:71-79 | a graph with a cycle, along whose edges no ranks rise |
| `Precedence.RanksOfProblem` | include/problem_builder.hpp:71-83 | ranks assigned from the graph of a problem rise from predecessors to successors |
| `ConditionalDispatch.BuildSiblings` | include/conditional_dispatch_constraints.hpp:82-105 | a job that follows a fork gets the successors of the last such fork as siblings, any other job only itself |
| `ConditionalDispatch.ConditionalDispatchConstraints.constructor` | include/conditional_dispatch_constraints.hpp:28-36 | if every job follows at most one fork, the incompatible jobs of a job are exactly its siblings and their descendants without its own descendants, and those with pending successors are exactly the ones that are excluded with some job or awaited by a descendant |
| `ConditionalDispatch.FindAllIncompatibleJobs` | include/conditional_dispatch_constraints.hpp:107-160 | the computation, all siblings at once and skipping jobs already done, finds exactly those sets |
| `ConditionalDispatch.RulesOutItself` | include/conditional_dispatch_constraints.hpp:107-160 | a job is incompatible with itself unless it has siblings and lies on a cycle; on an acyclic graph it is never incompatible with what follows it |
| `ConditionalDispatch.AlternativesExclude` | include/conditional_dispatch_constraints.hpp:107-160 | two siblings are incompatible both ways if and only if neither follows the other |

## Left out

- Abort actions: without them the finish interval is the start interval plus the cost.
- Conditional forks and joins in the exploration: every node has one more dispatched job than its parent. The sets of
  incompatible jobs are modelled on their own in `ConditionalDispatch`.
- Pruning, the extension registry and (m,k)-firm analysis, parallel exploration, locks, object pools, statistics,
  logging, time-outs and memory limits. Of the reasons to abort, early exit and the depth limit are modelled.
- Parsing of input files, configuration and the command line.
- Dense time and machine overflow: times are mathematical integers.
- CheckDeadlineMisses: on early exit the source also adds a node and a state that explain the miss; they are not
  produced here, since the exploration ends there.
- MergeStates: the loop over the states is written as two loops, one up to the first state that overlaps and one
  behind it; in between, the source's single loop only tests a flag.
- CoreAvailabilityTracker.Update: the core availability tracker fills its two buffers in one loop in the source and in two loops here; the
  buffers do not interact.
- IndexSets: clearing single bits, which no caller of the source asks for, is not modelled. Nodes of the exploration
  hold their dispatched jobs as the words by which they are looked up and, for membership, as a mathematical set.
- ConditionalDispatchConstraints: siblings share one list object in the source and have equal lists here; nothing is
  claimed about jobs that follow several forks.
- BuildGraph: the references of an edge are indices of existing jobs, as the lookup in the constructor of edges
  ensures.
- The initial values of a node's first and last core availability: they are overwritten by the first state added.
- LowestNextSound: `ExclusionsSafe` is sufficient for the scan of the ready list; the exact condition depends on the
  states that are reached.
