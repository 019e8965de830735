/** The job scheduler: a bounded map of running jobs and one polling cleanup task per job (src/agent/scheduler.rs). */
module Scheduler {
  import opened Wrappers

  type JobId = nat
  type Handle = nat

  /** The cleanup task of a handle: spawned after the insert, then it reads and removes in two lock sections. */
  datatype Phase = Unspawned | Polling | Removing

  datatype Cleanup = Cleanup(job: JobId, phase: Phase)

  datatype JobState = Pending | InProgress | Completed | Submitted | Accepted | Failed | Stuck | Cancelled

  /** The moves between job states that src/context/state.rs allows. */
  predicate CanMove(from: JobState, to: JobState) {
    match from
    case Pending => to.InProgress? || to.Cancelled?
    case InProgress => to.Completed? || to.Failed? || to.Stuck? || to.Cancelled?
    case Completed => to.Submitted? || to.Failed?
    case Submitted => to.Accepted? || to.Failed?
    case Stuck => to.InProgress? || to.Failed? || to.Cancelled?
    case _ => false
  }

  type CallId = nat

  /**
   * `workers` gives the job of every handle ever made; `finished` holds the handles whose worker is done, `stopping`
   * those taken out by a stop, whose worker was told to abort and runs until its next await; `marked` those whose
   * worker has marked its job stuck. `due` holds the calls that are about to schedule a job: they created it, or
   * recovered it.
   */
  datatype Sys = Sys(
    jobs: map<JobId, Handle>,
    finished: set<Handle>,
    cleanups: map<Handle, Cleanup>,
    workers: map<Handle, JobId>,
    stopping: set<Handle>,
    marked: set<Handle>,
    states: map<JobId, JobState>,
    due: map<CallId, JobId>)

  datatype ScheduleError = MaxJobsExceeded | TransitionFailed

  datatype Step =
    | Dispatch(call: CallId, job: JobId)             // `dispatch_job` creates a job and goes on to schedule it
    | Help(call: CallId, job: JobId)                 // `handle_help_job` recovers a stuck job and goes on to schedule it
    | CallerSchedule(call: CallId, handle: Handle)   // the second step of either
    | Schedule(job: JobId, handle: Handle)           // the public `schedule`, called directly
    | MarkStuck(handle: Handle)                      // by the running worker itself, which returns after it
    | JobMoves(job: JobId, to: JobState)             // any other move, by a worker, a user or a repair
    | SpawnCleanup(handle: Handle)
    | WorkerFinish(handle: Handle)
    | CleanupRead(handle: Handle)
    | CleanupRemove(handle: Handle)
    | Stop(job: JobId)
    | CleanupFinished

  /** The states after a move, if there is such a job and it may move so. */
  function Moved(states: map<JobId, JobState>, job: JobId, to: JobState): map<JobId, JobState> {
    if job in states && CanMove(states[job], to) then states[job := to] else states
  }

  function ScheduleResult(s: Sys, job: JobId, max: nat): Result<(), ScheduleError> {
    if job in s.jobs then Ok(())
    else if |s.jobs| >= max then Err(MaxJobsExceeded)
    else if job !in s.states || !CanMove(s.states[job], InProgress) then Err(TransitionFailed)
    else Ok(())
  }

  /** What the polling read asks: no entry, or an entry whose worker is done. */
  predicate IsFinished(s: Sys, job: JobId) {
    job in s.jobs ==> s.jobs[job] in s.finished
  }

  /** Check, transition and insert under the write lock; handles are new. */
  function Scheduled(s: Sys, job: JobId, handle: Handle, max: nat): Sys {
    if job in s.jobs || ScheduleResult(s, job, max).Err? || handle in s.workers then s
    else s.(jobs := s.jobs[job := handle], cleanups := s.cleanups[handle := Cleanup(job, Unspawned)],
            workers := s.workers[handle := job], states := s.states[job := InProgress])
  }

  function Running(s: Sys): set<Handle> { s.workers.Keys - s.finished }

  /** A step that cannot happen leaves the state alone. */
  function Next(s: Sys, step: Step, max: nat): Sys {
    match step
    case Dispatch(call, job) =>
      if job in s.states || call in s.due then s
      else s.(states := s.states[job := Pending], due := s.due[call := job])
    case Help(call, job) =>
      if call in s.due || job !in s.states || !s.states[job].Stuck? then s
      else s.(states := s.states[job := InProgress], due := s.due[call := job])
    case CallerSchedule(call, handle) =>
      if call !in s.due || handle in s.workers then s
      else Scheduled(s, s.due[call], handle, max).(due := s.due - {call})
    case Schedule(job, handle) => Scheduled(s, job, handle, max)
    case MarkStuck(h) =>
      if h !in Running(s) || h in s.marked || s.workers[h] !in s.states || !CanMove(s.states[s.workers[h]], Stuck) then s
      else s.(states := s.states[s.workers[h] := Stuck], marked := s.marked + {h})
    case JobMoves(job, to) => if to.Stuck? then s else s.(states := Moved(s.states, job, to))
    case SpawnCleanup(h) =>
      if h in s.cleanups && s.cleanups[h].phase.Unspawned?
      then s.(cleanups := s.cleanups[h := s.cleanups[h].(phase := Polling)]) else s
    case WorkerFinish(h) => if h in s.workers then s.(finished := s.finished + {h}) else s
    case CleanupRead(h) =>
      if h in s.cleanups && s.cleanups[h].phase.Polling? && IsFinished(s, s.cleanups[h].job)
      then s.(cleanups := s.cleanups[h := s.cleanups[h].(phase := Removing)]) else s
    case CleanupRemove(h) =>
      if h in s.cleanups && s.cleanups[h].phase.Removing?
      then s.(jobs := s.jobs - {s.cleanups[h].job}, cleanups := s.cleanups - {h}) else s
    case Stop(job) =>
      if job in s.jobs
      then s.(jobs := s.jobs - {job}, stopping := s.stopping + {s.jobs[job]}, states := Moved(s.states, job, Cancelled))
      else s
    case CleanupFinished =>
      s.(jobs := map j | j in s.jobs && s.jobs[j] !in s.finished :: s.jobs[j])
  }

  function Init(): Sys { Sys(map[], {}, map[], map[], {}, {}, map[], map[]) }

  function Run(s: Sys, steps: seq<Step>, max: nat): Sys
    decreases |steps|
  {
    if steps == [] then s else Run(Next(s, steps[0], max), steps[1..], max)
  }

  /** The bound, and for each entry its own cleanup task, live or about to be spawned. */
  predicate Inv(s: Sys, max: nat) {
    && |s.jobs| <= max
    && (forall j :: j in s.jobs ==> s.jobs[j] in s.cleanups && s.cleanups[s.jobs[j]].job == j)
    && (forall h :: h in s.cleanups ==> h in s.workers)
  }

  lemma SubsetSize<K, V>(m: map<K, V>, n: map<K, V>)
    requires m.Keys <= n.Keys
    ensures |m| <= |n|
    decreases |n|
  {
    if k :| k in n {
      assert |n - {k}| == |n| - 1 by { assert (n - {k}).Keys == n.Keys - {k}; }
      if k in m {
        assert |m - {k}| == |m| - 1 by { assert (m - {k}).Keys == m.Keys - {k}; }
      } else {
        assert m - {k} == m;
      }
      SubsetSize(m - {k}, n - {k});
    } else {
      assert m.Keys == {} && m == map[];
    }
  }

  /** Every entry that stays keeps its cleanup task. */
  lemma ShrinkKeepsInv(s: Sys, s': Sys, max: nat)
    requires Inv(s, max)
    requires forall j :: j in s'.jobs ==> j in s.jobs && s'.jobs[j] == s.jobs[j]
    requires forall h :: h in s'.cleanups ==> h in s.cleanups && s'.cleanups[h].job == s.cleanups[h].job
    requires forall j :: j in s'.jobs ==> s'.jobs[j] in s'.cleanups
    requires s'.workers == s.workers
    ensures Inv(s', max)
  {
    SubsetSize(s'.jobs, s.jobs);
  }

  lemma ScheduleKeepsInv(s: Sys, job: JobId, handle: Handle, max: nat)
    requires Inv(s, max)
    ensures Inv(Scheduled(s, job, handle, max), max)
  {
    var s' := Scheduled(s, job, handle, max);
    if s' != s {
      assert s'.jobs.Keys == s.jobs.Keys + {job};
      assert |s'.jobs.Keys| == |s.jobs.Keys| + 1;
    }
  }

  /** The steps that touch no entry. */
  predicate IsQuiet(step: Step) {
    step.Dispatch? || step.Help? || step.MarkStuck? || step.JobMoves? || step.SpawnCleanup? || step.WorkerFinish?
    || step.CleanupRead?
  }

  lemma QuietKeepsInv(s: Sys, step: Step, max: nat)
    requires Inv(s, max) && IsQuiet(step)
    ensures Inv(Next(s, step, max), max)
  {
  }

  /** The steps that only take entries out. */
  predicate IsRemoval(step: Step) { step.Stop? || step.CleanupFinished? || step.CleanupRemove? }

  lemma RemoveKeepsInv(s: Sys, handle: Handle, max: nat)
    requires Inv(s, max) && handle in s.cleanups
    ensures Inv(s.(jobs := s.jobs - {s.cleanups[handle].job}, cleanups := s.cleanups - {handle}), max)
  {
    ShrinkKeepsInv(s, s.(jobs := s.jobs - {s.cleanups[handle].job}, cleanups := s.cleanups - {handle}), max);
  }

  /** Taking entries out touches no cleanup task. */
  lemma FewerJobsKeepInv(s: Sys, s': Sys, max: nat)
    requires Inv(s, max) && s'.cleanups == s.cleanups && s'.workers == s.workers
    requires forall j :: j in s'.jobs ==> j in s.jobs && s'.jobs[j] == s.jobs[j]
    ensures Inv(s', max)
  {
    ShrinkKeepsInv(s, s', max);
  }

  lemma RemovalKeepsInv(s: Sys, step: Step, max: nat)
    requires Inv(s, max) && IsRemoval(step)
    ensures Inv(Next(s, step, max), max)
  {
    if step.CleanupRemove? {
      if step.handle in s.cleanups {
        RemoveKeepsInv(s, step.handle, max);
      }
    } else {
      FewerJobsKeepInv(s, Next(s, step, max), max);
    }
  }

  lemma CallerKeepsInv(s: Sys, call: CallId, handle: Handle, max: nat)
    requires Inv(s, max)
    ensures Inv(Next(s, CallerSchedule(call, handle), max), max)
  {
    if call in s.due {
      ScheduleKeepsInv(s, s.due[call], handle, max);
    }
  }

  lemma StepKeepsInv(s: Sys, step: Step, max: nat)
    requires Inv(s, max)
    ensures Inv(Next(s, step, max), max)
  {
    if IsQuiet(step) {
      QuietKeepsInv(s, step, max);
    } else if IsRemoval(step) {
      RemovalKeepsInv(s, step, max);
    } else if step.Schedule? {
      ScheduleKeepsInv(s, step.job, step.handle, max);
    } else {
      CallerKeepsInv(s, step.call, step.handle, max);
    }
  }

  /** Every interleaving keeps the bound and every entry's own cleanup task. */
  lemma {:induction false} RunKeepsInv(s: Sys, steps: seq<Step>, max: nat)
    requires Inv(s, max)
    ensures Inv(Run(s, steps, max), max)
    decreases |steps|
  {
    if steps != [] {
      StepKeepsInv(s, steps[0], max);
      RunKeepsInv(Next(s, steps[0], max), steps[1..], max);
    }
  }

  /** A schedule changes nothing exactly when it is refused or the job is already there. */
  lemma FailedScheduleUnchanged(s: Sys, job: JobId, handle: Handle, max: nat)
    requires handle !in s.workers
    ensures Next(s, Schedule(job, handle), max) == s <==> ScheduleResult(s, job, max).Err? || job in s.jobs
  {
    var s' := Next(s, Schedule(job, handle), max);
    if job !in s.jobs && ScheduleResult(s, job, max).Ok? {
      assert job in s'.jobs;
    }
  }

  // ----- No slot is leaked -----

  function Rank(s: Sys, handle: Handle): nat {
    if handle !in s.cleanups then 0
    else match s.cleanups[handle].phase case Unspawned => 3 case Polling => 2 case Removing => 1
  }

  /** The cleanup task of this handle takes its next turn. */
  predicate OwnTurn(s: Sys, step: Step, handle: Handle) {
    && handle in s.cleanups
    && match s.cleanups[handle].phase
       case Unspawned => step == SpawnCleanup(handle)
       case Polling => step == CleanupRead(handle)
       case Removing => step == CleanupRemove(handle)
  }

  function OwnTurns(s: Sys, steps: seq<Step>, handle: Handle, max: nat): nat
    decreases |steps|
  {
    if steps == [] then 0
    else (if OwnTurn(s, steps[0], handle) then 1 else 0) + OwnTurns(Next(s, steps[0], max), steps[1..], handle, max)
  }

  predicate Holds(s: Sys, job: JobId, handle: Handle) { job in s.jobs && s.jobs[job] == handle }

  /** A handle never comes back to an entry it has left. */
  lemma NeverHeldAgain(s: Sys, step: Step, job: JobId, handle: Handle, max: nat)
    requires handle in s.workers
    ensures Holds(Next(s, step, max), job, handle) ==> Holds(s, job, handle)
  {
  }

  /** No step moves a cleanup task back. */
  lemma RankNeverRises(s: Sys, step: Step, handle: Handle, max: nat)
    requires handle in s.workers
    ensures Rank(Next(s, step, max), handle) <= Rank(s, handle)
  {
    if step.Schedule? {
      RankOfOthers(s, step.job, step.handle, handle, max);
    } else if step.CallerSchedule? {
      if step.call in s.due {
        RankOfOthers(s, s.due[step.call], step.handle, handle, max);
      }
    } else if step.SpawnCleanup? || step.CleanupRead? || step.CleanupRemove? {
      CleanupStepRank(s, step, handle, max);
    }
  }

  lemma RankOfOthers(s: Sys, job: JobId, other: Handle, handle: Handle, max: nat)
    requires handle in s.workers
    ensures Rank(Scheduled(s, job, other, max), handle) == Rank(s, handle)
  {
  }

  lemma CleanupStepRank(s: Sys, step: Step, handle: Handle, max: nat)
    requires step.SpawnCleanup? || step.CleanupRead? || step.CleanupRemove?
    ensures Rank(Next(s, step, max), handle) <= Rank(s, handle)
  {
  }

  lemma TurnAdvances(s: Sys, step: Step, job: JobId, handle: Handle, max: nat)
    requires Inv(s, max) && handle in s.finished && handle in s.workers
    ensures var s' := Next(s, step, max);
            && (Holds(s', job, handle) ==> Holds(s, job, handle))
            && Rank(s', handle) <= Rank(s, handle)
            && (Holds(s, job, handle) && OwnTurn(s, step, handle) ==> Rank(s', handle) < Rank(s, handle))
  {
    NeverHeldAgain(s, step, job, handle, max);
    RankNeverRises(s, step, handle, max);
    if Holds(s, job, handle) && OwnTurn(s, step, handle) {
      assert s.cleanups[handle].job == job && IsFinished(s, job);
      match s.cleanups[handle].phase
      case Unspawned => assert Rank(Next(s, step, max), handle) == 2;
      case Polling => assert Rank(Next(s, step, max), handle) == 1;
      case Removing => assert Rank(Next(s, step, max), handle) == 0;
    }
  }

  /**
   * Once a worker is done, three turns of its own cleanup task free the slot,
   * whatever every other task does before, between and after them.
   */
  lemma {:induction false} FinishedSlotIsFreed(s: Sys, steps: seq<Step>, job: JobId, handle: Handle, max: nat)
    requires Inv(s, max) && handle in s.finished && handle in s.workers
    requires OwnTurns(s, steps, handle, max) >= Rank(s, handle) || !Holds(s, job, handle)
    ensures !Holds(Run(s, steps, max), job, handle)
    decreases |steps|
  {
    if steps != [] {
      TurnAdvances(s, steps[0], job, handle, max);
      StepKeepsInv(s, steps[0], max);
      DoneStays(s, steps[0], handle, max);
      FinishedSlotIsFreed(Next(s, steps[0], max), steps[1..], job, handle, max);
    }
  }

  lemma DoneStays(s: Sys, step: Step, handle: Handle, max: nat)
    requires handle in s.finished && handle in s.workers
    ensures handle in Next(s, step, max).finished && handle in Next(s, step, max).workers
  {
  }

  // ----- Workers that run -----

  /** Each worker that still runs has its entry in the map. */
  predicate AllTracked(s: Sys) {
    forall h :: h in Running(s) ==> h in s.jobs.Values
  }

  /** Each worker that still runs has its entry or is being stopped. */
  predicate TrackedOrStopping(s: Sys) {
    forall h :: h in Running(s) ==> h in s.jobs.Values || h in s.stopping
  }

  /** A cleanup task removes by job id what it decided to remove before: here that entry is a newer, running one. */
  predicate EvictsLive(s: Sys, step: Step) {
    && step.CleanupRemove? && step.handle in s.cleanups && s.cleanups[step.handle].phase.Removing?
    && s.cleanups[step.handle].job in s.jobs
    && s.jobs[s.cleanups[step.handle].job] in Running(s)
  }

  /** A stop takes the entry of a worker out; the worker is aborted, but not yet done. */
  predicate StopsLive(s: Sys, step: Step) {
    step.Stop? && step.job in s.jobs && s.jobs[step.job] in Running(s)
  }

  predicate Injective(m: map<JobId, Handle>) {
    forall i, j :: i in m && j in m && i != j ==> m[i] != m[j]
  }

  /** An entry's handle is its own, was minted, and is not being stopped. */
  predicate OwnHandles(s: Sys) {
    && Injective(s.jobs)
    && s.stopping <= s.workers.Keys
    && forall j :: j in s.jobs ==> s.jobs[j] in s.workers && s.jobs[j] !in s.stopping
  }

  lemma ScheduleKeepsOwnHandles(s: Sys, job: JobId, handle: Handle, max: nat)
    requires OwnHandles(s)
    ensures OwnHandles(Scheduled(s, job, handle, max))
  {
  }

  lemma OthersKeepOwnHandles(s: Sys, step: Step, max: nat)
    requires OwnHandles(s) && (IsQuiet(step) || IsRemoval(step))
    ensures OwnHandles(Next(s, step, max))
  {
  }

  lemma StepKeepsOwnHandles(s: Sys, step: Step, max: nat)
    requires OwnHandles(s)
    ensures OwnHandles(Next(s, step, max))
  {
    if IsQuiet(step) || IsRemoval(step) {
      OthersKeepOwnHandles(s, step, max);
    } else if step.Schedule? {
      ScheduleKeepsOwnHandles(s, step.job, step.handle, max);
    } else if step.call in s.due {
      ScheduleKeepsOwnHandles(s, s.due[step.call], step.handle, max);
    }
  }

  /** An entry that no step takes out stays. */
  lemma EntryStays(s: Sys, step: Step, h: Handle, max: nat)
    requires OwnHandles(s) && h in s.jobs.Values && h in Running(Next(s, step, max))
    requires !EvictsLive(s, step) && !StopsLive(s, step)
    ensures h in Next(s, step, max).jobs.Values
  {
    var s' := Next(s, step, max);
    var j :| j in s.jobs && s.jobs[j] == h;
    assert h in Running(s);
    assert j in s'.jobs && s'.jobs[j] == h;
  }

  lemma NewWorkerTracked(s: Sys, step: Step, h: Handle, max: nat)
    requires h in Running(Next(s, step, max)) && h !in Running(s)
    ensures h in Next(s, step, max).jobs.Values
  {
    var s' := Next(s, step, max);
    assert s'.jobs[if step.Schedule? then step.job else s.due[step.call]] == h;
  }

  /** Of all steps exactly a stop and the eviction of a live entry leave a worker running without an entry. */
  lemma StepKeepsTracked(s: Sys, step: Step, max: nat)
    requires OwnHandles(s) && AllTracked(s)
    ensures AllTracked(Next(s, step, max)) <==> !EvictsLive(s, step) && !StopsLive(s, step)
  {
    var s' := Next(s, step, max);
    if EvictsLive(s, step) {
      var h := s.jobs[s.cleanups[step.handle].job];
      assert h in Running(s') && h !in s'.jobs.Values;
    } else if StopsLive(s, step) {
      var h := s.jobs[step.job];
      assert h in Running(s') && h !in s'.jobs.Values;
    } else {
      forall h | h in Running(s')
        ensures h in s'.jobs.Values
      {
        if h in Running(s) {
          EntryStays(s, step, h, max);
        } else {
          NewWorkerTracked(s, step, h, max);
        }
      }
    }
  }

  /** Stopped workers aside, exactly the eviction of a live entry does. */
  lemma StepKeepsTrackedOrStopping(s: Sys, step: Step, max: nat)
    requires OwnHandles(s) && TrackedOrStopping(s)
    ensures TrackedOrStopping(Next(s, step, max)) <==> !EvictsLive(s, step)
  {
    var s' := Next(s, step, max);
    if EvictsLive(s, step) {
      var h := s.jobs[s.cleanups[step.handle].job];
      assert h in Running(s') && h !in s'.jobs.Values && h !in s'.stopping;
    } else if StopsLive(s, step) {
      forall h | h in Running(s')
        ensures h in s'.jobs.Values || h in s'.stopping
      {
        assert h in Running(s);
        if h in s.jobs.Values && h != s.jobs[step.job] {
          var j :| j in s.jobs && s.jobs[j] == h;
          assert j in s'.jobs && s'.jobs[j] == h;
        }
      }
    } else {
      forall h | h in Running(s')
        ensures h in s'.jobs.Values || h in s'.stopping
      {
        if h !in Running(s) {
          NewWorkerTracked(s, step, h, max);
        } else if h in s.jobs.Values {
          EntryStays(s, step, h, max);
        }
      }
    }
  }

  /** No cleanup task evicts a live entry anywhere in the run. */
  predicate NoEviction(s: Sys, steps: seq<Step>, max: nat)
    decreases |steps|
  {
    steps == [] || (!EvictsLive(s, steps[0]) && NoEviction(Next(s, steps[0], max), steps[1..], max))
  }

  lemma {:induction false} RunKeepsTracked(s: Sys, steps: seq<Step>, max: nat)
    requires OwnHandles(s) && TrackedOrStopping(s) && NoEviction(s, steps, max)
    ensures OwnHandles(Run(s, steps, max)) && TrackedOrStopping(Run(s, steps, max))
    decreases |steps|
  {
    if steps != [] {
      StepKeepsOwnHandles(s, steps[0], max);
      StepKeepsTrackedOrStopping(s, steps[0], max);
      RunKeepsTracked(Next(s, steps[0], max), steps[1..], max);
    }
  }

  lemma ValuesSize(m: map<JobId, Handle>, s: set<Handle>)
    requires forall h :: h in s ==> h in m.Values
    ensures |s| <= |m|
    decreases |s|
  {
    if h :| h in s {
      var j :| j in m && m[j] == h;
      var m' := m - {j};
      assert m'.Keys == m.Keys - {j};
      forall g | g in s - {h}
        ensures g in m'.Values
      {
        var i :| i in m && m[i] == g;
        assert i in m' && m'[i] == g;
      }
      ValuesSize(m', s - {h});
    }
  }

  /** Then no more workers run than the limit and those being stopped. */
  lemma RunningIsBounded(steps: seq<Step>, max: nat)
    requires NoEviction(Init(), steps, max)
    ensures var s := Run(Init(), steps, max);
            && |Running(s) - s.stopping| <= max
            && |Running(s)| <= max + |Running(s) * s.stopping|
  {
    RunKeepsTracked(Init(), steps, max);
    RunKeepsInv(Init(), steps, max);
    var s := Run(Init(), steps, max);
    ValuesSize(s.jobs, Running(s) - s.stopping);
    assert Running(s) == (Running(s) - s.stopping) + (Running(s) * s.stopping);
  }

  // ----- The class: each method is one lock section -----

  class Scheduler {
    var jobs: map<JobId, Handle>
    var finished: set<Handle>
    var cleanups: map<Handle, Cleanup>
    var workers: map<Handle, JobId>
    var stopping: set<Handle>
    var marked: set<Handle>
    var states: map<JobId, JobState>
    var due: map<CallId, JobId>
    const maxParallelJobs: nat

    function View(): Sys
      reads this
    {
      Sys(jobs, finished, cleanups, workers, stopping, marked, states, due)
    }

    constructor (maxParallelJobs: nat)
      ensures View() == Init() && this.maxParallelJobs == maxParallelJobs && Inv(View(), maxParallelJobs)
    {
      jobs, finished, cleanups, workers := map[], {}, map[], map[];
      stopping, marked, states, due := {}, {}, map[], map[];
      this.maxParallelJobs := maxParallelJobs;
    }

    /** Check, transition and insert under one write lock. */
    method ScheduleWithContext(job: JobId, handle: Handle) returns (r: Result<(), ScheduleError>)
      requires Inv(View(), maxParallelJobs) && handle !in workers
      modifies this
      ensures Inv(View(), maxParallelJobs)
      ensures View() == Next(old(View()), Schedule(job, handle), maxParallelJobs)
      ensures r == ScheduleResult(old(View()), job, maxParallelJobs)
      ensures r.Err? ==> View() == old(View())
      ensures job in old(jobs) ==> View() == old(View())
      ensures r.Ok? && job !in old(jobs) ==>
                && |old(jobs)| < maxParallelJobs && job in old(states) && old(states)[job] in {Pending, Stuck}
                && jobs == old(jobs)[job := handle] && workers == old(workers)[handle := job]
                && states == old(states)[job := InProgress] && cleanups == old(cleanups)[handle := Cleanup(job, Unspawned)]
    {
      StepKeepsInv(View(), Schedule(job, handle), maxParallelJobs);
      if job in jobs {
        return Ok(());
      }
      if |jobs| >= maxParallelJobs {
        return Err(MaxJobsExceeded);
      }
      if job !in states || !CanMove(states[job], InProgress) {
        return Err(TransitionFailed);
      }
      states := states[job := InProgress];
      workers := workers[handle := job];
      jobs := jobs[job := handle];
      cleanups := cleanups[handle := Cleanup(job, Unspawned)];
      return Ok(());
    }

    /** One turn of the polling loop up to its read: no entry counts as finished. */
    method PollRead(handle: Handle) returns (done: bool)
      requires handle in cleanups && cleanups[handle].phase.Polling?
      modifies this`cleanups
      ensures View() == Next(old(View()), CleanupRead(handle), maxParallelJobs)
      ensures done <==> cleanups[handle].phase.Removing?
      ensures var job := old(cleanups)[handle].job; done <==> job !in jobs || jobs[job] in finished
    {
      var job := cleanups[handle].job;
      done := if job in jobs then jobs[job] in finished else true;
      if done {
        cleanups := cleanups[handle := Cleanup(job, Removing)];
      }
    }

    /** The remove that ends the loop, in a lock section of its own: by job id, whatever entry is there by now. */
    method PollRemove(handle: Handle)
      requires Inv(View(), maxParallelJobs) && handle in cleanups && cleanups[handle].phase.Removing?
      modifies this`jobs, this`cleanups
      ensures View() == Next(old(View()), CleanupRemove(handle), maxParallelJobs) && Inv(View(), maxParallelJobs)
    {
      StepKeepsInv(View(), CleanupRemove(handle), maxParallelJobs);
      jobs := jobs - {cleanups[handle].job};
      cleanups := cleanups - {handle};
    }

    /** Under one write lock; the worker is told to abort and may still run when this returns. */
    method StopJob(job: JobId)
      modifies this
      ensures View() == Next(old(View()), Stop(job), maxParallelJobs)
      ensures jobs == old(jobs) - {job} && stopping == old(stopping) + (if job in old(jobs) then {old(jobs)[job]} else {})
      ensures job in old(jobs) && job in old(states) && old(states)[job] in {Pending, InProgress, Stuck} ==>
                states == old(states)[job := Cancelled]
    {
      if job in jobs {
        stopping := stopping + {jobs[job]};
        jobs := jobs - {job};
        states := Moved(states, job, Cancelled);
      }
    }

    /** `cleanup_finished`: collect the finished ids, then remove them. */
    method RemoveFinished()
      requires Inv(View(), maxParallelJobs)
      modifies this`jobs
      ensures View() == Next(old(View()), CleanupFinished, maxParallelJobs) && Inv(View(), maxParallelJobs)
    {
      StepKeepsInv(View(), CleanupFinished, maxParallelJobs);
      jobs := WithoutFinished(jobs, finished);
    }

    /** `stop_all` run on its own: every job of the snapshot is stopped. */
    method StopAll()
      modifies this
      ensures jobs == map[]
      ensures stopping == old(stopping) + old(jobs).Values
      ensures View() == old(View()).(jobs := jobs, stopping := stopping, states := states)
      ensures forall j :: j in old(states) ==>
                j in states && states[j] == if j in old(jobs) && CanMove(old(states)[j], Cancelled) then Cancelled else old(states)[j]
    {
      var ids := jobs.Keys;
      while ids != {}
        invariant ids == jobs.Keys && View() == old(View()).(jobs := jobs, stopping := stopping, states := states)
        invariant forall j :: j in jobs ==> j in old(jobs) && jobs[j] == old(jobs)[j]
        invariant stopping + jobs.Values == old(stopping) + old(jobs).Values
        invariant forall j :: j in old(states) ==>
          j in states && states[j] == if j in old(jobs) && j !in jobs && CanMove(old(states)[j], Cancelled)
                                      then Cancelled else old(states)[j]
        decreases ids
      {
        var id :| id in ids;
        ids := ids - {id};
        StopMovesHandle(jobs, stopping, id);
        StopJob(id);
      }
      assert jobs.Values == {};
    }
  }

  method WithoutFinished(jobs: map<JobId, Handle>, finished: set<Handle>) returns (left: map<JobId, Handle>)
    ensures left == map j | j in jobs && jobs[j] !in finished :: jobs[j]
  {
    var done := set j | j in jobs && jobs[j] in finished;
    left := jobs;
    while done != {}
      invariant forall j :: j in done ==> j in jobs && jobs[j] in finished
      invariant forall j :: j in left <==> j in jobs && (j in done || jobs[j] !in finished)
      invariant forall j :: j in left ==> left[j] == jobs[j]
      decreases done
    {
      var j :| j in done;
      done := done - {j};
      left := left - {j};
    }
  }

  lemma StopMovesHandle(jobs: map<JobId, Handle>, finished: set<Handle>, id: JobId)
    requires id in jobs
    ensures (finished + {jobs[id]}) + (jobs - {id}).Values == finished + jobs.Values
  {
    forall h | h in jobs.Values
      ensures h in {jobs[id]} + (jobs - {id}).Values
    {
      var j :| j in jobs && jobs[j] == h;
      assert j != id ==> j in jobs - {id} && (jobs - {id})[j] == h;
    }
  }
}
