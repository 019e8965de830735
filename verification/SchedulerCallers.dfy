/**
 * The two callers that schedule jobs, each in two steps: one creates the job, the other recovers a stuck one
 * (src/agent/scheduler.rs, src/agent/commands.rs). With them alone the limit holds; a direct call can break it.
 */
module SchedulerCallers {
  import opened Wrappers
  import opened Scheduler

  /** The job a step schedules, if it schedules one. */
  function JobScheduled(s: Sys, step: Step): Option<JobId> {
    match step
    case Schedule(job, _) => Some(job)
    case CallerSchedule(call, _) => if call in s.due then Some(s.due[call]) else None
    case _ => None
  }

  /** A schedule meets a stuck job. */
  predicate OnStuck(s: Sys, step: Step) {
    var job := JobScheduled(s, step);
    job.Some? && job.value in s.states && s.states[job.value].Stuck?
  }

  predicate HasWorker(s: Sys, job: JobId) { exists h :: h in s.workers && s.workers[h] == job }

  predicate HasMarked(s: Sys, job: JobId) { exists h :: h in s.workers && s.workers[h] == job && h in s.marked }

  /** At most one worker per job. */
  predicate OneWorker(s: Sys) {
    && Injective(s.workers)
    && (forall h :: h in s.workers ==> s.workers[h] in s.states && !s.states[s.workers[h]].Pending?)
  }

  /** A stuck job was marked by its worker; a job that a call is about to schedule has no worker or one that marked it. */
  predicate DueOk(s: Sys) {
    && (forall j :: j in s.states && s.states[j].Stuck? ==> HasMarked(s, j))
    && (forall c :: c in s.due ==>
          && s.due[c] in s.states && !s.states[s.due[c]].Stuck?
          && (HasWorker(s, s.due[c]) ==> HasMarked(s, s.due[c])))
    && (forall c, d :: c in s.due && d in s.due && c != d && s.due[c] == s.due[d] ==> HasMarked(s, s.due[c]))
  }

  predicate Disciplined(s: Sys) { OneWorker(s) && DueOk(s) }

  /** A schedule that starts a worker found its job pending, when none meets a stuck job. */
  lemma StartsPending(s: Sys, job: JobId, handle: Handle, max: nat)
    requires !(job in s.states && s.states[job].Stuck?) && Scheduled(s, job, handle, max) != s
    ensures job in s.states && s.states[job].Pending?
  {
  }

  lemma StepKeepsOneWorker(s: Sys, step: Step, max: nat)
    requires OneWorker(s) && !OnStuck(s, step)
    ensures OneWorker(Next(s, step, max))
  {
    var job := JobScheduled(s, step);
    if job.Some? {
      ScheduledKeepsOneWorker(s, job.value, step.handle, max);
    } else if step.JobMoves? {
      MovedKeepsStarted(s, step.job, step.to);
    } else if step.Stop? {
      MovedKeepsStarted(s, step.job, Cancelled);
    }
  }

  lemma ScheduledKeepsOneWorker(s: Sys, job: JobId, handle: Handle, max: nat)
    requires OneWorker(s) && !(job in s.states && s.states[job].Stuck?)
    ensures OneWorker(Scheduled(s, job, handle, max))
  {
    if Scheduled(s, job, handle, max) != s {
      StartsPending(s, job, handle, max);
    }
  }

  lemma MovedKeepsStarted(s: Sys, job: JobId, to: JobState)
    ensures forall j :: j in s.states && !s.states[j].Pending? ==>
              j in Moved(s.states, job, to) && !Moved(s.states, job, to)[j].Pending?
    ensures forall j :: j in s.states && !s.states[j].Stuck? && !to.Stuck? ==>
              j in Moved(s.states, job, to) && !Moved(s.states, job, to)[j].Stuck?
    ensures forall j :: j in Moved(s.states, job, to) && Moved(s.states, job, to)[j].Stuck? && !to.Stuck? ==>
              j in s.states && s.states[j].Stuck?
  {
  }

  lemma WorkerStays(s: Sys, step: Step, h: Handle, max: nat)
    requires h in s.workers
    ensures h in Next(s, step, max).workers && Next(s, step, max).workers[h] == s.workers[h]
  {
  }

  lemma MarkStays(s: Sys, step: Step, h: Handle, max: nat)
    requires h in s.marked
    ensures h in Next(s, step, max).marked
  {
  }

  /** A marked worker stays one. */
  lemma MarkedStays(s: Sys, step: Step, job: JobId, max: nat)
    requires HasMarked(s, job)
    ensures HasMarked(Next(s, step, max), job)
  {
    var h :| h in s.workers && s.workers[h] == job && h in s.marked;
    WorkerStays(s, step, h, max);
    MarkStays(s, step, h, max);
  }

  /** Only a schedule of the job gives it its worker. */
  lemma WorkerIsOld(s: Sys, step: Step, job: JobId, max: nat)
    requires HasWorker(Next(s, step, max), job) && JobScheduled(s, step) != Some(job)
    ensures HasWorker(s, job)
  {
    var s' := Next(s, step, max);
    var h :| h in s'.workers && s'.workers[h] == job;
    assert h in s.workers && s.workers[h] == job;
  }

  /** The stuck jobs after a step. */
  lemma StuckIsMarked(s: Sys, step: Step, j: JobId, max: nat)
    requires Disciplined(s) && j in Next(s, step, max).states && Next(s, step, max).states[j].Stuck?
    ensures HasMarked(Next(s, step, max), j)
  {
    if j in s.states && s.states[j].Stuck? {
      MarkedStays(s, step, j, max);
    } else {
      NewlyStuck(s, step, j, max);
      var s' := Next(s, step, max);
      assert step.handle in s'.workers && s'.workers[step.handle] == j && step.handle in s'.marked;
    }
  }

  /** A job gets stuck only by its worker's mark. */
  lemma NewlyStuck(s: Sys, step: Step, j: JobId, max: nat)
    requires !(j in s.states && s.states[j].Stuck?)
    requires j in Next(s, step, max).states && Next(s, step, max).states[j].Stuck?
    ensures step.MarkStuck? && step.handle in Running(s) && s.workers[step.handle] == j
    ensures step.handle in Next(s, step, max).marked
  {
  }

  /** The only worker that could still mark the job of a due call has marked it already. */
  lemma NotMarkedAgain(s: Sys, handle: Handle, c: CallId, max: nat)
    requires Disciplined(s) && c in s.due && handle in s.workers && handle !in s.marked
    ensures s.workers[handle] != s.due[c]
  {
    assert s.workers[handle] == s.due[c] ==> HasWorker(s, s.due[c]);
  }

  lemma DueStaysUnstuck(s: Sys, step: Step, c: CallId, max: nat)
    requires Disciplined(s) && c in Next(s, step, max).due
    ensures var s' := Next(s, step, max); s'.due[c] in s'.states && !s'.states[s'.due[c]].Stuck?
  {
    if c in s.due {
      if step.MarkStuck? {
        if step.handle in s.workers && step.handle !in s.marked {
          NotMarkedAgain(s, step.handle, c, max);
        }
      } else {
        UnstuckStays(s, step, s.due[c], max);
      }
    }
  }

  /** Nobody but its worker marks a job stuck. */
  lemma UnstuckStays(s: Sys, step: Step, j: JobId, max: nat)
    requires j in s.states && !s.states[j].Stuck? && !step.MarkStuck?
    ensures j in Next(s, step, max).states && !Next(s, step, max).states[j].Stuck?
  {
    var job := JobScheduled(s, step);
    if job.Some? {
      UnstuckScheduled(s, job.value, step.handle, j, max);
    } else if step.JobMoves? {
      MovedKeepsStarted(s, step.job, step.to);
    } else if step.Stop? {
      MovedKeepsStarted(s, step.job, Cancelled);
    }
  }

  lemma UnstuckScheduled(s: Sys, job: JobId, handle: Handle, j: JobId, max: nat)
    requires j in s.states && !s.states[j].Stuck?
    ensures j in Scheduled(s, job, handle, max).states && !Scheduled(s, job, handle, max).states[j].Stuck?
  {
  }

  /** A schedule that starts a worker leaves no other call due for its job. */
  lemma StartedByLastDue(s: Sys, call: CallId, handle: Handle, d: CallId, max: nat)
    requires Disciplined(s) && call in s.due && d in s.due && d != call && s.due[d] == s.due[call]
    ensures Scheduled(s, s.due[call], handle, max) == s
  {
    var m :| m in s.workers && s.workers[m] == s.due[call] && m in s.marked;
    if Scheduled(s, s.due[call], handle, max) != s {
      StartsPending(s, s.due[call], handle, max);
    }
  }

  lemma DueStaysMarked(s: Sys, step: Step, c: CallId, max: nat)
    requires Disciplined(s) && !step.Schedule? && c in Next(s, step, max).due
    ensures var s' := Next(s, step, max); HasWorker(s', s'.due[c]) ==> HasMarked(s', s'.due[c])
  {
    var s' := Next(s, step, max);
    var j := s'.due[c];
    if HasWorker(s', j) {
      if step.CallerSchedule? && JobScheduled(s, step) == Some(j) {
        if c in s.due && c != step.call {
          StartedByLastDue(s, step.call, step.handle, c, max);
        }
      } else {
        WorkerIsOld(s, step, j, max);
      }
      var h :| h in s'.workers && s'.workers[h] == j;
      assert HasWorker(s, j) ==> HasMarked(s, j);
      MarkedStays(s, step, j, max);
    }
  }

  lemma DueStaysShared(s: Sys, step: Step, c: CallId, d: CallId, max: nat)
    requires Disciplined(s) && !step.Schedule?
    requires var s' := Next(s, step, max); c in s'.due && d in s'.due && c != d && s'.due[c] == s'.due[d]
    ensures HasMarked(Next(s, step, max), Next(s, step, max).due[c])
  {
    MarkedStays(s, step, Next(s, step, max).due[c], max);
  }

  /** The callers alone keep the discipline, and none of their schedules meets a stuck job. */
  lemma StepKeepsDiscipline(s: Sys, step: Step, max: nat)
    requires Disciplined(s) && !step.Schedule?
    ensures !OnStuck(s, step) && Disciplined(Next(s, step, max))
  {
    var s' := Next(s, step, max);
    StepKeepsOneWorker(s, step, max);
    forall j | j in s'.states && s'.states[j].Stuck?
      ensures HasMarked(s', j)
    {
      StuckIsMarked(s, step, j, max);
    }
    forall c | c in s'.due
      ensures s'.due[c] in s'.states && !s'.states[s'.due[c]].Stuck?
      ensures HasWorker(s', s'.due[c]) ==> HasMarked(s', s'.due[c])
    {
      DueStaysUnstuck(s, step, c, max);
      DueStaysMarked(s, step, c, max);
    }
    forall c, d | c in s'.due && d in s'.due && c != d && s'.due[c] == s'.due[d]
      ensures HasMarked(s', s'.due[c])
    {
      DueStaysShared(s, step, c, d, max);
    }
  }

  // ----- The limit holds for these callers -----

  /** An entry belongs to the one worker of its job, and a cleanup task past its read found that worker done. */
  predicate OneHandlePerJob(s: Sys) {
    && (forall j :: j in s.jobs ==> s.jobs[j] in s.workers && s.workers[s.jobs[j]] == j)
    && (forall h :: h in s.cleanups ==> h in s.workers && s.workers[h] == s.cleanups[h].job)
    && (forall h :: h in s.cleanups && s.cleanups[h].phase.Removing? && s.cleanups[h].job in s.jobs ==> h in s.finished)
  }

  lemma ScheduleKeepsOneHandle(s: Sys, job: JobId, handle: Handle, max: nat)
    requires OneWorker(s) && OneHandlePerJob(s) && !(job in s.states && s.states[job].Stuck?)
    ensures OneHandlePerJob(Scheduled(s, job, handle, max))
  {
    if Scheduled(s, job, handle, max) != s {
      StartsPending(s, job, handle, max);
    }
  }

  lemma OthersKeepOneHandle(s: Sys, step: Step, max: nat)
    requires OneWorker(s) && OneHandlePerJob(s) && (IsQuiet(step) || IsRemoval(step))
    ensures OneHandlePerJob(Next(s, step, max))
  {
  }

  lemma StepKeepsOneHandle(s: Sys, step: Step, max: nat)
    requires Disciplined(s) && OneHandlePerJob(s) && !step.Schedule?
    ensures OneHandlePerJob(Next(s, step, max)) && !EvictsLive(s, step)
  {
    if step.CallerSchedule? {
      if step.call in s.due {
        ScheduleKeepsOneHandle(s, s.due[step.call], step.handle, max);
      }
    } else {
      OthersKeepOneHandle(s, step, max);
    }
  }

  /** Every schedule is the second step of one of the two callers. */
  predicate CallersOnly(steps: seq<Step>) { forall i :: 0 <= i < |steps| ==> !steps[i].Schedule? }

  lemma {:induction false} CallersNeverEvict(s: Sys, steps: seq<Step>, max: nat)
    requires Disciplined(s) && OneHandlePerJob(s) && CallersOnly(steps)
    ensures NoEviction(s, steps, max) && Disciplined(Run(s, steps, max))
    decreases |steps|
  {
    if steps != [] {
      StepKeepsDiscipline(s, steps[0], max);
      StepKeepsOneHandle(s, steps[0], max);
      CallersNeverEvict(Next(s, steps[0], max), steps[1..], max);
    }
  }

  /** With the two callers alone, no schedule meets a stuck job in any interleaving. */
  lemma NeverOnStuck(steps: seq<Step>, step: Step, max: nat)
    requires CallersOnly(steps) && !step.Schedule?
    ensures !OnStuck(Run(Init(), steps, max), step)
  {
    CallersNeverEvict(Init(), steps, max);
    StepKeepsDiscipline(Run(Init(), steps, max), step, max);
  }

  /** So the limit holds in every interleaving, stopped workers aside. */
  lemma CallersAreBounded(steps: seq<Step>, max: nat)
    requires CallersOnly(steps)
    ensures var s := Run(Init(), steps, max); |Running(s) - s.stopping| <= max
  {
    CallersNeverEvict(Init(), steps, max);
    RunningIsBounded(steps, max);
  }

  // ----- A help request never starts a worker -----

  /** The call recovered a job whose worker had marked it. */
  predicate Helped(s: Sys, call: CallId, job: JobId) { call in s.due && s.due[call] == job && HasMarked(s, job) }

  lemma {:induction false} HelpedStays(s: Sys, steps: seq<Step>, call: CallId, job: JobId, max: nat)
    requires Disciplined(s) && Helped(s, call, job) && CallersOnly(steps)
    requires forall i :: 0 <= i < |steps| ==> !(steps[i].CallerSchedule? && steps[i].call == call)
    ensures Disciplined(Run(s, steps, max)) && Helped(Run(s, steps, max), call, job)
    decreases |steps|
  {
    if steps != [] {
      StepKeepsDiscipline(s, steps[0], max);
      MarkedStays(s, steps[0], job, max);
      DueStays(s, steps[0], call, max);
      HelpedStays(Next(s, steps[0], max), steps[1..], call, job, max);
    }
  }

  lemma DueStays(s: Sys, step: Step, call: CallId, max: nat)
    requires call in s.due && !(step.CallerSchedule? && step.call == call)
    ensures call in Next(s, step, max).due && Next(s, step, max).due[call] == s.due[call]
  {
  }

  /**
   * Whatever happens between the recovery and the schedule of `handle_help_job`, the schedule starts no worker: it
   * succeeds only where an old entry of the job is still in the map.
   */
  lemma HelpNeverReschedules(s: Sys, call: CallId, job: JobId, steps: seq<Step>, handle: Handle, max: nat)
    requires Disciplined(s) && call !in s.due && job in s.states && s.states[job].Stuck? && CallersOnly(steps)
    requires forall i :: 0 <= i < |steps| ==> !(steps[i].CallerSchedule? && steps[i].call == call)
    ensures var s' := Run(Next(s, Help(call, job), max), steps, max);
            && Scheduled(s', job, handle, max) == s'
            && (ScheduleResult(s', job, max).Ok? <==> job in s'.jobs)
  {
    var s1 := Next(s, Help(call, job), max);
    StepKeepsDiscipline(s, Help(call, job), max);
    MarkedStays(s, Help(call, job), job, max);
    HelpedStays(s1, steps, call, job, max);
    HelpedCannotStart(Run(s1, steps, max), call, job, handle, max);
  }

  lemma HelpedCannotStart(s: Sys, call: CallId, job: JobId, handle: Handle, max: nat)
    requires Disciplined(s) && Helped(s, call, job)
    ensures Scheduled(s, job, handle, max) == s && (ScheduleResult(s, job, max).Ok? <==> job in s.jobs)
  {
    var h :| h in s.workers && s.workers[h] == job && h in s.marked;
    assert !s.states[job].Stuck? && !s.states[job].Pending?;
  }

  // ----- A direct call breaks every limit -----

  lemma RunFour(s: Sys, a: Step, b: Step, c: Step, d: Step, max: nat)
    ensures Run(s, [a, b, c, d], max) == Next(Next(Next(Next(s, a, max), b, max), c, max), d, max)
  {
    RunCons(s, a, [b, c, d], max);
    RunCons(Next(s, a, max), b, [c, d], max);
    RunTwo(Next(Next(s, a, max), b, max), c, d, max);
    assert [a] + [b, c, d] == [a, b, c, d] && [b] + [c, d] == [b, c, d];
  }

  lemma RunTwo(s: Sys, a: Step, b: Step, max: nat)
    ensures Run(s, [a, b], max) == Next(Next(s, a, max), b, max)
  {
    RunCons(s, a, [b], max);
    RunCons(Next(s, a, max), b, [], max);
    assert [a] + [b] == [a, b] && [b] + [] == [b];
  }

  lemma RunCons(s: Sys, a: Step, rest: seq<Step>, max: nat)
    ensures Run(s, [a] + rest, max) == Run(Next(s, a, max), rest, max)
  {
    assert ([a] + rest)[1..] == rest;
  }

  lemma {:induction false} RunAppend(s: Sys, front: seq<Step>, back: seq<Step>, max: nat)
    ensures Run(s, front + back, max) == Run(Run(s, front, max), back, max)
    decreases |front|
  {
    if front == [] {
      assert front + back == back;
    } else {
      assert (front + back)[1..] == front[1..] + back;
      RunAppend(Next(s, front[0], max), front[1..], back, max);
    }
  }

  /** A job gets stuck, its cleanup task reads, and a direct call schedules it before the remove. */
  function UntilStuck(): seq<Step> { [Dispatch(1, 1), CallerSchedule(1, 10), SpawnCleanup(10), MarkStuck(10)] }

  function UntilRead(): seq<Step> { [WorkerFinish(10), CleanupRead(10)] }

  function FromRead(): seq<Step> { [CleanupFinished, Schedule(1, 20), CleanupRemove(10), SpawnCleanup(20)] }

  function AtStuck(): Sys {
    Sys(map[1 := 10], {}, map[10 := Cleanup(1, Polling)], map[10 := 1], {}, {10}, map[1 := Stuck], map[])
  }

  function AtRead(): Sys {
    Sys(map[1 := 10], {10}, map[10 := Cleanup(1, Removing)], map[10 := 1], {}, {10}, map[1 := Stuck], map[])
  }

  /** The second worker of the job runs, and the map is empty. */
  function AtEviction(): Sys {
    Sys(map[], {10}, map[20 := Cleanup(1, Polling)], map[10 := 1, 20 := 1], {}, {10}, map[1 := InProgress], map[])
  }

  function AtFirst(): Sys {
    Sys(map[1 := 10], {}, map[10 := Cleanup(1, Unspawned)], map[10 := 1], {}, {}, map[1 := InProgress], map[])
  }

  lemma ToFirst(max: nat)
    requires max > 0
    ensures Next(Next(Init(), Dispatch(1, 1), max), CallerSchedule(1, 10), max) == AtFirst()
  {
    assert Next(Init(), Dispatch(1, 1), max) == Sys(map[], {}, map[], map[], {}, {}, map[1 := Pending], map[1 := 1]);
  }

  lemma ToStuck(max: nat)
    ensures Next(Next(AtFirst(), SpawnCleanup(10), max), MarkStuck(10), max) == AtStuck()
  {
    assert Next(AtFirst(), SpawnCleanup(10), max) == AtFirst().(cleanups := map[10 := Cleanup(1, Polling)]);
  }

  lemma RunToStuck(max: nat)
    requires max > 0
    ensures Run(Init(), UntilStuck(), max) == AtStuck()
  {
    RunFour(Init(), Dispatch(1, 1), CallerSchedule(1, 10), SpawnCleanup(10), MarkStuck(10), max);
    ToFirst(max);
    ToStuck(max);
  }

  lemma RunToRead(max: nat)
    ensures Run(AtStuck(), UntilRead(), max) == AtRead()
  {
    RunTwo(AtStuck(), WorkerFinish(10), CleanupRead(10), max);
  }

  /** Between the direct schedule and the remove. */
  function AtReschedule(): Sys {
    Sys(map[1 := 20], {10}, map[10 := Cleanup(1, Removing), 20 := Cleanup(1, Unspawned)], map[10 := 1, 20 := 1], {}, {10},
        map[1 := InProgress], map[])
  }

  lemma ToReschedule(max: nat)
    requires max > 0
    ensures Next(Next(AtRead(), CleanupFinished, max), Schedule(1, 20), max) == AtReschedule()
    ensures OnStuck(Next(AtRead(), CleanupFinished, max), Schedule(1, 20))
  {
    assert Next(AtRead(), CleanupFinished, max) == AtRead().(jobs := map[]);
  }

  lemma ToEviction(max: nat)
    ensures Next(Next(AtReschedule(), CleanupRemove(10), max), SpawnCleanup(20), max) == AtEviction()
  {
    assert Next(AtReschedule(), CleanupRemove(10), max)
        == AtReschedule().(jobs := map[], cleanups := map[20 := Cleanup(1, Unspawned)]);
  }

  lemma RunToEviction(max: nat)
    requires max > 0
    ensures Run(AtRead(), FromRead(), max) == AtEviction()
  {
    RunFour(AtRead(), CleanupFinished, Schedule(1, 20), CleanupRemove(10), SpawnCleanup(20), max);
    ToReschedule(max);
    ToEviction(max);
  }

  lemma RunFromStart(max: nat)
    requires max > 0
    ensures Run(Init(), UntilStuck() + UntilRead() + FromRead(), max) == AtEviction()
  {
    RunToStuck(max);
    RunToRead(max);
    RunToEviction(max);
    RunAppend(Init(), UntilStuck() + UntilRead(), FromRead(), max);
    RunAppend(Init(), UntilStuck(), UntilRead(), max);
  }

  /** All ids in use are below a bound. */
  predicate Below(s: Sys, n: nat) {
    && (forall j :: j in s.jobs ==> j < n) && (forall j :: j in s.states ==> j < n)
    && (forall c :: c in s.due ==> c < n) && (forall h :: h in s.workers ==> h < n)
    && (forall h :: h in s.finished ==> h < n)
  }

  function OneMoreJob(s: Sys, n: nat): Sys {
    s.(jobs := s.jobs[n := n], cleanups := s.cleanups[n := Cleanup(n, Unspawned)], workers := s.workers[n := n],
       states := s.states[n := InProgress])
  }

  lemma DispatchNew(s: Sys, n: nat, max: nat)
    requires n !in s.states && n !in s.due
    ensures Next(s, Dispatch(n, n), max) == s.(states := s.states[n := Pending], due := s.due[n := n])
  {
  }

  lemma ScheduledNew(s: Sys, n: nat, max: nat)
    requires n !in s.jobs && |s.jobs| < max && n !in s.workers && n in s.states && s.states[n].Pending?
    ensures Scheduled(s, n, n, max) == OneMoreJob(s, n)
  {
  }

  lemma ScheduleNew(s: Sys, s1: Sys, n: nat, max: nat)
    requires Below(s, n) && |s.jobs| < max && s1 == s.(states := s.states[n := Pending], due := s.due[n := n])
    ensures Next(s1, CallerSchedule(n, n), max) == OneMoreJob(s, n)
  {
    ScheduledNew(s1, n, max);
    assert s1.due - {n} == s.due;
    assert s1.states[n := InProgress] == s.states[n := InProgress];
  }

  /** One more job, created and scheduled. */
  lemma OneMore(s: Sys, n: nat, max: nat)
    requires Below(s, n) && |s.jobs| < max
    ensures Next(Next(s, Dispatch(n, n), max), CallerSchedule(n, n), max) == OneMoreJob(s, n)
  {
    DispatchNew(s, n, max);
    ScheduleNew(s, Next(s, Dispatch(n, n), max), n, max);
  }

  lemma AddKey(m: map<nat, nat>, k: nat, v: nat)
    requires k !in m
    ensures |m[k := v]| == |m| + 1
  {
    assert m[k := v].Keys == m.Keys + {k};
    assert |m[k := v].Keys| == |m.Keys| + 1;
  }

  lemma StillBelow(s: Sys, n: nat)
    requires Below(s, n)
    ensures Below(OneMoreJob(s, n), n + 1)
  {
  }

  lemma AddElement(a: set<nat>, k: nat)
    requires k !in a
    ensures |a + {k}| == |a| + 1
  {
  }

  lemma RunningOneMore(s: Sys, n: nat)
    requires n !in s.finished
    ensures Running(OneMoreJob(s, n)) == Running(s) + {n}
  {
    assert OneMoreJob(s, n).workers.Keys == s.workers.Keys + {n};
  }

  lemma OneMoreCounts(s: Sys, n: nat)
    requires n !in s.jobs && n !in s.workers && n !in s.finished
    ensures |OneMoreJob(s, n).jobs| == |s.jobs| + 1
    ensures |Running(OneMoreJob(s, n))| == |Running(s)| + 1
  {
    AddKey(s.jobs, n, n);
    RunningOneMore(s, n);
    AddElement(Running(s), n);
  }

  lemma {:induction false} Fill(s: Sys, n: nat, more: nat, max: nat) returns (steps: seq<Step>)
    requires Below(s, n) && |s.jobs| + more <= max
    ensures var s' := Run(s, steps, max);
            |Running(s')| == |Running(s)| + more && s'.stopping == s.stopping
    decreases more
  {
    if more == 0 {
      steps := [];
    } else {
      OneMore(s, n, max);
      OneMoreCounts(s, n);
      StillBelow(s, n);
      var rest := Fill(OneMoreJob(s, n), n + 1, more - 1, max);
      RunTwo(s, Dispatch(n, n), CallerSchedule(n, n), max);
      RunAppend(s, [Dispatch(n, n), CallerSchedule(n, n)], rest, max);
      steps := [Dispatch(n, n), CallerSchedule(n, n)] + rest;
    }
  }

  /** Whatever the limit, one direct schedule of a stuck job lets one worker more than the limit run, none being stopped. */
  lemma EvictionBreaksLimit(max: nat)
    requires max > 0
    ensures exists steps :: var s := Run(Init(), steps, max); |Running(s)| == max + 1 && s.stopping == {}
    ensures OnStuck(Next(AtRead(), CleanupFinished, max), Schedule(1, 20))
  {
    RunFromStart(max);
    ToReschedule(max);
    var start := UntilStuck() + UntilRead() + FromRead();
    assert Running(AtEviction()) == {20};
    var fill := Fill(AtEviction(), 100, max, max);
    RunAppend(Init(), start, fill, max);
    var s := Run(Init(), start + fill, max);
    assert |Running(s)| == max + 1 && s.stopping == {};
  }
}
