/** What each lock section of the scheduler does, said in terms of the maps alone (src/agent/scheduler.rs). */
module SchedulerLaws {
  import opened Wrappers
  import opened Scheduler

  /** The moves, by where they lead: nothing leads back to pending, and the three ends lead nowhere. */
  lemma MovesByTarget(a: JobState)
    ensures !CanMove(a, Pending)
    ensures CanMove(a, InProgress) <==> a in {Pending, Stuck}
    ensures CanMove(a, Stuck) <==> a == InProgress
    ensures CanMove(a, Completed) <==> a == InProgress
    ensures CanMove(a, Submitted) <==> a == Completed
    ensures CanMove(a, Accepted) <==> a == Submitted
    ensures CanMove(a, Failed) <==> a in {InProgress, Completed, Submitted, Stuck}
    ensures CanMove(a, Cancelled) <==> a in {Pending, InProgress, Stuck}
    ensures (forall b :: !CanMove(a, b)) <==> a in {Accepted, Failed, Cancelled}
  {
    assert a == Pending ==> CanMove(a, InProgress);
    assert a == InProgress ==> CanMove(a, Stuck);
    assert a == Completed ==> CanMove(a, Failed);
    assert a == Submitted ==> CanMove(a, Failed);
    assert a == Stuck ==> CanMove(a, Failed);
  }

  /** A job may be started if it is pending or stuck. */
  predicate Startable(s: Sys, job: JobId) { job in s.states && s.states[job] in {Pending, Stuck} }

  /** A free slot and a startable job are all it takes; a full map is reported before a job that cannot start. */
  lemma ScheduleOutcome(s: Sys, job: JobId, max: nat)
    ensures var r := ScheduleResult(s, job, max);
            && (r == Ok(()) <==> job in s.jobs || (|s.jobs| < max && Startable(s, job)))
            && (r == Err(MaxJobsExceeded) <==> job !in s.jobs && |s.jobs| >= max)
            && (r == Err(TransitionFailed) <==> job !in s.jobs && |s.jobs| < max && !Startable(s, job))
  {
  }

  /** One map with one entry more. */
  ghost predicate Adds<K(!new), V>(m: map<K, V>, m': map<K, V>, k: K, v: V) {
    && (forall j :: j in m' <==> j in m || j == k)
    && (forall j :: j in m' ==> m'[j] == if j == k then v else m[j])
  }

  /** One map with the entries of some keys left out. */
  ghost predicate Drops<K(!new), V>(m: map<K, V>, m': map<K, V>, k: K) {
    && (forall j :: j in m' <==> j in m && j != k)
    && (forall j :: j in m' ==> m'[j] == m[j])
  }

  /** A schedule that starts something starts this job on this handle, in progress, with its cleanup task to be spawned. */
  lemma ScheduleStarts(s: Sys, job: JobId, handle: Handle, max: nat)
    requires handle !in s.workers && job !in s.jobs && |s.jobs| < max && Startable(s, job)
    ensures var s' := Next(s, Schedule(job, handle), max);
            && Adds(s.jobs, s'.jobs, job, handle) && Adds(s.workers, s'.workers, handle, job)
            && Adds(s.states, s'.states, job, InProgress) && Adds(s.cleanups, s'.cleanups, handle, Cleanup(job, Unspawned))
            && s'.finished == s.finished && s'.stopping == s.stopping && s'.marked == s.marked && s'.due == s.due
  {
  }

  /** A caller's schedule is the direct one, after which the call has nothing left to do. */
  lemma CallerSchedules(s: Sys, call: CallId, handle: Handle, max: nat)
    requires call in s.due && handle !in s.workers
    ensures var s', direct := Next(s, CallerSchedule(call, handle), max), Next(s, Schedule(s.due[call], handle), max);
            s'.(due := s.due) == direct && Drops(s.due, s'.due, call)
  {
  }

  lemma DispatchCreates(s: Sys, call: CallId, job: JobId, max: nat)
    requires call !in s.due && job !in s.states
    ensures var s' := Next(s, Dispatch(call, job), max);
            && Adds(s.states, s'.states, job, Pending) && Adds(s.due, s'.due, call, job)
            && s' == s.(states := s'.states, due := s'.due)
  {
  }

  /** Help recovers a stuck job and nothing else. */
  lemma HelpRecovers(s: Sys, call: CallId, job: JobId, max: nat)
    requires call !in s.due
    ensures var s' := Next(s, Help(call, job), max);
            if job in s.states && s.states[job] == Stuck
            then Adds(s.states, s'.states, job, InProgress) && Adds(s.due, s'.due, call, job)
                 && s' == s.(states := s'.states, due := s'.due)
            else s' == s
  {
  }

  /** A legal move of a job happens, an illegal one does not; only its worker marks a job stuck. */
  lemma MoveHappens(s: Sys, job: JobId, to: JobState, max: nat)
    requires to != Stuck
    ensures var s' := Next(s, JobMoves(job, to), max);
            && s' == s.(states := s'.states)
            && (job in s.states && CanMove(s.states[job], to) ==> Adds(s.states, s'.states, job, to))
            && (job !in s.states || !CanMove(s.states[job], to) ==> s' == s)
  {
  }

  lemma WorkerMarksStuck(s: Sys, handle: Handle, max: nat)
    requires handle in s.workers && handle !in s.finished && handle !in s.marked
    requires s.workers[handle] in s.states && s.states[s.workers[handle]] == InProgress
    ensures var s' := Next(s, MarkStuck(handle), max);
            && Adds(s.states, s'.states, s.workers[handle], Stuck) && s'.marked == s.marked + {handle}
            && s' == s.(states := s'.states, marked := s'.marked)
  {
  }

  /** A polling task goes on to its remove exactly when its job has no entry or a finished worker. */
  lemma PollDecides(s: Sys, handle: Handle, max: nat)
    requires handle in s.cleanups && s.cleanups[handle].phase == Polling
    ensures var s', job := Next(s, CleanupRead(handle), max), s.cleanups[handle].job;
            && s' == s.(cleanups := s'.cleanups)
            && (s' == s <==> job in s.jobs && s.jobs[job] !in s.finished)
            && (s' != s ==> Adds(s.cleanups, s'.cleanups, handle, Cleanup(job, Removing)))
  {
    var s', job := Next(s, CleanupRead(handle), max), s.cleanups[handle].job;
    if !(job in s.jobs && s.jobs[job] !in s.finished) {
      assert s'.cleanups[handle].phase == Removing;
    }
  }

  /** The task of a job that was stopped ends by itself, though its worker may still run. */
  lemma StoppedTaskEnds(s: Sys, handle: Handle, max: nat)
    requires handle in s.cleanups && s.cleanups[handle].phase == Polling && s.cleanups[handle].job !in s.jobs
    ensures var s' := Next(Next(s, CleanupRead(handle), max), CleanupRemove(handle), max);
            Drops(s.cleanups, s'.cleanups, handle) && s' == s.(cleanups := s'.cleanups)
  {
    var read := Next(s, CleanupRead(handle), max);
    assert read == s.(cleanups := s.cleanups[handle := Cleanup(s.cleanups[handle].job, Removing)]);
    assert read.jobs - {s.cleanups[handle].job} == s.jobs;
  }

  /** A stop takes the job's own entry out, aborts its own worker, and cancels it if it may be cancelled. */
  lemma StopMeans(s: Sys, job: JobId, max: nat)
    ensures var s' := Next(s, Stop(job), max);
            && (job !in s.jobs ==> s' == s)
            && (job in s.jobs ==>
                  && Drops(s.jobs, s'.jobs, job) && s'.stopping == s.stopping + {s.jobs[job]}
                  && s' == s.(jobs := s'.jobs, stopping := s'.stopping, states := s'.states)
                  && (if job in s.states && s.states[job] in {Pending, InProgress, Stuck}
                      then Adds(s.states, s'.states, job, Cancelled) else s'.states == s.states))
  {
  }

  /** The remove takes out whatever entry its job has by then, and the sweep exactly the finished entries. */
  lemma RemovalMeans(s: Sys, handle: Handle, max: nat)
    ensures var s' := Next(s, CleanupFinished, max);
            && s' == s.(jobs := s'.jobs) && (forall j :: j in s'.jobs <==> j in s.jobs && s.jobs[j] !in s.finished)
            && (forall j :: j in s'.jobs ==> s'.jobs[j] == s.jobs[j])
    ensures handle in s.cleanups && s.cleanups[handle].phase == Removing ==>
              var s' := Next(s, CleanupRemove(handle), max);
              && Drops(s.jobs, s'.jobs, s.cleanups[handle].job) && Drops(s.cleanups, s'.cleanups, handle)
              && s' == s.(jobs := s'.jobs, cleanups := s'.cleanups)
  {
  }

  /** A worker that is done stays so, and a task polls once it is spawned. */
  lemma WorkerEnds(s: Sys, handle: Handle, max: nat)
    requires handle in s.workers
    ensures Next(s, WorkerFinish(handle), max) == s.(finished := s.finished + {handle})
    ensures handle in s.cleanups && s.cleanups[handle].phase == Unspawned ==>
              var s' := Next(s, SpawnCleanup(handle), max);
              Adds(s.cleanups, s'.cleanups, handle, Cleanup(s.cleanups[handle].job, Polling)) && s' == s.(cleanups := s'.cleanups)
  {
  }
}
