/** What every run of the backup queue keeps. */
module BackupQueueProofs {
  import opened BackupJobs
  import opened BackupQueueProtocol

  // Pending jobs

  ghost predicate OneJobPerMemory(jobs: seq<Job>) {
    forall i, j :: 0 <= i < j < |jobs| ==> jobs[i].memoryId != jobs[j].memoryId
  }

  predicate HasJob(jobs: seq<Job>, id: MemoryId) {
    exists i :: 0 <= i < |jobs| && jobs[i].memoryId == id
  }

  predicate HasPath(jobs: seq<Job>, id: MemoryId, path: ContentPath) {
    exists i :: 0 <= i < |jobs| && jobs[i].memoryId == id && path in jobs[i].contentPaths
  }

  lemma {:induction false} PushPendingMemories(jobs: seq<Job>, job: Job, id: MemoryId)
    ensures HasJob(PushPending(jobs, job), id) <==> HasJob(jobs, id) || id == job.memoryId
  {
    var r := PushPending(jobs, job);
    if jobs == [] {
      assert r[0] == job;
    } else if jobs[0].memoryId == job.memoryId {
      assert r[0].memoryId == job.memoryId;
      assert forall i :: 0 <= i < |jobs| ==> r[i].memoryId == jobs[i].memoryId;
    } else {
      PushPendingMemories(jobs[1..], job, id);
      HasJobCons(jobs[0], jobs[1..], id);
      HasJobCons(jobs[0], PushPending(jobs[1..], job), id);
      assert jobs == [jobs[0]] + jobs[1..];
    }
  }

  lemma HasJobCons(first: Job, rest: seq<Job>, id: MemoryId)
    ensures HasJob([first] + rest, id) <==> first.memoryId == id || HasJob(rest, id)
  {
    var all := [first] + rest;
    assert all[0] == first;
    assert forall i :: 0 <= i < |rest| ==> all[i + 1] == rest[i];
  }

  lemma HasPathCons(first: Job, rest: seq<Job>, id: MemoryId, path: ContentPath)
    ensures HasPath([first] + rest, id, path)
            <==> (first.memoryId == id && path in first.contentPaths) || HasPath(rest, id, path)
  {
    var all := [first] + rest;
    assert all[0] == first;
    assert forall i :: 0 <= i < |rest| ==> all[i + 1] == rest[i];
  }

  /** Pushing adds exactly the pushed job's paths to its memory and loses none. */
  lemma {:induction false} PushPendingPaths(jobs: seq<Job>, job: Job, id: MemoryId, path: ContentPath)
    ensures HasPath(PushPending(jobs, job), id, path)
            <==> HasPath(jobs, id, path) || (id == job.memoryId && path in job.contentPaths)
  {
    if jobs == [] {
      HasPathCons(job, [], id, path);
      assert [job] + [] == [job];
    } else {
      assert jobs == [jobs[0]] + jobs[1..];
      HasPathCons(jobs[0], jobs[1..], id, path);
      if jobs[0].memoryId == job.memoryId {
        MergeIsUnion(jobs[0], job);
        HasPathCons(Merge(jobs[0], job), jobs[1..], id, path);
      } else {
        PushPendingPaths(jobs[1..], job, id, path);
        HasPathCons(jobs[0], PushPending(jobs[1..], job), id, path);
      }
    }
  }

  lemma {:induction false} PushPendingKeepsOneJob(jobs: seq<Job>, job: Job)
    requires OneJobPerMemory(jobs)
    ensures OneJobPerMemory(PushPending(jobs, job))
  {
    if jobs != [] && jobs[0].memoryId != job.memoryId {
      var rest := PushPending(jobs[1..], job);
      PushPendingKeepsOneJob(jobs[1..], job);
      PushPendingMemories(jobs[1..], job, jobs[0].memoryId);
      forall i | 0 <= i < |rest| ensures rest[i].memoryId != jobs[0].memoryId {
        assert !HasJob(jobs[1..], jobs[0].memoryId);
        assert rest[i].memoryId == jobs[0].memoryId ==> HasJob(rest, jobs[0].memoryId);
      }
    }
  }

  // Each part of the invariant, one step at a time

  /** What a step does to the pending jobs: it pushes one, takes the first, or leaves them alone. */
  lemma PendingAfter(s: State, step: Step)
    requires Enabled(s, step)
    ensures if step.FinalizerReturned? then
              step.op in s.enqueues && s.enqueues[step.op].phase.Finalizing?
              && Apply(s, step).pending == PushPending(s.pending, s.enqueues[step.op].phase.job)
            else
              Apply(s, step).pending == s.pending || (s.pending != [] && Apply(s, step).pending == s.pending[1..])
  {
    hide PushPending, Merge, RetainIntent;
  }

  lemma StepKeepsOnePending(s: State, step: Step)
    requires OnePendingPerMemory(s) && Enabled(s, step)
    ensures OnePendingPerMemory(Apply(s, step))
  {
    hide Apply, Enabled, PushPending;
    PendingAfter(s, step);
    if step.FinalizerReturned? {
      PushPendingKeepsOneJob(s.pending, s.enqueues[step.op].phase.job);
    }
  }

  lemma LeavingKeepsFiling(s: State, op: nat)
    requires JobsFiledUnderTheirMemory(s) && op in s.enqueues
    ensures JobsFiledUnderTheirMemory(LeaveEnqueue(s, op))
  {
  }

  lemma RetainingKeepsFiling(s: State, job: Job)
    requires JobsFiledUnderTheirMemory(s)
    ensures JobsFiledUnderTheirMemory(s.(intents := RetainIntent(s.intents, job)))
  {
  }

  lemma StartEnqueueKeepsFiling(s: State, op: nat, job: Job, hasFinalizer: bool, saved: bool)
    requires JobsFiledUnderTheirMemory(s)
    ensures JobsFiledUnderTheirMemory(StartEnqueueStep(s, op, job, hasFinalizer, saved))
  {
  }

  lemma ResumeEnqueueKeepsFiling(s: State, op: nat)
    requires JobsFiledUnderTheirMemory(s) && Enabled(s, ResumeEnqueue(op))
    ensures JobsFiledUnderTheirMemory(ResumeEnqueueStep(s, op))
  {
    var call := s.enqueues[op];
    if !call.phase.saved {
      RetainingKeepsFiling(s, call.phase.job);
      LeavingKeepsFiling(s.(intents := RetainIntent(s.intents, call.phase.job)), op);
      LeavingKeepsFiling(s, op);
    }
  }

  lemma FinalizerReturnedKeepsFiling(s: State, op: nat)
    requires JobsFiledUnderTheirMemory(s) && Enabled(s, FinalizerReturned(op))
    ensures JobsFiledUnderTheirMemory(FinalizerReturnedStep(s, op))
  {
    LeavingKeepsFiling(Schedule(s.(pending := PushPending(s.pending, s.enqueues[op].phase.job))), op);
  }

  lemma FinalizerFailedKeepsFiling(s: State, op: nat, saved: bool)
    requires JobsFiledUnderTheirMemory(s) && Enabled(s, FinalizerFailed(op, saved))
    ensures JobsFiledUnderTheirMemory(FinalizerFailedStep(s, op, saved))
  {
    RetainingKeepsFiling(s, s.enqueues[op].phase.job);
    LeavingKeepsFiling(s.(intents := RetainIntent(s.intents, s.enqueues[op].phase.job)), op);
  }

  lemma StepKeepsFiling(s: State, step: Step)
    requires JobsFiledUnderTheirMemory(s) && Enabled(s, step)
    ensures JobsFiledUnderTheirMemory(Apply(s, step))
  {
    match step
    case StartEnqueue(op, job, hasFinalizer, saved) => StartEnqueueKeepsFiling(s, op, job, hasFinalizer, saved);
    case ResumeEnqueue(op) => ResumeEnqueueKeepsFiling(s, op);
    case FinalizerReturned(op) => FinalizerReturnedKeepsFiling(s, op);
    case FinalizerFailed(op, saved) => FinalizerFailedKeepsFiling(s, op, saved);
    case FinishCompensation(op) => LeavingKeepsFiling(s, op);
    case _ =>
  }

  lemma LeavingWithoutFinalizer(s: State, op: nat)
    requires op in s.enqueues && !s.enqueues[op].hasFinalizer
    ensures Suspended(s.(enqueues := s.enqueues - {op})) == Suspended(s)
  {
    var t := s.(enqueues := s.enqueues - {op});
    if k :| k in s.enqueues && s.enqueues[k].hasFinalizer {
      assert k in t.enqueues && t.enqueues[k].hasFinalizer;
    }
  }

  lemma ChangingPhase(s: State, op: nat, phase: EnqueuePhase)
    requires op in s.enqueues
    ensures Suspended(s.(enqueues := s.enqueues[op := s.enqueues[op].(phase := phase)])) == Suspended(s)
  {
    var t := s.(enqueues := s.enqueues[op := s.enqueues[op].(phase := phase)]);
    if k :| k in s.enqueues && s.enqueues[k].hasFinalizer {
      assert k in t.enqueues && t.enqueues[k].hasFinalizer;
    }
  }

  lemma LeavingKeepsWakeUp(s: State, op: nat)
    requires op in s.enqueues && NoLostWakeUp(s)
    ensures NoLostWakeUp(LeaveEnqueue(s, op))
  {
    if !s.enqueues[op].hasFinalizer {
      LeavingWithoutFinalizer(s, op);
    }
  }

  lemma StepKeepsWakeUp(s: State, step: Step)
    requires NoLostWakeUp(s) && Enabled(s, step)
    ensures NoLostWakeUp(Apply(s, step))
  {
    match step
    case StartEnqueue(op, _, _, _) =>
      var t := Apply(s, step);
      if k :| k in s.enqueues && s.enqueues[k].hasFinalizer {
        assert k in t.enqueues && t.enqueues[k].hasFinalizer;
      }
    case ResumeEnqueue(op) =>
      ChangingPhase(s, op, Finalizing(s.enqueues[op].phase.job));
      LeavingKeepsWakeUp(s.(intents := RetainIntent(s.intents, s.enqueues[op].phase.job)), op);
      LeavingKeepsWakeUp(s, op);
    case FinalizerReturned(op) =>
      LeavingKeepsWakeUp(Schedule(s.(pending := PushPending(s.pending, s.enqueues[op].phase.job))), op);
    case FinalizerFailed(op, _) =>
      ChangingPhase(s, op, Compensating);
      LeavingKeepsWakeUp(s.(intents := RetainIntent(s.intents, s.enqueues[op].phase.job)), op);
    case FinishCompensation(op) =>
      LeavingKeepsWakeUp(s, op);
    case _ =>
  }

  // A step that makes a memory's work unfinished writes a status other than success for it.

  lemma PushedMemory(s: State, op: nat, id: MemoryId)
    requires JobsFiledUnderTheirMemory(s) && op in s.enqueues && s.enqueues[op].phase.Finalizing?
    requires HasJob(PushPending(s.pending, s.enqueues[op].phase.job), id)
    ensures Unfinished(s, id)
  {
    PushPendingMemories(s.pending, s.enqueues[op].phase.job, id);
    if !HasJob(s.pending, id) {
      assert s.enqueues[op].memoryId == id && HoldsRetainedJob(s.enqueues[op]);
    }
  }

  lemma LeavingFinishesNothing(s: State, op: nat, id: MemoryId)
    requires op in s.enqueues && Unfinished(LeaveEnqueue(s, op), id)
    ensures Unfinished(s, id)
  {
    var t := LeaveEnqueue(s, op);
    if k :| k in t.enqueues && t.enqueues[k].memoryId == id && HoldsRetainedJob(t.enqueues[k]) {
      assert k in s.enqueues && s.enqueues[k] == t.enqueues[k];
    }
  }

  lemma NextJobFinishesNothing(s: State, id: MemoryId)
    requires Unfinished(NextJob(s), id)
    ensures Unfinished(s, id)
  {
    var t := NextJob(s);
    if t.worker.Running? {
      assert s.pending[0].memoryId == t.worker.job.memoryId;
      if i :| 0 <= i < |t.pending| && t.pending[i].memoryId == id {
        assert s.pending[i + 1].memoryId == id;
      }
    }
  }

  lemma StartEnqueueUnfinished(s: State, op: nat, job: Job, hasFinalizer: bool, saved: bool, id: MemoryId)
    requires op !in s.enqueues && Unfinished(StartEnqueueStep(s, op, job, hasFinalizer, saved), id)
    requires !Saves(s, job.memoryId, saved) || id != job.memoryId
    ensures Unfinished(s, id)
  {
    var t := StartEnqueueStep(s, op, job, hasFinalizer, saved);
    if k :| k in t.enqueues && t.enqueues[k].memoryId == id && HoldsRetainedJob(t.enqueues[k]) {
      if k != op { assert s.enqueues[k] == t.enqueues[k]; }
    }
  }

  lemma ResumeEnqueueUnfinished(s: State, op: nat, id: MemoryId)
    requires JobsFiledUnderTheirMemory(s) && Enabled(s, ResumeEnqueue(op))
    requires Unfinished(ResumeEnqueueStep(s, op), id)
    ensures Unfinished(s, id)
  {
    var call := s.enqueues[op];
    var t := ResumeEnqueueStep(s, op);
    if call.phase.saved {
      if k :| k in t.enqueues && t.enqueues[k].memoryId == id && HoldsRetainedJob(t.enqueues[k]) {
        assert k in s.enqueues && s.enqueues[k].memoryId == id && HoldsRetainedJob(s.enqueues[k]);
      }
    } else if call.tookIntent {
      LeavingFinishesNothing(s.(intents := RetainIntent(s.intents, call.phase.job)), op, id);
      assert HoldsRetainedJob(call);
    } else {
      LeavingFinishesNothing(s, op, id);
    }
  }

  lemma FinalizerReturnedUnfinished(s: State, op: nat, id: MemoryId)
    requires JobsFiledUnderTheirMemory(s) && Enabled(s, FinalizerReturned(op))
    requires Unfinished(FinalizerReturnedStep(s, op), id)
    ensures Unfinished(s, id)
  {
    var pending := PushPending(s.pending, s.enqueues[op].phase.job);
    LeavingFinishesNothing(Schedule(s.(pending := pending)), op, id);
    if HasJob(pending, id) {
      PushedMemory(s, op, id);
    }
  }

  lemma FinalizerFailedUnfinished(s: State, op: nat, saved: bool, id: MemoryId)
    requires JobsFiledUnderTheirMemory(s) && Enabled(s, FinalizerFailed(op, saved))
    requires Unfinished(FinalizerFailedStep(s, op, saved), id)
    ensures Unfinished(s, id)
  {
    var call := s.enqueues[op];
    var t := FinalizerFailedStep(s, op, saved);
    assert HoldsRetainedJob(call);
    if HasPending(s, call.memoryId) || IsRunning(s, call.memoryId) {
      LeavingFinishesNothing(s.(intents := RetainIntent(s.intents, call.phase.job)), op, id);
    } else if k :| k in t.enqueues && t.enqueues[k].memoryId == id && HoldsRetainedJob(t.enqueues[k]) {
      assert k != op && s.enqueues[k] == t.enqueues[k];
    }
  }

  lemma PersistUnfinished(s: State, step: Step, id: MemoryId)
    requires step.StartPersist? || step.ResumePersist?
    requires Enabled(s, step) && Unfinished(Apply(s, step), id)
    requires step.StartPersist? ==> !Saves(s, step.job.memoryId, step.saved) || id != step.job.memoryId
    ensures Unfinished(s, id)
  {
    var t := Apply(s, step);
    if k :| k in t.persists && t.persists[k].job.memoryId == id && t.persists[k].saved {
      if k != step.op { assert s.persists[k] == t.persists[k]; }
    }
  }

  /** A saved entry status is not success. */
  lemma EntryWritesStatus(s: State, step: Step)
    requires step.StartEnqueue? || step.StartPersist?
    requires Enabled(s, step) && Saves(s, step.job.memoryId, step.saved)
    ensures step.job.memoryId in Apply(s, step).status && Apply(s, step).status[step.job.memoryId] != Success
  {
    hide Merge, RetainIntent;
  }

  lemma WorkerFinishesNothing(s: State, step: Step, id: MemoryId)
    requires Enabled(s, step) && Unfinished(Apply(s, step), id)
    requires step.WorkerTimer? || step.JobSettled? || step.StatusRecorded? || step.WorkerSettled?
    ensures Unfinished(s, id)
  {
    if step.WorkerTimer? || (step.StatusRecorded? && !s.worker.mustRecordFailure) {
      NextJobFinishesNothing(s, id);
    }
  }

  lemma OutsiderFinishesNothing(s: State, step: Step, id: MemoryId)
    requires Enabled(s, step) && Unfinished(Apply(s, step), id)
    requires step.StartScan? || step.ScanRecordsFailure? || step.EndScan? || step.OtherStatusWrite? || step.MemoryDeleted?
    ensures Unfinished(s, id)
  {
  }

  lemma EntryUnfinished(s: State, step: Step, id: MemoryId)
    requires JobsFiledUnderTheirMemory(s) && Enabled(s, step) && Unfinished(Apply(s, step), id)
    requires step.StartEnqueue? || step.StartPersist?
    ensures Unfinished(s, id) || (id in Apply(s, step).status && Apply(s, step).status[id] != Success)
  {
    hide Unfinished, StartEnqueueStep, StartPersistStep, Saves;
    if Saves(s, step.job.memoryId, step.saved) && id == step.job.memoryId {
      EntryWritesStatus(s, step);
    } else if step.StartPersist? {
      PersistUnfinished(s, step, id);
    } else {
      StartEnqueueUnfinished(s, step.op, step.job, step.hasFinalizer, step.saved, id);
    }
  }

  lemma UnfinishedBefore(s: State, step: Step, id: MemoryId)
    requires JobsFiledUnderTheirMemory(s) && Enabled(s, step)
    requires Unfinished(Apply(s, step), id)
    ensures Unfinished(s, id) || (id in Apply(s, step).status && Apply(s, step).status[id] != Success)
  {
    hide Unfinished, Enabled, JobsFiledUnderTheirMemory, ResumeEnqueueStep, FinalizerReturnedStep, FinalizerFailedStep, LeaveEnqueue;
    match step
    case StartEnqueue(_, _, _, _) => EntryUnfinished(s, step, id);
    case StartPersist(_, _, _) => EntryUnfinished(s, step, id);
    case ResumeEnqueue(op) => ResumeEnqueueUnfinished(s, op, id);
    case FinalizerReturned(op) => FinalizerReturnedUnfinished(s, op, id);
    case FinalizerFailed(op, saved) => FinalizerFailedUnfinished(s, op, saved, id);
    case FinishCompensation(op) => CompensationFinishesNothing(s, op, id);
    case ResumePersist(_) => PersistUnfinished(s, step, id);
    case WorkerTimer => WorkerFinishesNothing(s, step, id);
    case JobSettled(_, _) => WorkerFinishesNothing(s, step, id);
    case StatusRecorded(_) => WorkerFinishesNothing(s, step, id);
    case WorkerSettled => WorkerFinishesNothing(s, step, id);
    case _ => OutsiderFinishesNothing(s, step, id);
  }

  lemma CompensationFinishesNothing(s: State, op: nat, id: MemoryId)
    requires Enabled(s, FinishCompensation(op)) && Unfinished(LeaveEnqueue(s, op), id)
    ensures Unfinished(s, id)
  {
    LeavingFinishesNothing(s, op, id);
  }

  /** The worker writes success only for a memory with nothing left to do. */
  lemma SuccessWritten(s: State, step: Step, id: MemoryId)
    requires Enabled(s, step)
    requires id in Apply(s, step).status && Apply(s, step).status[id] == Success
    requires !(id in s.status && s.status[id] == Success)
    ensures step.JobSettled? && step.succeeded && step.saved && id == s.worker.job.memoryId
    ensures !Unfinished(Apply(s, step), id)
  {
    assert step.JobSettled?;
    var t := Apply(s, step);
    assert StatusAfterSuccess(s, id) == Success;
    if k :| k in t.enqueues && t.enqueues[k].memoryId == id && HoldsRetainedJob(t.enqueues[k]) {
      assert EnqueueInFlight(s, id);
    }
    if k :| k in t.persists && t.persists[k].job.memoryId == id && t.persists[k].saved {
      assert PersistInFlight(s, id);
    }
  }

  lemma StepKeepsSuccess(s: State, step: Step)
    requires SuccessHidesNoWork(s) && JobsFiledUnderTheirMemory(s) && Enabled(s, step)
    ensures SuccessHidesNoWork(Apply(s, step))
  {
    var t := Apply(s, step);
    forall id | id in t.status && t.status[id] == Success
      ensures !Unfinished(t, id)
    {
      if id in s.status && s.status[id] == Success {
        if Unfinished(t, id) { UnfinishedBefore(s, step, id); }
      } else {
        SuccessWritten(s, step, id);
      }
    }
  }

  lemma StepKeepsInv(s: State, step: Step)
    requires Inv(s) && Enabled(s, step)
    ensures Inv(Apply(s, step))
  {
    StepKeepsOnePending(s, step);
    StepKeepsFiling(s, step);
    StepKeepsWakeUp(s, step);
    StepKeepsSuccess(s, step);
  }

  lemma {:induction false} RunKeepsInv(s: State, steps: seq<Step>)
    requires Inv(s) && IsRun(s, steps)
    ensures Inv(After(s, steps))
    decreases |steps|
  {
    if steps != [] {
      StepKeepsInv(s, steps[0]);
      RunKeepsInv(Apply(s, steps[0]), steps[1..]);
    }
  }

  lemma ReachableInv(steps: seq<Step>)
    requires IsRun(Initial, steps)
    ensures Inv(After(Initial, steps))
  {
    RunKeepsInv(Initial, steps);
  }

  // Accepted work

  /** The path sits in a durable intent, a pending job, or a call in flight that retains its job on failure. */
  ghost predicate Secured(s: State, id: MemoryId, path: ContentPath) {
    || (id in s.intents && path in s.intents[id].contentPaths)
    || HasPath(s.pending, id, path)
    || InRetainedCall(s, id, path)
  }

  predicate InRetainedCall(s: State, id: MemoryId, path: ContentPath) {
    exists k :: k in s.enqueues && s.enqueues[k].memoryId == id && HoldsRetainedJob(s.enqueues[k])
                && path in s.enqueues[k].phase.job.contentPaths
  }

  /** The step in which a call returns, or throws after its queued status was saved. */
  ghost predicate Accepts(s: State, step: Step, id: MemoryId, path: ContentPath)
    requires Enabled(s, step)
  {
    match step
    case ResumePersist(op) =>
      s.persists[op].saved && s.persists[op].job.memoryId == id && path in s.persists[op].job.contentPaths
    case FinalizerReturned(op) => s.enqueues[op].memoryId == id && path in s.enqueues[op].phase.job.contentPaths
    case FinalizerFailed(op, _) => s.enqueues[op].memoryId == id && path in s.enqueues[op].phase.job.contentPaths
    case _ => false
  }

  /** The step calls runJob with a job of this memory that carries the path. */
  ghost predicate HandsOver(s: State, step: Step, id: MemoryId, path: ContentPath)
    requires Enabled(s, step)
  {
    var t := Apply(s, step);
    !s.worker.Running? && t.worker.Running? && t.worker.job.memoryId == id && path in t.worker.job.contentPaths
  }

  ghost predicate HandedOverDuring(s: State, steps: seq<Step>, id: MemoryId, path: ContentPath)
    requires IsRun(s, steps)
    decreases |steps|
  {
    steps != []
    && (HandsOver(s, steps[0], id, path) || HandedOverDuring(Apply(s, steps[0]), steps[1..], id, path))
  }

  lemma RetainingSecures(s: State, job: Job, id: MemoryId, path: ContentPath)
    requires Secured(s, id, path) || (id == job.memoryId && path in job.contentPaths)
    ensures Secured(s.(intents := RetainIntent(s.intents, job)), id, path)
  {
    var t := s.(intents := RetainIntent(s.intents, job));
    if job.memoryId in s.intents {
      MergeIsUnion(job, s.intents[job.memoryId]);
    }
    assert InRetainedCall(s, id, path) ==> InRetainedCall(t, id, path);
  }

  lemma LeavingSecures(s: State, op: nat, id: MemoryId, path: ContentPath)
    requires op in s.enqueues && Secured(s, id, path)
    requires HoldsRetainedJob(s.enqueues[op]) && s.enqueues[op].memoryId == id && path in s.enqueues[op].phase.job.contentPaths
             ==> (id in s.intents && path in s.intents[id].contentPaths) || HasPath(s.pending, id, path)
    ensures Secured(LeaveEnqueue(s, op), id, path)
  {
    var t := LeaveEnqueue(s, op);
    if k :| k in s.enqueues && s.enqueues[k].memoryId == id && HoldsRetainedJob(s.enqueues[k])
            && path in s.enqueues[k].phase.job.contentPaths {
      if k != op { assert t.enqueues[k] == s.enqueues[k]; }
    }
  }

  lemma StartEnqueueSecures(s: State, op: nat, job: Job, hasFinalizer: bool, saved: bool, id: MemoryId, path: ContentPath)
    requires Enabled(s, StartEnqueue(op, job, hasFinalizer, saved)) && Secured(s, id, path)
    ensures Secured(StartEnqueueStep(s, op, job, hasFinalizer, saved), id, path)
  {
    var t := StartEnqueueStep(s, op, job, hasFinalizer, saved);
    if k :| k in s.enqueues && s.enqueues[k].memoryId == id && HoldsRetainedJob(s.enqueues[k])
            && path in s.enqueues[k].phase.job.contentPaths {
      assert t.enqueues[k] == s.enqueues[k];
    } else if id == job.memoryId && id in s.intents && path in s.intents[id].contentPaths {
      MergeIsUnion(s.intents[id], job);
      assert t.enqueues[op].memoryId == id && HoldsRetainedJob(t.enqueues[op]);
    }
  }

  lemma ResumeEnqueueSecures(s: State, op: nat, id: MemoryId, path: ContentPath)
    requires Enabled(s, ResumeEnqueue(op)) && JobsFiledUnderTheirMemory(s) && Secured(s, id, path)
    ensures Secured(ResumeEnqueueStep(s, op), id, path)
  {
    var call := s.enqueues[op];
    if call.phase.saved {
      var t := ResumeEnqueueStep(s, op);
      if k :| k in s.enqueues && s.enqueues[k].memoryId == id && HoldsRetainedJob(s.enqueues[k])
              && path in s.enqueues[k].phase.job.contentPaths {
        assert k in t.enqueues && t.enqueues[k].memoryId == id && HoldsRetainedJob(t.enqueues[k])
               && path in t.enqueues[k].phase.job.contentPaths;
      }
    } else if call.tookIntent {
      RetainingSecures(s, call.phase.job, id, path);
      if id == call.memoryId && path in call.phase.job.contentPaths && id in s.intents {
        MergeIsUnion(call.phase.job, s.intents[id]);
      }
      LeavingSecures(s.(intents := RetainIntent(s.intents, call.phase.job)), op, id, path);
    } else {
      LeavingSecures(s, op, id, path);
    }
  }

  lemma FinalizerReturnedSecures(s: State, op: nat, id: MemoryId, path: ContentPath)
    requires Enabled(s, FinalizerReturned(op)) && JobsFiledUnderTheirMemory(s)
    requires Secured(s, id, path) || Accepts(s, FinalizerReturned(op), id, path)
    ensures Secured(FinalizerReturnedStep(s, op), id, path)
  {
    var job := s.enqueues[op].phase.job;
    var pushed := Schedule(s.(pending := PushPending(s.pending, job)));
    PushPendingPaths(s.pending, job, id, path);
    if k :| k in s.enqueues && s.enqueues[k].memoryId == id && HoldsRetainedJob(s.enqueues[k])
            && path in s.enqueues[k].phase.job.contentPaths {
      assert pushed.enqueues[k] == s.enqueues[k];
    }
    LeavingSecures(pushed, op, id, path);
  }

  lemma FinalizerFailedSecures(s: State, op: nat, saved: bool, id: MemoryId, path: ContentPath)
    requires Enabled(s, FinalizerFailed(op, saved)) && JobsFiledUnderTheirMemory(s)
    requires Secured(s, id, path) || Accepts(s, FinalizerFailed(op, saved), id, path)
    ensures Secured(FinalizerFailedStep(s, op, saved), id, path)
  {
    var call := s.enqueues[op];
    var retained := s.(intents := RetainIntent(s.intents, call.phase.job));
    RetainingSecures(s, call.phase.job, id, path);
    if id == call.memoryId && path in call.phase.job.contentPaths && id in s.intents {
      MergeIsUnion(call.phase.job, s.intents[id]);
    }
    if HasPending(s, call.memoryId) || IsRunning(s, call.memoryId) {
      LeavingSecures(retained, op, id, path);
    } else {
      var t := FinalizerFailedStep(s, op, saved);
      if k :| k in s.enqueues && k != op && s.enqueues[k].memoryId == id && HoldsRetainedJob(s.enqueues[k])
              && path in s.enqueues[k].phase.job.contentPaths {
        assert t.enqueues[k] == s.enqueues[k];
      }
    }
  }

  lemma ResumePersistSecures(s: State, op: nat, id: MemoryId, path: ContentPath)
    requires Enabled(s, ResumePersist(op))
    requires Secured(s, id, path) || Accepts(s, ResumePersist(op), id, path)
    ensures Secured(ResumePersistStep(s, op), id, path)
  {
    var job := s.persists[op].job;
    if job.memoryId in s.intents {
      MergeIsUnion(s.intents[job.memoryId], job);
    }
    assert InRetainedCall(s, id, path) ==> InRetainedCall(ResumePersistStep(s, op), id, path);
  }

  lemma NextJobSecures(s: State, id: MemoryId, path: ContentPath)
    requires Secured(s, id, path)
    ensures Secured(NextJob(s), id, path)
            || (NextJob(s).worker.Running? && NextJob(s).worker.job.memoryId == id
                && path in NextJob(s).worker.job.contentPaths)
  {
    var t := NextJob(s);
    assert InRetainedCall(s, id, path) ==> InRetainedCall(t, id, path);
    if t.worker.Running? {
      assert s.pending == [s.pending[0]] + s.pending[1..];
      HasPathCons(s.pending[0], s.pending[1..], id, path);
    }
  }

  /** One step never drops a secured path, except by handing it to runJob. */
  lemma StepSecures(s: State, step: Step, id: MemoryId, path: ContentPath)
    requires Enabled(s, step) && JobsFiledUnderTheirMemory(s)
    requires Secured(s, id, path) || Accepts(s, step, id, path)
    ensures Secured(Apply(s, step), id, path) || HandsOver(s, step, id, path)
  {
    match step
    case StartEnqueue(op, job, hasFinalizer, saved) => StartEnqueueSecures(s, op, job, hasFinalizer, saved, id, path);
    case ResumeEnqueue(op) => ResumeEnqueueSecures(s, op, id, path);
    case FinalizerReturned(op) => FinalizerReturnedSecures(s, op, id, path);
    case FinalizerFailed(op, saved) => FinalizerFailedSecures(s, op, saved, id, path);
    case FinishCompensation(op) => LeavingSecures(s, op, id, path);
    case ResumePersist(op) => ResumePersistSecures(s, op, id, path);
    case WorkerTimer => NextJobSecures(s, id, path);
    case StatusRecorded(_) =>
      if s.worker.mustRecordFailure {
        assert InRetainedCall(s, id, path) ==> InRetainedCall(Apply(s, step), id, path);
      } else {
        NextJobSecures(s, id, path);
      }
    case _ =>
      assert InRetainedCall(s, id, path) ==> InRetainedCall(Apply(s, step), id, path);
  }

  lemma {:induction false} RunSecures(s: State, steps: seq<Step>, id: MemoryId, path: ContentPath)
    requires IsRun(s, steps) && Inv(s) && Secured(s, id, path)
    ensures Secured(After(s, steps), id, path) || HandedOverDuring(s, steps, id, path)
    decreases |steps|
  {
    if steps != [] {
      StepSecures(s, steps[0], id, path);
      StepKeepsInv(s, steps[0]);
      if !HandsOver(s, steps[0], id, path) {
        RunSecures(Apply(s, steps[0]), steps[1..], id, path);
      }
    }
  }

  /**
   No accepted work is lost: a path accepted at any point of any run is still secured at its end,
   or some later step handed a job carrying it to runJob.
   */
  lemma NoAcceptedWorkLost(earlier: seq<Step>, step: Step, later: seq<Step>, id: MemoryId, path: ContentPath)
    requires IsRun(Initial, earlier)
    requires Enabled(After(Initial, earlier), step) && Accepts(After(Initial, earlier), step, id, path)
    requires IsRun(Apply(After(Initial, earlier), step), later)
    ensures var accepted := Apply(After(Initial, earlier), step);
            Secured(After(accepted, later), id, path) || HandedOverDuring(accepted, later, id, path)
  {
    var s := After(Initial, earlier);
    ReachableInv(earlier);
    StepKeepsInv(s, step);
    StepSecures(s, step, id, path);
    RunSecures(Apply(s, step), later, id, path);
  }

  /** A secured path counts as unfinished work of its memory. */
  lemma SecuredIsUnfinished(s: State, id: MemoryId, path: ContentPath)
    requires Secured(s, id, path)
    ensures Unfinished(s, id)
  {
  }

  /** The statuses the retry scan selects. */
  predicate RetryEligible(value: Status) {
    value == Pending || value == Queued || value == Failed
  }

  /**
   A success status never hides work: in every reachable state a memory with unfinished work has
   a status the retry scan of the next process would select.
   */
  lemma UnfinishedWorkIsRetryEligible(steps: seq<Step>, id: MemoryId)
    requires IsRun(Initial, steps)
    requires Unfinished(After(Initial, steps), id) && id in After(Initial, steps).status
    ensures RetryEligible(After(Initial, steps).status[id])
  {
    ReachableInv(steps);
  }

  /** While runJob has a job, no step of anyone changes that job. */
  lemma RunningJobNeverChanges(s: State, step: Step)
    requires Enabled(s, step) && s.worker.Running?
    ensures Apply(s, step).worker.Running? || Apply(s, step).worker.Recording?
    ensures Apply(s, step).worker.job == s.worker.job
  {
  }

  // The worker empties the queue

  predicate WorkerStep(step: Step) {
    step.WorkerTimer? || step.JobSettled? || step.StatusRecorded? || step.WorkerSettled?
  }

  function WorkLeft(s: State): nat {
    6 * |s.pending|
    + match s.worker
      case Idle => 0
      case Scheduled => 2
      case Running(_) => 6
      case Recording(_, mustRecordFailure) => if mustRecordFailure then 5 else 4
      case Finishing => if s.pending == [] then 1 else 3
  }

  lemma WorkerStepProgress(s: State, step: Step)
    requires Enabled(s, step) && WorkerStep(step) && !Suspended(s)
    ensures WorkLeft(Apply(s, step)) < WorkLeft(s) && !Suspended(Apply(s, step))
    ensures Apply(s, step).pending == s.pending
            || (s.pending != [] && Apply(s, step).pending == s.pending[1..]
                && Apply(s, step).worker == Running(s.pending[0]))
  {
    var t := Apply(s, step);
    assert t.scans == s.scans && t.enqueues == s.enqueues;
  }

  /** Left to itself the worker takes boundedly many steps and stops only when no job is pending. */
  lemma {:induction false} WorkerEmptiesQueue(s: State, steps: seq<Step>)
    requires Inv(s) && IsRun(s, steps) && !Suspended(s)
    requires forall i :: 0 <= i < |steps| ==> WorkerStep(steps[i])
    ensures |steps| <= WorkLeft(s)
    ensures After(s, steps).pending != [] ==> exists next :: WorkerStep(next) && Enabled(After(s, steps), next)
    decreases |steps|
  {
    if steps == [] {
      if s.pending != [] {
        var next := match s.worker
          case Running(_) => JobSettled(true, true)
          case Recording(_, _) => StatusRecorded(true)
          case Finishing => WorkerSettled
          case _ => WorkerTimer;
        assert WorkerStep(next) && Enabled(s, next);
      }
    } else {
      WorkerStepProgress(s, steps[0]);
      StepKeepsInv(s, steps[0]);
      WorkerEmptiesQueue(Apply(s, steps[0]), steps[1..]);
    }
  }
}
