/** What each step writes to the database, and what a status says about the runs before it. */
module BackupQueueStatuses {
  import opened BackupJobs
  import opened BackupQueueProtocol
  import opened BackupQueueProofs
  import opened Wrappers

  function StatusOf(s: State, id: MemoryId): Option<Status> {
    if id in s.status then Some(s.status[id]) else None
  }

  /** A write to the row of one memory, which has an effect only on a row that is there. */
  function Written(s: State, id: MemoryId, target: MemoryId, saved: bool, value: Status): Option<Status> {
    if id == target && saved && id in s.status then Some(value) else StatusOf(s, id)
  }

  /** What is still to be done for a memory whose job has just been run. */
  ghost predicate NothingToDo(s: State, id: MemoryId) {
    && (forall k <- s.persists :: s.persists[k].job.memoryId != id)
    && (forall k <- s.enqueues :: s.enqueues[k].memoryId != id)
    && id !in s.intents
    && (forall i :: 0 <= i < |s.pending| ==> s.pending[i].memoryId != id)
  }

  /** A persistIntent is in flight, or an intent is kept and no enqueue is in flight that might take it. */
  ghost predicate IsIntended(s: State, id: MemoryId) {
    || (exists k <- s.persists :: s.persists[k].job.memoryId == id)
    || (id in s.intents && forall k <- s.enqueues :: s.enqueues[k].memoryId != id)
  }

  /** The statuses after each step, for every memory. */
  lemma StatusesAfterStep(s: State, step: Step, id: MemoryId)
    requires Enabled(s, step)
    ensures var after := StatusOf(Apply(s, step), id);
            match step
            case StartEnqueue(_, job, _, saved) => after == Written(s, id, job.memoryId, saved, Queued)
            case StartPersist(_, job, saved) => after == Written(s, id, job.memoryId, saved, Pending)
            case FinalizerFailed(op, saved) =>
              var target := s.enqueues[op].memoryId;
              var waiting := exists i :: 0 <= i < |s.pending| && s.pending[i].memoryId == target;
              var running := (s.worker.Running? || s.worker.Recording?) && s.worker.job.memoryId == target;
              after == if waiting || running then StatusOf(s, id) else Written(s, id, target, saved, Pending)
            case JobSettled(succeeded, saved) =>
              var target := s.worker.job.memoryId;
              after == Written(s, id, target, saved,
                               if !succeeded then Failed
                               else if NothingToDo(s, target) then Success
                               else if IsIntended(s, target) then Pending
                               else Queued)
            case StatusRecorded(saved) =>
              after == if s.worker.mustRecordFailure then Written(s, id, s.worker.job.memoryId, saved, Failed) else StatusOf(s, id)
            case ScanRecordsFailure(target, saved) => after == Written(s, id, target, saved, Failed)
            case OtherStatusWrite(target, value) => after == if id == target then Some(value) else StatusOf(s, id)
            case MemoryDeleted(target) => after == if id == target then None else StatusOf(s, id)
            case _ => after == StatusOf(s, id)
  {
    hide Apply, Suspended, NothingToDo, IsIntended;
    match step
    case StartEnqueue(_, _, _, _) => StatusWhenCalled(s, step, id);
    case StartPersist(_, _, _) => StatusWhenCalled(s, step, id);
    case FinalizerFailed(op, saved) => StatusWhenFailed(s, op, saved, id);
    case JobSettled(succeeded, saved) => StatusWhenSettled(s, succeeded, saved, id);
    case StatusRecorded(saved) => StatusWhenRecorded(s, saved, id);
    case ScanRecordsFailure(_, _) => StatusFromOutside(s, step, id);
    case OtherStatusWrite(_, _) => StatusFromOutside(s, step, id);
    case MemoryDeleted(_) => StatusFromOutside(s, step, id);
    case _ => StatusStays(s, step);
  }

  lemma StatusStays(s: State, step: Step)
    requires Enabled(s, step)
    requires !step.StartEnqueue? && !step.StartPersist? && !step.FinalizerFailed? && !step.JobSettled? && !step.StatusRecorded?
    requires !step.ScanRecordsFailure? && !step.OtherStatusWrite? && !step.MemoryDeleted?
    ensures Apply(s, step).status == s.status
  {
    hide Merge, RetainIntent, ExtendIntent, PushPending, Suspended, StartEnqueueStep, StartPersistStep, FinalizerFailedStep,
      JobSettledStep, StatusRecordedStep, Save;
  }

  lemma StatusWhenCalled(s: State, step: Step, id: MemoryId)
    requires Enabled(s, step) && (step.StartEnqueue? || step.StartPersist?)
    ensures StatusOf(Apply(s, step), id)
         == Written(s, id, step.job.memoryId, step.saved, if step.StartEnqueue? then Queued else Pending)
  {
    hide Merge;
  }

  lemma StatusFromOutside(s: State, step: Step, id: MemoryId)
    requires Enabled(s, step) && (step.ScanRecordsFailure? || step.OtherStatusWrite? || step.MemoryDeleted?)
    ensures StatusOf(Apply(s, step), id)
         == match step
            case ScanRecordsFailure(target, saved) => Written(s, id, target, saved, Failed)
            case OtherStatusWrite(target, value) => if id == target then Some(value) else StatusOf(s, id)
            case MemoryDeleted(target) => if id == target then None else StatusOf(s, id)
            case _ => None
  {
  }

  lemma StatusWhenFailed(s: State, op: nat, saved: bool, id: MemoryId)
    requires Enabled(s, FinalizerFailed(op, saved))
    ensures var target := s.enqueues[op].memoryId;
            StatusOf(Apply(s, FinalizerFailed(op, saved)), id)
            == if HasPending(s, target) || IsRunning(s, target) then StatusOf(s, id) else Written(s, id, target, saved, Pending)
  {
    hide RetainIntent, HasPending, IsRunning, Suspended;
  }

  lemma StatusWhenSettled(s: State, succeeded: bool, saved: bool, id: MemoryId)
    requires Enabled(s, JobSettled(succeeded, saved))
    ensures var target := s.worker.job.memoryId;
            StatusOf(Apply(s, JobSettled(succeeded, saved)), id)
            == Written(s, id, target, saved,
                       if !succeeded then Failed
                       else if NothingToDo(s, target) then Success
                       else if IsIntended(s, target) then Pending
                       else Queued)
  {
    hide StatusAfterSuccess, NothingToDo, IsIntended;
    SettledStatus(s, s.worker.job.memoryId);
  }

  lemma StatusWhenRecorded(s: State, saved: bool, id: MemoryId)
    requires Enabled(s, StatusRecorded(saved))
    ensures StatusOf(Apply(s, StatusRecorded(saved)), id)
         == if s.worker.mustRecordFailure then Written(s, id, s.worker.job.memoryId, saved, Failed) else StatusOf(s, id)
  {
    hide Suspended;
  }

  lemma SettledStatus(s: State, id: MemoryId)
    ensures StatusAfterSuccess(s, id)
         == if NothingToDo(s, id) then Success else if IsIntended(s, id) then Pending else Queued
  {
  }

  /**
   A job that failed leaves its memory failed, as does one whose result could not be written at first;
   what has been written about the others stays.
   */
  lemma FailuresAreWritten(s: State, saved: bool)
    requires s.worker.Running? && s.worker.job.memoryId in s.status
    ensures var t := Apply(s, JobSettled(true, true));
            Enabled(t, StatusRecorded(saved)) && Apply(t, StatusRecorded(saved)).status == t.status
    ensures var t := Apply(s, JobSettled(false, saved));
            Enabled(t, StatusRecorded(true)) && Apply(t, StatusRecorded(true)).status == t.status
    ensures StatusOf(Apply(s, JobSettled(false, true)), s.worker.job.memoryId) == Some(Failed)
    ensures var t := Apply(s, JobSettled(true, false));
            Enabled(t, StatusRecorded(true)) && StatusOf(Apply(t, StatusRecorded(true)), s.worker.job.memoryId) == Some(Failed)
  {
  }

  // Calls in flight, and the worker

  /** Which enqueue calls are in flight after each step. */
  lemma EnqueuesAfterStep(s: State, step: Step)
    requires Enabled(s, step)
    ensures var t := Apply(s, step);
            t.enqueues == match step
                          case StartEnqueue(op, _, _, _) => s.enqueues[op := t.enqueues[op]]
                          case ResumeEnqueue(op) =>
                            var call := s.enqueues[op];
                            if call.phase.saved then s.enqueues[op := call.(phase := Finalizing(call.phase.job))]
                            else s.enqueues - {op}
                          case FinalizerFailed(op, _) =>
                            if s.enqueues[op].memoryId in Waiting(s) then s.enqueues - {op}
                            else s.enqueues[op := s.enqueues[op].(phase := Compensating)]
                          case FinalizerReturned(op) => s.enqueues - {op}
                          case FinishCompensation(op) => s.enqueues - {op}
                          case _ => s.enqueues
  {
    hide Apply, Suspended, Waiting;
    match step
    case StartEnqueue(_, _, _, _) => CallStarts(s, step);
    case ResumeEnqueue(op) => CallResumes(s, op);
    case FinalizerFailed(op, saved) => CallFails(s, op, saved);
    case _ => OtherCallsStay(s, step);
  }

  lemma CallStarts(s: State, step: Step)
    requires Enabled(s, step) && step.StartEnqueue?
    ensures Apply(s, step).enqueues == s.enqueues[step.op := Apply(s, step).enqueues[step.op]]
  {
    hide Merge;
  }

  lemma CallResumes(s: State, op: nat)
    requires Enabled(s, ResumeEnqueue(op))
    ensures var call := s.enqueues[op];
            Apply(s, ResumeEnqueue(op)).enqueues
            == if call.phase.saved then s.enqueues[op := call.(phase := Finalizing(call.phase.job))] else s.enqueues - {op}
  {
    hide RetainIntent, Suspended;
  }

  lemma CallFails(s: State, op: nat, saved: bool)
    requires Enabled(s, FinalizerFailed(op, saved))
    ensures Apply(s, FinalizerFailed(op, saved)).enqueues
         == if s.enqueues[op].memoryId in Waiting(s) then s.enqueues - {op}
            else s.enqueues[op := s.enqueues[op].(phase := Compensating)]
  {
    hide RetainIntent, Suspended;
  }

  lemma OtherCallsStay(s: State, step: Step)
    requires Enabled(s, step) && !step.StartEnqueue? && !step.ResumeEnqueue? && !step.FinalizerFailed?
    ensures Apply(s, step).enqueues == if step.FinalizerReturned? || step.FinishCompensation? then s.enqueues - {step.op} else s.enqueues
  {
    hide Merge, RetainIntent, ExtendIntent, PushPending, Suspended, StatusAfterSuccess, StartEnqueueStep, ResumeEnqueueStep,
      FinalizerFailedStep;
  }

  /** Which persistIntent calls are in flight after each step. */
  lemma PersistsAfterStep(s: State, step: Step)
    requires Enabled(s, step)
    ensures var t := Apply(s, step);
            t.persists == match step
                          case StartPersist(op, job, saved) => s.persists[op := PersistOp(job, saved && job.memoryId in s.status)]
                          case ResumePersist(op) => s.persists - {op}
                          case _ => s.persists
  {
    hide Merge, RetainIntent, ExtendIntent, PushPending, Suspended, StatusAfterSuccess, HasPending, IsRunning;
  }

  /** Which retry scans are in flight after each step. */
  lemma ScansAfterStep(s: State, step: Step)
    requires Enabled(s, step)
    ensures var t := Apply(s, step);
            t.scans == match step
                       case StartScan(scan) => s.scans + {scan}
                       case EndScan(scan) => s.scans - {scan}
                       case _ => s.scans
  {
    hide Merge, RetainIntent, ExtendIntent, PushPending, Suspended, StatusAfterSuccess;
  }

  /** An enqueue that starts, or ends without having pushed its job, and a persistIntent that has written its status. */
  predicate ChangesIntents(s: State, step: Step)
    requires Enabled(s, step)
  {
    || step.StartEnqueue? || step.FinalizerFailed?
    || (step.ResumePersist? && s.persists[step.op].saved)
    || (step.ResumeEnqueue? && !s.enqueues[step.op].phase.saved && s.enqueues[step.op].tookIntent)
  }

  lemma IntentsAfterStep(s: State, step: Step)
    requires Enabled(s, step) && !ChangesIntents(s, step)
    ensures Apply(s, step).intents == s.intents
  {
    hide Merge, RetainIntent, ExtendIntent, PushPending, Suspended, StatusAfterSuccess, HasPending, IsRunning, StartEnqueueStep,
      FinalizerFailedStep;
  }

  /** The memories that have a pending job or the one that is being run. */
  function Waiting(s: State): set<MemoryId> {
    (set i | 0 <= i < |s.pending| :: s.pending[i].memoryId)
    + if s.worker.Running? || s.worker.Recording? then {s.worker.job.memoryId} else {}
  }

  /** Steps of the worker take the first job or none; a step of another may wake it, if there is a job and nothing suspends. */
  lemma WorkerAfterStep(s: State, step: Step)
    requires Enabled(s, step)
    ensures var t := Apply(s, step);
            var takes := s.pending != [] && s.scans == {} && forall k <- s.enqueues :: !s.enqueues[k].hasFinalizer;
            match step
            case JobSettled(succeeded, saved) =>
              t.pending == s.pending
              && t.worker == Recording(s.worker.job, succeeded && !(saved && s.worker.job.memoryId in s.status))
            case WorkerTimer =>
              if takes then t.worker == Running(s.pending[0]) && t.pending == s.pending[1..]
              else t.worker == Finishing && t.pending == s.pending
            case StatusRecorded(_) =>
              if s.worker.mustRecordFailure then t.worker == Recording(s.worker.job, false) && t.pending == s.pending
              else if takes then t.worker == Running(s.pending[0]) && t.pending == s.pending[1..]
              else t.worker == Finishing && t.pending == s.pending
            case WorkerSettled => t.pending == s.pending && t.worker == if takes then Scheduled else Idle
            case FinalizerReturned(_) => t.worker == s.worker || (s.worker.Idle? && t.worker.Scheduled?)
            case _ =>
              && t.pending == s.pending
              && (t.worker == s.worker || (s.worker.Idle? && t.worker.Scheduled? && t.pending != [] && !Suspended(t)))
  {
    hide Merge, RetainIntent, ExtendIntent, StatusAfterSuccess;
  }

  // Over runs

  /** A run of a job of this memory ends with the step. */
  predicate EndsRun(s: State, step: Step, id: MemoryId)
    requires Enabled(s, step)
  {
    step.JobSettled? && s.worker.job.memoryId == id
  }

  /** How the last job of a memory ended that was run; `last` is how one ended before. */
  ghost function LastRun(s: State, steps: seq<Step>, id: MemoryId, last: Option<bool>): Option<bool>
    requires IsRun(s, steps)
    decreases |steps|
  {
    if steps == [] then last
    else
      LastRun(Apply(s, steps[0]), steps[1..], id, if EndsRun(s, steps[0], id) then Some(steps[0].succeeded) else last)
  }

  lemma {:induction false} SuccessHasRun(s: State, steps: seq<Step>, id: MemoryId, last: Option<bool>)
    requires IsRun(s, steps) && Inv(s) && (StatusOf(s, id) == Some(Success) ==> last == Some(true))
    ensures StatusOf(After(s, steps), id) == Some(Success) ==> LastRun(s, steps, id, last) == Some(true)
    decreases |steps|
  {
    hide Enabled, Inv, Unfinished;
    if steps != [] {
      var step := steps[0];
      StepKeepsInv(s, step);
      OneStepHasRun(s, step, id);
      SuccessHasRun(Apply(s, step), steps[1..], id, if EndsRun(s, step, id) then Some(step.succeeded) else last);
    }
  }

  lemma OneStepHasRun(s: State, step: Step, id: MemoryId)
    requires Enabled(s, step) && Inv(s)
    ensures StatusOf(Apply(s, step), id) == Some(Success) ==>
              if EndsRun(s, step, id) then step.succeeded else StatusOf(s, id) == Some(Success)
  {
    hide Apply;
    StatusesAfterStep(s, step, id);
  }

  /** A memory recorded as success had its last job run without an error. */
  lemma SuccessMeansBackedUp(steps: seq<Step>, id: MemoryId)
    requires IsRun(Initial, steps) && StatusOf(After(Initial, steps), id) == Some(Success)
    ensures LastRun(Initial, steps, id, None) == Some(true)
  {
    ReachableInv([]);
    SuccessHasRun(Initial, steps, id, None);
  }

  // Which job a step leaves behind

  /** The paths of both, each once, for the reason given last. */
  ghost predicate IsUnion(merged: Job, older: Job, newer: Job) {
    && merged.memoryId == older.memoryId && merged.reason == newer.reason && Distinct(merged.contentPaths)
    && forall p :: p in merged.contentPaths <==> p in older.contentPaths || p in newer.contentPaths
  }

  /** The job or the union with one that was kept before. */
  ghost predicate IsJoined(result: Job, kept: Option<Job>, job: Job) {
    if kept.Some? then IsUnion(result, kept.value, job) else result == job
  }

  function IntentOf(s: State, id: MemoryId): Option<Job> {
    if id in s.intents then Some(s.intents[id]) else None
  }

  /** An enqueue takes the intent of its memory and adds its own paths, with its own reason. */
  lemma EnqueueTakesIntent(s: State, op: nat, job: Job, hasFinalizer: bool, saved: bool)
    requires Enabled(s, StartEnqueue(op, job, hasFinalizer, saved))
    ensures var t := Apply(s, StartEnqueue(op, job, hasFinalizer, saved));
            && t.intents == s.intents - {job.memoryId} && t.enqueues.Keys == s.enqueues.Keys + {op}
            && t.enqueues[op].hasFinalizer == hasFinalizer && t.enqueues[op].phase.SavingQueued?
            && t.enqueues[op].tookIntent == IntentOf(s, job.memoryId).Some?
            && IsJoined(t.enqueues[op].phase.job, IntentOf(s, job.memoryId), job)
  {
    if job.memoryId in s.intents {
      MergeIsUnion(s.intents[job.memoryId], job);
    }
  }

  /** A returned persistIntent adds its paths to the intent of its memory, with its own reason. */
  lemma PersistAddsIntent(s: State, op: nat)
    requires Enabled(s, ResumePersist(op))
    ensures var t, job := Apply(s, ResumePersist(op)), s.persists[op].job;
            if s.persists[op].saved then
              && t.intents.Keys == s.intents.Keys + {job.memoryId}
              && IsJoined(t.intents[job.memoryId], IntentOf(s, job.memoryId), job)
              && forall id <- s.intents :: id != job.memoryId ==> t.intents[id] == s.intents[id]
            else t.intents == s.intents
  {
    var job := s.persists[op].job;
    if job.memoryId in s.intents {
      MergeIsUnion(s.intents[job.memoryId], job);
    }
  }

  /**
   An enqueue whose finalizer failed, or that had taken an intent and could not write its status, keeps
   its job; an intent that came meanwhile is newer.
   */
  lemma FailureKeepsJob(s: State, step: Step)
    requires Enabled(s, step)
    requires step.FinalizerFailed?
          || (step.ResumeEnqueue? && !s.enqueues[step.op].phase.saved && s.enqueues[step.op].tookIntent)
    ensures var t, job := Apply(s, step), s.enqueues[step.op].phase.job;
            && t.intents.Keys == s.intents.Keys + {job.memoryId}
            && (if job.memoryId in s.intents then IsUnion(t.intents[job.memoryId], job, s.intents[job.memoryId])
                else t.intents[job.memoryId] == job)
            && forall id <- s.intents :: id != job.memoryId ==> t.intents[id] == s.intents[id]
  {
    hide RetainIntent, Merge, IsUnion;
    RetainedUnion(s.intents, s.enqueues[step.op].phase.job);
  }

  lemma RetainedUnion(intents: map<MemoryId, Job>, job: Job)
    ensures var r := RetainIntent(intents, job);
            && r.Keys == intents.Keys + {job.memoryId}
            && (if job.memoryId in intents then IsUnion(r[job.memoryId], job, intents[job.memoryId]) else r[job.memoryId] == job)
            && forall id <- intents :: id != job.memoryId ==> r[id] == intents[id]
  {
    if job.memoryId in intents {
      MergeIsUnion(job, intents[job.memoryId]);
    }
  }

  /** A new pending job goes to the end; a job of a memory that has one joins it where it is. */
  lemma {:induction false} PushedPlace(jobs: seq<Job>, job: Job) returns (i: nat)
    ensures var r := PushPending(jobs, job);
            if HasJob(jobs, job.memoryId) then
              && i < |jobs| && jobs[i].memoryId == job.memoryId && IsUnion(r[i], jobs[i], job)
              && (forall k :: 0 <= k < i ==> jobs[k].memoryId != job.memoryId)
              && |r| == |jobs| && forall k :: 0 <= k < |jobs| && k != i ==> r[k] == jobs[k]
            else r == jobs + [job]
    decreases |jobs|
  {
    hide Merge, IsUnion;
    i := 0;
    if jobs != [] {
      assert jobs == [jobs[0]] + jobs[1..];
      HasJobCons(jobs[0], jobs[1..], job.memoryId);
      if jobs[0].memoryId == job.memoryId {
        MergedUnion(jobs[0], job);
      } else {
        i := PushedPlace(jobs[1..], job);
        i := i + 1;
      }
    }
  }

  lemma MergedUnion(older: Job, newer: Job)
    ensures IsUnion(Merge(older, newer), older, newer)
  {
    MergeIsUnion(older, newer);
  }

  /** A returned finalizer pushes the call's job; the worker takes jobs from the front. */
  lemma PendingInOrder(s: State, op: nat)
    requires Enabled(s, FinalizerReturned(op))
    ensures Apply(s, FinalizerReturned(op)).pending == PushPending(s.pending, s.enqueues[op].phase.job)
  {
    hide PushPending;
  }

  lemma WorkerTakesFirst(s: State, step: Step)
    requires Enabled(s, step) && !s.worker.Running? && Apply(s, step).worker.Running?
    ensures s.pending != [] && Apply(s, step).worker.job == s.pending[0] && Apply(s, step).pending == s.pending[1..]
    ensures s.scans == {} && forall k <- s.enqueues :: !s.enqueues[k].hasFinalizer
  {
    hide PushPending, Merge, RetainIntent, ExtendIntent, StatusAfterSuccess;
  }
}
