/**
 The backup queue over its mutable tables. Every stretch of code between two awaits is one
 method, and the local variables of a suspended call live in a frame. Each method is proved to
 perform the protocol step of the same name.
 */
module GitMemoryBackupQueue {
  import opened BackupJobs
  import opened BackupQueueTables
  import opened BackupQueueTableSteps
  import P = BackupQueueProtocol

  datatype StartOutcome = Started | Disabled | NoContentPath | DeletionNotQueued

  class Queue {
    const gitEnabled: bool

    var pendingJobs: seq<MemoryBackupJob>
    var pendingJobsByMemoryId: map<MemoryId, MemoryBackupJob>
    var runningJobsByMemoryId: map<MemoryId, MemoryBackupJob>
    var durableIntentJobsByMemoryId: map<MemoryId, MemoryBackupJob>
    var persistIntentTransitionsByMemoryId: map<MemoryId, set<MemoryBackupJob>>
    var enqueueTransitionsByMemoryId: map<MemoryId, int>
    var worker: WorkerFrame
    var schedulingSuspensions: int

    /** The backup status column, keyed by the rows that exist. */
    var statuses: map<MemoryId, P.Status>

    var enqueueFrames: map<nat, EnqueueFrame>
    var persistFrames: map<nat, PersistFrame>
    var scanFrames: set<nat>

    /** Every job object ever filed, with the table or frame that may change it. */
    ghost var owner: Owner

    ghost function Snapshot(): Tables
      reads this
    {
      Tables(pendingJobs, pendingJobsByMemoryId, runningJobsByMemoryId, durableIntentJobsByMemoryId,
             persistIntentTransitionsByMemoryId, enqueueTransitionsByMemoryId, worker, schedulingSuspensions,
             statuses, enqueueFrames, persistFrames, scanFrames, owner)
    }

    ghost function Held(): Contents
      reads `owner, owner.Keys
    {
      map job | job in owner :: job.Value()
    }

    ghost predicate Valid()
      reads this, owner.Keys
    {
      Matched(Snapshot(), Held())
    }

    ghost function State(): P.State
      reads this, owner.Keys
    {
      StateOf(Snapshot(), Held())
    }

    constructor (gitEnabled: bool)
      ensures Valid() && fresh(owner.Keys) && State() == P.Initial
      ensures this.gitEnabled == gitEnabled
    {
      this.gitEnabled := gitEnabled;
      pendingJobs, pendingJobsByMemoryId, runningJobsByMemoryId := [], map[], map[];
      durableIntentJobsByMemoryId, persistIntentTransitionsByMemoryId := map[], map[];
      enqueueTransitionsByMemoryId, worker, schedulingSuspensions := map[], Idle, 0;
      statuses, enqueueFrames, persistFrames, scanFrames := map[], map[], map[], {};
      owner := map[];
    }

    /** The row update: it throws when the database fails or the memory is gone. */
    method UpdateBackupStatus(id: MemoryId, value: P.Status, databaseUp: bool) returns (saved: bool)
      modifies `statuses
      ensures saved == (databaseUp && id in old(statuses))
      ensures statuses == if saved then old(statuses)[id := value] else old(statuses)
    {
      saved := databaseUp && id in statuses;
      if saved {
        statuses := statuses[id := value];
      }
    }

    method SaveStatus(id: MemoryId, value: P.Status, databaseUp: bool)
      requires Valid()
      modifies `statuses
      ensures Valid() && State() == P.Save(old(State()), id, value, databaseUp)
    {
      hide Matched, StateOf, P.Save;
      SaveStep(Snapshot(), Held(), id, value, databaseUp);
      var saved := UpdateBackupStatus(id, value, databaseUp);
    }

    method ScheduleWorker()
      requires Valid()
      modifies `worker
      ensures Valid() && State() == P.Schedule(old(State()))
    {
      ghost var t := Snapshot();
      ScheduleStep(t, Held());
      hide Matched, StateOf;
      if worker == Idle && schedulingSuspensions <= 0 {
        worker := Scheduled;
      }
      assert Snapshot() == ScheduledTables(t);
      hide Snapshot;
    }

    method TakeIntent(op: nat, incoming: MemoryBackupJob) returns (job: MemoryBackupJob)
      requires incoming !in owner && incoming.memoryId in durableIntentJobsByMemoryId
      requires durableIntentJobsByMemoryId[incoming.memoryId] in owner
      modifies `durableIntentJobsByMemoryId, `owner, durableIntentJobsByMemoryId[incoming.memoryId]
      ensures job == old(durableIntentJobsByMemoryId)[incoming.memoryId]
      ensures durableIntentJobsByMemoryId == old(durableIntentJobsByMemoryId) - {incoming.memoryId}
      ensures owner == old(owner)[job := InEnqueue(op)]
      ensures Held() == old(Held())[job := Merge(old(Held())[job], incoming.Value())]
    {
      job := durableIntentJobsByMemoryId[incoming.memoryId];
      durableIntentJobsByMemoryId := durableIntentJobsByMemoryId - {incoming.memoryId};
      hide Merge;
      MergeBackupJobs(job, incoming);
      owner := owner[job := InEnqueue(op)];
    }

    /** The job an enqueue will carry: its memory's durable intent extended by the input, or a new job. */
    method TakeJob(op: nat, input: Job) returns (job: MemoryBackupJob, tookIntent: bool)
      requires op !in enqueueFrames && IntentsOwned(durableIntentJobsByMemoryId, owner)
      modifies `durableIntentJobsByMemoryId, `owner, owner.Keys
      ensures job.memoryId == input.memoryId && tookIntent == (input.memoryId in old(durableIntentJobsByMemoryId))
      ensures StartsWith(old(Snapshot()), op, job)
      ensures durableIntentJobsByMemoryId == old(durableIntentJobsByMemoryId) - {input.memoryId}
      ensures owner == old(owner)[job := InEnqueue(op)] && fresh(owner.Keys - old(owner.Keys))
      ensures Held() == old(Held())[job := if tookIntent then Merge(Value(old(Held()), job), input) else input]
    {
      assert input.memoryId in durableIntentJobsByMemoryId
             ==> Owns(owner, durableIntentJobsByMemoryId[input.memoryId], InIntents(input.memoryId))
                 && durableIntentJobsByMemoryId[input.memoryId].memoryId == input.memoryId;
      hide Merge, IntentsOwned;
      job := new MemoryBackupJob(input);
      tookIntent := input.memoryId in durableIntentJobsByMemoryId;
      if tookIntent {
        job := TakeIntent(op, job);
      } else {
        owner := owner[job := InEnqueue(op)];
      }
    }

    method EnterCall(op: nat, job: MemoryBackupJob, hasFinalizer: bool, tookIntent: bool, databaseUp: bool)
      modifies `enqueueTransitionsByMemoryId, `schedulingSuspensions, `statuses, `enqueueFrames
      ensures var t := old(Snapshot());
              var saves := databaseUp && job.memoryId in t.statuses;
              Snapshot() == t.(
                enqueueTransitionsByMemoryId := IncrementCount(t.enqueueTransitionsByMemoryId, job.memoryId),
                schedulingSuspensions := t.schedulingSuspensions + (if hasFinalizer then 1 else 0),
                statuses := if saves then t.statuses[job.memoryId := P.Queued] else t.statuses,
                enqueueFrames := t.enqueueFrames[
                  op := EnqueueFrame(job.memoryId, hasFinalizer, tookIntent, SavingQueued(job, saves))])
    {
      enqueueTransitionsByMemoryId := IncrementCount(enqueueTransitionsByMemoryId, job.memoryId);
      if hasFinalizer {
        schedulingSuspensions := schedulingSuspensions + 1;
      }
      var saved := UpdateBackupStatus(job.memoryId, P.Queued, databaseUp);
      enqueueFrames := enqueueFrames[op := EnqueueFrame(job.memoryId, hasFinalizer, tookIntent, SavingQueued(job, saved))];
    }

    method FileCall(op: nat, input: Job, hasFinalizer: bool, databaseUp: bool) returns (job: MemoryBackupJob)
      requires op !in enqueueFrames && IntentsOwned(durableIntentJobsByMemoryId, owner)
      modifies this, owner.Keys
      ensures job.memoryId == input.memoryId && StartsWith(old(Snapshot()), op, job)
      ensures Snapshot() == EnqueueStarted(old(Snapshot()), op, job, hasFinalizer, databaseUp)
      ensures Held() == old(Held())[job := if input.memoryId in old(durableIntentJobsByMemoryId)
                                           then Merge(Value(old(Held()), job), input) else input]
      ensures fresh(owner.Keys - old(owner.Keys))
    {
      hide StartsWith, Merge, Value, IntentsOwned;
      var tookIntent;
      job, tookIntent := TakeJob(op, input);
      EnterCall(op, job, hasFinalizer, tookIntent, databaseUp);
    }

    method BeginEnqueue(op: nat, input: Job, hasFinalizer: bool, databaseUp: bool)
      requires Valid() && op !in enqueueFrames
      modifies this, owner.Keys
      ensures Valid() && fresh(owner.Keys - old(owner.Keys))
      ensures State() == P.StartEnqueueStep(old(State()), op, input, hasFinalizer, databaseUp)
    {
      ghost var t, c := Snapshot(), Held();
      assert IntentsOwned(durableIntentJobsByMemoryId, owner);
      hide StateOf, Matched, StartsWith, Merge, IntentsOwned, EnqueueStarted, P.StartEnqueueStep;
      var job := FileCall(op, input, hasFinalizer, databaseUp);
      EnqueueStartedStep(t, c, op, job, input, hasFinalizer, databaseUp, Snapshot(), Held());
    }

    method StartEnqueue(op: nat, input: Job, hasFinalizer: bool, databaseUp: bool) returns (outcome: StartOutcome)
      requires Valid() && op !in enqueueFrames
      modifies this, owner.Keys
      ensures Valid() && fresh(owner.Keys - old(owner.Keys))
      ensures outcome == Started <==> gitEnabled && P.Enabled(old(State()), P.StartEnqueue(op, input, hasFinalizer, databaseUp))
      ensures State() == if outcome == Started
                         then P.StartEnqueueStep(old(State()), op, input, hasFinalizer, databaseUp) else old(State())
    {
      assert op !in State().enqueues;
      hide StateOf, Matched, P.StartEnqueueStep;
      if !gitEnabled {
        return Disabled;
      }
      if |input.contentPaths| == 0 {
        return NoContentPath;
      }
      if input.reason == MemoryDeletion {
        return DeletionNotQueued;
      }
      BeginEnqueue(op, input, hasFinalizer, databaseUp);
      return Started;
    }

    method RemoveCall(op: nat)
      requires op in enqueueFrames
      modifies `enqueueFrames, `enqueueTransitionsByMemoryId, `schedulingSuspensions
      ensures Snapshot() == CallLeft(old(Snapshot()), op)
    {
      var frame := enqueueFrames[op];
      enqueueFrames := enqueueFrames - {op};
      enqueueTransitionsByMemoryId := DecrementCount(enqueueTransitionsByMemoryId, frame.memoryId);
      if frame.hasFinalizer {
        schedulingSuspensions := schedulingSuspensions - 1;
      }
    }

    /** The end of a call: its `finally` block. */
    method LeaveEnqueue(op: nat)
      requires Valid() && op in enqueueFrames
      modifies `enqueueFrames, `enqueueTransitionsByMemoryId, `schedulingSuspensions, `worker
      ensures Valid()
      ensures op in old(State()).enqueues && State() == P.LeaveEnqueue(old(State()), op)
    {
      hide Matched, StateOf, CallLeft;
      LeaveStep(Snapshot(), Held(), op);
      var hasFinalizer := enqueueFrames[op].hasFinalizer;
      RemoveCall(op);
      if hasFinalizer && |pendingJobs| > 0 {
        ScheduleWorker();
      }
    }

    // Resuming an enqueue whose status write has settled

    method AwaitFinalizer(op: nat)
      requires Valid() && op in enqueueFrames && enqueueFrames[op].phase.SavingQueued? && enqueueFrames[op].phase.saved
      modifies `enqueueFrames
      ensures Valid()
      ensures op in old(State()).enqueues && old(State()).enqueues[op].phase.SavingQueued?
              && State() == P.ResumeEnqueueStep(old(State()), op)
    {
      hide Matched, StateOf, P.ResumeEnqueueStep;
      CallFacts(Snapshot(), Held(), op);
      FinalizerAwaitedMatched(Snapshot(), Held(), op);
      FinalizerAwaitedStep(Snapshot(), Held(), op);
      var frame := enqueueFrames[op];
      enqueueFrames := enqueueFrames[op := frame.(phase := Finalizing(frame.phase.job))];
    }

    /** The failing call's job becomes the intent; an intent that appeared meanwhile is merged into it. */
    method GiveToIntents(op: nat)
      requires op in enqueueFrames && !enqueueFrames[op].phase.Compensating? && enqueueFrames[op].phase.job in owner
      requires enqueueFrames[op].memoryId in durableIntentJobsByMemoryId
               ==> durableIntentJobsByMemoryId[enqueueFrames[op].memoryId] in owner
      modifies `durableIntentJobsByMemoryId, `enqueueFrames, `owner, enqueueFrames[op].phase.job
      ensures owner.Keys == old(owner.Keys) && enqueueFrames.Keys == old(enqueueFrames.Keys)
      ensures Snapshot() == IntentRetained(old(Snapshot()), op)
      ensures Held() == old(Held())[old(enqueueFrames)[op].phase.job := RetainedValue(old(Snapshot()), old(Held()), op)]
    {
      hide Merge;
      var frame := enqueueFrames[op];
      var job := frame.phase.job;
      if frame.memoryId in durableIntentJobsByMemoryId {
        MergeBackupJobs(job, durableIntentJobsByMemoryId[frame.memoryId]);
      }
      durableIntentJobsByMemoryId := durableIntentJobsByMemoryId[frame.memoryId := job];
      enqueueFrames := enqueueFrames[op := frame.(phase := Compensating)];
      owner := owner[job := InIntents(frame.memoryId)];
    }

    method RetainJob(op: nat)
      requires Valid() && op in enqueueFrames && !enqueueFrames[op].phase.Compensating?
      modifies `durableIntentJobsByMemoryId, `enqueueFrames, `owner, owner.Keys
      ensures Valid() && owner.Keys == old(owner.Keys)
      ensures enqueueFrames.Keys == old(enqueueFrames.Keys)
      ensures var s := old(State());
              && op in s.enqueues && !s.enqueues[op].phase.Compensating?
              && State() == s.(intents := P.RetainIntent(s.intents, s.enqueues[op].phase.job),
                               enqueues := s.enqueues[op := s.enqueues[op].(phase := P.Compensating)])
    {
      hide Matched, StateOf, IntentRetained, RetainedValue, P.RetainIntent;
      ghost var t, c := Snapshot(), Held();
      RetainStep(t, c, op);
      RetainedJobsOwned(t, c, op);
      GiveToIntents(op);
    }

    method ResumeEnqueue(op: nat)
      requires Valid() && op in enqueueFrames && enqueueFrames[op].phase.SavingQueued?
      modifies this, owner.Keys
      ensures Valid() && owner.Keys == old(owner.Keys)
      ensures P.Enabled(old(State()), P.ResumeEnqueue(op)) && State() == P.ResumeEnqueueStep(old(State()), op)
    {
      hide Matched, StateOf, P.ResumeEnqueueStep;
      CallFacts(Snapshot(), Held(), op);
      var frame := enqueueFrames[op];
      if frame.phase.saved {
        AwaitFinalizer(op);
      } else if frame.tookIntent {
        ghost var s := State();
        RetainJob(op);
        FailedCallStep(s, State(), op);
        LeaveEnqueue(op);
      } else {
        FailedEnqueueLeaves(State(), op);
        LeaveEnqueue(op);
      }
    }

    // Settling the finalizer

    method AppendPending(op: nat)
      requires op in enqueueFrames && !enqueueFrames[op].phase.Compensating? && enqueueFrames[op].phase.job in owner
      modifies `pendingJobs, `pendingJobsByMemoryId, `enqueueFrames, `owner
      ensures owner.Keys == old(owner.Keys) && enqueueFrames.Keys == old(enqueueFrames.Keys)
      ensures Snapshot() == PendingAppended(old(Snapshot()), op) && Held() == old(Held())
    {
      var frame := enqueueFrames[op];
      var job := frame.phase.job;
      pendingJobs := pendingJobs + [job];
      pendingJobsByMemoryId := pendingJobsByMemoryId[frame.memoryId := job];
      owner := owner[job := InPending(frame.memoryId)];
      enqueueFrames := enqueueFrames[op := frame.(phase := Compensating)];
    }

    method MergePending(op: nat)
      requires op in enqueueFrames && !enqueueFrames[op].phase.Compensating? && enqueueFrames[op].phase.job in owner
      requires enqueueFrames[op].memoryId in pendingJobsByMemoryId && pendingJobsByMemoryId[enqueueFrames[op].memoryId] in owner
      modifies `enqueueFrames, pendingJobsByMemoryId[enqueueFrames[op].memoryId]
      ensures enqueueFrames.Keys == old(enqueueFrames.Keys)
      ensures Snapshot() == PendingMerged(old(Snapshot()), op)
      ensures Held() == PushedContents(old(Snapshot()), old(Held()), op)
    {
      hide Merge;
      var frame := enqueueFrames[op];
      MergeBackupJobs(pendingJobsByMemoryId[frame.memoryId], frame.phase.job);
      enqueueFrames := enqueueFrames[op := frame.(phase := Compensating)];
    }

    method GiveToPending(op: nat)
      requires op in enqueueFrames && !enqueueFrames[op].phase.Compensating? && enqueueFrames[op].phase.job in owner
      requires enqueueFrames[op].memoryId in pendingJobsByMemoryId ==> pendingJobsByMemoryId[enqueueFrames[op].memoryId] in owner
      modifies `pendingJobs, `pendingJobsByMemoryId, `enqueueFrames, `owner, owner.Keys
      ensures owner.Keys == old(owner.Keys) && enqueueFrames.Keys == old(enqueueFrames.Keys)
      ensures Snapshot() == Pushed(old(Snapshot()), op)
      ensures Held() == PushedContents(old(Snapshot()), old(Held()), op)
    {
      hide Merge, Value, PendingMerged, PendingAppended;
      if enqueueFrames[op].memoryId in pendingJobsByMemoryId {
        MergePending(op);
      } else {
        AppendPending(op);
      }
    }

    method PushJob(op: nat)
      requires Valid() && op in enqueueFrames && !enqueueFrames[op].phase.Compensating?
      modifies `pendingJobs, `pendingJobsByMemoryId, `enqueueFrames, `owner, owner.Keys
      ensures Valid() && owner.Keys == old(owner.Keys)
      ensures enqueueFrames.Keys == old(enqueueFrames.Keys)
      ensures var s := old(State());
              && op in s.enqueues && !s.enqueues[op].phase.Compensating?
              && State() == s.(pending := P.PushPending(s.pending, s.enqueues[op].phase.job),
                               enqueues := s.enqueues[op := s.enqueues[op].(phase := P.Compensating)])
    {
      hide Matched, StateOf, Pushed, PushedContents, P.PushPending;
      ghost var t, c := Snapshot(), Held();
      PushStep(t, c, op);
      RetainedJobsOwned(t, c, op);
      GiveToPending(op);
    }

    method FinalizerReturned(op: nat)
      requires Valid() && op in enqueueFrames && enqueueFrames[op].phase.Finalizing?
      modifies this, owner.Keys
      ensures Valid() && owner.Keys == old(owner.Keys)
      ensures P.Enabled(old(State()), P.FinalizerReturned(op)) && State() == P.FinalizerReturnedStep(old(State()), op)
    {
      hide Matched, StateOf, P.FinalizerReturnedStep, P.Schedule, P.LeaveEnqueue;
      CallFacts(Snapshot(), Held(), op);
      ghost var s := State();
      PushJob(op);
      PushedCallStep(s, State(), op);
      ScheduleWorker();
      LeaveEnqueue(op);
    }

    method FinalizerFailed(op: nat, databaseUp: bool)
      requires Valid() && op in enqueueFrames && enqueueFrames[op].phase.Finalizing? && enqueueFrames[op].hasFinalizer
      modifies this, owner.Keys
      ensures Valid() && owner.Keys == old(owner.Keys)
      ensures P.Enabled(old(State()), P.FinalizerFailed(op, databaseUp))
              && State() == P.FinalizerFailedStep(old(State()), op, databaseUp)
    {
      hide Matched, StateOf, P.FinalizerFailedStep, P.LeaveEnqueue, P.Save, P.HasPending, P.IsRunning;
      CallFacts(Snapshot(), Held(), op);
      var id := enqueueFrames[op].memoryId;
      ghost var s := State();
      RetainJob(op);
      RetainedCallStep(s, State(), op, databaseUp);
      if id !in pendingJobsByMemoryId && id !in runningJobsByMemoryId {
        SaveStatus(id, P.Pending, databaseUp);
      } else {
        LeaveEnqueue(op);
      }
    }

    method FinishCompensation(op: nat)
      requires Valid() && op in enqueueFrames && enqueueFrames[op].phase.Compensating?
      modifies this
      ensures Valid() && owner == old(owner)
      ensures P.Enabled(old(State()), P.FinishCompensation(op)) && State() == P.LeaveEnqueue(old(State()), op)
    {
      hide Matched, StateOf, P.LeaveEnqueue;
      CallFacts(Snapshot(), Held(), op);
      LeaveEnqueue(op);
    }

    // Durable intents

    method EnterPersist(op: nat, job: MemoryBackupJob, databaseUp: bool)
      modifies `persistFrames, `persistIntentTransitionsByMemoryId, `statuses, `owner
      ensures Snapshot() == PersistStarted(old(Snapshot()), op, job, databaseUp)
      ensures owner == old(owner)[job := InPersist(op)]
    {
      var id := job.memoryId;
      var transitions := if id in persistIntentTransitionsByMemoryId then persistIntentTransitionsByMemoryId[id] else {};
      persistIntentTransitionsByMemoryId := persistIntentTransitionsByMemoryId[id := transitions + {job}];
      var saved := UpdateBackupStatus(id, P.Pending, databaseUp);
      persistFrames := persistFrames[op := PersistFrame(job, saved)];
      owner := owner[job := InPersist(op)];
    }

    method FilePersist(op: nat, input: Job, databaseUp: bool) returns (job: MemoryBackupJob)
      modifies `persistFrames, `persistIntentTransitionsByMemoryId, `statuses, `owner
      ensures job !in old(owner) && job.memoryId == input.memoryId && fresh(owner.Keys - old(owner.Keys))
      ensures Snapshot() == PersistStarted(old(Snapshot()), op, job, databaseUp)
      ensures Held() == old(Held())[job := input]
    {
      hide PersistStarted;
      job := new MemoryBackupJob(input);
      EnterPersist(op, job, databaseUp);
    }

    method BeginPersist(op: nat, input: Job, databaseUp: bool)
      requires Valid() && op !in persistFrames
      modifies this
      ensures Valid() && fresh(owner.Keys - old(owner.Keys))
      ensures State() == P.StartPersistStep(old(State()), op, input, databaseUp)
    {
      hide Matched, StateOf, PersistStarted, P.StartPersistStep;
      ghost var t, c := Snapshot(), Held();
      var job := FilePersist(op, input, databaseUp);
      PersistStartStep(t, c, op, job, input, databaseUp);
    }

    method StartPersist(op: nat, input: Job, databaseUp: bool) returns (outcome: StartOutcome)
      requires Valid() && op !in persistFrames
      modifies this
      ensures Valid() && fresh(owner.Keys - old(owner.Keys))
      ensures outcome == Started <==> gitEnabled && P.Enabled(old(State()), P.StartPersist(op, input, databaseUp))
      ensures State() == if outcome == Started
                         then P.StartPersistStep(old(State()), op, input, databaseUp) else old(State())
    {
      hide Matched, StateOf, P.StartPersistStep;
      PersistFacts(Snapshot(), Held(), op);
      outcome := if !gitEnabled then Disabled
                 else if |input.contentPaths| == 0 then NoContentPath
                 else if input.reason == MemoryDeletion then DeletionNotQueued
                 else Started;
      if outcome == Started {
        BeginPersist(op, input, databaseUp);
      }
    }

    method ForgetTransition(job: MemoryBackupJob)
      modifies `persistIntentTransitionsByMemoryId
      ensures persistIntentTransitionsByMemoryId == Forget(old(persistIntentTransitionsByMemoryId), job)
    {
      var id := job.memoryId;
      var transitions := (if id in persistIntentTransitionsByMemoryId then persistIntentTransitionsByMemoryId[id] else {}) - {job};
      persistIntentTransitionsByMemoryId :=
        if transitions == {} then persistIntentTransitionsByMemoryId - {id}
        else persistIntentTransitionsByMemoryId[id := transitions];
    }

    method DropPersist(op: nat)
      requires op in persistFrames
      modifies `persistFrames, `persistIntentTransitionsByMemoryId
      ensures Snapshot() == PersistDropped(old(Snapshot()), op)
    {
      hide Forget;
      ForgetTransition(persistFrames[op].job);
      persistFrames := persistFrames - {op};
    }

    /** The saved job extends the intent of its memory, or becomes it. */
    method SettlePersist(op: nat)
      requires op in persistFrames && persistFrames[op].job in owner
      requires persistFrames[op].job.memoryId in durableIntentJobsByMemoryId
               ==> durableIntentJobsByMemoryId[persistFrames[op].job.memoryId] in owner
      modifies `persistFrames, `persistIntentTransitionsByMemoryId, `durableIntentJobsByMemoryId, `owner, owner.Keys
      ensures owner.Keys == old(owner.Keys) && Snapshot() == PersistResumed(old(Snapshot()), op)
      ensures Held() == PersistResumedContents(old(Snapshot()), old(Held()), op)
    {
      hide Merge, Forget;
      var job := persistFrames[op].job;
      if persistFrames[op].saved {
        if job.memoryId in durableIntentJobsByMemoryId {
          MergeBackupJobs(durableIntentJobsByMemoryId[job.memoryId], job);
        } else {
          durableIntentJobsByMemoryId := durableIntentJobsByMemoryId[job.memoryId := job];
          owner := owner[job := InIntents(job.memoryId)];
        }
      }
      DropPersist(op);
    }

    method ResumePersist(op: nat)
      requires Valid() && op in persistFrames
      modifies this, owner.Keys
      ensures Valid() && owner.Keys == old(owner.Keys)
      ensures P.Enabled(old(State()), P.ResumePersist(op)) && State() == P.ResumePersistStep(old(State()), op)
    {
      hide Matched, StateOf, PersistResumed, PersistResumedContents, P.ResumePersistStep;
      PersistFacts(Snapshot(), Held(), op);
      PersistResumeStep(Snapshot(), Held(), op);
      SettlePersist(op);
    }

    // The worker

    method TakePendingJob()
      requires pendingJobs != [] && pendingJobs[0] in owner
      modifies `pendingJobs, `pendingJobsByMemoryId, `runningJobsByMemoryId, `worker, `owner
      ensures owner.Keys == old(owner.Keys) && Snapshot() == JobTaken(old(Snapshot()))
    {
      var job := pendingJobs[0];
      pendingJobs := pendingJobs[1..];
      pendingJobsByMemoryId := pendingJobsByMemoryId - {job.memoryId};
      runningJobsByMemoryId := runningJobsByMemoryId[job.memoryId := job];
      worker := Running(job);
      owner := owner[job := InWorker];
    }

    method TakeNextJob()
      requires schedulingSuspensions >= 0 && (pendingJobs != [] ==> pendingJobs[0] in owner)
      modifies `pendingJobs, `pendingJobsByMemoryId, `runningJobsByMemoryId, `worker, `owner
      ensures owner.Keys == old(owner.Keys) && Held() == old(Held())
      ensures Snapshot() == NextTables(old(Snapshot()))
    {
      hide JobTaken;
      runningJobsByMemoryId := map[];
      worker := Finishing;
      if |pendingJobs| > 0 && schedulingSuspensions == 0 {
        TakePendingJob();
      }
    }

    method NextJob()
      requires Valid()
      modifies `pendingJobs, `pendingJobsByMemoryId, `runningJobsByMemoryId, `worker, `owner
      ensures Valid() && owner.Keys == old(owner.Keys)
      ensures State() == P.NextJob(old(State()))
    {
      hide Matched, StateOf, NextTables, P.NextJob;
      NextJobStep(Snapshot(), Held());
      FirstPendingOwned(Snapshot(), Held());
      TakeNextJob();
    }

    method WorkerTimer()
      requires Valid() && worker.Scheduled?
      modifies `pendingJobs, `pendingJobsByMemoryId, `runningJobsByMemoryId, `worker, `owner
      ensures Valid() && owner.Keys == old(owner.Keys)
      ensures P.Enabled(old(State()), P.WorkerTimer) && State() == P.NextJob(old(State()))
    {
      hide Matched, StateOf, P.NextJob;
      WorkerFacts(Snapshot(), Held());
      NextJob();
    }

    method StatusToRecord(succeeded: bool) returns (value: P.Status)
      requires Valid() && worker.Running?
      ensures value == if succeeded then P.StatusAfterSuccess(State(), worker.job.memoryId) else P.Failed
    {
      hide Matched, StateOf, P.StatusAfterSuccess;
      var id := worker.job.memoryId;
      StatusReadOff(Snapshot(), Held(), id);
      value :=
        if !succeeded then P.Failed
        else if id in persistIntentTransitionsByMemoryId && persistIntentTransitionsByMemoryId[id] != {} then P.Pending
        else if Count(enqueueTransitionsByMemoryId, id) > 0 then P.Queued
        else if id in durableIntentJobsByMemoryId then P.Pending
        else if id in pendingJobsByMemoryId then P.Queued
        else P.Success;
    }

    method RecordStatus(value: P.Status, databaseUp: bool, succeeded: bool)
      requires worker.Running?
      modifies `statuses, `worker
      ensures Snapshot() == JobSettledTables(old(Snapshot()), value, databaseUp, succeeded)
    {
      var job := worker.job;
      var saved := UpdateBackupStatus(job.memoryId, value, databaseUp);
      worker := Recording(job, succeeded && !saved);
    }

    /** runJob has settled: decide the status and write it. */
    method JobSettled(succeeded: bool, databaseUp: bool)
      requires Valid() && worker.Running?
      modifies `statuses, `worker
      ensures Valid()
      ensures P.Enabled(old(State()), P.JobSettled(succeeded, databaseUp))
              && State() == P.JobSettledStep(old(State()), succeeded, databaseUp)
    {
      hide Matched, StateOf, JobSettledTables, P.JobSettledStep, P.StatusAfterSuccess;
      var value := StatusToRecord(succeeded);
      JobSettledStep(Snapshot(), Held(), value, databaseUp, succeeded);
      RecordStatus(value, databaseUp, succeeded);
    }

    method RecordFailure(databaseUp: bool)
      requires worker.Recording?
      modifies `statuses, `worker
      ensures Snapshot() == SavedTables(old(Snapshot()), old(worker).job.memoryId, P.Failed, databaseUp)
                            .(worker := Recording(old(worker).job, false))
    {
      var saved := UpdateBackupStatus(worker.job.memoryId, P.Failed, databaseUp);
      worker := Recording(worker.job, false);
    }

    method StatusRecorded(databaseUp: bool)
      requires Valid() && worker.Recording?
      modifies `statuses, `pendingJobs, `pendingJobsByMemoryId, `runningJobsByMemoryId, `worker, `owner
      ensures Valid() && owner.Keys == old(owner.Keys)
      ensures P.Enabled(old(State()), P.StatusRecorded(databaseUp))
              && State() == P.StatusRecordedStep(old(State()), databaseUp)
    {
      hide Matched, StateOf, P.NextJob, P.Save, P.StatusRecordedStep, Held, SavedTables;
      ghost var t, c := Snapshot(), Held();
      WorkerFacts(t, c);
      if worker.mustRecordFailure {
        FailureRecordedStep(t, c, databaseUp);
        RecordFailure(databaseUp);
      } else {
        NothingToRecord(State(), databaseUp);
        NextJob();
      }
    }

    method BecomeIdle()
      requires worker.Finishing?
      modifies `worker
      ensures Snapshot() == WorkerIdle(old(Snapshot()))
    {
      worker := Idle;
    }

    method WorkerSettled()
      requires Valid() && worker.Finishing?
      modifies `worker
      ensures Valid()
      ensures P.Enabled(old(State()), P.WorkerSettled) && State() == P.Apply(old(State()), P.WorkerSettled)
    {
      hide Matched, StateOf, P.Schedule, Held, WorkerIdle;
      ghost var t, c := Snapshot(), Held();
      WorkerFacts(t, c);
      WorkerIdleStep(t, c);
      BecomeIdle();
      if |pendingJobs| > 0 {
        ScheduleWorker();
      }
    }

    // Retry scans and other writers

    method AddScan(scan: nat)
      requires scan !in scanFrames
      modifies `scanFrames, `schedulingSuspensions
      ensures Snapshot() == ScansChanged(old(Snapshot()), old(scanFrames) + {scan})
    {
      schedulingSuspensions := schedulingSuspensions + 1;
      scanFrames := scanFrames + {scan};
    }

    method RemoveScan(scan: nat)
      requires scan in scanFrames
      modifies `scanFrames, `schedulingSuspensions
      ensures Snapshot() == ScansChanged(old(Snapshot()), old(scanFrames) - {scan})
    {
      schedulingSuspensions := schedulingSuspensions - 1;
      scanFrames := scanFrames - {scan};
    }

    method StartScan(scan: nat)
      requires Valid() && scan !in scanFrames
      modifies `scanFrames, `schedulingSuspensions
      ensures Valid()
      ensures P.Enabled(old(State()), P.StartScan(scan)) && State() == P.Apply(old(State()), P.StartScan(scan))
    {
      hide Matched, StateOf, ScansChanged;
      WorkerFacts(Snapshot(), Held());
      ScansChangedStep(Snapshot(), Held(), scanFrames + {scan});
      AddScan(scan);
    }

    method ScanRecordsFailure(id: MemoryId, databaseUp: bool)
      requires Valid() && scanFrames != {}
      modifies `statuses
      ensures Valid()
      ensures P.Enabled(old(State()), P.ScanRecordsFailure(id, databaseUp))
              && State() == P.Apply(old(State()), P.ScanRecordsFailure(id, databaseUp))
    {
      hide Matched, StateOf, P.Save;
      WorkerFacts(Snapshot(), Held());
      SaveStatus(id, P.Failed, databaseUp);
    }

    method EndScan(scan: nat)
      requires Valid() && scan in scanFrames
      modifies `scanFrames, `schedulingSuspensions, `worker
      ensures Valid()
      ensures P.Enabled(old(State()), P.EndScan(scan)) && State() == P.Apply(old(State()), P.EndScan(scan))
    {
      hide Matched, StateOf, ScansChanged, P.Schedule;
      WorkerFacts(Snapshot(), Held());
      ScansChangedStep(Snapshot(), Held(), scanFrames - {scan});
      RemoveScan(scan);
      if |pendingJobs| > 0 {
        ScheduleWorker();
      }
    }

    method SetStatuses(rows: map<MemoryId, P.Status>)
      modifies `statuses
      ensures Snapshot() == old(Snapshot()).(statuses := rows)
    {
      statuses := rows;
    }

    method OtherStatusWrite(id: MemoryId, value: P.Status)
      requires Valid() && value != P.Success
      modifies `statuses
      ensures Valid() && State() == P.Apply(old(State()), P.OtherStatusWrite(id, value))
    {
      hide Matched, StateOf, Held;
      ghost var t, c := Snapshot(), Held();
      WorkerFacts(t, c);
      RowsChangedStep(t, c, statuses[id := value]);
      SetStatuses(statuses[id := value]);
    }

    method MemoryDeleted(id: MemoryId)
      requires Valid()
      modifies `statuses
      ensures Valid() && State() == P.Apply(old(State()), P.MemoryDeleted(id))
    {
      hide Matched, StateOf, Held;
      ghost var t, c := Snapshot(), Held();
      WorkerFacts(t, c);
      RowsChangedStep(t, c, statuses - {id});
      SetStatuses(statuses - {id});
    }
  }
}
