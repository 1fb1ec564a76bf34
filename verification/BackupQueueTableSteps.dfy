/** Each rewrite of the tables keeps them consistent and performs one protocol step. */
module BackupQueueTableSteps {
  import opened BackupJobs
  import opened BackupQueueTables
  import P = BackupQueueProtocol

  ghost predicate Matched(t: Tables, c: Contents) {
    Consistent(t) && Faithful(c) && c.Keys == t.owner.Keys
  }

  // Changing an object that a table does not own leaves the table's values alone.

  lemma PendingUntouched(jobs: seq<MemoryBackupJob>, owner: Owner, c: Contents, job: MemoryBackupJob, slot: Slot, value: Job)
    requires PendingOwned(jobs, owner) && (job in owner ==> !owner[job].InPending?)
    ensures PendingOwned(jobs, owner[job := slot]) && PendingValues(c[job := value], jobs) == PendingValues(c, jobs)
  {
    assert forall i :: 0 <= i < |jobs| ==> Owns(owner, jobs[i], InPending(jobs[i].memoryId));
  }

  lemma IntentsUntouched(intents: map<MemoryId, MemoryBackupJob>, owner: Owner, c: Contents, job: MemoryBackupJob,
                         slot: Slot, value: Job)
    requires IntentsOwned(intents, owner) && (job in owner ==> !owner[job].InIntents?)
    ensures IntentsOwned(intents, owner[job := slot]) && IntentValues(c[job := value], intents) == IntentValues(c, intents)
  {
  }

  lemma OtherIntentsUntouched(intents: map<MemoryId, MemoryBackupJob>, owner: Owner, c: Contents, id: MemoryId,
                              slot: Slot, value: Job)
    requires IntentsOwned(intents, owner) && id in intents
    ensures IntentsOwned(intents - {id}, owner[intents[id] := slot])
    ensures IntentValues(c[intents[id] := value], intents - {id}) == IntentValues(c, intents) - {id}
  {
    assert forall k :: k in intents - {id} ==> Owns(owner, intents[k], InIntents(k)) && intents[k] != intents[id];
  }

  lemma CallsUntouched(frames: map<nat, EnqueueFrame>, owner: Owner, c: Contents, job: MemoryBackupJob, slot: Slot, value: Job)
    requires CallsOwned(frames, owner) && (job in owner ==> !owner[job].InEnqueue?)
    ensures CallsOwned(frames, owner[job := slot]) && CallValues(c[job := value], frames) == CallValues(c, frames)
  {
    assert forall k :: k in frames ==> CallOwned(k, frames[k], owner);
  }

  lemma PersistsUntouched(frames: map<nat, PersistFrame>, owner: Owner, c: Contents, job: MemoryBackupJob, slot: Slot, value: Job)
    requires PersistsOwned(frames, owner) && (job in owner ==> !owner[job].InPersist?)
    ensures PersistsOwned(frames, owner[job := slot]) && PersistValues(c[job := value], frames) == PersistValues(c, frames)
  {
  }

  lemma WorkerUntouched(w: WorkerFrame, owner: Owner, c: Contents, job: MemoryBackupJob, slot: Slot, value: Job)
    requires WorkerOwned(w, owner) && (job in owner ==> !owner[job].InWorker?)
    ensures WorkerOwned(w, owner[job := slot]) && WorkerValue(c[job := value], w) == WorkerValue(c, w)
  {
  }

  lemma CallAdds(frames: map<nat, EnqueueFrame>, owner: Owner, c: Contents, op: nat, frame: EnqueueFrame)
    requires CallsOwned(frames, owner) && CallOwned(op, frame, owner)
    ensures CallsOwned(frames[op := frame], owner)
    ensures CallValues(c, frames[op := frame]) == CallValues(c, frames)[op := CallValue(c, frame)]
  {
  }

  // Counters

  lemma CallEnters(counts: map<MemoryId, int>, suspensions: int, frames: map<nat, EnqueueFrame>, scans: set<nat>,
                   op: nat, frame: EnqueueFrame)
    requires CallsCounted(counts, frames) && SuspensionsCounted(suspensions, frames, scans) && op !in frames
    ensures CallsCounted(IncrementCount(counts, frame.memoryId), frames[op := frame])
    ensures SuspensionsCounted(suspensions + if frame.hasFinalizer then 1 else 0, frames[op := frame], scans)
  {
    forall id ensures Count(IncrementCount(counts, frame.memoryId), id) == |CallsOf(frames[op := frame], id)| {
      CallAdded(frames, op, frame, id);
      assert Count(counts, id) == |CallsOf(frames, id)|;
    }
    FinalizerAdded(frames, op, frame);
    assert Count(counts, frame.memoryId) >= 0;
  }

  lemma CallLeaves(counts: map<MemoryId, int>, suspensions: int, frames: map<nat, EnqueueFrame>, scans: set<nat>, op: nat)
    requires CallsCounted(counts, frames) && SuspensionsCounted(suspensions, frames, scans) && op in frames
    ensures CallsCounted(DecrementCount(counts, frames[op].memoryId), frames - {op})
    ensures SuspensionsCounted(suspensions - if frames[op].hasFinalizer then 1 else 0, frames - {op}, scans)
  {
    var id0 := frames[op].memoryId;
    assert op in CallsOf(frames, id0);
    assert Count(counts, id0) == |CallsOf(frames, id0)| > 0;
    forall id ensures Count(DecrementCount(counts, id0), id) == |CallsOf(frames - {op}, id)| {
      CallRemoved(frames, op, id);
      assert Count(counts, id) == |CallsOf(frames, id)|;
    }
    FinalizerRemoved(frames, op);
  }

  lemma CallMoves(counts: map<MemoryId, int>, suspensions: int, frames: map<nat, EnqueueFrame>, scans: set<nat>,
                  op: nat, phase: FramePhase)
    requires CallsCounted(counts, frames) && SuspensionsCounted(suspensions, frames, scans) && op in frames
    ensures CallsCounted(counts, frames[op := frames[op].(phase := phase)])
    ensures SuspensionsCounted(suspensions, frames[op := frames[op].(phase := phase)], scans)
  {
    forall id ensures Count(counts, id) == |CallsOf(frames[op := frames[op].(phase := phase)], id)| {
      CallMoved(frames, op, phase, id);
      assert Count(counts, id) == |CallsOf(frames, id)|;
    }
    CallMoved(frames, op, phase, "");
  }

  // Starting an enqueue

  ghost function EnqueueStarted(t: Tables, op: nat, job: MemoryBackupJob, hasFinalizer: bool, saved: bool): Tables {
    var id := job.memoryId;
    var saves := saved && id in t.statuses;
    var frame := EnqueueFrame(id, hasFinalizer, id in t.durableIntentJobsByMemoryId, SavingQueued(job, saves));
    t.(durableIntentJobsByMemoryId := t.durableIntentJobsByMemoryId - {id},
       enqueueFrames := t.enqueueFrames[op := frame],
       enqueueTransitionsByMemoryId := IncrementCount(t.enqueueTransitionsByMemoryId, id),
       schedulingSuspensions := t.schedulingSuspensions + if hasFinalizer then 1 else 0,
       statuses := if saves then t.statuses[id := P.Queued] else t.statuses,
       owner := t.owner[job := InEnqueue(op)])
  }

  ghost predicate StartsWith(t: Tables, op: nat, job: MemoryBackupJob) {
    && op !in t.enqueueFrames
    && if job.memoryId in t.durableIntentJobsByMemoryId
       then job == t.durableIntentJobsByMemoryId[job.memoryId] else job !in t.owner
  }

  lemma EnqueueStartedIntents(intents: map<MemoryId, MemoryBackupJob>, owner: Owner, c: Contents, job: MemoryBackupJob,
                              slot: Slot, value: Job)
    requires IntentsOwned(intents, owner)
    requires if job.memoryId in intents then job == intents[job.memoryId] else job !in owner
    ensures IntentsOwned(intents - {job.memoryId}, owner[job := slot])
    ensures IntentValues(c[job := value], intents - {job.memoryId}) == IntentValues(c, intents) - {job.memoryId}
  {
    if job.memoryId in intents {
      OtherIntentsUntouched(intents, owner, c, job.memoryId, slot, value);
    } else {
      IntentsUntouched(intents, owner, c, job, slot, value);
      assert intents - {job.memoryId} == intents;
    }
  }

  lemma EnqueueStartedConsistent(t: Tables, c: Contents, op: nat, job: MemoryBackupJob, hasFinalizer: bool, saved: bool)
    requires Consistent(t) && StartsWith(t, op, job)
    ensures Consistent(EnqueueStarted(t, op, job, hasFinalizer, saved))
  {
    var u := EnqueueStarted(t, op, job, hasFinalizer, saved);
    var slot := InEnqueue(op);
    assert job in t.owner ==> t.owner[job].InIntents?;
    assert CallOwned(op, u.enqueueFrames[op], u.owner);
    var value := Value(c, job);
    hide PendingIndexed, PendingOwned, IntentsOwned, CallsOwned, PersistsOwned, CallsCounted, SuspensionsCounted, PersistsTabled;
    PendingUntouched(t.pendingJobs, t.owner, c, job, slot, value);
    EnqueueStartedIntents(t.durableIntentJobsByMemoryId, t.owner, c, job, slot, value);
    CallsUntouched(t.enqueueFrames, t.owner, c, job, slot, value);
    CallAdds(t.enqueueFrames, u.owner, c, op, u.enqueueFrames[op]);
    PersistsUntouched(t.persistFrames, t.owner, c, job, slot, value);
    WorkerUntouched(t.worker, t.owner, c, job, slot, value);
    CallEnters(t.enqueueTransitionsByMemoryId, t.schedulingSuspensions, t.enqueueFrames, t.scanFrames, op, u.enqueueFrames[op]);
  }

  lemma EnqueueStartedState(t: Tables, c: Contents, op: nat, job: MemoryBackupJob, input: Job, hasFinalizer: bool, saved: bool)
    requires Owned(t) && StartsWith(t, op, job) && job.memoryId == input.memoryId
    ensures var u := EnqueueStarted(t, op, job, hasFinalizer, saved);
            var d := c[job := if input.memoryId in t.durableIntentJobsByMemoryId then Merge(Value(c, job), input) else input];
            StateOf(u, d) == P.StartEnqueueStep(StateOf(t, c), op, input, hasFinalizer, saved)
  {
    var value := if input.memoryId in t.durableIntentJobsByMemoryId then Merge(Value(c, job), input) else input;
    var d := c[job := value];
    var u := EnqueueStarted(t, op, job, hasFinalizer, saved);
    var slot := InEnqueue(op);
    assert job in t.owner ==> t.owner[job].InIntents?;
    assert CallOwned(op, u.enqueueFrames[op], u.owner);
    hide PendingIndexed, PendingOwned, IntentsOwned, CallsOwned, PersistsOwned, CallsCounted, SuspensionsCounted, PersistsTabled;
    PendingUntouched(t.pendingJobs, t.owner, c, job, slot, value);
    EnqueueStartedIntents(t.durableIntentJobsByMemoryId, t.owner, c, job, slot, value);
    CallsUntouched(t.enqueueFrames, t.owner, c, job, slot, value);
    CallAdds(t.enqueueFrames, u.owner, d, op, u.enqueueFrames[op]);
    PersistsUntouched(t.persistFrames, t.owner, c, job, slot, value);
    WorkerUntouched(t.worker, t.owner, c, job, slot, value);
  }

  lemma EnqueueStartedMatched(t: Tables, c: Contents, op: nat, job: MemoryBackupJob, value: Job, hasFinalizer: bool, saved: bool)
    requires Matched(t, c) && StartsWith(t, op, job) && value.memoryId == job.memoryId
    ensures Matched(EnqueueStarted(t, op, job, hasFinalizer, saved), c[job := value])
  {
    EnqueueStartedConsistent(t, c, op, job, hasFinalizer, saved);
    hide Consistent;
  }

  lemma EnqueueStartedStep(t: Tables, c: Contents, op: nat, job: MemoryBackupJob, input: Job, hasFinalizer: bool,
                           saved: bool, u: Tables, d: Contents)
    requires Matched(t, c) && StartsWith(t, op, job) && input.memoryId == job.memoryId
    requires u == EnqueueStarted(t, op, job, hasFinalizer, saved)
    requires d == c[job := if job.memoryId in t.durableIntentJobsByMemoryId then Merge(Value(c, job), input) else input]
    ensures Matched(u, d) && StateOf(u, d) == P.StartEnqueueStep(StateOf(t, c), op, input, hasFinalizer, saved)
  {
    MatchedParts(t, c);
    assert (if job.memoryId in t.durableIntentJobsByMemoryId then Merge(Value(c, job), input) else input).memoryId == job.memoryId;
    hide Matched, Consistent, Owned, StartsWith, PendingIndexed, Faithful, Merge, StateOf, EnqueueStarted, P.StartEnqueueStep;
    EnqueueStartedState(t, c, op, job, input, hasFinalizer, saved);
    EnqueueStartedMatched(t, c, op, job, d[job], hasFinalizer, saved);
  }

  // A call gives its job to the durable intents

  ghost function IntentRetained(t: Tables, op: nat): Tables
    requires op in t.enqueueFrames && !t.enqueueFrames[op].phase.Compensating?
  {
    var frame := t.enqueueFrames[op];
    var job := frame.phase.job;
    t.(durableIntentJobsByMemoryId := t.durableIntentJobsByMemoryId[frame.memoryId := job],
       enqueueFrames := t.enqueueFrames[op := frame.(phase := Compensating)],
       owner := t.owner[job := InIntents(frame.memoryId)])
  }

  /** What becomes of the frames when the job of one of them moves to another table. */
  lemma CallGives(frames: map<nat, EnqueueFrame>, owner: Owner, c: Contents, op: nat, slot: Slot, value: Job)
    requires CallsOwned(frames, owner) && op in frames && !frames[op].phase.Compensating?
    ensures var job := frames[op].phase.job;
            var given := frames[op].(phase := Compensating);
            && CallsOwned(frames[op := given], owner[job := slot])
            && CallValues(c[job := value], frames[op := given])
               == CallValues(c, frames)[op := CallValue(c, given)]
  {
    assert forall k :: k in frames ==> CallOwned(k, frames[k], owner);
  }

  lemma IntentAdds(intents: map<MemoryId, MemoryBackupJob>, owner: Owner, c: Contents, job: MemoryBackupJob, value: Job)
    requires IntentsOwned(intents, owner) && (job in owner ==> !owner[job].InIntents?)
    ensures IntentsOwned(intents[job.memoryId := job], owner[job := InIntents(job.memoryId)])
    ensures IntentValues(c[job := value], intents[job.memoryId := job]) == IntentValues(c, intents)[job.memoryId := value]
  {
    IntentsUntouched(intents, owner, c, job, InIntents(job.memoryId), value);
  }

  lemma IntentRetainedConsistent(t: Tables, c: Contents, op: nat)
    requires Consistent(t) && op in t.enqueueFrames && !t.enqueueFrames[op].phase.Compensating?
    ensures Consistent(IntentRetained(t, op))
  {
    var job := t.enqueueFrames[op].phase.job;
    var slot := InIntents(job.memoryId);
    assert CallOwned(op, t.enqueueFrames[op], t.owner);
    hide PendingIndexed, PendingOwned, IntentsOwned, CallsOwned, PersistsOwned, CallsCounted, SuspensionsCounted, PersistsTabled;
    PendingUntouched(t.pendingJobs, t.owner, c, job, slot, Value(c, job));
    IntentAdds(t.durableIntentJobsByMemoryId, t.owner, c, job, Value(c, job));
    CallGives(t.enqueueFrames, t.owner, c, op, slot, Value(c, job));
    PersistsUntouched(t.persistFrames, t.owner, c, job, slot, Value(c, job));
    WorkerUntouched(t.worker, t.owner, c, job, slot, Value(c, job));
    CallMoves(t.enqueueTransitionsByMemoryId, t.schedulingSuspensions, t.enqueueFrames, t.scanFrames, op, Compensating);
  }

  lemma IntentRetainedState(t: Tables, c: Contents, op: nat, value: Job)
    requires Owned(t) && op in t.enqueueFrames && !t.enqueueFrames[op].phase.Compensating?
    ensures var s := StateOf(t, c);
            StateOf(IntentRetained(t, op), c[t.enqueueFrames[op].phase.job := value])
            == s.(intents := s.intents[t.enqueueFrames[op].memoryId := value],
                  enqueues := s.enqueues[op := s.enqueues[op].(phase := P.Compensating)])
  {
    var job := t.enqueueFrames[op].phase.job;
    var slot := InIntents(job.memoryId);
    assert CallOwned(op, t.enqueueFrames[op], t.owner);
    hide PendingIndexed, PendingOwned, IntentsOwned, CallsOwned, PersistsOwned, CallsCounted, SuspensionsCounted, PersistsTabled;
    PendingUntouched(t.pendingJobs, t.owner, c, job, slot, value);
    IntentAdds(t.durableIntentJobsByMemoryId, t.owner, c, job, value);
    CallGives(t.enqueueFrames, t.owner, c, op, slot, value);
    PersistsUntouched(t.persistFrames, t.owner, c, job, slot, value);
    WorkerUntouched(t.worker, t.owner, c, job, slot, value);
  }

  ghost function RetainedValue(t: Tables, c: Contents, op: nat): Job
    requires op in t.enqueueFrames && !t.enqueueFrames[op].phase.Compensating?
  {
    var frame := t.enqueueFrames[op];
    var value := Value(c, frame.phase.job);
    if frame.memoryId in t.durableIntentJobsByMemoryId
    then Merge(value, Value(c, t.durableIntentJobsByMemoryId[frame.memoryId])) else value
  }

  lemma IntentRetainedMatched(t: Tables, c: Contents, op: nat)
    requires Matched(t, c) && op in t.enqueueFrames && !t.enqueueFrames[op].phase.Compensating?
    ensures Matched(IntentRetained(t, op), c[t.enqueueFrames[op].phase.job := RetainedValue(t, c, op)])
  {
    assert CallOwned(op, t.enqueueFrames[op], t.owner);
    IntentRetainedConsistent(t, c, op);
    hide Consistent;
  }

  // A call gives its job to the pending jobs

  ghost function PendingMerged(t: Tables, op: nat): Tables
    requires op in t.enqueueFrames
  {
    t.(enqueueFrames := t.enqueueFrames[op := t.enqueueFrames[op].(phase := Compensating)])
  }

  ghost function PendingAppended(t: Tables, op: nat): Tables
    requires op in t.enqueueFrames && !t.enqueueFrames[op].phase.Compensating?
  {
    var frame := t.enqueueFrames[op];
    var job := frame.phase.job;
    t.(enqueueFrames := t.enqueueFrames[op := frame.(phase := Compensating)],
       pendingJobs := t.pendingJobs + [job],
       pendingJobsByMemoryId := t.pendingJobsByMemoryId[frame.memoryId := job],
       owner := t.owner[job := InPending(frame.memoryId)])
  }

  lemma {:induction false} PushedOntoExisting(jobs: seq<Job>, at: nat, job: Job)
    requires at < |jobs| && jobs[at].memoryId == job.memoryId
    requires forall i :: 0 <= i < at ==> jobs[i].memoryId != job.memoryId
    ensures P.PushPending(jobs, job) == jobs[at := Merge(jobs[at], job)]
  {
    if at > 0 {
      PushedOntoExisting(jobs[1..], at - 1, job);
    }
  }

  lemma {:induction false} PushedAsNew(jobs: seq<Job>, job: Job)
    requires forall i :: 0 <= i < |jobs| ==> jobs[i].memoryId != job.memoryId
    ensures P.PushPending(jobs, job) == jobs + [job]
  {
    if jobs != [] {
      PushedAsNew(jobs[1..], job);
    }
  }

  lemma MergedValues(jobs: seq<MemoryBackupJob>, c: Contents, pending: MemoryBackupJob, value: Job)
    requires Faithful(c) && pending in jobs && value.memoryId == pending.memoryId
    requires forall i, j :: 0 <= i < j < |jobs| ==> jobs[i].memoryId != jobs[j].memoryId
    ensures PendingValues(c[pending := Merge(Value(c, pending), value)], jobs)
            == P.PushPending(PendingValues(c, jobs), value)
  {
    hide Merge, P.PushPending, PendingValues;
    var values := PendingValues(c, jobs);
    var merged := Merge(Value(c, pending), value);
    var at :| 0 <= at < |jobs| && jobs[at] == pending;
    forall i | 0 <= i < |jobs|
      ensures values[i].memoryId == jobs[i].memoryId
      ensures Value(c[pending := merged], jobs[i]) == if i == at then merged else values[i]
    {
      assert i != at ==> jobs[i].memoryId != jobs[at].memoryId;
    }
    PushedOntoExisting(values, at, value);
    assert PendingValues(c[pending := merged], jobs) == values[at := merged];
  }

  lemma IndexedJob(jobs: seq<MemoryBackupJob>, index: map<MemoryId, MemoryBackupJob>, owner: Owner, id: MemoryId)
    requires PendingIndexed(jobs, index) && PendingOwned(jobs, owner) && id in index
    ensures index[id] in jobs && index[id].memoryId == id && Owns(owner, index[id], InPending(id))
  {
  }

  lemma PendingMergedState(t: Tables, c: Contents, op: nat, pending: MemoryBackupJob, value: Job)
    requires Owned(t) && op in t.enqueueFrames && Owns(t.owner, pending, InPending(pending.memoryId))
    ensures var s := StateOf(t, c);
            StateOf(PendingMerged(t, op), c[pending := value])
            == s.(pending := PendingValues(c[pending := value], t.pendingJobs),
                  enqueues := s.enqueues[op := s.enqueues[op].(phase := P.Compensating)])
  {
    var slot := InPending(pending.memoryId);
    var given := t.enqueueFrames[op].(phase := Compensating);
    hide PendingIndexed, PendingOwned, IntentsOwned, CallsOwned, PersistsOwned, CallsCounted, SuspensionsCounted, PersistsTabled;
    IntentsUntouched(t.durableIntentJobsByMemoryId, t.owner, c, pending, slot, value);
    CallsUntouched(t.enqueueFrames, t.owner, c, pending, slot, value);
    CallAdds(t.enqueueFrames, t.owner, c[pending := value], op, given);
    PersistsUntouched(t.persistFrames, t.owner, c, pending, slot, value);
    WorkerUntouched(t.worker, t.owner, c, pending, slot, value);
  }

  lemma PendingMergedConsistent(t: Tables, c: Contents, op: nat)
    requires Consistent(t) && op in t.enqueueFrames
    ensures Consistent(PendingMerged(t, op))
  {
    hide PendingIndexed, PendingOwned, IntentsOwned, CallsOwned, PersistsOwned, CallsCounted, SuspensionsCounted, PersistsTabled;
    CallAdds(t.enqueueFrames, t.owner, c, op, t.enqueueFrames[op].(phase := Compensating));
    CallMoves(t.enqueueTransitionsByMemoryId, t.schedulingSuspensions, t.enqueueFrames, t.scanFrames, op, Compensating);
  }

  lemma PendingMergedMatched(t: Tables, c: Contents, op: nat)
    requires Matched(t, c) && op in t.enqueueFrames && t.enqueueFrames[op].memoryId in t.pendingJobsByMemoryId
    requires !t.enqueueFrames[op].phase.Compensating?
    ensures var pending := t.pendingJobsByMemoryId[t.enqueueFrames[op].memoryId];
            Matched(PendingMerged(t, op), c[pending := Merge(Value(c, pending), Value(c, t.enqueueFrames[op].phase.job))])
  {
    IndexedJob(t.pendingJobs, t.pendingJobsByMemoryId, t.owner, t.enqueueFrames[op].memoryId);
    PendingMergedConsistent(t, c, op);
    hide Consistent;
  }

  lemma PendingMergedValues(t: Tables, c: Contents, op: nat)
    requires PendingIndexed(t.pendingJobs, t.pendingJobsByMemoryId) && Owned(t) && Faithful(c)
    requires op in t.enqueueFrames && t.enqueueFrames[op].memoryId in t.pendingJobsByMemoryId
    requires !t.enqueueFrames[op].phase.Compensating?
    ensures var s := StateOf(t, c);
            var pending := t.pendingJobsByMemoryId[t.enqueueFrames[op].memoryId];
            var value := Value(c, t.enqueueFrames[op].phase.job);
            StateOf(PendingMerged(t, op), c[pending := Merge(Value(c, pending), value)])
            == s.(pending := P.PushPending(s.pending, value),
                  enqueues := s.enqueues[op := s.enqueues[op].(phase := P.Compensating)])
  {
    var pending := t.pendingJobsByMemoryId[t.enqueueFrames[op].memoryId];
    var value := Value(c, t.enqueueFrames[op].phase.job);
    IndexedJob(t.pendingJobs, t.pendingJobsByMemoryId, t.owner, t.enqueueFrames[op].memoryId);
    assert CallOwned(op, t.enqueueFrames[op], t.owner);
    MergedValues(t.pendingJobs, c, pending, value);
    PendingMergedState(t, c, op, pending, Merge(Value(c, pending), value));
  }

  lemma IndexAppended(pending: seq<MemoryBackupJob>, index: map<MemoryId, MemoryBackupJob>, job: MemoryBackupJob)
    requires PendingIndexed(pending, index) && job.memoryId !in index
    ensures PendingIndexed(pending + [job], index[job.memoryId := job])
  {
    var jobs := pending + [job];
    assert jobs[|pending|] == job;
    assert forall i :: 0 <= i < |pending| ==> jobs[i] == pending[i];
    forall id | id in index ensures index[id] in jobs {
      var i :| 0 <= i < |pending| && pending[i] == index[id];
      assert jobs[i] == index[id];
    }
  }

  lemma PendingAdds(jobs: seq<MemoryBackupJob>, owner: Owner, c: Contents, job: MemoryBackupJob)
    requires PendingOwned(jobs, owner) && (job in owner ==> !owner[job].InPending?) && Faithful(c)
    requires forall i :: 0 <= i < |jobs| ==> jobs[i].memoryId != job.memoryId
    ensures PendingOwned(jobs + [job], owner[job := InPending(job.memoryId)])
    ensures PendingValues(c, jobs + [job]) == P.PushPending(PendingValues(c, jobs), Value(c, job))
  {
    PendingUntouched(jobs, owner, c, job, InPending(job.memoryId), Value(c, job));
    var values := PendingValues(c, jobs);
    assert forall i :: 0 <= i < |values| ==> values[i].memoryId == jobs[i].memoryId;
    PushedAsNew(values, Value(c, job));
    assert PendingValues(c, jobs + [job]) == values + [Value(c, job)];
  }

  lemma PendingAppendedConsistent(t: Tables, c: Contents, op: nat)
    requires Consistent(t) && Faithful(c) && op in t.enqueueFrames && !t.enqueueFrames[op].phase.Compensating?
    requires t.enqueueFrames[op].memoryId !in t.pendingJobsByMemoryId
    ensures Consistent(PendingAppended(t, op))
  {
    var job := t.enqueueFrames[op].phase.job;
    assert CallOwned(op, t.enqueueFrames[op], t.owner);
    var slot := InPending(job.memoryId);
    var value := Value(c, job);
    PendingAdds(t.pendingJobs, t.owner, c, job);
    hide PendingIndexed, PendingOwned, IntentsOwned, CallsOwned, PersistsOwned, CallsCounted, SuspensionsCounted, PersistsTabled;
    IntentsUntouched(t.durableIntentJobsByMemoryId, t.owner, c, job, slot, value);
    CallGives(t.enqueueFrames, t.owner, c, op, slot, value);
    PersistsUntouched(t.persistFrames, t.owner, c, job, slot, value);
    WorkerUntouched(t.worker, t.owner, c, job, slot, value);
    IndexAppended(t.pendingJobs, t.pendingJobsByMemoryId, job);
    CallMoves(t.enqueueTransitionsByMemoryId, t.schedulingSuspensions, t.enqueueFrames, t.scanFrames, op, Compensating);
  }

  lemma PendingAppendedMatched(t: Tables, c: Contents, op: nat)
    requires Matched(t, c) && op in t.enqueueFrames && !t.enqueueFrames[op].phase.Compensating?
    requires t.enqueueFrames[op].memoryId !in t.pendingJobsByMemoryId
    ensures Matched(PendingAppended(t, op), c)
  {
    assert CallOwned(op, t.enqueueFrames[op], t.owner);
    PendingAppendedConsistent(t, c, op);
    hide Consistent;
  }

  lemma PendingAppendedState(t: Tables, c: Contents, op: nat)
    requires PendingIndexed(t.pendingJobs, t.pendingJobsByMemoryId) && Owned(t) && Faithful(c)
    requires op in t.enqueueFrames && !t.enqueueFrames[op].phase.Compensating?
    requires t.enqueueFrames[op].memoryId !in t.pendingJobsByMemoryId
    ensures var s := StateOf(t, c);
            StateOf(PendingAppended(t, op), c)
            == s.(pending := P.PushPending(s.pending, Value(c, t.enqueueFrames[op].phase.job)),
                  enqueues := s.enqueues[op := s.enqueues[op].(phase := P.Compensating)])
  {
    var given := t.enqueueFrames[op].(phase := Compensating);
    assert CallOwned(op, t.enqueueFrames[op], t.owner);
    PendingAdds(t.pendingJobs, t.owner, c, t.enqueueFrames[op].phase.job);
    assert CallValues(c, t.enqueueFrames[op := given]) == CallValues(c, t.enqueueFrames)[op := CallValue(c, given)];
  }

  // A call leaves

  ghost function CallLeft(t: Tables, op: nat): Tables
    requires op in t.enqueueFrames
  {
    var frame := t.enqueueFrames[op];
    t.(enqueueFrames := t.enqueueFrames - {op},
       enqueueTransitionsByMemoryId := DecrementCount(t.enqueueTransitionsByMemoryId, frame.memoryId),
       schedulingSuspensions := t.schedulingSuspensions - if frame.hasFinalizer then 1 else 0)
  }

  lemma CallLeftMatched(t: Tables, c: Contents, op: nat)
    requires Matched(t, c) && op in t.enqueueFrames
    ensures Matched(CallLeft(t, op), c)
  {
    assert CallsOwned(t.enqueueFrames - {op}, t.owner);
    CallLeaves(t.enqueueTransitionsByMemoryId, t.schedulingSuspensions, t.enqueueFrames, t.scanFrames, op);
    hide PendingIndexed, PendingOwned, IntentsOwned, CallsOwned, PersistsOwned, CallsCounted, SuspensionsCounted, PersistsTabled;
  }

  lemma CallLeftState(t: Tables, c: Contents, op: nat)
    requires op in t.enqueueFrames
    ensures StateOf(CallLeft(t, op), c) == StateOf(t, c).(enqueues := StateOf(t, c).enqueues - {op})
  {
    assert CallValues(c, t.enqueueFrames - {op}) == CallValues(c, t.enqueueFrames) - {op};
  }

  /** A call about to leave may already have given its job away. */
  lemma LeavingIgnoresPhase(s: P.State, op: nat)
    requires op in s.enqueues
    ensures P.LeaveEnqueue(s.(enqueues := s.enqueues[op := s.enqueues[op].(phase := P.Compensating)]), op)
            == P.LeaveEnqueue(s, op)
  {
    assert s.enqueues[op := s.enqueues[op].(phase := P.Compensating)] - {op} == s.enqueues - {op};
  }

  lemma ScheduleIgnoresPhase(s: P.State, op: nat)
    requires op in s.enqueues
    ensures var given := s.enqueues[op := s.enqueues[op].(phase := P.Compensating)];
            P.Schedule(s.(enqueues := given)) == P.Schedule(s).(enqueues := given)
  {
    var u := s.(enqueues := s.enqueues[op := s.enqueues[op].(phase := P.Compensating)]);
    if k :| k in s.enqueues && s.enqueues[k].hasFinalizer {
      assert u.enqueues[k].hasFinalizer;
    }
    if k :| k in u.enqueues && u.enqueues[k].hasFinalizer {
      assert s.enqueues[k].hasFinalizer;
    }
  }

  // Persisted intents

  ghost function PersistStarted(t: Tables, op: nat, job: MemoryBackupJob, saved: bool): Tables {
    var id := job.memoryId;
    var saves := saved && id in t.statuses;
    var others := if id in t.persistIntentTransitionsByMemoryId then t.persistIntentTransitionsByMemoryId[id] else {};
    t.(persistFrames := t.persistFrames[op := PersistFrame(job, saves)],
       persistIntentTransitionsByMemoryId := t.persistIntentTransitionsByMemoryId[id := others + {job}],
       statuses := if saves then t.statuses[id := P.Pending] else t.statuses,
       owner := t.owner[job := InPersist(op)])
  }

  lemma PersistingAdded(frames: map<nat, PersistFrame>, op: nat, frame: PersistFrame, id: MemoryId)
    requires op !in frames
    ensures PersistingJobs(frames[op := frame], id)
            == PersistingJobs(frames, id) + if id == frame.job.memoryId then {frame.job} else {}
  {
    var added := frames[op := frame];
    assert added[op].job == frame.job;
    forall j | j in PersistingJobs(frames, id) ensures j in PersistingJobs(added, id) {
      var k :| k in frames && frames[k].job.memoryId == id && frames[k].job == j;
      assert added[k].job == j;
    }
  }

  lemma PersistEnters(transitions: Transitions, frames: map<nat, PersistFrame>, op: nat, frame: PersistFrame)
    requires PersistsTabled(transitions, frames) && op !in frames
    ensures var id := frame.job.memoryId;
            PersistsTabled(transitions[id := (if id in transitions then transitions[id] else {}) + {frame.job}],
                           frames[op := frame])
  {
    forall id {
      PersistingAdded(frames, op, frame, id);
    }
    if frame.job.memoryId !in transitions {
      assert PersistingJobs(frames, frame.job.memoryId) == {};
    }
  }

  lemma PersistAdds(frames: map<nat, PersistFrame>, owner: Owner, c: Contents, op: nat, frame: PersistFrame, value: Job)
    requires PersistsOwned(frames, owner) && op !in frames && frame.job !in owner
    ensures PersistsOwned(frames[op := frame], owner[frame.job := InPersist(op)])
    ensures PersistValues(c[frame.job := value], frames[op := frame])
            == PersistValues(c, frames)[op := P.PersistOp(value, frame.saved)]
  {
    PersistsUntouched(frames, owner, c, frame.job, InPersist(op), value);
  }

  lemma PersistStartedConsistent(t: Tables, c: Contents, op: nat, job: MemoryBackupJob, saved: bool)
    requires Consistent(t) && op !in t.persistFrames && job !in t.owner
    ensures Consistent(PersistStarted(t, op, job, saved))
  {
    var slot := InPersist(op);
    var value := Value(c, job);
    var frame := PersistStarted(t, op, job, saved).persistFrames[op];
    hide PendingIndexed, PendingOwned, IntentsOwned, CallsOwned, PersistsOwned, CallsCounted, SuspensionsCounted, PersistsTabled;
    PendingUntouched(t.pendingJobs, t.owner, c, job, slot, value);
    IntentsUntouched(t.durableIntentJobsByMemoryId, t.owner, c, job, slot, value);
    CallsUntouched(t.enqueueFrames, t.owner, c, job, slot, value);
    PersistAdds(t.persistFrames, t.owner, c, op, frame, value);
    WorkerUntouched(t.worker, t.owner, c, job, slot, value);
    PersistEnters(t.persistIntentTransitionsByMemoryId, t.persistFrames, op, frame);
  }

  lemma PersistStartedState(t: Tables, c: Contents, op: nat, job: MemoryBackupJob, input: Job, saved: bool)
    requires Owned(t) && op !in t.persistFrames && job !in t.owner && job.memoryId == input.memoryId
    ensures StateOf(PersistStarted(t, op, job, saved), c[job := input])
            == P.StartPersistStep(StateOf(t, c), op, input, saved)
  {
    var slot := InPersist(op);
    var frame := PersistStarted(t, op, job, saved).persistFrames[op];
    hide PendingIndexed, PendingOwned, IntentsOwned, CallsOwned, PersistsOwned, CallsCounted, SuspensionsCounted, PersistsTabled;
    PendingUntouched(t.pendingJobs, t.owner, c, job, slot, input);
    IntentsUntouched(t.durableIntentJobsByMemoryId, t.owner, c, job, slot, input);
    CallsUntouched(t.enqueueFrames, t.owner, c, job, slot, input);
    PersistAdds(t.persistFrames, t.owner, c, op, frame, input);
    WorkerUntouched(t.worker, t.owner, c, job, slot, input);
  }

  ghost function Forget(transitions: Transitions, job: MemoryBackupJob): Transitions {
    var others := (if job.memoryId in transitions then transitions[job.memoryId] else {}) - {job};
    if others == {} then transitions - {job.memoryId} else transitions[job.memoryId := others]
  }

  lemma PersistLeaves(transitions: Transitions, frames: map<nat, PersistFrame>, owner: Owner, op: nat)
    requires PersistsTabled(transitions, frames) && PersistsOwned(frames, owner) && op in frames
    ensures PersistsTabled(Forget(transitions, frames[op].job), frames - {op})
  {
    var job := frames[op].job;
    forall id ensures PersistingJobs(frames - {op}, id) == PersistingJobs(frames, id) - {job} {
      PersistingLess(frames, owner, op, id);
    }
    forall k | k in frames - {op} ensures frames[k].job.memoryId in Forget(transitions, job) {
      assert frames[k].job in PersistingJobs(frames - {op}, frames[k].job.memoryId);
    }
  }

  lemma PersistingLess(frames: map<nat, PersistFrame>, owner: Owner, op: nat, id: MemoryId)
    requires PersistsOwned(frames, owner) && op in frames
    ensures PersistingJobs(frames - {op}, id) == PersistingJobs(frames, id) - {frames[op].job}
  {
    var job := frames[op].job;
    forall j | j in PersistingJobs(frames, id) && j != job ensures j in PersistingJobs(frames - {op}, id) {
      var k :| k in frames && frames[k].job.memoryId == id && frames[k].job == j;
      assert (frames - {op})[k].job == j;
    }
    assert forall k :: k in frames && frames[k].job == job ==> Owns(owner, frames[k].job, InPersist(k)) && k == op;
  }

  lemma PersistsAfter(frames: map<nat, PersistFrame>, owner: Owner, c: Contents, op: nat, slot: Slot, value: Job)
    requires PersistsOwned(frames, owner) && op in frames
    ensures PersistsOwned(frames - {op}, owner[frames[op].job := slot])
    ensures PersistValues(c[frames[op].job := value], frames - {op}) == PersistValues(c, frames) - {op}
  {
    assert forall k :: k in frames ==> Owns(owner, frames[k].job, InPersist(k));
  }

  /** The call's job is dropped, or has been merged into the intent of its memory. */
  ghost function PersistDropped(t: Tables, op: nat): Tables
    requires op in t.persistFrames
  {
    t.(persistFrames := t.persistFrames - {op},
       persistIntentTransitionsByMemoryId := Forget(t.persistIntentTransitionsByMemoryId, t.persistFrames[op].job))
  }

  /** The call's job becomes the intent of its memory. */
  ghost function PersistKept(t: Tables, op: nat): Tables
    requires op in t.persistFrames
  {
    var job := t.persistFrames[op].job;
    PersistDropped(t, op).(
      durableIntentJobsByMemoryId := t.durableIntentJobsByMemoryId[job.memoryId := job],
      owner := t.owner[job := InIntents(job.memoryId)])
  }

  lemma IntentMerges(intents: map<MemoryId, MemoryBackupJob>, owner: Owner, c: Contents, id: MemoryId, value: Job)
    requires IntentsOwned(intents, owner) && id in intents
    ensures IntentValues(c[intents[id] := value], intents) == IntentValues(c, intents)[id := value]
  {
    assert forall k :: k in intents ==> Owns(owner, intents[k], InIntents(k));
  }

  lemma PersistDroppedConsistent(t: Tables, op: nat)
    requires Consistent(t) && op in t.persistFrames
    ensures Consistent(PersistDropped(t, op))
  {
    assert PersistsOwned(t.persistFrames - {op}, t.owner);
    hide PendingIndexed, PendingOwned, IntentsOwned, CallsOwned, PersistsOwned, CallsCounted, SuspensionsCounted, PersistsTabled;
    PersistLeaves(t.persistIntentTransitionsByMemoryId, t.persistFrames, t.owner, op);
  }

  lemma PersistDroppedState(t: Tables, c: Contents, op: nat)
    requires op in t.persistFrames && !t.persistFrames[op].saved
    ensures StateOf(PersistDropped(t, op), c) == P.ResumePersistStep(StateOf(t, c), op)
  {
    assert PersistValues(c, t.persistFrames - {op}) == PersistValues(c, t.persistFrames) - {op};
  }

  lemma IntentIsOwned(t: Tables, id: MemoryId)
    requires IntentsOwned(t.durableIntentJobsByMemoryId, t.owner) || Consistent(t)
    requires id in t.durableIntentJobsByMemoryId
    ensures Owns(t.owner, t.durableIntentJobsByMemoryId[id], InIntents(id))
    ensures t.durableIntentJobsByMemoryId[id].memoryId == id
  {
    hide PendingIndexed, PendingOwned, CallsOwned, PersistsOwned, CallsCounted, SuspensionsCounted, PersistsTabled;
  }

  lemma PersistDroppedOwner(t: Tables, op: nat)
    requires op in t.persistFrames
    ensures PersistDropped(t, op).owner.Keys == t.owner.Keys
  {
  }

  lemma PersistMergedMatched(t: Tables, c: Contents, op: nat)
    requires Matched(t, c) && op in t.persistFrames && t.persistFrames[op].job.memoryId in t.durableIntentJobsByMemoryId
    ensures var retained := t.durableIntentJobsByMemoryId[t.persistFrames[op].job.memoryId];
            Matched(PersistDropped(t, op), c[retained := Merge(Value(c, retained), Value(c, t.persistFrames[op].job))])
  {
    hide Consistent, PersistDropped;
    var id := t.persistFrames[op].job.memoryId;
    IntentIsOwned(t, id);
    PersistDroppedConsistent(t, op);
    PersistDroppedOwner(t, op);
  }

  lemma PersistMergedState(t: Tables, c: Contents, op: nat)
    requires Owned(t) && op in t.persistFrames && t.persistFrames[op].saved && Faithful(c)
    requires t.persistFrames[op].job.memoryId in t.durableIntentJobsByMemoryId
    ensures var retained := t.durableIntentJobsByMemoryId[t.persistFrames[op].job.memoryId];
            StateOf(PersistDropped(t, op), c[retained := Merge(Value(c, retained), Value(c, t.persistFrames[op].job))])
            == P.ResumePersistStep(StateOf(t, c), op)
  {
    hide PendingIndexed, PendingOwned, IntentsOwned, CallsOwned, PersistsOwned, CallsCounted, SuspensionsCounted, PersistsTabled;
    var job := t.persistFrames[op].job;
    var id := job.memoryId;
    var retained := t.durableIntentJobsByMemoryId[id];
    var value := Merge(Value(c, retained), Value(c, job));
    var slot := InIntents(id);
    IntentIsOwned(t, id);
    PendingUntouched(t.pendingJobs, t.owner, c, retained, slot, value);
    IntentMerges(t.durableIntentJobsByMemoryId, t.owner, c, id, value);
    CallsUntouched(t.enqueueFrames, t.owner, c, retained, slot, value);
    PersistsUntouched(t.persistFrames, t.owner, c, retained, slot, value);
    assert PersistValues(c[retained := value], t.persistFrames - {op})
           == PersistValues(c[retained := value], t.persistFrames) - {op};
    WorkerUntouched(t.worker, t.owner, c, retained, slot, value);
  }

  lemma PersistKeptConsistent(t: Tables, c: Contents, op: nat)
    requires Consistent(t) && op in t.persistFrames
    ensures Consistent(PersistKept(t, op))
  {
    var job := t.persistFrames[op].job;
    var slot := InIntents(job.memoryId);
    var value := Value(c, job);
    assert Owns(t.owner, job, InPersist(op));
    hide PendingIndexed, PendingOwned, IntentsOwned, CallsOwned, PersistsOwned, CallsCounted, SuspensionsCounted, PersistsTabled;
    PersistLeaves(t.persistIntentTransitionsByMemoryId, t.persistFrames, t.owner, op);
    PendingUntouched(t.pendingJobs, t.owner, c, job, slot, value);
    IntentAdds(t.durableIntentJobsByMemoryId, t.owner, c, job, value);
    CallsUntouched(t.enqueueFrames, t.owner, c, job, slot, value);
    PersistsAfter(t.persistFrames, t.owner, c, op, slot, value);
    WorkerUntouched(t.worker, t.owner, c, job, slot, value);
  }

  lemma PersistKeptMatched(t: Tables, c: Contents, op: nat)
    requires Matched(t, c) && op in t.persistFrames
    ensures Matched(PersistKept(t, op), c)
  {
    assert Owns(t.owner, t.persistFrames[op].job, InPersist(op));
    PersistKeptConsistent(t, c, op);
    hide Consistent;
  }

  lemma PersistKeptState(t: Tables, c: Contents, op: nat)
    requires op in t.persistFrames && t.persistFrames[op].saved && Faithful(c)
    requires t.persistFrames[op].job.memoryId !in t.durableIntentJobsByMemoryId
    ensures StateOf(PersistKept(t, op), c) == P.ResumePersistStep(StateOf(t, c), op)
  {
    var job := t.persistFrames[op].job;
    assert PersistValues(c, t.persistFrames - {op}) == PersistValues(c, t.persistFrames) - {op};
    assert IntentValues(c, t.durableIntentJobsByMemoryId[job.memoryId := job])
           == IntentValues(c, t.durableIntentJobsByMemoryId)[job.memoryId := Value(c, job)];
  }

  // The worker

  ghost function JobTaken(t: Tables): Tables
    requires t.pendingJobs != []
  {
    var job := t.pendingJobs[0];
    t.(pendingJobs := t.pendingJobs[1..],
       pendingJobsByMemoryId := t.pendingJobsByMemoryId - {job.memoryId},
       runningJobsByMemoryId := t.runningJobsByMemoryId[job.memoryId := job],
       worker := Running(job),
       owner := t.owner[job := InWorker])
  }

  lemma IndexTaken(jobs: seq<MemoryBackupJob>, index: map<MemoryId, MemoryBackupJob>)
    requires PendingIndexed(jobs, index) && jobs != []
    ensures PendingIndexed(jobs[1..], index - {jobs[0].memoryId})
  {
    forall id | id in index && id != jobs[0].memoryId ensures index[id] in jobs[1..] {
      var i :| 0 <= i < |jobs| && jobs[i] == index[id];
      assert jobs[1..][i - 1] == index[id];
    }
  }

  lemma PendingTaken(jobs: seq<MemoryBackupJob>, owner: Owner, c: Contents)
    requires jobs != [] && PendingOwned(jobs, owner)
    requires forall i, j :: 0 <= i < j < |jobs| ==> jobs[i].memoryId != jobs[j].memoryId
    ensures PendingOwned(jobs[1..], owner[jobs[0] := InWorker])
    ensures PendingValues(c, jobs[1..]) == PendingValues(c, jobs)[1..]
  {
    assert forall i :: 0 <= i < |jobs| ==> Owns(owner, jobs[i], InPending(jobs[i].memoryId));
  }

  lemma FirstIsOwned(t: Tables)
    requires Consistent(t) && t.pendingJobs != []
    ensures Owns(t.owner, t.pendingJobs[0], InPending(t.pendingJobs[0].memoryId))
  {
    hide PendingIndexed, IntentsOwned, CallsOwned, PersistsOwned, CallsCounted, SuspensionsCounted, PersistsTabled;
  }

  lemma JobTakenConsistent(t: Tables, c: Contents)
    requires Consistent(t) && t.pendingJobs != [] && t.runningJobsByMemoryId == map[]
    ensures Consistent(JobTaken(t))
  {
    hide PendingIndexed, PendingOwned, IntentsOwned, CallsOwned, PersistsOwned, CallsCounted, SuspensionsCounted, PersistsTabled,
         Value;
    var job := t.pendingJobs[0];
    var value := Value(c, job);
    FirstIsOwned(t);
    IndexTaken(t.pendingJobs, t.pendingJobsByMemoryId);
    PendingTaken(t.pendingJobs, t.owner, c);
    IntentsUntouched(t.durableIntentJobsByMemoryId, t.owner, c, job, InWorker, value);
    CallsUntouched(t.enqueueFrames, t.owner, c, job, InWorker, value);
    PersistsUntouched(t.persistFrames, t.owner, c, job, InWorker, value);
  }

  lemma JobTakenMatched(t: Tables, c: Contents)
    requires Matched(t, c) && t.pendingJobs != [] && t.runningJobsByMemoryId == map[]
    ensures Matched(JobTaken(t), c)
  {
    assert Owns(t.owner, t.pendingJobs[0], InPending(t.pendingJobs[0].memoryId));
    JobTakenConsistent(t, c);
    hide Consistent;
  }

  lemma JobTakenState(t: Tables, c: Contents)
    requires t.pendingJobs != []
    ensures var s := StateOf(t, c);
            StateOf(JobTaken(t), c) == s.(pending := s.pending[1..], worker := P.Running(s.pending[0]))
  {
    assert PendingValues(c, t.pendingJobs[1..]) == PendingValues(c, t.pendingJobs)[1..];
  }

  /** The parts of a matched pair that the state lemmas need. */
  lemma MatchedParts(t: Tables, c: Contents)
    requires Matched(t, c)
    ensures Owned(t) && Faithful(c) && PendingIndexed(t.pendingJobs, t.pendingJobsByMemoryId)
  {
  }

  // Steps as the queue's methods take them: new tables and contents in, protocol step out

  ghost function ScheduledTables(t: Tables): Tables {
    if t.worker != Idle || t.schedulingSuspensions > 0 then t else t.(worker := Scheduled)
  }

  lemma ScheduledMatched(t: Tables, c: Contents)
    requires Matched(t, c)
    ensures Matched(ScheduledTables(t), c)
  {
    hide PendingIndexed, PendingOwned, IntentsOwned, CallsOwned, PersistsOwned, CallsCounted, SuspensionsCounted,
         PersistsTabled, Faithful;
  }

  lemma ScheduledState(t: Tables, c: Contents)
    requires SuspensionsCounted(t.schedulingSuspensions, t.enqueueFrames, t.scanFrames)
    ensures StateOf(ScheduledTables(t), c) == P.Schedule(StateOf(t, c))
  {
    hide SuspensionsCounted, PendingValues, IntentValues, CallValues, PersistValues, P.Suspended;
    SuspensionsAgree(t, c);
  }

  lemma ScheduleStep(t: Tables, c: Contents)
    requires Matched(t, c)
    ensures Matched(ScheduledTables(t), c) && StateOf(ScheduledTables(t), c) == P.Schedule(StateOf(t, c))
  {
    assert SuspensionsCounted(t.schedulingSuspensions, t.enqueueFrames, t.scanFrames);
    hide Matched, ScheduledTables, StateOf, P.Schedule, SuspensionsCounted;
    ScheduledMatched(t, c);
    ScheduledState(t, c);
  }

  ghost function SavedTables(t: Tables, id: MemoryId, value: P.Status, databaseUp: bool): Tables {
    t.(statuses := if databaseUp && id in t.statuses then t.statuses[id := value] else t.statuses)
  }

  lemma SaveStep(t: Tables, c: Contents, id: MemoryId, value: P.Status, databaseUp: bool)
    requires Matched(t, c)
    ensures var u := SavedTables(t, id, value, databaseUp);
            Matched(u, c) && StateOf(u, c) == P.Save(StateOf(t, c), id, value, databaseUp)
  {
    hide PendingIndexed, PendingOwned, IntentsOwned, CallsOwned, PersistsOwned, CallsCounted, SuspensionsCounted,
         PersistsTabled, Faithful, PendingValues, IntentValues, CallValues, PersistValues, WorkerValue;
  }

  lemma LeaveStep(t: Tables, c: Contents, op: nat)
    requires Matched(t, c) && op in t.enqueueFrames
    ensures Matched(CallLeft(t, op), c)
    ensures var s := StateOf(t, c);
            && op in s.enqueues && s.enqueues[op].hasFinalizer == t.enqueueFrames[op].hasFinalizer
            && |s.pending| == |t.pendingJobs|
            && StateOf(CallLeft(t, op), c) == s.(enqueues := s.enqueues - {op})
  {
    CallLeftMatched(t, c, op);
    CallLeftState(t, c, op);
  }

  /** The call whose queued status was saved now waits for its finalizer. */
  ghost function FinalizerAwaited(t: Tables, op: nat): Tables
    requires op in t.enqueueFrames && t.enqueueFrames[op].phase.SavingQueued?
  {
    var frame := t.enqueueFrames[op];
    t.(enqueueFrames := t.enqueueFrames[op := frame.(phase := Finalizing(frame.phase.job))])
  }

  lemma FinalizerAwaitedMatched(t: Tables, c: Contents, op: nat)
    requires Matched(t, c) && op in t.enqueueFrames && t.enqueueFrames[op].phase.SavingQueued?
    ensures Matched(FinalizerAwaited(t, op), c)
  {
    var frame := t.enqueueFrames[op];
    assert CallOwned(op, frame, t.owner);
    CallAdds(t.enqueueFrames, t.owner, c, op, frame.(phase := Finalizing(frame.phase.job)));
    CallMoves(t.enqueueTransitionsByMemoryId, t.schedulingSuspensions, t.enqueueFrames, t.scanFrames, op,
              Finalizing(frame.phase.job));
    hide PendingIndexed, PendingOwned, IntentsOwned, CallsOwned, PersistsOwned, CallsCounted, SuspensionsCounted, PersistsTabled;
  }

  lemma FinalizerAwaitedStep(t: Tables, c: Contents, op: nat)
    requires op in t.enqueueFrames && t.enqueueFrames[op].phase.SavingQueued? && t.enqueueFrames[op].phase.saved
    ensures StateOf(FinalizerAwaited(t, op), c) == P.ResumeEnqueueStep(StateOf(t, c), op)
  {
    var s := StateOf(t, c);
    assert CallValues(c, FinalizerAwaited(t, op).enqueueFrames)
           == s.enqueues[op := s.enqueues[op].(phase := P.Finalizing(s.enqueues[op].phase.job))];
  }

  lemma RetainStep(t: Tables, c: Contents, op: nat)
    requires Matched(t, c) && op in t.enqueueFrames && !t.enqueueFrames[op].phase.Compensating?
    ensures var s := StateOf(t, c);
            var u := IntentRetained(t, op);
            var d := c[t.enqueueFrames[op].phase.job := RetainedValue(t, c, op)];
            && Matched(u, d)
            && op in s.enqueues && !s.enqueues[op].phase.Compensating?
            && StateOf(u, d) == s.(intents := P.RetainIntent(s.intents, s.enqueues[op].phase.job),
                                   enqueues := s.enqueues[op := s.enqueues[op].(phase := P.Compensating)])
  {
    MatchedParts(t, c);
    assert CallOwned(op, t.enqueueFrames[op], t.owner);
    IntentRetainedMatched(t, c, op);
    IntentRetainedState(t, c, op, RetainedValue(t, c, op));
    hide Matched, Owned, PendingIndexed, IntentRetained;
  }

  ghost function Pushed(t: Tables, op: nat): Tables
    requires op in t.enqueueFrames && !t.enqueueFrames[op].phase.Compensating?
  {
    if t.enqueueFrames[op].memoryId in t.pendingJobsByMemoryId then PendingMerged(t, op) else PendingAppended(t, op)
  }

  ghost function PushedContents(t: Tables, c: Contents, op: nat): Contents
    requires op in t.enqueueFrames && !t.enqueueFrames[op].phase.Compensating?
  {
    var id := t.enqueueFrames[op].memoryId;
    if id in t.pendingJobsByMemoryId then
      var pending := t.pendingJobsByMemoryId[id];
      c[pending := Merge(Value(c, pending), Value(c, t.enqueueFrames[op].phase.job))]
    else c
  }

  lemma PushStep(t: Tables, c: Contents, op: nat)
    requires Matched(t, c) && op in t.enqueueFrames && !t.enqueueFrames[op].phase.Compensating?
    ensures var s := StateOf(t, c);
            var u := Pushed(t, op);
            var d := PushedContents(t, c, op);
            && Matched(u, d)
            && op in s.enqueues && !s.enqueues[op].phase.Compensating?
            && StateOf(u, d) == s.(pending := P.PushPending(s.pending, s.enqueues[op].phase.job),
                                   enqueues := s.enqueues[op := s.enqueues[op].(phase := P.Compensating)])
  {
    MatchedParts(t, c);
    if t.enqueueFrames[op].memoryId in t.pendingJobsByMemoryId {
      PendingMergedMatched(t, c, op);
      PendingMergedValues(t, c, op);
    } else {
      PendingAppendedMatched(t, c, op);
      PendingAppendedState(t, c, op);
    }
    hide Matched, Owned, PendingIndexed, PendingMerged, PendingAppended;
  }

  lemma PersistStartedMatched(t: Tables, c: Contents, op: nat, job: MemoryBackupJob, input: Job, databaseUp: bool)
    requires Matched(t, c) && op !in t.persistFrames && job !in t.owner && job.memoryId == input.memoryId
    ensures Matched(PersistStarted(t, op, job, databaseUp), c[job := input])
  {
    PersistStartedConsistent(t, c, op, job, databaseUp);
    hide Consistent;
  }

  lemma PersistStartStep(t: Tables, c: Contents, op: nat, job: MemoryBackupJob, input: Job, databaseUp: bool)
    requires Matched(t, c) && op !in t.persistFrames && job !in t.owner && job.memoryId == input.memoryId
    ensures var u := PersistStarted(t, op, job, databaseUp);
            Matched(u, c[job := input])
            && StateOf(u, c[job := input]) == P.StartPersistStep(StateOf(t, c), op, input, databaseUp)
  {
    MatchedParts(t, c);
    hide Matched, Owned, PendingIndexed, PersistStarted, P.StartPersistStep, StateOf;
    PersistStartedMatched(t, c, op, job, input, databaseUp);
    PersistStartedState(t, c, op, job, input, databaseUp);
  }

  ghost function PersistResumed(t: Tables, op: nat): Tables
    requires op in t.persistFrames
  {
    if t.persistFrames[op].saved && t.persistFrames[op].job.memoryId !in t.durableIntentJobsByMemoryId
    then PersistKept(t, op) else PersistDropped(t, op)
  }

  ghost function PersistResumedContents(t: Tables, c: Contents, op: nat): Contents
    requires op in t.persistFrames
  {
    var job := t.persistFrames[op].job;
    if t.persistFrames[op].saved && job.memoryId in t.durableIntentJobsByMemoryId then
      var retained := t.durableIntentJobsByMemoryId[job.memoryId];
      c[retained := Merge(Value(c, retained), Value(c, job))]
    else c
  }

  lemma PersistResumeStep(t: Tables, c: Contents, op: nat)
    requires Matched(t, c) && op in t.persistFrames
    ensures var u := PersistResumed(t, op);
            var d := PersistResumedContents(t, c, op);
            && Matched(u, d) && op in StateOf(t, c).persists
            && StateOf(u, d) == P.ResumePersistStep(StateOf(t, c), op)
  {
    MatchedParts(t, c);
    assert op in StateOf(t, c).persists;
    if !t.persistFrames[op].saved {
      PersistDroppedConsistent(t, op);
      PersistDroppedState(t, c, op);
      assert Matched(PersistDropped(t, op), c);
    } else if t.persistFrames[op].job.memoryId in t.durableIntentJobsByMemoryId {
      PersistMergedMatched(t, c, op);
      PersistMergedState(t, c, op);
    } else {
      PersistKeptMatched(t, c, op);
      PersistKeptState(t, c, op);
    }
    hide Matched, Owned, PendingIndexed, PersistDropped, PersistKept, P.ResumePersistStep, StateOf;
  }

  /** A call that failed before its status was saved and held no intent takes its job with it. */
  ghost predicate DropsJob(t: Tables, op: nat) {
    op in t.enqueueFrames && t.enqueueFrames[op].phase.SavingQueued?
    && !t.enqueueFrames[op].phase.saved && !t.enqueueFrames[op].tookIntent
  }

  lemma FailedEnqueueLeaves(s: P.State, op: nat)
    requires op in s.enqueues && s.enqueues[op].phase.SavingQueued? && !s.enqueues[op].phase.saved
    ensures P.ResumeEnqueueStep(s, op)
            == P.LeaveEnqueue(if s.enqueues[op].tookIntent
                              then s.(intents := P.RetainIntent(s.intents, s.enqueues[op].phase.job)) else s, op)
  {
  }

  lemma CallPhases(t: Tables, c: Contents, op: nat)
    requires op in t.enqueueFrames
    ensures var s := StateOf(t, c);
            op in s.enqueues && s.enqueues[op] == CallValue(c, t.enqueueFrames[op])
  {
  }

  ghost function JobSettledTables(t: Tables, value: P.Status, databaseUp: bool, succeeded: bool): Tables
    requires t.worker.Running?
  {
    var id := t.worker.job.memoryId;
    SavedTables(t, id, value, databaseUp).(
      worker := Recording(t.worker.job, succeeded && !(databaseUp && id in t.statuses)))
  }

  lemma RecordingMatched(t: Tables, c: Contents, mustRecordFailure: bool)
    requires Matched(t, c) && (t.worker.Running? || t.worker.Recording?)
    ensures Matched(t.(worker := Recording(t.worker.job, mustRecordFailure)), c)
  {
    hide PendingIndexed, PendingOwned, IntentsOwned, CallsOwned, PersistsOwned, CallsCounted, SuspensionsCounted,
         PersistsTabled, Faithful;
  }

  lemma RecordingState(t: Tables, c: Contents, mustRecordFailure: bool)
    requires t.worker.Running? || t.worker.Recording?
    ensures var s := StateOf(t, c);
            && (s.worker.Running? || s.worker.Recording?)
            && (s.worker.Running? <==> t.worker.Running?)
            && (Faithful(c) ==> s.worker.job.memoryId == t.worker.job.memoryId)
            && (t.worker.Recording? ==> s.worker.mustRecordFailure == t.worker.mustRecordFailure)
            && StateOf(t.(worker := Recording(t.worker.job, mustRecordFailure)), c)
               == s.(worker := P.Recording(s.worker.job, mustRecordFailure))
  {
    hide PendingValues, IntentValues, CallValues, PersistValues;
  }

  lemma JobSettledStep(t: Tables, c: Contents, value: P.Status, databaseUp: bool, succeeded: bool)
    requires Matched(t, c) && t.worker.Running?
    requires value == if succeeded then P.StatusAfterSuccess(StateOf(t, c), t.worker.job.memoryId) else P.Failed
    ensures var u := JobSettledTables(t, value, databaseUp, succeeded);
            && Matched(u, c) && StateOf(t, c).worker.Running?
            && StateOf(u, c) == P.JobSettledStep(StateOf(t, c), succeeded, databaseUp)
  {
    var id := t.worker.job.memoryId;
    var saved := SavedTables(t, id, value, databaseUp);
    var failing := succeeded && !(databaseUp && id in t.statuses);
    MatchedParts(t, c);
    assert StateOf(t, c).status == t.statuses;
    SaveStep(t, c, id, value, databaseUp);
    RecordingMatched(saved, c, failing);
    RecordingState(saved, c, failing);
    RecordingState(t, c, failing);
    hide Matched, Owned, PendingIndexed, StateOf, P.StatusAfterSuccess;
  }

  /** The status the code reads off the tables is the one the protocol asks for. */
  lemma StatusReadOff(t: Tables, c: Contents, id: MemoryId)
    requires Matched(t, c)
    ensures P.StatusAfterSuccess(StateOf(t, c), id)
            == if id in t.persistIntentTransitionsByMemoryId && t.persistIntentTransitionsByMemoryId[id] != {} then P.Pending
               else if Count(t.enqueueTransitionsByMemoryId, id) > 0 then P.Queued
               else if id in t.durableIntentJobsByMemoryId then P.Pending
               else if id in t.pendingJobsByMemoryId then P.Queued
               else P.Success
  {
    PersistsAgree(t, c, id);
    CallsAgree(t, c, id);
    PendingAgrees(t, c, id);
    assert id in t.persistIntentTransitionsByMemoryId ==> t.persistIntentTransitionsByMemoryId[id] != {};
    assert id in StateOf(t, c).intents <==> id in t.durableIntentJobsByMemoryId;
    hide PendingIndexed, PendingOwned, IntentsOwned, CallsOwned, PersistsOwned, CallsCounted, SuspensionsCounted,
         PersistsTabled, Faithful, StateOf, P.PersistInFlight, P.EnqueueInFlight, P.HasPending;
  }

  /** The running table lets go of the settled job. */
  ghost function JobForgotten(t: Tables): Tables {
    t.(runningJobsByMemoryId := map[], worker := Finishing)
  }

  lemma JobForgottenMatched(t: Tables, c: Contents)
    requires Matched(t, c)
    ensures Matched(JobForgotten(t), c)
  {
    hide PendingIndexed, PendingOwned, IntentsOwned, CallsOwned, PersistsOwned, CallsCounted, SuspensionsCounted,
         PersistsTabled, Faithful;
  }

  ghost function NextTables(t: Tables): Tables {
    var u := JobForgotten(t);
    if t.pendingJobs != [] && t.schedulingSuspensions == 0 then JobTaken(u) else u
  }

  lemma JobForgottenState(t: Tables, c: Contents)
    ensures StateOf(JobForgotten(t), c) == StateOf(t, c).(worker := P.Finishing)
  {
  }

  lemma NextJobState(t: Tables, c: Contents)
    requires SuspensionsCounted(t.schedulingSuspensions, t.enqueueFrames, t.scanFrames)
    ensures StateOf(NextTables(t), c) == P.NextJob(StateOf(t, c))
  {
    SuspensionsAgree(t, c);
    assert t.schedulingSuspensions >= 0;
    assert StateOf(t, c).pending == [] <==> t.pendingJobs == [];
    JobForgottenState(t, c);
    hide SuspensionsCounted, P.Suspended, StateOf;
    if t.pendingJobs != [] && t.schedulingSuspensions == 0 {
      JobTakenState(JobForgotten(t), c);
    }
  }

  lemma NextJobStep(t: Tables, c: Contents)
    requires Matched(t, c)
    ensures t.schedulingSuspensions >= 0
    ensures Matched(NextTables(t), c) && StateOf(NextTables(t), c) == P.NextJob(StateOf(t, c))
  {
    assert SuspensionsCounted(t.schedulingSuspensions, t.enqueueFrames, t.scanFrames);
    JobForgottenMatched(t, c);
    if t.pendingJobs != [] && t.schedulingSuspensions == 0 {
      JobTakenMatched(JobForgotten(t), c);
    }
    NextJobState(t, c);
    hide Matched, StateOf, P.NextJob, JobTaken;
  }

  ghost function WorkerIdle(t: Tables): Tables
    requires t.worker.Finishing?
  {
    t.(worker := Idle)
  }

  lemma WorkerIdleStep(t: Tables, c: Contents)
    requires Matched(t, c) && t.worker.Finishing?
    ensures Matched(WorkerIdle(t), c) && StateOf(WorkerIdle(t), c) == StateOf(t, c).(worker := P.Idle)
  {
    hide PendingIndexed, PendingOwned, IntentsOwned, CallsOwned, PersistsOwned, CallsCounted, SuspensionsCounted,
         PersistsTabled, Faithful, PendingValues, IntentValues, CallValues, PersistValues;
  }

  ghost function ScansChanged(t: Tables, scans: set<nat>): Tables {
    t.(scanFrames := scans, schedulingSuspensions := t.schedulingSuspensions + |scans| - |t.scanFrames|)
  }

  lemma ScansChangedStep(t: Tables, c: Contents, scans: set<nat>)
    requires Matched(t, c)
    ensures Matched(ScansChanged(t, scans), c) && StateOf(ScansChanged(t, scans), c) == StateOf(t, c).(scans := scans)
  {
    hide PendingIndexed, PendingOwned, IntentsOwned, CallsOwned, PersistsOwned, CallsCounted,
         PersistsTabled, Faithful, PendingValues, IntentValues, CallValues, PersistValues, WorkerValue;
  }

  lemma RowsChangedStep(t: Tables, c: Contents, rows: map<MemoryId, P.Status>)
    requires Matched(t, c)
    ensures Matched(t.(statuses := rows), c) && StateOf(t.(statuses := rows), c) == StateOf(t, c).(status := rows)
  {
    hide PendingIndexed, PendingOwned, IntentsOwned, CallsOwned, PersistsOwned, CallsCounted, SuspensionsCounted,
         PersistsTabled, Faithful, PendingValues, IntentValues, CallValues, PersistValues, WorkerValue;
  }

  lemma FailedCallStep(s: P.State, retained: P.State, op: nat)
    requires op in s.enqueues && s.enqueues[op].phase.SavingQueued? && !s.enqueues[op].phase.saved && s.enqueues[op].tookIntent
    requires retained == s.(intents := P.RetainIntent(s.intents, s.enqueues[op].phase.job),
                            enqueues := s.enqueues[op := s.enqueues[op].(phase := P.Compensating)])
    ensures op in retained.enqueues && P.LeaveEnqueue(retained, op) == P.ResumeEnqueueStep(s, op)
  {
    LeavingIgnoresPhase(s.(intents := retained.intents), op);
  }

  lemma PushedCallStep(s: P.State, pushed: P.State, op: nat)
    requires op in s.enqueues && s.enqueues[op].phase.Finalizing?
    requires pushed == s.(pending := P.PushPending(s.pending, s.enqueues[op].phase.job),
                          enqueues := s.enqueues[op := s.enqueues[op].(phase := P.Compensating)])
    ensures op in P.Schedule(pushed).enqueues && P.LeaveEnqueue(P.Schedule(pushed), op) == P.FinalizerReturnedStep(s, op)
  {
    var r := s.(pending := pushed.pending);
    ScheduleIgnoresPhase(r, op);
    LeavingIgnoresPhase(P.Schedule(r), op);
  }

  lemma RetainedCallStep(s: P.State, retained: P.State, op: nat, databaseUp: bool)
    requires op in s.enqueues && s.enqueues[op].phase.Finalizing?
    requires retained == s.(intents := P.RetainIntent(s.intents, s.enqueues[op].phase.job),
                            enqueues := s.enqueues[op := s.enqueues[op].(phase := P.Compensating)])
    ensures op in retained.enqueues
    ensures P.FinalizerFailedStep(s, op, databaseUp)
            == if P.HasPending(s, s.enqueues[op].memoryId) || P.IsRunning(s, s.enqueues[op].memoryId)
               then P.LeaveEnqueue(retained, op)
               else P.Save(retained, s.enqueues[op].memoryId, P.Pending, databaseUp)
  {
    LeavingIgnoresPhase(s.(intents := retained.intents), op);
  }

  /** Reading the pending and running tables answers the protocol's questions. */
  lemma CallFacts(t: Tables, c: Contents, op: nat)
    requires Matched(t, c) && op in t.enqueueFrames
    ensures var s := StateOf(t, c);
            var frame := t.enqueueFrames[op];
            && op in s.enqueues
            && s.enqueues[op].memoryId == frame.memoryId
            && s.enqueues[op].hasFinalizer == frame.hasFinalizer
            && s.enqueues[op].tookIntent == frame.tookIntent
            && (s.enqueues[op].phase.Finalizing? <==> frame.phase.Finalizing?)
            && (s.enqueues[op].phase.SavingQueued? <==> frame.phase.SavingQueued?)
            && (frame.phase.SavingQueued? ==> s.enqueues[op].phase.saved == frame.phase.saved)
            && (P.HasPending(s, frame.memoryId) <==> frame.memoryId in t.pendingJobsByMemoryId)
            && (P.IsRunning(s, frame.memoryId) <==> frame.memoryId in t.runningJobsByMemoryId)
  {
    PendingAgrees(t, c, t.enqueueFrames[op].memoryId);
    RunningAgrees(t, c, t.enqueueFrames[op].memoryId);
  }

  lemma PersistFacts(t: Tables, c: Contents, op: nat)
    requires Matched(t, c)
    ensures op in StateOf(t, c).persists <==> op in t.persistFrames
    ensures op in t.persistFrames ==> Owns(t.owner, t.persistFrames[op].job, InPersist(op))
    ensures op in t.persistFrames && t.persistFrames[op].job.memoryId in t.durableIntentJobsByMemoryId
            ==> t.durableIntentJobsByMemoryId[t.persistFrames[op].job.memoryId] in t.owner
  {
    assert forall id :: id in t.durableIntentJobsByMemoryId ==> Owns(t.owner, t.durableIntentJobsByMemoryId[id], InIntents(id));
  }

  lemma RetainedJobsOwned(t: Tables, c: Contents, op: nat)
    requires Matched(t, c) && op in t.enqueueFrames && !t.enqueueFrames[op].phase.Compensating?
    ensures var id := t.enqueueFrames[op].memoryId;
            && t.enqueueFrames[op].phase.job in t.owner
            && (id in t.durableIntentJobsByMemoryId ==> t.durableIntentJobsByMemoryId[id] in t.owner)
            && (id in t.pendingJobsByMemoryId ==> t.pendingJobsByMemoryId[id] in t.owner)
            && IntentsOwned(t.durableIntentJobsByMemoryId, t.owner)
  {
    var id := t.enqueueFrames[op].memoryId;
    assert CallOwned(op, t.enqueueFrames[op], t.owner);
    if id in t.pendingJobsByMemoryId {
      IndexedJob(t.pendingJobs, t.pendingJobsByMemoryId, t.owner, id);
    }
    assert id in t.durableIntentJobsByMemoryId ==> Owns(t.owner, t.durableIntentJobsByMemoryId[id], InIntents(id));
  }

  lemma FirstPendingOwned(t: Tables, c: Contents)
    requires Matched(t, c)
    ensures t.pendingJobs != [] ==> t.pendingJobs[0] in t.owner
  {
    if t.pendingJobs != [] {
      assert Owns(t.owner, t.pendingJobs[0], InPending(t.pendingJobs[0].memoryId));
    }
  }

  lemma WorkerFacts(t: Tables, c: Contents)
    requires Matched(t, c)
    ensures var s := StateOf(t, c);
            && |s.pending| == |t.pendingJobs| && s.scans == t.scanFrames && s.status == t.statuses
            && t.schedulingSuspensions >= |t.scanFrames|
            && (s.worker.Scheduled? <==> t.worker.Scheduled?)
            && (s.worker.Recording? <==> t.worker.Recording?)
            && (s.worker.Finishing? <==> t.worker.Finishing?)
            && (t.worker.Recording? ==> s.worker.mustRecordFailure == t.worker.mustRecordFailure)
  {
  }

  lemma NothingToRecord(s: P.State, databaseUp: bool)
    requires s.worker.Recording? && !s.worker.mustRecordFailure
    ensures P.StatusRecordedStep(s, databaseUp) == P.NextJob(s)
  {
  }

  lemma FailureRecordedStep(t: Tables, c: Contents, databaseUp: bool)
    requires Matched(t, c) && t.worker.Recording? && t.worker.mustRecordFailure
    ensures var u := SavedTables(t, t.worker.job.memoryId, P.Failed, databaseUp).(worker := Recording(t.worker.job, false));
            && Matched(u, c) && StateOf(t, c).worker.Recording?
            && StateOf(u, c) == P.StatusRecordedStep(StateOf(t, c), databaseUp)
  {
    hide Matched, Owned, PendingIndexed, StateOf;
    var saved := SavedTables(t, t.worker.job.memoryId, P.Failed, databaseUp);
    MatchedParts(t, c);
    SaveStep(t, c, t.worker.job.memoryId, P.Failed, databaseUp);
    RecordingMatched(saved, c, false);
    RecordingState(saved, c, false);
    RecordingState(t, c, false);
  }
}
