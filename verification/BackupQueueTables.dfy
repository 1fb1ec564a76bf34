/**
 The queue's tables as one value: what makes them consistent, and the protocol state they stand
 for. Jobs are object references here, and `Contents` says what each object holds.
 */
module BackupQueueTables {
  import opened BackupJobs
  import P = BackupQueueProtocol

  datatype FramePhase =
    | SavingQueued(job: MemoryBackupJob, saved: bool)
    | Finalizing(job: MemoryBackupJob)
    | Compensating

  datatype EnqueueFrame = EnqueueFrame(memoryId: MemoryId, hasFinalizer: bool, tookIntent: bool, phase: FramePhase)

  datatype PersistFrame = PersistFrame(job: MemoryBackupJob, saved: bool)

  datatype WorkerFrame =
    | Idle
    | Scheduled
    | Running(job: MemoryBackupJob)
    | Recording(job: MemoryBackupJob, mustRecordFailure: bool)
    | Finishing

  /** The one table or frame that may change a job object. */
  datatype Slot =
    | InPending(memoryId: MemoryId)
    | InIntents(memoryId: MemoryId)
    | InEnqueue(op: nat)
    | InPersist(op: nat)
    | InWorker

  // Counters

  function Count(counts: map<MemoryId, int>, key: MemoryId): int {
    if key in counts then counts[key] else 0
  }

  function IncrementCount(counts: map<MemoryId, int>, key: MemoryId): map<MemoryId, int> {
    counts[key := Count(counts, key) + 1]
  }

  function DecrementCount(counts: map<MemoryId, int>, key: MemoryId): map<MemoryId, int> {
    var count := Count(counts, key);
    if count <= 0 then counts
    else if count == 1 then counts - {key}
    else counts[key := count - 1]
  }

  ghost function CallsOf(frames: map<nat, EnqueueFrame>, id: MemoryId): set<nat> {
    set k | k in frames && frames[k].memoryId == id
  }

  ghost function Finalizers(frames: map<nat, EnqueueFrame>): set<nat> {
    set k | k in frames && frames[k].hasFinalizer
  }

  ghost function PersistingJobs(frames: map<nat, PersistFrame>, id: MemoryId): set<MemoryBackupJob> {
    set k | k in frames && frames[k].job.memoryId == id :: frames[k].job
  }

  lemma CallAdded(frames: map<nat, EnqueueFrame>, op: nat, frame: EnqueueFrame, id: MemoryId)
    requires op !in frames
    ensures |CallsOf(frames[op := frame], id)| == |CallsOf(frames, id)| + if frame.memoryId == id then 1 else 0
  {
    if frame.memoryId == id {
      assert CallsOf(frames[op := frame], id) == CallsOf(frames, id) + {op};
    } else {
      assert CallsOf(frames[op := frame], id) == CallsOf(frames, id);
    }
  }

  lemma FinalizerAdded(frames: map<nat, EnqueueFrame>, op: nat, frame: EnqueueFrame)
    requires op !in frames
    ensures |Finalizers(frames[op := frame])| == |Finalizers(frames)| + if frame.hasFinalizer then 1 else 0
  {
    if frame.hasFinalizer {
      assert Finalizers(frames[op := frame]) == Finalizers(frames) + {op};
    } else {
      assert Finalizers(frames[op := frame]) == Finalizers(frames);
    }
  }

  lemma CallRemoved(frames: map<nat, EnqueueFrame>, op: nat, id: MemoryId)
    requires op in frames
    ensures |CallsOf(frames - {op}, id)| == |CallsOf(frames, id)| - if frames[op].memoryId == id then 1 else 0
  {
    assert CallsOf(frames - {op}, id) == CallsOf(frames, id) - {op};
  }

  lemma FinalizerRemoved(frames: map<nat, EnqueueFrame>, op: nat)
    requires op in frames
    ensures |Finalizers(frames - {op})| == |Finalizers(frames)| - if frames[op].hasFinalizer then 1 else 0
  {
    assert Finalizers(frames - {op}) == Finalizers(frames) - {op};
  }

  lemma CallMoved(frames: map<nat, EnqueueFrame>, op: nat, phase: FramePhase, id: MemoryId)
    requires op in frames
    ensures CallsOf(frames[op := frames[op].(phase := phase)], id) == CallsOf(frames, id)
    ensures Finalizers(frames[op := frames[op].(phase := phase)]) == Finalizers(frames)
  {
  }

  type Contents = map<MemoryBackupJob, Job>

  datatype Tables = Tables(
    pendingJobs: seq<MemoryBackupJob>,
    pendingJobsByMemoryId: map<MemoryId, MemoryBackupJob>,
    runningJobsByMemoryId: map<MemoryId, MemoryBackupJob>,
    durableIntentJobsByMemoryId: map<MemoryId, MemoryBackupJob>,
    persistIntentTransitionsByMemoryId: map<MemoryId, set<MemoryBackupJob>>,
    enqueueTransitionsByMemoryId: map<MemoryId, int>,
    worker: WorkerFrame,
    schedulingSuspensions: int,
    statuses: map<MemoryId, P.Status>,
    enqueueFrames: map<nat, EnqueueFrame>,
    persistFrames: map<nat, PersistFrame>,
    scanFrames: set<nat>,
    owner: Owner)

  // Consistency

  /** The index holds exactly the pending jobs, one for each memory. */
  ghost predicate PendingIndexed(jobs: seq<MemoryBackupJob>, index: map<MemoryId, MemoryBackupJob>) {
    && (forall i :: 0 <= i < |jobs| ==> jobs[i].memoryId in index && index[jobs[i].memoryId] == jobs[i])
    && (forall id :: id in index ==> index[id] in jobs && index[id].memoryId == id)
    && (forall i, j :: 0 <= i < j < |jobs| ==> jobs[i].memoryId != jobs[j].memoryId)
  }

  type Owner = map<MemoryBackupJob, Slot>

  ghost predicate Owns(owner: Owner, job: MemoryBackupJob, slot: Slot) {
    job in owner && owner[job] == slot
  }

  ghost predicate PendingOwned(jobs: seq<MemoryBackupJob>, owner: Owner) {
    forall i :: 0 <= i < |jobs| ==> Owns(owner, jobs[i], InPending(jobs[i].memoryId))
  }

  ghost predicate IntentsOwned(intents: map<MemoryId, MemoryBackupJob>, owner: Owner) {
    forall id :: id in intents ==> intents[id].memoryId == id && Owns(owner, intents[id], InIntents(id))
  }

  ghost predicate CallOwned(op: nat, frame: EnqueueFrame, owner: Owner) {
    frame.phase.Compensating? || (frame.phase.job.memoryId == frame.memoryId && Owns(owner, frame.phase.job, InEnqueue(op)))
  }

  ghost predicate CallsOwned(frames: map<nat, EnqueueFrame>, owner: Owner) {
    forall k :: k in frames ==> CallOwned(k, frames[k], owner)
  }

  ghost predicate PersistsOwned(frames: map<nat, PersistFrame>, owner: Owner) {
    forall k :: k in frames ==> Owns(owner, frames[k].job, InPersist(k))
  }

  ghost predicate WorkerOwned(w: WorkerFrame, owner: Owner) {
    w.Running? || w.Recording? ==> Owns(owner, w.job, InWorker)
  }

  /** No job object can be reached from two tables, two frames, or a table and a frame. */
  ghost predicate Owned(t: Tables) {
    && PendingOwned(t.pendingJobs, t.owner)
    && IntentsOwned(t.durableIntentJobsByMemoryId, t.owner)
    && CallsOwned(t.enqueueFrames, t.owner)
    && PersistsOwned(t.persistFrames, t.owner)
    && WorkerOwned(t.worker, t.owner)
  }

  /** The running table holds the worker's job and nothing else: at most one job runs. */
  ghost predicate WorkerTabled(running: map<MemoryId, MemoryBackupJob>, w: WorkerFrame) {
    running == if w.Running? || w.Recording? then map[w.job.memoryId := w.job] else map[]
  }

  /** The enqueue counters equal the enqueue calls in flight and are never zero or negative. */
  ghost predicate CallsCounted(counts: map<MemoryId, int>, frames: map<nat, EnqueueFrame>) {
    && (forall id :: Count(counts, id) == |CallsOf(frames, id)|)
    && (forall id :: id in counts ==> counts[id] > 0)
  }

  ghost predicate SuspensionsCounted(suspensions: int, frames: map<nat, EnqueueFrame>, scans: set<nat>) {
    suspensions == |Finalizers(frames)| + |scans|
  }

  type Transitions = map<MemoryId, set<MemoryBackupJob>>

  ghost predicate PersistsTabled(transitions: Transitions, frames: map<nat, PersistFrame>) {
    && (forall k :: k in frames ==> frames[k].job.memoryId in transitions)
    && (forall id :: id in transitions ==> transitions[id] == PersistingJobs(frames, id) && transitions[id] != {})
  }

  ghost predicate Consistent(t: Tables) {
    && PendingIndexed(t.pendingJobs, t.pendingJobsByMemoryId)
    && Owned(t)
    && WorkerTabled(t.runningJobsByMemoryId, t.worker)
    && CallsCounted(t.enqueueTransitionsByMemoryId, t.enqueueFrames)
    && SuspensionsCounted(t.schedulingSuspensions, t.enqueueFrames, t.scanFrames)
    && PersistsTabled(t.persistIntentTransitionsByMemoryId, t.persistFrames)
  }

  // The protocol state

  ghost function Value(c: Contents, job: MemoryBackupJob): Job {
    if job in c then c[job] else Job(job.memoryId, [], MemoryCreation)
  }

  /** An object keeps the memory id it was created with. */
  ghost predicate Faithful(c: Contents) {
    forall job :: job in c ==> c[job].memoryId == job.memoryId
  }

  ghost function PendingValues(c: Contents, jobs: seq<MemoryBackupJob>): (values: seq<Job>)
    ensures |values| == |jobs|
    ensures forall i :: 0 <= i < |jobs| ==> values[i] == Value(c, jobs[i])
  {
    seq(|jobs|, i requires 0 <= i < |jobs| => Value(c, jobs[i]))
  }

  ghost function IntentValues(c: Contents, intents: map<MemoryId, MemoryBackupJob>): map<MemoryId, Job> {
    map id | id in intents :: Value(c, intents[id])
  }

  ghost function CallValue(c: Contents, frame: EnqueueFrame): P.EnqueueOp {
    var phase := match frame.phase
      case SavingQueued(job, saved) => P.SavingQueued(Value(c, job), saved)
      case Finalizing(job) => P.Finalizing(Value(c, job))
      case Compensating => P.Compensating;
    P.EnqueueOp(frame.memoryId, frame.hasFinalizer, frame.tookIntent, phase)
  }

  ghost function CallValues(c: Contents, frames: map<nat, EnqueueFrame>): map<nat, P.EnqueueOp> {
    map k | k in frames :: CallValue(c, frames[k])
  }

  ghost function PersistValues(c: Contents, frames: map<nat, PersistFrame>): map<nat, P.PersistOp> {
    map k | k in frames :: P.PersistOp(Value(c, frames[k].job), frames[k].saved)
  }

  ghost function WorkerValue(c: Contents, w: WorkerFrame): P.Worker {
    match w
    case Idle => P.Idle
    case Scheduled => P.Scheduled
    case Running(job) => P.Running(Value(c, job))
    case Recording(job, mustRecordFailure) => P.Recording(Value(c, job), mustRecordFailure)
    case Finishing => P.Finishing
  }

  ghost function StateOf(t: Tables, c: Contents): P.State {
    P.State(PendingValues(c, t.pendingJobs), IntentValues(c, t.durableIntentJobsByMemoryId),
            CallValues(c, t.enqueueFrames), PersistValues(c, t.persistFrames), t.scanFrames,
            WorkerValue(c, t.worker), t.statuses)
  }

  // What the tables tell the code about the protocol state

  lemma PendingAgrees(t: Tables, c: Contents, id: MemoryId)
    requires PendingIndexed(t.pendingJobs, t.pendingJobsByMemoryId) && Faithful(c)
    ensures id in t.pendingJobsByMemoryId <==> P.HasPending(StateOf(t, c), id)
  {
    var s := StateOf(t, c);
    if id in t.pendingJobsByMemoryId {
      var i :| 0 <= i < |t.pendingJobs| && t.pendingJobs[i] == t.pendingJobsByMemoryId[id];
      assert s.pending[i].memoryId == id;
    }
    if i :| 0 <= i < |s.pending| && s.pending[i].memoryId == id {
      assert t.pendingJobs[i].memoryId == id;
    }
  }

  lemma RunningAgrees(t: Tables, c: Contents, id: MemoryId)
    requires WorkerTabled(t.runningJobsByMemoryId, t.worker) && Faithful(c)
    ensures id in t.runningJobsByMemoryId <==> P.IsRunning(StateOf(t, c), id)
  {
  }

  lemma CallsAgree(t: Tables, c: Contents, id: MemoryId)
    requires CallsCounted(t.enqueueTransitionsByMemoryId, t.enqueueFrames)
    ensures Count(t.enqueueTransitionsByMemoryId, id) > 0 <==> P.EnqueueInFlight(StateOf(t, c), id)
  {
    var s := StateOf(t, c);
    if k :| k in CallsOf(t.enqueueFrames, id) {
      assert s.enqueues[k].memoryId == id;
    }
    if k :| k in s.enqueues && s.enqueues[k].memoryId == id {
      assert k in CallsOf(t.enqueueFrames, id);
    }
  }

  lemma PersistsAgree(t: Tables, c: Contents, id: MemoryId)
    requires PersistsTabled(t.persistIntentTransitionsByMemoryId, t.persistFrames) && Faithful(c)
    ensures id in t.persistIntentTransitionsByMemoryId <==> P.PersistInFlight(StateOf(t, c), id)
  {
    var s := StateOf(t, c);
    if id in t.persistIntentTransitionsByMemoryId {
      var job :| job in PersistingJobs(t.persistFrames, id);
      var k :| k in t.persistFrames && t.persistFrames[k].job == job;
      assert s.persists[k].job.memoryId == id;
    }
    if k :| k in s.persists && s.persists[k].job.memoryId == id {
      assert t.persistFrames[k].job.memoryId == id;
    }
  }

  lemma SuspensionsAgree(t: Tables, c: Contents)
    requires SuspensionsCounted(t.schedulingSuspensions, t.enqueueFrames, t.scanFrames)
    ensures t.schedulingSuspensions > 0 <==> P.Suspended(StateOf(t, c))
  {
    var s := StateOf(t, c);
    if k :| k in Finalizers(t.enqueueFrames) {
      assert s.enqueues[k].hasFinalizer;
    }
    if k :| k in s.enqueues && s.enqueues[k].hasFinalizer {
      assert k in Finalizers(t.enqueueFrames);
    }
  }
}
