/**
 The backup queue as a state machine: one step per stretch of code between two awaits.
 Callers in flight, the worker and the retry scans are parts of the state, so a run is any
 interleaving of them. A `saved` argument says whether the status write issued in that step
 reached the database.
 */
module BackupQueueProtocol {
  import opened BackupJobs

  datatype Status = Pending | Queued | Success | Failed

  /** What an enqueue call in flight still has to do. */
  datatype EnqueuePhase =
    | SavingQueued(job: Job, saved: bool)
    | Finalizing(job: Job)
    | Compensating

  datatype EnqueueOp = EnqueueOp(memoryId: MemoryId, hasFinalizer: bool, tookIntent: bool, phase: EnqueuePhase)

  datatype PersistOp = PersistOp(job: Job, saved: bool)

  datatype Worker =
    | Idle
    | Scheduled
    | Running(job: Job)
    | Recording(job: Job, mustRecordFailure: bool)
    | Finishing

  datatype State = State(
    pending: seq<Job>,
    intents: map<MemoryId, Job>,
    enqueues: map<nat, EnqueueOp>,
    persists: map<nat, PersistOp>,
    scans: set<nat>,
    worker: Worker,
    status: map<MemoryId, Status>)

  datatype Step =
    | StartEnqueue(op: nat, job: Job, hasFinalizer: bool, saved: bool)
    | ResumeEnqueue(op: nat)
    | FinalizerReturned(op: nat)
    | FinalizerFailed(op: nat, saved: bool)
    | FinishCompensation(op: nat)
    | StartPersist(op: nat, job: Job, saved: bool)
    | ResumePersist(op: nat)
    | WorkerTimer
    | JobSettled(succeeded: bool, saved: bool)
    | StatusRecorded(saved: bool)
    | WorkerSettled
    | StartScan(scan: nat)
    | ScanRecordsFailure(memoryId: MemoryId, saved: bool)
    | EndScan(scan: nat)
    | OtherStatusWrite(memoryId: MemoryId, value: Status)
    | MemoryDeleted(memoryId: MemoryId)

  const Initial: State := State([], map[], map[], map[], {}, Idle, map[])

  // Observations

  predicate Suspended(s: State) {
    s.scans != {} || exists k :: k in s.enqueues && s.enqueues[k].hasFinalizer
  }

  predicate EnqueueInFlight(s: State, id: MemoryId) {
    exists k :: k in s.enqueues && s.enqueues[k].memoryId == id
  }

  predicate PersistInFlight(s: State, id: MemoryId) {
    exists k :: k in s.persists && s.persists[k].job.memoryId == id
  }

  predicate HasPending(s: State, id: MemoryId) {
    exists i :: 0 <= i < |s.pending| && s.pending[i].memoryId == id
  }

  predicate IsRunning(s: State, id: MemoryId) {
    (s.worker.Running? || s.worker.Recording?) && s.worker.job.memoryId == id
  }

  /** An update of a missing row throws, so it does not count as saved. */
  predicate Saves(s: State, id: MemoryId, saved: bool) {
    saved && id in s.status
  }

  function Save(s: State, id: MemoryId, value: Status, saved: bool): State {
    if Saves(s, id, saved) then s.(status := s.status[id := value]) else s
  }

  // Scheduling

  function Schedule(s: State): State {
    if s.worker != Idle || Suspended(s) then s else s.(worker := Scheduled)
  }

  function ScheduleIfPending(s: State): State {
    if s.pending != [] then Schedule(s) else s
  }

  function NextJob(s: State): State {
    if s.pending != [] && !Suspended(s)
    then s.(pending := s.pending[1..], worker := Running(s.pending[0]))
    else s.(worker := Finishing)
  }

  // Pending jobs and intents

  function PushPending(pending: seq<Job>, job: Job): (r: seq<Job>)
    ensures |pending| <= |r| <= |pending| + 1
  {
    if pending == [] then [job]
    else if pending[0].memoryId == job.memoryId then [Merge(pending[0], job)] + pending[1..]
    else [pending[0]] + PushPending(pending[1..], job)
  }

  /** An intent found again is appended to the job that is being retained. */
  function RetainIntent(intents: map<MemoryId, Job>, job: Job): map<MemoryId, Job> {
    intents[job.memoryId := if job.memoryId in intents then Merge(job, intents[job.memoryId]) else job]
  }

  /** A newly persisted job is appended to the intent already there. */
  function ExtendIntent(intents: map<MemoryId, Job>, job: Job): map<MemoryId, Job> {
    intents[job.memoryId := if job.memoryId in intents then Merge(intents[job.memoryId], job) else job]
  }

  /** The `finally` of enqueue: leave the in-flight tables and wake the worker if this call suspended it. */
  function LeaveEnqueue(s: State, op: nat): State
    requires op in s.enqueues
  {
    var left := s.(enqueues := s.enqueues - {op});
    if s.enqueues[op].hasFinalizer then ScheduleIfPending(left) else left
  }

  /** The status the worker writes after a job that succeeded. */
  function StatusAfterSuccess(s: State, id: MemoryId): Status {
    if PersistInFlight(s, id) then Pending
    else if EnqueueInFlight(s, id) then Queued
    else if id in s.intents then Pending
    else if HasPending(s, id) then Queued
    else Success
  }

  // Steps

  predicate Enabled(s: State, step: Step) {
    match step
    case StartEnqueue(op, job, _, _) => op !in s.enqueues && job.contentPaths != [] && !job.reason.MemoryDeletion?
    case ResumeEnqueue(op) => op in s.enqueues && s.enqueues[op].phase.SavingQueued?
    case FinalizerReturned(op) => op in s.enqueues && s.enqueues[op].phase.Finalizing?
    case FinalizerFailed(op, _) =>
      op in s.enqueues && s.enqueues[op].phase.Finalizing? && s.enqueues[op].hasFinalizer
    case FinishCompensation(op) => op in s.enqueues && s.enqueues[op].phase.Compensating?
    case StartPersist(op, job, _) => op !in s.persists && job.contentPaths != [] && !job.reason.MemoryDeletion?
    case ResumePersist(op) => op in s.persists
    case WorkerTimer => s.worker.Scheduled?
    case JobSettled(_, _) => s.worker.Running?
    case StatusRecorded(_) => s.worker.Recording?
    case WorkerSettled => s.worker.Finishing?
    case StartScan(scan) => scan !in s.scans
    case ScanRecordsFailure(_, _) => s.scans != {}
    case EndScan(scan) => scan in s.scans
    case OtherStatusWrite(_, value) => value != Success
    case MemoryDeleted(_) => true
  }

  function StartEnqueueStep(s: State, op: nat, job: Job, hasFinalizer: bool, saved: bool): State {
    var id := job.memoryId;
    var tookIntent := id in s.intents;
    var merged := if tookIntent then Merge(s.intents[id], job) else job;
    var phase := SavingQueued(merged, Saves(s, id, saved));
    Save(s.(intents := s.intents - {id},
            enqueues := s.enqueues[op := EnqueueOp(id, hasFinalizer, tookIntent, phase)]),
         id, Queued, saved)
  }

  function ResumeEnqueueStep(s: State, op: nat): State
    requires op in s.enqueues && s.enqueues[op].phase.SavingQueued?
  {
    var call := s.enqueues[op];
    if call.phase.saved then
      s.(enqueues := s.enqueues[op := call.(phase := Finalizing(call.phase.job))])
    else if call.tookIntent then
      LeaveEnqueue(s.(intents := RetainIntent(s.intents, call.phase.job)), op)
    else
      LeaveEnqueue(s, op)
  }

  function FinalizerReturnedStep(s: State, op: nat): State
    requires op in s.enqueues && s.enqueues[op].phase.Finalizing?
  {
    LeaveEnqueue(Schedule(s.(pending := PushPending(s.pending, s.enqueues[op].phase.job))), op)
  }

  function FinalizerFailedStep(s: State, op: nat, saved: bool): State
    requires op in s.enqueues && s.enqueues[op].phase.Finalizing?
  {
    var call := s.enqueues[op];
    var retained := s.(intents := RetainIntent(s.intents, call.phase.job));
    if HasPending(s, call.memoryId) || IsRunning(s, call.memoryId) then
      LeaveEnqueue(retained, op)
    else
      Save(retained.(enqueues := s.enqueues[op := call.(phase := Compensating)]), call.memoryId, Pending, saved)
  }

  function StartPersistStep(s: State, op: nat, job: Job, saved: bool): State {
    Save(s.(persists := s.persists[op := PersistOp(job, Saves(s, job.memoryId, saved))]),
         job.memoryId, Pending, saved)
  }

  function ResumePersistStep(s: State, op: nat): State
    requires op in s.persists
  {
    var call := s.persists[op];
    s.(persists := s.persists - {op},
       intents := if call.saved then ExtendIntent(s.intents, call.job) else s.intents)
  }

  function JobSettledStep(s: State, succeeded: bool, saved: bool): State
    requires s.worker.Running?
  {
    var id := s.worker.job.memoryId;
    var value := if succeeded then StatusAfterSuccess(s, id) else Failed;
    Save(s, id, value, saved).(worker := Recording(s.worker.job, succeeded && !Saves(s, id, saved)))
  }

  function StatusRecordedStep(s: State, saved: bool): State
    requires s.worker.Recording?
  {
    if s.worker.mustRecordFailure then
      Save(s, s.worker.job.memoryId, Failed, saved).(worker := Recording(s.worker.job, false))
    else NextJob(s)
  }

  function Apply(s: State, step: Step): State
    requires Enabled(s, step)
  {
    match step
    case StartEnqueue(op, job, hasFinalizer, saved) => StartEnqueueStep(s, op, job, hasFinalizer, saved)
    case ResumeEnqueue(op) => ResumeEnqueueStep(s, op)
    case FinalizerReturned(op) => FinalizerReturnedStep(s, op)
    case FinalizerFailed(op, saved) => FinalizerFailedStep(s, op, saved)
    case FinishCompensation(op) => LeaveEnqueue(s, op)
    case StartPersist(op, job, saved) => StartPersistStep(s, op, job, saved)
    case ResumePersist(op) => ResumePersistStep(s, op)
    case WorkerTimer => NextJob(s)
    case JobSettled(succeeded, saved) => JobSettledStep(s, succeeded, saved)
    case StatusRecorded(saved) => StatusRecordedStep(s, saved)
    case WorkerSettled => ScheduleIfPending(s.(worker := Idle))
    case StartScan(scan) => s.(scans := s.scans + {scan})
    case ScanRecordsFailure(id, saved) => Save(s, id, Failed, saved)
    case EndScan(scan) => ScheduleIfPending(s.(scans := s.scans - {scan}))
    case OtherStatusWrite(id, value) => s.(status := s.status[id := value])
    case MemoryDeleted(id) => s.(status := s.status - {id})
  }

  // Runs

  ghost predicate IsRun(s: State, steps: seq<Step>)
    decreases |steps|
  {
    steps == [] || (Enabled(s, steps[0]) && IsRun(Apply(s, steps[0]), steps[1..]))
  }

  ghost function After(s: State, steps: seq<Step>): State
    requires IsRun(s, steps)
    decreases |steps|
  {
    if steps == [] then s else After(Apply(s, steps[0]), steps[1..])
  }

  // Invariants

  ghost predicate OnePendingPerMemory(s: State) {
    forall i, j :: 0 <= i < j < |s.pending| ==> s.pending[i].memoryId != s.pending[j].memoryId
  }

  ghost predicate NoLostWakeUp(s: State) {
    s.pending != [] && !Suspended(s) ==> s.worker != Idle
  }

  /** A job the call would retain if it failed now. */
  predicate HoldsRetainedJob(call: EnqueueOp) {
    !call.phase.Compensating? && (call.tookIntent || call.phase.Finalizing? || call.phase.saved)
  }

  /** Work of a memory that has been accepted and not yet finished. */
  ghost predicate Unfinished(s: State, id: MemoryId) {
    || id in s.intents
    || HasPending(s, id)
    || (s.worker.Running? && s.worker.job.memoryId == id)
    || (exists k :: k in s.enqueues && s.enqueues[k].memoryId == id && HoldsRetainedJob(s.enqueues[k]))
    || (exists k :: k in s.persists && s.persists[k].job.memoryId == id && s.persists[k].saved)
  }

  ghost predicate SuccessHidesNoWork(s: State) {
    forall id :: id in s.status && s.status[id] == Success ==> !Unfinished(s, id)
  }

  ghost predicate JobsFiledUnderTheirMemory(s: State) {
    && (forall id :: id in s.intents ==> s.intents[id].memoryId == id)
    && (forall k :: k in s.enqueues && !s.enqueues[k].phase.Compensating?
          ==> s.enqueues[k].phase.job.memoryId == s.enqueues[k].memoryId)
  }

  ghost predicate Inv(s: State) {
    OnePendingPerMemory(s) && NoLostWakeUp(s) && SuccessHidesNoWork(s) && JobsFiledUnderTheirMemory(s)
  }
}
