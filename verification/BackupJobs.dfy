/** Backup jobs, and the in-place merge that coalesces two jobs of one memory. */
module BackupJobs {

  type MemoryId = string
  type ContentPath = string

  datatype Reason =
    | MemoryCreation
    | FlashbackUpdate
    | MemoryDeletion
    | TranslationUpdate
    | PsychiatristThreadUpdate
    | PsychiatristResponseRegenerate

  datatype Job = Job(memoryId: MemoryId, contentPaths: seq<ContentPath>, reason: Reason)

  /** Insertion into an insertion-ordered set, the behaviour of JavaScript's `Set.add`. */
  function AddPath(paths: seq<ContentPath>, path: ContentPath): seq<ContentPath> {
    if path in paths then paths else paths + [path]
  }

  function AddPaths(paths: seq<ContentPath>, more: seq<ContentPath>): seq<ContentPath>
    decreases |more|
  {
    if more == [] then paths else AddPath(AddPaths(paths, more[..|more| - 1]), more[|more| - 1])
  }

  function Merge(existing: Job, incoming: Job): Job {
    Job(existing.memoryId,
        AddPaths(AddPaths([], existing.contentPaths), incoming.contentPaths),
        incoming.reason)
  }

  ghost predicate Distinct(paths: seq<ContentPath>) {
    forall i, j :: 0 <= i < j < |paths| ==> paths[i] != paths[j]
  }

  lemma {:induction false} AddPathsProperties(paths: seq<ContentPath>, more: seq<ContentPath>)
    requires Distinct(paths)
    ensures Distinct(AddPaths(paths, more))
    ensures paths <= AddPaths(paths, more)
    ensures forall p :: p in AddPaths(paths, more) <==> p in paths || p in more
    decreases |more|
  {
    if more != [] {
      AddPathsProperties(paths, more[..|more| - 1]);
      assert more == more[..|more| - 1] + [more[|more| - 1]];
    }
  }

  lemma {:induction false} AddPathsKeepsDistinct(paths: seq<ContentPath>)
    requires Distinct(paths)
    ensures AddPaths([], paths) == paths
    decreases |paths|
  {
    if paths != [] {
      AddPathsKeepsDistinct(paths[..|paths| - 1]);
      assert paths == paths[..|paths| - 1] + [paths[|paths| - 1]];
    }
  }

  /** A merge holds exactly the paths of both jobs, once each, and the newest reason. */
  lemma MergeIsUnion(existing: Job, incoming: Job)
    ensures forall p :: p in Merge(existing, incoming).contentPaths
                        <==> p in existing.contentPaths || p in incoming.contentPaths
    ensures Distinct(Merge(existing, incoming).contentPaths)
    ensures Merge(existing, incoming).reason == incoming.reason
    ensures Merge(existing, incoming).memoryId == existing.memoryId
    ensures Distinct(existing.contentPaths) ==> existing.contentPaths <= Merge(existing, incoming).contentPaths
  {
    AddPathsProperties([], existing.contentPaths);
    AddPathsProperties(AddPaths([], existing.contentPaths), incoming.contentPaths);
    if Distinct(existing.contentPaths) {
      AddPathsKeepsDistinct(existing.contentPaths);
    }
  }

  /** The mutable job object shared by the queue's tables. */
  class MemoryBackupJob {
    const memoryId: MemoryId
    var contentPaths: seq<ContentPath>
    var reason: Reason

    constructor (job: Job)
      ensures memoryId == job.memoryId && Value() == job
    {
      memoryId := job.memoryId;
      contentPaths := job.contentPaths;
      reason := job.reason;
    }

    ghost function Value(): Job
      reads this
    {
      Job(memoryId, contentPaths, reason)
    }
  }

  method CollectPaths(paths: seq<ContentPath>, more: seq<ContentPath>) returns (all: seq<ContentPath>)
    ensures all == AddPaths(paths, more)
  {
    all := paths;
    for i := 0 to |more|
      invariant all == AddPaths(paths, more[..i])
    {
      assert more[..i + 1][..i] == more[..i];
      if more[i] !in all {
        all := all + [more[i]];
      }
    }
    assert more[..|more|] == more;
  }

  method MergeBackupJobs(existing: MemoryBackupJob, incoming: MemoryBackupJob)
    modifies existing
    ensures existing.Value() == Merge(old(existing.Value()), old(incoming.Value()))
  {
    var contentPaths := CollectPaths([], existing.contentPaths);
    contentPaths := CollectPaths(contentPaths, incoming.contentPaths);
    var reason := incoming.reason;
    existing.contentPaths := contentPaths;
    existing.reason := reason;
  }
}
