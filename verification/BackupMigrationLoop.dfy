/** The loop over all files of a migration, and running it again after crashes and failures. */
module BackupMigrationLoop {
  import opened BackupFileSystem
  import opened BackupMigration
  import opened BackupMigrationFile

  datatype Job = Job(source: Path, target: Path)

  /**
   The files of a listed store: no target is another one or lies under it, as files do not lie under
   files, and no source is a temporary file of the migration, as the two stores do not overlap.
   */
  ghost predicate Listed(jobs: seq<Job>, token: string) {
    && (forall i :: 0 <= i < |jobs| ==> jobs[i].target != [])
    && (forall i, j :: 0 <= i < |jobs| && 0 <= j < |jobs| && i != j ==> !(jobs[i].target <= jobs[j].target))
    && (forall i, j :: 0 <= i < |jobs| && 0 <= j < |jobs| ==> jobs[i].source != Temporary(jobs[j].target, token))
  }

  /** The temporary name of a later file is this target: that file's copy removes what it finds there. */
  ghost predicate TakenLater(jobs: seq<Job>, token: string, i: nat, n: nat)
    requires Listed(jobs, token) && i < n <= |jobs|
  {
    exists j :: i < j < n && Temporary(jobs[j].target, token) == jobs[i].target
  }

  /** The temporary name of no file is a directory above the target of an earlier file. */
  ghost predicate NoneBlocked(jobs: seq<Job>, token: string, n: nat)
    requires Listed(jobs, token) && n <= |jobs|
  {
    forall i, j :: 0 <= i < j < n ==> !(Temporary(jobs[j].target, token) < jobs[i].target)
  }

  /** The temporary name of no file is the target of an earlier file, or a directory above one. */
  ghost predicate InOrder(jobs: seq<Job>, token: string)
    requires Listed(jobs, token)
  {
    forall i, j :: 0 <= i < j < |jobs| ==> !(Temporary(jobs[j].target, token) <= jobs[i].target)
  }

  /** The temporary name of no file is a directory above any target. */
  ghost predicate NoneAbove(jobs: seq<Job>, token: string)
    requires Listed(jobs, token)
  {
    forall i, j :: 0 <= i < |jobs| && 0 <= j < |jobs| ==> !(Temporary(jobs[j].target, token) < jobs[i].target)
  }

  ghost function Temporaries(jobs: seq<Job>, token: string): set<Path>
    requires forall i :: 0 <= i < |jobs| ==> jobs[i].target != []
  {
    set i | 0 <= i < |jobs| :: Temporary(jobs[i].target, token)
  }

  ghost function Copies(jobs: seq<Job>, datas: seq<Data>): (copies: map<Path, Data>)
    requires |datas| == |jobs|
    requires forall i, j :: 0 <= i < |jobs| && 0 <= j < |jobs| && i != j ==> !(jobs[i].target <= jobs[j].target)
    ensures forall i :: 0 <= i < |jobs| ==> jobs[i].target in copies && copies[jobs[i].target] == datas[i]
    ensures forall p <- copies :: exists i :: 0 <= i < |jobs| && p == jobs[i].target
  {
    map i | 0 <= i < |jobs| :: jobs[i].target := datas[i]
  }

  /** What a whole migration may do, however it ends. */
  ghost predicate MigrationEffect(d: Disk, d': Disk, token: string, jobs: seq<Job>, datas: seq<Data>, crashed: bool)
    requires Listed(jobs, token) && |datas| == |jobs|
  {
    Effect(d, d', token, Temporaries(jobs, token), Copies(jobs, datas), crashed)
  }

  ghost predicate AreSources(d: Disk, jobs: seq<Job>, datas: seq<Data>)
    requires |datas| == |jobs|
  {
    forall i :: 0 <= i < |jobs| ==> IsSource(d, jobs[i].source, datas[i])
  }

  ghost predicate AllReady(d: Disk, jobs: seq<Job>, root: Path, datas: seq<Data>, token: string)
    requires Listed(jobs, token) && |datas| == |jobs|
  {
    forall i :: 0 <= i < |jobs| ==> Ready(d, jobs[i].source, jobs[i].target, root, datas[i], token)
  }

  /** A file whose turn comes after those before `n`: one of these may still free its target. */
  ghost predicate ReadyInTurn(d: Disk, jobs: seq<Job>, root: Path, datas: seq<Data>, token: string, n: nat, k: nat)
    requires Listed(jobs, token) && |datas| == |jobs| && n <= k < |jobs|
  {
    var target := jobs[k].target;
    && IsOwnerToken(token) && IsStrictlyInside(root, target)
    && d.HasCopy(jobs[k].source, datas[k])
    && (target in d.nodes ==>
          d.HasCopy(target, datas[k]) || exists i :: n <= i < k && Temporary(jobs[i].target, token) == target)
    && Clear(d, Parent(target))
    && !d.IsDirectory(Temporary(target, token))
  }

  ghost predicate AllInTurn(d: Disk, jobs: seq<Job>, root: Path, datas: seq<Data>, token: string, n: nat)
    requires Listed(jobs, token) && |datas| == |jobs|
  {
    forall k :: n <= k < |jobs| ==> ReadyInTurn(d, jobs, root, datas, token, n, k)
  }

  lemma ReadyIsInTurn(d: Disk, jobs: seq<Job>, root: Path, datas: seq<Data>, token: string)
    requires Listed(jobs, token) && |datas| == |jobs| && AllReady(d, jobs, root, datas, token)
    ensures AllInTurn(d, jobs, root, datas, token, 0)
  {
    hide Clear, IsOwnerToken, IsStrictlyInside;
    forall k | 0 <= k < |jobs|
      ensures ReadyInTurn(d, jobs, root, datas, token, 0, k)
    {
      assert Ready(d, jobs[k].source, jobs[k].target, root, datas[k], token);
    }
  }

  /** After the first `n` files a file is in place, or a later one has taken its name and left nothing there. */
  ghost predicate Arrived(d: Disk, jobs: seq<Job>, datas: seq<Data>, token: string, i: nat, n: nat)
    requires Listed(jobs, token) && |datas| == |jobs| && i < n <= |jobs|
  {
    if TakenLater(jobs, token, i, n) then jobs[i].target !in d.nodes else d.HasFile(jobs[i].target, datas[i])
  }

  ghost predicate AllArrived(d: Disk, jobs: seq<Job>, datas: seq<Data>, token: string, n: nat)
    requires Listed(jobs, token) && |datas| == |jobs| && n <= |jobs|
  {
    forall i :: 0 <= i < n ==> Arrived(d, jobs, datas, token, i, n)
  }

  ghost predicate AllInPlace(d: Disk, jobs: seq<Job>, datas: seq<Data>)
    requires |datas| == |jobs|
  {
    forall i :: 0 <= i < |jobs| ==> d.HasFile(jobs[i].target, datas[i])
  }

  /** What bears the name of a temporary file is a later file or a directory above one. */
  ghost predicate NoLeftovers(d: Disk, jobs: seq<Job>, token: string, n: nat)
    requires Listed(jobs, token) && n <= |jobs|
  {
    forall i :: 0 <= i < n && Temporary(jobs[i].target, token) in d.nodes ==>
      exists j :: i < j < n && Temporary(jobs[i].target, token) <= jobs[j].target
  }

  /** Everything between the root and the first `n` targets is a directory. */
  ghost predicate Housed(d: Disk, jobs: seq<Job>, root: Path, token: string, n: nat)
    requires Listed(jobs, token) && n <= |jobs|
  {
    forall i :: 0 <= i < n ==> IsStrictlyInside(root, jobs[i].target) && IsDirectoryFrom(d, Parent(jobs[i].target), |root|)
  }

  /** One file has been copied. */
  ghost predicate Copied(d: Disk, d': Disk, job: Job, root: Path, data: Data, token: string)
    requires job.target != []
  {
    && PlanOf(d, job.target, data, token).Holds(d', false)
    && d'.HasFile(job.target, data) && Temporary(job.target, token) !in d'.nodes
    && !d.IsDirectory(Temporary(job.target, token))
    && IsStrictlyInside(root, job.target) && IsDirectoryFrom(d', Parent(job.target), |root|)
  }

  // One copy is a step of the migration

  lemma TemporariesAre(jobs: seq<Job>, token: string)
    requires Listed(jobs, token)
    ensures AllLookTemporary(Temporaries(jobs, token), token)
  {
    hide LooksTemporary;
    forall p <- Temporaries(jobs, token)
      ensures LooksTemporary(p, token)
    {
      var j :| 0 <= j < |jobs| && p == Temporary(jobs[j].target, token);
      TemporariesLookTemporary(jobs[j].target, token);
    }
  }

  lemma CopyIsMigrationStep(d: Disk, d': Disk, jobs: seq<Job>, datas: seq<Data>, token: string, i: nat, crashed: bool)
    requires Listed(jobs, token) && |datas| == |jobs| && i < |jobs|
    requires PlanOf(d, jobs[i].target, datas[i], token).Holds(d', crashed)
    ensures MigrationEffect(d, d', token, jobs, datas, crashed)
  {
    hide Effect, LooksTemporary;
    var plan := PlanOf(d, jobs[i].target, datas[i], token);
    TemporariesAre(jobs, token);
    EffectWidens(d, d', token, plan.temps, plan.copies, Temporaries(jobs, token), Copies(jobs, datas), crashed);
  }

  lemma SourcesStay(d: Disk, d': Disk, jobs: seq<Job>, datas: seq<Data>, token: string)
    requires Listed(jobs, token) && |datas| == |jobs| && AreSources(d, jobs, datas)
    requires MigrationEffect(d, d', token, jobs, datas, true)
    ensures AreSources(d', jobs, datas)
  {
    hide LooksTemporary, IsMade, Temporary;
  }

  lemma Weakened(d: Disk, d': Disk, jobs: seq<Job>, datas: seq<Data>, token: string, crashed: bool)
    requires Listed(jobs, token) && |datas| == |jobs| && MigrationEffect(d, d', token, jobs, datas, crashed)
    ensures MigrationEffect(d, d', token, jobs, datas, true)
  {
  }

  // Files that are ready stay ready

  /** Being ready survives anything the migration itself does, crashed or not, as long as others keep out of it. */
  lemma ReadyStays(d: Disk, d': Disk, jobs: seq<Job>, root: Path, datas: seq<Data>, token: string, crashed: bool)
    requires Listed(jobs, token) && |datas| == |jobs| && d.Valid() && InOrder(jobs, token) && NoneAbove(jobs, token)
    requires MigrationEffect(d, d', token, jobs, datas, crashed) && Undisturbed(d, d')
    requires AllInTurn(d, jobs, root, datas, token, 0)
    ensures AllInTurn(d', jobs, root, datas, token, 0)
  {
    hide Clear, LooksTemporary, Effect, InOrder, NoneAbove, Temporary, IsOwnerToken, IsStrictlyInside;
    forall k | 0 <= k < |jobs|
      ensures ReadyInTurn(d', jobs, root, datas, token, 0, k)
    {
      assert ReadyInTurn(d, jobs, root, datas, token, 0, k);
      SourceReady(d, d', jobs, datas, token, k, crashed);
      TargetReady(d, d', jobs, datas, token, k, crashed);
      PathReady(d, d', jobs, datas, token, k, crashed);
      TemporaryReady(d, d', jobs, datas, token, k, crashed);
    }
  }

  lemma SourceReady(d: Disk, d': Disk, jobs: seq<Job>, datas: seq<Data>, token: string, k: nat, crashed: bool)
    requires Listed(jobs, token) && |datas| == |jobs| && k < |jobs|
    requires MigrationEffect(d, d', token, jobs, datas, crashed) && d.HasCopy(jobs[k].source, datas[k])
    ensures d'.HasCopy(jobs[k].source, datas[k])
  {
    hide LooksTemporary, IsMade, Temporary;
  }

  lemma NotAbove(jobs: seq<Job>, datas: seq<Data>, token: string, k: nat)
    requires Listed(jobs, token) && |datas| == |jobs| && k < |jobs|
    ensures !IsAbove(jobs[k].target, Copies(jobs, datas))
  {
    hide Temporary;
    forall target <- Copies(jobs, datas)
      ensures !(jobs[k].target < target)
    {
      var j :| 0 <= j < |jobs| && target == jobs[j].target;
      assert j == k || !(jobs[k].target <= jobs[j].target);
    }
  }

  lemma TargetReady(d: Disk, d': Disk, jobs: seq<Job>, datas: seq<Data>, token: string, k: nat, crashed: bool)
    requires Listed(jobs, token) && |datas| == |jobs| && k < |jobs| && d.Valid() && InOrder(jobs, token)
    requires MigrationEffect(d, d', token, jobs, datas, crashed) && Undisturbed(d, d')
    requires jobs[k].target in d.nodes ==>
               d.HasCopy(jobs[k].target, datas[k]) || exists i :: 0 <= i < k && Temporary(jobs[i].target, token) == jobs[k].target
    ensures jobs[k].target in d'.nodes ==>
              d'.HasCopy(jobs[k].target, datas[k]) || exists i :: 0 <= i < k && Temporary(jobs[i].target, token) == jobs[k].target
  {
    hide LooksTemporary, Temporary, IsAbove, Effect, InOrder, Temporaries, Copies;
    var target := jobs[k].target;
    NotAbove(jobs, datas, token, k);
    if target in Temporaries(jobs, token) {
      TakenBefore(jobs, token, k);
    } else {
      KeptAt(d, d', jobs, datas, token, k, crashed);
    }
  }

  lemma TakenBefore(jobs: seq<Job>, token: string, k: nat)
    requires Listed(jobs, token) && InOrder(jobs, token) && k < |jobs| && jobs[k].target in Temporaries(jobs, token)
    ensures exists i :: 0 <= i < k && Temporary(jobs[i].target, token) == jobs[k].target
  {
    hide Temporary;
    var target := jobs[k].target;
    var i :| 0 <= i < |jobs| && target == Temporary(jobs[i].target, token);
    TemporaryIsAnother(target, token);
    assert i != k && !(k < i);
  }

  lemma KeptAt(d: Disk, d': Disk, jobs: seq<Job>, datas: seq<Data>, token: string, k: nat, crashed: bool)
    requires Listed(jobs, token) && |datas| == |jobs| && k < |jobs| && d.Valid()
    requires MigrationEffect(d, d', token, jobs, datas, crashed) && Undisturbed(d, d')
    requires jobs[k].target !in Temporaries(jobs, token) && !IsAbove(jobs[k].target, Copies(jobs, datas))
    ensures jobs[k].target in d'.nodes ==>
              d'.HasCopy(jobs[k].target, datas[k])
              || (jobs[k].target in d.nodes && (d.HasCopy(jobs[k].target, datas[k]) ==> d'.HasCopy(jobs[k].target, datas[k])))
  {
    hide LooksTemporary, IsAbove, Temporaries;
    assert Copies(jobs, datas)[jobs[k].target] == datas[k];
  }

  /** A directory above a target is not the temporary name of any file. */
  lemma ParentIsNotTemporary(jobs: seq<Job>, token: string, k: nat, n: nat)
    requires Listed(jobs, token) && NoneAbove(jobs, token) && k < |jobs| && n < |jobs[k].target|
    ensures jobs[k].target[..n] !in Temporaries(jobs, token)
  {
    hide Temporary;
    assert jobs[k].target[..n] < jobs[k].target;
  }

  lemma KeptBelow(d: Disk, d': Disk, jobs: seq<Job>, datas: seq<Data>, token: string, p: Path, crashed: bool)
    requires Listed(jobs, token) && |datas| == |jobs| && d.Valid()
    requires MigrationEffect(d, d', token, jobs, datas, crashed) && Undisturbed(d, d')
    requires p !in Temporaries(jobs, token) && p !in Copies(jobs, datas)
    ensures p in d'.nodes ==> (p in d.nodes && d'.nodes[p] == d.nodes[p]) || d'.IsDirectory(p)
    ensures p in d.nodes ==> p in d'.nodes
  {
    hide LooksTemporary, IsAbove, Temporaries, Copies, Listed;
  }

  lemma PathReady(d: Disk, d': Disk, jobs: seq<Job>, datas: seq<Data>, token: string, k: nat, crashed: bool)
    requires Listed(jobs, token) && |datas| == |jobs| && k < |jobs| && d.Valid() && NoneAbove(jobs, token)
    requires MigrationEffect(d, d', token, jobs, datas, crashed) && Undisturbed(d, d')
    requires Clear(d, Parent(jobs[k].target))
    ensures Clear(d', Parent(jobs[k].target))
  {
    hide LooksTemporary, IsAbove, Temporary, Effect, Temporaries, Copies, NoneAbove;
    var target := jobs[k].target;
    var parent := Parent(target);
    assert target[..0] == [] == parent[..0];
    ParentIsNoTarget(jobs, datas, token, k, 0);
    ParentIsNotTemporary(jobs, token, k, 0);
    KeptBelow(d, d', jobs, datas, token, [], crashed);
    forall n | 0 <= n <= |parent|
      ensures parent[..n] !in d'.nodes || d'.nodes[parent[..n]].Directory?
    {
      assert parent[..n] == target[..n];
      ParentIsNoTarget(jobs, datas, token, k, n);
      ParentIsNotTemporary(jobs, token, k, n);
      KeptBelow(d, d', jobs, datas, token, target[..n], crashed);
    }
  }

  lemma ParentIsNoTarget(jobs: seq<Job>, datas: seq<Data>, token: string, i: nat, k: nat)
    requires Listed(jobs, token) && |datas| == |jobs| && i < |jobs| && k < |jobs[i].target|
    ensures jobs[i].target[..k] !in Copies(jobs, datas)
  {
    hide Temporary;
    var p := jobs[i].target[..k];
    forall target <- Copies(jobs, datas)
      ensures target != p
    {
      var j :| 0 <= j < |jobs| && target == jobs[j].target;
      assert j == i || !(jobs[j].target <= jobs[i].target);
    }
  }

  lemma NotAboveAny(jobs: seq<Job>, datas: seq<Data>, token: string, k: nat)
    requires Listed(jobs, token) && |datas| == |jobs| && k < |jobs| && NoneAbove(jobs, token)
    ensures !IsAbove(Temporary(jobs[k].target, token), Copies(jobs, datas))
  {
    hide Temporary;
    forall target <- Copies(jobs, datas)
      ensures !(Temporary(jobs[k].target, token) < target)
    {
      var i :| 0 <= i < |jobs| && target == jobs[i].target;
    }
  }

  lemma TemporaryReady(d: Disk, d': Disk, jobs: seq<Job>, datas: seq<Data>, token: string, k: nat, crashed: bool)
    requires Listed(jobs, token) && |datas| == |jobs| && k < |jobs| && NoneAbove(jobs, token)
    requires MigrationEffect(d, d', token, jobs, datas, crashed) && !d.IsDirectory(Temporary(jobs[k].target, token))
    ensures !d'.IsDirectory(Temporary(jobs[k].target, token))
  {
    hide LooksTemporary, IsMade, Temporary;
    var temporary := Temporary(jobs[k].target, token);
    assert temporary in Temporaries(jobs, token);
    NotAboveAny(jobs, datas, token, k);
  }

  // What one undisturbed copy does to the others

  /** The files whose turn is still to come stay ready, unless the copy has made a directory of a temporary name. */
  lemma TurnPasses(d: Disk, d': Disk, jobs: seq<Job>, root: Path, datas: seq<Data>, token: string, n: nat)
    requires Listed(jobs, token) && |datas| == |jobs| && n < |jobs| && d.Valid() && Undisturbed(d, d')
    requires Copied(d, d', jobs[n], root, datas[n], token)
    requires forall k :: n < k < |jobs| ==> !(Temporary(jobs[k].target, token) < jobs[n].target)
    requires AllInTurn(d, jobs, root, datas, token, n)
    ensures AllInTurn(d', jobs, root, datas, token, n + 1)
  {
    hide Clear, LooksTemporary, Temporary, IsOwnerToken, IsStrictlyInside, Copied, IsDirectoryFrom;
    var next := n + 1;
    forall k | next <= k < |jobs|
      ensures ReadyInTurn(d', jobs, root, datas, token, next, k)
    {
      assert ReadyInTurn(d, jobs, root, datas, token, n, k);
      TurnOfTarget(d, d', jobs, root, datas, token, n, k);
      TurnOfPath(d, d', jobs, root, datas, token, n, k);
    }
  }

  lemma TurnOfTarget(d: Disk, d': Disk, jobs: seq<Job>, root: Path, datas: seq<Data>, token: string, n: nat, k: nat)
    requires Listed(jobs, token) && |datas| == |jobs| && n < k < |jobs| && d.Valid() && Undisturbed(d, d')
    requires Copied(d, d', jobs[n], root, datas[n], token)
    requires ReadyInTurn(d, jobs, root, datas, token, n, k)
    ensures d'.HasCopy(jobs[k].source, datas[k])
    ensures jobs[k].target in d'.nodes ==>
              d'.HasCopy(jobs[k].target, datas[k])
              || exists i :: n + 1 <= i < k && Temporary(jobs[i].target, token) == jobs[k].target
  {
    hide LooksTemporary, Temporary, Clear, IsOwnerToken, IsStrictlyInside, IsDirectoryFrom;
    var target, other := jobs[k].target, jobs[n].target;
    assert !(target <= other) && !(other <= target);
    if target in d'.nodes {
      assert target != Temporary(other, token) && target in d.nodes;
    }
  }

  lemma TurnOfPath(d: Disk, d': Disk, jobs: seq<Job>, root: Path, datas: seq<Data>, token: string, n: nat, k: nat)
    requires Listed(jobs, token) && |datas| == |jobs| && n < k < |jobs| && d.Valid() && Undisturbed(d, d')
    requires Copied(d, d', jobs[n], root, datas[n], token)
    requires Clear(d, Parent(jobs[k].target)) && !d.IsDirectory(Temporary(jobs[k].target, token))
    requires !(Temporary(jobs[k].target, token) < jobs[n].target)
    ensures Clear(d', Parent(jobs[k].target)) && !d'.IsDirectory(Temporary(jobs[k].target, token))
  {
    hide LooksTemporary, Temporary, IsDirectoryFrom, IsStrictlyInside;
    var target, other := jobs[k].target, jobs[n].target;
    var parent := Parent(target);
    assert !(other <= target);
    assert parent[..0] == [];
    forall i | 0 <= i <= |parent|
      ensures parent[..i] !in d'.nodes || d'.nodes[parent[..i]].Directory?
    {
      assert parent[..i] == target[..i];
    }
  }

  // What has arrived

  lemma ArrivedStays(d: Disk, d': Disk, jobs: seq<Job>, root: Path, datas: seq<Data>, token: string, i: nat, n: nat)
    requires Listed(jobs, token) && |datas| == |jobs| && i < n < |jobs|
    requires Copied(d, d', jobs[n], root, datas[n], token) && Arrived(d, jobs, datas, token, i, n)
    ensures Arrived(d', jobs, datas, token, i, n + 1)
  {
    hide Copied, Temporary;
    var target, other := jobs[i].target, jobs[n].target;
    assert !(target <= other);
    if TakenLater(jobs, token, i, n) {
      var j :| i < j < n && Temporary(jobs[j].target, token) == target;
      TemporariesLookTemporary(jobs[j].target, token);
      StaysAway(d, d', jobs[n], root, datas[n], token, target);
      assert TakenLater(jobs, token, i, n + 1);
    } else {
      StaysInPlace(d, d', jobs[n], root, datas[n], token, target, datas[i]);
      if TakenLater(jobs, token, i, n + 1) {
        var j :| i < j < n + 1 && Temporary(jobs[j].target, token) == target;
        assert j == n;
      }
    }
  }

  lemma StaysAway(d: Disk, d': Disk, job: Job, root: Path, data: Data, token: string, p: Path)
    requires job.target != [] && Copied(d, d', job, root, data, token)
    requires p !in d.nodes && LooksTemporary(p, token) && !(p <= job.target)
    ensures p !in d'.nodes
  {
    hide LooksTemporary, Temporary, IsDirectoryFrom, IsStrictlyInside;
  }

  lemma StaysInPlace(d: Disk, d': Disk, job: Job, root: Path, data: Data, token: string, p: Path, kept: Data)
    requires job.target != [] && Copied(d, d', job, root, data, token) && d.HasFile(p, kept)
    ensures if p == Temporary(job.target, token) then p !in d'.nodes else d'.HasFile(p, kept)
  {
    hide LooksTemporary, Temporary, IsDirectoryFrom, IsStrictlyInside, IsMade;
  }

  lemma AllArrivedStay(d: Disk, d': Disk, jobs: seq<Job>, root: Path, datas: seq<Data>, token: string, n: nat)
    requires Listed(jobs, token) && |datas| == |jobs| && n < |jobs|
    requires Copied(d, d', jobs[n], root, datas[n], token) && AllArrived(d, jobs, datas, token, n)
    ensures AllArrived(d', jobs, datas, token, n + 1)
  {
    hide Arrived, Copied, Temporary;
    var next := n + 1;
    forall i | 0 <= i < next
      ensures Arrived(d', jobs, datas, token, i, next)
    {
      if i < n {
        ArrivedStays(d, d', jobs, root, datas, token, i, n);
      } else {
        ArrivesNow(d, d', jobs, root, datas, token, n);
      }
    }
  }

  lemma ArrivesNow(d: Disk, d': Disk, jobs: seq<Job>, root: Path, datas: seq<Data>, token: string, n: nat)
    requires Listed(jobs, token) && |datas| == |jobs| && n < |jobs| && Copied(d, d', jobs[n], root, datas[n], token)
    ensures Arrived(d', jobs, datas, token, n, n + 1)
  {
  }

  lemma LeftoversStay(d: Disk, d': Disk, jobs: seq<Job>, root: Path, datas: seq<Data>, token: string, n: nat)
    requires Listed(jobs, token) && |datas| == |jobs| && n < |jobs|
    requires Copied(d, d', jobs[n], root, datas[n], token) && NoLeftovers(d, jobs, token, n)
    ensures NoLeftovers(d', jobs, token, n + 1)
  {
    hide LooksTemporary, Temporary, IsDirectoryFrom, IsStrictlyInside;
    forall i | 0 <= i < n + 1 && Temporary(jobs[i].target, token) in d'.nodes
      ensures exists j :: i < j < n + 1 && Temporary(jobs[i].target, token) <= jobs[j].target
    {
      var temporary := Temporary(jobs[i].target, token);
      TemporariesLookTemporary(jobs[i].target, token);
      if temporary in d.nodes {
        var j :| i < j < n && temporary <= jobs[j].target;
      } else {
        assert temporary <= jobs[n].target;
      }
    }
  }

  lemma HousedStay(d: Disk, d': Disk, jobs: seq<Job>, root: Path, datas: seq<Data>, token: string, n: nat)
    requires Listed(jobs, token) && |datas| == |jobs| && n < |jobs|
    requires Copied(d, d', jobs[n], root, datas[n], token) && Housed(d, jobs, root, token, n)
    ensures Housed(d', jobs, root, token, n + 1)
  {
    hide LooksTemporary, Temporary, IsStrictlyInside, IsMade;
  }

  /** A name under which an earlier file lives is a directory, which no later copy can remove. */
  lemma NotBlocked(d: Disk, d': Disk, jobs: seq<Job>, root: Path, datas: seq<Data>, token: string, n: nat)
    requires Listed(jobs, token) && |datas| == |jobs| && n < |jobs|
    requires Copied(d, d', jobs[n], root, datas[n], token) && Housed(d, jobs, root, token, n) && NoneBlocked(jobs, token, n)
    ensures NoneBlocked(jobs, token, n + 1)
  {
    hide Plan.Holds, TemporaryName;
    forall i | 0 <= i < n
      ensures !(Temporary(jobs[n].target, token) < jobs[i].target)
    {
      HousedIsDirectory(d, jobs, root, token, i, jobs[n], n);
    }
  }

  lemma HousedIsDirectory(d: Disk, jobs: seq<Job>, root: Path, token: string, i: nat, other: Job, n: nat)
    requires Listed(jobs, token) && i < n <= |jobs| && Housed(d, jobs, root, token, n)
    requires other.target != [] && IsStrictlyInside(root, other.target)
    ensures Temporary(other.target, token) < jobs[i].target ==> d.IsDirectory(Temporary(other.target, token))
  {
    hide StartsWithDots, TemporaryName;
    var temporary, target := Temporary(other.target, token), jobs[i].target;
    if temporary < target {
      assert |temporary| == |other.target| > |root|;
      assert temporary == Parent(target)[..|temporary|];
    }
  }

  lemma StartOfMigration(d: Disk, jobs: seq<Job>, datas: seq<Data>, token: string)
    requires Listed(jobs, token) && |datas| == |jobs| && d.Valid()
    ensures MigrationEffect(d, d, token, jobs, datas, false)
  {
    NothingYet(d, token, Temporaries(jobs, token), Copies(jobs, datas));
  }

  lemma MigrationChains(d0: Disk, d1: Disk, d2: Disk, jobs: seq<Job>, datas: seq<Data>, token: string, c1: bool, c2: bool)
    requires Listed(jobs, token) && |datas| == |jobs|
    requires MigrationEffect(d0, d1, token, jobs, datas, c1) && MigrationEffect(d1, d2, token, jobs, datas, c2)
    ensures MigrationEffect(d0, d2, token, jobs, datas, c1 || c2)
  {
    EffectsChain(d0, d1, d2, token, Temporaries(jobs, token), Copies(jobs, datas), c1, c2);
  }

  lemma MigrationValid(d: Disk, d': Disk, jobs: seq<Job>, datas: seq<Data>, token: string, crashed: bool)
    requires Listed(jobs, token) && |datas| == |jobs| && MigrationEffect(d, d', token, jobs, datas, crashed)
    ensures d'.Valid()
  {
  }

  lemma JobFacts(d: Disk, jobs: seq<Job>, datas: seq<Data>, token: string, i: nat)
    requires Listed(jobs, token) && |datas| == |jobs| && i < |jobs| && AreSources(d, jobs, datas)
    ensures jobs[i].target != [] && IsSource(d, jobs[i].source, datas[i]) && jobs[i].source != Temporary(jobs[i].target, token)
  {
  }

  lemma TurnHasCome(d: Disk, jobs: seq<Job>, root: Path, datas: seq<Data>, token: string, n: nat)
    requires Listed(jobs, token) && |datas| == |jobs| && n < |jobs| && AllInTurn(d, jobs, root, datas, token, n)
    ensures Ready(d, jobs[n].source, jobs[n].target, root, datas[n], token)
  {
    hide Clear, IsOwnerToken, IsStrictlyInside, Temporary;
    assert ReadyInTurn(d, jobs, root, datas, token, n, n);
  }

  // The loop

  /**
   Copies the files in order until one fails. However it ends, the effect is an allowed one. If it
   succeeds, a file is in place unless the copy of a later one has taken its name, in which case nothing
   is left there. Left alone with files that are ready it succeeds unless a file must be written where an
   earlier one has made a directory.
   */
  method MigrateFiles(m: Machine, jobs: seq<Job>, root: Path, ghost datas: seq<Data>) returns (r: Outcome)
    requires m.disk.Valid() && root != [] && Listed(jobs, m.token) && |datas| == |jobs|
    requires AreSources(m.disk, jobs, datas)
    modifies m
    ensures MigrationEffect(old(m.disk), m.disk, m.token, jobs, datas, r.Crashed?)
    ensures r == Done ==>
              && AllArrived(m.disk, jobs, datas, m.token, |jobs|) && NoLeftovers(m.disk, jobs, m.token, |jobs|)
              && Housed(m.disk, jobs, root, m.token, |jobs|) && NoneBlocked(jobs, m.token, |jobs|)
    ensures r == Done ==> NoDirectories(old(m.disk), jobs, m.token, |jobs|)
    ensures Quiet(old(m.script)) ==> Quiet(m.script) && Undisturbed(old(m.disk), m.disk)
    ensures Quiet(old(m.script)) && AllInTurn(old(m.disk), jobs, root, datas, m.token, 0) ==>
              (r == Done <==> NoneBlocked(jobs, m.token, |jobs|))
  {
    hide Quiet, Listed, AreSources, MigrationEffect, Plan.Holds, IsSource, Ready, Temporary, AllInTurn, AllArrived, NoLeftovers,
      Housed, NoneBlocked, NoDirectories, IsDirectoryFrom, IsStrictlyInside;
    r := Done;
    StartOfMigration(m.disk, jobs, datas, m.token);
    NothingArrived(m.disk, jobs, root, datas, m.token);
    var i := 0;
    ghost var d0, script0 := m.disk, m.script;
    ghost var ready := Quiet(script0) && AllInTurn(d0, jobs, root, datas, m.token, 0);
    while i < |jobs| && r == Done
      invariant i <= |jobs|
      invariant MigrationEffect(d0, m.disk, m.token, jobs, datas, r.Crashed?)
      invariant r == Done ==> AllArrived(m.disk, jobs, datas, m.token, i) && NoLeftovers(m.disk, jobs, m.token, i)
      invariant r == Done ==> Housed(m.disk, jobs, root, m.token, i) && NoneBlocked(jobs, m.token, i)
      invariant r == Done ==> NoDirectories(d0, jobs, m.token, i)
      invariant Quiet(script0) ==> Quiet(m.script) && Undisturbed(d0, m.disk)
      invariant ready && NoneBlocked(jobs, m.token, |jobs|) ==>
                  r == Done && AllInTurn(m.disk, jobs, root, datas, m.token, i)
    {
      ghost var d1 := m.disk;
      Weakened(d0, d1, jobs, datas, m.token, false);
      SourcesStay(d0, d1, jobs, datas, m.token);
      MigrationValid(d0, d1, jobs, datas, m.token, false);
      JobFacts(d1, jobs, datas, m.token, i);
      if ready && NoneBlocked(jobs, m.token, |jobs|) {
        TurnHasCome(d1, jobs, root, datas, m.token, i);
      }
      r := CopyBackupFailsafeMigrationFile(m, jobs[i].source, jobs[i].target, root, datas[i]);
      CopyIsMigrationStep(d1, m.disk, jobs, datas, m.token, i, r.Crashed?);
      MigrationChains(d0, d1, m.disk, jobs, datas, m.token, false, r.Crashed?);
      if r == Done {
        OneMore(d0, d1, m.disk, jobs, root, datas, m.token, i);
        if ready && NoneBlocked(jobs, m.token, |jobs|) {
          OneLess(d1, m.disk, jobs, root, datas, m.token, i);
        }
      }
      i := i + 1;
    }
  }

  /** No temporary name of the first `n` files is a directory. */
  ghost predicate NoDirectories(d: Disk, jobs: seq<Job>, token: string, n: nat)
    requires Listed(jobs, token) && n <= |jobs|
  {
    forall i :: 0 <= i < n ==> !d.IsDirectory(Temporary(jobs[i].target, token))
  }

  lemma NothingArrived(d: Disk, jobs: seq<Job>, root: Path, datas: seq<Data>, token: string)
    requires Listed(jobs, token) && |datas| == |jobs|
    ensures AllArrived(d, jobs, datas, token, 0) && NoLeftovers(d, jobs, token, 0)
    ensures Housed(d, jobs, root, token, 0) && NoneBlocked(jobs, token, 0) && NoDirectories(d, jobs, token, 0)
  {
  }

  lemma OneMore(d0: Disk, d: Disk, d': Disk, jobs: seq<Job>, root: Path, datas: seq<Data>, token: string, n: nat)
    requires Listed(jobs, token) && |datas| == |jobs| && n < |jobs|
    requires MigrationEffect(d0, d, token, jobs, datas, false) && NoDirectories(d0, jobs, token, n)
    requires Copied(d, d', jobs[n], root, datas[n], token)
    requires AllArrived(d, jobs, datas, token, n) && NoLeftovers(d, jobs, token, n)
    requires Housed(d, jobs, root, token, n) && NoneBlocked(jobs, token, n)
    ensures AllArrived(d', jobs, datas, token, n + 1) && NoLeftovers(d', jobs, token, n + 1)
    ensures Housed(d', jobs, root, token, n + 1) && NoneBlocked(jobs, token, n + 1)
    ensures NoDirectories(d0, jobs, token, n + 1)
  {
    hide AllArrived, NoLeftovers, Housed, NoneBlocked, Plan.Holds, IsDirectoryFrom, IsStrictlyInside, Temporary;
    AllArrivedStay(d, d', jobs, root, datas, token, n);
    LeftoversStay(d, d', jobs, root, datas, token, n);
    HousedStay(d, d', jobs, root, datas, token, n);
    NotBlocked(d, d', jobs, root, datas, token, n);
    DirectoryStays(d0, d, jobs, datas, token, Temporary(jobs[n].target, token), false);
  }

  lemma DirectoryStays(d: Disk, d': Disk, jobs: seq<Job>, datas: seq<Data>, token: string, p: Path, crashed: bool)
    requires Listed(jobs, token) && |datas| == |jobs| && MigrationEffect(d, d', token, jobs, datas, crashed)
    ensures d.IsDirectory(p) ==> d'.IsDirectory(p)
  {
    hide Listed, Temporaries, Copies, IsMade, LooksTemporary;
  }

  lemma OneLess(d: Disk, d': Disk, jobs: seq<Job>, root: Path, datas: seq<Data>, token: string, n: nat)
    requires Listed(jobs, token) && |datas| == |jobs| && n < |jobs| && d.Valid() && Undisturbed(d, d')
    requires Copied(d, d', jobs[n], root, datas[n], token) && NoneBlocked(jobs, token, |jobs|)
    requires AllInTurn(d, jobs, root, datas, token, n)
    ensures AllInTurn(d', jobs, root, datas, token, n + 1)
  {
    hide Listed, AllInTurn, Copied, Temporary;
    TurnPasses(d, d', jobs, root, datas, token, n);
  }

  // Names that clash

  /** After the loop each file is in place, or a later one has taken its name. */
  lemma EachArrived(d: Disk, jobs: seq<Job>, datas: seq<Data>, token: string)
    requires Listed(jobs, token) && |datas| == |jobs| && AllArrived(d, jobs, datas, token, |jobs|)
    ensures forall i :: 0 <= i < |jobs| ==>
              if TakenLater(jobs, token, i, |jobs|) then jobs[i].target !in d.nodes else d.HasFile(jobs[i].target, datas[i])
  {
    hide TakenLater;
    forall i | 0 <= i < |jobs|
      ensures if TakenLater(jobs, token, i, |jobs|) then jobs[i].target !in d.nodes else d.HasFile(jobs[i].target, datas[i])
    {
      assert Arrived(d, jobs, datas, token, i, |jobs|);
    }
  }

  /** After success every file is in place exactly when no temporary name is the target of an earlier file. */
  lemma InPlaceIff(d: Disk, jobs: seq<Job>, datas: seq<Data>, token: string)
    requires Listed(jobs, token) && |datas| == |jobs| && AllArrived(d, jobs, datas, token, |jobs|)
    ensures AllInPlace(d, jobs, datas) <==> forall i :: 0 <= i < |jobs| ==> !TakenLater(jobs, token, i, |jobs|)
  {
    hide Listed, TakenLater;
    EachArrived(d, jobs, datas, token);
  }

  lemma InOrderMeans(jobs: seq<Job>, token: string)
    requires Listed(jobs, token)
    ensures InOrder(jobs, token)
       <==> NoneBlocked(jobs, token, |jobs|) && forall i :: 0 <= i < |jobs| ==> !TakenLater(jobs, token, i, |jobs|)
  {
    hide Temporary;
    if NoneBlocked(jobs, token, |jobs|) && forall i :: 0 <= i < |jobs| ==> !TakenLater(jobs, token, i, |jobs|) {
      forall i, j | 0 <= i < j < |jobs|
        ensures !(Temporary(jobs[j].target, token) <= jobs[i].target)
      {
        assert !TakenLater(jobs, token, i, |jobs|);
        assert !(Temporary(jobs[j].target, token) < jobs[i].target);
      }
    }
  }

  /**
   Left alone with files that are ready, the loop ends with success and all files in place exactly when
   the list is in order; if only a target is taken, it still reports success.
   */
  method MigrateInOrder(m: Machine, jobs: seq<Job>, root: Path, ghost datas: seq<Data>) returns (r: Outcome)
    requires m.disk.Valid() && root != [] && Listed(jobs, m.token) && |datas| == |jobs|
    requires Quiet(m.script) && AllReady(m.disk, jobs, root, datas, m.token) && AreSources(m.disk, jobs, datas)
    modifies m
    ensures r == Done && AllInPlace(m.disk, jobs, datas) <==> InOrder(jobs, m.token)
    ensures r == Done <==> NoneBlocked(jobs, m.token, |jobs|)
    ensures r == Done ==>
              forall i :: 0 <= i < |jobs| ==>
                if TakenLater(jobs, m.token, i, |jobs|) then jobs[i].target !in m.disk.nodes
                else m.disk.HasFile(jobs[i].target, datas[i])
  {
    hide Quiet, Listed, AreSources, MigrationEffect, AllReady, AllInTurn, NoLeftovers, Housed, NoneBlocked, NoDirectories,
      InOrder, AllInPlace, AllArrived, TakenLater;
    ReadyIsInTurn(m.disk, jobs, root, datas, m.token);
    InOrderMeans(jobs, m.token);
    r := MigrateFiles(m, jobs, root, datas);
    if r == Done {
      InPlaceIff(m.disk, jobs, datas, m.token);
      EachArrived(m.disk, jobs, datas, m.token);
    }
  }


  /**
   Migrating twice, the second time over what the first left, succeeds with all files in place exactly
   when the list is in order and no temporary name is a directory above any target.
   */
  method MigrateTwice(m: Machine, jobs: seq<Job>, root: Path, ghost datas: seq<Data>) returns (first: Outcome, second: Outcome)
    requires m.disk.Valid() && root != [] && Listed(jobs, m.token) && |datas| == |jobs|
    requires Quiet(m.script) && AllReady(m.disk, jobs, root, datas, m.token) && AreSources(m.disk, jobs, datas)
    modifies m
    ensures first == Done && second == Done && AllInPlace(m.disk, jobs, datas)
       <==> InOrder(jobs, m.token) && NoneAbove(jobs, m.token)
  {
    hide Quiet, Listed, AreSources, MigrationEffect, AllReady, AllInTurn, AllArrived, NoLeftovers, Housed, NoneBlocked,
      NoDirectories, InOrder, NoneAbove, AllInPlace, TakenLater;
    ghost var d0 := m.disk;
    ReadyIsInTurn(d0, jobs, root, datas, m.token);
    InOrderMeans(jobs, m.token);
    first := MigrateFiles(m, jobs, root, datas);
    ghost var d1 := m.disk;
    Weakened(d0, d1, jobs, datas, m.token, first.Crashed?);
    SourcesStay(d0, d1, jobs, datas, m.token);
    MigrationValid(d0, d1, jobs, datas, m.token, first.Crashed?);
    if InOrder(jobs, m.token) && NoneAbove(jobs, m.token) {
      ReadyStays(d0, d1, jobs, root, datas, m.token, first.Crashed?);
    }
    second := MigrateFiles(m, jobs, root, datas);
    if second == Done {
      InPlaceIff(m.disk, jobs, datas, m.token);
      if first == Done {
        SecondNotBlocked(d1, jobs, root, m.token);
      }
    }
  }

  lemma SecondNotBlocked(d: Disk, jobs: seq<Job>, root: Path, token: string)
    requires Listed(jobs, token) && Housed(d, jobs, root, token, |jobs|) && NoDirectories(d, jobs, token, |jobs|)
    ensures NoneAbove(jobs, token)
  {
    hide Temporary, IsDirectoryFrom, IsStrictlyInside;
    forall i, j | 0 <= i < |jobs| && 0 <= j < |jobs|
      ensures !(Temporary(jobs[j].target, token) < jobs[i].target)
    {
      HousedIsDirectory(d, jobs, root, token, i, jobs[j], |jobs|);
    }
  }

  lemma NamesDiffer(name: string, token: string)
    requires name != "" && name[0] != '.'
    ensures var temporary := TemporaryName(name, token);
            temporary != name && !StartsWithDots(temporary) && !StartsWithDots(name)
  {
    assert |TemporaryName(name, token)| > |name|;
    assert TemporaryName(name, token)[1] == name[0];
  }

  /** A file of the old store that is called like the temporary file of the other one. */
  function ClashingJobs(name: string, token: string): seq<Job> {
    [Job(["old", TemporaryName(name, token)], ["new", TemporaryName(name, token)]), Job(["old", name], ["new", name])]
  }

  lemma ClashingJobsAreListed(name: string, token: string)
    requires name != "" && name[0] != '.'
    ensures var jobs := ClashingJobs(name, token);
            Listed(jobs, token) && NoneBlocked(jobs, token, 2) && TakenLater(jobs, token, 0, 2) && !TakenLater(jobs, token, 1, 2)
  {
    NamesDiffer(name, token);
    hide TemporaryName;
    var jobs := ClashingJobs(name, token);
    assert jobs[0].source[0] == jobs[1].source[0] == "old" != "new";
    assert Temporary(jobs[0].target, token)[0] == "new" == Temporary(jobs[1].target, token)[0];
    assert Temporary(jobs[1].target, token) == ["new", TemporaryName(name, token)];
  }

  lemma ClashingJobsAreReady(name: string, token: string, data: Data, other: Data)
    requires name != "" && name[0] != '.' && IsOwnerToken(token)
    ensures var jobs, disk := ClashingJobs(name, token), TwoFiles(name, token, data, other);
            Listed(jobs, token) && disk.Valid() && AreSources(disk, jobs, [other, data])
            && AllReady(disk, jobs, ["new"], [other, data], token)
  {
    hide IsOwnerToken, Ready, Listed, TwoFiles, Disk.Valid, TemporaryName;
    var jobs, disk := ClashingJobs(name, token), TwoFiles(name, token, data, other);
    ClashingJobsAreListed(name, token);
    NamesDiffer(name, token);
    TwoFilesHold(name, token, data, other);
    FileIsReady(disk, jobs[0].source, TemporaryName(name, token), other, token);
    FileIsReady(disk, jobs[1].source, name, data, token);
  }

  lemma TwoFilesHold(name: string, token: string, data: Data, other: Data)
    requires TemporaryName(name, token) != name
    ensures var disk := TwoFiles(name, token, data, other);
            && disk.Valid() && disk.IsDirectory([]) && (forall p <- disk.nodes :: p == [] || p[0] == "old")
            && disk.HasCopy(["old", TemporaryName(name, token)], other) && disk.HasCopy(["old", name], data)
  {
    hide TemporaryName;
  }

  lemma FileIsReady(disk: Disk, source: Path, name: string, data: Data, token: string)
    requires disk.IsDirectory([]) && (forall p <- disk.nodes :: p == [] || p[0] == "old")
    requires disk.HasCopy(source, data) && IsOwnerToken(token) && !StartsWithDots(name)
    ensures Ready(disk, source, ["new", name], ["new"], data, token)
  {
    hide IsOwnerToken, StartsWithDots, TemporaryName;
    var target := ["new", name];
    assert target[0] == Temporary(target, token)[0] == "new" != "old";
    assert Parent(target) == ["new"];
    assert ["new"][..0] == [] && ["new"][..1] == ["new"];
  }

  function TwoFiles(name: string, token: string, data: Data, other: Data): Disk {
    Disk(map[[] := Directory, ["old"] := Directory, ["old", TemporaryName(name, token)] := File(0), ["old", name] := File(1)],
         map[0 := Inode(other, true), 1 := Inode(data, true)], 2, {})
  }

  /**
   A listed file that is called like the temporary file of a later one is lost: nothing disturbs the
   loop, both files are ready, the loop succeeds, and the file is not there.
   */
  method TakenTargetIsLost(name: string, token: string, data: Data, other: Data) returns (m: Machine, r: Outcome)
    requires name != "" && name[0] != '.' && IsOwnerToken(token)
    ensures r == Done && m.disk.HasFile(["new", name], data) && ["new", TemporaryName(name, token)] !in m.disk.nodes
  {
    hide IsOwnerToken, Listed, AreSources, AllReady, NoneBlocked, TakenLater, Disk.Valid, TwoFiles;
    var jobs := ClashingJobs(name, token);
    ClashingJobsAreListed(name, token);
    ClashingJobsAreReady(name, token, data, other);
    m := new Machine(token, TwoFiles(name, token, data, other), []);
    r := MigrateInOrder(m, jobs, ["new"], [other, data]);
    assert jobs[0].target == ["new", TemporaryName(name, token)] && jobs[1].target == ["new", name];
  }

  // Attempts with crashes

  /**
   Attempts with the same owner token, each ended by success, failure or a crash. An undisturbed last
   one succeeds with all files in place, if the list is in order and no temporary name is a directory.
   */
  method MigrateWithRestarts(m: Machine, jobs: seq<Job>, root: Path, futures: seq<seq<Event>>, ghost datas: seq<Data>)
    returns (r: Outcome)
    requires m.disk.Valid() && root != [] && Listed(jobs, m.token) && |datas| == |jobs| && futures != []
    requires AreSources(m.disk, jobs, datas)
    modifies m
    ensures MigrationEffect(old(m.disk), m.disk, m.token, jobs, datas, true)
    ensures r == Done ==> AllArrived(m.disk, jobs, datas, m.token, |jobs|) && NoLeftovers(m.disk, jobs, m.token, |jobs|)
    ensures Quiet(futures[|futures| - 1]) && AllReady(old(m.disk), jobs, root, datas, m.token)
            && Undisturbed(old(m.disk), m.disk) && InOrder(jobs, m.token) && NoneAbove(jobs, m.token)
            ==> r == Done && AllInPlace(m.disk, jobs, datas)
  {
    hide Quiet, Listed, AreSources, MigrationEffect, AllArrived, NoLeftovers, Housed, NoneBlocked, NoDirectories, AllReady,
      AllInTurn, InOrder, NoneAbove, AllInPlace, TakenLater;
    r := Failed(Other);
    ghost var d0 := m.disk;
    StartOfMigration(d0, jobs, datas, m.token);
    Weakened(d0, d0, jobs, datas, m.token, false);
    InOrderMeans(jobs, m.token);
    var attempt := 0;
    ghost var last := d0;
    while attempt < |futures|
      invariant attempt <= |futures|
      invariant MigrationEffect(d0, m.disk, m.token, jobs, datas, true)
      invariant MigrationEffect(d0, last, m.token, jobs, datas, true)
      invariant MigrationEffect(last, m.disk, m.token, jobs, datas, true)
      invariant r == Done ==> AllArrived(m.disk, jobs, datas, m.token, |jobs|) && NoLeftovers(m.disk, jobs, m.token, |jobs|)
      invariant attempt > 0 && Quiet(futures[attempt - 1]) ==> Undisturbed(last, m.disk)
      invariant attempt > 0 && Quiet(futures[attempt - 1]) && AllInTurn(last, jobs, root, datas, m.token, 0) ==>
                  InOrder(jobs, m.token) ==> r == Done
    {
      last := m.disk;
      SourcesStay(d0, last, jobs, datas, m.token);
      MigrationValid(d0, last, jobs, datas, m.token, true);
      m.script := futures[attempt];
      r := MigrateFiles(m, jobs, root, datas);
      Weakened(last, m.disk, jobs, datas, m.token, r.Crashed?);
      MigrationChains(d0, last, m.disk, jobs, datas, m.token, true, true);
      attempt := attempt + 1;
    }
    if r == Done {
      InPlaceIff(m.disk, jobs, datas, m.token);
    }
    if AllReady(d0, jobs, root, datas, m.token) && Undisturbed(d0, m.disk) && InOrder(jobs, m.token) && NoneAbove(jobs, m.token) {
      ForeignOnlyGrows(d0, last, m.disk, jobs, datas, m.token);
      ReadyIsInTurn(d0, jobs, root, datas, m.token);
      ReadyStays(d0, last, jobs, root, datas, m.token, true);
    }
  }

  lemma ForeignOnlyGrows(d0: Disk, d1: Disk, d2: Disk, jobs: seq<Job>, datas: seq<Data>, token: string)
    requires Listed(jobs, token) && |datas| == |jobs|
    requires MigrationEffect(d0, d1, token, jobs, datas, true) && MigrationEffect(d1, d2, token, jobs, datas, true)
    requires Undisturbed(d0, d2)
    ensures Undisturbed(d0, d1)
  {
    hide LooksTemporary, IsMade, Temporary;
    TemporariesAre(jobs, token);
  }

  // What the effect means for a single path

  /**
   At any moment, also after a crash: what was at a target before is still there with its data, and
   what is new there is the work of others or a complete copy that no later crash can damage; unless the
   target is called like the temporary file of another one.
   */
  lemma TargetNeverPartial(d: Disk, d': Disk, jobs: seq<Job>, datas: seq<Data>, token: string, i: nat, crashed: bool)
    requires Listed(jobs, token) && |datas| == |jobs| && i < |jobs| && d.Valid()
    requires MigrationEffect(d, d', token, jobs, datas, crashed) && jobs[i].target !in Temporaries(jobs, token)
    ensures var target := jobs[i].target;
            && (target in d.nodes ==> target in d'.nodes && d'.nodes[target] == d.nodes[target])
            && (forall data :: d.HasCopy(target, data) ==> d'.HasCopy(target, data))
            && (target in d'.nodes && target !in d.nodes ==> target in d'.foreign || d'.HasCopy(target, datas[i]))
  {
    hide LooksTemporary, Temporary, IsAbove;
    NotAbove(jobs, datas, token, i);
  }

  /** Names that are not temporary files of the migration keep what they had, and no directory is removed. */
  lemma OtherNamesKept(d: Disk, d': Disk, jobs: seq<Job>, datas: seq<Data>, token: string, p: Path, data: Data, crashed: bool)
    requires Listed(jobs, token) && |datas| == |jobs| && MigrationEffect(d, d', token, jobs, datas, crashed)
    ensures p in d.nodes && (p !in Temporaries(jobs, token) || d.IsDirectory(p)) ==> p in d'.nodes && d'.nodes[p] == d.nodes[p]
    ensures p !in Temporaries(jobs, token) && d.HasCopy(p, data) ==> d'.HasCopy(p, data)
  {
    hide LooksTemporary, IsMade, Temporaries, Copies, Temporary;
  }

  /** Nothing appears but targets, directories above them, temporary files and the work of others. */
  lemma NothingElseAppears(d: Disk, d': Disk, jobs: seq<Job>, datas: seq<Data>, token: string, p: Path, crashed: bool)
    requires Listed(jobs, token) && |datas| == |jobs| && MigrationEffect(d, d', token, jobs, datas, crashed)
    requires p in d'.nodes && p !in d.nodes && p !in d'.foreign && p !in Temporaries(jobs, token)
    ensures exists i :: 0 <= i < |jobs| && (p == jobs[i].target || (p < jobs[i].target && d'.IsDirectory(p)))
  {
    hide LooksTemporary, Temporaries, Temporary;
    assert IsMade(d', p, Copies(jobs, datas));
    if IsAbove(p, Copies(jobs, datas)) && d'.IsDirectory(p) {
      var target :| target in Copies(jobs, datas) && p < target;
      var i :| 0 <= i < |jobs| && target == jobs[i].target;
    } else {
      var i :| 0 <= i < |jobs| && p == jobs[i].target;
    }
  }
}
