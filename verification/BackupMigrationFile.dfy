/** Copying one backup file to its place in the new store, and the whole loop over the files. */
module BackupMigrationFile {
  import opened BackupFileSystem
  import opened BackupMigration

  /** What the steps of one copy keep true: the effect so far is an allowed one. */
  datatype Plan = Plan(start: Disk, token: string, temps: set<Path>, copies: map<Path, Data>) {

    ghost predicate Holds(d: Disk, crashed: bool) {
      Effect(start, d, token, temps, copies, crashed)
    }

    ghost predicate LooksRight(token: string) {
      this.token == token && AllLookTemporary(temps, token)
    }

    /** A directory that the plan may create, together with those above it. */
    ghost predicate MayCreate(p: Path, token: string) {
      LooksRight(token) && exists target <- copies :: p < target
    }
  }

  /** The path and everything above it are directories or missing, and the root is there. */
  ghost predicate Clear(d: Disk, p: Path) {
    d.IsDirectory([]) && forall k :: 0 <= k <= |p| ==> p[..k] !in d.nodes || d.nodes[p[..k]].Directory?
  }

  /** Others have created nothing meanwhile. */
  ghost predicate Undisturbed(d: Disk, d': Disk) {
    d'.foreign <= d.foreign
  }

  /** Files at rest have kept their data. */
  ghost predicate KeepsSynced(d: Disk, d': Disk) {
    forall i <- d.inodes :: i in d'.inodes && (d.inodes[i].synced ==> d'.inodes[i] == d.inodes[i])
  }

  lemma PlanDrifts(plan: Plan, d: Disk, d': Disk, token: string, crashed: bool)
    requires plan.Holds(d, false) && Drifts(d, d', token, crashed) && plan.LooksRight(token)
    ensures plan.Holds(d', crashed)
  {
    EffectDrifts(plan.start, d, d', token, plan.temps, plan.copies, crashed);
  }

  lemma MayCreateAbove(plan: Plan, p: Path, k: nat, token: string)
    requires plan.MayCreate(p, token) && k <= |p|
    ensures plan.MayCreate(p[..k], token)
    ensures IsAbove(p[..k], plan.copies)
  {
    var target :| target in plan.copies && p < target;
    assert p[..k] < target;
  }

  // Directories

  ghost predicate KeepsNodes(d: Disk, d': Disk) {
    forall p <- d.nodes :: p in d'.nodes && d'.nodes[p] == d.nodes[p]
  }

  ghost predicate KeepsDirectories(d: Disk, d': Disk) {
    forall p <- d.nodes :: d.IsDirectory(p) ==> d'.IsDirectory(p)
  }

  method MakeDirectory(m: Machine, p: Path, ghost plan: Plan) returns (r: Outcome)
    requires p != [] && plan.MayCreate(p, m.token) && plan.Holds(m.disk, false)
    modifies m
    ensures Quiet(old(m.script)) ==> !r.Crashed?
    ensures KeepsNodes(old(m.disk), m.disk)
    ensures r != Failed(Conflict)
    ensures plan.Holds(m.disk, r.Crashed?)
    ensures Quiet(old(m.script)) ==>
              && Quiet(m.script) && Undisturbed(old(m.disk), m.disk)
              && m.disk == (if r == Done then old(m.disk).(nodes := old(m.disk.nodes)[p := Directory]) else old(m.disk))
              && (p !in old(m.disk).nodes && old(m.disk).IsDirectory(Parent(p)) ==> r == Done)
  {
    hide Effect, Quiet, LooksTemporary, Drifts;
    ghost var seen: Disk;
    ghost var before := m.disk;
    HoldsValid(plan, before);
    r, seen := m.Mkdir(p);
    PlanDrifts(plan, before, seen, m.token, r.Crashed?);
    if r == Done {
      assert p == p[..|p|];
      MayCreateAbove(plan, p, |p|, m.token);
      EffectMkdir(plan.start, seen, p, plan.token, plan.temps, plan.copies);
    }
  }

  lemma HoldsValid(plan: Plan, d: Disk)
    requires plan.Holds(d, false)
    ensures d.Valid()
  {
  }

  /** Creates every missing directory on the way to a path. */
  method MakeDirectories(m: Machine, p: Path, ghost plan: Plan) returns (r: Outcome)
    requires plan.MayCreate(p, m.token) && plan.Holds(m.disk, false)
    modifies m
    ensures Quiet(old(m.script)) ==> !r.Crashed?
    ensures KeepsNodes(old(m.disk), m.disk)
    ensures r != Failed(Conflict)
    ensures plan.Holds(m.disk, r.Crashed?)
    ensures Quiet(old(m.script)) ==> Quiet(m.script) && Undisturbed(old(m.disk), m.disk)
    ensures Quiet(old(m.script)) && Clear(old(m.disk), p) ==> r == Done && m.disk.IsDirectory(p)
    ensures Quiet(old(m.script)) ==> AddsOnly(old(m.disk), m.disk, p)
  {
    hide Effect, Quiet, LooksTemporary, Plan.Holds, Plan.MayCreate;
    r := Done;
    var k := 0;
    assert p[..0] == [];
    while k < |p| && r == Done
      invariant k <= |p|
      invariant plan.Holds(m.disk, r.Crashed?) && r != Failed(Conflict)
      invariant KeepsNodes(old(m.disk), m.disk)
      invariant Quiet(old(m.script)) ==> Quiet(m.script) && Undisturbed(old(m.disk), m.disk)
      invariant Quiet(old(m.script)) ==> AddsOnly(old(m.disk), m.disk, p) && !r.Crashed?
      invariant Quiet(old(m.script)) && Clear(old(m.disk), p) ==> r == Done && m.disk.IsDirectory(p[..k])
    {
      k := k + 1;
      assert Parent(p[..k]) == p[..k - 1];
      if p[..k] !in m.disk.nodes {
        MayCreateAbove(plan, p, k, m.token);
        r := MakeDirectory(m, p[..k], plan);
      }
    }
    assert p == p[..|p|];
  }

  /** Every new name is a directory that is the path or above it. */
  ghost predicate AddsOnly(d: Disk, d': Disk, p: Path) {
    && (forall q <- d.nodes :: q in d'.nodes && d'.nodes[q] == d.nodes[q])
    && (forall q <- d'.nodes :: q in d.nodes || (q <= p && d'.nodes[q].Directory?))
    && d'.inodes == d.inodes
  }

  /** Finds a directory, or creates it when that is allowed; anything else at its path is an error. */
  method EnsureDirectory(m: Machine, p: Path, createMissing: bool, recursive: bool, ghost plan: Plan) returns (r: Outcome)
    requires p != [] && plan.MayCreate(p, m.token) && plan.Holds(m.disk, false)
    modifies m
    ensures Quiet(old(m.script)) ==> !r.Crashed?
    ensures KeepsNodes(old(m.disk), m.disk)
    ensures r != Failed(Conflict)
    ensures plan.Holds(m.disk, r.Crashed?)
    ensures r == Done ==> m.disk.IsDirectory(p)
    ensures !createMissing ==> Drifts(old(m.disk), m.disk, m.token, r.Crashed?)
    ensures Quiet(old(m.script)) && !createMissing ==> m.disk == old(m.disk)
    ensures Quiet(old(m.script)) ==>
              Quiet(m.script) && Undisturbed(old(m.disk), m.disk) && AddsOnly(old(m.disk), m.disk, p)
    ensures Quiet(old(m.script)) && Clear(old(m.disk), p)
              && (p in old(m.disk).nodes || (createMissing && (recursive || old(m.disk).IsDirectory(Parent(p)))))
            ==> r == Done
  {
    hide Effect, Quiet, LooksTemporary, Plan.Holds, Plan.MayCreate;
    HoldsLemma(plan, m.disk, m.token, p);
    ghost var d0 := m.disk;
    var status, node := m.Lstat(p);
    PlanDrifts(plan, d0, m.disk, m.token, status.Crashed?);
    r := status;
    if status == Failed(Missing) && createMissing {
      if recursive {
        r := MakeDirectories(m, p, plan);
      } else {
        r := MakeDirectory(m, p, plan);
      }
      if r == Done {
        ghost var d1 := m.disk;
        HoldsLemma(plan, m.disk, m.token, p);
        r, node := m.Lstat(p);
        PlanDrifts(plan, d1, m.disk, m.token, r.Crashed?);
      }
    }
    if r == Done && !node.Directory? {
      r := Failed(Other);
    }
    ClearAt(d0, p);
  }

  lemma ClearAt(d: Disk, p: Path)
    ensures Clear(d, p) && p in d.nodes ==> d.nodes[p].Directory?
  {
    assert p == p[..|p|];
  }

  lemma HoldsLemma(plan: Plan, d: Disk, token: string, p: Path)
    requires plan.Holds(d, false) && plan.MayCreate(p, token)
    ensures d.Valid() && plan.LooksRight(token)
  {
  }

  lemma AddsOnlyChains(d0: Disk, d1: Disk, d2: Disk, p: Path, q: Path)
    requires AddsOnly(d0, d1, q) && AddsOnly(d1, d2, p) && q <= p
    ensures AddsOnly(d0, d2, p)
  {
  }

  lemma ClearStays(d: Disk, d': Disk, p: Path)
    requires AddsOnly(d, d', p) && Clear(d, p)
    ensures Clear(d', p)
  {
  }

  lemma ClearAbove(d: Disk, p: Path, k: nat)
    requires Clear(d, p) && k <= |p|
    ensures Clear(d, p[..k])
  {
    assert forall j :: 0 <= j <= k ==> p[..k][..j] == p[..j];
  }

  ghost predicate IsDirectoryUpTo(d: Disk, p: Path, from: nat, to: nat)
    requires to <= |p|
  {
    forall k :: from <= k <= to ==> d.IsDirectory(p[..k])
  }

  /** Every component of the path from the given depth on is a directory. */
  ghost predicate IsDirectoryFrom(d: Disk, p: Path, from: nat) {
    IsDirectoryUpTo(d, p, from, |p|)
  }

  /** Checks, component by component, that the target's directory is a real directory under the root. */
  method EnsureSafeDestinationDirectories(m: Machine, root: Path, directory: Path, createMissing: bool, ghost plan: Plan)
    returns (r: Outcome)
    requires plan.MayCreate(directory, m.token) && plan.Holds(m.disk, false) && root != []
    modifies m
    ensures Quiet(old(m.script)) ==> !r.Crashed?
    ensures KeepsNodes(old(m.disk), m.disk)
    ensures r != Failed(Conflict)
    ensures plan.Holds(m.disk, r.Crashed?)
    ensures r == Done ==> IsDirectoryFrom(m.disk, directory, |root|)
    ensures !createMissing ==> Drifts(old(m.disk), m.disk, m.token, r.Crashed?)
    ensures Quiet(old(m.script)) && !createMissing ==> m.disk == old(m.disk)
    ensures Quiet(old(m.script)) ==>
              Quiet(m.script) && Undisturbed(old(m.disk), m.disk) && AddsOnly(old(m.disk), m.disk, directory)
    ensures Quiet(old(m.script)) && IsInsideOrEqual(root, directory) && Clear(old(m.disk), directory)
              && (createMissing || IsDirectoryFrom(old(m.disk), directory, |root|))
            ==> r == Done
  {
    hide Effect, Quiet, LooksTemporary, Plan.Holds, Plan.MayCreate, Clear, AddsOnly, Drifts, StartsWithDots;
    SomeFacts(plan, m.disk, directory, m.token);
    if !IsInsideOrEqual(root, directory) {
      return Failed(Other);
    }
    MayCreateAbove(plan, directory, |root|, m.token);
    assert directory[..|root|] == root;
    ghost var d0, script0 := m.disk, m.script;
    r := EnsureDirectory(m, root, createMissing, true, plan);
    ghost var quiet := Quiet(script0) && Clear(d0, directory)
                       && (createMissing || IsDirectoryFrom(d0, directory, |root|));
    if quiet {
      ClearAbove(d0, directory, |root|);
    }
    AddsAbove(d0, m.disk, directory, |root|);
    var k := |root|;
    while k < |directory| && r == Done
      invariant |root| <= k <= |directory|
      invariant plan.Holds(m.disk, r.Crashed?) && r != Failed(Conflict)
      invariant KeepsNodes(old(m.disk), m.disk)
      invariant r == Done ==> IsDirectoryUpTo(m.disk, directory, |root|, k)
      invariant !createMissing ==> Drifts(d0, m.disk, m.token, r.Crashed?)
      invariant Quiet(script0) && !createMissing ==> m.disk == d0
      invariant Quiet(script0) ==> Quiet(m.script) && Undisturbed(d0, m.disk) && AddsOnly(d0, m.disk, directory)
      invariant quiet ==> r == Done
      invariant Quiet(script0) ==> !r.Crashed?
    {
      ghost var d1 := m.disk;
      k := k + 1;
      var current := directory[..k];
      assert Parent(current) == directory[..k - 1];
      MayCreateAbove(plan, directory, k, m.token);
      if quiet {
        ClearStays(d0, d1, directory);
        ClearAbove(d1, directory, k);
      }
      r := EnsureDirectory(m, current, createMissing, false, plan);
      if !createMissing {
        DriftsOn(d0, d1, m.disk, m.token, r.Crashed?);
      }
      if Quiet(script0) {
        AddsAbove(d1, m.disk, directory, k);
        AddsOnlyChains(d0, d1, m.disk, directory, directory);
      }
    }
    if r == Done {
      ghost var d1 := m.disk;
      r := CanonicalPathsCheck(m, plan);
      if Quiet(script0) {
        AddsOnlyChains(d0, d1, m.disk, directory, directory);
      }
      if !createMissing {
        DriftsOn(d0, d1, m.disk, m.token, r.Crashed?);
      }
    }
  }

  lemma SomeFacts(plan: Plan, d: Disk, p: Path, token: string)
    requires plan.Holds(d, false) && plan.MayCreate(p, token)
    ensures d.Valid() && plan.LooksRight(token)
    ensures AddsOnly(d, d, p) && Drifts(d, d, token, false) && Undisturbed(d, d)
  {
  }

  lemma AddsAbove(d: Disk, d': Disk, p: Path, k: nat)
    requires k <= |p|
    ensures AddsOnly(d, d', p[..k]) ==> AddsOnly(d, d', p)
  {
  }

  /** Resolves the root and the directory. Without symbolic links on the way both resolve to themselves. */
  method CanonicalPathsCheck(m: Machine, ghost plan: Plan) returns (r: Outcome)
    requires plan.Holds(m.disk, false) && plan.LooksRight(m.token)
    modifies m
    ensures r != Failed(Conflict)
    ensures plan.Holds(m.disk, r.Crashed?)
    ensures Drifts(old(m.disk), m.disk, m.token, r.Crashed?)
    ensures Quiet(old(m.script)) ==> r == Done && m.disk == old(m.disk) && Quiet(m.script)
  {
    ghost var d := m.disk;
    r := m.Idle(Other);
    PlanDrifts(plan, d, m.disk, m.token, r.Crashed?);
  }

  // One file

  function PlanOf(start: Disk, target: Path, data: Data, token: string): Plan
    requires target != []
  {
    Plan(start, token, {Temporary(target, token)}, map[target := data])
  }

  lemma PlanAllows(start: Disk, target: Path, data: Data, token: string)
    requires start.Valid() && target != []
    ensures var plan := PlanOf(start, target, data, token);
            && plan.Holds(start, false) && plan.MayCreate(Parent(target), token)
            && plan.LooksRight(token) && target !in plan.temps
  {
    var plan := PlanOf(start, target, data, token);
    TemporariesLookTemporary(target, token);
    TemporaryIsAnother(target, token);
    NothingYet(start, plan.token, plan.temps, plan.copies);
    assert Parent(target) < target && target in plan.copies;
  }

  lemma TemporaryIsAnother(target: Path, token: string)
    requires target != []
    ensures Temporary(target, token) != target
  {
    var name := target[|target| - 1];
    assert |TemporaryName(name, token)| > |name|;
    assert Temporary(target, token)[|target| - 1] == TemporaryName(name, token);
  }

  lemma SourceStays(plan: Plan, d: Disk, source: Path, data: Data)
    requires plan.Holds(d, false) && source !in plan.temps && source in plan.start.nodes
    ensures source in d.nodes && d.nodes[source] == plan.start.nodes[source]
    ensures plan.start.HasCopy(source, data) ==> d.HasCopy(source, data)
  {
  }

  lemma CopyStays(d: Disk, d': Disk, p: Path, data: Data, token: string, crashed: bool)
    requires Drifts(d, d', token, crashed)
    ensures d.HasCopy(p, data) ==> d'.HasCopy(p, data)
    ensures !crashed && d.Valid() && d.HasFile(p, data) ==> d'.HasFile(p, data)
  {
  }

  /** Writes the temporary file and makes its data durable. */
  method WriteTemporary(m: Machine, source: Path, temporary: Path, ghost plan: Plan, ghost data: Data) returns (r: Outcome)
    requires plan.Holds(m.disk, false) && plan.LooksRight(m.token)
    requires temporary != [] && plan.temps == {temporary} && source != temporary
    requires plan.start.HasCopy(source, data)
    modifies m
    ensures Quiet(old(m.script)) ==> !r.Crashed?
    ensures r != Failed(Conflict) && KeepsSynced(old(m.disk), m.disk)
    ensures plan.Holds(m.disk, r.Crashed?)
    ensures r == Done ==> m.disk.HasCopy(temporary, data)
    ensures Quiet(old(m.script)) ==> Quiet(m.script) && Undisturbed(old(m.disk), m.disk)
    ensures Quiet(old(m.script)) ==>
              forall p :: p != temporary ==> (p in m.disk.nodes <==> p in old(m.disk).nodes)
                                             && (p in m.disk.nodes ==> m.disk.nodes[p] == old(m.disk).nodes[p])
    ensures Quiet(old(m.script)) && temporary !in old(m.disk).nodes && old(m.disk).IsDirectory(Parent(temporary))
            ==> r == Done
    ensures Quiet(old(m.script)) && temporary !in old(m.disk).nodes ==> !m.disk.IsDirectory(temporary)
  {
    hide Quiet, LooksTemporary, Effect, Drifts;
    ghost var d0 := m.disk;
    PlanValid(plan, d0);
    ghost var seen: Disk;
    r, seen := m.CopyExclusive(source, temporary);
    PlanDrifts(plan, d0, seen, m.token, r.Crashed?);
    TemporaryWritten(plan, seen, temporary, r.Crashed?);
    SourceStays(plan, d0, source, data);
    CopyStays(d0, seen, source, data, m.token, r.Crashed?);
    if r == Done {
      assert m.disk.HasFile(temporary, data);
      r := SyncTemporary(m, temporary, plan, data);
    }
  }

  lemma PlanValid(plan: Plan, d: Disk)
    requires plan.Holds(d, false)
    ensures d.Valid()
  {
  }

  lemma TemporaryWritten(plan: Plan, d: Disk, temporary: Path, crashed: bool)
    requires plan.Holds(d, crashed) && temporary in plan.temps
    ensures temporary !in d.nodes ==> forall data: Data :: plan.Holds(WithFile(d, temporary, data), crashed)
    ensures d.next !in plan.start.inodes
  {
    hide Effect;
    FreshInode(plan, d, crashed);
    if temporary !in d.nodes {
      forall data: Data
        ensures plan.Holds(WithFile(d, temporary, data), crashed)
      {
        EffectTemporary(plan.start, d, temporary, data, plan.token, plan.temps, plan.copies, crashed);
      }
    }
  }

  lemma FreshInode(plan: Plan, d: Disk, crashed: bool)
    requires plan.Holds(d, crashed)
    ensures d.next !in plan.start.inodes
  {
  }

  method SyncTemporary(m: Machine, temporary: Path, ghost plan: Plan, ghost data: Data) returns (r: Outcome)
    requires plan.Holds(m.disk, false) && plan.LooksRight(m.token) && plan.temps == {temporary}
    requires m.disk.HasFile(temporary, data) && m.disk.nodes[temporary].inode !in plan.start.inodes
    modifies m
    ensures r != Failed(Conflict) && KeepsSynced(old(m.disk), m.disk)
    ensures plan.Holds(m.disk, r.Crashed?)
    ensures r == Done ==> m.disk.HasCopy(temporary, data)
    ensures Quiet(old(m.script)) ==>
              Quiet(m.script) && Undisturbed(old(m.disk), m.disk) && m.disk.nodes == old(m.disk).nodes && r == Done
  {
    hide Quiet, LooksTemporary, Effect, Drifts;
    ghost var d0 := m.disk;
    PlanValid(plan, d0);
    var inode: nat;
    r, inode := m.OpenFile(temporary);
    PlanDrifts(plan, d0, m.disk, m.token, r.Crashed?);
    CopyStays(d0, m.disk, temporary, data, m.token, r.Crashed?);
    NodesStay(d0, m.disk, m.token, r.Crashed?);
    if r == Done {
      ghost var d1 := m.disk;
      ghost var seen: Disk;
      PlanValid(plan, d1);
      r, seen := m.Sync(inode);
      PlanDrifts(plan, d1, seen, m.token, r.Crashed?);
      CopyStays(d1, seen, temporary, data, m.token, r.Crashed?);
      NodesStay(d1, seen, m.token, r.Crashed?);
      if r == Done {
        EffectSync(plan.start, seen, inode, plan.token, plan.temps, plan.copies);
      }
      if !r.Crashed? {
        ghost var d2 := m.disk;
        PlanValid(plan, d2);
        var closed := m.Idle(Other);
        PlanDrifts(plan, d2, m.disk, m.token, closed.Crashed?);
        CopyStays(d2, m.disk, temporary, data, m.token, closed.Crashed?);
        r := if closed == Done then r else closed;
      }
    }
  }

  lemma NodesStay(d: Disk, d': Disk, token: string, crashed: bool)
    requires Drifts(d, d', token, crashed)
    ensures forall p <- d.nodes :: p in d'.nodes && d'.nodes[p] == d.nodes[p]
  {
  }

  method AssertSafeFinalTarget(m: Machine, target: Path) returns (r: Outcome)
    requires m.disk.Valid()
    modifies m
    ensures Drifts(old(m.disk), m.disk, m.token, r.Crashed?)
    ensures r == Failed(Conflict) ==> target in m.disk.nodes
    ensures Quiet(old(m.script)) ==>
              && Quiet(m.script) && m.disk == old(m.disk)
              && r == if target in m.disk.nodes && !m.disk.nodes[target].File? then Failed(Conflict) else Done
  {
    var status, node := m.Lstat(target);
    r := if status == Failed(Missing) then Done
         else if status == Done && !node.File? then Failed(Conflict)
         else status;
  }

  /** Whether the second file is a regular file with the data of the first; errors count as a difference. */
  method FilesHaveSameContent(m: Machine, left: Path, right: Path) returns (r: Outcome, same: bool)
    requires m.disk.Valid()
    modifies m
    ensures Drifts(old(m.disk), m.disk, m.token, r.Crashed?)
    ensures r == Done || r == Crashed
    ensures r == Done && same ==> exists data :: m.disk.HasFile(left, data) && m.disk.HasFile(right, data)
    ensures Quiet(old(m.script)) ==>
              && Quiet(m.script) && m.disk == old(m.disk) && r == Done
              && ((exists data :: m.disk.HasFile(left, data) && m.disk.HasFile(right, data)) ==> same)
  {
    hide Quiet, LooksTemporary, Drifts;
    ghost var d0 := m.disk;
    same := false;
    var status, node := m.Lstat(right);
    r := if status == Crashed then Crashed else Done;
    if status == Done && node.File? {
      ghost var d1 := m.disk;
      var leftRead, leftData := m.ReadFile(left);
      DriftsOn(d0, d1, m.disk, m.token, leftRead.Crashed?);
      r := if leftRead == Crashed then Crashed else Done;
      if leftRead == Done {
        ghost var d2 := m.disk;
        var rightRead, rightData := m.ReadFile(right);
        DriftsOn(d0, d2, m.disk, m.token, rightRead.Crashed?);
        CopyStays(d2, m.disk, left, leftData, m.token, rightRead.Crashed?);
        r := if rightRead == Crashed then Crashed else Done;
        same := rightRead == Done && leftData == rightData;
      }
    }
  }

  /** Another file is at the target. */
  ghost predicate HasOther(d: Disk, target: Path, data: Data) {
    target in d.nodes && d.nodes[target].File? && !d.HasFile(target, data)
  }

  /** The target keeps the data it had, whatever the copy does. */
  lemma OtherStays(plan: Plan, d: Disk, target: Path, data: Data)
    requires plan.Holds(d, false) && target !in plan.temps && plan.start.Valid()
    ensures HasOther(plan.start, target, data) ==> HasOther(d, target, data)
    ensures target in plan.start.nodes && !plan.start.nodes[target].File? ==> target in d.nodes && !d.nodes[target].File?
  {
  }

  /** Links the temporary file to its target; a target that exists is accepted only with the same data. */
  method LinkOrCompare(m: Machine, temporary: Path, target: Path, ghost plan: Plan, ghost data: Data) returns (r: Outcome)
    requires plan.Holds(m.disk, false) && plan.LooksRight(m.token) && target != []
    requires target in plan.copies && plan.copies[target] == data && target !in plan.temps
    requires m.disk.HasCopy(temporary, data)
    modifies m
    ensures Quiet(old(m.script)) ==> !r.Crashed?
    ensures plan.Holds(m.disk, r.Crashed?) && KeepsNodes(old(m.disk), m.disk)
    ensures r == Done ==> m.disk.HasFile(target, data)
    ensures r == Failed(Conflict) ==> target in m.disk.nodes
    ensures Quiet(old(m.script)) ==> Quiet(m.script) && Undisturbed(old(m.disk), m.disk)
    ensures Quiet(old(m.script)) ==>
              forall p :: p != target ==> (p in m.disk.nodes <==> p in old(m.disk).nodes)
                                          && (p in m.disk.nodes ==> m.disk.nodes[p] == old(m.disk).nodes[p])
    ensures Quiet(old(m.script)) && old(m.disk).IsDirectory(Parent(target))
              && (target in old(m.disk).nodes ==> old(m.disk).HasFile(target, data))
            ==> r == Done
    ensures Quiet(old(m.script)) && HasOther(old(m.disk), target, data) ==> r == Failed(Conflict)
  {
    hide Quiet, LooksTemporary, Effect, Drifts;
    ghost var d0 := m.disk;
    PlanValid(plan, d0);
    ghost var seen: Disk;
    r, seen := m.HardLink(temporary, target);
    PlanDrifts(plan, d0, seen, m.token, r.Crashed?);
    CopyStays(d0, seen, temporary, data, m.token, r.Crashed?);
    if r == Done {
      EffectLink(plan.start, seen, temporary, target, plan.token, plan.temps, plan.copies);
    } else if r == Failed(Exists) {
      PlanValid(plan, m.disk);
      var compared, same := FilesHaveSameContent(m, temporary, target);
      PlanDrifts(plan, seen, m.disk, m.token, compared.Crashed?);
      CopyStays(seen, m.disk, temporary, data, m.token, compared.Crashed?);
      NodesStay(seen, m.disk, m.token, compared.Crashed?);
      r := if compared == Crashed then Crashed else if same then Done else Failed(Conflict);
    }
  }

  /** Synchronising a directory may be unsupported, which is not an error. */
  method SyncDirectoryBestEffort(m: Machine) returns (r: Outcome)
    requires m.disk.Valid()
    modifies m
    ensures Drifts(old(m.disk), m.disk, m.token, r.Crashed?)
    ensures r == Done || r == Crashed || r == Failed(Other)
    ensures Quiet(old(m.script)) ==> r == Done && m.disk == old(m.disk) && Quiet(m.script)
  {
    r := m.Idle(Other);
    if r == Failed(Unsupported) {
      r := Done;
    }
  }

  /** Checks the destination again, links the durable temporary file to its target, and synchronises the directory. */
  method PublishTemporary(m: Machine, temporary: Path, target: Path, root: Path, ghost plan: Plan, ghost data: Data)
    returns (r: Outcome)
    requires plan.Holds(m.disk, false) && plan.LooksRight(m.token) && root != [] && target != []
    requires target in plan.copies && plan.copies[target] == data && target !in plan.temps
    requires plan.MayCreate(Parent(target), m.token)
    requires m.disk.HasCopy(temporary, data)
    modifies m
    ensures Quiet(old(m.script)) ==> !r.Crashed?
    ensures plan.Holds(m.disk, r.Crashed?)
    ensures r == Done ==> m.disk.HasFile(target, data) && IsDirectoryFrom(m.disk, Parent(target), |root|)
    ensures r == Failed(Conflict) ==> target in m.disk.nodes
    ensures Quiet(old(m.script)) ==> Quiet(m.script) && Undisturbed(old(m.disk), m.disk)
    ensures Quiet(old(m.script)) ==>
              forall p :: p != target ==> (p in m.disk.nodes <==> p in old(m.disk).nodes)
                                          && (p in m.disk.nodes ==> m.disk.nodes[p] == old(m.disk).nodes[p])
    ensures Quiet(old(m.script)) && IsInsideOrEqual(root, Parent(target)) && Clear(old(m.disk), Parent(target))
              && IsDirectoryFrom(old(m.disk), Parent(target), |root|)
            ==> && ((target in old(m.disk).nodes ==> old(m.disk).HasFile(target, data)) ==> r == Done)
                && (HasOther(old(m.disk), target, data) ==> r == Failed(Conflict))
  {
    hide Quiet, LooksTemporary, Effect, Drifts, Clear, AddsOnly, Plan.MayCreate, StartsWithDots;
    ghost var d0 := m.disk;
    PlanValid(plan, d0);
    assert Parent(target)[..|Parent(target)|] == Parent(target);
    r := EnsureSafeDestinationDirectories(m, root, Parent(target), false, plan);
    CopyStays(d0, m.disk, temporary, data, m.token, r.Crashed?);
    NodesStay(d0, m.disk, m.token, r.Crashed?);
    if r == Done {
      ghost var d1 := m.disk;
      PlanValid(plan, d1);
      r := AssertSafeFinalTarget(m, target);
      PlanDrifts(plan, d1, m.disk, m.token, r.Crashed?);
      CopyStays(d1, m.disk, temporary, data, m.token, r.Crashed?);
      if r == Done {
        r := LinkOrCompare(m, temporary, target, plan, data);
        if r == Done {
          ghost var d2 := m.disk;
          PlanValid(plan, d2);
          r := SyncDirectoryBestEffort(m);
          PlanDrifts(plan, d2, m.disk, m.token, r.Crashed?);
          CopyStays(d2, m.disk, target, data, m.token, r.Crashed?);
        }
      }
    }
  }

  /** A copy can be made beside the target: the source is at rest, and nothing is in the way. */
  ghost predicate CanCopy(d: Disk, source: Path, target: Path, root: Path, data: Data, token: string)
    requires target != []
  {
    && IsOwnerToken(token) && IsStrictlyInside(root, target)
    && d.HasCopy(source, data)
    && Clear(d, Parent(target))
    && !d.IsDirectory(Temporary(target, token))
  }

  /** A file can be migrated: there is nothing at the target but an identical copy. */
  ghost predicate Ready(d: Disk, source: Path, target: Path, root: Path, data: Data, token: string)
    requires target != []
  {
    CanCopy(d, source, target, root, data, token) && (target in d.nodes ==> d.HasCopy(target, data))
  }

  /** What a listed source is: something that exists and, if it is a file, holds this data at rest. */
  ghost predicate IsSource(d: Disk, source: Path, data: Data) {
    source in d.nodes && (d.nodes[source].File? ==> d.HasCopy(source, data))
  }

  /** Everything before the copy itself: the checks, the directories, and the removal of what a crash left. */
  method Prepare(m: Machine, source: Path, target: Path, root: Path, ghost plan: Plan, ghost data: Data) returns (r: Outcome)
    requires m.disk.Valid() && target != [] && root != []
    requires IsSource(m.disk, source, data) && source != Temporary(target, m.token)
    requires plan == PlanOf(m.disk, target, data, m.token)
    modifies m
    ensures Quiet(old(m.script)) ==> !r.Crashed?
    ensures plan.Holds(m.disk, r.Crashed?) && r != Failed(Conflict)
    ensures r == Done ==> plan.start.HasCopy(source, data) && IsStrictlyInside(root, target)
    ensures r == Done ==> !old(m.disk).IsDirectory(Temporary(target, m.token))
    ensures Quiet(old(m.script)) ==> Quiet(m.script) && Undisturbed(old(m.disk), m.disk)
    ensures Quiet(old(m.script)) && CanCopy(old(m.disk), source, target, root, data, m.token) ==>
              r == Done && Prepared(m.disk, target, root, m.token)
    ensures Quiet(old(m.script)) && Ready(old(m.disk), source, target, root, data, m.token) ==>
              target in m.disk.nodes ==> m.disk.HasCopy(target, data)
    ensures r == Done ==> Temporary(target, m.token) !in m.disk.nodes
    ensures Quiet(old(m.script)) && Temporary(target, m.token) in m.disk.nodes ==> Temporary(target, m.token) in old(m.disk).nodes
    ensures !IsOwnerToken(m.token) || !IsStrictlyInside(root, target) ==> r == Failed(Other) && m.disk == old(m.disk)
  {
    hide Quiet, LooksTemporary, Effect, Drifts, Clear, AddsOnly, Plan.MayCreate, StartsWithDots, IsOwnerToken;
    ghost var d0 := m.disk;
    PlanAllows(d0, target, data, m.token);
    var temporary := Temporary(target, m.token);
    if !IsOwnerToken(m.token) || !IsStrictlyInside(root, target) {
      return Failed(Other);
    }
    var node: Node;
    r, node := m.Lstat(source);
    PlanDrifts(plan, d0, m.disk, m.token, r.Crashed?);
    NodesStay(d0, m.disk, m.token, r.Crashed?);
    if r == Done && !node.File? {
      r := Failed(Other);
    }
    if r == Done {
      ghost var d1 := m.disk;
      r := EnsureSafeDestinationDirectories(m, root, Parent(target), true, plan);
      TemporaryNotAdded(d1, m.disk, target, m.token);
      if r == Done {
        ghost var d2 := m.disk;
        if Quiet(old(m.script)) && CanCopy(d0, source, target, root, data, m.token) {
          DirectoriesMade(d1, d2, source, target, root, data, m.token);
        }
        PlanValid(plan, d2);
        ghost var seen: Disk;
        r, seen := m.Remove(temporary);
        PlanDrifts(plan, d2, seen, m.token, r.Crashed?);
        NodesStay(d2, seen, m.token, r.Crashed?);
        if r == Done {
          EffectRemove(plan.start, seen, temporary, plan.token, plan.temps, plan.copies);
          if Quiet(old(m.script)) && CanCopy(d0, source, target, root, data, m.token) {
            TemporaryRemoved(seen, target, root, data, m.token);
          }
        }
      }
    }
  }

  lemma TemporaryNotAdded(d: Disk, d': Disk, target: Path, token: string)
    requires target != []
    ensures AddsOnly(d, d', Parent(target)) && Temporary(target, token) in d'.nodes ==> Temporary(target, token) in d.nodes
  {
    assert |Temporary(target, token)| == |target|;
  }

  /** The directories are there and the temporary name is free. */
  ghost predicate Prepared(d: Disk, target: Path, root: Path, token: string)
    requires target != []
  {
    && Clear(d, Parent(target)) && IsDirectoryFrom(d, Parent(target), |root|)
    && Temporary(target, token) !in d.nodes
  }

  lemma DirectoriesMade(d: Disk, d': Disk, source: Path, target: Path, root: Path, data: Data, token: string)
    requires target != [] && CanCopy(d, source, target, root, data, token)
    requires AddsOnly(d, d', Parent(target))
    ensures Clear(d', Parent(target)) && !d'.IsDirectory(Temporary(target, token))
    ensures (target in d.nodes ==> d.HasCopy(target, data)) ==> (target in d'.nodes ==> d'.HasCopy(target, data))
  {
    TemporaryIsAnother(target, token);
    assert |Temporary(target, token)| == |target|;
  }

  lemma TemporaryRemoved(d: Disk, target: Path, root: Path, data: Data, token: string)
    requires target != []
    requires Clear(d, Parent(target)) && IsDirectoryFrom(d, Parent(target), |root|)
    ensures var d' := Without(d, Temporary(target, token));
            && Prepared(d', target, root, token)
            && ((target in d.nodes ==> d.HasCopy(target, data)) ==> (target in d'.nodes ==> d'.HasCopy(target, data)))
  {
    var temporary := Temporary(target, token);
    TemporaryIsAnother(target, token);
    assert forall k :: 0 <= k <= |Parent(target)| ==> |Parent(target)[..k]| < |temporary|;
  }

  /** One file: everything but a crash ends with the temporary file removed, or with an error that says why not. */
  method CopyBackupFailsafeMigrationFile(m: Machine, source: Path, target: Path, root: Path, ghost data: Data)
    returns (r: Outcome)
    requires m.disk.Valid() && target != [] && root != []
    requires IsSource(m.disk, source, data) && source != Temporary(target, m.token)
    modifies m
    ensures Quiet(old(m.script)) ==> !r.Crashed?
    ensures PlanOf(old(m.disk), target, data, m.token).Holds(m.disk, r.Crashed?)
    ensures r == Done ==> m.disk.HasFile(target, data) && Temporary(target, m.token) !in m.disk.nodes
    ensures r == Done ==> !old(m.disk).IsDirectory(Temporary(target, m.token))
    ensures r == Done ==> IsStrictlyInside(root, target) && IsDirectoryFrom(m.disk, Parent(target), |root|)
    ensures r == Failed(Conflict) ==> target in m.disk.nodes
    ensures Quiet(old(m.script)) ==> Quiet(m.script) && Undisturbed(old(m.disk), m.disk)
    ensures Quiet(old(m.script)) && Ready(old(m.disk), source, target, root, data, m.token) ==> r == Done
    ensures Quiet(old(m.script)) && CanCopy(old(m.disk), source, target, root, data, m.token) && HasOther(old(m.disk), target, data)
            ==> r == Failed(Conflict)
    ensures Quiet(old(m.script)) && Temporary(target, m.token) in m.disk.nodes ==> Temporary(target, m.token) in old(m.disk).nodes
    ensures !IsOwnerToken(m.token) || !IsStrictlyInside(root, target) ==> r == Failed(Other) && m.disk == old(m.disk)
  {
    hide Quiet, LooksTemporary, Effect, Drifts, Clear, AddsOnly, Plan.MayCreate, StartsWithDots, IsOwnerToken,
      IsDirectoryUpTo, CanCopy;
    ghost var d0, script0 := m.disk, m.script;
    ghost var plan := PlanOf(d0, target, data, m.token);
    PlanAllows(d0, target, data, m.token);
    var temporary := Temporary(target, m.token);
    r := Prepare(m, source, target, root, plan, data);
    if r == Done {
      ghost var d1 := m.disk;
      if Quiet(script0) && CanCopy(d0, source, target, root, data, m.token) {
        PreparedParent(d1, target, root, m.token);
      }
      r := WriteTemporary(m, source, temporary, plan, data);
      if Quiet(script0) && CanCopy(d0, source, target, root, data, m.token) {
        StaysPrepared(d1, m.disk, target, root, data, m.token);
      }
      if r == Done {
        OtherStays(plan, m.disk, target, data);
        r := PublishTemporary(m, temporary, target, root, plan, data);
      }
      ghost var d2 := m.disk;
      TemporaryIsAnother(target, m.token);
      r := CleanUp(m, temporary, target, plan, data, r);
      DirectoriesStay(d2, m.disk, Parent(target), |root|);
    }
  }

  lemma DirectoriesStay(d: Disk, d': Disk, p: Path, from: nat)
    requires KeepsDirectories(d, d')
    ensures IsDirectoryFrom(d, p, from) ==> IsDirectoryFrom(d', p, from)
  {
  }

  lemma PreparedParent(d: Disk, target: Path, root: Path, token: string)
    requires target != [] && Prepared(d, target, root, token) && IsStrictlyInside(root, target)
    ensures d.IsDirectory(Parent(Temporary(target, token)))
  {
    assert Parent(Temporary(target, token)) == Parent(target);
    assert Parent(target)[..|Parent(target)|] == Parent(target);
  }

  lemma StaysPrepared(d: Disk, d': Disk, target: Path, root: Path, data: Data, token: string)
    requires target != [] && Prepared(d, target, root, token)
    requires KeepsSynced(d, d')
    requires forall p :: p != Temporary(target, token) ==> (p in d'.nodes <==> p in d.nodes)
                                                           && (p in d'.nodes ==> d'.nodes[p] == d.nodes[p])
    ensures Clear(d', Parent(target)) && IsDirectoryFrom(d', Parent(target), |root|)
    ensures (target in d.nodes ==> d.HasCopy(target, data)) ==> (target in d'.nodes ==> d'.HasFile(target, data))
  {
    var temporary := Temporary(target, token);
    TemporaryIsAnother(target, token);
    assert forall k :: 0 <= k <= |Parent(target)| ==> |Parent(target)[..k]| < |temporary|;
  }

  /** Removes the temporary file; a failure to do so is reported only if nothing else went wrong. */
  method CleanUp(m: Machine, temporary: Path, target: Path, ghost plan: Plan, ghost data: Data, r0: Outcome)
    returns (r: Outcome)
    requires plan.Holds(m.disk, r0.Crashed?) && plan.LooksRight(m.token) && temporary in plan.temps
    requires target !in plan.temps
    requires r0 == Done ==> m.disk.HasFile(target, data)
    requires r0 == Failed(Conflict) ==> target in m.disk.nodes
    modifies m
    ensures Quiet(old(m.script)) && !r0.Crashed? ==> !r.Crashed?
    ensures plan.Holds(m.disk, r.Crashed?) && KeepsDirectories(old(m.disk), m.disk)
    ensures r == Done ==> r0 == Done && m.disk.HasFile(target, data) && temporary !in m.disk.nodes
    ensures r == Failed(Conflict) ==> target in m.disk.nodes
    ensures Quiet(old(m.script)) ==>
              && Quiet(m.script) && Undisturbed(old(m.disk), m.disk)
              && (!r0.Crashed? && !old(m.disk).IsDirectory(temporary) ==> r == r0 && temporary !in m.disk.nodes)
    ensures r0 != Done && r != Crashed ==> r == r0
  {
    hide Quiet, LooksTemporary, Effect, Drifts;
    r := r0;
    if !r0.Crashed? {
      ghost var d := m.disk;
      ghost var seen: Disk;
      PlanValid(plan, d);
      var cleanup: Outcome;
      cleanup, seen := m.Remove(temporary);
      PlanDrifts(plan, d, seen, m.token, cleanup.Crashed?);
      CopyStays(d, seen, target, data, m.token, cleanup.Crashed?);
      NodesStay(d, seen, m.token, cleanup.Crashed?);
      if cleanup == Done {
        EffectRemove(plan.start, seen, temporary, plan.token, plan.temps, plan.copies);
      }
      r := if cleanup.Crashed? then Crashed else if r0 == Done then cleanup else r0;
    }
  }
}
