/**
 The file system that a migration runs on: names that lead to inodes, and steps that can fail or be
 cut short by a crash. Other programs may create names between any two steps.
 */
module BackupFileSystem {

  type Data = seq<bv8>

  /** A resolved absolute path, one component after the other. */
  type Path = seq<string>

  datatype Node = File(inode: nat) | Directory | Symlink

  datatype Inode = Inode(data: Data, synced: bool)

  /** `next` is the first inode never used, and `foreign` holds the names that others created. */
  datatype Disk = Disk(nodes: map<Path, Node>, inodes: map<nat, Inode>, next: nat, foreign: set<Path>) {

    ghost predicate Valid() {
      && (forall p <- nodes :: nodes[p].File? ==> nodes[p].inode in inodes)
      && (forall i <- inodes :: i < next)
      && foreign <= nodes.Keys
    }

    ghost predicate HasFile(p: Path, data: Data) {
      p in nodes && nodes[p].File? && nodes[p].inode in inodes && inodes[nodes[p].inode].data == data
    }

    /** A complete file that no crash can damage any more. */
    ghost predicate HasCopy(p: Path, data: Data) {
      p in nodes && nodes[p].File? && nodes[p].inode in inodes && inodes[nodes[p].inode] == Inode(data, true)
    }

    predicate IsDirectory(p: Path) {
      p in nodes && nodes[p].Directory?
    }
  }

  const TEMPORARY_MARKER := ".trauma-failsafe-migrate."

  /** The name of the temporary file next to a target. */
  function TemporaryName(name: string, token: string): string {
    "." + name + TEMPORARY_MARKER + token + ".tmp"
  }

  function Parent(p: Path): Path
    requires p != []
  {
    p[..|p| - 1]
  }

  function Temporary(target: Path, token: string): Path
    requires target != []
  {
    Parent(target) + [TemporaryName(target[|target| - 1], token)]
  }

  predicate EndsWith(s: string, end: string) {
    |end| <= |s| && s[|s| - |end|..] == end
  }

  /** Names with the ending that temporary files of this owner have. */
  predicate LooksTemporary(p: Path, token: string) {
    p != [] && EndsWith(p[|p| - 1], TEMPORARY_MARKER + token + ".tmp")
  }

  lemma TemporariesLookTemporary(target: Path, token: string)
    requires target != []
    ensures LooksTemporary(Temporary(target, token), token)
  {
    var name := "." + target[|target| - 1];
    var end := TEMPORARY_MARKER + token + ".tmp";
    assert TemporaryName(target[|target| - 1], token) == name + end;
  }

  /** Different targets have different temporary files. */
  lemma TemporaryTells(a: Path, b: Path, token: string)
    requires a != [] && b != [] && Temporary(a, token) == Temporary(b, token)
    ensures a == b
  {
    var x, y := a[|a| - 1], b[|b| - 1];
    var t := Temporary(a, token);
    var end := TEMPORARY_MARKER + token + ".tmp";
    var s := t[|t| - 1];
    assert s == "." + x + end == "." + y + end;
    assert x == s[1..|s| - |end|] == y;
    assert a == t[..|t| - 1] + [x] && b == t[..|t| - 1] + [y];
  }

  // Steps of others, and crashes

  datatype Creation = Creation(path: Path, node: Created)

  datatype Created = NewFile(data: Data, synced: bool) | NewDirectory | NewSymlink

  datatype Verdict = Works | Fails(unsupported: bool) | Crashes(damage: map<nat, Data>)

  /** How far a copy gets that does not succeed. */
  datatype Progress = NotStarted | Wrote(length: nat)

  datatype Event = Event(created: seq<Creation>, verdict: Verdict, progress: Progress)

  /** A name that others may create: it is not taken, and does not look like a temporary file of this owner. */
  function AfterCreation(d: Disk, c: Creation, token: string): Disk {
    if c.path in d.nodes || LooksTemporary(c.path, token) then d
    else
      match c.node
      case NewFile(data, synced) =>
        Disk(d.nodes[c.path := File(d.next)], d.inodes[d.next := Inode(data, synced)], d.next + 1, d.foreign + {c.path})
      case NewDirectory => d.(nodes := d.nodes[c.path := Directory], foreign := d.foreign + {c.path})
      case NewSymlink => d.(nodes := d.nodes[c.path := Symlink], foreign := d.foreign + {c.path})
  }

  function AfterCreations(d: Disk, created: seq<Creation>, token: string): Disk
    decreases created
  {
    if created == [] then d else AfterCreations(AfterCreation(d, created[0], token), created[1..], token)
  }

  /** A crash may leave any data in a file that was not synchronised. */
  function Damaged(d: Disk, damage: map<nat, Data>): Disk {
    d.(inodes := map i | i in d.inodes ::
         if i in damage && !d.inodes[i].synced then Inode(damage[i], false) else d.inodes[i])
  }

  /** What can happen to the disk between two steps of one program. */
  ghost predicate Drifts(d: Disk, d': Disk, token: string, crashed: bool) {
    && d'.Valid()
    && d.foreign <= d'.foreign && d.next <= d'.next
    && (forall p <- d'.foreign :: p in d.foreign || !LooksTemporary(p, token))
    && (forall p <- d.nodes :: p in d'.nodes && d'.nodes[p] == d.nodes[p])
    && (forall p <- d'.nodes :: p in d.nodes || (p in d'.foreign && !LooksTemporary(p, token)))
    && (forall i <- d.inodes :: i in d'.inodes && (d.inodes[i].synced || !crashed ==> d'.inodes[i] == d.inodes[i]))
  }

  lemma DriftsOn(a: Disk, b: Disk, c: Disk, token: string, crashed: bool)
    requires Drifts(a, b, token, false) && Drifts(b, c, token, crashed)
    ensures Drifts(a, c, token, crashed)
  {
  }

  lemma CreationDrifts(d: Disk, c: Creation, token: string)
    requires d.Valid()
    ensures Drifts(d, AfterCreation(d, c, token), token, false)
  {
    hide LooksTemporary;
  }

  lemma {:induction false} CreationsDrift(d: Disk, created: seq<Creation>, token: string)
    requires d.Valid()
    ensures Drifts(d, AfterCreations(d, created, token), token, false)
    decreases created
  {
    hide LooksTemporary, AfterCreation;
    if created != [] {
      var first := AfterCreation(d, created[0], token);
      CreationDrifts(d, created[0], token);
      CreationsDrift(first, created[1..], token);
      DriftsOn(d, first, AfterCreations(d, created, token), token, false);
    }
  }

  lemma CrashDrifts(d: Disk, damage: map<nat, Data>, token: string)
    requires d.Valid()
    ensures Drifts(d, Damaged(d, damage), token, true)
  {
  }

  // The machine

  datatype Code = Exists | Missing | Unsupported | Conflict | Other

  datatype Outcome = Done | Failed(code: Code) | Crashed

  /** No step fails or crashes from here on, and nobody else creates anything. */
  predicate Quiet(script: seq<Event>) {
    forall i :: 0 <= i < |script| ==> script[i].created == [] && script[i].verdict == Works
  }

  /** A file system whose future is a script: what others do before each step, and how the step ends. */
  class Machine {
    const token: string
    var disk: Disk
    var script: seq<Event>

    constructor (token: string, disk: Disk, script: seq<Event>)
      ensures this.token == token && this.disk == disk && this.script == script
    {
      this.token, this.disk, this.script := token, disk, script;
    }

    /** Time passes before a step; `seen` is the disk that the step finds. */
    method Pause() returns (verdict: Verdict, progress: Progress)
      requires disk.Valid()
      modifies this
      ensures Drifts(old(disk), disk, token, verdict.Crashes?)
      ensures Quiet(old(script)) ==> verdict == Works && disk == old(disk) && Quiet(script)
    {
      if script == [] {
        return Works, NotStarted;
      }
      var event := script[0];
      script := script[1..];
      CreationsDrift(disk, event.created, token);
      disk := AfterCreations(disk, event.created, token);
      if event.verdict.Crashes? {
        CrashDrifts(disk, event.verdict.damage, token);
        disk := Damaged(disk, event.verdict.damage);
      }
      return event.verdict, event.progress;
    }

    /** A step that changes nothing itself. */
    method Idle(failure: Code) returns (r: Outcome)
      requires disk.Valid()
      modifies this
      ensures Drifts(old(disk), disk, token, r.Crashed?)
      ensures r.Failed? ==> r.code == failure || r.code == Unsupported
      ensures Quiet(old(script)) ==> r == Done && disk == old(disk) && Quiet(script)
    {
      var verdict, _ := Pause();
      r := if verdict.Crashes? then Crashed
           else if verdict.Fails? then Failed(if verdict.unsupported then Unsupported else failure)
           else Done;
    }

    method Lstat(p: Path) returns (r: Outcome, node: Node)
      requires disk.Valid()
      modifies this
      ensures Drifts(old(disk), disk, token, r.Crashed?)
      ensures r.Done? ==> p in disk.nodes && node == disk.nodes[p]
      ensures r == Failed(Missing) ==> p !in disk.nodes
      ensures r.Failed? ==> r.code == Missing || r.code == Other || r.code == Unsupported
      ensures Quiet(old(script)) ==>
                disk == old(disk) && Quiet(script) && r == if p in disk.nodes then Done else Failed(Missing)
    {
      node := Symlink;
      r := Idle(Other);
      if r == Done {
        if p in disk.nodes {
          node := disk.nodes[p];
        } else {
          r := Failed(Missing);
        }
      }
    }

    /** Creates one directory, which must not exist, in an existing one. */
    method Mkdir(p: Path) returns (r: Outcome, ghost seen: Disk)
      requires disk.Valid() && p != []
      modifies this
      ensures r != Failed(Conflict)
      ensures Drifts(old(disk), seen, token, r.Crashed?)
      ensures r == Done ==> p !in seen.nodes && disk == seen.(nodes := seen.nodes[p := Directory])
      ensures r != Done ==> disk == seen
      ensures Quiet(old(script)) ==>
                && seen == old(disk) && Quiet(script) && !r.Crashed?
                && (p !in seen.nodes && seen.IsDirectory(Parent(p)) ==> r == Done)
    {
      r := Idle(Other);
      seen := disk;
      if r == Done {
        if p in disk.nodes {
          r := Failed(Exists);
        } else if !disk.IsDirectory(Parent(p)) {
          r := Failed(Missing);
        } else {
          disk := disk.(nodes := disk.nodes[p := Directory]);
        }
      }
    }

    /** Removes a name if there is one; a directory is left alone. */
    method Remove(p: Path) returns (r: Outcome, ghost seen: Disk)
      requires disk.Valid()
      modifies this
      ensures r != Failed(Conflict)
      ensures Drifts(old(disk), seen, token, r.Crashed?)
      ensures r == Done ==> disk == Without(seen, p) && !seen.IsDirectory(p)
      ensures r != Done ==> disk == seen
      ensures Quiet(old(script)) ==>
                seen == old(disk) && Quiet(script) && !r.Crashed? && (!seen.IsDirectory(p) ==> r == Done)
    {
      r := Idle(Other);
      seen := disk;
      if r == Done {
        if disk.IsDirectory(p) {
          r := Failed(Other);
        } else {
          disk := Without(disk, p);
        }
      }
    }

    /** Copies a file to a name that must be free. A copy that is cut short leaves what it has written. */
    method CopyExclusive(source: Path, target: Path) returns (r: Outcome, ghost seen: Disk)
      requires disk.Valid() && target != []
      modifies this
      ensures r != Failed(Conflict)
      ensures Drifts(old(disk), seen, token, r.Crashed?)
      ensures disk == seen
           || (target !in seen.nodes && exists data :: disk == WithFile(seen, target, data))
      ensures r == Done ==>
                && target !in seen.nodes && source in seen.nodes && seen.nodes[source].File?
                && disk == WithFile(seen, target, seen.inodes[seen.nodes[source].inode].data)
      ensures Quiet(old(script)) ==>
                && seen == old(disk) && Quiet(script) && !r.Crashed?
                && ((source in seen.nodes && seen.nodes[source].File? && target !in seen.nodes
                     && seen.IsDirectory(Parent(target))) ==> r == Done)
    {
      var verdict, progress := Pause();
      seen := disk;
      r := if verdict.Crashes? then Crashed else if verdict.Fails? then Failed(Other) else Done;
      if !(source in disk.nodes && disk.nodes[source].File?) {
        r := if r == Done then Failed(Missing) else r;
      } else if target in disk.nodes {
        r := if r == Done then Failed(Exists) else r;
      } else if !disk.IsDirectory(Parent(target)) {
        r := if r == Done then Failed(Missing) else r;
      } else {
        var data := disk.inodes[disk.nodes[source].inode].data;
        if r == Done {
          disk := WithFile(disk, target, data);
        } else if progress.Wrote? && progress.length <= |data| {
          disk := WithFile(disk, target, data[..progress.length]);
        }
      }
    }

    method OpenFile(p: Path) returns (r: Outcome, inode: nat)
      requires disk.Valid()
      modifies this
      ensures r != Failed(Conflict)
      ensures Drifts(old(disk), disk, token, r.Crashed?)
      ensures r == Done ==> p in disk.nodes && disk.nodes[p] == File(inode) && inode in disk.inodes
      ensures Quiet(old(script)) ==>
                disk == old(disk) && Quiet(script) && !r.Crashed? && (p in disk.nodes && disk.nodes[p].File? ==> r == Done)
    {
      inode := 0;
      r := Idle(Other);
      if r == Done {
        if p in disk.nodes && disk.nodes[p].File? {
          inode := disk.nodes[p].inode;
        } else {
          r := Failed(Missing);
        }
      }
    }

    /** Makes the data of an open file durable. */
    method Sync(inode: nat) returns (r: Outcome, ghost seen: Disk)
      requires disk.Valid() && inode in disk.inodes
      modifies this
      ensures r != Failed(Conflict)
      ensures Drifts(old(disk), seen, token, r.Crashed?)
      ensures r == Done ==>
                inode in seen.inodes && disk == seen.(inodes := seen.inodes[inode := seen.inodes[inode].(synced := true)])
      ensures r != Done ==> disk == seen
      ensures Quiet(old(script)) ==> r == Done && seen == old(disk) && Quiet(script)
    {
      r := Idle(Other);
      seen := disk;
      if r == Done {
        disk := disk.(inodes := disk.inodes[inode := disk.inodes[inode].(synced := true)]);
      }
    }

    /** Gives a file a second name, which must be free, in an existing directory. */
    method HardLink(source: Path, target: Path) returns (r: Outcome, ghost seen: Disk)
      requires disk.Valid() && target != []
      modifies this
      ensures r != Failed(Conflict)
      ensures Drifts(old(disk), seen, token, r.Crashed?)
      ensures r == Done ==>
                && target !in seen.nodes && source in seen.nodes && seen.nodes[source].File?
                && disk == seen.(nodes := seen.nodes[target := seen.nodes[source]])
      ensures r != Done ==> disk == seen
      ensures r == Failed(Exists) ==> target in seen.nodes
      ensures Quiet(old(script)) ==>
                && seen == old(disk) && Quiet(script) && !r.Crashed?
                && ((source in seen.nodes && seen.nodes[source].File? && target !in seen.nodes
                     && seen.IsDirectory(Parent(target))) ==> r == Done)
                && (source in seen.nodes && seen.nodes[source].File? && target in seen.nodes ==> r == Failed(Exists))
    {
      r := Idle(Other);
      seen := disk;
      if r == Done {
        if !(source in disk.nodes && disk.nodes[source].File?) {
          r := Failed(Missing);
        } else if target in disk.nodes {
          r := Failed(Exists);
        } else if !disk.IsDirectory(Parent(target)) {
          r := Failed(Missing);
        } else {
          disk := disk.(nodes := disk.nodes[target := disk.nodes[source]]);
        }
      }
    }

    method ReadFile(p: Path) returns (r: Outcome, data: Data)
      requires disk.Valid()
      modifies this
      ensures r != Failed(Conflict)
      ensures Drifts(old(disk), disk, token, r.Crashed?)
      ensures r == Done ==> disk.HasFile(p, data)
      ensures Quiet(old(script)) ==>
                disk == old(disk) && Quiet(script) && !r.Crashed? && (p in disk.nodes && disk.nodes[p].File? ==> r == Done)
    {
      data := [];
      var inode: nat;
      r, inode := OpenFile(p);
      if r == Done {
        data := disk.inodes[inode].data;
      }
    }
  }

  function Without(d: Disk, p: Path): Disk {
    d.(nodes := d.nodes - {p}, foreign := d.foreign - {p})
  }

  function WithFile(d: Disk, p: Path, data: Data): Disk {
    Disk(d.nodes[p := File(d.next)], d.inodes[d.next := Inode(data, false)], d.next + 1, d.foreign)
  }
}
