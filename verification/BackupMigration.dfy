/**
 Moving backup files to a new store: each file is copied to a temporary name, made durable, and
 published under its own name by a hard link, which never replaces anything.
 */
module BackupMigration {
  import opened BackupFileSystem

  predicate StartsWithDots(name: string) {
    |name| >= 2 && name[0] == '.' && name[1] == '.'
  }

  predicate IsInsideOrEqual(parent: Path, child: Path) {
    parent <= child && (parent == child || !StartsWithDots(child[|parent|]))
  }

  predicate IsStrictlyInside(parent: Path, child: Path) {
    parent < child && !StartsWithDots(child[|parent|])
  }

  predicate IsOwnerToken(token: string) {
    1 <= |token| <= 128 && forall c <- token :: 'a' <= c <= 'z' || 'A' <= c <= 'Z' || '0' <= c <= '9' || c == '_' || c == '-'
  }

  /** The text of the relative path from the parent: empty, or names with slashes between them. */
  function RelativeText(names: Path): string {
    if names == [] then "" else if |names| == 1 then names[0] else names[0] + "/" + RelativeText(names[1..])
  }

  /** A path is inside if it continues the parent with text that does not start with two dots, whatever follows them. */
  lemma InsideIff(parent: Path, child: Path)
    ensures IsStrictlyInside(parent, child)
       <==> parent < child && !(".." <= RelativeText(child[|parent|..]))
    ensures IsInsideOrEqual(parent, child) <==> child == parent || IsStrictlyInside(parent, child)
  {
    if parent < child {
      var names := child[|parent|..];
      assert names[0] == child[|parent|];
      var text := RelativeText(names);
      assert names[0] <= text;
      if |names| > 1 {
        assert text[|names[0]|] == '/';
      }
    }
  }

  /** Digits, letters, the underscore and the hyphen, by their code points. */
  lemma OwnerTokenIff(token: string)
    ensures IsOwnerToken(token)
       <==> 0 < |token| < 129
            && forall i :: 0 <= i < |token| ==>
                 var n := token[i] as int;
                 48 <= n <= 57 || 65 <= n <= 90 || 97 <= n <= 122 || n == 95 || n == 45
  {
    if IsOwnerToken(token) {
      forall i | 0 <= i < |token|
        ensures var n := token[i] as int; 48 <= n <= 57 || 65 <= n <= 90 || 97 <= n <= 122 || n == 95 || n == 45
      {
        assert token[i] in token;
      }
    }
  }

  // What a migration may do to a disk

  /**
   Nothing that was there is changed or removed except temporary files, no directory is removed at all,
   and everything new is a directory above some target, a complete and durable copy, a temporary file,
   or the work of others.
   */
  ghost predicate Effect(d: Disk, d': Disk, token: string, temps: set<Path>, copies: map<Path, Data>, crashed: bool) {
    && d'.Valid()
    && (forall p <- d.foreign :: p in d'.foreign || p in temps)
    && (forall p <- d'.foreign :: p in d.foreign || !LooksTemporary(p, token))
    && d.next <= d'.next
    && (forall p <- d.nodes :: (p in temps && !d.nodes[p].Directory?) || (p in d'.nodes && d'.nodes[p] == d.nodes[p]))
    && (forall p <- temps :: p in d'.nodes ==>
          d'.nodes[p].File? || (p in d.nodes && d'.nodes[p] == d.nodes[p]) || (d'.IsDirectory(p) && IsAbove(p, copies)))
    && (forall i <- d.inodes :: i in d'.inodes && (d.inodes[i].synced || !crashed ==> d'.inodes[i] == d.inodes[i]))
    && (forall p <- d'.nodes :: p in d.nodes || p in temps || (p in d'.foreign && !LooksTemporary(p, token)) || IsMade(d', p, copies))
  }

  ghost predicate IsMade(d: Disk, p: Path, copies: map<Path, Data>) {
    || (d.IsDirectory(p) && IsAbove(p, copies))
    || (p in copies && d.HasCopy(p, copies[p]))
  }

  ghost predicate IsAbove(p: Path, copies: map<Path, Data>) {
    exists target <- copies :: p < target
  }

  ghost predicate AllLookTemporary(temps: set<Path>, token: string) {
    forall p <- temps :: LooksTemporary(p, token)
  }

  lemma NothingYet(d: Disk, token: string, temps: set<Path>, copies: map<Path, Data>)
    requires d.Valid()
    ensures Effect(d, d, token, temps, copies, false)
  {
  }

  lemma MadeStays(d: Disk, d': Disk, p: Path, copies: map<Path, Data>)
    requires IsMade(d, p, copies) && p in d.nodes && p in d'.nodes && d'.nodes[p] == d.nodes[p]
    requires forall i <- d.inodes :: i in d'.inodes && (d.inodes[i].synced ==> d'.inodes[i] == d.inodes[i])
    ensures IsMade(d', p, copies)
  {
    hide IsAbove;
  }

  lemma EffectDrifts(d0: Disk, d: Disk, d': Disk, token: string, temps: set<Path>, copies: map<Path, Data>, crashed: bool)
    requires Effect(d0, d, token, temps, copies, false) && Drifts(d, d', token, crashed) && AllLookTemporary(temps, token)
    ensures Effect(d0, d', token, temps, copies, crashed)
  {
    hide IsMade, LooksTemporary;
    forall p <- d'.nodes
      ensures p in d0.nodes || p in temps || (p in d'.foreign && !LooksTemporary(p, token)) || IsMade(d', p, copies)
    {
      if p in d.nodes && IsMade(d, p, copies) {
        MadeStays(d, d', p, copies);
      }
    }
  }

  lemma EffectsChain(d0: Disk, d1: Disk, d2: Disk, token: string, temps: set<Path>, copies: map<Path, Data>, c1: bool, c2: bool)
    requires Effect(d0, d1, token, temps, copies, c1) && Effect(d1, d2, token, temps, copies, c2)
    ensures Effect(d0, d2, token, temps, copies, c1 || c2)
  {
    hide IsMade, LooksTemporary;
    forall p <- d2.nodes
      ensures p in d0.nodes || p in temps || (p in d2.foreign && !LooksTemporary(p, token)) || IsMade(d2, p, copies)
    {
      if p in d1.nodes && p !in temps && IsMade(d1, p, copies) {
        MadeStays(d1, d2, p, copies);
      }
    }
  }

  lemma EffectWidens(d: Disk, d': Disk, token: string, temps: set<Path>, copies: map<Path, Data>,
                     temps': set<Path>, copies': map<Path, Data>, crashed: bool)
    requires Effect(d, d', token, temps, copies, crashed)
    requires temps <= temps' && AllLookTemporary(temps', token)
    requires forall p <- copies :: p in copies' && copies'[p] == copies[p]
    ensures Effect(d, d', token, temps', copies', crashed)
  {
    hide LooksTemporary;
    forall p <- d'.nodes | IsMade(d', p, copies)
      ensures IsMade(d', p, copies')
    {
      if IsAbove(p, copies) {
        var target :| target in copies && p < target;
        assert target in copies';
      }
    }
  }

  // One step each

  lemma EffectMkdir(d0: Disk, d: Disk, p: Path, token: string, temps: set<Path>, copies: map<Path, Data>)
    requires Effect(d0, d, token, temps, copies, false) && p !in d.nodes && IsAbove(p, copies)
    ensures Effect(d0, d.(nodes := d.nodes[p := Directory]), token, temps, copies, false)
  {
    hide IsMade, IsAbove, LooksTemporary;
    var d' := d.(nodes := d.nodes[p := Directory]);
    forall q <- d'.nodes
      ensures q in d0.nodes || q in temps || (q in d'.foreign && !LooksTemporary(q, token)) || IsMade(d', q, copies)
    {
      if q == p {
        MadeDirectory(d', p, copies);
      } else if IsMade(d, q, copies) {
        MadeStays(d, d', q, copies);
      }
    }
  }

  lemma MadeDirectory(d: Disk, p: Path, copies: map<Path, Data>)
    requires d.IsDirectory(p) && IsAbove(p, copies)
    ensures IsMade(d, p, copies)
  {
  }

  lemma EffectRemove(d0: Disk, d: Disk, p: Path, token: string, temps: set<Path>, copies: map<Path, Data>)
    requires Effect(d0, d, token, temps, copies, false) && p in temps && !d.IsDirectory(p)
    ensures Effect(d0, Without(d, p), token, temps, copies, false)
  {
    hide IsMade, IsAbove, LooksTemporary;
    var d' := Without(d, p);
    forall q <- d'.nodes
      ensures q in d0.nodes || q in temps || (q in d'.foreign && !LooksTemporary(q, token)) || IsMade(d', q, copies)
    {
      if IsMade(d, q, copies) {
        MadeStays(d, d', q, copies);
      }
    }
  }

  lemma EffectTemporary(d0: Disk, d: Disk, p: Path, data: Data, token: string, temps: set<Path>, copies: map<Path, Data>, crashed: bool)
    requires Effect(d0, d, token, temps, copies, crashed) && p in temps && p !in d.nodes
    ensures Effect(d0, WithFile(d, p, data), token, temps, copies, crashed)
    ensures d.next !in d0.inodes
  {
    hide IsMade, IsAbove, LooksTemporary;
    var d' := WithFile(d, p, data);
    forall q <- d'.nodes
      ensures q in d0.nodes || q in temps || (q in d'.foreign && !LooksTemporary(q, token)) || IsMade(d', q, copies)
    {
      if q in d.nodes && IsMade(d, q, copies) {
        MadeStays(d, d', q, copies);
      }
    }
  }

  lemma EffectSync(d0: Disk, d: Disk, i: nat, token: string, temps: set<Path>, copies: map<Path, Data>)
    requires Effect(d0, d, token, temps, copies, false) && i in d.inodes && i !in d0.inodes
    ensures Effect(d0, d.(inodes := d.inodes[i := d.inodes[i].(synced := true)]), token, temps, copies, false)
  {
    hide IsMade, IsAbove, LooksTemporary;
    var d' := d.(inodes := d.inodes[i := d.inodes[i].(synced := true)]);
    forall q <- d'.nodes
      ensures q in d0.nodes || q in temps || (q in d'.foreign && !LooksTemporary(q, token)) || IsMade(d', q, copies)
    {
      if IsMade(d, q, copies) {
        MadeStays(d, d', q, copies);
      }
    }
  }

  lemma EffectLink(d0: Disk, d: Disk, from: Path, target: Path, token: string, temps: set<Path>, copies: map<Path, Data>)
    requires Effect(d0, d, token, temps, copies, false) && target !in d.nodes
    requires target in copies && d.HasCopy(from, copies[target])
    ensures Effect(d0, d.(nodes := d.nodes[target := d.nodes[from]]), token, temps, copies, false)
  {
    hide IsAbove, LooksTemporary;
    var d' := d.(nodes := d.nodes[target := d.nodes[from]]);
    forall q <- d'.nodes
      ensures q in d0.nodes || q in temps || (q in d'.foreign && !LooksTemporary(q, token)) || IsMade(d', q, copies)
    {
      if q != target && IsMade(d, q, copies) {
        MadeStays(d, d', q, copies);
      }
    }
  }
}
