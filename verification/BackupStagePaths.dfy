/** Which paths a backup commits: those that exist, are tracked, or have something tracked beneath them. */
module BackupStagePaths {
  import opened Wrappers

  /** Where a content path belongs: under a stage path, inside the store's internal directories, or nowhere allowed. */
  datatype Resolved = Staged(path: string) | Internal | Refused

  datatype Access = Exists | Missing | Denied

  const ACCESS_BATCH_SIZE: nat := 64

  // Order of strings

  predicate Less(a: string, b: string) {
    if b == "" then false
    else if a == "" then true
    else a[0] < b[0] || (a[0] == b[0] && Less(a[1..], b[1..]))
  }

  predicate AtMost(a: string, b: string) {
    !Less(b, a)
  }

  lemma {:induction false} LessTransitive(a: string, b: string, c: string)
    requires AtMost(a, b) && AtMost(b, c)
    ensures AtMost(a, c)
  {
    if a != "" && b != "" && c != "" && a[0] == b[0] == c[0] {
      LessTransitive(a[1..], b[1..], c[1..]);
    }
  }

  /** What starts with a prefix comes after it, and so does everything in between: it starts with it too. */
  lemma {:induction false} PrefixComesFirst(prefix: string, s: string)
    requires prefix <= s
    ensures AtMost(prefix, s)
  {
    if prefix != "" {
      PrefixComesFirst(prefix[1..], s[1..]);
    }
  }

  lemma {:induction false} BetweenStartsWith(prefix: string, x: string, y: string)
    requires AtMost(prefix, x) && AtMost(x, y) && prefix <= y
    ensures prefix <= x
  {
    if prefix != "" {
      assert x != "" && y != "";
      assert prefix[0] == x[0];
      BetweenStartsWith(prefix[1..], x[1..], y[1..]);
      assert prefix == [prefix[0]] + prefix[1..] && x == [x[0]] + x[1..];
    }
  }

  predicate InOrder(paths: seq<string>) {
    forall i, j :: 0 <= i < j < |paths| ==> AtMost(paths[i], paths[j])
  }

  function Insert(sorted: seq<string>, path: string): seq<string> {
    if sorted == [] || Less(path, sorted[0]) then [path] + sorted else [sorted[0]] + Insert(sorted[1..], path)
  }

  function Sorted(paths: seq<string>): seq<string> {
    if paths == [] then [] else Insert(Sorted(paths[1..]), paths[0])
  }

  lemma {:induction false} InsertKeeps(sorted: seq<string>, path: string)
    ensures forall p :: p in Insert(sorted, path) <==> p == path || p in sorted
  {
    if sorted != [] && !Less(path, sorted[0]) {
      InsertKeeps(sorted[1..], path);
      assert sorted == [sorted[0]] + sorted[1..];
    }
  }

  lemma {:induction false} LessIsAtMost(a: string, b: string)
    requires Less(a, b)
    ensures AtMost(a, b)
  {
    if a != "" && a[0] == b[0] {
      LessIsAtMost(a[1..], b[1..]);
    }
  }

  lemma {:induction false} InsertSorts(sorted: seq<string>, path: string)
    requires InOrder(sorted)
    ensures InOrder(Insert(sorted, path))
  {
    hide Less;
    if sorted != [] {
      if Less(path, sorted[0]) {
        LessIsAtMost(path, sorted[0]);
        forall i | 0 <= i < |sorted|
          ensures AtMost(path, sorted[i])
        {
          if i > 0 {
            LessTransitive(path, sorted[0], sorted[i]);
          }
        }
      } else {
        var rest := Insert(sorted[1..], path);
        InsertSorts(sorted[1..], path);
        InsertKeeps(sorted[1..], path);
        forall i | 0 <= i < |rest|
          ensures AtMost(sorted[0], rest[i])
        {
          assert rest[i] in rest;
        }
      }
    }
  }

  lemma {:induction false} SortedSorts(paths: seq<string>)
    ensures InOrder(Sorted(paths)) && forall p :: p in Sorted(paths) <==> p in paths
  {
    hide InOrder, Insert;
    if paths == [] {
      NothingToSort();
    } else {
      SortedSorts(paths[1..]);
      InsertSorts(Sorted(paths[1..]), paths[0]);
      InsertKeeps(Sorted(paths[1..]), paths[0]);
      assert paths == [paths[0]] + paths[1..];
    }
  }

  lemma NothingToSort()
    ensures InOrder([])
  {
  }

  // Tracked descendants

  ghost predicate HasDescendant(tracked: seq<string>, path: string) {
    exists p :: p in tracked && path + "/" <= p
  }

  /** The binary search finds a tracked path beneath this one exactly when there is one. */
  method HasTrackedDescendant(sortedTracked: seq<string>, stagePath: string) returns (found: bool)
    requires InOrder(sortedTracked)
    ensures found <==> exists p :: p in sortedTracked && stagePath + "/" <= p
  {
    hide Less;
    var prefix := stagePath + "/";
    var low, high := 0, |sortedTracked|;
    while low < high
      invariant 0 <= low <= high <= |sortedTracked|
      invariant forall i :: 0 <= i < low ==> Less(sortedTracked[i], prefix)
      invariant forall i :: high <= i < |sortedTracked| ==> !Less(sortedTracked[i], prefix)
    {
      var middle := (low + high) / 2;
      if Less(sortedTracked[middle], prefix) {
        forall i | 0 <= i < middle
          ensures Less(sortedTracked[i], prefix)
        {
          BelowToo(sortedTracked[i], sortedTracked[middle], prefix);
        }
        low := middle + 1;
      } else {
        forall i | middle <= i < |sortedTracked|
          ensures !Less(sortedTracked[i], prefix)
        {
          if i > middle {
            LessTransitive(prefix, sortedTracked[middle], sortedTracked[i]);
          }
        }
        high := middle;
      }
    }
    found := low < |sortedTracked| && prefix <= sortedTracked[low];
    FirstDecides(sortedTracked, prefix, low);
  }

  lemma BelowToo(a: string, b: string, c: string)
    requires AtMost(a, b) && Less(b, c)
    ensures Less(a, c)
  {
    if !Less(a, c) {
      LessTransitive(c, a, b);
    }
  }

  lemma FirstDecides(sorted: seq<string>, prefix: string, low: nat)
    requires InOrder(sorted) && low <= |sorted|
    requires forall i :: 0 <= i < low ==> Less(sorted[i], prefix)
    requires forall i :: low <= i < |sorted| ==> !Less(sorted[i], prefix)
    ensures (exists p :: p in sorted && prefix <= p) <==> low < |sorted| && prefix <= sorted[low]
  {
    hide Less;
    assert low < |sorted| ==> sorted[low] in sorted;
    if p :| p in sorted && prefix <= p {
      var i :| 0 <= i < |sorted| && sorted[i] == p;
      PrefixComesFirst(prefix, p);
      assert low <= i;
      if low < i {
        BetweenStartsWith(prefix, sorted[low], p);
      }
    }
  }

  // Selecting

  /** First occurrences, in order. */
  function Distinct(paths: seq<string>): seq<string> {
    if paths == [] then []
    else
      var before := Distinct(paths[..|paths| - 1]);
      var path := paths[|paths| - 1];
      if path in before then before else before + [path]
  }

  lemma {:induction false} DistinctIsDistinct(paths: seq<string>)
    ensures forall i, j :: 0 <= i < j < |Distinct(paths)| ==> Distinct(paths)[i] != Distinct(paths)[j]
    ensures forall p :: p in Distinct(paths) <==> p in paths
  {
    if paths != [] {
      DistinctIsDistinct(paths[..|paths| - 1]);
      assert paths == paths[..|paths| - 1] + [paths[|paths| - 1]];
    }
  }

  /** The order is that of the first occurrences; `at` says where they are. */
  lemma {:induction false} DistinctIsFirst(paths: seq<string>) returns (at: seq<nat>)
    ensures |at| == |Distinct(paths)|
    ensures forall k :: 0 <= k < |at| ==> at[k] < |paths| && paths[at[k]] == Distinct(paths)[k] && paths[at[k]] !in paths[..at[k]]
    ensures forall j, k :: 0 <= j < k < |at| ==> at[j] < at[k]
  {
    at := [];
    if paths != [] {
      var last := |paths| - 1;
      at := DistinctIsFirst(paths[..last]);
      DistinctIsDistinct(paths[..last]);
      assert forall k :: 0 <= k < |at| ==> paths[..last][..at[k]] == paths[..at[k]];
      if paths[last] !in paths[..last] {
        at := at + [last];
      }
    }
  }

  function StagedPaths(contentPaths: seq<string>, resolve: string -> Resolved): seq<string> {
    if contentPaths == [] then []
    else
      var last := resolve(contentPaths[|contentPaths| - 1]);
      StagedPaths(contentPaths[..|contentPaths| - 1], resolve) + if last.Staged? then [last.path] else []
  }

  predicate IsStagedAt(contentPaths: seq<string>, resolve: string -> Resolved, i: nat) {
    i < |contentPaths| && resolve(contentPaths[i]).Staged?
  }

  lemma LastStaged(contentPaths: seq<string>, resolve: string -> Resolved)
    requires contentPaths != []
    ensures var last := |contentPaths| - 1;
            StagedPaths(contentPaths, resolve)
            == StagedPaths(contentPaths[..last], resolve)
               + if IsStagedAt(contentPaths, resolve, last) then [resolve(contentPaths[last]).path] else []
  {
  }

  lemma NothingStaged(resolve: string -> Resolved)
    ensures StagedPaths([], resolve) == []
  {
  }

  /** The staged paths are what the staged content paths resolve to, in order; `at` says where these are. */
  lemma {:induction false} StagedPathsAre(contentPaths: seq<string>, resolve: string -> Resolved) returns (at: seq<nat>)
    ensures |at| == |StagedPaths(contentPaths, resolve)|
    ensures forall k :: 0 <= k < |at| ==>
              IsStagedAt(contentPaths, resolve, at[k]) && resolve(contentPaths[at[k]]) == Staged(StagedPaths(contentPaths, resolve)[k])
    ensures forall j, k :: 0 <= j < k < |at| ==> at[j] < at[k]
    ensures forall i: nat :: IsStagedAt(contentPaths, resolve, i) ==> i in at
  {
    hide StagedPaths;
    at := [];
    NothingStaged(resolve);
    if contentPaths != [] {
      var last := |contentPaths| - 1;
      var before := contentPaths[..last];
      at := StagedPathsAre(before, resolve);
      LastStaged(contentPaths, resolve);
      forall i: nat | IsStagedAt(contentPaths, resolve, i) && i < last
        ensures i in at
      {
        assert IsStagedAt(before, resolve, i);
      }
      forall k | 0 <= k < |at|
        ensures IsStagedAt(contentPaths, resolve, at[k]) && contentPaths[at[k]] == before[at[k]]
      {
        assert IsStagedAt(before, resolve, at[k]);
      }
      if IsStagedAt(contentPaths, resolve, last) {
        at := at + [last];
      }
    }
  }

  ghost predicate IsSelected(path: string, access: string -> Access, tracked: seq<string>) {
    access(path) == Exists || path in tracked || HasDescendant(tracked, path)
  }

  /** The selected ones, in order. */
  ghost function Selected(candidates: seq<string>, access: string -> Access, tracked: seq<string>): seq<string> {
    if candidates == [] then []
    else
      var last := candidates[|candidates| - 1];
      Selected(candidates[..|candidates| - 1], access, tracked) + if IsSelected(last, access, tracked) then [last] else []
  }

  lemma {:induction false} AllExistingSelected(candidates: seq<string>, access: string -> Access, tracked: seq<string>)
    requires forall i :: 0 <= i < |candidates| ==> access(candidates[i]) == Exists
    ensures Selected(candidates, access, tracked) == candidates
  {
    if candidates != [] {
      AllExistingSelected(candidates[..|candidates| - 1], access, tracked);
    }
  }

  /** The result keeps order and distinctness, and has exactly the selected candidates. */
  lemma {:induction false} SelectedAreCandidates(candidates: seq<string>, access: string -> Access, tracked: seq<string>)
    ensures forall p :: p in Selected(candidates, access, tracked) <==> p in candidates && IsSelected(p, access, tracked)
    ensures (forall i, j :: 0 <= i < j < |candidates| ==> candidates[i] != candidates[j]) ==>
              forall i, j :: 0 <= i < j < |Selected(candidates, access, tracked)| ==>
                Selected(candidates, access, tracked)[i] != Selected(candidates, access, tracked)[j]
  {
    hide IsSelected;
    if candidates != [] {
      var before := candidates[..|candidates| - 1];
      SelectedAreCandidates(before, access, tracked);
      assert candidates == before + [candidates[|candidates| - 1]];
    }
  }

  /** The selected ones are in the order of the candidates; `at` says where they are. */
  lemma {:induction false} SelectedInOrder(candidates: seq<string>, access: string -> Access, tracked: seq<string>) returns (at: seq<nat>)
    ensures |at| == |Selected(candidates, access, tracked)|
    ensures forall k :: 0 <= k < |at| ==> at[k] < |candidates| && candidates[at[k]] == Selected(candidates, access, tracked)[k]
    ensures forall j, k :: 0 <= j < k < |at| ==> at[j] < at[k]
  {
    hide IsSelected;
    at := [];
    if candidates != [] {
      var last := |candidates| - 1;
      at := SelectedInOrder(candidates[..last], access, tracked);
      if IsSelected(candidates[last], access, tracked) {
        at := at + [last];
      }
    }
  }

  /** A path is selected if a content path is staged there and it exists, is tracked, or has something tracked beneath it. */
  lemma SelectedIff(contentPaths: seq<string>, resolve: string -> Resolved, access: string -> Access, tracked: seq<string>, p: string)
    ensures p in Selected(Distinct(StagedPaths(contentPaths, resolve)), access, tracked)
       <==> && (exists i :: 0 <= i < |contentPaths| && resolve(contentPaths[i]) == Staged(p))
            && (access(p) == Exists || p in tracked || exists t :: t in tracked && p + "/" <= t)
  {
    var staged := StagedPaths(contentPaths, resolve);
    SelectedAreCandidates(Distinct(staged), access, tracked);
    DistinctIsDistinct(staged);
    var at := StagedPathsAre(contentPaths, resolve);
    if i :| 0 <= i < |contentPaths| && resolve(contentPaths[i]) == Staged(p) {
      assert IsStagedAt(contentPaths, resolve, i);
      var k :| 0 <= k < |at| && at[k] == i;
      assert staged[k] == p;
    }
  }

  /** The stage paths of the content paths, each once; nothing if one of them is refused. */
  method Candidates(contentPaths: seq<string>, resolve: string -> Resolved) returns (candidates: Option<seq<string>>)
    ensures candidates.None? <==> exists i :: 0 <= i < |contentPaths| && resolve(contentPaths[i]).Refused?
    ensures candidates.Some? ==> candidates.value == Distinct(StagedPaths(contentPaths, resolve))
  {
    var paths: seq<string> := [];
    for i := 0 to |contentPaths|
      invariant forall j :: 0 <= j < i ==> !resolve(contentPaths[j]).Refused?
      invariant paths == Distinct(StagedPaths(contentPaths[..i], resolve))
    {
      var resolved := resolve(contentPaths[i]);
      assert contentPaths[..i + 1][..i] == contentPaths[..i];
      ghost var before := StagedPaths(contentPaths[..i], resolve);
      match resolved
      case Refused =>
        return None;
      case Internal =>
        assert StagedPaths(contentPaths[..i + 1], resolve) == before;
      case Staged(path) =>
        assert StagedPaths(contentPaths[..i + 1], resolve) == before + [path];
        assert (before + [path])[..|before|] == before;
        if path !in paths {
          paths := paths + [path];
        }
    }
    assert contentPaths[..|contentPaths|] == contentPaths;
    return Some(paths);
  }

  /** Looks at the candidates batch by batch; anything but a missing file is an error. */
  method CheckAccess(candidates: seq<string>, access: string -> Access) returns (ok: bool, existing: set<string>, missing: seq<string>)
    ensures ok <==> forall i :: 0 <= i < |candidates| ==> access(candidates[i]) != Denied
    ensures ok ==> forall i :: 0 <= i < |candidates| ==> (candidates[i] in existing <==> access(candidates[i]) == Exists)
    ensures ok ==> (missing == [] <==> forall i :: 0 <= i < |candidates| ==> access(candidates[i]) == Exists)
  {
    existing, missing := {}, [];
    var index := 0;
    while index < |candidates|
      invariant 0 <= index
      invariant forall i :: 0 <= i < |candidates| && i < index ==> access(candidates[i]) != Denied
      invariant forall i :: 0 <= i < |candidates| && i < index && access(candidates[i]) == Exists ==> candidates[i] in existing
      invariant forall p :: p in existing ==> access(p) == Exists
      invariant missing == [] <==> forall i :: 0 <= i < |candidates| && i < index ==> access(candidates[i]) == Exists
    {
      var end := if index + ACCESS_BATCH_SIZE < |candidates| then index + ACCESS_BATCH_SIZE else |candidates|;
      for i := index to end
        invariant forall j :: 0 <= j < i ==> access(candidates[j]) != Denied
        invariant forall j :: 0 <= j < i && access(candidates[j]) == Exists ==> candidates[j] in existing
        invariant forall p :: p in existing ==> access(p) == Exists
        invariant missing == [] <==> forall j :: 0 <= j < i ==> access(candidates[j]) == Exists
      {
        match access(candidates[i])
        case Denied =>
          return false, existing, missing;
        case Exists =>
          existing := existing + {candidates[i]};
        case Missing =>
          missing := missing + [candidates[i]];
      }
      index := index + ACCESS_BATCH_SIZE;
    }
    ok := true;
  }

  /** The distinct candidates, in order, that exist, are tracked, or have a tracked path beneath them. */
  method ResolveStagePaths(contentPaths: seq<string>, resolve: string -> Resolved, access: string -> Access, tracked: seq<string>)
    returns (selected: Option<seq<string>>)
    ensures selected.Some? ==>
              selected.value == Selected(Distinct(StagedPaths(contentPaths, resolve)), access, tracked)
    ensures selected.None? <==>
              || (exists i :: 0 <= i < |contentPaths| && resolve(contentPaths[i]).Refused?)
              || (exists p :: p in Distinct(StagedPaths(contentPaths, resolve)) && access(p) == Denied)
  {
    var candidates := Candidates(contentPaths, resolve);
    if candidates.None? {
      return None;
    }
    var ok, existing, missing := CheckAccess(candidates.value, access);
    if !ok {
      return None;
    }
    if missing == [] {
      AllExistingSelected(candidates.value, access, tracked);
      return candidates;
    }
    var trackedPaths := Sorted(tracked);
    SortedSorts(tracked);
    var paths: seq<string> := [];
    for i := 0 to |candidates.value|
      invariant paths == Selected(candidates.value[..i], access, tracked)
    {
      var path := candidates.value[i];
      assert candidates.value[..i + 1][..i] == candidates.value[..i];
      var beneath := HasTrackedDescendant(trackedPaths, path);
      assert beneath <==> HasDescendant(tracked, path);
      if path in existing || path in trackedPaths || beneath {
        paths := paths + [path];
      }
    }
    assert candidates.value[..|candidates.value|] == candidates.value;
    return Some(paths);
  }
}
