/** Where a moment belongs in the table of contents: an index by path that agrees with a linear scan. */
module ReaderMomentTargets {
  import opened Wrappers

  datatype Entry = Entry(id: string, path: string)

  datatype Moment = Moment(id: string, sectionPath: string, sectionAnchor: string)

  datatype PathTargets = PathTargets(exactByAnchor: map<string, Entry>, uniqueTarget: Option<Entry>)

  // The linear scan

  function OnPath(toc: seq<Entry>, path: string): seq<Entry> {
    if toc == [] then []
    else OnPath(toc[..|toc| - 1], path) + if toc[|toc| - 1].path == path then [toc[|toc| - 1]] else []
  }

  function FirstWithId(entries: seq<Entry>, id: string): Option<Entry> {
    if entries == [] then None else if entries[0].id == id then Some(entries[0]) else FirstWithId(entries[1..], id)
  }

  /** The first entry on the moment's path with its anchor; failing that, the only entry on the path. */
  function Resolve(moment: Moment, toc: seq<Entry>): Option<Entry> {
    var entries := OnPath(toc, moment.sectionPath);
    var exact := FirstWithId(entries, moment.sectionAnchor);
    if exact.Some? then exact else if |entries| == 1 then Some(entries[0]) else None
  }

  ghost predicate IsOn(toc: seq<Entry>, i: nat, path: string) {
    i < |toc| && toc[i].path == path
  }

  lemma {:induction false} OnPathAre(toc: seq<Entry>, path: string) returns (at: seq<nat>)
    ensures |at| == |OnPath(toc, path)|
    ensures forall k :: 0 <= k < |at| ==> IsOn(toc, at[k], path) && toc[at[k]] == OnPath(toc, path)[k]
    ensures forall j, k :: 0 <= j < k < |at| ==> at[j] < at[k]
    ensures forall i: nat :: IsOn(toc, i, path) ==> i in at
  {
    at := [];
    if toc != [] {
      var last := |toc| - 1;
      at := OnPathAre(toc[..last], path);
      forall i: nat | IsOn(toc, i, path) && i < last
        ensures i in at
      {
        assert IsOn(toc[..last], i, path);
      }
      assert forall k :: 0 <= k < |at| ==> IsOn(toc[..last], at[k], path);
      if toc[last].path == path {
        at := at + [last];
      }
    }
  }

  lemma {:induction false} FirstWithIdIs(entries: seq<Entry>, id: string)
    ensures match FirstWithId(entries, id)
            case None => forall k :: 0 <= k < |entries| ==> entries[k].id != id
            case Some(e) =>
              exists k :: 0 <= k < |entries| && entries[k] == e && e.id == id && forall j :: 0 <= j < k ==> entries[j].id != id
  {
    if entries != [] && entries[0].id != id {
      FirstWithIdIs(entries[1..], id);
      if FirstWithId(entries[1..], id).Some? {
        var k :| 0 <= k < |entries| - 1 && entries[1..][k] == FirstWithId(entries[1..], id).value
                 && forall j :: 0 <= j < k ==> entries[1..][j].id != id;
        assert forall j :: 0 < j < k + 1 ==> entries[j] == entries[1..][j - 1];
        assert entries[k + 1] == FirstWithId(entries, id).value;
      } else {
        assert forall k :: 0 < k < |entries| ==> entries[k] == entries[1..][k - 1];
      }
    }
  }

  /** The entry is the first one on the moment's path that has its anchor. */
  ghost predicate IsFirstExact(toc: seq<Entry>, moment: Moment, i: nat) {
    && IsOn(toc, i, moment.sectionPath) && toc[i].id == moment.sectionAnchor
    && forall j :: 0 <= j < i ==> !(toc[j].path == moment.sectionPath && toc[j].id == moment.sectionAnchor)
  }

  /** The entry is alone on the moment's path, with another anchor. */
  ghost predicate IsOnlyOne(toc: seq<Entry>, moment: Moment, i: nat) {
    && IsOn(toc, i, moment.sectionPath) && toc[i].id != moment.sectionAnchor
    && forall j :: 0 <= j < |toc| && j != i ==> toc[j].path != moment.sectionPath
  }

  /** A moment resolves to the first entry on its path with its anchor, or to the only entry on its path, or to none. */
  lemma ResolveIs(moment: Moment, toc: seq<Entry>)
    ensures match Resolve(moment, toc)
            case Some(e) => exists i :: 0 <= i < |toc| && toc[i] == e && (IsFirstExact(toc, moment, i) || IsOnlyOne(toc, moment, i))
            case None => forall i :: 0 <= i < |toc| ==> !IsFirstExact(toc, moment, i) && !IsOnlyOne(toc, moment, i)
  {
    hide FirstWithId, OnPath;
    var path, anchor := moment.sectionPath, moment.sectionAnchor;
    var entries := OnPath(toc, path);
    var at := OnPathAre(toc, path);
    FirstWithIdIs(entries, anchor);
    if FirstWithId(entries, anchor).Some? {
      var k :| 0 <= k < |entries| && entries[k] == FirstWithId(entries, anchor).value && entries[k].id == anchor
               && forall j :: 0 <= j < k ==> entries[j].id != anchor;
      forall j | 0 <= j < at[k]
        ensures !(toc[j].path == path && toc[j].id == anchor)
      {
        if toc[j].path == path {
          assert IsOn(toc, j, path);
          var l :| 0 <= l < |at| && at[l] == j;
          assert l < k;
        }
      }
      assert IsFirstExact(toc, moment, at[k]);
    } else {
      forall i | 0 <= i < |toc|
        ensures !IsFirstExact(toc, moment, i)
        ensures |entries| != 1 ==> !IsOnlyOne(toc, moment, i)
      {
        if IsOn(toc, i, path) {
          var l :| 0 <= l < |at| && at[l] == i;
          assert entries[l].id != anchor;
          if |entries| > 1 {
            var other := if l == 0 then 1 else 0;
            assert IsOn(toc, at[other], path) && at[other] != i;
          }
        }
      }
      if |entries| == 1 {
        forall j | 0 <= j < |toc| && j != at[0]
          ensures toc[j].path != path
        {
          assert !IsOn(toc, j, path);
        }
        assert IsOnlyOne(toc, moment, at[0]);
      }
    }
  }

  // The index

  ghost predicate IndexesPath(targets: PathTargets, entries: seq<Entry>) {
    && (forall id :: id in targets.exactByAnchor <==> FirstWithId(entries, id).Some?)
    && (forall id :: id in targets.exactByAnchor ==> Some(targets.exactByAnchor[id]) == FirstWithId(entries, id))
    && targets.uniqueTarget == if |entries| == 1 then Some(entries[0]) else None
  }

  ghost predicate Indexes(byPath: map<string, PathTargets>, toc: seq<Entry>) {
    && (forall path :: path in byPath <==> OnPath(toc, path) != [])
    && (forall path :: path in byPath ==> IndexesPath(byPath[path], OnPath(toc, path)))
  }

  lemma {:induction false} FirstWithIdAppend(entries: seq<Entry>, entry: Entry, id: string)
    ensures FirstWithId(entries + [entry], id)
         == if FirstWithId(entries, id).Some? then FirstWithId(entries, id) else if entry.id == id then Some(entry) else None
  {
    if entries == [] {
      assert entries + [entry] == [entry];
    } else {
      assert (entries + [entry])[1..] == entries[1..] + [entry];
      FirstWithIdAppend(entries[1..], entry, id);
    }
  }

  /** One more entry on a path that has some already. */
  lemma ExtendedIndexes(targets: PathTargets, entries: seq<Entry>, entry: Entry)
    requires IndexesPath(targets, entries) && entries != []
    ensures IndexesPath(
              PathTargets(if entry.id in targets.exactByAnchor then targets.exactByAnchor
                          else targets.exactByAnchor[entry.id := entry], None),
              entries + [entry])
  {
    forall id
      ensures FirstWithId(entries + [entry], id)
           == if FirstWithId(entries, id).Some? then FirstWithId(entries, id) else if entry.id == id then Some(entry) else None
    {
      FirstWithIdAppend(entries, entry, id);
    }
  }

  lemma NextOnPath(toc: seq<Entry>, i: nat)
    requires i < |toc|
    ensures forall path :: OnPath(toc[..i + 1], path) == OnPath(toc[..i], path) + if toc[i].path == path then [toc[i]] else []
  {
    assert toc[..i + 1][..i] == toc[..i];
  }

  method IndexReaderMomentTargets(toc: seq<Entry>) returns (byPath: map<string, PathTargets>)
    ensures Indexes(byPath, toc)
  {
    hide FirstWithId, IndexesPath, OnPath;
    byPath := map[];
    NothingIndexed(toc);
    for i := 0 to |toc|
      invariant Indexes(byPath, toc[..i])
    {
      var entry := toc[i];
      NextOnPath(toc, i);
      assert forall path :: OnPath(toc[..i], path) + [] == OnPath(toc[..i], path);
      ghost var before := OnPath(toc[..i], entry.path);
      if entry.path !in byPath {
        FirstEntryIndexes(entry);
        assert before + [entry] == [entry];
        byPath := byPath[entry.path := PathTargets(map[entry.id := entry], Some(entry))];
      } else {
        var existing := byPath[entry.path];
        ExtendedIndexes(existing, before, entry);
        var exact := existing.exactByAnchor;
        if entry.id !in exact {
          exact := exact[entry.id := entry];
        }
        byPath := byPath[entry.path := PathTargets(exact, None)];
      }
    }
    assert toc[..|toc|] == toc;
  }

  lemma NothingIndexed(toc: seq<Entry>)
    ensures Indexes(map[], toc[..0])
  {
  }

  lemma FirstEntryIndexes(entry: Entry)
    ensures IndexesPath(PathTargets(map[entry.id := entry], Some(entry)), [entry])
  {
    assert [entry][1..] == [];
  }

  function ResolveIndexed(moment: Moment, byPath: map<string, PathTargets>): Option<Entry> {
    if moment.sectionPath !in byPath then None
    else
      var targets := byPath[moment.sectionPath];
      if moment.sectionAnchor in targets.exactByAnchor then Some(targets.exactByAnchor[moment.sectionAnchor])
      else targets.uniqueTarget
  }

  /** Looking a moment up in the index is scanning the table of contents for it. */
  lemma IndexAgreesWithScan(moment: Moment, byPath: map<string, PathTargets>, toc: seq<Entry>)
    requires Indexes(byPath, toc)
    ensures ResolveIndexed(moment, byPath) == Resolve(moment, toc)
  {
    if moment.sectionPath in byPath {
      assert IndexesPath(byPath[moment.sectionPath], OnPath(toc, moment.sectionPath));
    }
  }

  method CollectResolvedTargetIds(moments: seq<Moment>, toc: seq<Entry>) returns (ids: set<string>)
    ensures ids == set moment | moment in moments && Resolve(moment, toc).Some? :: Resolve(moment, toc).value.id
  {
    hide Indexes, Resolve, ResolveIndexed;
    var byPath := IndexReaderMomentTargets(toc);
    ids := {};
    for i := 0 to |moments|
      invariant ids == set j | 0 <= j < i && Resolve(moments[j], toc).Some? :: Resolve(moments[j], toc).value.id
    {
      IndexAgreesWithScan(moments[i], byPath, toc);
      var target := ResolveIndexed(moments[i], byPath);
      if target.Some? {
        ids := ids + {target.value.id};
      }
    }
  }

  /** The first moment whose target is the section. */
  method FindReaderMomentForSection(moments: seq<Moment>, toc: seq<Entry>, section: string) returns (found: Option<nat>)
    ensures found.Some? ==>
              && found.value < |moments|
              && Resolve(moments[found.value], toc).Some? && Resolve(moments[found.value], toc).value.id == section
              && forall j :: 0 <= j < found.value ==>
                   !(Resolve(moments[j], toc).Some? && Resolve(moments[j], toc).value.id == section)
    ensures found.None? ==>
              forall j :: 0 <= j < |moments| ==> !(Resolve(moments[j], toc).Some? && Resolve(moments[j], toc).value.id == section)
  {
    hide Indexes, Resolve, ResolveIndexed;
    var byPath := IndexReaderMomentTargets(toc);
    for i := 0 to |moments|
      invariant forall j :: 0 <= j < i ==> !(Resolve(moments[j], toc).Some? && Resolve(moments[j], toc).value.id == section)
    {
      IndexAgreesWithScan(moments[i], byPath, toc);
      var target := ResolveIndexed(moments[i], byPath);
      if target.Some? && target.value.id == section {
        return Some(i);
      }
    }
    return None;
  }
}
