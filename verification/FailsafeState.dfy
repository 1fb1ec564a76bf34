/** What the failsafe reads and writes: configuration, stamp, alert row, and what git and the disk say. */
module FailsafeState {
  import opened Wrappers
  import opened FailsafeAlerts

  datatype Config = Config(enabled: bool, projectPath: string, storePath: string, remote: string, branch: string, push: bool)

  datatype Stamp = Stamp(projectPath: string, storePath: string, gitRemote: string, gitRemoteUrl: Option<string>,
                         gitBranch: string, createdAt: int, updatedAt: int)

  datatype Inconsistency = Inconsistency(memoryId: string, missingFile: bool)

  /** The outside world, which may be different at every look. */
  datatype World = World(
    remoteUrls: map<(string, string), string>, branches: map<string, string>, heads: map<string, string>,
    repositories: set<string>, contentStores: set<string>, inconsistent: Option<Inconsistency>)

  function Lookup<K, V>(m: map<K, V>, k: K): Option<V> {
    if k in m then Some(m[k]) else None
  }

  function RemoteUrl(world: World, config: Config): Option<string> {
    Lookup(world.remoteUrls, (config.projectPath, config.remote))
  }

  function Branch(world: World, config: Config): Option<string> {
    Lookup(world.branches, config.projectPath)
  }

  // What happens outside

  /** What happens during one wait: the step may fail, and others may replace the alert row, memories and world. */
  datatype Change = Change(ok: bool, alert: Option<Option<Alert>>, memories: Option<set<string>>, world: Option<World>)

  function MemoriesAfter(memories: set<string>, script: seq<Change>, n: nat): set<string>
    decreases n
  {
    if n == 0 || script == [] then memories
    else MemoriesAfter(if script[0].memories.Some? then script[0].memories.value else memories, script[1..], n - 1)
  }

  /** The world after so many waits in which only others change it. */
  function WorldAfter(world: World, script: seq<Change>, n: nat): World
    decreases n
  {
    if n == 0 || script == [] then world
    else WorldAfter(if script[0].world.Some? then script[0].world.value else world, script[1..], n - 1)
  }

  function AlertAfter(alert: Option<Alert>, script: seq<Change>, n: nat): Option<Alert>
    decreases n
  {
    if n == 0 || script == [] then alert
    else AlertAfter(if script[0].alert.Some? then script[0].alert.value else alert, script[1..], n - 1)
  }

  /** The step with this number, counted from 0, does not fail. */
  predicate StepWorks(script: seq<Change>, n: nat) {
    n < |script| ==> script[n].ok
  }

  predicate AllWork(script: seq<Change>, n: nat) {
    forall i :: 0 <= i < n ==> StepWorks(script, i)
  }

  lemma StepLater(script: seq<Change>, a: nat, b: nat)
    ensures StepWorks(Rest(script, a), b) <==> StepWorks(script, a + b)
  {
  }

  /** Others leave the rows alone, and change nothing outside but the URLs of remotes. */
  predicate ChangesUrlsOnly(change: Change, world: World) {
    && change.alert.None? && change.memories.None?
    && (change.world.Some? ==> change.world.value == world.(remoteUrls := change.world.value.remoteUrls))
  }

  lemma {:induction false} UrlsOnly(memories: set<string>, alert: Option<Alert>, world: World, script: seq<Change>, n: nat)
    requires forall i :: 0 <= i < |script| ==> ChangesUrlsOnly(script[i], world)
    ensures MemoriesAfter(memories, script, n) == memories && AlertAfter(alert, script, n) == alert
    ensures WorldAfter(world, script, n) == world.(remoteUrls := WorldAfter(world, script, n).remoteUrls)
    decreases n
  {
    if n > 0 && script != [] {
      var next := if script[0].world.Some? then script[0].world.value else world;
      forall i | 0 <= i < |script[1..]|
        ensures ChangesUrlsOnly(script[1..][i], next)
      {
        assert script[1..][i] == script[i + 1];
      }
      UrlsOnly(memories, alert, next, script[1..], n - 1);
    }
  }

  function Rest(script: seq<Change>, n: nat): seq<Change> {
    if n <= |script| then script[n..] else []
  }

  lemma {:induction false} WorldAfterAll(world: World, script: seq<Change>, a: nat, b: nat)
    ensures WorldAfter(WorldAfter(world, script, a), Rest(script, a), b) == WorldAfter(world, script, a + b)
    ensures Rest(Rest(script, a), b) == Rest(script, a + b)
    decreases a
  {
    if a > 0 && script != [] {
      WorldAfterAll(if script[0].world.Some? then script[0].world.value else world, script[1..], a - 1, b);
      assert Rest(script[1..], a - 1) == Rest(script, a);
      assert Rest(script[1..], a - 1 + b) == Rest(script, a + b);
    } else if script == [] {
      NothingHappens(world, b);
    }
  }

  lemma RowsAfter(memories: set<string>, alert: Option<Alert>, script: seq<Change>)
    ensures MemoriesAfter(MemoriesAfter(memories, script, 1), Rest(script, 1), 1) == MemoriesAfter(memories, script, 2)
    ensures MemoriesAfter(MemoriesAfter(memories, script, 2), Rest(script, 2), 1) == MemoriesAfter(memories, script, 3)
    ensures AlertAfter(AlertAfter(alert, script, 1), Rest(script, 1), 1) == AlertAfter(alert, script, 2)
    ensures Rest(Rest(script, 1), 1) == Rest(script, 2)
  {
  }

  lemma NothingHappens(world: World, n: nat)
    ensures WorldAfter(world, [], n) == world && Rest([], n) == []
  {
  }

  /** One read of the remote's URL: whether it worked, and the URL that was there. A read that fails says none. */
  datatype UrlRead = UrlRead(worked: bool, there: Option<string>) {
    function Value(): Option<string> {
      if worked then there else None
    }
  }

  /** The read of the URL that is the step with this number, counted from 0. */
  function ReadAt(world: World, script: seq<Change>, n: nat, config: Config): UrlRead {
    UrlRead(n < |script| ==> script[n].ok, RemoteUrl(WorldAfter(world, script, n + 1), config))
  }

  lemma ReadLater(world: World, script: seq<Change>, a: nat, b: nat, config: Config)
    ensures ReadAt(WorldAfter(world, script, a), Rest(script, a), b, config) == ReadAt(world, script, a + b, config)
  {
    WorldAfterAll(world, script, a, b + 1);
  }

  /** No step fails, and nobody changes a remote's URL. */
  predicate IsCalm(world: World, script: seq<Change>) {
    forall i :: 0 <= i < |script| ==>
      script[i].ok && (script[i].world.Some? ==> script[i].world.value.remoteUrls == world.remoteUrls)
  }

  lemma {:induction false} CalmRead(world: World, script: seq<Change>, n: nat, config: Config)
    requires IsCalm(world, script)
    ensures ReadAt(world, script, n, config) == UrlRead(true, RemoteUrl(world, config))
    ensures WorldAfter(world, script, n + 1).remoteUrls == world.remoteUrls
    decreases n
  {
    if script != [] {
      var next := if script[0].world.Some? then script[0].world.value else world;
      assert WorldAfter(world, script, n + 1) == WorldAfter(next, script[1..], n);
      if n > 0 {
        CalmRead(next, script[1..], n - 1, config);
      }
    }
  }

  /** The second read of a check says what the first one said. */
  predicate ReadsAgree(compared: UrlRead, written: UrlRead) {
    if compared.Value().Some? then written.worked && written.there == compared.there
    else !written.worked || written.there.None?
  }

  /** How many steps it takes to see whether there is memory data. */
  function DetectionSteps(memories: set<string>, world: World, script: seq<Change>, stamp: Option<Stamp>, config: Config): nat {
    if MemoriesAfter(memories, script, 1) != {} then 1
    else if config.storePath in WorldAfter(world, script, 2).contentStores
            || stamp.None? || stamp.value.storePath == config.storePath then 2
    else 3
  }

  /** The number of the step in which a check reads the URL that it compares with the stamp. */
  function ComparingStep(memories: set<string>, world: World, script: seq<Change>, stamp: Option<Stamp>, config: Config): nat {
    2 + DetectionSteps(MemoriesAfter(memories, script, 2), WorldAfter(world, script, 2), Rest(script, 2), stamp, config)
  }

  /** Paths, remote name and branch; the remote's URL is compared on its own. */
  predicate SameLocation(a: Stamp, b: Stamp) {
    a.projectPath == b.projectPath && a.storePath == b.storePath && a.gitRemote == b.gitRemote && a.gitBranch == b.gitBranch
  }

  predicate IsLocation(stamp: Stamp, config: Config) {
    && stamp.projectPath == config.projectPath && stamp.storePath == config.storePath
    && stamp.gitRemote == config.remote && stamp.gitBranch == config.branch
  }

  predicate PathsMatch(stamp: Option<Stamp>, config: Config) {
    stamp.Some? && stamp.value.projectPath == config.projectPath && stamp.value.storePath == config.storePath
  }

  predicate IdentityMatches(stamp: Option<Stamp>, config: Config, url: Option<string>, branch: Option<string>) {
    && stamp.Some? && stamp.value.gitRemote == config.remote && stamp.value.gitRemoteUrl == url
    && stamp.value.gitBranch == config.branch && branch == Some(config.branch)
  }

  datatype Decision = KeepPushAlert | ReportPath(previousProject: Option<string>, previousStore: Option<string>) | GoOn

  /** The first part of the environment check: what the stamp and the current location call for. */
  function Decide(stamp: Option<Stamp>, existing: Option<Alert>, memoryData: bool,
                  config: Config, url: Option<string>, branch: Option<string>): Decision
  {
    var paths := PathsMatch(stamp, config);
    var identity := IdentityMatches(stamp, config, url, branch);
    if existing.Some? && existing.value.kind == PushFailed && (stamp.None? || !paths || !identity) then KeepPushAlert
    else if stamp.None? && memoryData then ReportPath(None, None)
    else if stamp.Some? && !paths && memoryData then ReportPath(Some(stamp.value.projectPath), Some(stamp.value.storePath))
    else if stamp.Some? && paths && !identity && memoryData then ReportPath(None, None)
    else GoOn
  }

  /** With memory data, the check goes on only at the stamped location and remote. */
  lemma GoesOnOnlyAtStamp(stamp: Option<Stamp>, existing: Option<Alert>, memoryData: bool,
                          config: Config, url: Option<string>, branch: Option<string>)
    requires memoryData
    ensures Decide(stamp, existing, memoryData, config, url, branch).GoOn?
       <==> stamp.Some? && IsLocation(stamp.value, config) && stamp.value.gitRemoteUrl == url && branch == Some(config.branch)
  {
  }

  predicate SameContent(a: Alert, b: Alert) {
    a == b.(createdAt := a.createdAt, updatedAt := a.updatedAt)
  }

  /** The row after writing an alert: the time of creation survives. */
  function Upserted(row: Option<Alert>, alert: Alert): Alert {
    if row.Some? && row.value.id == alert.id then alert.(createdAt := row.value.createdAt) else alert
  }

  function Stamped(row: Option<Stamp>, config: Config, url: Option<string>, branch: string, now: int): Stamp {
    Stamp(config.projectPath, config.storePath, config.remote, url, branch,
          if row.Some? then row.value.createdAt else now, now)
  }

  function NewAlert(kind: Kind, message: string, previousProject: Option<string>, previousStore: Option<string>,
                    config: Config, url: Option<string>, error: Option<string>, now: int): Alert
  {
    Alert("active", kind, "critical", message, previousProject, previousStore, config.projectPath, config.storePath,
          config.remote, url, config.branch, error, now, now)
  }

  // What is remembered about a run

  /** A write to the stamp: by a check, or by a migration together with the alert it cleared. */
  datatype StampWrite =
    | Refreshed(before: Option<Stamp>, after: Stamp, memoryData: bool, compared: UrlRead, written: UrlRead)
    | Migrated(before: Option<Stamp>, after: Stamp, cleared: Alert, approved: string)

  /** An alert row that was removed, and on whose account. */
  datatype Clearing =
    | ByCheck(row: Alert)
    | ByPushSuccess(row: Alert)
    | ByAction(row: Alert, approved: string, deleted: Option<string>)

  /** The token that an approval of this alert carries. */
  function Generation(hash: string -> string, alert: Alert): string {
    hash(Serialize(alert))
  }

  ghost predicate Injective(hash: string -> string) {
    forall a, b :: hash(a) == hash(b) ==> a == b
  }

  /** One token approves one alert. */
  lemma GenerationNamesOneAlert(hash: string -> string, a: Alert, b: Alert)
    requires Injective(hash) && Generation(hash, a) == Generation(hash, b)
    ensures a == b && GenerationWhere(a, b)
  {
    SerializedAlertsAgreeWithWhere(a, b);
  }

  /** A migrated stamp is the location that the cleared alert named; for drifted paths, with its whole git identity. */
  predicate ApprovedLocation(after: Stamp, alert: Alert) {
    && after.projectPath == alert.currentProjectPath && after.storePath == alert.currentStorePath
    && (alert.kind == PathDrift ==>
          NamesIdentityOf(after, alert))
  }

  /** The stamp has the remote, branch and URL that the alert names. */
  predicate NamesIdentityOf(stamp: Stamp, alert: Alert) {
    stamp.gitRemote == alert.gitRemote && stamp.gitBranch == alert.gitBranch && stamp.gitRemoteUrl == alert.gitRemoteUrl
  }

  predicate IsSoundWrite(hash: string -> string, write: StampWrite) {
    match write
    case Refreshed(before, after, memoryData, compared, written) =>
      && after.gitRemoteUrl == written.Value()
      && (memoryData ==> before.Some? && SameLocation(before.value, after) && before.value.gitRemoteUrl == compared.Value())
    case Migrated(before, after, cleared, approved) =>
      && approved == Generation(hash, cleared)
      && (cleared.kind == PathDrift || cleared.kind == PushFailed)
      && ApprovedLocation(after, cleared)
  }

  predicate IsSoundClearing(hash: string -> string, clearing: Clearing) {
    match clearing
    case ByCheck(row) => row.kind != PushFailed
    case ByPushSuccess(row) => row.kind == PushFailed
    case ByAction(row, approved, deleted) =>
      approved == Generation(hash, row) && (deleted.Some? ==> row.kind == ContentInconsistent)
  }

  /** Each write starts from what the one before it left. */
  predicate Chained(start: Option<Stamp>, writes: seq<StampWrite>, end: Option<Stamp>)
    decreases writes
  {
    if writes == [] then end == start
    else writes[0].before == start && Chained(Some(writes[0].after), writes[1..], end)
  }

  lemma {:induction false} ChainedAppend(start: Option<Stamp>, writes: seq<StampWrite>, end: Option<Stamp>, write: StampWrite)
    requires Chained(start, writes, end) && write.before == end
    ensures Chained(start, writes + [write], Some(write.after))
    decreases writes
  {
    if writes != [] {
      assert (writes + [write])[1..] == writes[1..] + [write];
      ChainedAppend(Some(writes[0].after), writes[1..], end, write);
    }
  }

  /** The writes after a first stretch start from what that stretch left. */
  lemma {:induction false} ChainedRest(start: Option<Stamp>, first: seq<StampWrite>, middle: Option<Stamp>,
                                       rest: seq<StampWrite>, end: Option<Stamp>)
    requires Chained(start, first, middle) && Chained(start, first + rest, end)
    ensures Chained(middle, rest, end)
    decreases first
  {
    if first == [] {
      assert first + rest == rest;
    } else {
      assert (first + rest)[1..] == first[1..] + rest;
      ChainedRest(Some(first[0].after), first[1..], middle, rest, end);
    }
  }

  predicate AllSound(hash: string -> string, writes: seq<StampWrite>) {
    forall i :: 0 <= i < |writes| ==> IsSoundWrite(hash, writes[i])
  }

  /** No migration was applied, and every check that wrote the stamp had found memory data. */
  predicate OnlyChecksWithMemories(writes: seq<StampWrite>) {
    forall i :: 0 <= i < |writes| ==> writes[i].Refreshed? && writes[i].memoryData
  }

  /** In every check that found memory data, the two reads of the URL agree. */
  predicate SteadyReads(writes: seq<StampWrite>) {
    forall i :: 0 <= i < |writes| && writes[i].Refreshed? && writes[i].memoryData ==> ReadsAgree(writes[i].compared, writes[i].written)
  }

  /**
   A check that found memory data keeps the stamped URL exactly when its second read works and finds the
   URL of the first, or, if the stamp has none, when it finds none or fails.
   */
  lemma CheckKeepsUrlIff(hash: string -> string, write: StampWrite)
    requires write.Refreshed? && write.memoryData && IsSoundWrite(hash, write)
    ensures write.after.gitRemoteUrl == write.before.value.gitRemoteUrl <==> ReadsAgree(write.compared, write.written)
  {
  }

  /**
   No silent relocation: while there is memory data, only an applied migration moves the stamped paths,
   remote name or branch; and the stamped URL moves only in a check whose two reads of it disagree.
   */
  lemma {:induction false} NoSilentRelocation(hash: string -> string, start: Option<Stamp>, writes: seq<StampWrite>, end: Option<Stamp>)
    requires AllSound(hash, writes) && Chained(start, writes, end) && OnlyChecksWithMemories(writes)
    ensures start.Some? <==> end.Some?
    ensures start.Some? ==> SameLocation(start.value, end.value)
    ensures start.Some? && SteadyReads(writes) ==> start.value.gitRemoteUrl == end.value.gitRemoteUrl
    decreases writes
  {
    if writes != [] {
      assert IsSoundWrite(hash, writes[0]) && writes[0].memoryData;
      CheckKeepsUrlIff(hash, writes[0]);
      NoSilentRelocation(hash, Some(writes[0].after), writes[1..], end);
    }
  }

  /** The stamp names another location, or another URL. */
  predicate IsMoved(before: Stamp, after: Stamp) {
    !SameLocation(before, after) || before.gitRemoteUrl != after.gitRemoteUrl
  }

  /**
   A stamp that has moved has an applied migration on record, approved for the very alert it cleared,
   unless it is the URL alone that moved, in a check whose two reads of it disagree.
   */
  lemma RelocationIsApproved(hash: string -> string, start: Option<Stamp>, writes: seq<StampWrite>, end: Option<Stamp>)
    requires AllSound(hash, writes) && Chained(start, writes, end)
    requires forall i :: 0 <= i < |writes| && writes[i].Refreshed? ==> writes[i].memoryData
    requires start.Some? && end.Some? && IsMoved(start.value, end.value)
    ensures HasApprovedMigration(hash, writes) || (SameLocation(start.value, end.value) && !SteadyReads(writes))
  {
    if OnlyChecksWithMemories(writes) {
      NoSilentRelocation(hash, start, writes, end);
    } else {
      var i :| 0 <= i < |writes| && !(writes[i].Refreshed? && writes[i].memoryData);
      assert IsSoundWrite(hash, writes[i]);
    }
  }

  /** An applied migration is on record, with the approval of the alert that it cleared, and to where that alert says. */
  predicate HasApprovedMigration(hash: string -> string, writes: seq<StampWrite>) {
    exists i :: 0 <= i < |writes| && writes[i].Migrated? && writes[i].approved == Generation(hash, writes[i].cleared)
                && ApprovedLocation(writes[i].after, writes[i].cleared)
  }
}
