/**
 The environment check and the recovery actions. Between any two steps the outside world and other
 connections to the database may change what the next step finds.
 */
module FailsafeRecovery {
  import opened Wrappers
  import opened FailsafeAlerts
  import opened FailsafeState
  import opened FailsafeApproval

  datatype CheckResult = CheckOk(alert: Option<Alert>) | Blocked(blocking: Alert) | CheckThrew

  datatype ActionResult = Applied(generation: string) | DryRun(generation: string) | ActionThrew

  /** The rows and the world at the beginning of a check. */
  datatype Found = Found(stamp: Option<Stamp>, alert: Option<Alert>, memories: set<string>, world: World) {
    predicate HasMemoryData(config: Config) {
      || memories != {}
      || config.storePath in world.contentStores
      || (stamp.Some? && stamp.value.storePath in world.contentStores)
    }

    predicate HasStampedPaths(config: Config) {
      stamp.Some? && stamp.value.projectPath == config.projectPath && stamp.value.storePath == config.storePath
    }

    /** The stamp names the configured paths, remote and branch, and the remote's URL and the branch that are there. */
    predicate FitsStamp(config: Config) {
      && HasStampedPaths(config) && stamp.value.gitRemote == config.remote && stamp.value.gitBranch == config.branch
      && stamp.value.gitRemoteUrl == RemoteUrl(world, config) && Branch(world, config) == Some(config.branch)
    }
  }

  /** What an operation does outside the database. */
  datatype Effect =
    | RepositoryInitialised(projectPath: string)
    | FilesCopied(from: string, to: string)
    | Committed(projectPath: string)
    | Pushed(remote: string, branch: string)
    | ConfigRewritten(projectPath: string, storePath: string)

  /** The effects of an applied migration, in order. */
  function MigrationEffects(config: Config, copiedFrom: Option<string>, initialised: bool, files: bool, pushed: bool): seq<Effect> {
    (if copiedFrom.Some? then [FilesCopied(copiedFrom.value, config.storePath)] else [])
    + (if initialised then [RepositoryInitialised(config.projectPath)] else [])
    + (if files then [Committed(config.projectPath)] else [])
    + (if pushed then [Pushed(config.remote, config.branch)] else [])
  }

  datatype Operation =
    | CheckEnvironment(config: Config, now: int)
    | Revert(config: Config, apply: bool, approved: Option<string>, reloaded: Option<Config>)
    | Migrate(config: Config, apply: bool, approved: Option<string>, files: bool, now: int)
    | DeleteMissing(config: Config, apply: bool, approved: Option<string>, now: int)
    | RecordPushFailure(config: Config, error: string, now: int)
    | ClearPushFailure

  class Failsafe {
    const hash: string -> string
    ghost const start: Option<Stamp>
    var stamp: Option<Stamp>
    var alert: Option<Alert>
    var memories: set<string>
    var world: World
    var script: seq<Change>
    var effects: seq<Effect>
    ghost var writes: seq<StampWrite>
    ghost var clearings: seq<Clearing>

    constructor (hash: string -> string, stamp: Option<Stamp>, alert: Option<Alert>, memories: set<string>,
                 world: World, script: seq<Change>)
      ensures Valid() && writes == [] && start == stamp && this.stamp == stamp && this.alert == alert && this.hash == hash
      ensures this.memories == memories && this.world == world && this.script == script
    {
      this.hash, this.start, this.stamp, this.alert := hash, stamp, stamp, alert;
      this.memories, this.world, this.script, effects := memories, world, script, [];
      writes, clearings := [], [];
    }

    /** Everything on record is sound, and the stamp is what the recorded writes left. */
    ghost predicate Valid()
      reads this`stamp, this`writes, this`clearings
    {
      && AllSound(hash, writes) && Chained(start, writes, stamp)
      && forall i :: 0 <= i < |clearings| ==> IsSoundClearing(hash, clearings[i])
    }

    /** No step fails from here on, and nobody changes a remote's URL. */
    predicate Calm()
      reads this`world, this`script
    {
      IsCalm(world, script)
    }

    lemma CalmMeans()
      ensures Calm() <==> IsCalm(world, script)
    {
    }

    // Steps

    ghost function Now(): Moment
      reads this`world, this`alert, this`memories, this`script
    {
      Moment(world, alert, memories, script)
    }

    method Wait() returns (ok: bool)
      modifies this`alert, this`memories, this`world, this`script
      ensures Now() == Later(old(Now()), 1) && (ok <==> Works(old(Now())))
      ensures ok <==> StepWorks(old(script), 0)
      ensures alert == AlertAfter(old(alert), old(script), 1)
      ensures script == Rest(old(script), 1) && world == WorldAfter(old(world), old(script), 1)
      ensures memories == MemoriesAfter(old(memories), old(script), 1)
      ensures old(Calm()) ==> ok && Calm()
      ensures old(script) == [] ==> ok && script == [] && alert == old(alert) && memories == old(memories) && world == old(world)
    {
      ok := true;
      if script != [] {
        var change := script[0];
        script := script[1..];
        ok := change.ok;
        alert := if change.alert.Some? then change.alert.value else alert;
        memories := if change.memories.Some? then change.memories.value else memories;
        world := if change.world.Some? then change.world.value else world;
      }
    }

    /** Reads the remote's URL; an error reads as none. */
    method ReadRemoteUrl(config: Config) returns (url: Option<string>, ghost read: UrlRead)
      modifies this`alert, this`memories, this`world, this`script
      ensures Now() == Later(old(Now()), 1) && url == UrlSeen(old(Now()), config)
      ensures read == ReadAt(old(world), old(script), 0, config) && url == read.Value()
      ensures script == Rest(old(script), 1) && world == WorldAfter(old(world), old(script), 1)
      ensures old(Calm()) ==> Calm()
      ensures old(script) == [] ==>
                && script == [] && alert == old(alert) && memories == old(memories) && world == old(world)
                && url == RemoteUrl(world, config)
    {
      var ok := Wait();
      url := if ok then RemoteUrl(world, config) else None;
      read := UrlRead(ok, RemoteUrl(world, config));
    }

    method ReadBranch(config: Config) returns (branch: Option<string>)
      modifies this`alert, this`memories, this`world, this`script
      ensures Now() == Later(old(Now()), 1) && branch == BranchSeen(old(Now()), config)
      ensures script == Rest(old(script), 1) && world == WorldAfter(old(world), old(script), 1)
      ensures branch == if StepWorks(old(script), 0) then Branch(world, config) else None
      ensures old(Calm()) ==> Calm()
      ensures old(script) == [] ==>
                && script == [] && alert == old(alert) && memories == old(memories) && world == old(world)
                && branch == Branch(world, config)
    {
      var ok := Wait();
      branch := if ok then Branch(world, config) else None;
    }

    /** Whether there is memory data: rows, content in the current store, or content in the stamped one. */
    method DetectMemoryData(config: Config, found: Option<Stamp>) returns (ok: bool, memoryData: bool)
      modifies this`alert, this`memories, this`world, this`script
      ensures var steps := DetectionSteps(old(memories), old(world), old(script), found, config);
              ok ==> script == Rest(old(script), steps) && world == WorldAfter(old(world), old(script), steps)
      ensures MemoriesAfter(old(memories), old(script), 1) != {} && StepWorks(old(script), 0) ==> ok && memoryData
      ensures old(Calm()) ==> Calm()
      ensures old(script) == [] ==>
                && ok && script == [] && alert == old(alert) && memories == old(memories) && world == old(world)
                && (memoryData <==>
                      || old(memories) != {}
                      || config.storePath in old(world).contentStores
                      || (found.Some? && found.value.storePath in old(world).contentStores))
    {
      hide Failsafe.Calm;
      memoryData := false;
      ghost var world0, script0 := world, script;
      WorldAfterAll(world0, script0, 1, 1);
      WorldAfterAll(world0, script0, 2, 1);
      ok := Wait();
      if ok {
        memoryData := memories != {};
        if !memoryData {
          ok := Wait();
          memoryData := config.storePath in world.contentStores;
          if ok && !memoryData && found.Some? && found.value.storePath != config.storePath {
            ok := Wait();
            memoryData := found.value.storePath in world.contentStores;
          }
        }
      }
    }

    /** Writes the alert row, unless it already says the same. */
    method UpsertAlert(input: Alert) returns (row: Option<Alert>)
      modifies this`alert, this`memories, this`world, this`script
      ensures old(Calm()) ==> Calm()
      ensures row.Some? ==> SameContent(row.value, input)
      ensures old(script) == [] ==> row.Some? && alert == row && script == [] && memories == old(memories) && world == old(world)
      ensures old(script) == [] && old(alert).Some? && SameContent(old(alert).value, input) ==> alert == old(alert)
      ensures old(script) == [] && old(alert).Some? && old(alert).value.id == input.id ==>
                row.value.createdAt == old(alert).value.createdAt
      ensures old(script) == [] && (old(alert).None? || old(alert).value.id != input.id) ==> row == Some(input)
      ensures old(script) == [] && (old(alert).None? || !SameContent(old(alert).value, input)) ==>
                row.value.updatedAt == input.updatedAt
    {
      row := None;
      var ok := Wait();
      if ok {
        if alert.Some? && SameContent(alert.value, input) {
          row := alert;
        } else {
          ok := Wait();
          if ok {
            alert := Some(Upserted(alert, input));
            row := alert;
          }
        }
      }
    }

    method Report(config: Config, kind: Kind, message: string, previousProject: Option<string>, previousStore: Option<string>,
                  error: Option<string>, now: int)
      returns (r: CheckResult)
      modifies this`alert, this`memories, this`world, this`script
      ensures old(Calm()) ==> Calm()
      ensures r.Blocked? || r.CheckThrew?
      ensures r.Blocked? ==>
                && r.blocking.kind == kind
                && r.blocking.currentProjectPath == config.projectPath && r.blocking.currentStorePath == config.storePath
                && r.blocking.gitRemote == config.remote && r.blocking.gitBranch == config.branch
                && r.blocking.previousProjectPath == previousProject && r.blocking.previousStorePath == previousStore
                && r.blocking.id == "active" && r.blocking.severity == "critical"
                && r.blocking.message == message && r.blocking.error == error
      ensures old(script) == [] ==>
                && r.Blocked? && alert == Some(r.blocking) && r.blocking.gitRemoteUrl == RemoteUrl(old(world), config)
                && script == [] && memories == old(memories) && world == old(world)
    {
      var url, _ := ReadRemoteUrl(config);
      var row := UpsertAlert(NewAlert(kind, message, previousProject, previousStore, config, url, error, now));
      r := if row.Some? then Blocked(row.value) else CheckThrew;
    }

    /** The stamp a check writes; the remote's URL is read again for it. */
    method UpsertCurrentStamp(config: Config, now: int, ghost memoryData: bool, ghost compared: UrlRead)
      returns (ok: bool)
      requires Valid()
      requires memoryData ==> stamp.Some? && IsLocation(stamp.value, config) && stamp.value.gitRemoteUrl == compared.Value()
      modifies this
      ensures old(Calm()) ==> Calm()
      ensures Valid() && clearings == old(clearings) && effects == old(effects)
      ensures ok <==> StepWorks(old(script), 0) && StepWorks(old(script), 2)
      ensures !ok ==> stamp == old(stamp) && writes == old(writes)
      ensures ok ==>
                && stamp.Some? && IsLocation(stamp.value, config)
                && writes == old(writes)
                             + [Refreshed(old(stamp), stamp.value, memoryData, compared, ReadAt(old(world), old(script), 1, config))]
                && stamp.value.createdAt == (if old(stamp).Some? then old(stamp).value.createdAt else now)
                && stamp.value.updatedAt == now
      ensures old(script) == [] ==> ok && stamp.value.gitRemoteUrl == RemoteUrl(old(world), config)
      ensures old(script) == [] ==> script == [] && alert == old(alert) && world == old(world) && memories == old(memories)
    {
      hide Failsafe.Calm, Later, UrlSeen, Works;
      ghost var world0, script0 := world, script;
      ok := Wait();
      if ok {
        ReadLater(world0, script0, 1, 0, config);
        WorldAfterAll(world0, script0, 1, 1);
        var url, written := ReadRemoteUrl(config);
        ok := Wait();
        if ok {
          ghost var write := Refreshed(stamp, Stamped(stamp, config, url, config.branch, now), memoryData, compared, written);
          ChainedAppend(start, writes, stamp, write);
          stamp := Some(Stamped(stamp, config, url, config.branch, now));
          writes := writes + [write];
        }
      }
    }

    /** Removes the alert row if it is still the expected one; `seen` is the row that the deletion finds. */
    method ClearAlertGeneration(expected: Alert, ghost clearing: Clearing) returns (ok: bool, cleared: bool, ghost seen: Option<Alert>)
      requires Valid() && clearing.row == expected && IsSoundClearing(hash, clearing)
      modifies this`alert, this`memories, this`world, this`script, this`clearings
      ensures old(Calm()) ==> Calm()
      ensures Valid()
      ensures cleared <==> ok && seen == Some(expected)
      ensures cleared <==> Stands(old(Now()), expected)
      ensures alert == if cleared then None else seen
      ensures clearings == if cleared then old(clearings) + [clearing] else old(clearings)
      ensures old(script) == [] ==> seen == old(alert)
      ensures old(script) == [] ==>
                ok && script == [] && world == old(world) && memories == old(memories) && (cleared <==> old(alert) == Some(expected))
    {
      ok := Wait();
      seen := alert;
      if alert.Some? {
        SerializedAlertsAgreeWithWhere(alert.value, expected);
      }
      cleared := ok && alert.Some? && GenerationWhere(alert.value, expected);
      if cleared {
        alert := None;
        clearings := clearings + [clearing];
      }
    }

    // The environment check

    /** What a check that nobody disturbs goes by. */
    ghost function Facts(): Found
      reads this
    {
      Found(stamp, alert, memories, world)
    }

    /** The check is blocked by a new alert about the current location, and the stamp stays. */
    ghost predicate Reports(found: Found, config: Config, r: CheckResult, kind: Kind,
                            previousProject: Option<string>, previousStore: Option<string>)
      reads this
    {
      && r.Blocked? && alert == Some(r.blocking) && stamp == found.stamp && r.blocking.kind == kind
      && r.blocking.previousProjectPath == previousProject && r.blocking.previousStorePath == previousStore
      && r.blocking.currentProjectPath == config.projectPath && r.blocking.currentStorePath == config.storePath
      && r.blocking.gitRemote == config.remote && r.blocking.gitBranch == config.branch
      && r.blocking.gitRemoteUrl == RemoteUrl(found.world, config)
    }

    /**
     How a check that nobody disturbs ends. A failed push that does not fit the stamp stays. With memory
     data, moved paths are reported with the stamped ones, and a missing stamp or another identity of the
     repository without any; then a missing repository and inconsistent content are reported. Otherwise
     the location is stamped and other alerts are gone.
     */
    ghost predicate FindsOut(found: Found, config: Config, r: CheckResult)
      reads this
    {
      var data := found.HasMemoryData(config);
      if found.alert.Some? && found.alert.value.kind == PushFailed && !found.FitsStamp(config) then
        r.Blocked? && r.blocking == found.alert.value && stamp == found.stamp && alert == found.alert
      else if data && found.stamp.Some? && !found.HasStampedPaths(config) then
        Reports(found, config, r, PathDrift, Some(found.stamp.value.projectPath), Some(found.stamp.value.storePath))
      else if data && !found.FitsStamp(config) then
        Reports(found, config, r, PathDrift, None, None)
      else if data && config.projectPath !in found.world.repositories then
        Reports(found, config, r, RepositoryMissing, None, None)
      else if data && found.world.inconsistent.Some? then
        Reports(found, config, r, ContentInconsistent, None, None)
      else
        && r.CheckOk? && r.alert == alert && stamp.Some? && IsLocation(stamp.value, config)
        && stamp.value.gitRemoteUrl == RemoteUrl(found.world, config)
        && alert == if found.alert.Some? && found.alert.value.kind == PushFailed then found.alert else None
    }

    /** A check makes a repository only where it goes on, finds none, and there is no memory data. */
    predicate InitialisesRepository(found: Found, config: Config) {
      && config.projectPath !in found.world.repositories && !found.HasMemoryData(config)
      && (found.FitsStamp(config) || found.alert.None? || found.alert.value.kind != PushFailed)
    }

    /** Since the first `n` writes, the two reads of every check that found memory data agree. */
    ghost predicate SteadySince(n: nat)
      reads this`writes
    {
      forall i :: n <= i < |writes| && writes[i].Refreshed? && writes[i].memoryData ==> ReadsAgree(writes[i].compared, writes[i].written)
    }

    /** The reads of the URL that a check makes for the comparison and for the stamp. */
    ghost predicate IsReadAt(write: StampWrite, found: Found, script: seq<Change>, config: Config) {
      var step := ComparingStep(found.memories, found.world, script, found.stamp, config);
      && write.Refreshed? && write.compared == ReadAt(found.world, script, step, config)
      && write.written == ReadAt(found.world, script, step + 5, config) && write.after.gitRemoteUrl == write.written.Value()
    }

    /**
     A check that finds memory data and goes on keeps the stamped URL exactly when the read it makes for
     the stamp, five steps after the one it compares with, works and finds the same URL.
     */
    ghost predicate KeepsUrlIff(before: Option<Stamp>, after: Option<Stamp>, found: Found, script: seq<Change>, config: Config) {
      var step := ComparingStep(found.memories, found.world, script, found.stamp, config);
      && before.Some? && after.Some?
      && (after.value.gitRemoteUrl == before.value.gitRemoteUrl
          <==> ReadsAgree(ReadAt(found.world, script, step, config), ReadAt(found.world, script, step + 5, config)))
    }

    /**
     There are memories, everything is in order and no alert is there; and from here on others change no
     more than the URLs of remotes, and no step fails but possibly the read of the URL for the stamp.
     */
    ghost predicate MustGoOn(found: Found, script: seq<Change>, config: Config) {
      && config.enabled && found.memories != {} && found.alert.None?
      && found.stamp.Some? && IsLocation(found.stamp.value, config)
      && found.stamp.value.gitRemoteUrl == ReadAt(found.world, script, 3, config).Value()
      && Branch(found.world, config) == Some(config.branch)
      && config.projectPath in found.world.repositories && found.world.inconsistent.None?
      && forall i :: 0 <= i < |script| ==> (i != 8 ==> script[i].ok) && ChangesUrlsOnly(script[i], found.world)
    }

    method EnsureEnvironment(config: Config, now: int) returns (r: CheckResult)
      requires Valid()
      modifies this
      ensures old(Calm()) ==> Calm()
      ensures Valid() && old(writes) <= writes && old(clearings) <= clearings
      ensures |writes| <= |old(writes)| + 1 && forall i :: |old(writes)| <= i < |writes| ==> writes[i].Refreshed?
      ensures writes == old(writes) ==> stamp == old(stamp)
      ensures forall i :: |old(clearings)| <= i < |clearings| ==> clearings[i].ByCheck?
      ensures r.CheckOk? && config.enabled ==> stamp.Some? && IsLocation(stamp.value, config) && |writes| > |old(writes)|
      ensures |writes| > |old(writes)| ==> stamp == Some(writes[|old(writes)|].after)
      ensures |writes| > |old(writes)| && writes[|old(writes)|].memoryData ==>
                && KeepsUrlIff(old(stamp), stamp, old(Facts()), old(script), config)
                && IsReadAt(writes[|old(writes)|], old(Facts()), old(script), config)
      ensures old(Calm()) ==> SteadySince(|old(writes)|)
      ensures MustGoOn(old(Facts()), old(script), config) ==>
                r.CheckOk? && |writes| > |old(writes)| && writes[|old(writes)|].memoryData
      ensures r.Blocked? ==> r.blocking.kind != PushFailed || !PathsMatch(stamp, config) || writes == old(writes)
      ensures effects == old(effects) || effects == old(effects) + [RepositoryInitialised(config.projectPath)]
      ensures old(script) == [] ==> !r.CheckThrew?
      ensures old(script) == [] && config.enabled ==>
                && FindsOut(old(Facts()), config, r)
                && effects == old(effects) + if InitialisesRepository(old(Facts()), config)
                                             then [RepositoryInitialised(config.projectPath)] else []
    {
      hide Failsafe.Calm, Failsafe.Valid, Failsafe.KeepsUrlIff, Failsafe.IsReadAt, Failsafe.MustGoOn, WorldAfter, MemoriesAfter,
        AlertAfter, ReadAt, ComparingStep, StepWorks, AllWork, Rest;
      ghost var found0, script0 := Facts(), script;
      MustGoOnIsEnabled(found0, script0, config);
      CalmMeans();
      r := CheckOk(None);
      if config.enabled {
        ghost var step := ComparingStep(memories, world, script, stamp, config);
        if MustGoOn(found0, script0, config) {
          MustGoOnMeans(found0, script0, config);
        }
        var ok, existing, memoryData, url, branch, compared := Examine(config);
        if !ok {
          r := CheckThrew;
        } else {
          ReadLater(found0.world, script0, step + 2, 3, config);
          match Decide(stamp, existing, memoryData, config, url, branch) {
            case KeepPushAlert =>
              r := Blocked(existing.value);
            case ReportPath(previousProject, previousStore) =>
              r := Report(config, PathDrift, "Backup location changed", previousProject, previousStore, None, now);
            case GoOn =>
              r := CheckRepository(config, now, existing, memoryData, compared);
              if writes != old(writes) && memoryData {
                StampedWith(old(writes), found0, script0, config);
              }
          }
        }
      }
    }

    lemma MustGoOnIsEnabled(found: Found, script: seq<Change>, config: Config)
      ensures MustGoOn(found, script, config) ==> config.enabled && found.stamp.Some? && IsLocation(found.stamp.value, config)
    {
    }

    /** What it means for the two reads of the URL that the last write is a check's. */
    lemma StampedWith(writes0: seq<StampWrite>, found: Found, script: seq<Change>, config: Config)
      requires Valid() && |writes| == |writes0| + 1 && stamp.Some?
      requires var step := ComparingStep(found.memories, found.world, script, found.stamp, config);
               writes[|writes0|] == Refreshed(found.stamp, stamp.value, true, ReadAt(found.world, script, step, config),
                                              ReadAt(found.world, script, step + 5, config))
      ensures KeepsUrlIff(found.stamp, stamp, found, script, config) && IsReadAt(writes[|writes0|], found, script, config)
      ensures IsCalm(found.world, script) ==> ReadsAgree(writes[|writes0|].compared, writes[|writes0|].written)
    {
      hide ReadAt, ComparingStep;
      if IsCalm(found.world, script) {
        var step := ComparingStep(found.memories, found.world, script, found.stamp, config);
        CalmRead(found.world, script, step, config);
        CalmRead(found.world, script, step + 5, config);
      }
      CheckKeepsUrlIff(hash, writes[|writes0|]);
    }

    lemma MustGoOnMeans(found: Found, script: seq<Change>, config: Config)
      requires MustGoOn(found, script, config)
      ensures ComparingStep(found.memories, found.world, script, found.stamp, config) == 3
      ensures AlertAfter(found.alert, script, 2) == None && MemoriesAfter(found.memories, script, 3) != {}
      ensures AllWork(script, 3) && StepWorks(script, 4)
      ensures Branch(WorldAfter(found.world, script, 5), config) == Some(config.branch)
      ensures ReadAt(found.world, script, 3, config).Value() == found.stamp.value.gitRemoteUrl
      ensures var world, rest := WorldAfter(found.world, script, 5), Rest(script, 5);
              && AllWork(rest, 3) && StepWorks(rest, 4)
              && config.projectPath in WorldAfter(world, rest, 1).repositories
              && WorldAfter(world, rest, 2).inconsistent.None?
    {
      hide ReadAt, WorldAfter, MemoriesAfter, AlertAfter;
      UrlsOnly(found.memories, found.alert, found.world, script, 2);
      UrlsOnly(found.memories, found.alert, found.world, script, 3);
      UrlsOnly(found.memories, found.alert, found.world, script, 5);
      UrlsOnly(found.memories, found.alert, found.world, script, 6);
      UrlsOnly(found.memories, found.alert, found.world, script, 7);
      WorldAfterAll(found.world, script, 5, 1);
      WorldAfterAll(found.world, script, 5, 2);
      RowsAfter(found.memories, found.alert, script);
    }

    /** What a check goes by: alert, memory data, and where git is. */
    method Examine(config: Config)
      returns (ok: bool, existing: Option<Alert>, memoryData: bool, url: Option<string>, branch: Option<string>, ghost compared: UrlRead)
      modifies this`alert, this`memories, this`world, this`script
      ensures old(Calm()) ==> Calm()
      ensures var step := ComparingStep(old(memories), old(world), old(script), stamp, config);
              ok ==>
                && compared == ReadAt(old(world), old(script), step, config) && url == compared.Value()
                && script == Rest(old(script), step + 2) && world == WorldAfter(old(world), old(script), step + 2)
      ensures old(script) == [] ==>
                && ok && script == [] && alert == old(alert) && memories == old(memories) && world == old(world)
                && existing == alert && url == RemoteUrl(world, config) && branch == Branch(world, config)
                && (memoryData <==> Facts().HasMemoryData(config))
      ensures ok ==> existing == AlertAfter(old(alert), old(script), 2)
      ensures MemoriesAfter(old(memories), old(script), 3) != {} && AllWork(old(script), 3) ==>
                && ok && memoryData
                && (StepWorks(old(script), 4) ==> branch == Branch(WorldAfter(old(world), old(script), 5), config))
    {
      hide Failsafe.Calm, WorldAfter, MemoriesAfter, AlertAfter, ReadAt, Rest, StepWorks;
      existing, memoryData, url, branch, compared := None, false, None, None, UrlRead(false, None);
      ghost var world0, script0, memories0, alert0 := world, script, memories, alert;
      WorldAfterAll(world0, script0, 1, 1);
      RowsAfter(memories0, alert0, script0);
      StepLater(script0, 1, 0);
      StepLater(script0, 2, 0);
      assert AllWork(script0, 3) ==> StepWorks(script0, 0) && StepWorks(script0, 1) && StepWorks(script0, 2);
      ok := Wait();
      if ok {
        var found := stamp;
        ok := Wait();
        existing := alert;
        if ok {
          ghost var steps := DetectionSteps(memories, world, script, found, config);
          ok, memoryData := DetectMemoryData(config, found);
          if ok {
            WorldAfterAll(world0, script0, 2, steps);
            ReadLater(world0, script0, 2 + steps, 0, config);
            url, compared := ReadRemoteUrl(config);
            WorldAfterAll(world0, script0, 2 + steps, 1);
            StepLater(script0, 3 + steps, 0);
            branch := ReadBranch(config);
            WorldAfterAll(world0, script0, 3 + steps, 1);
          }
        }
      }
    }

    /** The rest of the check, once the location is not in doubt. */
    method CheckRepository(config: Config, now: int, existing: Option<Alert>, memoryData: bool, ghost compared: UrlRead)
      returns (r: CheckResult)
      requires Valid() && config.enabled
      requires memoryData ==> stamp.Some? && IsLocation(stamp.value, config) && stamp.value.gitRemoteUrl == compared.Value()
      modifies this
      ensures old(Calm()) ==> Calm()
      ensures Valid() && old(clearings) <= clearings
      ensures writes == old(writes) ==> stamp == old(stamp)
      ensures writes == old(writes)
           || exists written ::
                && (memoryData ==> written == ReadAt(old(world), old(script), 3, config))
                && stamp.Some? && writes == old(writes) + [Refreshed(old(stamp), stamp.value, memoryData, compared, written)]
      ensures forall i :: |old(clearings)| <= i < |clearings| ==> clearings[i].ByCheck?
      ensures r.CheckOk? ==> stamp.Some? && IsLocation(stamp.value, config) && writes != old(writes)
      ensures memoryData && existing.None? && AllWork(old(script), 3) && StepWorks(old(script), 4)
              && config.projectPath in WorldAfter(old(world), old(script), 1).repositories
              && WorldAfter(old(world), old(script), 2).inconsistent.None?
              ==> r.CheckOk?
      ensures r.Blocked? ==> r.blocking.kind != PushFailed
      ensures effects == old(effects) || (!memoryData && effects == old(effects) + [RepositoryInitialised(config.projectPath)])
      ensures old(script) == [] ==>
                (effects != old(effects) <==> config.projectPath !in old(world).repositories && !memoryData)
      ensures old(script) == [] && existing == old(alert) ==>
                if memoryData && config.projectPath !in old(world).repositories then
                  Reports(old(Facts()), config, r, RepositoryMissing, None, None)
                else if memoryData && old(world).inconsistent.Some? then
                  Reports(old(Facts()), config, r, ContentInconsistent, None, None)
                else
                  r.CheckOk? && r.alert == alert && stamp.value.gitRemoteUrl == RemoteUrl(old(world), config)
                  && alert == if existing.Some? && existing.value.kind == PushFailed then existing else None
    {
      hide Failsafe.Calm, Failsafe.Valid;
      ghost var world0, script0 := world, script;
      var stop := Inspect(config, now, memoryData);
      if stop.Some? {
        return stop.value;
      }
      if memoryData {
        ReadLater(world0, script0, 2, 1, config);
        StepLater(script0, 2, 0);
        StepLater(script0, 2, 2);
      }
      var ok := UpsertCurrentStamp(config, now, memoryData, compared);
      if !ok {
        return CheckThrew;
      }
      r := ClearOldAlert(existing);
    }

    /** Looks at repository and content. With memory data nothing is repaired: what is wrong is reported. */
    method Inspect(config: Config, now: int, memoryData: bool) returns (stop: Option<CheckResult>)
      modifies this`alert, this`memories, this`world, this`script, this`effects
      ensures old(Calm()) ==> Calm()
      ensures stop.None? && memoryData ==> script == Rest(old(script), 2) && world == WorldAfter(old(world), old(script), 2)
      ensures memoryData && AllWork(old(script), 2)
              && config.projectPath in WorldAfter(old(world), old(script), 1).repositories
              && WorldAfter(old(world), old(script), 2).inconsistent.None?
              ==> stop.None?
      ensures stop.Some? ==> !stop.value.CheckOk? && (stop.value.Blocked? ==> stop.value.blocking.kind != PushFailed)
      ensures effects == old(effects) || (!memoryData && effects == old(effects) + [RepositoryInitialised(config.projectPath)])
      ensures old(script) == [] ==>
                && script == [] && memories == old(memories) && world.remoteUrls == old(world).remoteUrls
                && (effects != old(effects) <==> config.projectPath !in old(world).repositories && !memoryData)
                && if memoryData && config.projectPath !in old(world).repositories then
                     stop.Some? && Reports(old(Facts()), config, stop.value, RepositoryMissing, None, None)
                   else if memoryData && old(world).inconsistent.Some? then
                     stop.Some? && Reports(old(Facts()), config, stop.value, ContentInconsistent, None, None)
                   else stop.None? && alert == old(alert)
    {
      hide Failsafe.Calm;
      stop := None;
      ghost var world0, script0 := world, script;
      WorldAfterAll(world0, script0, 1, 1);
      StepLater(script0, 1, 0);
      var ok := Wait();
      var isRoot := ok && config.projectPath in world.repositories;
      if !isRoot && memoryData {
        var report := Report(config, RepositoryMissing, "Backup repository is not initialized", None, None,
                             Some("projectPath is not a git repository"), now);
        return Some(report);
      }
      if !isRoot {
        ok := BootstrapRepository(config);
        if !ok {
          return Some(CheckThrew);
        }
      }
      if memoryData {
        ok := Wait();
        if !ok {
          return Some(CheckThrew);
        }
        if world.inconsistent.Some? {
          var report := Report(config, ContentInconsistent, "Backup content is inconsistent", None, None,
                               Some(world.inconsistent.value.memoryId), now);
          return Some(report);
        }
      }
    }

    method BootstrapRepository(config: Config) returns (ok: bool)
      modifies this`alert, this`memories, this`world, this`script, this`effects
      ensures old(Calm()) ==> Calm()
      ensures ok <==> Works(old(Now())) && Works(Later(old(Now()), 1))
      ensures ok ==> Now() == WithRepository(Later(old(Now()), 2), config)
      ensures effects == old(effects) + if ok then [RepositoryInitialised(config.projectPath)] else []
      ensures old(script) == [] ==>
                && script == [] && alert == old(alert) && memories == old(memories)
                && world.inconsistent == old(world).inconsistent && world.remoteUrls == old(world).remoteUrls
    {
      LaterAll(Now(), 1, 1);
      ok := Wait();
      if ok {
        ok := Wait();
        if ok {
          world := world.(repositories := world.repositories + {config.projectPath},
                          branches := world.branches[config.projectPath := config.branch]);
          effects := effects + [RepositoryInitialised(config.projectPath)];
        }
      }
    }

    /** After stamping, an alert other than a failed push is cleared if it is still the one that was read. */
    method ClearOldAlert(existing: Option<Alert>) returns (r: CheckResult)
      requires Valid()
      modifies this`alert, this`memories, this`world, this`script, this`clearings
      ensures old(Calm()) ==> Calm()
      ensures Valid() && old(clearings) <= clearings
      ensures forall i :: |old(clearings)| <= i < |clearings| ==> clearings[i].ByCheck?
      ensures r.Blocked? ==> r.blocking.kind != PushFailed
      ensures old(script) == [] && existing == old(alert) ==>
                r.CheckOk? && r.alert == alert
                && alert == if existing.Some? && existing.value.kind == PushFailed then existing else None
      ensures existing.None? ==> r == CheckOk(None)
    {
      if existing.None? || existing.value.kind == PushFailed {
        return CheckOk(existing);
      }
      var ok, cleared, _ := ClearAlertGeneration(existing.value, ByCheck(existing.value));
      if !ok {
        return CheckThrew;
      }
      if cleared {
        return CheckOk(None);
      }
      ok := Wait();
      if !ok {
        return CheckThrew;
      }
      r := if alert.None? then CheckOk(None)
           else if alert.value.kind == PushFailed then CheckOk(alert)
           else Blocked(alert.value);
    }

    // Recording pushes

    method RecordPushFailureAlert(config: Config, error: string, now: int) returns (ok: bool)
      modifies this`alert, this`memories, this`world, this`script
      ensures old(Calm()) ==> Calm()
      ensures old(script) == [] ==>
                && ok && script == [] && memories == old(memories) && world == old(world) && alert.Some?
                && alert.value.kind == PushFailed && alert.value.error == Some(error)
                && alert.value.previousProjectPath == None && alert.value.previousStorePath == None
                && MatchesAction(alert.value, config) && alert.value.gitRemote == config.remote
                && alert.value.gitBranch == config.branch && alert.value.gitRemoteUrl == RemoteUrl(old(world), config)
    {
      var url, _ := ReadRemoteUrl(config);
      var row := UpsertAlert(NewAlert(PushFailed, "Backup push failed", None, None, config, url, Some(error), now));
      ok := row.Some?;
    }

    method ClearPushFailureAlert() returns (ok: bool)
      requires Valid()
      modifies this`alert, this`memories, this`world, this`script, this`clearings
      ensures old(Calm()) ==> Calm()
      ensures Valid() && old(clearings) <= clearings
      ensures forall i :: |old(clearings)| <= i < |clearings| ==> clearings[i].ByPushSuccess?
      ensures old(script) == [] ==>
                ok && alert == if old(alert).Some? && old(alert).value.kind == PushFailed then None else old(alert)
    {
      ok := Wait();
      if ok && alert.Some? && alert.value.kind == PushFailed {
        var found := alert.value;
        var cleared: bool;
        ghost var seen;
        ok, cleared, seen := ClearAlertGeneration(found, ByPushSuccess(found));
      }
    }

    // Recovery actions

    /** The alert to act on; an applied action must name its generation. */
    method RequireApprovedAlert(config: Config, apply: bool, approved: Option<string>) returns (expected: Option<Alert>)
      modifies this`alert, this`memories, this`world, this`script
      ensures old(Calm()) ==> Calm()
      ensures var found := AlertFound(old(Now()), config);
              expected == if found.Some? && (apply ==> IsApproved(hash, old(Now()), approved, found.value)) then found else None
      ensures expected.Some? ==> Now() == Later(old(Now()), if apply then 2 else 1)
      ensures old(script) == [] ==> Now() == old(Now())
    {
      expected := None;
      LaterAll(Now(), 1, 1);
      var ok := Wait();
      if ok && alert.Some? {
        var found := alert.value;
        if apply {
          ok := false;
          if approved == Some(Generation(hash, found)) {
            ok := AssertAlertGeneration(found);
          }
        }
        expected := if ok && MatchesAction(found, config) then Some(found) else None;
      }
    }

    /** Whether the row is still the expected generation. */
    method AssertAlertGeneration(expected: Alert) returns (ok: bool)
      modifies this`alert, this`memories, this`world, this`script
      ensures old(Calm()) ==> Calm()
      ensures Now() == Later(old(Now()), 1) && (ok <==> Stands(old(Now()), expected))
    {
      ok := Wait();
      if alert.Some? {
        SerializedAlertsAgreeWithWhere(alert.value, expected);
      }
      ok := ok && alert.Some? && Serialize(alert.value) == Serialize(expected);
    }

    /** The state of the repository, which must be the project path itself, on the configured branch. */
    method RequireGitState(config: Config) returns (state: Option<GitState>)
      modifies this`alert, this`memories, this`world, this`script
      ensures old(Calm()) ==> Calm()
      ensures state == GitSeen(old(Now()), config)
      ensures state.Some? ==> Now() == Later(old(Now()), 4)
    {
      hide Failsafe.Calm, WorldAfter, AlertAfter, MemoriesAfter, Rest, StepWorks, ReadAt;
      state := None;
      LaterAll(Now(), 1, 1);
      LaterAll(Now(), 2, 1);
      LaterAll(Now(), 3, 1);
      var ok := Wait();
      if ok && config.projectPath in world.repositories {
        var branch := ReadBranch(config);
        var url, _ := ReadRemoteUrl(config);
        if branch == Some(config.branch) {
          ok := Wait();
          state := Some(GitState(url, if ok then Lookup(world.heads, config.projectPath) else None));
        }
      }
    }

    /**
     Stamps the current location and clears the approved alert in one transaction: if the alert is no
     longer the expected one, the stamp is rolled back with it.
     */
    method StampAndClear(config: Config, url: Option<string>, expected: Alert, ghost approved: string, now: int) returns (ok: bool)
      requires Valid() && approved == Generation(hash, expected)
      requires expected.kind == PathDrift || expected.kind == PushFailed
      requires expected.currentProjectPath == config.projectPath && expected.currentStorePath == config.storePath
      requires expected.kind == PathDrift ==>
                 expected.gitRemote == config.remote && expected.gitBranch == config.branch && expected.gitRemoteUrl == url
      modifies this`stamp, this`alert, this`writes, this`clearings
      ensures Valid()
      ensures ok <==> old(alert) == Some(expected)
      ensures !ok ==> stamp == old(stamp) && alert == old(alert) && writes == old(writes) && clearings == old(clearings)
      ensures ok ==>
                && stamp.Some? && IsLocation(stamp.value, config) && stamp.value.gitRemoteUrl == url && alert == None
                && stamp.value.createdAt == (if old(stamp).Some? then old(stamp).value.createdAt else now)
                && stamp.value.updatedAt == now
                && writes == old(writes) + [Migrated(old(stamp), stamp.value, expected, approved)]
                && clearings == old(clearings) + [ByAction(expected, approved, None)]
    {
      var before := stamp;
      stamp := Some(Stamped(before, config, url, config.branch, now));
      if alert.Some? {
        SerializedAlertsAgreeWithWhere(alert.value, expected);
      }
      ok := alert.Some? && GenerationWhere(alert.value, expected);
      if ok {
        alert := None;
        ghost var write := Migrated(before, stamp.value, expected, approved);
        ChainedAppend(start, writes, before, write);
        writes := writes + [write];
        clearings := clearings + [ByAction(expected, approved, None)];
      } else {
        stamp := before;
      }
    }

    /** Pushes if that is configured and there is a remote; a failed push is recorded as an alert and ends the action. */
    method PushRecovered(config: Config, now: int) returns (ok: bool)
      modifies this`alert, this`memories, this`world, this`script, this`effects
      ensures old(Calm()) ==> Calm()
      ensures ok <==> (Pushes(old(Now()), config) ==> Works(Later(old(Now()), 1)))
      ensures ok ==> Now() == Later(old(Now()), PushSteps(old(Now()), config))
      ensures effects == old(effects) + if ok && Pushes(old(Now()), config) then [Pushed(config.remote, config.branch)] else []
    {
      hide Failsafe.Calm, WorldAfter, AlertAfter, MemoriesAfter, StepWorks, ReadAt;
      ok := true;
      LaterAll(Now(), 1, 1);
      NowIsLater();
      if config.push {
        var url, _ := ReadRemoteUrl(config);
        if url.Some? {
          ok := Wait();
          if ok {
            effects := effects + [Pushed(config.remote, config.branch)];
          } else {
            var recorded := RecordPushFailureAlert(config, "git push failed", now);
          }
        }
      }
    }

    lemma NowIsLater()
      ensures Now() == Later(Now(), 0)
    {
      assert Rest(script, 0) == script;
    }

    /** Commits what was migrated; only the head may move while doing so. */
    method CommitMigrated(config: Config, before: GitState, files: bool) returns (after: Option<GitState>)
      modifies this`alert, this`memories, this`world, this`script, this`effects
      ensures old(Calm()) ==> Calm()
      ensures after == CommitSeen(old(Now()), config, before, files)
      ensures after.Some? ==> Now() == Later(old(Now()), CommitSteps(files))
      ensures after.Some? ==> effects == old(effects) + (if files then [Committed(config.projectPath)] else [])
    {
      hide Failsafe.Calm, Later, GitSeen, Works;
      LaterAll(Now(), 4, 1);
      LaterAll(Now(), 5, 4);
      LaterAll(Now(), 9, 1);
      LaterAll(Now(), 10, 4);
      after := None;
      var ok := true;
      if files {
        var state := RequireGitState(config);
        if state != Some(before) {
          return;
        }
        ok := Wait();
        if !ok {
          return;
        }
        state := RequireGitState(config);
        if state != Some(before) {
          return;
        }
        ok := Wait();
        if !ok {
          return;
        }
        effects := effects + [Committed(config.projectPath)];
      }
      var state := RequireGitState(config);
      if state.Some? && (if files then state.value.remoteUrl == before.remoteUrl else state == Some(before)) {
        after := state;
      }
    }

    /** Makes the project path a repository if it is not one. */
    method EnsureRepository(config: Config) returns (ok: bool)
      modifies this`alert, this`memories, this`world, this`script, this`effects
      ensures old(Calm()) ==> Calm()
      ensures ok <==> GetsRepository(old(Now()), config)
      ensures ok ==> Now() == AtRepository(old(Now()), config)
      ensures ok ==>
                effects == old(effects) + if FindsRepository(old(Now()), config) then [] else [RepositoryInitialised(config.projectPath)]
    {
      hide Failsafe.Calm, WorldAfter, AlertAfter, MemoriesAfter, Rest, StepWorks;
      LaterAll(Now(), 1, 1);
      LaterAll(Now(), 1, 2);
      ok := Wait();
      if !ok || config.projectPath !in world.repositories {
        ok := BootstrapRepository(config);
      }
    }

    /** The end of every migration: push, and stamp the location if git is still in the same state. */
    method PushAndStamp(config: Config, before: GitState, expected: Alert, ghost approved: string, now: int)
      returns (r: ActionResult)
      requires Valid() && approved == Generation(hash, expected) && MatchesAction(expected, config)
      requires expected.kind == PathDrift || expected.kind == PushFailed
      requires expected.kind == PathDrift ==>
                 expected.gitRemote == config.remote && expected.gitBranch == config.branch && expected.gitRemoteUrl == before.remoteUrl
      modifies this
      ensures old(Calm()) ==> Calm()
      ensures Valid() && !r.DryRun?
      ensures r.Applied? <==> StaysApproved(old(Now()), config, before, expected)
      ensures !r.Applied? ==> stamp == old(stamp) && writes == old(writes) && clearings == old(clearings)
      ensures r.Applied? ==>
                && r.generation == approved && AppliedTo(old(stamp), old(writes), old(clearings), config, expected, approved)
                && stamp.value.gitRemoteUrl == before.remoteUrl
                && effects == old(effects) + if Pushes(old(Now()), config) then [Pushed(config.remote, config.branch)] else []
    {
      hide Failsafe.Calm, Failsafe.Valid, Later, GitSeen, Works, Pushes, PushSteps;
      r := ActionThrew;
      LaterAll(Now(), PushSteps(Now(), config), 4);
      AlertNow();
      var ok := PushRecovered(config, now);
      if !ok {
        return;
      }
      var after := RequireGitState(config);
      if after != Some(before) {
        return;
      }
      ok := StampAndClear(config, after.value.remoteUrl, expected, approved, now);
      if ok {
        r := Applied(Generation(hash, expected));
      }
    }

    lemma AlertNow()
      ensures Now().alert == alert
    {
    }

    /** Once there is a repository: commit, push and stamp, as long as all is as approved. */
    method CommitAndStamp(config: Config, expected: Alert, files: bool, ghost approved: string, now: int)
      returns (r: ActionResult)
      requires Valid() && approved == Generation(hash, expected) && expected.kind == PathDrift && MatchesAction(expected, config)
      requires expected.gitRemote == config.remote && expected.gitBranch == config.branch
      modifies this
      ensures old(Calm()) ==> Calm()
      ensures Valid() && !r.DryRun?
      ensures r.Applied? <==> CommitStaysApproved(old(Now()), config, expected, files)
      ensures !r.Applied? ==> stamp == old(stamp) && writes == old(writes) && clearings == old(clearings)
      ensures r.Applied? ==>
                && r.generation == approved && AppliedTo(old(stamp), old(writes), old(clearings), config, expected, approved)
                && stamp.value.gitRemoteUrl == expected.gitRemoteUrl
                && effects == old(effects) + (if files then [Committed(config.projectPath)] else [])
                              + if Pushes(Later(old(Now()), 4 + CommitSteps(files)), config) then [Pushed(config.remote, config.branch)] else []
    {
      hide Failsafe.Calm, Failsafe.Valid, Later, GitSeen, Works, Pushes, CommitSeen, StaysApproved, CommitSteps;
      r := ActionThrew;
      LaterAll(Now(), 4, CommitSteps(files));
      var before := RequireGitState(config);
      if before.Some? && before.value.remoteUrl == expected.gitRemoteUrl {
        var committed := CommitMigrated(config, before.value, files);
        if committed.Some? {
          CommitKeepsRemote(Later(old(Now()), 4), config, before.value, files);
          r := PushAndStamp(config, committed.value, expected, approved, now);
        }
      }
    }

    lemma CommitKeepsRemote(m: Moment, config: Config, before: GitState, files: bool)
      ensures var after := CommitSeen(m, config, before, files);
              after.Some? ==> after.value.remoteUrl == before.remoteUrl
    {
      hide GitSeen, Later, Works;
    }

    /** One applied migration on record: the stamp is the current location, and exactly the approved alert is gone. */
    ghost predicate AppliedTo(stamp0: Option<Stamp>, writes0: seq<StampWrite>, clearings0: seq<Clearing>,
                              config: Config, expected: Alert, approved: string)
      reads this
    {
      && stamp.Some? && IsLocation(stamp.value, config) && alert == None
      && approved == Generation(hash, expected)
      && writes == writes0 + [Migrated(stamp0, stamp.value, expected, approved)]
      && clearings == clearings0 + [ByAction(expected, approved, None)]
    }

    /**
     What an applied migration does, from the approval on: it copies the old store if the alert of a moved
     path names one, makes a repository if it finds none, commits if there are files, and pushes if that
     is configured and there is a remote. A failed push is only pushed again.
     */
    function AppliedEffects(m: Moment, config: Config, expected: Alert, files: bool): seq<Effect> {
      if expected.kind == PathDrift then
        var at := AtCommit(m, config, expected);
        var misses := !FindsRepository(at, config);
        MigrationEffects(config, expected.previousStorePath, misses, files,
                         Pushes(Later(at, (if misses then 3 else 1) + 4 + CommitSteps(files)), config))
      else MigrationEffects(config, None, false, false, Pushes(Later(m, 6), config))
    }

    /** A push is retried exactly when the repository, git and the alert are as they must be at every look. */
    method RetryPush(config: Config, apply: bool, expected: Alert, ghost approved: string, now: int)
      returns (r: ActionResult)
      requires Valid() && expected.kind == PushFailed && MatchesAction(expected, config)
      requires apply ==> approved == Generation(hash, expected)
      modifies this
      ensures old(Calm()) ==> Calm()
      ensures Valid()
      ensures r.Applied? <==> apply && RetryGoesThrough(old(Now()), config, expected)
      ensures r.DryRun? <==> !apply
      ensures !r.Applied? ==> stamp == old(stamp) && writes == old(writes) && clearings == old(clearings)
      ensures !apply ==> alert == old(alert) && effects == old(effects)
      ensures r.Applied? ==>
                && r.generation == approved && AppliedTo(old(stamp), old(writes), old(clearings), config, expected, approved)
                && effects == old(effects) + (if Pushes(Later(old(Now()), 6), config) then [Pushed(config.remote, config.branch)] else [])
                && stamp.value.gitRemoteUrl == UrlSeen(Later(old(Now()), 4), config)
                && (NamesIdentityOf(stamp.value, expected)
                    <==> config.remote == expected.gitRemote && config.branch == expected.gitBranch
                         && UrlSeen(Later(old(Now()), 4), config) == expected.gitRemoteUrl)
    {
      hide Failsafe.Calm, Failsafe.Valid, Later, Works, Pushes, StaysApproved;
      r := ActionThrew;
      if !apply {
        r := DryRun(Generation(hash, expected));
      } else {
        LaterAll(Now(), 1, 1);
        LaterAll(Now(), 2, 2);
        LaterAll(Now(), 2, 4);
        var ok, isRoot := FindRepository(config);
        if ok && isRoot {
          ok := AssertAlertGeneration(expected);
          if ok {
            var before := RequireGitState(config);
            if before.Some? {
              r := PushAndStamp(config, before.value, expected, approved, now);
            }
          }
        }
      }
    }

    /** Whether the project path is exactly the root of a repository. */
    method FindRepository(config: Config) returns (ok: bool, isRoot: bool)
      modifies this`alert, this`memories, this`world, this`script
      ensures old(Calm()) ==> Calm()
      ensures Now() == Later(old(Now()), 1) && (ok <==> Works(old(Now()))) && (isRoot <==> FindsRepository(old(Now()), config))
    {
      ok := Wait();
      isRoot := ok && config.projectPath in world.repositories;
    }

    /** Moves to the configured location: retries a failed push, accepts the location, or copies the old store first. */
    method MigrateContent(config: Config, apply: bool, approved: Option<string>, files: bool, now: int) returns (r: ActionResult)
      requires Valid()
      modifies this
      ensures old(Calm()) ==> Calm()
      ensures Valid() && old(writes) <= writes && old(clearings) <= clearings
      ensures r.Applied? <==> apply && Migrates(hash, old(Now()), config, approved, files)
      ensures !r.Applied? ==> stamp == old(stamp) && writes == old(writes) && clearings == old(clearings)
      ensures r.Applied? ==>
                var expected := AlertFound(old(Now()), config).value;
                && approved == Some(r.generation)
                && AppliedTo(old(stamp), old(writes), old(clearings), config, expected, r.generation)
                && stamp.value.gitRemoteUrl == (if expected.kind == PathDrift then expected.gitRemoteUrl
                                                else UrlSeen(Later(Later(old(Now()), 2), 4), config))
                && effects == old(effects) + AppliedEffects(Later(old(Now()), 2), config, expected, files)
      ensures !apply ==> effects == old(effects)
      ensures old(script) == [] ==>
                && (r.Applied? <==> apply && CanMigrateNow(old(Now()), config, approved))
                && (r.Applied? ==> effects == old(effects) + QuietEffects(old(Now()), config, files)
                                   && stamp.value.gitRemoteUrl == RemoteUrl(old(world), config))
    {
      hide Failsafe.Calm, Failsafe.Valid, Later, RetryGoesThrough, MoveGoesThrough, Failsafe.AppliedEffects, AlertFound, IsApproved,
        Failsafe.CanMigrateNow, Failsafe.QuietEffects;
      r := ActionThrew;
      if script == [] {
        QuietMigration(Now(), config, approved, files);
      }
      var found := RequireApprovedAlert(config, apply, approved);
      if found.Some? {
        var expected := found.value;
        FoundMatches(old(Now()), config);
        ghost var token := Generation(hash, expected);
        if expected.kind == PushFailed {
          r := RetryPush(config, apply, expected, token, now);
          RetryEffects(Later(old(Now()), 2), config, expected, files);
        } else if expected.kind == PathDrift {
          r := MigrateDrifted(config, apply, expected, files, token, now);
        }
        if apply {
          ApprovedBy(old(Now()), approved, expected);
        }
      }
    }

    lemma RetryEffects(m: Moment, config: Config, expected: Alert, files: bool)
      requires expected.kind == PushFailed
      ensures AppliedEffects(m, config, expected, files)
           == if Pushes(Later(m, 6), config) then [Pushed(config.remote, config.branch)] else []
    {
      hide Later, Pushes;
    }

    lemma FoundMatches(m: Moment, config: Config)
      ensures AlertFound(m, config).Some? ==> MatchesAction(AlertFound(m, config).value, config)
    {
    }

    lemma ApprovedBy(m: Moment, approved: Option<string>, expected: Alert)
      ensures IsApproved(hash, m, approved, expected) ==> approved == Some(Generation(hash, expected))
    {
    }

    /** Nothing has changed since the alert was approved, and the configured location can be moved to. */
    predicate CanMigrateNow(m: Moment, config: Config, approved: Option<string>) {
      && m.alert.Some? && MatchesAction(m.alert.value, config) && approved == Some(Generation(hash, m.alert.value))
      && match m.alert.value.kind
         case PushFailed => config.projectPath in m.world.repositories && Branch(m.world, config) == Some(config.branch)
         case PathDrift => CanMigrate(m.world, config, m.alert.value)
         case _ => false
    }

    /** The effects when nothing changes outside and no step fails. */
    function QuietEffects(m: Moment, config: Config, files: bool): seq<Effect> {
      var drift := m.alert.Some? && m.alert.value.kind == PathDrift;
      MigrationEffects(config, if drift then m.alert.value.previousStorePath else None,
                       drift && config.projectPath !in m.world.repositories, drift && files,
                       config.push && RemoteUrl(m.world, config).Some?)
    }

    lemma QuietMigration(m: Moment, config: Config, approved: Option<string>, files: bool)
      requires m.script == []
      ensures Migrates(hash, m, config, approved, files) <==> CanMigrateNow(m, config, approved)
      ensures Migrates(hash, m, config, approved, files) ==>
                && AppliedEffects(Later(m, 2), config, AlertFound(m, config).value, files) == QuietEffects(m, config, files)
                && AlertFound(m, config) == m.alert && UrlSeen(Later(Later(m, 2), 4), config) == RemoteUrl(m.world, config)
                && (m.alert.value.kind == PathDrift ==> m.alert.value.gitRemoteUrl == RemoteUrl(m.world, config))
    {
      hide RetryGoesThrough, MoveGoesThrough;
      NothingLater(m, 2);
      if m.alert.Some? {
        QuietRetry(m, config, m.alert.value);
        QuietMove(m, config, m.alert.value, files);
      }
    }

    /** Whether the alert still describes the current location, and the old store can be copied to it. */
    method ExamineDrift(config: Config, expected: Alert) returns (ok: bool)
      modifies this`alert, this`memories, this`world, this`script
      ensures old(Calm()) ==> Calm()
      ensures ok <==> DriftApproved(old(Now()), config, expected)
      ensures ok ==> Now() == Later(old(Now()), DriftSteps(old(Now()), config))
    {
      hide Failsafe.Calm, Later, GitSeen, Works, FindsRepository;
      LaterAll(Now(), 1, 1);
      LaterAll(Now(), 1, 4);
      LaterAll(Now(), 5, 1);
      ok := false;
      if expected.gitRemote != config.remote || expected.gitBranch != config.branch {
        return;
      }
      var looked, isRoot := FindRepository(config);
      if isRoot {
        var state := RequireGitState(config);
        if state.None? || state.value.remoteUrl != expected.gitRemoteUrl {
          return;
        }
      }
      // Listing the files, and checking roots and conflicts when there is an old store.
      ok := Wait();
    }

    /** Copies the files of the old store, if there is one, one after the other. */
    method CopyOldStore(config: Config, expected: Alert) returns (ok: bool)
      modifies this`alert, this`memories, this`world, this`script, this`effects
      ensures old(Calm()) ==> Calm()
      ensures ok <==> CopyStaysApproved(old(Now()), expected)
      ensures ok ==> Now() == Later(old(Now()), CopySteps(expected))
      ensures ok ==> effects == old(effects) + MigrationEffects(config, expected.previousStorePath, false, false, false)
    {
      hide Failsafe.Calm, Later, Works, Stands;
      LaterAll(Now(), 1, 1);
      LaterAll(Now(), 2, 1);
      ok := AssertAlertGeneration(expected);
      if ok && expected.previousStorePath.Some? {
        ok := Wait();
        if ok {
          effects := effects + [FilesCopied(expected.previousStorePath.value, config.storePath)];
          ok := AssertAlertGeneration(expected);
        }
      }
    }

    method MigrateDrifted(config: Config, apply: bool, expected: Alert, files: bool, ghost approved: string, now: int)
      returns (r: ActionResult)
      requires Valid() && expected.kind == PathDrift && MatchesAction(expected, config)
      requires approved == Generation(hash, expected)
      modifies this
      ensures old(Calm()) ==> Calm()
      ensures Valid()
      ensures r.Applied? <==> apply && MoveGoesThrough(old(Now()), config, expected, files)
      ensures r.DryRun? <==> !apply && DriftApproved(old(Now()), config, expected)
      ensures !r.Applied? ==> stamp == old(stamp) && writes == old(writes) && clearings == old(clearings)
      ensures r.Applied? ==>
                && r.generation == approved && AppliedTo(old(stamp), old(writes), old(clearings), config, expected, approved)
                && stamp.value.gitRemoteUrl == expected.gitRemoteUrl
                && effects == old(effects) + AppliedEffects(old(Now()), config, expected, files)
      ensures !apply ==> effects == old(effects)
    {
      hide Failsafe.Calm, Failsafe.Valid, Later, DriftApproved, CopyStaysApproved, GetsRepository, CommitStaysApproved, FindsRepository,
        Pushes, AtRepository, DriftSteps, CopySteps, MigrationEffects, Failsafe.AppliedEffects;
      r := ActionThrew;
      LaterAll(Now(), DriftSteps(Now(), config), CopySteps(expected));
      ghost var at := AtCommit(Now(), config, expected);
      DriftNames(Now(), config, expected);
      var ok := ExamineDrift(config, expected);
      if ok && !apply {
        r := DryRun(Generation(hash, expected));
      } else if ok {
        ok := CopyOldStore(config, expected);
        if ok {
          ok := EnsureRepository(config);
          if ok {
            r := CommitAndStamp(config, expected, files, approved, now);
            DriftedEffects(old(effects), old(Now()), config, expected, files);
          }
        }
      }
    }

    lemma DriftNames(m: Moment, config: Config, expected: Alert)
      ensures DriftApproved(m, config, expected) ==> expected.gitRemote == config.remote && expected.gitBranch == config.branch
    {
    }

    /** The effects of copying, of making the repository, and of committing and pushing are those of the migration. */
    lemma DriftedEffects(effects0: seq<Effect>, m: Moment, config: Config, expected: Alert, files: bool)
      requires expected.kind == PathDrift
      ensures var at := AtCommit(m, config, expected);
              effects0 + MigrationEffects(config, expected.previousStorePath, false, false, false)
              + (if FindsRepository(at, config) then [] else [RepositoryInitialised(config.projectPath)])
              + (if files then [Committed(config.projectPath)] else [])
              + (if Pushes(Later(AtRepository(at, config), 4 + CommitSteps(files)), config)
                 then [Pushed(config.remote, config.branch)] else [])
              == effects0 + AppliedEffects(m, config, expected, files)
    {
      hide FindsRepository, Later, CommitSteps;
      var at := AtCommit(m, config, expected);
      if FindsRepository(at, config) {
        LaterAll(at, 1, 4 + CommitSteps(files));
      } else {
        LaterAll(at, 3, 4 + CommitSteps(files));
        UrlsSame(AtRepository(at, config), Later(at, 3), 4 + CommitSteps(files), config);
      }
    }

    /** Goes back to the previous paths in the configuration file; the stamp stays as it is. */
    method RevertConfig(config: Config, apply: bool, approved: Option<string>, reloaded: Option<Config>) returns (r: ActionResult)
      requires Valid()
      modifies this
      ensures old(Calm()) ==> Calm()
      ensures Valid() && stamp == old(stamp) && writes == old(writes)
      ensures r.Applied? <==> apply && Reverts(hash, old(Now()), config, approved, stamp, reloaded)
      ensures r.DryRun? <==> !apply && AlertFound(old(Now()), config).Some? && HasPrevious(AlertFound(old(Now()), config).value)
      ensures var expected := AlertFound(old(Now()), config);
              && (effects == old(effects)
                            + if apply && RewritesConfig(hash, old(Now()), config, approved)
                              then [ConfigRewritten(expected.value.previousProjectPath.value, expected.value.previousStorePath.value)]
                              else [])
              && (clearings == old(clearings)
                              + if r.Applied? && reloaded.Some? && PathsMatch(stamp, reloaded.value)
                                then [ByAction(expected.value, approved.value, None)] else [])
      ensures r.Applied? && reloaded.Some? && PathsMatch(stamp, reloaded.value) ==> alert == None
      ensures old(script) == [] ==>
                && (r.Applied? <==> apply && CanRevert(old(alert), config) && approved == Some(Generation(hash, old(alert).value)))
                && (r.DryRun? <==> !apply && CanRevert(old(alert), config))
                && alert == if r.Applied? && reloaded.Some? && PathsMatch(stamp, reloaded.value) then None else old(alert)
    {
      hide Failsafe.Calm, Failsafe.Valid, Later, Works, Stands, AlertFound, IsApproved, PathsMatch;
      r := ActionThrew;
      LaterAll(Now(), 2, 1);
      LaterAll(Now(), 2, 2);
      LaterAll(Now(), 4, 1);
      if script == [] {
        QuietRevert(Now(), config, approved, stamp, reloaded);
      }
      var found := RequireApprovedAlert(config, apply, approved);
      if found.Some? && HasPrevious(found.value) {
        var expected := found.value;
        if apply {
          ApprovedBy(old(Now()), approved, expected);
          var ok := RewriteConfig(expected);
          if ok {
            ok := ClearReverted(expected, reloaded);
            if ok {
              r := Applied(Generation(hash, expected));
            }
          }
        } else {
          r := DryRun(Generation(hash, expected));
        }
      }
    }

    method RewriteConfig(expected: Alert) returns (ok: bool)
      requires HasPrevious(expected)
      modifies this`alert, this`memories, this`world, this`script, this`effects
      ensures old(Calm()) ==> Calm()
      ensures ok <==> Stands(old(Now()), expected) && Works(Later(old(Now()), 1))
      ensures ok ==> Now() == Later(old(Now()), 2)
      ensures effects == old(effects)
                         + if ok then [ConfigRewritten(expected.previousProjectPath.value, expected.previousStorePath.value)] else []
      ensures old(script) == [] ==> script == [] && alert == old(alert)
    {
      LaterAll(Now(), 1, 1);
      ok := AssertAlertGeneration(expected);
      if ok {
        // Storage is released and the configuration file rewritten here.
        ok := Wait();
        if ok {
          effects := effects + [ConfigRewritten(expected.previousProjectPath.value, expected.previousStorePath.value)];
        }
      }
    }

    /** If the reloaded configuration is back at the stamped paths, the alert is cleared, which must still be there. */
    method ClearReverted(expected: Alert, reloaded: Option<Config>) returns (ok: bool)
      requires Valid()
      modifies this`alert, this`memories, this`world, this`script, this`clearings
      ensures old(Calm()) ==> Calm()
      ensures Valid()
      ensures ok <==> (reloaded.Some? ==>
                         Works(old(Now())) && (PathsMatch(stamp, reloaded.value) ==> Stands(Later(old(Now()), 1), expected)))
      ensures clearings == old(clearings) + if ok && reloaded.Some? && PathsMatch(stamp, reloaded.value)
                                            then [ByAction(expected, Generation(hash, expected), None)] else []
      ensures ok && reloaded.Some? && PathsMatch(stamp, reloaded.value) ==> alert == None
      ensures old(script) == [] && (old(alert) != Some(expected) || !ok || reloaded.None? || !PathsMatch(stamp, reloaded.value)) ==>
                alert == old(alert)
    {
      hide Failsafe.Calm, Failsafe.Valid;
      ok := true;
      if reloaded.Some? {
        ok := Wait();
        if ok && PathsMatch(stamp, reloaded.value) {
          ghost var seen;
          var worked: bool;
          worked, ok, seen := ClearAlertGeneration(expected, ByAction(expected, Generation(hash, expected), None));
        }
      }
    }

    lemma QuietRevert(m: Moment, config: Config, approved: Option<string>, stamp: Option<Stamp>, reloaded: Option<Config>)
      requires m.script == []
      ensures forall n: nat :: Later(m, n) == m
      ensures AlertFound(m, config) == if m.alert.Some? && MatchesAction(m.alert.value, config) then m.alert else None
      ensures Reverts(hash, m, config, approved, stamp, reloaded)
         <==> CanRevert(m.alert, config) && approved == Some(Generation(hash, m.alert.value))
    {
      NothingLater(m, 1);
    }

    /** Deletes the memory row and the approved alert in one transaction, or neither. */
    method DeleteRecordAndClear(memoryId: string, expected: Alert, ghost approved: string) returns (ok: bool)
      requires Valid() && approved == Generation(hash, expected) && expected.kind == ContentInconsistent
      modifies this`memories, this`alert, this`clearings
      ensures Valid()
      ensures ok <==> memoryId in old(memories) && old(alert) == Some(expected)
      ensures ok ==> memories == old(memories) - {memoryId} && alert == None
                     && clearings == old(clearings) + [ByAction(expected, approved, Some(memoryId))]
      ensures !ok ==> memories == old(memories) && alert == old(alert) && clearings == old(clearings)
    {
      ok := false;
      if memoryId in memories {
        var before := memories;
        memories := memories - {memoryId};
        if alert.Some? {
          SerializedAlertsAgreeWithWhere(alert.value, expected);
        }
        if alert.Some? && GenerationWhere(alert.value, expected) {
          alert := None;
          clearings := clearings + [ByAction(expected, approved, Some(memoryId))];
          ok := true;
        } else {
          memories := before;
        }
      }
    }

    method DeleteMissingRecord(config: Config, apply: bool, approved: Option<string>, now: int) returns (r: ActionResult)
      requires Valid()
      modifies this
      ensures old(Calm()) ==> Calm()
      ensures old(Calm()) ==> SteadySince(|old(writes)|)
      ensures Valid() && old(writes) <= writes && old(clearings) <= clearings
      ensures forall i :: |old(writes)| <= i < |writes| ==> writes[i].Refreshed?
      ensures !apply ==> writes == old(writes) && clearings == old(clearings) && effects == old(effects) && !r.Applied?
      ensures r.Applied? ==> apply && Deletes(hash, old(Now()), config, approved)
      ensures apply && Deletes(hash, old(Now()), config, approved) ==>
                && |clearings| > |old(clearings)| && approved.Some?
                && clearings[|old(clearings)|]
                   == ByAction(AlertFound(old(Now()), config).value, approved.value, Some(Later(old(Now()), 3).world.inconsistent.value.memoryId))
      ensures !Deletes(hash, old(Now()), config, approved) ==>
                stamp == old(stamp) && writes == old(writes) && clearings == old(clearings) && effects == old(effects)
      ensures forall i :: |old(clearings)| < i < |clearings| ==> clearings[i].ByCheck?
      ensures old(script) == [] ==>
                && (r.Applied? <==> apply && CanDelete(old(Now()), config) && approved == Some(Generation(hash, old(alert).value))
                                    && old(world).inconsistent.value.memoryId in old(memories))
                && (r.DryRun? <==> !apply && CanDelete(old(Now()), config))
    {
      hide Failsafe.Calm, Failsafe.Valid, Later, Works, Stands, AlertFound, IsApproved, Failsafe.FindsOut, Failsafe.Reports,
        Deletes, CanDelete;
      var deleted;
      r, deleted := DeleteApproved(config, apply, approved);
      if deleted {
        var check := EnsureEnvironment(config, now);
        if check.CheckThrew? {
          r := ActionThrew;
        }
      }
    }

    /** The part before the check that follows a deletion. */
    method DeleteApproved(config: Config, apply: bool, approved: Option<string>) returns (r: ActionResult, deleted: bool)
      requires Valid()
      modifies this`alert, this`memories, this`world, this`script, this`clearings
      ensures old(Calm()) ==> Calm()
      ensures Valid()
      ensures deleted <==> apply && Deletes(hash, old(Now()), config, approved)
      ensures deleted <==> r.Applied?
      ensures if deleted then
                && approved.Some?
                && clearings == old(clearings)
                                + [ByAction(AlertFound(old(Now()), config).value, approved.value,
                                            Some(Later(old(Now()), 3).world.inconsistent.value.memoryId))]
              else clearings == old(clearings)
      ensures old(script) == [] ==>
                && script == []
                && (deleted <==> apply && CanDelete(old(Now()), config) && approved == Some(Generation(hash, old(alert).value))
                                 && old(world).inconsistent.value.memoryId in old(memories))
                && (r.DryRun? <==> !apply && CanDelete(old(Now()), config))
    {
      hide Failsafe.Calm, Failsafe.Valid, Later, Works, AlertFound, IsApproved;
      r := ActionThrew;
      LaterAll(Now(), 2, 1);
      LaterAll(Now(), 3, 1);
      if script == [] {
        QuietDeletion(Now(), config, approved);
      }
      deleted := false;
      var found := RequireApprovedAlert(config, apply, approved);
      if found.Some? && found.value.kind == ContentInconsistent {
        var expected := found.value;
        var ok := Wait();
        if ok && world.inconsistent.Some? && world.inconsistent.value.missingFile {
          var memoryId := world.inconsistent.value.memoryId;
          if apply {
            ApprovedBy(old(Now()), approved, expected);
            ok := AssertAlertGeneration(expected);
            if ok {
              deleted := DeleteRecordAndClear(memoryId, expected, Generation(hash, expected));
              if deleted {
                r := Applied(Generation(hash, expected));
              }
            }
          } else {
            r := DryRun(Generation(hash, expected));
          }
        }
      }
    }

    lemma QuietDeletion(m: Moment, config: Config, approved: Option<string>)
      requires m.script == []
      ensures forall n: nat :: Later(m, n) == m
      ensures AlertFound(m, config) == if m.alert.Some? && MatchesAction(m.alert.value, config) then m.alert else None
      ensures Works(m)
      ensures Deletes(hash, m, config, approved)
         <==> CanDelete(m, config) && approved == Some(Generation(hash, m.alert.value)) && m.world.inconsistent.value.memoryId in m.memories
    {
      NothingLater(m, 1);
    }

    // Runs

    /**
     Any sequence of operations, each under the action lease. What it put on record is sound. If every
     check found memory data, the stamp moved only with an applied migration, approved for the very alert
     it cleared; except that the URL alone may move in a check whose two reads of it disagree, which
     does not happen while no step fails and nobody changes a remote's URL.
     */
    method Run(operations: seq<Operation>)
      requires Valid()
      modifies this
      ensures Valid() && old(writes) <= writes && old(clearings) <= clearings
      ensures var done := writes[|old(writes)|..];
              && AllSound(hash, done) && Chained(old(stamp), done, stamp) && (old(Calm()) ==> SteadyReads(done))
              && (OnlyChecksWithMemories(done) && old(stamp).Some? ==>
                    && stamp.Some? && SameLocation(old(stamp).value, stamp.value)
                    && (SteadyReads(done) ==> stamp.value.gitRemoteUrl == old(stamp).value.gitRemoteUrl))
              && ((forall i :: 0 <= i < |done| && done[i].Refreshed? ==> done[i].memoryData)
                  && old(stamp).Some? && stamp.Some? && IsMoved(old(stamp).value, stamp.value)
                  ==> HasApprovedMigration(hash, done)
                      || (SameLocation(old(stamp).value, stamp.value) && !SteadyReads(done) && !old(Calm())))
    {
      hide Failsafe.Calm;
      ghost var stamp0, writes0 := stamp, writes;
      RunAll(operations);
      ghost var done := writes[|writes0|..];
      assert writes == writes0 + done;
      ChainedRest(start, writes0, stamp0, done, stamp);
      assert forall i :: 0 <= i < |done| ==> done[i] == writes[|writes0| + i];
      assert AllSound(hash, done);
      if OnlyChecksWithMemories(done) {
        NoSilentRelocation(hash, stamp0, done, stamp);
      }
      if (forall i :: 0 <= i < |done| && done[i].Refreshed? ==> done[i].memoryData)
         && stamp0.Some? && stamp.Some? && IsMoved(stamp0.value, stamp.value) {
        RelocationIsApproved(hash, stamp0, done, stamp);
      }
    }

    method RunAll(operations: seq<Operation>)
      requires Valid()
      modifies this
      ensures Valid() && old(writes) <= writes && old(clearings) <= clearings
      ensures old(Calm()) ==> Calm() && SteadySince(|old(writes)|)
    {
      hide Failsafe.Calm, Failsafe.Valid, ReadsAgree;
      for i := 0 to |operations|
        invariant Valid() && old(writes) <= writes && old(clearings) <= clearings
        invariant old(Calm()) ==> Calm() && SteadySince(|old(writes)|)
      {
        Perform(operations[i]);
      }
    }

    method Perform(operation: Operation)
      requires Valid()
      modifies this
      ensures Valid() && old(writes) <= writes && old(clearings) <= clearings
      ensures old(Calm()) ==> Calm() && SteadySince(|old(writes)|)
    {
      hide Failsafe.Calm, Failsafe.Valid, ReadsAgree;
      match operation
      case CheckEnvironment(config, now) =>
        var checked := EnsureEnvironment(config, now);
      case Revert(config, apply, approved, reloaded) =>
        var reverted := RevertConfig(config, apply, approved, reloaded);
      case Migrate(config, apply, approved, files, now) =>
        var migrated := MigrateContent(config, apply, approved, files, now);
      case DeleteMissing(config, apply, approved, now) =>
        var deleted := DeleteMissingRecord(config, apply, approved, now);
      case RecordPushFailure(config, error, now) =>
        var recorded := RecordPushFailureAlert(config, error, now);
      case ClearPushFailure =>
        var cleared := ClearPushFailureAlert();
    }
  }

  function EightQuietSteps(): (script: seq<Change>)
    ensures |script| == 8 && forall i :: 0 <= i < 8 ==> script[i] == Change(true, None, None, None)
  {
    var quiet := Change(true, None, None, None);
    [quiet, quiet, quiet, quiet, quiet, quiet, quiet, quiet]
  }

  lemma {:induction false} QuietSteps(world: World, script: seq<Change>, n: nat)
    requires n <= |script| && forall i :: 0 <= i < n ==> script[i] == Change(true, None, None, None)
    ensures WorldAfter(world, script, n) == world
    decreases n
  {
    if n > 0 {
      QuietSteps(world, script[1..], n - 1);
    }
  }

  lemma ReadsOfScript(world: World, later: World, fails: bool, memories: set<string>, stamp: Option<Stamp>, config: Config)
    requires memories != {} && later == world.(remoteUrls := later.remoteUrls)
    ensures var script := EightQuietSteps() + [Change(!fails, None, None, Some(later))];
            && ReadAt(world, script, 3, config) == UrlRead(true, RemoteUrl(world, config))
            && ReadAt(world, script, 8, config) == UrlRead(!fails, RemoteUrl(later, config))
            && ComparingStep(memories, world, script, stamp, config) == 3
            && (forall i :: 0 <= i < |script| ==> (i != 8 ==> script[i].ok) && ChangesUrlsOnly(script[i], world))
  {
    var script := EightQuietSteps() + [Change(!fails, None, None, Some(later))];
    QuietSteps(world, script, 4);
    QuietSteps(world, script, 8);
    WorldAfterAll(world, script, 8, 1);
    assert Rest(script, 8) == [script[8]];
    UrlsOnly(memories, None, world, script, 3);
    RowsAfter(memories, None, script);
  }

  /**
   A check does not promise the URL: after comparing one URL with the stamp it reads the URL again, and
   if that has changed meanwhile, or the read fails, the other URL, or none, is stamped without approval.
   */
  method UrlReadAgain(config: Config, compared: string, changed: string, heads: map<string, string>, fails: bool)
    returns (before: Stamp, after: Stamp, r: CheckResult)
    requires config.enabled && compared != changed
    ensures r.CheckOk? && SameLocation(before, after) && before.gitRemoteUrl == Some(compared)
    ensures after.gitRemoteUrl == if fails then None else Some(changed)
  {
    before := Stamp(config.projectPath, config.storePath, config.remote, Some(compared), config.branch, 0, 0);
    var world := World(map[(config.projectPath, config.remote) := compared], map[config.projectPath := config.branch], heads,
                       {config.projectPath}, {config.storePath}, None);
    var later := world.(remoteUrls := map[(config.projectPath, config.remote) := changed]);
    var script := EightQuietSteps() + [Change(!fails, None, None, Some(later))];
    var failsafe := new Failsafe(s => s, Some(before), None, {"memory"}, world, script);
    ReadsOfScript(world, later, fails, {"memory"}, Some(before), config);
    r := failsafe.EnsureEnvironment(config, 1);
    after := failsafe.stamp.value;
  }

  /**
   Approving a failed push approves its paths alone: retrying it under a configuration that names
   another remote stamps that other remote.
   */
  method RetriedPushMovesRemote(config: Config, otherRemote: string, url: string) returns (alert: Alert, after: Stamp)
    requires otherRemote != config.remote
    ensures alert.kind == PushFailed && alert.gitRemote == otherRemote
    ensures after.gitRemote == config.remote && after.gitRemoteUrl == Some(url)
  {
    hide Failsafe.AppliedEffects, Failsafe.QuietEffects, Migrates, Generation;
    alert := Alert("active", PushFailed, "critical", "Backup push failed", None, None, config.projectPath, config.storePath,
                   otherRemote, None, config.branch, Some("rejected"), 0, 0);
    var world := World(map[(config.projectPath, config.remote) := url], map[config.projectPath := config.branch], map[],
                       {config.projectPath}, {config.storePath}, None);
    var hash := s => s;
    var failsafe := new Failsafe(hash, None, Some(alert), {"memory"}, world, []);
    assert failsafe.CanMigrateNow(failsafe.Now(), config, Some(Generation(hash, alert)));
    var r := failsafe.MigrateContent(config, true, Some(Generation(hash, alert)), false, 1);
    assert failsafe.writes == [Migrated(None, failsafe.stamp.value, failsafe.writes[0].cleared, r.generation)];
    after := failsafe.stamp.value;
  }
}
