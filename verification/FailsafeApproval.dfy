/** What the recovery actions require at the steps that look, and what an undisturbed action comes down to. */
module FailsafeApproval {
  import opened Wrappers
  import opened FailsafeAlerts
  import opened FailsafeState

  /** World and rows before a step, and what happens from there on. */
  datatype Moment = Moment(world: World, alert: Option<Alert>, memories: set<string>, script: seq<Change>)

  function Later(m: Moment, n: nat): Moment {
    Moment(WorldAfter(m.world, m.script, n), AlertAfter(m.alert, m.script, n), MemoriesAfter(m.memories, m.script, n),
           Rest(m.script, n))
  }

  lemma LaterAll(m: Moment, a: nat, b: nat)
    ensures Later(Later(m, a), b) == Later(m, a + b)
  {
    WorldAfterAll(m.world, m.script, a, b);
    RowsAfterAll(m.alert, m.memories, m.script, a, b);
  }

  lemma {:induction false} RowsAfterAll(alert: Option<Alert>, memories: set<string>, script: seq<Change>, a: nat, b: nat)
    ensures AlertAfter(AlertAfter(alert, script, a), Rest(script, a), b) == AlertAfter(alert, script, a + b)
    ensures MemoriesAfter(MemoriesAfter(memories, script, a), Rest(script, a), b) == MemoriesAfter(memories, script, a + b)
    decreases a
  {
    if a > 0 && script != [] {
      var nextAlert := if script[0].alert.Some? then script[0].alert.value else alert;
      var nextMemories := if script[0].memories.Some? then script[0].memories.value else memories;
      RowsAfterAll(nextAlert, nextMemories, script[1..], a - 1, b);
      assert Rest(script[1..], a - 1) == Rest(script, a);
    }
  }

  lemma NothingLater(m: Moment, n: nat)
    requires m.script == []
    ensures Later(m, n) == m
  {
  }

  // What one step sees

  predicate Works(m: Moment) {
    m.script != [] ==> m.script[0].ok
  }

  /** The alert row found at this step is the expected one. */
  predicate Stands(m: Moment, expected: Alert) {
    Works(m) && Later(m, 1).alert == Some(expected)
  }

  predicate FindsRepository(m: Moment, config: Config) {
    Works(m) && config.projectPath in Later(m, 1).world.repositories
  }

  function BranchSeen(m: Moment, config: Config): Option<string> {
    if Works(m) then Branch(Later(m, 1).world, config) else None
  }

  function UrlSeen(m: Moment, config: Config): Option<string> {
    if Works(m) then RemoteUrl(Later(m, 1).world, config) else None
  }

  function HeadSeen(m: Moment, config: Config): Option<string> {
    if Works(m) then Lookup(Later(m, 1).world.heads, config.projectPath) else None
  }

  // What several steps see

  /** What a recovery requires of the checked-out repository. */
  datatype GitState = GitState(remoteUrl: Option<string>, head: Option<string>)

  /** In four steps: the repository must be there, on the configured branch; its remote and head are noted. */
  function GitSeen(m: Moment, config: Config): Option<GitState> {
    if FindsRepository(m, config) && BranchSeen(Later(m, 1), config) == Some(config.branch)
    then Some(GitState(UrlSeen(Later(m, 2), config), HeadSeen(Later(m, 3), config)))
    else None
  }

  /** There is something to push to. */
  predicate Pushes(m: Moment, config: Config) {
    config.push && UrlSeen(m, config).Some?
  }

  /** How many steps a push takes, with the reading of the URL. */
  function PushSteps(m: Moment, config: Config): nat {
    if !config.push then 0 else if Pushes(m, config) then 2 else 1
  }

  /** If there is something to push to, pushing works; and then git is still as it was and the alert is still there. */
  predicate StaysApproved(m: Moment, config: Config, before: GitState, expected: Alert) {
    && (Pushes(m, config) ==> Works(Later(m, 1)))
    && GitSeen(Later(m, PushSteps(m, config)), config) == Some(before)
    && Later(m, PushSteps(m, config) + 4).alert == Some(expected)
  }

  /** The repository now made: on the configured branch. */
  function WithRepository(m: Moment, config: Config): Moment {
    m.(world := m.world.(repositories := m.world.repositories + {config.projectPath},
                         branches := m.world.branches[config.projectPath := config.branch]))
  }

  /** The repository is found, or it can be made. */
  predicate GetsRepository(m: Moment, config: Config) {
    FindsRepository(m, config) || (Works(Later(m, 1)) && Works(Later(m, 2)))
  }

  function AtRepository(m: Moment, config: Config): Moment {
    if FindsRepository(m, config) then Later(m, 1) else WithRepository(Later(m, 3), config)
  }

  function CommitSteps(files: bool): nat {
    if files then 14 else 4
  }

  /** The state of git after committing, in which only the head may differ from before. */
  function CommitSeen(m: Moment, config: Config, before: GitState, files: bool): Option<GitState> {
    if GitSeen(m, config) != Some(before) then None
    else if !files then Some(before)
    else if Works(Later(m, 4)) && GitSeen(Later(m, 5), config) == Some(before) && Works(Later(m, 9))
            && GitSeen(Later(m, 10), config).Some? && GitSeen(Later(m, 10), config).value.remoteUrl == before.remoteUrl
    then GitSeen(Later(m, 10), config)
    else None
  }

  /** The repository has the approved remote, and what is committed stays as approved. */
  predicate CommitStaysApproved(m: Moment, config: Config, expected: Alert, files: bool) {
    var before := GitSeen(m, config);
    && before.Some? && before.value.remoteUrl == expected.gitRemoteUrl
    && var after := CommitSeen(Later(m, 4), config, before.value, files);
       after.Some? && StaysApproved(Later(m, 4 + CommitSteps(files)), config, after.value, expected)
  }

  /** The alert is about the configured remote and branch, and about the remote's URL if there is a repository already. */
  predicate DriftApproved(m: Moment, config: Config, expected: Alert) {
    && expected.gitRemote == config.remote && expected.gitBranch == config.branch
    && if FindsRepository(m, config) then
         && GitSeen(Later(m, 1), config).Some? && GitSeen(Later(m, 1), config).value.remoteUrl == expected.gitRemoteUrl
         && Works(Later(m, 5))
       else Works(Later(m, 1))
  }

  function DriftSteps(m: Moment, config: Config): nat {
    if FindsRepository(m, config) then 6 else 2
  }

  /** The alert is there before copying, and again after it. */
  predicate CopyStaysApproved(m: Moment, expected: Alert) {
    Stands(m, expected) && (expected.previousStorePath.Some? ==> Works(Later(m, 1)) && Stands(Later(m, 2), expected))
  }

  function CopySteps(expected: Alert): nat {
    if expected.previousStorePath.Some? then 3 else 1
  }

  /** The moment at which the repository is looked for. */
  function AtCommit(m: Moment, config: Config, expected: Alert): Moment {
    Later(m, DriftSteps(m, config) + CopySteps(expected))
  }

  // When an action is carried out

  /** An approved move to the current location, from the approval on. */
  predicate MoveGoesThrough(m: Moment, config: Config, expected: Alert, files: bool) {
    && DriftApproved(m, config, expected) && CopyStaysApproved(Later(m, DriftSteps(m, config)), expected)
    && GetsRepository(AtCommit(m, config, expected), config)
    && CommitStaysApproved(AtRepository(AtCommit(m, config, expected), config), config, expected, files)
  }

  /** An approved retry of a push, from the approval on. */
  predicate RetryGoesThrough(m: Moment, config: Config, expected: Alert) {
    && FindsRepository(m, config) && Stands(Later(m, 1), expected)
    && GitSeen(Later(m, 2), config).Some? && StaysApproved(Later(m, 6), config, GitSeen(Later(m, 2), config).value, expected)
  }

  predicate MatchesAction(expected: Alert, config: Config) {
    expected.currentProjectPath == config.projectPath && expected.currentStorePath == config.storePath
  }

  /** The alert that an action goes by: the one found, which must be about the configured paths. */
  function AlertFound(m: Moment, config: Config): Option<Alert> {
    var found := Later(m, 1).alert;
    if Works(m) && found.Some? && MatchesAction(found.value, config) then found else None
  }

  /** The approval names that alert, which is still there at the next look. */
  predicate IsApproved(hash: string -> string, m: Moment, approved: Option<string>, expected: Alert) {
    approved == Some(Generation(hash, expected)) && Stands(Later(m, 1), expected)
  }

  /** The migration is approved and carried out: a failed push is retried, drifted paths are moved to. */
  predicate Migrates(hash: string -> string, m: Moment, config: Config, approved: Option<string>, files: bool) {
    var found := AlertFound(m, config);
    && found.Some? && IsApproved(hash, m, approved, found.value)
    && match found.value.kind
       case PushFailed => RetryGoesThrough(Later(m, 2), config, found.value)
       case PathDrift => MoveGoesThrough(Later(m, 2), config, found.value, files)
       case _ => false
  }

  predicate HasPrevious(expected: Alert) {
    expected.previousProjectPath.Some? && expected.previousStorePath.Some?
  }

  /** A revert gets as far as rewriting the configuration file. */
  predicate RewritesConfig(hash: string -> string, m: Moment, config: Config, approved: Option<string>) {
    var found := AlertFound(m, config);
    && found.Some? && IsApproved(hash, m, approved, found.value) && HasPrevious(found.value)
    && Stands(Later(m, 2), found.value) && Works(Later(m, 3))
  }

  /** A revert is carried out; if the reloaded paths are the stamped ones, the alert must still be there to be cleared. */
  predicate Reverts(hash: string -> string, m: Moment, config: Config, approved: Option<string>,
                    stamp: Option<Stamp>, reloaded: Option<Config>)
  {
    && RewritesConfig(hash, m, config, approved)
    && (reloaded.Some? ==>
          Works(Later(m, 4)) && (PathsMatch(stamp, reloaded.value) ==> Stands(Later(m, 5), AlertFound(m, config).value)))
  }

  /** The deletion of a missing record is approved and carried out. */
  predicate Deletes(hash: string -> string, m: Moment, config: Config, approved: Option<string>) {
    var found, seen := AlertFound(m, config), Later(m, 3).world.inconsistent;
    && found.Some? && IsApproved(hash, m, approved, found.value) && found.value.kind == ContentInconsistent
    && Works(Later(m, 2)) && seen.Some? && seen.value.missingFile
    && Stands(Later(m, 3), found.value) && seen.value.memoryId in Later(m, 4).memories
  }

  /** The state of git that four looks see, in what is there at each of them; a look that fails sees none. */
  lemma GitSeenIff(m: Moment, config: Config, state: GitState)
    ensures GitSeen(m, config) == Some(state)
       <==> && StepWorks(m.script, 0) && config.projectPath in WorldAfter(m.world, m.script, 1).repositories
            && StepWorks(m.script, 1) && Branch(WorldAfter(m.world, m.script, 2), config) == Some(config.branch)
            && state.remoteUrl == (if StepWorks(m.script, 2) then RemoteUrl(WorldAfter(m.world, m.script, 3), config) else None)
            && state.head == (if StepWorks(m.script, 3) then Lookup(WorldAfter(m.world, m.script, 4).heads, config.projectPath) else None)
  {
    LaterAll(m, 1, 1);
    LaterAll(m, 2, 1);
    LaterAll(m, 3, 1);
    StepLater(m.script, 1, 0);
    StepLater(m.script, 2, 0);
    StepLater(m.script, 3, 0);
  }

  /** A retry needs the alert at its first and its last look, and the same branch, remote and head before and after the push. */
  lemma RetryKeepsGit(m: Moment, config: Config, expected: Alert)
    requires RetryGoesThrough(m, config, expected)
    ensures var pushed := Later(m, 6 + PushSteps(Later(m, 6), config));
            && FindsRepository(m, config) && Later(m, 2).alert == Some(expected) && Later(pushed, 4).alert == Some(expected)
            && FindsRepository(Later(m, 2), config) && FindsRepository(pushed, config)
            && BranchSeen(Later(m, 3), config) == Some(config.branch) == BranchSeen(Later(pushed, 1), config)
            && UrlSeen(Later(m, 4), config) == UrlSeen(Later(pushed, 2), config)
            && HeadSeen(Later(m, 5), config) == HeadSeen(Later(pushed, 3), config)
            && (config.push && UrlSeen(Later(m, 6), config).Some? ==> Works(Later(m, 7)))
  {
    hide FindsRepository, BranchSeen, UrlSeen, HeadSeen, Works, PushSteps, Later;
    StandsNext(Later(m, 1), expected);
    LaterAll(m, 1, 1);
    LaterAll(m, 2, 1);
    LaterAll(m, 2, 2);
    LaterAll(m, 2, 3);
    LaterAll(m, 6, 1);
    LaterAll(m, 6, PushSteps(Later(m, 6), config));
    LaterAll(Later(m, 6), PushSteps(Later(m, 6), config), 4);
    LaterAll(m, 6, PushSteps(Later(m, 6), config) + 4);
  }

  lemma StandsNext(m: Moment, expected: Alert)
    ensures Stands(m, expected) ==> Later(m, 1).alert == Some(expected)
  {
  }

  /**
   A move to the current location keeps the approved remote, branch and URL at every look, the head but
   for its own commit, and the alert before copying, after it, and at the end.
   */
  lemma MoveKeepsGit(m: Moment, config: Config, expected: Alert, files: bool)
    requires MoveGoesThrough(m, config, expected, files)
    ensures var copied := AtCommit(m, config, expected);
            var at := AtRepository(copied, config);
            var committed := Later(at, 4 + CommitSteps(files));
            var pushed := Later(committed, PushSteps(committed, config));
            && expected.gitRemote == config.remote && expected.gitBranch == config.branch
            && (FindsRepository(m, config) ==> UrlSeen(Later(m, 3), config) == expected.gitRemoteUrl)
            && Later(m, DriftSteps(m, config) + 1).alert == Some(expected) && copied.alert == Some(expected)
            && Later(pushed, 4).alert == Some(expected)
            && UrlSeen(Later(at, 2), config) == expected.gitRemoteUrl == UrlSeen(Later(pushed, 2), config)
            && BranchSeen(Later(at, 1), config) == Some(config.branch) == BranchSeen(Later(pushed, 1), config)
            && HeadSeen(Later(at, 3), config) == HeadSeen(Later(at, 7), config)
            && (files ==> HeadSeen(Later(at, 3), config) == HeadSeen(Later(at, 12), config))
            && HeadSeen(Later(at, if files then 17 else 7), config) == HeadSeen(Later(pushed, 3), config)
            && (config.push && UrlSeen(committed, config).Some? ==> Works(Later(committed, 1)))
  {
    hide FindsRepository, BranchSeen, UrlSeen, HeadSeen, Works, PushSteps, Later, GetsRepository, AtRepository, DriftSteps;
    var copied := AtCommit(m, config, expected);
    var at := AtRepository(copied, config);
    DriftKeepsGit(m, config, expected);
    CommitKeepsGit(at, config, expected, files);
  }

  lemma DriftKeepsGit(m: Moment, config: Config, expected: Alert)
    requires DriftApproved(m, config, expected) && CopyStaysApproved(Later(m, DriftSteps(m, config)), expected)
    ensures expected.gitRemote == config.remote && expected.gitBranch == config.branch
    ensures FindsRepository(m, config) ==> UrlSeen(Later(m, 3), config) == expected.gitRemoteUrl
    ensures Later(m, DriftSteps(m, config) + 1).alert == Some(expected) && AtCommit(m, config, expected).alert == Some(expected)
  {
    hide FindsRepository, BranchSeen, UrlSeen, HeadSeen, Works, Later, DriftSteps;
    var examined := Later(m, DriftSteps(m, config));
    LaterAll(m, 1, 2);
    LaterAll(m, DriftSteps(m, config), 1);
    LaterAll(m, DriftSteps(m, config), 3);
    LaterAll(examined, 2, 1);
    StandsNext(examined, expected);
    StandsNext(Later(examined, 2), expected);
  }

  lemma CommitKeepsGit(at: Moment, config: Config, expected: Alert, files: bool)
    requires CommitStaysApproved(at, config, expected, files)
    ensures var committed := Later(at, 4 + CommitSteps(files));
            var pushed := Later(committed, PushSteps(committed, config));
            && Later(pushed, 4).alert == Some(expected)
            && UrlSeen(Later(at, 2), config) == expected.gitRemoteUrl == UrlSeen(Later(pushed, 2), config)
            && BranchSeen(Later(at, 1), config) == Some(config.branch) == BranchSeen(Later(pushed, 1), config)
            && HeadSeen(Later(at, 3), config) == HeadSeen(Later(at, 7), config)
            && (files ==> HeadSeen(Later(at, 3), config) == HeadSeen(Later(at, 12), config))
            && HeadSeen(Later(at, if files then 17 else 7), config) == HeadSeen(Later(pushed, 3), config)
            && (config.push && UrlSeen(committed, config).Some? ==> Works(Later(committed, 1)))
  {
    hide FindsRepository, BranchSeen, UrlSeen, HeadSeen, Works, PushSteps, Later;
    var committed := Later(at, 4 + CommitSteps(files));
    LaterAll(at, 4, 3);
    LaterAll(at, 4, 5);
    LaterAll(at, 4, 10);
    LaterAll(at, 9, 3);
    LaterAll(at, 14, 3);
    LaterAll(committed, PushSteps(committed, config), 4);
  }

  // Nothing happens

  /** The repository, if there is one, is on the configured branch and the remote has the approved URL. */
  predicate CanMigrate(world: World, config: Config, expected: Alert) {
    && expected.gitRemote == config.remote && expected.gitBranch == config.branch
    && RemoteUrl(world, config) == expected.gitRemoteUrl
    && (config.projectPath in world.repositories ==> Branch(world, config) == Some(config.branch))
  }

  predicate CanRevert(alert: Option<Alert>, config: Config) {
    alert.Some? && MatchesAction(alert.value, config) && HasPrevious(alert.value)
  }

  predicate CanDelete(m: Moment, config: Config) {
    && m.alert.Some? && MatchesAction(m.alert.value, config) && m.alert.value.kind == ContentInconsistent
    && m.world.inconsistent.Some? && m.world.inconsistent.value.missingFile
  }

  lemma QuietGit(m: Moment, config: Config)
    requires m.script == []
    ensures GitSeen(m, config) == if config.projectPath in m.world.repositories && Branch(m.world, config) == Some(config.branch)
                                  then Some(GitState(RemoteUrl(m.world, config), Lookup(m.world.heads, config.projectPath))) else None
  {
  }

  lemma QuietStay(m: Moment, config: Config, before: GitState, expected: Alert, files: bool)
    requires m.script == []
    ensures StaysApproved(m, config, before, expected) <==> GitSeen(m, config) == Some(before) && m.alert == Some(expected)
    ensures CommitSeen(m, config, before, files) == if GitSeen(m, config) == Some(before) then Some(before) else None
  {
    hide GitSeen;
  }

  /** An undisturbed retry needs the alert, and the repository on the configured branch. */
  lemma QuietRetry(m: Moment, config: Config, expected: Alert)
    requires m.script == []
    ensures RetryGoesThrough(m, config, expected)
       <==> m.alert == Some(expected) && config.projectPath in m.world.repositories && Branch(m.world, config) == Some(config.branch)
  {
    QuietGit(m, config);
    if GitSeen(m, config).Some? {
      QuietStay(m, config, GitSeen(m, config).value, expected, false);
    }
  }

  /** An undisturbed move needs the alert, and what it says about remote, URL and branch. */
  lemma QuietMove(m: Moment, config: Config, expected: Alert, files: bool)
    requires m.script == []
    ensures MoveGoesThrough(m, config, expected, files) <==> m.alert == Some(expected) && CanMigrate(m.world, config, expected)
  {
    hide GitSeen, CommitSeen, StaysApproved;
    var at := AtRepository(m, config);
    QuietGit(m, config);
    QuietGit(at, config);
    if GitSeen(at, config).Some? {
      QuietStay(at, config, GitSeen(at, config).value, expected, files);
    }
  }

  /** Worlds with the same remotes show the same URLs from then on. */
  lemma {:induction false} UrlsSame(a: Moment, b: Moment, n: nat, config: Config)
    requires a.world.remoteUrls == b.world.remoteUrls && a.script == b.script
    ensures Later(a, n).world.remoteUrls == Later(b, n).world.remoteUrls
    ensures UrlSeen(Later(a, n), config) == UrlSeen(Later(b, n), config)
    decreases n
  {
    LaterAll(a, n, 1);
    LaterAll(b, n, 1);
    RemotesSame(a.world, b.world, a.script, n);
    RemotesSame(a.world, b.world, a.script, n + 1);
  }

  lemma {:induction false} RemotesSame(a: World, b: World, script: seq<Change>, n: nat)
    requires a.remoteUrls == b.remoteUrls
    ensures WorldAfter(a, script, n).remoteUrls == WorldAfter(b, script, n).remoteUrls
    decreases n
  {
    if n > 0 && script != [] {
      RemotesSame(if script[0].world.Some? then script[0].world.value else a,
                  if script[0].world.Some? then script[0].world.value else b, script[1..], n - 1);
    }
  }
}
