/** What one call of `sync` (declarr/arr.py:455-666) does, as a function of the
    state it starts from: each phase is a step from one `Machine` to the next,
    the phases of a server type run in the order of `Phases`, and the first
    phase that raises ends the run. The engine's methods are proved to leave
    exactly the state these functions compute. */
module Runs {
  import opened Wrappers
  import opened Json
  import opened Http
  import opened Utils
  import opened Resources
  import opened Contracts
  import opened Tags
  import opened Patcher
  import opened Orchestration

  /** The `defaults` callers leave at its default value: `lambda k, v: v`. */
  function Keep(k: string, v: Value): Result<Value, Exc> {
    Ok(v)
  }

  /** The default `scheme_key` of `sync_contracts`. */
  const ImplementationScheme: (string, string) := ("implementation", "implementation")

  // ---------------------------------------------------------------- growth

  /** How the request log and the queue may change during the reconciliation
      phases: both only grow; a new request deletes something only when `folders`
      allows it, and then only one root folder; every new queue entry names one
      record and carries no body. */
  predicate Grows(t0: seq<Request>, t1: seq<Request>, q0: seq<(Target, Value)>, q1: seq<(Target, Value)>, folders: bool) {
    && |t0| <= |t1| && (forall i :: 0 <= i < |t0| ==> t1[i] == t0[i])
    && (forall i :: |t0| <= i < |t1| && t1[i].verb == Delete ==>
          folders && t1[i].target.Item? && t1[i].target.path == "/rootFolder")
    && |q0| <= |q1| && (forall i :: 0 <= i < |q0| ==> q1[i] == q0[i])
    && (forall i :: |q0| <= i < |q1| ==> q1[i].0.Item? && q1[i].1 == Null)
  }

  /** Appending requests that delete nothing but root folders (and those only
      when `folders` allows it), and queue entries that each name one record, is
      growth. */
  lemma GrowsBy(t0: seq<Request>, sent: seq<Request>, q0: seq<(Target, Value)>, queued: seq<(Target, Value)>, folders: bool)
    requires forall r :: r in sent && r.verb == Delete ==> folders && r.target.Item? && r.target.path == "/rootFolder"
    requires forall i :: 0 <= i < |queued| ==> queued[i].0.Item? && queued[i].1 == Null
    ensures Grows(t0, t0 + sent, q0, q0 + queued, folders)
  {
    forall i | |t0| <= i < |t0 + sent|
      ensures (t0 + sent)[i] in sent
    {
      assert (t0 + sent)[i] == sent[i - |t0|];
    }
    forall i | |q0| <= i < |q0 + queued|
      ensures (q0 + queued)[i].0.Item? && (q0 + queued)[i].1 == Null
    {
      assert (q0 + queued)[i] == queued[i - |q0|];
    }
  }

  /** Growth composes; a step that deletes no root folder composes with any. */
  lemma GrowsTrans(t0: seq<Request>, t1: seq<Request>, t2: seq<Request>,
                   q0: seq<(Target, Value)>, q1: seq<(Target, Value)>, q2: seq<(Target, Value)>,
                   f01: bool, f12: bool, folders: bool)
    requires Grows(t0, t1, q0, q1, f01) && Grows(t1, t2, q1, q2, f12)
    requires (f01 ==> folders) && (f12 ==> folders)
    ensures Grows(t0, t2, q0, q2, folders)
  {
    forall i | |t0| <= i < |t1|
      ensures t2[i] == t1[i]
    {
    }
  }

  /** Appending in two steps is appending once. */
  lemma Regroup<T>(a: seq<T>, b: seq<T>, c: seq<T>)
    ensures a + b + c == a + (b + c)
  {
  }

  // ---------------------------------------------------------------- one phase

  /** What `sync` works on: the requests sent so far, the deferred deletions,
      `self.cfg`, `self.tag_map`, and the local `profile_map` of the prowlarr
      block. */
  datatype Machine = Machine(trace: seq<Request>, queue: seq<(Target, Value)>, cfg: Dict, tagMap: Dict, profileMap: Dict)

  /** The machine after a phase, and how the phase ended. */
  datatype Stage = Stage(m: Machine, outcome: Outcome<Exc>)

  /** A phase that sent `e.sent` and queued `e.queued`. */
  function Applied(m: Machine, e: Effect): Stage {
    Stage(m.(trace := m.trace + e.sent, queue := m.queue + e.queued), e.outcome)
  }

  /** A phase that sent `r.sent` and queued nothing. */
  function Ran(m: Machine, r: Run): Stage {
    Stage(m.(trace := m.trace + r.sent), r.outcome)
  }

  /** The phases that are one `sync_contracts` call with the default arguments. */
  predicate IsContractPhase(p: Phase) {
    p == DownloadClients || p == Applications || p == IndexerProxies || p == Notifications
  }

  /** The configuration key such a phase reads and the endpoint it reconciles. */
  function CollectionOf(p: Phase): (r: (string, string))
    requires IsContractPhase(p)
  {
    match p
    case DownloadClients => ("downloadClient", "/downloadClient")
    case Applications => ("applications", "/applications")
    case IndexerProxies => ("indexerProxy", "/indexerProxy")
    case Notifications => ("notification", "/notification")
  }

  /** `sync_contracts(path, self.cfg[key], defaults, scheme_key)`: a missing key
      raises before anything is sent. */
  function ContractsStage(server: Server, m: Machine, key: string, path: string, defaults: Defaults,
                          schemeKey: (string, string)): Stage {
    match Field(Obj(m.cfg), key)
    case Err(e) => Stage(m, Fail(e))
    case Ok(decl) => Applied(m, ContractsEffect(server, |m.trace|, path, decl, defaults, schemeKey, m.tagMap))
  }

  /** `sync_tags()`: the gathered labels are written back to `cfg["tag"]` when the
      configuration declares that key as a list, which `+=` extends in place; the tag map is
      replaced exactly when the phase passes; lidarr also gathers its root
      folders' default tags. */
  function TagsStage(server: Server, kind: ServerType, m: Machine): Stage {
    var t := TagsEffect(server, |m.trace|, m.cfg, kind == Lidarr);
    var cfg := if HasKey(m.cfg, "tag") && InitialTags(m.cfg).Arr? then Set(m.cfg, "tag", Arr(t.gathered)) else m.cfg;
    Stage(m.(trace := m.trace + t.sent, cfg := cfg, tagMap := if t.tagMap.Some? then t.tagMap.value else m.tagMap),
          t.outcome)
  }

  /** `sync_contracts(path, self.cfg[key])` with the default defaults and scheme key:
      the download clients, prowlarr's applications and indexer proxies, and the
      notifications. */
  function CollectionStage(server: Server, p: Phase, m: Machine): Stage
    requires IsContractPhase(p)
  {
    ContractsStage(server, m, CollectionOf(p).0, CollectionOf(p).1, Keep, ImplementationScheme)
  }

  /** The prowlarr application profiles: `sync_resources("/appprofile", ..)` and
      then `profile_map` from a second listing; the map is empty when the
      declaration cannot be read. */
  function AppProfilesStage(server: Server, m: Machine): Stage {
    match Field(Obj(m.cfg), "appProfile")
    case Err(e) => Stage(m.(profileMap := []), Fail(e))
    case Ok(decl) =>
      var r := AppProfilesEffect(server, |m.trace|, decl);
      Applied(m.(profileMap := r.profileMap), r.effect)
  }

  /** Prowlarr's indexers, each given an application profile id from the map, and
      matched to their schema by `indexerName`. */
  function IndexersStage(server: Server, m: Machine): Stage {
    ContractsStage(server, m, "indexer", "/indexer", IndexerDefaults(m.profileMap), ("name", "indexerName"))
  }

  /** The update-only quality definitions. */
  function QualityDefinitionsStage(server: Server, m: Machine): Stage {
    Ran(m, QualityDefinitionsEffect(server, |m.trace|, Field(Obj(m.cfg), "qualityDefinition")))
  }

  /** `sync_resources("/customformat", self.cfg["customFormat"], allow_error=True)`. */
  function CustomFormatsStage(server: Server, m: Machine): Stage {
    match Field(Obj(m.cfg), "customFormat")
    case Err(e) => Stage(m, Fail(e))
    case Ok(decl) => Applied(m, ResourcesEffect(server, |m.trace|, "/customformat", decl, Keep, true, "name"))
  }

  /** The custom formats listed, then the quality profiles reconciled. */
  function QualityProfilesStage(server: Server, m: Machine): Stage {
    Applied(m, QualityProfilesEffect(server, |m.trace|, Field(Obj(m.cfg), "qualityProfile")))
  }

  /** The sonarr/radarr root-folder diff. */
  function RootFoldersStage(server: Server, m: Machine): Stage {
    match Field(Obj(m.cfg), "rootFolder")
    case Err(e) => Stage(m, Fail(e))
    case Ok(decl) => Ran(m, RootFoldersEffect(server, |m.trace|, decl))
  }

  /** The lidarr root folders, with the tag map of the tags phase. */
  function LidarrRootFoldersStage(server: Server, m: Machine): Stage {
    Applied(m, LidarrRootFoldersEffect(server, |m.trace|, Field(Obj(m.cfg), "rootFolder"), m.tagMap))
  }

  /** `recursive_sync(self.cfg["config"], resource="/config")`. */
  function SettingsStage(server: Server, m: Machine): Stage {
    match Field(Obj(m.cfg), "config")
    case Err(e) => Stage(m, Fail(e))
    case Ok(decl) => Ran(m, Patch(server, |m.trace|, decl, "/config"))
  }

  /** The drain: one DELETE per queued entry, every failure swallowed, the queue
      kept. */
  function DrainStage(m: Machine): Stage {
    Stage(m.(trace := m.trace + DrainRequests(m.queue)), Pass)
  }

  /** What each phase of `sync` does, one function per phase. */
  datatype Semantics = Semantics(
    tags: Machine -> Stage, downloadClients: Machine -> Stage,
    appProfiles: Machine -> Stage, indexers: Machine -> Stage,
    applications: Machine -> Stage, indexerProxies: Machine -> Stage,
    qualityDefinitions: Machine -> Stage, customFormats: Machine -> Stage, qualityProfiles: Machine -> Stage,
    rootFolders: Machine -> Stage, lidarrRootFolders: Machine -> Stage,
    notifications: Machine -> Stage, settings: Machine -> Stage, drain: Machine -> Stage)
  {
    /** Phase `p` from machine `m`. */
    function Run(p: Phase, m: Machine): Stage {
      match p
      case Tags => tags(m)
      case DownloadClients => downloadClients(m)
      case AppProfiles => appProfiles(m)
      case Indexers => indexers(m)
      case Applications => applications(m)
      case IndexerProxies => indexerProxies(m)
      case QualityDefinitions => qualityDefinitions(m)
      case CustomFormats => customFormats(m)
      case QualityProfiles => qualityProfiles(m)
      case RootFolders => rootFolders(m)
      case LidarrRootFolders => lidarrRootFolders(m)
      case Notifications => notifications(m)
      case Settings => settings(m)
      case Drain => drain(m)
    }
  }

  /** The phases of `sync` against `server`, for a server of type `kind`. */
  function PhaseSemantics(server: Server, kind: ServerType): Semantics {
    Semantics(
      (m: Machine) => TagsStage(server, kind, m), (m: Machine) => CollectionStage(server, DownloadClients, m),
      (m: Machine) => AppProfilesStage(server, m), (m: Machine) => IndexersStage(server, m),
      (m: Machine) => CollectionStage(server, Applications, m), (m: Machine) => CollectionStage(server, IndexerProxies, m),
      (m: Machine) => QualityDefinitionsStage(server, m), (m: Machine) => CustomFormatsStage(server, m),
      (m: Machine) => QualityProfilesStage(server, m),
      (m: Machine) => RootFoldersStage(server, m), (m: Machine) => LidarrRootFoldersStage(server, m),
      (m: Machine) => CollectionStage(server, Notifications, m), (m: Machine) => SettingsStage(server, m),
      (m: Machine) => DrainStage(m))
  }

  // A semantics runs a phase as `PhaseSemantics` does when it agrees with that
  // phase's definition on every machine. Each agreement is triggered by the
  // definition itself, so that a proof sees only the phases it names.

  ghost predicate RunsTags(sem: Semantics, server: Server, kind: ServerType) {
    forall m {:trigger TagsStage(server, kind, m)} :: sem.tags(m) == TagsStage(server, kind, m)
  }

  ghost predicate RunsCollections(sem: Semantics, server: Server) {
    && (forall m {:trigger CollectionStage(server, DownloadClients, m)} ::
          sem.downloadClients(m) == CollectionStage(server, DownloadClients, m))
    && (forall m {:trigger CollectionStage(server, Applications, m)} ::
          sem.applications(m) == CollectionStage(server, Applications, m))
    && (forall m {:trigger CollectionStage(server, IndexerProxies, m)} ::
          sem.indexerProxies(m) == CollectionStage(server, IndexerProxies, m))
    && (forall m {:trigger CollectionStage(server, Notifications, m)} ::
          sem.notifications(m) == CollectionStage(server, Notifications, m))
  }

  ghost predicate RunsAppProfiles(sem: Semantics, server: Server) {
    forall m {:trigger AppProfilesStage(server, m)} :: sem.appProfiles(m) == AppProfilesStage(server, m)
  }

  ghost predicate RunsIndexers(sem: Semantics, server: Server) {
    forall m {:trigger IndexersStage(server, m)} :: sem.indexers(m) == IndexersStage(server, m)
  }

  ghost predicate RunsQualityDefinitions(sem: Semantics, server: Server) {
    forall m {:trigger QualityDefinitionsStage(server, m)} ::
      sem.qualityDefinitions(m) == QualityDefinitionsStage(server, m)
  }

  ghost predicate RunsCustomFormats(sem: Semantics, server: Server) {
    forall m {:trigger CustomFormatsStage(server, m)} :: sem.customFormats(m) == CustomFormatsStage(server, m)
  }

  ghost predicate RunsQualityProfiles(sem: Semantics, server: Server) {
    forall m {:trigger QualityProfilesStage(server, m)} :: sem.qualityProfiles(m) == QualityProfilesStage(server, m)
  }

  ghost predicate RunsRootFolders(sem: Semantics, server: Server) {
    forall m {:trigger RootFoldersStage(server, m)} :: sem.rootFolders(m) == RootFoldersStage(server, m)
  }

  ghost predicate RunsLidarrRootFolders(sem: Semantics, server: Server) {
    forall m {:trigger LidarrRootFoldersStage(server, m)} ::
      sem.lidarrRootFolders(m) == LidarrRootFoldersStage(server, m)
  }

  ghost predicate RunsSettings(sem: Semantics, server: Server) {
    forall m {:trigger SettingsStage(server, m)} :: sem.settings(m) == SettingsStage(server, m)
  }

  ghost predicate RunsDrain(sem: Semantics) {
    forall m {:trigger DrainStage(m)} :: sem.drain(m) == DrainStage(m)
  }

  /** `sem` runs every phase as `PhaseSemantics` does. */
  ghost predicate Faithful(sem: Semantics, server: Server, kind: ServerType) {
    && RunsTags(sem, server, kind) && RunsCollections(sem, server)
    && RunsAppProfiles(sem, server) && RunsIndexers(sem, server)
    && RunsQualityDefinitions(sem, server) && RunsCustomFormats(sem, server) && RunsQualityProfiles(sem, server)
    && RunsRootFolders(sem, server) && RunsLidarrRootFolders(sem, server)
    && RunsSettings(sem, server) && RunsDrain(sem)
  }

  /** `PhaseSemantics` is faithful. */
  lemma PhaseSemanticsFaithful(server: Server, kind: ServerType)
    ensures Faithful(PhaseSemantics(server, kind), server, kind)
  {
  }

  /** What phase `p`, run from `m`, may change to reach `s`: every phase but the
      drain only appends to the log and the queue, and only the sonarr/radarr root
      folders delete before the drain; only the tags phase changes the
      configuration and the tag map, only the application profiles the profile
      map; the drain appends one DELETE per queued entry and never raises. */
  ghost predicate Confined(p: Phase, m: Machine, s: Stage) {
    && (p != Drain ==> Grows(m.trace, s.m.trace, m.queue, s.m.queue, p == RootFolders))
    && (p != Tags ==> s.m.cfg == m.cfg && s.m.tagMap == m.tagMap)
    && (p != AppProfiles ==> s.m.profileMap == m.profileMap)
    && (p == Drain ==> s == DrainStage(m))
  }

  /** Every phase of `sem` keeps to `Confined`. */
  ghost predicate Confining(sem: Semantics) {
    forall p, m {:trigger sem.Run(p, m)} :: Confined(p, m, sem.Run(p, m))
  }

  /** The phases of `sync` keep to `Confined`. */
  lemma FaithfulConfining(sem: Semantics, server: Server, kind: ServerType)
    requires Faithful(sem, server, kind)
    ensures Confining(sem)
  {
    forall p, m ensures Confined(p, m, sem.Run(p, m)) {
      match p
      case Tags => TagsConfined(sem, server, kind, m);
      case DownloadClients | Applications | IndexerProxies | Notifications | Indexers =>
        ContractsConfined(sem, server, p, m);
      case AppProfiles => AppProfilesConfined(sem, server, m);
      case QualityDefinitions | CustomFormats | QualityProfiles => QualitiesConfined(sem, server, m);
      case RootFolders | LidarrRootFolders | Settings => FoldersConfined(sem, server, m);
      case Drain => assert sem.drain(m) == DrainStage(m);
    }
  }

  /** The tags phase only sends tag requests. */
  lemma TagsConfined(sem: Semantics, server: Server, kind: ServerType, m: Machine)
    requires RunsTags(sem, server, kind)
    ensures Confined(Tags, m, sem.tags(m))
  {
    assert sem.tags(m) == TagsStage(server, kind, m);
    var t := TagsEffect(server, |m.trace|, m.cfg, kind == Lidarr);
    assert forall r :: r in t.sent ==> TagRequest(r);
    GrowsBy(m.trace, t.sent, m.queue, [], false);
    assert m.queue + [] == m.queue;
  }

  /** A `sync_contracts` phase deletes nothing before the drain. */
  lemma ContractsConfined(sem: Semantics, server: Server, p: Phase, m: Machine)
    requires RunsCollections(sem, server) && RunsIndexers(sem, server)
    requires IsContractPhase(p) || p == Indexers
    ensures Confined(p, m, sem.Run(p, m))
  {
    if p == Indexers {
      assert sem.indexers(m) == IndexersStage(server, m);
      ContractsStageConfined(server, p, m, "indexer", "/indexer", IndexerDefaults(m.profileMap), ("name", "indexerName"));
    } else {
      assert sem.Run(p, m) == CollectionStage(server, p, m) by {
        match p
        case DownloadClients => assert sem.downloadClients(m) == CollectionStage(server, p, m);
        case Applications => assert sem.applications(m) == CollectionStage(server, p, m);
        case IndexerProxies => assert sem.indexerProxies(m) == CollectionStage(server, p, m);
        case Notifications => assert sem.notifications(m) == CollectionStage(server, p, m);
      }
      ContractsStageConfined(server, p, m, CollectionOf(p).0, CollectionOf(p).1, Keep, ImplementationScheme);
    }
  }

  /** Any `sync_contracts` phase, whatever its key, endpoint, defaults and
      scheme key, only appends requests that delete nothing and queues only
      single records. */
  lemma ContractsStageConfined(server: Server, p: Phase, m: Machine, key: string, path: string, defaults: Defaults,
                               schemeKey: (string, string))
    requires IsContractPhase(p) || p == Indexers
    ensures Confined(p, m, ContractsStage(server, m, key, path, defaults, schemeKey))
  {
    var decl := Field(Obj(m.cfg), key);
    if decl.Err? {
      GrowsBy(m.trace, [], m.queue, [], false);
      assert m.trace + [] == m.trace && m.queue + [] == m.queue;
    } else {
      var e := ContractsEffect(server, |m.trace|, path, decl.value, defaults, schemeKey, m.tagMap);
      GrowsBy(m.trace, e.sent, m.queue, e.queued, false);
    }
  }

  /** The application profiles phase deletes nothing before the drain. */
  lemma AppProfilesConfined(sem: Semantics, server: Server, m: Machine)
    requires RunsAppProfiles(sem, server)
    ensures Confined(AppProfiles, m, sem.appProfiles(m))
  {
    assert sem.appProfiles(m) == AppProfilesStage(server, m);
    var decl := Field(Obj(m.cfg), "appProfile");
    if decl.Err? {
      GrowsBy(m.trace, [], m.queue, [], false);
      assert m.trace + [] == m.trace && m.queue + [] == m.queue;
    } else {
      var r := AppProfilesEffect(server, |m.trace|, decl.value);
      GrowsBy(m.trace, r.effect.sent, m.queue, r.effect.queued, false);
    }
  }

  /** The quality definitions, custom formats and quality profiles delete nothing
      before the drain. */
  lemma QualitiesConfined(sem: Semantics, server: Server, m: Machine)
    requires RunsQualityDefinitions(sem, server) && RunsCustomFormats(sem, server)
    requires RunsQualityProfiles(sem, server)
    ensures Confined(QualityDefinitions, m, sem.qualityDefinitions(m))
    ensures Confined(CustomFormats, m, sem.customFormats(m))
    ensures Confined(QualityProfiles, m, sem.qualityProfiles(m))
  {
    assert sem.qualityDefinitions(m) == QualityDefinitionsStage(server, m);
    assert sem.customFormats(m) == CustomFormatsStage(server, m);
    assert sem.qualityProfiles(m) == QualityProfilesStage(server, m);
    var n := |m.trace|;
    GrowsBy(m.trace, QualityDefinitionsEffect(server, n, Field(Obj(m.cfg), "qualityDefinition")).sent, m.queue, [], false);
    assert m.queue + [] == m.queue;
    var decl := Field(Obj(m.cfg), "customFormat");
    if decl.Err? {
      GrowsBy(m.trace, [], m.queue, [], false);
      assert m.trace + [] == m.trace;
    } else {
      var e := ResourcesEffect(server, n, "/customformat", decl.value, Keep, true, "name");
      GrowsBy(m.trace, e.sent, m.queue, e.queued, false);
    }
    var e := QualityProfilesEffect(server, n, Field(Obj(m.cfg), "qualityProfile"));
    GrowsBy(m.trace, e.sent, m.queue, e.queued, false);
  }

  /** The sonarr/radarr root folders are the only phase that deletes before the
      drain; the lidarr root folders and the settings delete nothing. */
  lemma FoldersConfined(sem: Semantics, server: Server, m: Machine)
    requires RunsRootFolders(sem, server) && RunsLidarrRootFolders(sem, server) && RunsSettings(sem, server)
    ensures Confined(RootFolders, m, sem.rootFolders(m))
    ensures Confined(LidarrRootFolders, m, sem.lidarrRootFolders(m))
    ensures Confined(Settings, m, sem.settings(m))
  {
    assert sem.rootFolders(m) == RootFoldersStage(server, m);
    assert sem.lidarrRootFolders(m) == LidarrRootFoldersStage(server, m);
    assert sem.settings(m) == SettingsStage(server, m);
    var n := |m.trace|;
    assert m.trace + [] == m.trace && m.queue + [] == m.queue;
    var folders := Field(Obj(m.cfg), "rootFolder");
    if folders.Err? {
      GrowsBy(m.trace, [], m.queue, [], true);
    } else {
      GrowsBy(m.trace, RootFoldersEffect(server, n, folders.value).sent, m.queue, [], true);
    }
    var e := LidarrRootFoldersEffect(server, n, folders, m.tagMap);
    GrowsBy(m.trace, e.sent, m.queue, e.queued, false);
    var config := Field(Obj(m.cfg), "config");
    if config.Err? {
      GrowsBy(m.trace, [], m.queue, [], false);
    } else {
      GrowsBy(m.trace, Patch(server, n, config.value, "/config").sent, m.queue, [], false);
    }
  }

  // ---------------------------------------------------------------- a run

  /** The first `n` phases of `ps` run in order from `m`, stopping at the first
      that raises. */
  function Progress(sem: Semantics, ps: seq<Phase>, n: nat, m: Machine): Stage
    requires n <= |ps|
  {
    if n == 0 then Stage(m, Pass)
    else
      var s := Progress(sem, ps, n - 1, m);
      if s.outcome.Fail? then s else sem.Run(ps[n - 1], s.m)
  }

  /** One more phase: it runs exactly when every phase before it passed. */
  lemma ProgressNext(sem: Semantics, ps: seq<Phase>, i: nat, m: Machine)
    requires i < |ps|
    ensures var s := Progress(sem, ps, i, m);
      Progress(sem, ps, i + 1, m) == if s.outcome.Fail? then s else sem.Run(ps[i], s.m)
  {
  }

  /** The first phase that raises ends the run: nothing after it is sent, queued
      or changed, and its error is the run's. */
  lemma {:induction false} ProgressStops(sem: Semantics, ps: seq<Phase>, i: nat, j: nat, m: Machine)
    requires i <= j <= |ps| && Progress(sem, ps, i, m).outcome.Fail?
    ensures Progress(sem, ps, j, m) == Progress(sem, ps, i, m)
    decreases j
  {
    if j > i {
      ProgressStops(sem, ps, i, j - 1, m);
    }
  }

  /** Before the drain a run only grows the log and the queue, and deletes
      nothing unless `folders` allows the root-folder diff. */
  lemma {:induction false} ProgressGrows(sem: Semantics, ps: seq<Phase>, n: nat, m: Machine, folders: bool)
    requires Confining(sem) && n <= |ps|
    requires forall k :: 0 <= k < n ==> ps[k] != Drain && (ps[k] == RootFolders ==> folders)
    ensures var s := Progress(sem, ps, n, m);
      Grows(m.trace, s.m.trace, m.queue, s.m.queue, folders)
    decreases n
  {
    if n == 0 {
      GrowsBy(m.trace, [], m.queue, [], false);
      assert m.trace + [] == m.trace && m.queue + [] == m.queue;
    } else {
      ProgressGrows(sem, ps, n - 1, m, folders);
      var s := Progress(sem, ps, n - 1, m);
      if s.outcome.Pass? {
        var t := sem.Run(ps[n - 1], s.m);
        GrowsTrans(m.trace, s.m.trace, t.m.trace, m.queue, s.m.queue, t.m.queue,
                   folders, ps[n - 1] == RootFolders, folders);
      }
    }
  }

  // ---------------------------------------------------------------- sync

  /** The configuration the phases start from: the managed keys defaulted by the
      overlay as written (its proxy key spelled `indexerProxie`), and for sonarr
      and radarr the formats compiled. */
  function Prepared(kind: ServerType, compile: Dict -> Dict, cfg: Dict): (r: Dict)
  {
    var c := WithDefaultsAsWritten(cfg);
    if kind == Sonarr || kind == Radarr then compile(c) else c
  }

  /** Every phase of `sem` leaves the configuration key `k` as it found it. */
  ghost predicate KeepsKey(sem: Semantics, k: string) {
    forall p, m {:trigger sem.Run(p, m)} :: Lookup(sem.Run(p, m).m.cfg, k) == Lookup(m.cfg, k)
  }

  /** The tags phase changes no configuration key but `tag`. */
  lemma TagsKeepsKey(sem: Semantics, server: Server, kind: ServerType, m: Machine, k: string)
    requires RunsTags(sem, server, kind) && k != "tag"
    ensures Lookup(sem.Run(Tags, m).m.cfg, k) == Lookup(m.cfg, k)
  {
    assert sem.tags(m) == TagsStage(server, kind, m);
  }

  /** Only the tags phase of `sync` changes the configuration, and only its `tag`
      key. */
  lemma FaithfulKeepsKey(sem: Semantics, server: Server, kind: ServerType, k: string)
    requires Faithful(sem, server, kind) && k != "tag"
    ensures KeepsKey(sem, k)
  {
    FaithfulConfining(sem, server, kind);
    forall p, m ensures Lookup(sem.Run(p, m).m.cfg, k) == Lookup(m.cfg, k) {
      if p == Tags {
        TagsKeepsKey(sem, server, kind, m, k);
      } else {
        assert Confined(p, m, sem.Run(p, m));
      }
    }
  }

  /** A key that no phase changes reads the same after any number of phases. */
  lemma {:induction false} ProgressKeepsKey(sem: Semantics, ps: seq<Phase>, n: nat, m: Machine, k: string)
    requires KeepsKey(sem, k) && n <= |ps|
    ensures Lookup(Progress(sem, ps, n, m).m.cfg, k) == Lookup(m.cfg, k)
    decreases n
  {
    if n > 0 {
      ProgressKeepsKey(sem, ps, n - 1, m, k);
    }
  }

  /** The proxy phase with no `indexerProxy` key raises KeyError and sends nothing. */
  lemma ProxyStageMissing(sem: Semantics, server: Server, m: Machine)
    requires RunsCollections(sem, server) && !HasKey(m.cfg, "indexerProxy")
    ensures sem.Run(IndexerProxies, m) == Stage(m, Fail(KeyMissing(Str("indexerProxy"))))
  {
    assert sem.indexerProxies(m) == CollectionStage(server, IndexerProxies, m);
  }

  /** The proxy phase with `indexerProxy` set to None passes and sends nothing. */
  lemma ProxyStageNull(sem: Semantics, server: Server, m: Machine)
    requires RunsCollections(sem, server) && Lookup(m.cfg, "indexerProxy") == Some(Null)
    ensures sem.Run(IndexerProxies, m) == Stage(m, Pass)
  {
    assert sem.indexerProxies(m) == CollectionStage(server, IndexerProxies, m);
    assert Field(Obj(m.cfg), "indexerProxy") == Ok(Null);
    assert m.trace + [] == m.trace && m.queue + [] == m.queue;
  }

  /** A run of the phases of `sync` that has raised by phase `i` ends there,
      having deleted nothing unless `folders` allows the root-folder diff. */
  lemma FaithfulRaised(sem: Semantics, server: Server, kind: ServerType, i: nat, m: Machine)
    requires Faithful(sem, server, kind) && i < |Phases(kind)|
    requires Progress(sem, Phases(kind), i, m).outcome.Fail?
    ensures var s := Progress(sem, Phases(kind), |Phases(kind)|, m);
      && s == Progress(sem, Phases(kind), i, m)
      && Grows(m.trace, s.m.trace, m.queue, s.m.queue, kind == Sonarr || kind == Radarr)
  {
    var ps := Phases(kind);
    ProgressStops(sem, ps, i, |ps|, m);
    ProgressStops(sem, ps, i, |ps| - 1, m);
    BeforeDrain(kind);
    FaithfulConfining(sem, server, kind);
    ProgressGrows(sem, ps, |ps| - 1, m, kind == Sonarr || kind == Radarr);
  }

  /** A prowlarr run whose configuration declares no `indexerProxy` never
      finishes: the overlay as written leaves the key missing, so when the tags,
      download clients, app profiles, indexers and applications have passed,
      the proxy phase raises KeyError with nothing more sent, and the run
      raises without sending any DELETE, the deferred deletions included. */
  lemma ProxyUndeclaredRaises(sem: Semantics, server: Server, compile: Dict -> Dict, cfg: Dict, m0: Machine)
    requires Faithful(sem, server, Prowlarr)
    requires m0.cfg == Prepared(Prowlarr, compile, cfg) && !HasKey(cfg, "indexerProxy")
    ensures var ps := Phases(Prowlarr);
      var s := Progress(sem, ps, |ps|, m0);
      && s.outcome.Fail?
      && Grows(m0.trace, s.m.trace, m0.queue, s.m.queue, false)
      && (Progress(sem, ps, 5, m0).outcome.Pass? ==>
            s == Stage(Progress(sem, ps, 5, m0).m, Fail(KeyMissing(Str("indexerProxy")))))
  {
    var ps := Phases(Prowlarr);
    var p5 := Progress(sem, ps, 5, m0);
    IndexerProxyMissingAsWritten(cfg);
    FaithfulKeepsKey(sem, server, Prowlarr, "indexerProxy");
    ProgressKeepsKey(sem, ps, 5, m0, "indexerProxy");
    ProgressNext(sem, ps, 5, m0);
    if p5.outcome.Pass? {
      ProxyStageMissing(sem, server, p5.m);
    }
    FaithfulRaised(sem, server, Prowlarr, 6, m0);
  }

  /** With the proxy key spelled as the phase reads it, the same configuration
      reaches the proxy phase with the collection `None`, and the phase passes
      without sending anything. */
  lemma ProxyDefaultedSkips(sem: Semantics, server: Server, cfg: Dict, m0: Machine)
    requires Faithful(sem, server, Prowlarr)
    requires m0.cfg == WithDefaults(cfg) && !HasKey(cfg, "indexerProxy")
    ensures var ps := Phases(Prowlarr);
      var p5 := Progress(sem, ps, 5, m0);
      p5.outcome.Pass? ==> Progress(sem, ps, 6, m0) == p5
  {
    var ps := Phases(Prowlarr);
    var p5 := Progress(sem, ps, 5, m0);
    IndexerProxyDefaulted(cfg);
    FaithfulKeepsKey(sem, server, Prowlarr, "indexerProxy");
    ProgressKeepsKey(sem, ps, 5, m0, "indexerProxy");
    ProgressNext(sem, ps, 5, m0);
    if p5.outcome.Pass? {
      ProxyStageNull(sem, server, p5.m);
    }
  }

  /** Only the last phase of a type is the drain, and only sonarr and radarr run
      the root-folder diff. */
  lemma BeforeDrain(kind: ServerType)
    ensures var ps := Phases(kind);
      && ps[|ps| - 1] == Drain
      && forall k :: 0 <= k < |ps| - 1 ==> ps[k] != Drain && (ps[k] == RootFolders ==> kind == Sonarr || kind == Radarr)
  {
    var ps := Phases(kind);
    CapabilityTable(kind);
    forall k | 0 <= k < |ps| - 1
      ensures ps[k] != Drain && (ps[k] == RootFolders ==> kind == Sonarr || kind == Radarr)
    {
      assert ps[k] in ps;
    }
  }

  /** How a run ends that started from the log `t0` and the queue `q0` and left
      the log `t` and the queue `q`: a run that raised has only grown the log and
      the queue, and deleted nothing but root folders when `folders` allows it; a
      run that passed has grown them in the same way and then sent exactly the
      drain of the whole queue. */
  ghost predicate Ends(t0: seq<Request>, q0: seq<(Target, Value)>, t: seq<Request>, q: seq<(Target, Value)>,
                       outcome: Outcome<Exc>, folders: bool) {
    && (outcome.Fail? ==> Grows(t0, t, q0, q, folders))
    && (outcome.Pass? ==>
          && |t0| + |q| <= |t|
          && Grows(t0, t[..|t| - |q|], q0, q, folders)
          && t[|t| - |q|..] == DrainRequests(q))
  }

  /** A run of the phases of a server type ends as `Ends` says, with the
      root-folder diff allowed to delete for sonarr and radarr only. */
  lemma SyncEnds(sem: Semantics, kind: ServerType, m: Machine)
    requires Confining(sem)
    ensures var s := Progress(sem, Phases(kind), |Phases(kind)|, m);
      Ends(m.trace, m.queue, s.m.trace, s.m.queue, s.outcome, kind == Sonarr || kind == Radarr)
  {
    var ps := Phases(kind);
    var n := |ps| - 1;
    BeforeDrain(kind);
    ProgressGrows(sem, ps, n, m, kind == Sonarr || kind == Radarr);
    var o := Progress(sem, ps, n, m);
    if o.outcome.Pass? {
      var t := o.m.trace + DrainRequests(o.m.queue);
      assert t[..|t| - |o.m.queue|] == o.m.trace;
    }
  }

  /** The phases of `sync` end as `Ends` says. */
  lemma FaithfulEnds(sem: Semantics, server: Server, kind: ServerType, m: Machine)
    requires Faithful(sem, server, kind)
    ensures var s := Progress(sem, Phases(kind), |Phases(kind)|, m);
      Ends(m.trace, m.queue, s.m.trace, s.m.queue, s.outcome, kind == Sonarr || kind == Radarr)
  {
    FaithfulConfining(sem, server, kind);
    SyncEnds(sem, kind, m);
  }
}
