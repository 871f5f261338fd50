/** The parts of `sync` (declarr/arr.py:455-666) that decide what each server type
    reconciles and with which defaults: the overlay of managed configuration keys,
    the per-type phase table, the app-profile ids of prowlarr indexers, the format
    scores of quality profiles, the update-only quality definitions, the root
    folders of sonarr and radarr, and the root-folder defaults of lidarr. */
module Orchestration {
  import opened Wrappers
  import opened Json
  import opened Http
  import opened Utils
  import opened Fields
  import opened Resources

  datatype ServerType = Sonarr | Radarr | Lidarr | Prowlarr

  // ---------------------------------------------------------------- managed keys

  /** The keys `sync` reads from the configuration and what they default to, with
      the proxy collection spelled `indexerProxy`, the key the prowlarr phase reads. */
  const ManagedDefaults: Dict := [
    ("downloadClient", Null), ("appProfile", Null), ("applications", Null),
    ("indexer", Null), ("indexerProxy", Null),
    ("qualityDefinition", Obj([])),
    ("customFormat", Null), ("qualityProfile", Null),
    ("rootFolder", Null),
    ("importList", Null), ("notification", Null)]

  /** The same overlay as declarr/arr.py:463-481 writes it: the proxy key is
      spelled `indexerProxie`. */
  const ManagedDefaultsAsWritten: Dict := [
    ("downloadClient", Null), ("appProfile", Null), ("applications", Null),
    ("indexer", Null), ("indexerProxie", Null),
    ("qualityDefinition", Obj([])),
    ("customFormat", Null), ("qualityProfile", Null),
    ("rootFolder", Null),
    ("importList", Null), ("notification", Null)]

  /** `{**defaults, **cfg}` as declarr/arr.py:463-481 writes it, the overlay `sync`
      starts from: every managed key, `indexerProxie` among them, is present
      afterwards, a declared key keeps its declared value, and an undeclared one
      gets its default. */
  function WithDefaultsAsWritten(cfg: Dict): (r: Dict)
    ensures forall i :: 0 <= i < |ManagedDefaultsAsWritten| ==> HasKey(r, ManagedDefaultsAsWritten[i].0)
    ensures NoDupKeys(cfg) ==> forall k :: HasKey(cfg, k) ==> Lookup(r, k) == Lookup(cfg, k)
    ensures forall k :: !HasKey(cfg, k) ==> Lookup(r, k) == Lookup(ManagedDefaultsAsWritten, k)
  {
    OverlayKeepsDefaults(ManagedDefaultsAsWritten, cfg);
    Overlay(ManagedDefaultsAsWritten, cfg)
  }

  /** The overlay with the proxy key spelled as the prowlarr phase reads it: the
      same guarantees, over `ManagedDefaults`. */
  function WithDefaults(cfg: Dict): (r: Dict)
    ensures forall i :: 0 <= i < |ManagedDefaults| ==> HasKey(r, ManagedDefaults[i].0)
    ensures NoDupKeys(cfg) ==> forall k :: HasKey(cfg, k) ==> Lookup(r, k) == Lookup(cfg, k)
    ensures forall k :: !HasKey(cfg, k) ==> Lookup(r, k) == Lookup(ManagedDefaults, k)
  {
    OverlayKeepsDefaults(ManagedDefaults, cfg);
    Overlay(ManagedDefaults, cfg)
  }

  /** Every key of the defaults survives the overlay. */
  lemma OverlayKeepsDefaults(defaults: Dict, cfg: Dict)
    ensures forall i :: 0 <= i < |defaults| ==> HasKey(Overlay(defaults, cfg), defaults[i].0)
  {
    var r := Overlay(defaults, cfg);
    forall i | 0 <= i < |defaults| ensures HasKey(r, defaults[i].0) {
      assert r[i].0 == defaults[i].0;
    }
  }

  /** As written, a configuration that does not declare `indexerProxy` still lacks
      it after the overlay, so the prowlarr phase's `self.cfg["indexerProxy"]`
      raises KeyError, after the earlier phases have already changed the server
      and before the deferred deletions are drained. */
  lemma IndexerProxyMissingAsWritten(cfg: Dict)
    requires !HasKey(cfg, "indexerProxy")
    ensures Field(Obj(WithDefaultsAsWritten(cfg)), "indexerProxy") == Err(KeyMissing(Str("indexerProxy")))
  {
    assert !HasKey(ManagedDefaultsAsWritten, "indexerProxy");
  }

  /** With the key spelled as the phase reads it, an undeclared proxy collection is
      None and the phase skips it. */
  lemma IndexerProxyDefaulted(cfg: Dict)
    requires !HasKey(cfg, "indexerProxy")
    ensures Field(Obj(WithDefaults(cfg)), "indexerProxy") == Ok(Null)
  {
    assert ManagedDefaults[4] == ("indexerProxy", Null);
    LookupAt(ManagedDefaults, 4);
  }

  // ---------------------------------------------------------------- phase table

  datatype Phase =
    | Tags | DownloadClients
    | AppProfiles | Indexers | Applications | IndexerProxies
    | QualityDefinitions | CustomFormats | QualityProfiles | RootFolders | LidarrRootFolders
    | Notifications | Settings | Drain

  /** The capability table: indexers and their profiles are prowlarr's alone,
      quality definitions belong to every other type, custom formats, quality
      profiles and the root-folder diff to sonarr and radarr, the root-folder
      resources to lidarr; every type has tags, download clients, notifications,
      its settings tree and the deletion drain. */
  predicate Capable(kind: ServerType, p: Phase) {
    match p
    case AppProfiles => kind == Prowlarr
    case Indexers => kind == Prowlarr
    case Applications => kind == Prowlarr
    case IndexerProxies => kind == Prowlarr
    case QualityDefinitions => kind != Prowlarr
    case CustomFormats => kind == Sonarr || kind == Radarr
    case QualityProfiles => kind == Sonarr || kind == Radarr
    case RootFolders => kind == Sonarr || kind == Radarr
    case LidarrRootFolders => kind == Lidarr
    case _ => true
  }

  /** The phases `sync` runs for a server type, in the order of its conditional
      blocks (declarr/arr.py:486-666). */
  function Phases(kind: ServerType): (ps: seq<Phase>)
    ensures |ps| >= 7 && ps[0] == Tags && ps[1] == DownloadClients
    ensures ps[|ps| - 3] == Notifications && ps[|ps| - 2] == Settings && ps[|ps| - 1] == Drain
    ensures kind == Prowlarr ==>
      |ps| == 9 && ps[2] == AppProfiles && ps[3] == Indexers && ps[4] == Applications && ps[5] == IndexerProxies
    ensures kind == Lidarr ==> |ps| == 7 && ps[2] == QualityDefinitions && ps[3] == LidarrRootFolders
    ensures kind == Sonarr || kind == Radarr ==>
      |ps| == 9 && ps[2] == QualityDefinitions && ps[3] == CustomFormats && ps[4] == QualityProfiles && ps[5] == RootFolders
  {
    match kind
    case Sonarr => [Tags, DownloadClients, QualityDefinitions, CustomFormats, QualityProfiles, RootFolders, Notifications, Settings, Drain]
    case Radarr => [Tags, DownloadClients, QualityDefinitions, CustomFormats, QualityProfiles, RootFolders, Notifications, Settings, Drain]
    case Lidarr => [Tags, DownloadClients, QualityDefinitions, LidarrRootFolders, Notifications, Settings, Drain]
    case Prowlarr => [Tags, DownloadClients, AppProfiles, Indexers, Applications, IndexerProxies, Notifications, Settings, Drain]
  }

  /** A type runs exactly the phases it is capable of. */
  lemma CapabilityTable(kind: ServerType)
    ensures forall p :: p in Phases(kind) <==> Capable(kind, p)
  {
    match kind
    case Sonarr => SonarrRadarrTable(kind);
    case Radarr => SonarrRadarrTable(kind);
    case Lidarr => LidarrTable();
    case Prowlarr => ProwlarrTable();
  }

  lemma SonarrRadarrTable(kind: ServerType)
    requires kind == Sonarr || kind == Radarr
    ensures forall p :: p in Phases(kind) <==> Capable(kind, p)
  {
    var ps := Phases(kind);
    forall p ensures p in ps <==> Capable(kind, p) {
      match p
      case Tags => assert ps[0] == p;
      case DownloadClients => assert ps[1] == p;
      case QualityDefinitions => assert ps[2] == p;
      case CustomFormats => assert ps[3] == p;
      case QualityProfiles => assert ps[4] == p;
      case RootFolders => assert ps[5] == p;
      case Notifications => assert ps[6] == p;
      case Settings => assert ps[7] == p;
      case Drain => assert ps[8] == p;
      case _ =>
    }
  }

  lemma LidarrTable()
    ensures forall p :: p in Phases(Lidarr) <==> Capable(Lidarr, p)
  {
    var ps := Phases(Lidarr);
    forall p ensures p in ps <==> Capable(Lidarr, p) {
      match p
      case Tags => assert ps[0] == p;
      case DownloadClients => assert ps[1] == p;
      case QualityDefinitions => assert ps[2] == p;
      case LidarrRootFolders => assert ps[3] == p;
      case Notifications => assert ps[4] == p;
      case Settings => assert ps[5] == p;
      case Drain => assert ps[6] == p;
      case _ =>
    }
  }

  lemma ProwlarrTable()
    ensures forall p :: p in Phases(Prowlarr) <==> Capable(Prowlarr, p)
  {
    var ps := Phases(Prowlarr);
    forall p ensures p in ps <==> Capable(Prowlarr, p) {
      match p
      case Tags => assert ps[0] == p;
      case DownloadClients => assert ps[1] == p;
      case AppProfiles => assert ps[2] == p;
      case Indexers => assert ps[3] == p;
      case Applications => assert ps[4] == p;
      case IndexerProxies => assert ps[5] == p;
      case Notifications => assert ps[6] == p;
      case Settings => assert ps[7] == p;
      case Drain => assert ps[8] == p;
      case _ =>
    }
  }

  // ---------------------------------------------------------------- app profiles

  /** The defaults of a declared app profile: every search enabled and one seeder,
      unless the declaration says otherwise. */
  const AppProfileFlags: Dict := [
    ("enableRss", Bool(true)), ("enableAutomaticSearch", Bool(true)),
    ("enableInteractiveSearch", Bool(true)), ("minimumSeeders", Num(1))]

  /** `{"enableRss": True, .., "minimumSeeders": 1, **v}` */
  function AppProfileDefault(k: string, v: Value): (r: Result<Value, Exc>)
    ensures r.Ok? <==> v.Obj?
    ensures r.Ok? ==> r.value.Obj?
    ensures r.Ok? && NoDupKeys(v.fields) ==> forall key :: HasKey(v.fields, key) ==> Lookup(r.value.fields, key) == Lookup(v.fields, key)
    ensures r.Ok? ==> forall key :: !HasKey(v.fields, key) ==> Lookup(r.value.fields, key) == Lookup(AppProfileFlags, key)
  {
    if v.Obj? then Ok(Obj(Overlay(AppProfileFlags, v.fields))) else Err(WrongType)
  }

  /** Whether a listed app profile enters `profile_map`, and under which name:
      with no declared profiles every listed one does, otherwise only the declared
      ones (the filter is evaluated before the entry is built). */
  function ProfileEntry(declared: Value, v: Value): (r: Result<Option<(string, Value)>, Exc>)
    ensures r.Ok? && r.value.Some? ==> v.Obj? && Lookup(v.fields, "name") == Some(Str(r.value.value.0))
                                       && Lookup(v.fields, "id") == Some(r.value.value.1)
    ensures r.Ok? && r.value.Some? && declared.Obj? ==> HasKey(declared.fields, r.value.value.0)
    ensures (declared.Obj? && v.Obj? && Lookup(v.fields, "name").Some? && Lookup(v.fields, "name").value.Str?
             && !HasKey(declared.fields, Lookup(v.fields, "name").value.s)) ==> r == Ok(None)
  {
    if !v.Obj? then Err(WrongType)
    else
      match Lookup(v.fields, "name")
      case None => Err(KeyMissing(Str("name")))
      case Some(name) =>
        match declared
        case Null =>
          if name.Str? then ProfileId(v.fields, name.s) else Err(WrongType)
        case Obj(d) =>
          (match name
           case Str(s) => if HasKey(d, s) then ProfileId(v.fields, s) else Ok(None)
           case Arr(_) => Err(WrongType)
           case Obj(_) => Err(WrongType)
           case _ => Ok(None))
        case _ => Err(WrongType)
  }

  function ProfileId(fs: Dict, name: string): (r: Result<Option<(string, Value)>, Exc>)
    ensures r.Ok? ==> HasKey(fs, "id") && r.value == Some((name, Lookup(fs, "id").value))
  {
    match Lookup(fs, "id")
    case Some(id) => Ok(Some((name, id)))
    case None => Err(KeyMissing(Str("id")))
  }

  /** `{v["name"]: v["id"] for v in listing if declared is None or v["name"] in declared}`:
      it raises exactly when some profile's entry does; otherwise its keys are
      distinct and every pair in it comes from a listed profile. */
  function ProfileMapOf(items: seq<Value>, declared: Value): (r: Result<Dict, Exc>)
    ensures r.Ok? ==> NoDupKeys(r.value)
    ensures r.Ok? <==> forall i :: 0 <= i < |items| ==> ProfileEntry(declared, items[i]).Ok?
    ensures r.Ok? ==> forall p :: p in r.value ==> exists i :: 0 <= i < |items| && ProfileEntry(declared, items[i]) == Ok(Some(p))
    decreases |items|
  {
    if items == [] then Ok([])
    else
      var init := items[..|items| - 1];
      assert forall i :: 0 <= i < |init| ==> init[i] == items[i];
      match ProfileMapOf(init, declared)
      case Err(e) => Err(e)
      case Ok(d) =>
        match ProfileEntry(declared, items[|items| - 1])
        case Err(e) => Err(e)
        case Ok(None) => Ok(d)
        case Ok(Some(kv)) =>
          SetNoDup(d, kv.0, kv.1);
          Ok(Set(d, kv.0, kv.1))
  }

  /** The entry of a listed profile passes the filter under the name `k`. */
  predicate Names(e: Result<Option<(string, Value)>, Exc>, k: string) {
    e.Ok? && e.value.Some? && e.value.value.0 == k
  }

  /** `items[i]` is the last listed profile that passes the filter under `k`, and
      its id is `id`. */
  predicate LastProfile(items: seq<Value>, declared: Value, i: int, k: string, id: Value) {
    && 0 <= i < |items|
    && ProfileEntry(declared, items[i]) == Ok(Some((k, id)))
    && forall j :: i < j < |items| ==> !Names(ProfileEntry(declared, items[j]), k)
  }

  /** The map of a listing is the map of all but its last profile, with the last
      profile's entry set when it passes the filter. */
  lemma ProfileMapOfSnoc(items: seq<Value>, declared: Value)
    requires items != [] && ProfileMapOf(items, declared).Ok?
    ensures var e := ProfileEntry(declared, items[|items| - 1]);
      && ProfileMapOf(items[..|items| - 1], declared).Ok? && e.Ok?
      && ProfileMapOf(items, declared).value ==
           if e.value.Some? then Set(ProfileMapOf(items[..|items| - 1], declared).value, e.value.value.0, e.value.value.1)
           else ProfileMapOf(items[..|items| - 1], declared).value
  {
  }

  /** A last profile that passes the filter with `k` itself decides `k`. */
  lemma ProfileMapOfLast(items: seq<Value>, declared: Value, k: string, id: Value)
    requires items != [] && ProfileMapOf(items, declared).Ok?
    requires ProfileEntry(declared, items[|items| - 1]) == Ok(Some((k, id)))
    ensures Lookup(ProfileMapOf(items, declared).value, k) == Some(id)
  {
    ProfileMapOfSnoc(items, declared);
  }

  /** A last profile that does not pass the filter under `k` leaves `k` as the
      rest of the listing has it. */
  lemma ProfileMapOfOther(items: seq<Value>, declared: Value, k: string)
    requires items != [] && ProfileMapOf(items, declared).Ok?
    requires !Names(ProfileEntry(declared, items[|items| - 1]), k)
    ensures ProfileMapOf(items[..|items| - 1], declared).Ok?
    ensures Lookup(ProfileMapOf(items, declared).value, k) == Lookup(ProfileMapOf(items[..|items| - 1], declared).value, k)
  {
    ProfileMapOfSnoc(items, declared);
  }

  /** The last profile with `k` before the end of a listing is still the last
      in the listing without its final profile. */
  lemma LastProfileInit(items: seq<Value>, declared: Value, i: int, k: string, id: Value)
    requires LastProfile(items, declared, i, k, id) && i < |items| - 1
    ensures LastProfile(items[..|items| - 1], declared, i, k, id)
    ensures !Names(ProfileEntry(declared, items[|items| - 1]), k)
  {
    var init := items[..|items| - 1];
    assert init[i] == items[i];
    assert forall j :: i < j < |init| ==> init[j] == items[j];
  }

  /** The comprehension misses no profile: the last listed profile that passes
      the filter under a name gives that name's id in the map. */
  lemma {:induction false} ProfileMapOfComplete(items: seq<Value>, declared: Value, i: int, k: string, id: Value)
    requires ProfileMapOf(items, declared).Ok? && LastProfile(items, declared, i, k, id)
    ensures Lookup(ProfileMapOf(items, declared).value, k) == Some(id)
    decreases |items|
  {
    if i < |items| - 1 {
      LastProfileInit(items, declared, i, k, id);
      ProfileMapOfOther(items, declared, k);
      ProfileMapOfComplete(items[..|items| - 1], declared, i, k, id);
    } else {
      ProfileMapOfLast(items, declared, k, id);
    }
  }

  /** Every profile that passes the filter is in the map. */
  lemma ProfileMapOfHasKey(items: seq<Value>, declared: Value, i: int, k: string)
    requires ProfileMapOf(items, declared).Ok? && 0 <= i < |items| && Names(ProfileEntry(declared, items[i]), k)
    ensures HasKey(ProfileMapOf(items, declared).value, k)
  {
    var j := i;
    while j + 1 < |items| && !(forall l :: j < l < |items| ==> !Names(ProfileEntry(declared, items[l]), k))
      invariant i <= j < |items| && Names(ProfileEntry(declared, items[j]), k)
      decreases |items| - j
    {
      var l :| j < l < |items| && Names(ProfileEntry(declared, items[l]), k);
      j := l;
    }
    ProfileMapOfComplete(items, declared, j, k, ProfileEntry(declared, items[j]).value.value.1);
  }

  function ProfileMap(listing: Value, declared: Value): Result<Dict, Exc> {
    match Iterate(listing)
    case Err(e) => Err(e)
    case Ok(items) => ProfileMapOf(items, declared)
  }

  /** `profile_map`, given the answer to the second listing of `/appprofile`. */
  function ProfileMapFrom(listing: Result<Value, Exc>, declared: Value): (r: Result<Dict, Exc>)
    ensures listing.Err? ==> r == Err(listing.error)
    ensures listing.Ok? ==> r == ProfileMap(listing.value, declared)
  {
    if listing.Err? then Err(listing.error) else ProfileMap(listing.value, declared)
  }

  /** What the app-profile phase did, and the profile map it built. */
  datatype ProfilesRun = ProfilesRun(effect: Effect, profileMap: Dict)

  /** The second listing of the app profiles and the map built from it, when the
      reconciliation before it succeeded; nothing otherwise. */
  function AppProfilesListing(server: Server, n: nat, prior: Outcome<Exc>, declared: Value): (r: ProfilesRun)
    ensures prior.Fail? ==> r == ProfilesRun(Effect([], [], prior), [])
    ensures prior.Pass? ==> r.effect.sent == [Req(Get, At("/appprofile"), Null)]
    ensures r.effect.queued == []
    ensures r.effect.outcome.Fail? ==> r.profileMap == []
  {
    if prior.Fail? then ProfilesRun(Effect([], [], prior), [])
    else
      var get := Req(Get, At("/appprofile"), Null);
      match ProfileMapFrom(Answer(server, n, get), declared)
      case Err(e) => ProfilesRun(Effect([get], [], Fail(e)), [])
      case Ok(pm) => ProfilesRun(Effect([get], [], Pass), pm)
  }

  /** Prowlarr's application profiles (declarr/arr.py:494-510) from request number
      `n`: reconciled as resources with their search defaults, failures raising;
      then listed again and turned into the profile map. Nothing is deleted at
      once, and the map is empty unless the phase succeeds. */
  function AppProfilesEffect(server: Server, n: nat, declared: Value): (r: ProfilesRun)
    ensures forall i :: 0 <= i < |r.effect.sent| ==> r.effect.sent[i].verb != Delete
    ensures forall i :: 0 <= i < |r.effect.queued| ==> r.effect.queued[i].0.Item? && r.effect.queued[i].1 == Null
    ensures r.effect.outcome.Fail? ==> r.profileMap == []
  {
    var e := ResourcesEffect(server, n, "/appprofile", declared, AppProfileDefault, false, "name");
    var l := AppProfilesListing(server, n + |e.sent|, e.outcome, declared);
    assert forall i :: |e.sent| <= i < |e.sent + l.effect.sent| ==> (e.sent + l.effect.sent)[i] == l.effect.sent[i - |e.sent|];
    AppProfilesAfter(server, n, e, declared)
  }

  /** The listing that follows the reconciliation `e` begun at request number `n`. */
  function AppProfilesAfter(server: Server, n: nat, e: Effect, declared: Value): ProfilesRun
  {
    var l := AppProfilesListing(server, n + |e.sent|, e.outcome, declared);
    ProfilesRun(Effect(e.sent + l.effect.sent, e.queued, l.effect.outcome), l.profileMap)
  }

  /** The listing depends on the request number, not on how it is written. */
  lemma AppProfilesListingAt(server: Server, m: nat, k: nat, prior: Outcome<Exc>, declared: Value)
    requires m == k
    ensures AppProfilesListing(server, m, prior, declared) == AppProfilesListing(server, k, prior, declared)
  {
  }

  /** The listing after `e` starts at request number `m`, `e`'s length past `n`. */
  lemma AppProfilesAfterAt(server: Server, n: nat, m: nat, e: Effect, declared: Value)
    requires m == n + |e.sent|
    ensures var l := AppProfilesListing(server, m, e.outcome, declared);
      AppProfilesAfter(server, n, e, declared) == ProfilesRun(Effect(e.sent + l.effect.sent, e.queued, l.effect.outcome), l.profileMap)
  {
    AppProfilesListingAt(server, m, n + |e.sent|, e.outcome, declared);
  }

  /** With declared profiles, the map holds only declared names, each with the id
      of a listed profile of that name. */
  lemma ProfileMapDeclaredOnly(items: seq<Value>, declared: Value)
    requires declared.Obj? && ProfileMapOf(items, declared).Ok?
    ensures forall p :: p in ProfileMapOf(items, declared).value ==>
      HasKey(declared.fields, p.0)
      && exists i :: 0 <= i < |items| && items[i].Obj? && Lookup(items[i].fields, "name") == Some(Str(p.0))
                     && Lookup(items[i].fields, "id") == Some(p.1)
  {
    forall p | p in ProfileMapOf(items, declared).value
      ensures HasKey(declared.fields, p.0)
      ensures exists i :: 0 <= i < |items| && items[i].Obj? && Lookup(items[i].fields, "name") == Some(Str(p.0))
                          && Lookup(items[i].fields, "id") == Some(p.1)
    {
      var i :| 0 <= i < |items| && ProfileEntry(declared, items[i]) == Ok(Some(p));
    }
  }

  /** The values of a dictionary, in order: `profile_map.values()`. */
  function Values(d: Dict): (vs: seq<Value>)
    ensures |vs| == |d| && forall i :: 0 <= i < |d| ==> vs[i] == d[i].1
  {
    seq(|d|, i requires 0 <= i < |d| => d[i].1)
  }

  /** An id `min` can compare: an int, or a bool, which Python counts as 0 or 1. */
  predicate IsIntId(v: Value) {
    v.Num? || v.Bool?
  }

  function IntOf(v: Value): int
    requires IsIntId(v)
  {
    if v.Num? then v.n else if v.b then 1 else 0
  }

  /** `min(ids)`: the first of the smallest ids; an empty sequence raises. */
  function MinId(ids: seq<Value>): (r: Result<Value, Exc>)
    ensures ids == [] ==> r == Err(EmptyMin)
    ensures r.Ok? <==> ids != [] && forall i :: 0 <= i < |ids| ==> IsIntId(ids[i])
    ensures r.Ok? ==> r.value in ids && IsIntId(r.value) && forall i :: 0 <= i < |ids| ==> IntOf(r.value) <= IntOf(ids[i])
    decreases |ids|
  {
    if ids == [] then Err(EmptyMin)
    else if !IsIntId(ids[0]) then Err(WrongType)
    else if |ids| == 1 then Ok(ids[0])
    else
      assert forall i :: 1 <= i < |ids| ==> ids[1..][i - 1] == ids[i];
      match MinId(ids[1..])
      case Err(e) => Err(e)
      case Ok(m) => if IntOf(m) < IntOf(ids[0]) then Ok(m) else Ok(ids[0])
  }

  /** `gen_profile_id(v)` (declarr/arr.py:512-527): the smallest available id is
      computed first, so an empty profile map raises even for an indexer that
      names its profile. Without `appProfileId` the indexer gets that smallest id;
      an int id is kept when it is available and replaced by the smallest one
      otherwise; any other id is looked up by profile name. Whatever it returns is
      an available id. */
  function GenProfileId(profileMap: Dict, v: Dict): (r: Result<Value, Exc>)
    ensures profileMap == [] ==> r == Err(EmptyMin)
    ensures r.Ok? ==> r.value in Values(profileMap)
    ensures MinId(Values(profileMap)).Ok? && !HasKey(v, "appProfileId") ==> r == MinId(Values(profileMap))
    ensures MinId(Values(profileMap)).Ok? && HasKey(v, "appProfileId") && IsIntId(Lookup(v, "appProfileId").value) ==>
              r == if Lookup(v, "appProfileId").value in Values(profileMap) then Ok(Lookup(v, "appProfileId").value)
                   else MinId(Values(profileMap))
    ensures MinId(Values(profileMap)).Ok? && HasKey(v, "appProfileId") && Lookup(v, "appProfileId").value.Str? ==>
              r == Index(profileMap, Lookup(v, "appProfileId").value)
  {
    match MinId(Values(profileMap))
    case Err(e) => Err(e)
    case Ok(dflt) =>
      match Lookup(v, "appProfileId")
      case None => Ok(dflt)
      case Some(id) =>
        if IsIntId(id) then (if id in Values(profileMap) then Ok(id) else Ok(dflt))
        else
          match Index(profileMap, id)
          case Err(e) => Err(e)
          case Ok(x) =>
            var k := id.s;
            assert (k, x) in profileMap;
            var i :| 0 <= i < |profileMap| && profileMap[i] == (k, x);
            assert Values(profileMap)[i] == x;
            Ok(x)
  }

  function IndexerDefaults(profileMap: Dict): Defaults {
    (k, v) => IndexerDefault(profileMap, k, v)
  }

  /** `{**v, "appProfileId": gen_profile_id(v)}`: the indexer keeps what it declares
      and gets an available profile id. */
  function IndexerDefault(profileMap: Dict, k: string, v: Value): (r: Result<Value, Exc>)
    ensures r.Ok? ==> v.Obj? && r.value.Obj? && GenProfileId(profileMap, v.fields).Ok?
    ensures r.Ok? ==> Lookup(r.value.fields, "appProfileId") == Some(GenProfileId(profileMap, v.fields).value)
    ensures r.Ok? ==> forall key :: key != "appProfileId" ==> Lookup(r.value.fields, key) == Lookup(v.fields, key)
    ensures v.Obj? ==> (r.Ok? <==> GenProfileId(profileMap, v.fields).Ok?)
  {
    if !v.Obj? then Err(WrongType)
    else
      match GenProfileId(profileMap, v.fields)
      case Err(e) => Err(e)
      case Ok(id) => Ok(Obj(Overlay(v.fields, Singleton("appProfileId", id))))
  }

  // ---------------------------------------------------------------- format scores

  /** `id_score_map.get(name, {"score": 0})["score"]` */
  function ScoreOf(scoreMap: Dict, name: Value): (r: Result<Value, Exc>)
    ensures name.Str? && !HasKey(scoreMap, name.s) ==> r == Ok(Num(0))
    ensures name.Str? && HasKey(scoreMap, name.s) ==> r == Field(Lookup(scoreMap, name.s).value, "score")
  {
    var zero := Obj([("score", Num(0))]);
    assert Lookup(zero.fields, "score") == Some(Num(0));
    match name
    case Str(s) => Field(LookupOr(scoreMap, s, zero), "score")
    case Arr(_) => Err(WrongType)
    case Obj(_) => Err(WrongType)
    case _ => Field(zero, "score")
  }

  /** `{"name": d["name"], "format": d["id"], "score": ..}` for one custom format. */
  function FormatItem(scoreMap: Dict, d: Value): (r: Result<Value, Exc>)
    ensures r.Ok? <==> d.Obj? && HasKey(d.fields, "name") && HasKey(d.fields, "id") && ScoreOf(scoreMap, Lookup(d.fields, "name").value).Ok?
    ensures r.Ok? ==> r.value == Obj([("name", Lookup(d.fields, "name").value), ("format", Lookup(d.fields, "id").value),
                                      ("score", ScoreOf(scoreMap, Lookup(d.fields, "name").value).value)])
  {
    match Field(d, "name")
    case Err(e) => Err(e)
    case Ok(name) =>
      match Field(d, "id")
      case Err(e) => Err(e)
      case Ok(id) =>
        match ScoreOf(scoreMap, name)
        case Err(e) => Err(e)
        case Ok(score) => Ok(Obj([("name", name), ("format", id), ("score", score)]))
  }

  /** `gen_formats_items(v)` (declarr/arr.py:571-583). */
  function GenFormatsItems(formats: Value, v: Dict): Result<seq<Value>, Exc> {
    match Field(Obj(v), "formatItems")
    case Err(e) => Err(e)
    case Ok(declared) =>
      match ToDict(declared, "name")
      case Err(e) => Err(e)
      case Ok(scoreMap) =>
        match Iterate(formats)
        case Err(e) => Err(e)
        case Ok(items) => Each(items, d => FormatItem(scoreMap, d))
  }

  /** A quality profile scores every custom format the server lists, one item per
      format in the server's order: the score the profile declares for that
      format's name, or 0 when it declares none. */
  lemma FormatItemsSpec(formats: Value, v: Dict, scoreMap: Dict, i: nat)
    requires formats.Arr? && GenFormatsItems(formats, v).Ok?
    requires ToDict(Lookup(v, "formatItems").value, "name") == Ok(scoreMap)
    requires i < |formats.items|
    ensures |GenFormatsItems(formats, v).value| == |formats.items|
    ensures var d := formats.items[i];
      var item := GenFormatsItems(formats, v).value[i];
      && d.Obj? && HasKey(d.fields, "name") && HasKey(d.fields, "id")
      && item.Obj? && item.fields[0] == ("name", Lookup(d.fields, "name").value)
      && item.fields[1] == ("format", Lookup(d.fields, "id").value)
      && (Lookup(d.fields, "name").value.Str? && !HasKey(scoreMap, Lookup(d.fields, "name").value.s) ==> item.fields[2] == ("score", Num(0)))
      && (Lookup(d.fields, "name").value.Str? && HasKey(scoreMap, Lookup(d.fields, "name").value.s) ==>
            Field(Lookup(scoreMap, Lookup(d.fields, "name").value.s).value, "score") == Ok(item.fields[2].1))
  {
    var f := d => FormatItem(scoreMap, d);
    assert f(formats.items[i]).Ok?;
  }

  function QualityProfileDefaults(formats: Value): Defaults {
    (k, v) => QualityProfileDefault(formats, k, v)
  }

  /** `{**v, "formatItems": gen_formats_items(v)}` */
  function QualityProfileDefault(formats: Value, k: string, v: Value): (r: Result<Value, Exc>)
    ensures r.Ok? ==> v.Obj? && r.value.Obj? && GenFormatsItems(formats, v.fields).Ok?
    ensures r.Ok? ==> Lookup(r.value.fields, "formatItems") == Some(Arr(GenFormatsItems(formats, v.fields).value))
    ensures r.Ok? ==> forall key :: key != "formatItems" ==> Lookup(r.value.fields, key) == Lookup(v.fields, key)
  {
    if !v.Obj? then Err(WrongType)
    else
      match GenFormatsItems(formats, v.fields)
      case Err(e) => Err(e)
      case Ok(items) => Ok(Obj(Overlay(v.fields, Singleton("formatItems", Arr(items)))))
  }

  // ---------------------------------------------------------------- quality profiles

  /** What the profile reconciliation is given, once the custom formats are
      listed: the declared profiles and the defaults that add their format items. */
  function QualityProfilesPlan(formats: Result<Value, Exc>, decl: Result<Value, Exc>): Result<(Value, Defaults), Exc> {
    if formats.Err? then Err(formats.error)
    else if decl.Err? then Err(decl.error)
    else Ok((decl.value, QualityProfileDefaults(formats.value)))
  }

  /** The profile reconciliation from request number `n`, unless its inputs
      could not be read. */
  function QualityProfilesFrom(server: Server, n: nat, plan: Result<(Value, Defaults), Exc>): (e: Effect)
    ensures forall i :: 0 <= i < |e.sent| ==> e.sent[i].verb != Delete
    ensures forall i :: 0 <= i < |e.queued| ==> e.queued[i].0.Item? && e.queued[i].1 == Null
  {
    if plan.Err? then Effect([], [], Fail(plan.error))
    else ResourcesEffect(server, n, "/qualityprofile", plan.value.0, plan.value.1, true, "name")
  }

  /** Sonarr and radarr quality profiles (declarr/arr.py:568-592) from request
      number `n`: the custom formats are listed, then the declared profiles are
      reconciled, each with one format item per listed format and failures
      logged. A failed listing, or no `qualityProfile` key, raises after the
      listing. Nothing is deleted at once. */
  function QualityProfilesEffect(server: Server, n: nat, decl: Result<Value, Exc>): (e: Effect)
    ensures var get := Req(Get, At("/customformat"), Null);
      var formats := Answer(server, n, get);
      && |e.sent| >= 1 && e.sent[0] == get
      && (formats.Err? ==> e == Effect([get], [], Fail(formats.error)))
      && (formats.Ok? && decl.Err? ==> e == Effect([get], [], Fail(decl.error)))
      && (formats.Ok? && decl.Ok? ==>
            var r := ResourcesEffect(server, n + 1, "/qualityprofile", decl.value, QualityProfileDefaults(formats.value), true, "name");
            e == Effect([get] + r.sent, r.queued, r.outcome))
    ensures forall i :: 0 <= i < |e.sent| ==> e.sent[i].verb != Delete
    ensures forall i :: 0 <= i < |e.queued| ==> e.queued[i].0.Item? && e.queued[i].1 == Null
  {
    var get := Req(Get, At("/customformat"), Null);
    var r := QualityProfilesFrom(server, n + 1, QualityProfilesPlan(Answer(server, n, get), decl));
    NoDeleteCons(get, r.sent);
    Effect([get] + r.sent, r.queued, r.outcome)
  }

  // ---------------------------------------------------------------- quality definitions

  /** One declared quality definition: a PUT of the declaration merged over the
      server's definition of that title; an unknown title raises. */
  function QualityDefinitionStep(qmap: Dict, title: string, x: Value): (s: Step)
    ensures !HasKey(qmap, title) ==> s == Err(KeyMissing(Str(title)))
    ensures s.Ok? ==> s.value.verb == Put && s.value.target.Item? && s.value.target.path == "/qualityDefinition"
    ensures s.Ok? ==> var rec := Lookup(qmap, title).value;
      rec.Obj? && Lookup(rec.fields, "id") == Some(s.value.target.id) && s.value.body == (var m := DeepMerge(x, rec); if m.Null? then Obj([]) else m)
  {
    match Lookup(qmap, title)
    case None => Err(KeyMissing(Str(title)))
    case Some(rec) =>
      match Field(rec, "id")
      case Err(e) => Err(e)
      case Ok(id) => Ok(Req(Put, Item("/qualityDefinition", id), DeepMerge(x, rec)))
  }

  function QualityDefinitionSteps(qmap: Dict, decl: Dict): (steps: seq<Step>)
    ensures |steps| == |decl| && forall i :: 0 <= i < |decl| ==> steps[i] == QualityDefinitionStep(qmap, decl[i].0, decl[i].1)
  {
    seq(|decl|, i requires 0 <= i < |decl| => QualityDefinitionStep(qmap, decl[i].0, decl[i].1))
  }

  /** The quality-definition loop (declarr/arr.py:545-554) from request number `n`:
      one listing, then only updates, never a creation or a deletion; the first
      failure, an unknown title included, ends the run. */
  function QualityDefinitionsEffect(server: Server, n: nat, decl: Result<Value, Exc>): (r: Run)
    ensures |r.sent| >= 1 && r.sent[0] == Req(Get, At("/qualityDefinition"), Null)
    ensures forall q :: q in r.sent ==>
      q == Req(Get, At("/qualityDefinition"), Null) || (q.verb == Put && q.target.Item? && q.target.path == "/qualityDefinition")
    ensures decl.Err? ==> r.outcome.Fail?
  {
    var get := Req(Get, At("/qualityDefinition"), Null);
    var run := QualityDefinitionsFromPlan(server, n + 1, QualityDefinitionPlan(Answer(server, n, get), decl));
    assert forall q :: q in [get] + run.sent ==> q == get || q in run.sent;
    Run([get] + run.sent, run.outcome)
  }

  /** The updates to issue, given the answer to the listing and the declaration:
      one per declared title, against the listing indexed by title. */
  function QualityDefinitionPlan(listing: Result<Value, Exc>, decl: Result<Value, Exc>): (r: Result<seq<Step>, Exc>)
    ensures decl.Err? ==> r.Err?
    ensures r.Ok? ==> forall i :: 0 <= i < |r.value| && r.value[i].Ok? ==>
      r.value[i].value.verb == Put && r.value[i].value.target.Item? && r.value[i].value.target.path == "/qualityDefinition"
  {
    if listing.Err? then Err(listing.error)
    else
      match ToDict(listing.value, "title")
      case Err(e) => Err(e)
      case Ok(qmap) =>
        if decl.Err? then Err(decl.error)
        else if !decl.value.Obj? then Err(WrongType)
        else Ok(QualityDefinitionSteps(qmap, decl.value.fields))
  }

  /** The updates of the plan, the first failure ending the run; nothing when the
      plan could not be made. */
  function QualityDefinitionsFromPlan(server: Server, n: nat, plan: Result<seq<Step>, Exc>): (r: Run)
    requires plan.Ok? ==> forall i :: 0 <= i < |plan.value| && plan.value[i].Ok? ==>
      plan.value[i].value.verb == Put && plan.value[i].value.target.Item? && plan.value[i].value.target.path == "/qualityDefinition"
    ensures plan.Err? ==> r == Run([], Fail(plan.error))
    ensures forall q :: q in r.sent ==> q.verb == Put && q.target.Item? && q.target.path == "/qualityDefinition"
  {
    if plan.Err? then Run([], Fail(plan.error))
    else
      AttemptSentFromSteps(server, n, plan.value, false);
      assert forall q :: Ok(q) in plan.value ==> q.verb == Put && q.target.Item? && q.target.path == "/qualityDefinition" by {
        forall q | Ok(q) in plan.value ensures q.verb == Put && q.target.Item? && q.target.path == "/qualityDefinition" {
          var i :| 0 <= i < |plan.value| && plan.value[i] == Ok(q);
        }
      }
      Attempt(server, n, plan.value, false)
  }

  /** A declared quality definition keeps every plain value it declares, and
      whatever it leaves out, the id included, keeps the server's value. */
  lemma QualityDefinitionBody(qmap: Dict, title: string, x: Value, key: string)
    requires x.Obj? && NoDupKeys(x.fields) && !LookupOr(x.fields, key, Null).Obj?
    requires QualityDefinitionStep(qmap, title, x).Ok?
    ensures var body := QualityDefinitionStep(qmap, title, x).value.body;
      && body.Obj?
      && (HasKey(x.fields, key) ==> Lookup(body.fields, key) == Lookup(x.fields, key))
      && (!HasKey(x.fields, key) ==> Lookup(body.fields, key) == Lookup(Lookup(qmap, title).value.fields, key))
  {
    DeepMergeLeaf(x, Lookup(qmap, title).value, key);
  }

  // ---------------------------------------------------------------- sonarr/radarr root folders

  /** The declared root-folder paths: `for v in self.cfg.get("rootFolder", [])`
      iterates a list's items or a dictionary's keys; each must be a string. */
  function FolderPaths(decl: Value): (r: Result<seq<string>, Exc>)
    ensures decl.Arr? && r.Ok? ==> |r.value| == |decl.items| && forall i :: 0 <= i < |decl.items| ==> decl.items[i] == Str(r.value[i])
  {
    match Iterate(decl)
    case Err(e) => Err(e)
    case Ok(items) =>
      if forall i :: 0 <= i < |items| ==> items[i].Str? then Ok(seq(|items|, i requires 0 <= i < |items| => items[i].s))
      else Err(WrongType)
  }

  /** `{v: {"path": v} for v in paths}` */
  function FolderDict(paths: seq<string>): (d: Dict)
    ensures NoDupKeys(d)
    ensures forall k :: HasKey(d, k) <==> k in paths
    ensures forall p :: p in d ==> p.1 == Obj([("path", Str(p.0))])
    decreases |paths|
  {
    if paths == [] then []
    else
      var init := paths[..|paths| - 1];
      var last := paths[|paths| - 1];
      assert paths == init + [last];
      var d := FolderDict(init);
      var folder := Obj([("path", Str(last))]);
      SetNoDup(d, last, folder);
      var r := Set(d, last, folder);
      forall k ensures HasKey(r, k) <==> k in paths {
        assert HasKey(r, k) <==> Lookup(r, k).Some?;
        assert k in paths <==> k == last || k in init;
      }
      r
  }

  /** An existing folder the declaration does not list is deleted at once. */
  function FolderDelete(rec: Value): (s: Step)
    ensures s.Ok? ==> rec.Obj? && HasKey(rec.fields, "id") && s.value == Req(Delete, Item("/rootFolder", Lookup(rec.fields, "id").value), Null)
  {
    match OrphanDelete("/rootFolder", rec)
    case Ok(item) => Ok(Req(Delete, item.0, item.1))
    case Err(e) => Err(e)
  }

  function FolderDeletes(removed: Dict): (steps: seq<Step>)
    ensures |steps| == |removed| && forall i :: 0 <= i < |removed| ==> steps[i] == FolderDelete(removed[i].1)
    ensures forall s :: s in steps && s.Ok? ==> s.value.verb == Delete && s.value.target.Item? && s.value.target.path == "/rootFolder"
  {
    seq(|removed|, i requires 0 <= i < |removed| => FolderDelete(removed[i].1))
  }

  function FolderPosts(added: Dict): (steps: seq<Step>)
    ensures |steps| == |added| && forall i :: 0 <= i < |added| ==> steps[i] == Ok(Req(Post, At("/rootFolder"), added[i].1))
    ensures forall s :: s in steps ==> s.Ok? && s.value.verb == Post && s.value.target == At("/rootFolder")
  {
    seq(|added|, i requires 0 <= i < |added| => Ok(Req(Post, At("/rootFolder"), added[i].1)))
  }

  /** The root-folder diff (declarr/arr.py:595-607): DELETEs of existing folders
      whose path is not declared, then POSTs of declared paths that do not exist. */
  function FolderSteps(existing: Dict, declared: Dict): (steps: seq<Step>)
    ensures forall s :: s in steps && s.Ok? ==> s.value.target.path == "/rootFolder" && (s.value.verb == Delete || s.value.verb == Post)
    ensures forall s :: s in steps && s.Ok? && s.value.verb == Delete ==> s.value.target.Item?
  {
    var removed := FolderDeletes(Undeclared(existing, declared));
    var added := FolderPosts(Undeclared(declared, existing));
    assert forall s :: s in removed + added ==> s in removed || s in added;
    removed + added
  }

  /** Every deletion is of an existing folder whose path is not declared, and
      every such folder gets one. */
  lemma FolderDeletesSpec(existing: Dict, declared: Dict)
    ensures var steps := FolderSteps(existing, declared);
      && (forall s :: s in steps && s.Ok? && s.value.verb == Delete ==>
            exists p :: p in existing && !HasKey(declared, p.0) && FolderDelete(p.1) == s)
      && (forall p :: p in existing && !HasKey(declared, p.0) ==> FolderDelete(p.1) in steps)
  {
    var removed := Undeclared(existing, declared);
    var added := Undeclared(declared, existing);
    var steps := FolderSteps(existing, declared);
    assert steps == FolderDeletes(removed) + FolderPosts(added);
    forall s | s in steps && s.Ok? && s.value.verb == Delete
      ensures exists p :: p in existing && !HasKey(declared, p.0) && FolderDelete(p.1) == s
    {
      var i :| 0 <= i < |steps| && steps[i] == s;
      if i < |removed| {
        assert removed[i] in removed;
      }
    }
    forall p | p in existing && !HasKey(declared, p.0) ensures FolderDelete(p.1) in steps {
      var j :| 0 <= j < |removed| && removed[j] == p;
      assert steps[j] == FolderDelete(p.1);
    }
  }

  /** A step of the diff that is not a deletion is one of the creations. */
  lemma FolderPostAt(removed: Dict, added: Dict, i: nat)
    requires i < |FolderDeletes(removed) + FolderPosts(added)|
    requires var s := (FolderDeletes(removed) + FolderPosts(added))[i]; s.Ok? && s.value.verb != Delete
    ensures |removed| <= i < |removed| + |added|
    ensures (FolderDeletes(removed) + FolderPosts(added))[i] == Ok(Req(Post, At("/rootFolder"), added[i - |removed|].1))
  {
    var deletes, posts := FolderDeletes(removed), FolderPosts(added);
    PastDeletes(deletes, posts, |removed|, i);
    assert posts[i - |removed|] == Ok(Req(Post, At("/rootFolder"), added[i - |removed|].1));
  }

  /** In deletions followed by other steps, a step that is not a deletion comes
      after all the deletions. */
  lemma PastDeletes(deletes: seq<Step>, rest: seq<Step>, n: nat, i: nat)
    requires n == |deletes| && forall k :: 0 <= k < n && deletes[k].Ok? ==> deletes[k].value.verb == Delete
    requires i < |deletes + rest| && (deletes + rest)[i].Ok? && (deletes + rest)[i].value.verb != Delete
    ensures n <= i && (deletes + rest)[i] == rest[i - n]
  {
  }

  /** Every creation is of a declared path that does not exist. */
  lemma FolderPostsSound(existing: Dict, declared: Dict)
    ensures forall s :: s in FolderSteps(existing, declared) && s.Ok? && s.value.verb != Delete ==>
      exists p :: p in declared && !HasKey(existing, p.0) && s == Ok(Req(Post, At("/rootFolder"), p.1))
  {
    var steps := FolderSteps(existing, declared);
    var removed := Undeclared(existing, declared);
    var added := Undeclared(declared, existing);
    assert steps == FolderDeletes(removed) + FolderPosts(added);
    forall s | s in steps && s.Ok? && s.value.verb != Delete
      ensures exists p :: p in declared && !HasKey(existing, p.0) && s == Ok(Req(Post, At("/rootFolder"), p.1))
    {
      var i :| 0 <= i < |steps| && steps[i] == s;
      FolderPostAt(removed, added, i);
      assert added[i - |removed|] in added;
    }
  }

  /** Every declared path that does not exist gets a creation. */
  lemma FolderPostsComplete(existing: Dict, declared: Dict)
    ensures forall p :: p in declared && !HasKey(existing, p.0) ==>
      Ok(Req(Post, At("/rootFolder"), p.1)) in FolderSteps(existing, declared)
  {
    var removed := Undeclared(existing, declared);
    var added := Undeclared(declared, existing);
    var steps := FolderSteps(existing, declared);
    assert steps == FolderDeletes(removed) + FolderPosts(added);
    forall p | p in declared && !HasKey(existing, p.0) ensures Ok(Req(Post, At("/rootFolder"), p.1)) in steps {
      var j :| 0 <= j < |added| && added[j] == p;
      AppendIndex(FolderDeletes(removed), FolderPosts(added), j);
    }
  }

  /** The element at `j` of the second part of a concatenation. */
  lemma AppendIndex<T>(a: seq<T>, b: seq<T>, j: nat)
    requires j < |b|
    ensures b[j] in a + b
  {
    assert (a + b)[|a| + j] == b[j];
  }

  /** When the declared paths are exactly the existing ones, the diff is empty. */
  lemma FolderStepsConverged(existing: Dict, declared: Dict)
    requires forall k :: HasKey(existing, k) <==> HasKey(declared, k)
    ensures FolderSteps(existing, declared) == []
  {
    var removed := Undeclared(existing, declared);
    var added := Undeclared(declared, existing);
    forall i | 0 <= i < |existing| ensures HasKey(declared, existing[i].0) {
      assert HasKey(existing, existing[i].0);
    }
    forall i | 0 <= i < |declared| ensures HasKey(existing, declared[i].0) {
      assert HasKey(declared, declared[i].0);
    }
  }

  /** The sonarr/radarr root-folder phase from request number `n`: nothing when
      no root folders are declared; otherwise the declared paths are read first,
      then the folders are listed and the diff is applied, failing at the first
      error. Deletions here are issued at once, not deferred. */
  function RootFoldersEffect(server: Server, n: nat, decl: Value): (r: Run)
    ensures decl.Null? ==> r == Run([], Pass)
    ensures r.sent != [] ==> r.sent[0] == Req(Get, At("/rootFolder"), Null)
    ensures forall q :: q in r.sent ==> q.target.path == "/rootFolder" && q.verb != Put
    ensures forall q :: q in r.sent && q.verb == Delete ==> q.target.Item?
  {
    if decl.Null? then Run([], Pass)
    else
      match FolderPaths(decl)
      case Err(e) => Run([], Fail(e))
      case Ok(paths) => FoldersListed(server, n, paths)
  }

  /** The listing of the folders, then the diff against the declared `paths`. */
  function FoldersListed(server: Server, n: nat, paths: seq<string>): (r: Run)
    ensures |r.sent| >= 1 && r.sent[0] == Req(Get, At("/rootFolder"), Null)
    ensures forall q :: q in r.sent ==> q.target.path == "/rootFolder" && q.verb != Put
    ensures forall q :: q in r.sent && q.verb == Delete ==> q.target.Item?
  {
    var get := Req(Get, At("/rootFolder"), Null);
    var run := FolderDiffFrom(server, n + 1, FolderExisting(Answer(server, n, get)), FolderDict(paths));
    assert forall q :: q in [get] + run.sent ==> q == get || q in run.sent;
    Run([get] + run.sent, run.outcome)
  }

  /** The existing folders by path, given the server's answer to the listing. */
  function FolderExisting(listing: Result<Value, Exc>): Result<Dict, Exc> {
    if listing.Err? then Err(listing.error) else ToDict(listing.value, "path")
  }

  /** The diff from request number `n`, unless the existing folders could not be
      read. */
  function FolderDiffFrom(server: Server, n: nat, existing: Result<Dict, Exc>, declared: Dict): (r: Run)
    ensures forall q :: q in r.sent ==> q.target.path == "/rootFolder" && q.verb != Put
    ensures forall q :: q in r.sent && q.verb == Delete ==> q.target.Item?
  {
    if existing.Err? then Run([], Fail(existing.error)) else FolderDiff(server, n, existing.value, declared)
  }

  function FolderDiff(server: Server, n: nat, existing: Dict, declared: Dict): (r: Run)
    ensures forall q :: q in r.sent ==> q.target.path == "/rootFolder" && q.verb != Put
    ensures forall q :: q in r.sent && q.verb == Delete ==> q.target.Item?
  {
    var steps := FolderSteps(existing, declared);
    AttemptSentFromSteps(server, n, steps, false);
    Attempt(server, n, steps, false)
  }

  // ---------------------------------------------------------------- lidarr root folders

  /** The lidarr root-folder defaults (declarr/arr.py:627-643):
      `{**v, "defaultTags": [resolved v.get("tags", [])], "defaultQualityProfileId":
      qualities[v[..]], "defaultMetadataProfileId": metadata[v[..]]}`. */
  function LidarrRootDefault(tagMap: Dict, qualities: Dict, metadata: Dict, k: string, v: Value): (r: Result<Value, Exc>)
    ensures r.Ok? ==> v.Obj? && r.value.Obj?
  {
    if !v.Obj? then Err(WrongType)
    else
      match Iterate(LookupOr(v.fields, "tags", Arr([])))
      case Err(e) => Err(e)
      case Ok(tags) =>
        match ResolveTags(tagMap, tags)
        case Err(e) => Err(e)
        case Ok(ids) =>
          match Field(v, "defaultQualityProfileId")
          case Err(e) => Err(e)
          case Ok(q) =>
            match Index(qualities, q)
            case Err(e) => Err(e)
            case Ok(qid) =>
              match Field(v, "defaultMetadataProfileId")
              case Err(e) => Err(e)
              case Ok(m) =>
                match Index(metadata, m)
                case Err(e) => Err(e)
                case Ok(mid) =>
                  Ok(Obj(Overlay(v.fields, LidarrOverrides(Arr(ids), qid, mid))))
  }

  function LidarrDefaults(tagMap: Dict, qualities: Dict, metadata: Dict): Defaults {
    (k, v) => LidarrRootDefault(tagMap, qualities, metadata, k, v)
  }

  function LidarrOverrides(tags: Value, qid: Value, mid: Value): (d: Dict)
    ensures NoDupKeys(d)
    ensures Lookup(d, "defaultTags") == Some(tags)
    ensures Lookup(d, "defaultQualityProfileId") == Some(qid)
    ensures Lookup(d, "defaultMetadataProfileId") == Some(mid)
    ensures forall key :: key != "defaultTags" && key != "defaultQualityProfileId" && key != "defaultMetadataProfileId" ==> !HasKey(d, key)
  {
    var d := [("defaultTags", tags), ("defaultQualityProfileId", qid), ("defaultMetadataProfileId", mid)];
    assert d[1..][1..] == [("defaultMetadataProfileId", mid)];
    forall key | HasKey(d, key)
      ensures key == "defaultTags" || key == "defaultQualityProfileId" || key == "defaultMetadataProfileId"
    {
      var i :| 0 <= i < |d| && d[i].0 == key;
    }
    d
  }

  /** A lidarr root folder's `defaultTags` are the resolution of its `tags`, not of
      the `defaultTags` it declares (which `sync_tags` gathered): a folder that
      declares only `defaultTags` is sent with none. Its profile names become the
      ids the server lists for them. */
  lemma LidarrDefaultTagsFromTags(tagMap: Dict, qualities: Dict, metadata: Dict, k: string, v: Value)
    requires LidarrRootDefault(tagMap, qualities, metadata, k, v).Ok?
    ensures var r := LidarrRootDefault(tagMap, qualities, metadata, k, v).value;
      && (!HasKey(v.fields, "tags") ==> Lookup(r.fields, "defaultTags") == Some(Arr([])))
      && (HasKey(v.fields, "tags") && Lookup(v.fields, "tags").value.Arr? ==>
            Lookup(r.fields, "defaultTags") == Some(Arr(ResolveTags(tagMap, Lookup(v.fields, "tags").value.items).value)))
      && Lookup(qualities, Lookup(v.fields, "defaultQualityProfileId").value.s) == Lookup(r.fields, "defaultQualityProfileId")
      && Lookup(metadata, Lookup(v.fields, "defaultMetadataProfileId").value.s) == Lookup(r.fields, "defaultMetadataProfileId")
  {
    assert Iterate(Arr([])) == Ok([]);
  }

  /** The lidarr root-folder phase from request number `n`: the quality and
      metadata profiles are listed (even when no folder is declared), then the
      folders are reconciled by name with the defaults above. */
  function LidarrRootFoldersEffect(server: Server, n: nat, decl: Result<Value, Exc>, tagMap: Dict): (e: Effect)
    ensures |e.sent| >= 1 && e.sent[0] == Req(Get, At("/qualityprofile"), Null)
    ensures forall i :: 0 <= i < |e.sent| ==> e.sent[i].verb != Delete
    ensures forall i :: 0 <= i < |e.queued| ==> e.queued[i].0.Item? && e.queued[i].0.path == "/rootFolder" && e.queued[i].1 == Null
  {
    var getQ := Req(Get, At("/qualityprofile"), Null);
    var rest := LidarrAfterQualities(server, n + 1, ListedIds(Answer(server, n, getQ), "name"), decl, tagMap);
    NoDeleteCons(getQ, rest.sent);
    Effect([getQ] + rest.sent, rest.queued, rest.outcome)
  }

  /** Once the quality profiles are read: the metadata profiles are listed, then
      the folders are reconciled. */
  function LidarrAfterQualities(server: Server, n: nat, qualities: Result<Dict, Exc>, decl: Result<Value, Exc>,
                                tagMap: Dict): (e: Effect)
    ensures qualities.Err? ==> e == Effect([], [], Fail(qualities.error))
    ensures qualities.Ok? ==> |e.sent| >= 1 && e.sent[0] == Req(Get, At("/metadataprofile"), Null)
    ensures forall i :: 0 <= i < |e.sent| ==> e.sent[i].verb != Delete
    ensures forall i :: 0 <= i < |e.queued| ==> e.queued[i].0.Item? && e.queued[i].0.path == "/rootFolder" && e.queued[i].1 == Null
  {
    if qualities.Err? then Effect([], [], Fail(qualities.error))
    else
      var getM := Req(Get, At("/metadataprofile"), Null);
      var rest := LidarrFolders(server, n + 1, qualities.value, ListedIds(Answer(server, n, getM), "name"), decl, tagMap);
      NoDeleteCons(getM, rest.sent);
      Effect([getM] + rest.sent, rest.queued, rest.outcome)
  }

  /** Once both profile maps are read: the declared folders reconciled by name,
      each with the defaults that resolve its tags and profile names. */
  function LidarrFolders(server: Server, n: nat, qualities: Dict, metadata: Result<Dict, Exc>, decl: Result<Value, Exc>,
                         tagMap: Dict): (e: Effect)
    ensures metadata.Err? ==> e == Effect([], [], Fail(metadata.error))
    ensures metadata.Ok? && decl.Err? ==> e == Effect([], [], Fail(decl.error))
    ensures forall i :: 0 <= i < |e.sent| ==> e.sent[i].verb != Delete
    ensures forall i :: 0 <= i < |e.queued| ==> e.queued[i].0.Item? && e.queued[i].0.path == "/rootFolder" && e.queued[i].1 == Null
  {
    if metadata.Err? then Effect([], [], Fail(metadata.error))
    else if decl.Err? then Effect([], [], Fail(decl.error))
    else ResourcesEffect(server, n, "/rootFolder", decl.value, LidarrDefaults(tagMap, qualities, metadata.value), false, "name")
  }
}
