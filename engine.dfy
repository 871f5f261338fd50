/** The engine object `ArrSyncEngine` (declarr/arr.py:189-666): it holds the
    configuration, the label-to-id tag map and the deferred-deletion queue, sends
    requests to one server, and runs the reconciliation phases of `sync` in order.

    Every method here is proved against the pure definitions of the other modules:
    the requests it appends to `trace`, the deletions it appends to `deferred` and
    the outcome it reports are exactly those the corresponding function computes
    from the state before the call.

    Each phase method leaves the state that its phase's function in `sem` computes
    from the state before it, and `Valid()` says that these functions are the
    stage functions of `Runs` (`Faithful`). A run of `sync` is then tracked by
    `Reached`: after `i` phases the engine is where `Runs.Progress` says the first
    `i` phases of this server type lead. */
module Engine {
  import opened Wrappers
  import opened Json
  import opened Http
  import opened Utils
  import opened Resources
  import opened Contracts
  import opened Tags
  import opened Patcher
  import opened Orchestration
  import opened Runs

  /** `self.cfg['declarr']['name']`, read for the debug line that opens `sync`
      (declarr/arr.py:456-458) before the health check is sent. */
  function DeclarrName(cfg: Dict): (r: Result<Value, Exc>)
    ensures r.Ok? <==>
      HasKey(cfg, "declarr") && Lookup(cfg, "declarr").value.Obj? && HasKey(Lookup(cfg, "declarr").value.fields, "name")
    ensures r.Ok? ==> Lookup(Lookup(cfg, "declarr").value.fields, "name") == Some(r.value)
    ensures !HasKey(cfg, "declarr") ==> r == Err(KeyMissing(Str("declarr")))
    ensures HasKey(cfg, "declarr") && !Lookup(cfg, "declarr").value.Obj? ==> r == Err(WrongType)
    ensures HasKey(cfg, "declarr") && Lookup(cfg, "declarr").value.Obj? && !HasKey(Lookup(cfg, "declarr").value.fields, "name") ==>
      r == Err(KeyMissing(Str("name")))
  {
    match Field(Obj(cfg), "declarr")
    case Err(e) => Err(e)
    case Ok(section) => Field(section, "name")
  }

  class ArrSyncEngine {
    /** The server type, `cfg["declarr"]["type"]`. */
    const kind: ServerType
    /** The remote application. */
    const server: Server
    /** `format_data_source.compile_formats`, not part of this model. */
    const compile: Dict -> Dict
    /** What each phase of `sync` does against `server`. */
    ghost const sem: Semantics

    var cfg: Dict
    var tagMap: Dict
    var deferred: seq<(Target, Value)>
    /** Every request sent so far, in order. */
    var trace: seq<Request>

    /** Every phase function of `sem` agrees, on every state, with the stage
        function that defines that phase against `server`; the constructor
        establishes it from `PhaseSemantics`. */
    ghost predicate Valid() {
      Faithful(sem, server, kind)
    }

    /** The state the phases work on, with `pm` as the profile map of the
        prowlarr block. */
    ghost function Now(pm: Dict): Machine
      reads this
    {
      Machine(trace, deferred, cfg, tagMap, pm)
    }

    /** The first `i` phases of this server type, run from `m0`, lead to the
        present state with the profile map `pm`, and end with `outcome`. */
    ghost predicate Reached(m0: Machine, i: nat, pm: Dict, outcome: Outcome<Exc>)
      reads this
    {
      i <= |Phases(kind)| && Progress(sem, Phases(kind), i, m0) == Stage(Now(pm), outcome)
    }

    constructor(kind: ServerType, server: Server, compile: Dict -> Dict, cfg: Dict)
      ensures Valid()
      ensures this.kind == kind && this.server == server && this.compile == compile && this.cfg == cfg
      ensures tagMap == [] && deferred == [] && trace == []
    {
      this.kind := kind;
      this.server := server;
      this.compile := compile;
      this.cfg := cfg;
      sem := PhaseSemantics(server, kind);
      tagMap := [];
      deferred := [];
      trace := [];
      new;
      PhaseSemanticsFaithful(server, kind);
    }

    // ------------------------------------------------------------ requests and the queue

    /** `_base_req`: the request is logged and answered as request number `|trace|`. */
    method Send(req: Request) returns (res: Result<Value, Exc>)
      modifies this
      ensures trace == old(trace) + [req] && res == Answer(server, |old(trace)|, req)
      ensures cfg == old(cfg) && tagMap == old(tagMap) && deferred == old(deferred)
    {
      res := Answer(server, |trace|, req);
      trace := trace + [req];
    }

    /** Issuing a sequence of requests, stopping at the first failure unless
        `tolerate` is set. */
    method Issue(steps: seq<Step>, tolerate: bool) returns (outcome: Outcome<Exc>)
      modifies this
      ensures var run := Attempt(server, |old(trace)|, steps, tolerate);
        trace == old(trace) + run.sent && outcome == run.outcome
      ensures cfg == old(cfg) && tagMap == old(tagMap) && deferred == old(deferred)
    {
      var log := trace;
      ghost var sent: seq<Request> := [];
      var i := 0;
      outcome := Pass;
      assert steps[0..] == steps;
      while i < |steps| && outcome.Pass?
        modifies {}
        invariant i <= |steps|
        invariant log == trace + sent
        invariant outcome.Pass? ==>
          Attempt(server, |trace|, steps, tolerate) == Run(sent + Attempt(server, |log|, steps[i..], tolerate).sent, Attempt(server, |log|, steps[i..], tolerate).outcome)
        invariant outcome.Fail? ==> Attempt(server, |trace|, steps, tolerate) == Run(sent, outcome)
      {
        AttemptNext(server, |trace|, steps, tolerate, i, sent, |log|);
        var step := steps[i];
        if step.Err? {
          if !tolerate {
            outcome := Fail(step.error);
          }
        } else {
          var res := Answer(server, |log|, step.value);
          Regroup(trace, sent, [step.value]);
          log := log + [step.value];
          sent := sent + [step.value];
          if res.Err? && !tolerate {
            outcome := Fail(res.error);
          }
        }
        i := i + 1;
      }
      if outcome.Pass? {
        assert steps[i..] == [];
        assert sent + [] == sent;
      }
      trace := log;
    }

    /** `deferr_delete(path, body)`: the deletion is only queued. */
    method Defer(target: Target, body: Value)
      modifies this
      ensures deferred == old(deferred) + [(target, body)]
      ensures trace == old(trace) && cfg == old(cfg) && tagMap == old(tagMap)
    {
      deferred := deferred + [(target, body)];
    }

    /** Queueing deletions in order until an entry raises. */
    method DeferAll(entries: seq<Result<(Target, Value), Exc>>) returns (outcome: Outcome<Exc>)
      modifies this
      ensures var q := Enqueue(entries); deferred == old(deferred) + q.items && outcome == q.outcome
      ensures trace == old(trace) && cfg == old(cfg) && tagMap == old(tagMap)
    {
      ghost var done: seq<(Target, Value)> := [];
      var i := 0;
      while i < |entries|
        invariant i <= |entries|
        invariant deferred == old(deferred) + done
        invariant trace == old(trace) && cfg == old(cfg) && tagMap == old(tagMap)
        invariant |done| == i && forall j :: 0 <= j < i ==> entries[j] == Ok(done[j])
      {
        var entry := entries[i];
        if entry.Err? {
          EnqueueUpTo(entries, done, i);
          return Fail(entry.error);
        }
        Defer(entry.value.0, entry.value.1);
        done := done + [entry.value];
        i := i + 1;
      }
      EnqueueUpTo(entries, done, i);
      return Pass;
    }

    /** `sync_resources(path, decl, defaults, allow_error, key)`. */
    method SyncResources(path: string, decl: Value, defaults: Defaults, allowError: bool, key: string)
      returns (outcome: Outcome<Exc>)
      modifies this
      ensures var e := ResourcesEffect(server, |old(trace)|, path, decl, defaults, allowError, key);
        trace == old(trace) + e.sent && deferred == old(deferred) + e.queued && outcome == e.outcome
      ensures cfg == old(cfg) && tagMap == old(tagMap)
    {
      if decl.Null? {
        assert deferred + [] == deferred && trace + [] == trace;
        outcome := Pass;
      } else {
        outcome := ListResources(path, decl, defaults, allowError, key);
      }
    }

    /** A declared collection: the listing, then the rest of `sync_resources`. */
    method ListResources(path: string, decl: Value, defaults: Defaults, allowError: bool, key: string)
      returns (outcome: Outcome<Exc>)
      requires !decl.Null?
      modifies this
      ensures var e := ResourcesEffect(server, |old(trace)|, path, decl, defaults, allowError, key);
        trace == old(trace) + e.sent && deferred == old(deferred) + e.queued && outcome == e.outcome
      ensures cfg == old(cfg) && tagMap == old(tagMap)
    {
      ResourcesListed(server, |trace|, path, decl, defaults, allowError, key);
      var get := Req(Get, At(path), Null);
      var listing := Send(get);
      ghost var before := trace;
      outcome := UpsertIndexed(path, Indexed(listing, key), decl, defaults, allowError);
      ghost var a := ResourcesFrom(server, |before|, path, Indexed(listing, key), decl, defaults, allowError);
      Regroup(old(trace), [get], a.sent);
    }

    /** After the listing: raise its error, or queue the orphans and upsert. */
    method UpsertIndexed(path: string, idx: Result<Dict, Exc>, decl: Value, defaults: Defaults, allowError: bool)
      returns (outcome: Outcome<Exc>)
      modifies this
      ensures var e := ResourcesFrom(server, |old(trace)|, path, idx, decl, defaults, allowError);
        trace == old(trace) + e.sent && deferred == old(deferred) + e.queued && outcome == e.outcome
      ensures cfg == old(cfg) && tagMap == old(tagMap)
    {
      if idx.Err? {
        assert deferred + [] == deferred && trace + [] == trace;
        outcome := Fail(idx.error);
      } else if decl.Obj? {
        outcome := UpsertResources(path, idx.value, decl.fields, defaults, allowError);
      } else {
        outcome := DeferMisdeclared(path, idx.value, decl);
      }
    }

    /** A declared list or string: its orphans are queued, then `map_values`
        raises; any other value raises with nothing queued. */
    method DeferMisdeclared(path: string, existing: Dict, decl: Value) returns (outcome: Outcome<Exc>)
      requires !decl.Obj?
      modifies this
      ensures var e := Misdeclared(path, existing, decl);
        trace == old(trace) + e.sent && deferred == old(deferred) + e.queued && outcome == e.outcome
      ensures cfg == old(cfg) && tagMap == old(tagMap)
    {
      assert trace + [] == trace;
      if decl.Arr? || decl.Str? {
        outcome := DeferAll(Orphans(path, Unlisted(existing, decl)));
        if outcome.Pass? {
          outcome := Fail(WrongType);
        }
      } else {
        assert deferred + [] == deferred;
        outcome := Fail(WrongType);
      }
    }

    /** The second half of `sync_resources`: the orphans are queued, then every
        declared entry is updated or created. */
    method UpsertResources(path: string, existing: Dict, decl: Dict, defaults: Defaults, allowError: bool)
      returns (outcome: Outcome<Exc>)
      modifies this
      ensures var e := ResourcesApply(server, |old(trace)|, path, existing, decl, defaults, allowError);
        trace == old(trace) + e.sent && deferred == old(deferred) + e.queued && outcome == e.outcome
      ensures cfg == old(cfg) && tagMap == old(tagMap)
    {
      outcome := DeferAll(OrphanDeletes(path, existing, decl));
      if outcome.Fail? {
        return;
      }
      var desired := Declared(decl, defaults);
      if desired.Err? {
        return Fail(desired.error);
      }
      outcome := Issue(ResourceSteps(path, existing, desired.value), allowError);
    }

    /** `sync_contracts(path, decl, defaults, scheme_key)`, resolving labels through
        the current tag map. */
    method SyncContracts(path: string, decl: Value, defaults: Defaults, schemeKey: (string, string))
      returns (outcome: Outcome<Exc>)
      modifies this
      ensures var e := ContractsEffect(server, |old(trace)|, path, decl, defaults, schemeKey, old(tagMap));
        trace == old(trace) + e.sent && deferred == old(deferred) + e.queued && outcome == e.outcome
      ensures cfg == old(cfg) && tagMap == old(tagMap)
    {
      if decl.Null? {
        assert deferred + [] == deferred && trace + [] == trace;
        outcome := Pass;
      } else {
        outcome := SyncDeclaredContracts(path, decl, defaults, schemeKey);
      }
    }

    /** `sync_contracts` for a collection the configuration declares: list it and
        merge the declared contracts over the remote ones. */
    method SyncDeclaredContracts(path: string, decl: Value, defaults: Defaults, schemeKey: (string, string))
      returns (outcome: Outcome<Exc>)
      requires !decl.Null?
      modifies this
      ensures var e := ContractsEffect(server, |old(trace)|, path, decl, defaults, schemeKey, old(tagMap));
        trace == old(trace) + e.sent && deferred == old(deferred) + e.queued && outcome == e.outcome
      ensures cfg == old(cfg) && tagMap == old(tagMap)
    {
      var get := Req(Get, At(path), Null);
      var listing := Send(get);
      var m := MergedContracts(listing, decl);
      ghost var before := trace;
      outcome := ContinueMerged(path, m, defaults, schemeKey);
      Regroup(old(trace), [get], ContractsFromMerged(server, |before|, path, m, defaults, schemeKey, tagMap).sent);
    }

    /** The rest of `sync_contracts` once the listing is merged (or has failed). */
    method ContinueMerged(path: string, m: Result<(Dict, Dict), Exc>, defaults: Defaults, schemeKey: (string, string))
      returns (outcome: Outcome<Exc>)
      modifies this
      ensures var e := ContractsFromMerged(server, |old(trace)|, path, m, defaults, schemeKey, old(tagMap));
        trace == old(trace) + e.sent && deferred == old(deferred) + e.queued && outcome == e.outcome
      ensures cfg == old(cfg) && tagMap == old(tagMap)
    {
      if m.Err? {
        assert deferred + [] == deferred && trace + [] == trace;
        outcome := Fail(m.error);
      } else {
        outcome := PrepareContracts(path, m.value.0, m.value.1, defaults, schemeKey);
      }
    }

    /** `sync_contracts` from the schema request on: the schema is listed and
        every merged contract is completed against it. */
    method PrepareContracts(path: string, existing: Dict, merged: Dict, defaults: Defaults, schemeKey: (string, string))
      returns (outcome: Outcome<Exc>)
      modifies this
      ensures var e := ContractsAfterSchema(server, |old(trace)|, path, existing, merged, defaults, schemeKey, old(tagMap));
        trace == old(trace) + e.sent && deferred == old(deferred) + e.queued && outcome == e.outcome
      ensures cfg == old(cfg) && tagMap == old(tagMap)
    {
      var getSchema := Req(Get, At(path + "/schema"), Null);
      var listing := Send(getSchema);
      var prepared := PreparedContracts(listing, merged, schemeKey, defaults, tagMap);
      ghost var before := trace;
      outcome := ApplyPrepared(path, existing, prepared);
      Regroup(old(trace), [getSchema], ContractsFromPrepared(server, |before|, path, existing, prepared).sent);
    }

    /** The deletions and upserts once the preparation is done (or has failed). */
    method ApplyPrepared(path: string, existing: Dict, prepared: Result<Dict, Exc>) returns (outcome: Outcome<Exc>)
      modifies this
      ensures var e := ContractsFromPrepared(server, |old(trace)|, path, existing, prepared);
        trace == old(trace) + e.sent && deferred == old(deferred) + e.queued && outcome == e.outcome
      ensures cfg == old(cfg) && tagMap == old(tagMap)
    {
      if prepared.Err? {
        assert deferred + [] == deferred && trace + [] == trace;
        outcome := Fail(prepared.error);
      } else {
        outcome := ApplyContracts(path, existing, prepared.value);
      }
    }

    /** The deletions and upserts of `sync_contracts` once the contracts are
        prepared. */
    method ApplyContracts(path: string, existing: Dict, prepared: Dict) returns (outcome: Outcome<Exc>)
      modifies this
      ensures var e := ContractsApply(server, |old(trace)|, path, existing, prepared);
        trace == old(trace) + e.sent && deferred == old(deferred) + e.queued && outcome == e.outcome
      ensures cfg == old(cfg) && tagMap == old(tagMap)
    {
      outcome := DeferAll(OrphanDeletes(path, existing, prepared));
      if outcome.Fail? {
        assert trace + [] == trace;
        return;
      }
      outcome := Issue(ContractSteps(path, existing, prepared), false);
    }

    /** `sync_tags()`: gather the labels into the configured `tag` list (which is
        extended in place when the configuration has one), or into the value a
        `tag` of another type starts from, create the missing ones, and rebuild
        the tag map when everything succeeded. */
    method SyncTags() returns (outcome: Outcome<Exc>)
      modifies this
      ensures var t := TagsEffect(server, |old(trace)|, old(cfg), kind == Lidarr);
        && trace == old(trace) + t.sent && outcome == t.outcome
        && tagMap == (if t.tagMap.Some? then t.tagMap.value else old(tagMap))
        && cfg == (if HasKey(old(cfg), "tag") && InitialTags(old(cfg)).Arr? then Set(old(cfg), "tag", Arr(t.gathered)) else old(cfg))
      ensures deferred == old(deferred)
    {
      var start := InitialTags(cfg);
      if start.Arr? {
        var g := GatherTags(start.items, TagChunks(cfg, kind == Lidarr));
        outcome := GatheredTags(g);
      } else {
        var s := Accumulate(start, Addends(cfg, kind == Lidarr));
        if s.outcome.Fail? {
          assert trace + [] == trace;
          return s.outcome;
        }
        outcome := RefreshTags(Iterate(s.acc));
      }
    }

    /** The rest of `sync_tags` once the labels are gathered into a list: store the
        extended list, then send the requests unless a chunk raised. */
    method GatheredTags(g: Gathered) returns (outcome: Outcome<Exc>)
      modifies this
      ensures var t := if g.outcome.Fail? then TagRun([], g.outcome, g.tags, None) else TagsRequests(server, |old(trace)|, Ok(g.tags));
        && trace == old(trace) + t.sent && outcome == t.outcome
        && tagMap == (if t.tagMap.Some? then t.tagMap.value else old(tagMap))
        && cfg == (if HasKey(old(cfg), "tag") then Set(old(cfg), "tag", Arr(g.tags)) else old(cfg))
      ensures deferred == old(deferred)
    {
      if HasKey(cfg, "tag") {
        cfg := Set(cfg, "tag", Arr(g.tags));
      }
      if g.outcome.Fail? {
        assert trace + [] == trace;
        return g.outcome;
      }
      outcome := RefreshTags(Ok(g.tags));
    }

    /** The requests of `sync_tags` once the labels are gathered. */
    method RefreshTags(items: Result<seq<Value>, Exc>) returns (outcome: Outcome<Exc>)
      modifies this
      ensures var t := TagsRequests(server, |old(trace)|, items);
        && trace == old(trace) + t.sent && outcome == t.outcome
        && tagMap == (if t.tagMap.Some? then t.tagMap.value else old(tagMap))
      ensures cfg == old(cfg) && deferred == old(deferred)
    {
      var get := Req(Get, At("/tag"), Null);
      var listing := Send(get);
      var create := TagsToCreate(listing, items);
      var tags := if items.Ok? then items.value else [];
      ghost var before := trace;
      outcome := CreateTags(create, tags);
      Regroup(old(trace), [get], TagsFromCreate(server, |before|, create, tags).sent);
    }

    /** Creating the missing labels, unless reading the first listing failed. */
    method CreateTags(create: Result<seq<Value>, Exc>, tags: seq<Value>) returns (outcome: Outcome<Exc>)
      requires create.Ok? ==> forall v :: v in create.value ==> v.Str? && Lower(v.s) == v.s
      modifies this
      ensures var t := TagsFromCreate(server, |old(trace)|, create, tags);
        && trace == old(trace) + t.sent && outcome == t.outcome
        && tagMap == (if t.tagMap.Some? then t.tagMap.value else old(tagMap))
      ensures cfg == old(cfg) && deferred == old(deferred)
    {
      if create.Err? {
        assert trace + [] == trace;
        outcome := Fail(create.error);
      } else {
        outcome := PostTags(create.value, tags);
      }
    }

    /** The creation POSTs, then the second listing when all of them succeeded. */
    method PostTags(create: seq<Value>, tags: seq<Value>) returns (outcome: Outcome<Exc>)
      requires forall v :: v in create ==> v.Str? && Lower(v.s) == v.s
      modifies this
      ensures var t := TagsCreate(server, |old(trace)|, create, tags);
        && trace == old(trace) + t.sent && outcome == t.outcome
        && tagMap == (if t.tagMap.Some? then t.tagMap.value else old(tagMap))
      ensures cfg == old(cfg) && deferred == old(deferred)
    {
      outcome := Issue(TagPosts(create), false);
      if outcome.Pass? {
        ghost var before := trace;
        outcome := RelistTags(tags);
        Regroup(old(trace), before[|old(trace)|..], TagsRelist(server, |before|, tags).sent);
      }
    }

    /** The second listing; the tag map is replaced when it could be read. */
    method RelistTags(tags: seq<Value>) returns (outcome: Outcome<Exc>)
      modifies this
      ensures var t := TagsRelist(server, |old(trace)|, tags);
        && trace == old(trace) + t.sent && outcome == t.outcome
        && tagMap == (if t.tagMap.Some? then t.tagMap.value else old(tagMap))
      ensures cfg == old(cfg) && deferred == old(deferred)
    {
      var listing := Send(Req(Get, At("/tag"), Null));
      var m := ListedIds(listing, "label");
      if m.Ok? {
        tagMap := m.value;
        outcome := Pass;
      } else {
        outcome := Fail(m.error);
      }
    }

    /** `recursive_sync(obj, resource)`. */
    method RecursiveSync(obj: Value, resource: string) returns (outcome: Outcome<Exc>)
      modifies this
      ensures var r := Patch(server, |old(trace)|, obj, resource);
        trace == old(trace) + r.sent && outcome == r.outcome
      ensures cfg == old(cfg) && tagMap == old(tagMap) && deferred == old(deferred)
      decreases obj, 1
    {
      match obj
      case Arr(bodies) =>
        outcome := Issue(CreateEach(resource, bodies), false);
      case Obj(fs) =>
        if IsSettingsResource(fs) {
          var get := Req(Get, At(resource), Null);
          var current := Send(get);
          if current.Err? {
            return Fail(current.error);
          }
          var written := Send(Req(Put, At(resource), MergedSettings(fs, current.value)));
          if written.Err? {
            return Fail(written.error);
          }
          return Pass;
        } else {
          outcome := SyncChildren(fs, resource);
        }
      case Str(s) =>
        outcome := if s == "" then Pass else Fail(WrongType);
      case _ =>
        outcome := Fail(WrongType);
    }

    /** The loop over a namespace's children in `recursive_sync`. */
    method SyncChildren(fs: Dict, resource: string) returns (outcome: Outcome<Exc>)
      modifies this
      ensures var r := PatchChildren(server, |old(trace)|, fs, 0, resource);
        trace == old(trace) + r.sent && outcome == r.outcome
      ensures cfg == old(cfg) && tagMap == old(tagMap) && deferred == old(deferred)
      decreases Obj(fs), 0
    {
      ghost var sent: seq<Request> := [];
      outcome := Pass;
      var i := 0;
      while i < |fs| && outcome.Pass?
        invariant i <= |fs|
        invariant trace == old(trace) + sent
        invariant cfg == old(cfg) && tagMap == old(tagMap) && deferred == old(deferred)
        invariant outcome.Pass? ==> var rest := PatchChildren(server, |trace|, fs, i, resource);
          PatchChildren(server, |old(trace)|, fs, 0, resource) == Run(sent + rest.sent, rest.outcome)
        invariant outcome.Fail? ==> PatchChildren(server, |old(trace)|, fs, 0, resource) == Run(sent, outcome)
      {
        assert fs[i] in fs;
        ghost var before := trace;
        PatchChildrenStep(server, |before|, fs, i, resource);
        outcome := RecursiveSync(fs[i].1, resource + "/" + fs[i].0);
        ghost var head := trace[|before|..];
        assert trace == before + head;
        Regroup(old(trace), sent, head);
        Regroup(sent, head, PatchChildren(server, |trace|, fs, i + 1, resource).sent);
        sent := sent + head;
        i := i + 1;
      }
      if outcome.Pass? {
        assert sent + [] == sent;
      }
    }

    /** The drain at the end of `sync`: one DELETE per queued entry, in queue
        order, every failure swallowed. The queue itself is kept. */
    method DrainQueue()
      modifies this
      ensures trace == old(trace) + DrainRequests(old(deferred))
      ensures cfg == old(cfg) && tagMap == old(tagMap) && deferred == old(deferred)
    {
      var outcome := Issue(DrainSteps(deferred), true);
      DrainNeverFails(server, |old(trace)|, deferred);
    }

    // ------------------------------------------------------------ the phases of sync

    /** A contract collection phase: `sync_contracts(path, self.cfg[key])` with the
        configuration key and the endpoint of `phase`. */
    method ContractPhase(phase: Phase, ghost m0: Machine, ghost i: nat, ghost pm: Dict) returns (outcome: Outcome<Exc>)
      requires IsContractPhase(phase) && RunsCollections(sem, server)
      requires i < |Phases(kind)| && Phases(kind)[i] == phase && Reached(m0, i, pm, Pass)
      modifies this
      ensures Stage(Now(pm), outcome) == sem.Run(phase, old(Now(pm)))
      ensures Reached(m0, i + 1, pm, outcome)
    {
      ProgressNext(sem, Phases(kind), i, m0);
      ghost var m := Now(pm);
      assert sem.Run(phase, m) == CollectionStage(server, phase, m) by {
        match phase
        case DownloadClients => assert sem.downloadClients(m) == CollectionStage(server, phase, m);
        case Applications => assert sem.applications(m) == CollectionStage(server, phase, m);
        case IndexerProxies => assert sem.indexerProxies(m) == CollectionStage(server, phase, m);
        case Notifications => assert sem.notifications(m) == CollectionStage(server, phase, m);
      }
      var (key, path) := CollectionOf(phase);
      var decl := Field(Obj(cfg), key);
      if decl.Err? {
        outcome := Fail(decl.error);
      } else {
        outcome := SyncContracts(path, decl.value, Keep, ImplementationScheme);
      }
      assert Stage(Now(pm), outcome) == CollectionStage(server, phase, m);
    }

    /** The tags phase. */
    method TagsPhase(ghost m0: Machine, ghost i: nat, ghost pm: Dict) returns (outcome: Outcome<Exc>)
      requires RunsTags(sem, server, kind)
      requires i < |Phases(kind)| && Phases(kind)[i] == Tags && Reached(m0, i, pm, Pass)
      modifies this
      ensures Stage(Now(pm), outcome) == sem.tags(old(Now(pm)))
      ensures Reached(m0, i + 1, pm, outcome)
    {
      ProgressNext(sem, Phases(kind), i, m0);
      ghost var m := Now(pm);
      assert sem.tags(m) == TagsStage(server, kind, m);
      outcome := SyncTags();
      assert Stage(Now(pm), outcome) == TagsStage(server, kind, m);
    }

    /** Prowlarr's application profiles, with the profile map as a result. */
    method AppProfilesPhase(ghost m0: Machine, ghost i: nat, ghost pm: Dict) returns (outcome: Outcome<Exc>, profileMap: Dict)
      requires RunsAppProfiles(sem, server)
      requires i < |Phases(kind)| && Phases(kind)[i] == AppProfiles && Reached(m0, i, pm, Pass)
      modifies this
      ensures Stage(Now(profileMap), outcome) == sem.appProfiles(old(Now(pm)))
      ensures Reached(m0, i + 1, profileMap, outcome)
    {
      ProgressNext(sem, Phases(kind), i, m0);
      ghost var m := Now(pm);
      assert sem.appProfiles(m) == AppProfilesStage(server, m);
      var decl := Field(Obj(cfg), "appProfile");
      if decl.Err? {
        outcome, profileMap := Fail(decl.error), [];
      } else {
        outcome, profileMap := SyncAppProfiles(decl.value);
      }
      assert Stage(Now(profileMap), outcome) == AppProfilesStage(server, m);
    }

    /** `sync_resources("/appprofile", ..)`, then `profile_map` from a second
        listing (declarr/arr.py:494-510). */
    method SyncAppProfiles(declared: Value) returns (outcome: Outcome<Exc>, profileMap: Dict)
      modifies this
      ensures var r := AppProfilesEffect(server, |old(trace)|, declared);
        trace == old(trace) + r.effect.sent && deferred == old(deferred) + r.effect.queued
        && outcome == r.effect.outcome && profileMap == r.profileMap
      ensures cfg == old(cfg) && tagMap == old(tagMap)
    {
      var synced := SyncResources("/appprofile", declared, AppProfileDefault, false, "name");
      ghost var e := ResourcesEffect(server, |old(trace)|, "/appprofile", declared, AppProfileDefault, false, "name");
      ghost var mid := trace;
      outcome, profileMap := ListAppProfiles(synced, declared);
      ghost var l := AppProfilesListing(server, |mid|, synced, declared);
      AppProfilesAfterAt(server, |old(trace)|, |mid|, e, declared);
      Regroup(old(trace), e.sent, l.effect.sent);
      assert deferred == old(deferred) + e.queued + [];
    }

    /** The second listing of `/appprofile` and the map built from it, when the
        reconciliation succeeded. */
    method ListAppProfiles(prior: Outcome<Exc>, declared: Value) returns (outcome: Outcome<Exc>, profileMap: Dict)
      modifies this
      ensures var r := AppProfilesListing(server, |old(trace)|, prior, declared);
        trace == old(trace) + r.effect.sent && outcome == r.effect.outcome && profileMap == r.profileMap
      ensures cfg == old(cfg) && tagMap == old(tagMap) && deferred == old(deferred)
    {
      if prior.Fail? {
        assert trace + [] == trace;
        outcome, profileMap := prior, [];
      } else {
        var listing := Send(Req(Get, At("/appprofile"), Null));
        var pm := ProfileMapFrom(listing, declared);
        if pm.Err? {
          outcome, profileMap := Fail(pm.error), [];
        } else {
          outcome, profileMap := Pass, pm.value;
        }
      }
    }

    /** Prowlarr's indexers, each given an available application profile id. */
    method IndexersPhase(profileMap: Dict, ghost m0: Machine, ghost i: nat) returns (outcome: Outcome<Exc>)
      requires RunsIndexers(sem, server)
      requires i < |Phases(kind)| && Phases(kind)[i] == Indexers && Reached(m0, i, profileMap, Pass)
      modifies this
      ensures Stage(Now(profileMap), outcome) == sem.indexers(old(Now(profileMap)))
      ensures Reached(m0, i + 1, profileMap, outcome)
    {
      ProgressNext(sem, Phases(kind), i, m0);
      ghost var m := Now(profileMap);
      assert sem.indexers(m) == IndexersStage(server, m);
      var decl := Field(Obj(cfg), "indexer");
      if decl.Err? {
        outcome := Fail(decl.error);
      } else {
        outcome := SyncContracts("/indexer", decl.value, IndexerDefaults(profileMap), ("name", "indexerName"));
      }
      assert Stage(Now(profileMap), outcome) == IndexersStage(server, m);
    }

    /** The quality-definition phase. */
    method QualityDefinitionsPhase(ghost m0: Machine, ghost i: nat, ghost pm: Dict) returns (outcome: Outcome<Exc>)
      requires RunsQualityDefinitions(sem, server)
      requires i < |Phases(kind)| && Phases(kind)[i] == QualityDefinitions && Reached(m0, i, pm, Pass)
      modifies this
      ensures Stage(Now(pm), outcome) == sem.qualityDefinitions(old(Now(pm)))
      ensures Reached(m0, i + 1, pm, outcome)
    {
      ProgressNext(sem, Phases(kind), i, m0);
      ghost var m := Now(pm);
      assert sem.qualityDefinitions(m) == QualityDefinitionsStage(server, m);
      outcome := SyncQualityDefinitions();
      assert Stage(Now(pm), outcome) == QualityDefinitionsStage(server, m);
    }

    /** The quality-definition loop (declarr/arr.py:545-554): list the
        definitions, then update every declared one. */
    method SyncQualityDefinitions() returns (outcome: Outcome<Exc>)
      modifies this
      ensures var r := QualityDefinitionsEffect(server, |old(trace)|, Field(Obj(old(cfg)), "qualityDefinition"));
        trace == old(trace) + r.sent && outcome == r.outcome
      ensures cfg == old(cfg) && tagMap == old(tagMap) && deferred == old(deferred)
    {
      var get := Req(Get, At("/qualityDefinition"), Null);
      var listing := Send(get);
      var plan := QualityDefinitionPlan(listing, Field(Obj(cfg), "qualityDefinition"));
      ghost var before := trace;
      outcome := UpdateQualityDefinitions(plan);
      Regroup(old(trace), [get], QualityDefinitionsFromPlan(server, |before|, plan).sent);
    }

    /** The updates of the quality-definition loop, unless they could not be made. */
    method UpdateQualityDefinitions(plan: Result<seq<Step>, Exc>) returns (outcome: Outcome<Exc>)
      requires plan.Ok? ==> forall i :: 0 <= i < |plan.value| && plan.value[i].Ok? ==>
        plan.value[i].value.verb == Put && plan.value[i].value.target.Item? && plan.value[i].value.target.path == "/qualityDefinition"
      modifies this
      ensures var r := QualityDefinitionsFromPlan(server, |old(trace)|, plan);
        trace == old(trace) + r.sent && outcome == r.outcome
      ensures cfg == old(cfg) && tagMap == old(tagMap) && deferred == old(deferred)
    {
      if plan.Err? {
        assert trace + [] == trace;
        outcome := Fail(plan.error);
      } else {
        outcome := Issue(plan.value, false);
      }
    }

    /** Sonarr and radarr custom formats, failures logged and skipped. */
    method CustomFormatsPhase(ghost m0: Machine, ghost i: nat, ghost pm: Dict) returns (outcome: Outcome<Exc>)
      requires RunsCustomFormats(sem, server)
      requires i < |Phases(kind)| && Phases(kind)[i] == CustomFormats && Reached(m0, i, pm, Pass)
      modifies this
      ensures Stage(Now(pm), outcome) == sem.customFormats(old(Now(pm)))
      ensures Reached(m0, i + 1, pm, outcome)
    {
      ProgressNext(sem, Phases(kind), i, m0);
      ghost var m := Now(pm);
      assert sem.customFormats(m) == CustomFormatsStage(server, m);
      var decl := Field(Obj(cfg), "customFormat");
      if decl.Err? {
        outcome := Fail(decl.error);
      } else {
        outcome := SyncResources("/customformat", decl.value, Keep, true, "name");
      }
      assert Stage(Now(pm), outcome) == CustomFormatsStage(server, m);
    }

    /** Sonarr and radarr quality profiles: the custom formats are listed, then
        every profile is sent with one format item per listed format. */
    method QualityProfilesPhase(ghost m0: Machine, ghost i: nat, ghost pm: Dict) returns (outcome: Outcome<Exc>)
      requires RunsQualityProfiles(sem, server)
      requires i < |Phases(kind)| && Phases(kind)[i] == QualityProfiles && Reached(m0, i, pm, Pass)
      modifies this
      ensures Stage(Now(pm), outcome) == sem.qualityProfiles(old(Now(pm)))
      ensures Reached(m0, i + 1, pm, outcome)
    {
      ProgressNext(sem, Phases(kind), i, m0);
      ghost var m := Now(pm);
      assert sem.qualityProfiles(m) == QualityProfilesStage(server, m);
      outcome := SyncQualityProfiles();
      assert Stage(Now(pm), outcome) == QualityProfilesStage(server, m);
    }

    /** The listing of the custom formats, then the profile reconciliation. */
    method SyncQualityProfiles() returns (outcome: Outcome<Exc>)
      modifies this
      ensures var e := QualityProfilesEffect(server, |old(trace)|, Field(Obj(cfg), "qualityProfile"));
        trace == old(trace) + e.sent && deferred == old(deferred) + e.queued && outcome == e.outcome
      ensures cfg == old(cfg) && tagMap == old(tagMap)
    {
      var get := Req(Get, At("/customformat"), Null);
      var formats := Send(get);
      var plan := QualityProfilesPlan(formats, Field(Obj(cfg), "qualityProfile"));
      ghost var before := trace;
      outcome := ReconcileQualityProfiles(plan);
      Regroup(old(trace), [get], QualityProfilesFrom(server, |before|, plan).sent);
    }

    /** `sync_resources("/qualityprofile", ...)`, unless its inputs could not be read. */
    method ReconcileQualityProfiles(plan: Result<(Value, Defaults), Exc>) returns (outcome: Outcome<Exc>)
      modifies this
      ensures var e := QualityProfilesFrom(server, |old(trace)|, plan);
        trace == old(trace) + e.sent && deferred == old(deferred) + e.queued && outcome == e.outcome
      ensures cfg == old(cfg) && tagMap == old(tagMap)
    {
      if plan.Err? {
        assert trace + [] == trace && deferred + [] == deferred;
        outcome := Fail(plan.error);
      } else {
        outcome := SyncResources("/qualityprofile", plan.value.0, plan.value.1, true, "name");
      }
    }

    /** The sonarr/radarr root-folder diff, run only when root folders are
        declared; removed folders are deleted at once. */
    method RootFoldersPhase(ghost m0: Machine, ghost i: nat, ghost pm: Dict) returns (outcome: Outcome<Exc>)
      requires RunsRootFolders(sem, server)
      requires i < |Phases(kind)| && Phases(kind)[i] == RootFolders && Reached(m0, i, pm, Pass)
      modifies this
      ensures Stage(Now(pm), outcome) == sem.rootFolders(old(Now(pm)))
      ensures Reached(m0, i + 1, pm, outcome)
    {
      ProgressNext(sem, Phases(kind), i, m0);
      ghost var m := Now(pm);
      assert sem.rootFolders(m) == RootFoldersStage(server, m);
      var decl := Field(Obj(cfg), "rootFolder");
      if decl.Err? {
        outcome := Fail(decl.error);
      } else {
        outcome := SyncRootFolders(decl.value);
      }
      assert Stage(Now(pm), outcome) == RootFoldersStage(server, m);
    }

    /** The declared paths read, then the listing and the diff. */
    method SyncRootFolders(decl: Value) returns (outcome: Outcome<Exc>)
      modifies this
      ensures var r := RootFoldersEffect(server, |old(trace)|, decl);
        trace == old(trace) + r.sent && outcome == r.outcome
      ensures cfg == old(cfg) && tagMap == old(tagMap) && deferred == old(deferred)
    {
      if decl.Null? {
        assert trace + [] == trace;
        outcome := Pass;
      } else {
        var paths := FolderPaths(decl);
        if paths.Err? {
          assert trace + [] == trace;
          outcome := Fail(paths.error);
        } else {
          outcome := ListFolders(paths.value);
        }
      }
    }

    /** `to_dict(self.get("/rootFolder"), "path")`, then the diff. */
    method ListFolders(paths: seq<string>) returns (outcome: Outcome<Exc>)
      modifies this
      ensures var r := FoldersListed(server, |old(trace)|, paths);
        trace == old(trace) + r.sent && outcome == r.outcome
      ensures cfg == old(cfg) && tagMap == old(tagMap) && deferred == old(deferred)
    {
      var get := Req(Get, At("/rootFolder"), Null);
      var listing := Send(get);
      var existing := FolderExisting(listing);
      ghost var before := trace;
      outcome := ApplyFolderDiff(existing, FolderDict(paths));
      Regroup(old(trace), [get], FolderDiffFrom(server, |before|, existing, FolderDict(paths)).sent);
    }

    /** The deletions, then the creations, of the diff. */
    method ApplyFolderDiff(existing: Result<Dict, Exc>, declared: Dict) returns (outcome: Outcome<Exc>)
      modifies this
      ensures var r := FolderDiffFrom(server, |old(trace)|, existing, declared);
        trace == old(trace) + r.sent && outcome == r.outcome
      ensures cfg == old(cfg) && tagMap == old(tagMap) && deferred == old(deferred)
    {
      if existing.Err? {
        assert trace + [] == trace;
        outcome := Fail(existing.error);
      } else {
        outcome := Issue(FolderSteps(existing.value, declared), false);
      }
    }

    /** The lidarr root folders, reconciled by name as resources. */
    method LidarrRootFoldersPhase(ghost m0: Machine, ghost i: nat, ghost pm: Dict) returns (outcome: Outcome<Exc>)
      requires RunsLidarrRootFolders(sem, server)
      requires i < |Phases(kind)| && Phases(kind)[i] == LidarrRootFolders && Reached(m0, i, pm, Pass)
      modifies this
      ensures Stage(Now(pm), outcome) == sem.lidarrRootFolders(old(Now(pm)))
      ensures Reached(m0, i + 1, pm, outcome)
    {
      ProgressNext(sem, Phases(kind), i, m0);
      ghost var m := Now(pm);
      assert sem.lidarrRootFolders(m) == LidarrRootFoldersStage(server, m);
      outcome := SyncLidarrRootFolders();
      assert Stage(Now(pm), outcome) == LidarrRootFoldersStage(server, m);
    }

    /** The quality profiles listed, then the rest of the lidarr phase. */
    method SyncLidarrRootFolders() returns (outcome: Outcome<Exc>)
      modifies this
      ensures var e := LidarrRootFoldersEffect(server, |old(trace)|, Field(Obj(cfg), "rootFolder"), tagMap);
        trace == old(trace) + e.sent && deferred == old(deferred) + e.queued && outcome == e.outcome
      ensures cfg == old(cfg) && tagMap == old(tagMap)
    {
      var getQ := Req(Get, At("/qualityprofile"), Null);
      var qlist := Send(getQ);
      var qualities := ListedIds(qlist, "name");
      ghost var before := trace;
      outcome := AfterQualities(qualities);
      Regroup(old(trace), [getQ], LidarrAfterQualities(server, |before|, qualities, Field(Obj(cfg), "rootFolder"), tagMap).sent);
    }

    /** Unless the quality profiles could not be read: the metadata profiles. */
    method AfterQualities(qualities: Result<Dict, Exc>) returns (outcome: Outcome<Exc>)
      modifies this
      ensures var e := LidarrAfterQualities(server, |old(trace)|, qualities, Field(Obj(cfg), "rootFolder"), tagMap);
        trace == old(trace) + e.sent && deferred == old(deferred) + e.queued && outcome == e.outcome
      ensures cfg == old(cfg) && tagMap == old(tagMap)
    {
      if qualities.Err? {
        assert trace + [] == trace && deferred + [] == deferred;
        outcome := Fail(qualities.error);
      } else {
        outcome := ListMetadataProfiles(qualities.value);
      }
    }

    /** The metadata profiles listed, then the folders reconciled. */
    method ListMetadataProfiles(qualities: Dict) returns (outcome: Outcome<Exc>)
      modifies this
      ensures var e := LidarrAfterQualities(server, |old(trace)|, Ok(qualities), Field(Obj(cfg), "rootFolder"), tagMap);
        trace == old(trace) + e.sent && deferred == old(deferred) + e.queued && outcome == e.outcome
      ensures cfg == old(cfg) && tagMap == old(tagMap)
    {
      var getM := Req(Get, At("/metadataprofile"), Null);
      var mlist := Send(getM);
      var metadata := ListedIds(mlist, "name");
      ghost var before := trace;
      outcome := ReconcileLidarrFolders(qualities, metadata);
      Regroup(old(trace), [getM], LidarrFolders(server, |before|, qualities, metadata, Field(Obj(cfg), "rootFolder"), tagMap).sent);
    }

    /** `sync_resources("/rootFolder", ...)` with the lidarr defaults, unless the
        metadata profiles or the declaration could not be read. */
    method ReconcileLidarrFolders(qualities: Dict, metadata: Result<Dict, Exc>) returns (outcome: Outcome<Exc>)
      modifies this
      ensures var e := LidarrFolders(server, |old(trace)|, qualities, metadata, Field(Obj(cfg), "rootFolder"), tagMap);
        trace == old(trace) + e.sent && deferred == old(deferred) + e.queued && outcome == e.outcome
      ensures cfg == old(cfg) && tagMap == old(tagMap)
    {
      var decl := Field(Obj(cfg), "rootFolder");
      if metadata.Err? {
        assert trace + [] == trace && deferred + [] == deferred;
        outcome := Fail(metadata.error);
      } else if decl.Err? {
        assert trace + [] == trace && deferred + [] == deferred;
        outcome := Fail(decl.error);
      } else {
        outcome := SyncResources("/rootFolder", decl.value, LidarrDefaults(tagMap, qualities, metadata.value), false, "name");
      }
    }

    /** The settings tree: `recursive_sync(self.cfg["config"], resource="/config")`. */
    method SettingsPhase(ghost m0: Machine, ghost i: nat, ghost pm: Dict) returns (outcome: Outcome<Exc>)
      requires RunsSettings(sem, server)
      requires i < |Phases(kind)| && Phases(kind)[i] == Settings && Reached(m0, i, pm, Pass)
      modifies this
      ensures Stage(Now(pm), outcome) == sem.settings(old(Now(pm)))
      ensures Reached(m0, i + 1, pm, outcome)
    {
      ProgressNext(sem, Phases(kind), i, m0);
      ghost var m := Now(pm);
      assert sem.settings(m) == SettingsStage(server, m);
      var decl := Field(Obj(cfg), "config");
      if decl.Err? {
        outcome := Fail(decl.error);
      } else {
        outcome := RecursiveSync(decl.value, "/config");
      }
      assert Stage(Now(pm), outcome) == SettingsStage(server, m);
    }

    // ------------------------------------------------------------ sync

    /** `sync()`, with the health check's result as a parameter. Reading the
        server's name for the opening debug line raises first when
        `declarr.name` is not declared, and a failed check raises next; either
        way nothing is sent or changed. Otherwise the configuration
        gets the managed defaults as declarr/arr.py:463-481 writes them (the
        proxy key spelled `indexerProxie`; `Runs.ProxyUndeclaredRaises` says what
        that does to prowlarr), and for sonarr and radarr its compiled formats;
        the phases of this server type run in order from there: the
        log, the queue, the configuration, the tag map and the outcome are those
        `Progress` computes, so the first phase that raises ends the run and the
        drain runs only when every other phase passed. A run that raised has
        therefore deleted nothing but sonarr/radarr root folders, and a run that
        passed ends with exactly one DELETE per queued entry. */
    method Sync(pingOk: bool) returns (outcome: Outcome<Exc>)
      requires Valid()
      modifies this
      ensures DeclarrName(old(cfg)).Err? ==>
        && outcome == Fail(DeclarrName(old(cfg)).error)
        && trace == old(trace) && deferred == old(deferred) && cfg == old(cfg) && tagMap == old(tagMap)
      ensures DeclarrName(old(cfg)).Ok? && !pingOk ==>
        && outcome == Fail(PingFailed)
        && trace == old(trace) && deferred == old(deferred) && cfg == old(cfg) && tagMap == old(tagMap)
      ensures DeclarrName(old(cfg)).Ok? && pingOk ==>
        var s := Progress(sem, Phases(kind), |Phases(kind)|, Machine(old(trace), old(deferred), Prepared(kind, compile, old(cfg)), old(tagMap), []));
        && trace == s.m.trace && deferred == s.m.queue && cfg == s.m.cfg && tagMap == s.m.tagMap
        && outcome == s.outcome
      ensures DeclarrName(old(cfg)).Ok? && pingOk ==> Ends(old(trace), old(deferred), trace, deferred, outcome, kind == Sonarr || kind == Radarr)
    {
      var name := DeclarrName(cfg);
      if name.Err? {
        return Fail(name.error);
      }
      if !pingOk {
        return Fail(PingFailed);
      }
      Prepare();
      ghost var m0 := Now([]);
      ghost var pm: Dict;
      outcome, pm := RunPhases(m0);
      FaithfulEnds(sem, server, kind, m0);
    }

    /** The managed keys defaulted by the overlay as written, then for sonarr and
        radarr the formats compiled (declarr/arr.py:463-484). */
    method Prepare()
      modifies this
      ensures cfg == Prepared(kind, compile, old(cfg))
      ensures trace == old(trace) && deferred == old(deferred) && tagMap == old(tagMap)
    {
      cfg := WithDefaultsAsWritten(cfg);
      if kind == Sonarr || kind == Radarr {
        cfg := compile(cfg);
      }
    }

    /** Once a phase has raised, the later phases change nothing: the run
        stays where it was however many more phases are counted. */
    lemma Stops(m0: Machine, i: nat, j: nat, pm: Dict, outcome: Outcome<Exc>)
      requires Reached(m0, i, pm, outcome) && outcome.Fail? && i <= j <= |Phases(kind)|
      ensures Reached(m0, j, pm, outcome)
    {
      ProgressStops(sem, Phases(kind), i, j, m0);
    }

    /** The phases of `sync()` from the prepared configuration `m0`: every phase
        but the last three, then the notifications, the settings tree and the
        drain unless one of those raised. */
    method RunPhases(ghost m0: Machine) returns (outcome: Outcome<Exc>, ghost pm: Dict)
      requires Valid() && Reached(m0, 0, [], Pass)
      modifies this
      ensures Reached(m0, |Phases(kind)|, pm, outcome)
    {
      outcome, pm := OpeningPhases(m0);
      if outcome.Pass? {
        outcome := FinalPhases(m0, pm);
      } else {
        Stops(m0, |Phases(kind)| - 3, |Phases(kind)|, pm, outcome);
      }
    }

    /** The tags, the download clients and the phases particular to the server
        type: every phase but the last three (declarr/arr.py:485-645). */
    method OpeningPhases(ghost m0: Machine) returns (outcome: Outcome<Exc>, ghost pm: Dict)
      requires Valid() && Reached(m0, 0, [], Pass)
      modifies this
      ensures Reached(m0, |Phases(kind)| - 3, pm, outcome)
    {
      pm := [];
      outcome := SharedPhases(m0);
      if outcome.Fail? {
        Stops(m0, 2, |Phases(kind)| - 3, [], outcome);
      } else if kind == Prowlarr {
        outcome, pm := ProwlarrPhases(m0);
      } else if kind == Lidarr {
        outcome := LidarrPhases(m0);
      } else {
        outcome := SonarrRadarrPhases(m0);
      }
    }

    /** The tags and the download clients, the two phases every server type runs
        first (declarr/arr.py:485-489). */
    method SharedPhases(ghost m0: Machine) returns (outcome: Outcome<Exc>)
      requires RunsTags(sem, server, kind) && RunsCollections(sem, server)
      requires Reached(m0, 0, [], Pass)
      modifies this
      ensures Reached(m0, 2, [], outcome)
    {
      outcome := TagsPhase(m0, 0, []);
      if outcome.Fail? {
        Stops(m0, 1, 2, [], outcome);
        return;
      }
      outcome := ContractPhase(DownloadClients, m0, 1, []);
    }

    /** The prowlarr block (declarr/arr.py:491-543): the application profiles,
        whose map the indexers use, then the indexers, the applications and the
        indexer proxies. */
    method ProwlarrPhases(ghost m0: Machine) returns (outcome: Outcome<Exc>, ghost pm: Dict)
      requires kind == Prowlarr
      requires RunsAppProfiles(sem, server) && RunsIndexers(sem, server) && RunsCollections(sem, server)
      requires Reached(m0, 2, [], Pass)
      modifies this
      ensures Reached(m0, 6, pm, outcome)
    {
      var profileMap;
      outcome, profileMap := AppProfilesPhase(m0, 2, []);
      pm := profileMap;
      if outcome.Fail? {
        Stops(m0, 3, 6, pm, outcome);
        return;
      }
      outcome := IndexersPhase(profileMap, m0, 3);
      if outcome.Fail? {
        Stops(m0, 4, 6, pm, outcome);
        return;
      }
      outcome := ContractPhase(Applications, m0, 4, pm);
      if outcome.Fail? {
        Stops(m0, 5, 6, pm, outcome);
        return;
      }
      outcome := ContractPhase(IndexerProxies, m0, 5, pm);
    }

    /** The lidarr phases: the quality definitions (declarr/arr.py:545-554), then
        the root folders as resources (declarr/arr.py:609-645). */
    method LidarrPhases(ghost m0: Machine) returns (outcome: Outcome<Exc>)
      requires kind == Lidarr
      requires RunsQualityDefinitions(sem, server) && RunsLidarrRootFolders(sem, server)
      requires Reached(m0, 2, [], Pass)
      modifies this
      ensures Reached(m0, 4, [], outcome)
    {
      outcome := QualityDefinitionsPhase(m0, 2, []);
      if outcome.Fail? {
        Stops(m0, 3, 4, [], outcome);
        return;
      }
      outcome := LidarrRootFoldersPhase(m0, 3, []);
    }

    /** The sonarr and radarr phases: the quality definitions
        (declarr/arr.py:545-554) and the custom formats (declarr/arr.py:561-571),
        then the quality profiles and the root folders. */
    method SonarrRadarrPhases(ghost m0: Machine) returns (outcome: Outcome<Exc>)
      requires kind == Sonarr || kind == Radarr
      requires RunsQualityDefinitions(sem, server) && RunsCustomFormats(sem, server)
      requires RunsQualityProfiles(sem, server) && RunsRootFolders(sem, server)
      requires Reached(m0, 2, [], Pass)
      modifies this
      ensures Reached(m0, 6, [], outcome)
    {
      outcome := QualityDefinitionsPhase(m0, 2, []);
      if outcome.Fail? {
        Stops(m0, 3, 6, [], outcome);
        return;
      }
      outcome := CustomFormatsPhase(m0, 3, []);
      if outcome.Fail? {
        Stops(m0, 4, 6, [], outcome);
        return;
      }
      outcome := ProfilesAndFoldersPhases(m0);
    }

    /** The quality profiles, then the root folders of sonarr and radarr
        (declarr/arr.py:573-607). */
    method ProfilesAndFoldersPhases(ghost m0: Machine) returns (outcome: Outcome<Exc>)
      requires kind == Sonarr || kind == Radarr
      requires RunsQualityProfiles(sem, server) && RunsRootFolders(sem, server)
      requires Reached(m0, 4, [], Pass)
      modifies this
      ensures Reached(m0, 6, [], outcome)
    {
      outcome := QualityProfilesPhase(m0, 4, []);
      if outcome.Fail? {
        Stops(m0, 5, 6, [], outcome);
        return;
      }
      outcome := RootFoldersPhase(m0, 5, []);
    }

    /** The notifications, the settings tree and, when both passed, the drain
        (declarr/arr.py:647-666). */
    method FinalPhases(ghost m0: Machine, ghost pm: Dict) returns (outcome: Outcome<Exc>)
      requires RunsCollections(sem, server) && RunsSettings(sem, server) && RunsDrain(sem)
      requires Reached(m0, |Phases(kind)| - 3, pm, Pass)
      modifies this
      ensures Reached(m0, |Phases(kind)|, pm, outcome)
    {
      ghost var ps := Phases(kind);
      outcome := ContractPhase(Notifications, m0, |ps| - 3, pm);
      if outcome.Fail? {
        Stops(m0, |ps| - 2, |ps|, pm, outcome);
        return;
      }
      outcome := SettingsPhase(m0, |ps| - 2, pm);
      if outcome.Fail? {
        Stops(m0, |ps| - 1, |ps|, pm, outcome);
        return;
      }
      outcome := DrainPhase(m0, |ps| - 1, pm);
    }

    /** The drain of the queued deletions, which cannot raise. */
    method DrainPhase(ghost m0: Machine, ghost i: nat, ghost pm: Dict) returns (outcome: Outcome<Exc>)
      requires RunsDrain(sem)
      requires i < |Phases(kind)| && Phases(kind)[i] == Drain && Reached(m0, i, pm, Pass)
      modifies this
      ensures Stage(Now(pm), outcome) == sem.drain(old(Now(pm)))
      ensures Reached(m0, i + 1, pm, outcome)
    {
      ProgressNext(sem, Phases(kind), i, m0);
      ghost var m := Now(pm);
      assert sem.drain(m) == DrainStage(m);
      DrainQueue();
      outcome := Pass;
    }
  }
}
