/** The contract reconciler `sync_contracts` (declarr/arr.py:330-417): download
    clients, indexers, applications, indexer proxies and notifications. Each
    declared contract is merged over its remote counterpart and over the schema
    entry of its implementation, then sent with labels resolved to tag ids and
    fields in wire form. */
module Contracts {
  import opened Wrappers
  import opened Json
  import opened Http
  import opened Utils
  import opened Fields
  import opened Resources

  // ---------------------------------------------------------------- per-entry stages

  /** `{**val, "fields": {f["name"]: f.get("value", None) for f in val["fields"]}}` */
  function WithFieldMap(v: Value): (r: Result<Value, Exc>)
    ensures r.Ok? <==> v.Obj? && HasKey(v.fields, "fields") && FieldsToMap(Lookup(v.fields, "fields").value).Ok?
    ensures r.Ok? ==> r.value.Obj?
    ensures r.Ok? ==> Lookup(r.value.fields, "fields") == Some(Obj(FieldsToMap(Lookup(v.fields, "fields").value).value))
    ensures r.Ok? ==> forall k :: k != "fields" ==> Lookup(r.value.fields, k) == Lookup(v.fields, k)
  {
    if !v.Obj? then Err(WrongType)
    else
      match Field(v, "fields")
      case Err(e) => Err(e)
      case Ok(fs) =>
        match FieldsToMap(fs)
        case Err(e) => Err(e)
        case Ok(m) =>
          var one := Singleton("fields", Obj(m));
          assert forall k :: k != "fields" ==> !HasKey(one, k);
          Ok(Obj(Overlay(v.fields, one)))
  }

  /** The two keys every contract is given unless it sets them itself. */
  function ContractDefaults(k: string): (d: Dict)
    ensures NoDupKeys(d)
    ensures Lookup(d, "enable") == Some(Bool(true)) && Lookup(d, "name") == Some(Str(k))
    ensures forall key :: key != "enable" && key != "name" ==> Lookup(d, key) == None
  {
    var d := [("enable", Bool(true)), ("name", Str(k))];
    assert d[1..] == [("name", Str(k))];
    d
  }

  /** `{"enable": True, "name": k, **v}` */
  function EnableAndName(k: string, v: Value): (r: Result<Value, Exc>)
    ensures r.Ok? <==> v.Obj?
    ensures r.Ok? ==> r.value.Obj? && NoDupKeys(r.value.fields)
    ensures r.Ok? && !HasKey(v.fields, "enable") ==> Lookup(r.value.fields, "enable") == Some(Bool(true))
    ensures r.Ok? && !HasKey(v.fields, "name") ==> Lookup(r.value.fields, "name") == Some(Str(k))
    ensures r.Ok? && NoDupKeys(v.fields) ==> forall key :: HasKey(v.fields, key) ==> Lookup(r.value.fields, key) == Lookup(v.fields, key)
    ensures r.Ok? ==> forall key :: key != "enable" && key != "name" && !HasKey(v.fields, key) ==> Lookup(r.value.fields, key) == None
  {
    if v.Obj? then
      OverlayNoDup(ContractDefaults(k), v.fields);
      Ok(Obj(Overlay(ContractDefaults(k), v.fields)))
    else Err(WrongType)
  }

  /** One schema entry as the engine uses it: fields as a map, `presets` removed. */
  function SchemaEntry(v: Value): (r: Result<Value, Exc>)
    ensures r.Ok? <==> WithFieldMap(v).Ok?
    ensures r.Ok? ==> r.value.Obj? && Lookup(r.value.fields, "presets") == None
    ensures r.Ok? ==> Lookup(r.value.fields, "fields") == Lookup(WithFieldMap(v).value.fields, "fields")
    ensures r.Ok? ==> forall k :: k != "presets" && k != "fields" ==> Lookup(r.value.fields, k) == Lookup(v.fields, k)
  {
    match WithFieldMap(v)
    case Err(e) => Err(e)
    case Ok(w) => Ok(Obj(DelKeys(w.fields, {"presets"})))
  }

  /** `schema[v[discriminator]]`: the schema entry a contract names. */
  function PickSchema(schema: Dict, v: Value, discriminator: string): (r: Result<Value, Exc>)
    ensures r.Ok? <==> v.Obj? && Lookup(v.fields, discriminator).Some? && Lookup(v.fields, discriminator).value.Str?
                       && HasKey(schema, Lookup(v.fields, discriminator).value.s)
    ensures r.Ok? ==> Lookup(schema, Lookup(v.fields, discriminator).value.s) == Some(r.value)
  {
    match Field(v, discriminator)
    case Err(e) => Err(e)
    case Ok(d) => Index(schema, d)
  }

  /** `{**obj, "tags": [..resolved..], "fields": [..wire records..]}` */
  function ToWire(tagMap: Dict, obj: Value): (r: Result<Value, Exc>)
    ensures r.Ok? ==> obj.Obj? && r.value.Obj?
    ensures r.Ok? ==>
      var tags := Iterate(LookupOr(obj.fields, "tags", Arr([])));
      var fm := LookupOr(obj.fields, "fields", Obj([]));
      && tags.Ok? && ResolveTags(tagMap, tags.value).Ok? && fm.Obj?
      && Lookup(r.value.fields, "tags") == Some(Arr(ResolveTags(tagMap, tags.value).value))
      && Lookup(r.value.fields, "fields") == Some(Arr(FieldsToList(fm.fields)))
      && forall k :: k != "tags" && k != "fields" ==> Lookup(r.value.fields, k) == Lookup(obj.fields, k)
  {
    if !obj.Obj? then Err(WrongType)
    else
      match Iterate(LookupOr(obj.fields, "tags", Arr([])))
      case Err(e) => Err(e)
      case Ok(tags) =>
        match ResolveTags(tagMap, tags)
        case Err(e) => Err(e)
        case Ok(ids) =>
          var fm := LookupOr(obj.fields, "fields", Obj([]));
          if !fm.Obj? then Err(WrongType)
          else
            var wire := [("tags", Arr(ids)), ("fields", Arr(FieldsToList(fm.fields)))];
            assert wire[1..] == [("fields", Arr(FieldsToList(fm.fields)))];
            assert NoDupKeys(wire);
            assert wire[0].0 == "tags" && wire[1].0 == "fields";
            assert forall k :: k != "tags" && k != "fields" ==> !HasKey(wire, k);
            Ok(Obj(Overlay(obj.fields, wire)))
  }

  // ---------------------------------------------------------------- whole collection

  /** The remote contracts with their fields as maps (declarr/arr.py:343-349). */
  function ExistingOf(raw: Dict): Result<Dict, Exc> {
    MapValuesR(raw, (_, v) => WithFieldMap(v))
  }

  /** The schema entries with their fields as maps and without presets
      (declarr/arr.py:366-378). */
  function SchemaOf(raw: Dict): Result<Dict, Exc> {
    MapValuesR(raw, (_, v) => SchemaEntry(v))
  }

  /** The declared contracts merged over their remote counterparts, with `enable`
      and `name` filled in (declarr/arr.py:350-362). */
  function MergeExisting(existing: Dict, decl: Dict): Result<Dict, Exc> {
    var merged := MapValues(decl, (k, v) => DeepMerge(v, LookupOr(existing, k, Obj([]))));
    MapValuesR(merged, EnableAndName)
  }

  /** The rest of the preparation (declarr/arr.py:379-406): merge over the schema
      entry, fill `enable` and `name` again, apply the caller's defaults, and put
      tags and fields in wire form. */
  function Complete(c: Dict, schema: Dict, discriminator: string, defaults: Defaults, tagMap: Dict): Result<Dict, Exc> {
    match MapValuesR(c, (k, v) => match PickSchema(schema, v, discriminator) case Err(e) => Err(e) case Ok(s) => Ok(DeepMerge(v, s)))
    case Err(e) => Err(e)
    case Ok(c3) =>
      match MapValuesR(c3, EnableAndName)
      case Err(e) => Err(e)
      case Ok(c4) =>
        match MapValuesR(c4, defaults)
        case Err(e) => Err(e)
        case Ok(c5) => MapValuesR(c5, (k, v) => ToWire(tagMap, v))
  }

  /** `PUT path/{id}` with the prepared contract for a name the server already has,
      `POST path` for a new one. */
  function ContractStep(path: string, existing: Dict, name: string, data: Value): (s: Step)
    ensures !HasKey(existing, name) ==> s == Ok(Req(Post, At(path), data))
    ensures HasKey(existing, name) ==>
      var rec := Lookup(existing, name).value;
      && (s.Ok? <==> rec.Obj? && HasKey(rec.fields, "id"))
      && (s.Ok? ==> s.value == Req(Put, Item(path, Lookup(rec.fields, "id").value), data))
  {
    match Lookup(existing, name)
    case None => Ok(Req(Post, At(path), data))
    case Some(rec) =>
      match Field(rec, "id")
      case Err(e) => Err(e)
      case Ok(id) => Ok(Req(Put, Item(path, id), data))
  }

  function ContractSteps(path: string, existing: Dict, prepared: Dict): (steps: seq<Step>)
    ensures |steps| == |prepared|
    ensures forall i :: 0 <= i < |prepared| ==> steps[i] == ContractStep(path, existing, prepared[i].0, prepared[i].1)
  {
    seq(|prepared|, i requires 0 <= i < |prepared| => ContractStep(path, existing, prepared[i].0, prepared[i].1))
  }

  /** `sync_contracts(path, cfg, defaults, scheme_key)` from request number `n`,
      with `scheme_key` as the pair (schema index field, discriminator). */
  function ContractsEffect(server: Server, n: nat, path: string, decl: Value, defaults: Defaults,
                           schemeKey: (string, string), tagMap: Dict): (e: Effect)
    ensures decl.Null? ==> e == Effect([], [], Pass)
    ensures !decl.Null? ==> |e.sent| >= 1 && e.sent[0] == Req(Get, At(path), Null)
    ensures forall i :: 0 <= i < |e.sent| ==> e.sent[i].verb != Delete
    ensures forall i :: 0 <= i < |e.queued| ==> e.queued[i].0.Item? && e.queued[i].0.path == path && e.queued[i].1 == Null
  {
    if decl.Null? then Effect([], [], Pass)
    else
      var get := Req(Get, At(path), Null);
      var s := ContractsFromMerged(server, n + 1, path, MergedContracts(Answer(server, n, get), decl), defaults, schemeKey, tagMap);
      NoDeleteCons(get, s.sent);
      Effect([get] + s.sent, s.queued, s.outcome)
  }

  /** The remote contracts indexed by name, and the declared ones merged over
      them, given the answer to the listing request (declarr/arr.py:340-362). */
  function MergedContracts(listing: Result<Value, Exc>, decl: Value): Result<(Dict, Dict), Exc> {
    if listing.Err? then Err(listing.error)
    else
      match ToDict(listing.value, "name")
      case Err(err) => Err(err)
      case Ok(raw) =>
        match ExistingOf(raw)
        case Err(err) => Err(err)
        case Ok(existing) =>
          if !decl.Obj? then Err(WrongType)
          else
            match MergeExisting(existing, decl.fields)
            case Err(err) => Err(err)
            case Ok(c) => Ok((existing, c))
  }

  /** After the listing: a failure to list or merge ends the call, otherwise the
      schema stage follows with the remote and the merged contracts. */
  function ContractsFromMerged(server: Server, n: nat, path: string, m: Result<(Dict, Dict), Exc>, defaults: Defaults,
                               schemeKey: (string, string), tagMap: Dict): (e: Effect)
    ensures m.Err? ==> e == Effect([], [], Fail(m.error))
    ensures forall i :: 0 <= i < |e.sent| ==> e.sent[i].verb != Delete
    ensures forall i :: 0 <= i < |e.queued| ==> e.queued[i].0.Item? && e.queued[i].0.path == path && e.queued[i].1 == Null
  {
    if m.Err? then Effect([], [], Fail(m.error))
    else ContractsAfterSchema(server, n, path, m.value.0, m.value.1, defaults, schemeKey, tagMap)
  }

  /** From the schema request on: the caller has the declared contracts merged. */
  function ContractsAfterSchema(server: Server, n: nat, path: string, existing: Dict, c: Dict, defaults: Defaults,
                                schemeKey: (string, string), tagMap: Dict): (e: Effect)
    ensures |e.sent| >= 1 && e.sent[0] == Req(Get, At(path + "/schema"), Null)
    ensures forall i :: 0 <= i < |e.sent| ==> e.sent[i].verb != Delete
    ensures forall i :: 0 <= i < |e.queued| ==> e.queued[i].0.Item? && e.queued[i].0.path == path && e.queued[i].1 == Null
  {
    var getSchema := Req(Get, At(path + "/schema"), Null);
    var prepared := PreparedContracts(Answer(server, n, getSchema), c, schemeKey, defaults, tagMap);
    var a := ContractsFromPrepared(server, n + 1, path, existing, prepared);
    NoDeleteCons(getSchema, a.sent);
    Effect([getSchema] + a.sent, a.queued, a.outcome)
  }

  /** The contracts ready to send, given the answer to the schema request: the
      schema indexed by `scheme_key[0]`, then every merged contract completed
      against it. */
  function PreparedContracts(listing: Result<Value, Exc>, c: Dict, schemeKey: (string, string), defaults: Defaults,
                             tagMap: Dict): Result<Dict, Exc> {
    if listing.Err? then Err(listing.error)
    else
      match ToDict(listing.value, schemeKey.0)
      case Err(err) => Err(err)
      case Ok(raw) =>
        match SchemaOf(raw)
        case Err(err) => Err(err)
        case Ok(schema) => Complete(c, schema, schemeKey.1, defaults, tagMap)
  }

  /** After the preparation: a failure ends the call, otherwise the prepared
      contracts are applied. */
  function ContractsFromPrepared(server: Server, n: nat, path: string, existing: Dict, prepared: Result<Dict, Exc>): (e: Effect)
    ensures prepared.Err? ==> e == Effect([], [], Fail(prepared.error))
    ensures forall i :: 0 <= i < |e.sent| ==> e.sent[i].verb != Delete
    ensures forall i :: 0 <= i < |e.queued| ==> e.queued[i].0.Item? && e.queued[i].0.path == path && e.queued[i].1 == Null
  {
    if prepared.Err? then Effect([], [], Fail(prepared.error))
    else ContractsApply(server, n, path, existing, prepared.value)
  }

  /** The deletions and upserts once the contracts are prepared
      (declarr/arr.py:408-417): the orphans are queued, then every prepared
      contract is sent, and the first failure ends the call. */
  function ContractsApply(server: Server, n: nat, path: string, existing: Dict, prepared: Dict): (e: Effect)
    ensures forall i :: 0 <= i < |e.sent| ==> e.sent[i].verb != Delete
    ensures forall i :: 0 <= i < |e.queued| ==> e.queued[i].0.Item? && e.queued[i].0.path == path && e.queued[i].1 == Null
  {
    var q := Enqueue(OrphanDeletes(path, existing, prepared));
    OrphansQueuedShape(path, Undeclared(existing, prepared));
    if q.outcome.Fail? then Effect([], q.items, q.outcome)
    else
      var steps := ContractSteps(path, existing, prepared);
      var run := Attempt(server, n, steps, false);
      AttemptSentFromSteps(server, n, steps, false);
      assert forall i :: 0 <= i < |run.sent| ==> run.sent[i] in run.sent;
      Effect(run.sent, q.items, run.outcome)
  }

  // ---------------------------------------------------------------- properties

  /** What one contract's `enable` or `name` ends up as before the caller's
      defaults: the declared value if there is one, otherwise the remote
      counterpart's, otherwise `True` (for `enable`) or the contract's key (for
      `name`). The schema never overrides either. */
  lemma EnableNamePrecedence(k: string, v: Value, ex: Value, s: Value, key: string)
    requires key == "enable" || key == "name"
    requires v.Obj? && NoDupKeys(v.fields) && !LookupOr(v.fields, key, Null).Obj?
    requires ex.Obj? && NoDupKeys(ex.fields) && !LookupOr(ex.fields, key, Null).Obj?
    requires s.Obj? ==> NoDupKeys(s.fields)
    ensures var v2 := EnableAndName(k, DeepMerge(v, ex));
      v2.Ok? && EnableAndName(k, DeepMerge(v2.value, s)).Ok?
      && Lookup(EnableAndName(k, DeepMerge(v2.value, s)).value.fields, key)
         == Some(if HasKey(v.fields, key) then Lookup(v.fields, key).value
                 else if HasKey(ex.fields, key) then Lookup(ex.fields, key).value
                 else if key == "enable" then Bool(true) else Str(k))
  {
    var expected := if HasKey(v.fields, key) then Lookup(v.fields, key).value
                    else if HasKey(ex.fields, key) then Lookup(ex.fields, key).value
                    else if key == "enable" then Bool(true) else Str(k);
    KeyAfterExisting(k, v, ex, key, expected);
    KeyAfterSchema(k, EnableAndName(k, DeepMerge(v, ex)).value, s, key, expected);
  }

  /** The first half of the precedence: the declared value, else the remote one,
      else the default. */
  lemma KeyAfterExisting(k: string, v: Value, ex: Value, key: string, expected: Value)
    requires key == "enable" || key == "name"
    requires v.Obj? && NoDupKeys(v.fields) && !LookupOr(v.fields, key, Null).Obj?
    requires ex.Obj? && NoDupKeys(ex.fields) && !LookupOr(ex.fields, key, Null).Obj?
    requires expected == if HasKey(v.fields, key) then Lookup(v.fields, key).value
                         else if HasKey(ex.fields, key) then Lookup(ex.fields, key).value
                         else if key == "enable" then Bool(true) else Str(k)
    ensures EnableAndName(k, DeepMerge(v, ex)).Ok?
    ensures Lookup(EnableAndName(k, DeepMerge(v, ex)).value.fields, key) == Some(expected)
    ensures !expected.Obj?
  {
    DeepMergeLeaf(v, ex, key);
    DeepMergeNoDup(v.fields, ex.fields);
    assert !expected.Obj? by {
      if HasKey(v.fields, key) { } else if HasKey(ex.fields, key) { }
    }
  }

  /** The second half: a plain value already in place survives the schema. */
  lemma KeyAfterSchema(k: string, v2: Value, s: Value, key: string, expected: Value)
    requires v2.Obj? && NoDupKeys(v2.fields) && Lookup(v2.fields, key) == Some(expected) && !expected.Obj?
    requires s.Obj? ==> NoDupKeys(s.fields)
    ensures EnableAndName(k, DeepMerge(v2, s)).Ok?
    ensures Lookup(EnableAndName(k, DeepMerge(v2, s)).value.fields, key) == Some(expected)
  {
    DeepMergeLeaf(v2, s, key);
    var v3 := DeepMerge(v2, s);
    if s.Obj? {
      DeepMergeNoDup(v2.fields, s.fields);
    }
    assert NoDupKeys(v3.fields) && HasKey(v3.fields, key);
  }

  /** Preparation keeps the declared names: a contract is an orphan exactly when
      its name is not declared. */
  lemma PreparedOrphans(existing: Dict, decl: Dict, c: Dict, schema: Dict, discriminator: string,
                        defaults: Defaults, tagMap: Dict)
    requires MergeExisting(existing, decl) == Ok(c)
    requires Complete(c, schema, discriminator, defaults, tagMap).Ok?
    ensures Undeclared(existing, Complete(c, schema, discriminator, defaults, tagMap).value) == Undeclared(existing, decl)
  {
    var prepared := Complete(c, schema, discriminator, defaults, tagMap).value;
    MergeExistingKeys(existing, decl);
    CompleteKeys(c, schema, discriminator, defaults, tagMap);
    SameKeysHasKey(prepared, decl);
    UndeclaredSameKeys(existing, prepared, decl);
  }

  lemma MapValuesRKeys(d: Dict, f: (string, Value) -> Result<Value, Exc>)
    requires MapValuesR(d, f).Ok?
    ensures Keys(MapValuesR(d, f).value) == Keys(d)
  {
    MapValuesRSpec(d, f);
    var r := MapValuesR(d, f).value;
    assert forall i :: 0 <= i < |d| ==> r[i].0 == d[i].0;
  }

  lemma MergeExistingKeys(existing: Dict, decl: Dict)
    requires MergeExisting(existing, decl).Ok?
    ensures Keys(MergeExisting(existing, decl).value) == Keys(decl)
  {
    var merged := MapValues(decl, (k, v) => DeepMerge(v, LookupOr(existing, k, Obj([]))));
    MapValuesRKeys(merged, EnableAndName);
    assert Keys(merged) == Keys(decl);
  }

  lemma CompleteKeys(c: Dict, schema: Dict, discriminator: string, defaults: Defaults, tagMap: Dict)
    requires Complete(c, schema, discriminator, defaults, tagMap).Ok?
    ensures Keys(Complete(c, schema, discriminator, defaults, tagMap).value) == Keys(c)
  {
    var f3 := (k, v) => match PickSchema(schema, v, discriminator) case Err(e) => Err(e) case Ok(s) => Ok(DeepMerge(v, s));
    var c3 := MapValuesR(c, f3).value;
    MapValuesRKeys(c, f3);
    var c4 := MapValuesR(c3, EnableAndName).value;
    MapValuesRKeys(c3, EnableAndName);
    var c5 := MapValuesR(c4, defaults).value;
    MapValuesRKeys(c4, defaults);
    MapValuesRKeys(c5, (k, v) => ToWire(tagMap, v));
  }

  lemma SameKeysHasKey(a: Dict, b: Dict)
    requires Keys(a) == Keys(b)
    ensures forall k :: HasKey(a, k) <==> HasKey(b, k)
  {
    forall k ensures HasKey(a, k) <==> HasKey(b, k) {
      if HasKey(a, k) {
        var i :| 0 <= i < |a| && a[i].0 == k;
        assert Keys(b)[i] == k;
      }
      if HasKey(b, k) {
        var i :| 0 <= i < |b| && b[i].0 == k;
        assert Keys(a)[i] == k;
      }
    }
  }

  lemma {:induction false} UndeclaredSameKeys(existing: Dict, a: Dict, b: Dict)
    requires forall k :: HasKey(a, k) <==> HasKey(b, k)
    ensures Undeclared(existing, a) == Undeclared(existing, b)
    decreases |existing|
  {
    if existing != [] {
      UndeclaredSameKeys(existing[1..], a, b);
    }
  }

  /** A declared collection is listed first; a listing or merge that fails ends
      the call there, and otherwise the schema is requested second, before any
      orphan is queued or any contract sent. */
  lemma ContractsListThenSchema(server: Server, n: nat, path: string, decl: Value, defaults: Defaults,
                                schemeKey: (string, string), tagMap: Dict)
    requires !decl.Null?
    ensures var e := ContractsEffect(server, n, path, decl, defaults, schemeKey, tagMap);
      var get := Req(Get, At(path), Null);
      var m := MergedContracts(Answer(server, n, get), decl);
      && (m.Err? ==> e == Effect([get], [], Fail(m.error)))
      && (m.Ok? ==> |e.sent| >= 2 && e.sent[1] == Req(Get, At(path + "/schema"), Null))
  {
  }

  /** Once the contracts are prepared, the orphans are queued first; then, without
      tolerance, the contracts up to the first failure are sent, and the call
      raises exactly when one failed. */
  lemma ContractsApplySpec(server: Server, n: nat, path: string, existing: Dict, prepared: Dict)
    ensures var e := ContractsApply(server, n, path, existing, prepared);
      var q := Enqueue(OrphanDeletes(path, existing, prepared));
      var steps := ContractSteps(path, existing, prepared);
      var k := FirstFailure(server, n, steps);
      && e.queued == q.items
      && (q.outcome.Fail? ==> e.sent == [] && e.outcome == q.outcome)
      && (q.outcome.Pass? ==>
            && e.sent == Requests(steps[..k]) + (if k < |steps| && steps[k].Ok? then [steps[k].value] else [])
            && (e.outcome.Pass? <==> k == |steps|))
  {
    var steps := ContractSteps(path, existing, prepared);
    AttemptStrictSent(server, n, steps);
    AttemptStrictPasses(server, n, steps);
  }
}
