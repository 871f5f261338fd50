/** The collection reconciler `sync_resources` (declarr/arr.py:286-324) and the
    two pieces it shares with the contract reconciler: queueing the deletion of
    every remote record that is no longer declared, and choosing between updating
    an existing record and creating a new one. */
module Resources {
  import opened Wrappers
  import opened Json
  import opened Http
  import opened Utils

  /** A caller's per-entry defaults: `defaults(k, v)` gives the entry to send. */
  type Defaults = (string, Value) -> Result<Value, Exc>

  // ---------------------------------------------------------------- orphans

  /** The remote records whose key is not declared, in the server's order. */
  function Undeclared(existing: Dict, declared: Dict): (u: Dict)
    ensures forall p :: p in u <==> p in existing && !HasKey(declared, p.0)
    ensures (forall i :: 0 <= i < |existing| ==> HasKey(declared, existing[i].0)) ==> u == []
    decreases |existing|
  {
    if existing == [] then []
    else
      var rest := Undeclared(existing[1..], declared);
      assert forall p :: p in existing <==> p == existing[0] || p in existing[1..];
      assert forall i :: 1 <= i < |existing| ==> existing[1..][i - 1] == existing[i];
      if HasKey(declared, existing[0].0) then rest else [existing[0]] + rest
  }

  /** Each remote record appears once in the dictionary, so each orphan does too. */
  lemma {:induction false} UndeclaredNoDup(existing: Dict, declared: Dict)
    requires NoDupKeys(existing)
    ensures NoDupKeys(Undeclared(existing, declared))
    decreases |existing|
  {
    if existing != [] {
      var tail := existing[1..];
      UndeclaredNoDup(tail, declared);
      forall q | q in tail ensures q.0 != existing[0].0 {
        var m :| 0 <= m < |tail| && tail[m] == q;
        assert existing[m + 1] == q;
      }
      if !HasKey(declared, existing[0].0) {
        NoDupCons(existing[0], Undeclared(tail, declared));
      }
    }
  }

  /** A dictionary stays without repeats when an entry with a new key goes in front. */
  lemma NoDupCons(p: (string, Value), d: Dict)
    requires NoDupKeys(d) && forall q :: q in d ==> q.0 != p.0
    ensures NoDupKeys([p] + d)
  {
    var u := [p] + d;
    forall i, j | 0 <= i < j < |u| ensures u[i].0 != u[j].0 {
      assert u[j] == d[j - 1];
      if i == 0 {
        assert d[j - 1] in d;
      } else {
        assert u[i] == d[i - 1];
      }
    }
  }

  /** `deferr_delete(f"{path}/{dat['id']}")` for one undeclared record. */
  function OrphanDelete(path: string, rec: Value): (r: Result<(Target, Value), Exc>)
    ensures r.Ok? <==> rec.Obj? && HasKey(rec.fields, "id")
    ensures r.Ok? ==> r.value == (Item(path, Lookup(rec.fields, "id").value), Null)
  {
    match Field(rec, "id")
    case Ok(id) => Ok((Item(path, id), Null))
    case Err(e) => Err(e)
  }

  /** One queue entry per orphan, in the server's order. */
  function Orphans(path: string, u: Dict): seq<Result<(Target, Value), Exc>> {
    seq(|u|, i requires 0 <= i < |u| => OrphanDelete(path, u[i].1))
  }

  /** One queue entry per undeclared record, in the server's order. */
  function OrphanDeletes(path: string, existing: Dict, declared: Dict): seq<Result<(Target, Value), Exc>> {
    Orphans(path, Undeclared(existing, declared))
  }

  /** Queueing orphans queues, in the server's order, one deletion of
      `path/{id}` per orphan; it stops at the first record without an id. */
  lemma OrphansOfQueued(path: string, u: Dict)
    ensures var q := Enqueue(Orphans(path, u));
      && |q.items| <= |u|
      && (forall i :: 0 <= i < |q.items| ==>
            u[i].1.Obj? && HasKey(u[i].1.fields, "id") && q.items[i] == (Item(path, Lookup(u[i].1.fields, "id").value), Null))
      && (q.outcome.Pass? <==> forall i :: 0 <= i < |u| ==> u[i].1.Obj? && HasKey(u[i].1.fields, "id"))
      && (q.outcome.Pass? ==> |q.items| == |u|)
      && (q.outcome.Fail? ==> q.outcome == Fail(Field(u[|q.items|].1, "id").error))
  {
    var entries := Orphans(path, u);
    var q := Enqueue(entries);
    forall i | 0 <= i < |q.items|
      ensures u[i].1.Obj? && HasKey(u[i].1.fields, "id") && q.items[i] == (Item(path, Lookup(u[i].1.fields, "id").value), Null)
    {
      assert entries[i] == OrphanDelete(path, u[i].1) == Ok(q.items[i]);
    }
    if q.outcome.Fail? {
      assert entries[|q.items|] == OrphanDelete(path, u[|q.items|].1);
    }
  }

  /** Queueing the orphans queues, in the server's order, one deletion of
      `path/{id}` per remote record whose key is not declared, and nothing for a
      declared key; it stops at the first record without an id. */
  lemma OrphansQueued(path: string, existing: Dict, declared: Dict)
    ensures var q := Enqueue(OrphanDeletes(path, existing, declared));
      var u := Undeclared(existing, declared);
      && |q.items| <= |u|
      && (forall i :: 0 <= i < |q.items| ==>
            u[i].1.Obj? && HasKey(u[i].1.fields, "id") && q.items[i] == (Item(path, Lookup(u[i].1.fields, "id").value), Null))
      && (q.outcome.Pass? <==> forall i :: 0 <= i < |u| ==> u[i].1.Obj? && HasKey(u[i].1.fields, "id"))
      && (q.outcome.Pass? ==> |q.items| == |u|)
  {
    OrphansOfQueued(path, Undeclared(existing, declared));
  }

  /** Every queued deletion targets one record of `path` and carries no body. */
  lemma OrphansQueuedShape(path: string, u: Dict)
    ensures var q := Enqueue(Orphans(path, u));
      forall i :: 0 <= i < |q.items| ==> q.items[i].0.Item? && q.items[i].0.path == path && q.items[i].1 == Null
  {
    OrphansOfQueued(path, u);
  }

  // ---------------------------------------------------------------- membership

  /** Python's `t in s` on two strings: `t` occurs in `s` as a contiguous run. */
  predicate Within(t: string, s: string)
    decreases |s|
  {
    t <= s || (s != [] && Within(t, s[1..]))
  }

  /** `s[i:i + len(t)] == t`. */
  predicate OccursAt(t: string, s: string, i: int) {
    0 <= i <= |s| - |t| && s[i..i + |t|] == t
  }

  /** `t in s` holds exactly when `t` is the slice of `s` at some position. */
  lemma {:induction false} WithinSlice(t: string, s: string)
    ensures Within(t, s) <==> exists i :: OccursAt(t, s, i)
    decreases |s|
  {
    if t <= s {
      assert OccursAt(t, s, 0);
    } else if s == [] {
      assert |t| > 0;
    } else {
      assert Within(t, s) == Within(t, s[1..]);
      WithinSlice(t, s[1..]);
      if Within(t, s[1..]) {
        var i :| OccursAt(t, s[1..], i);
        assert s[i + 1..i + 1 + |t|] == s[1..][i..i + |t|];
        assert OccursAt(t, s, i + 1);
      }
      if exists i :: OccursAt(t, s, i) {
        var i :| OccursAt(t, s, i);
        assert i != 0;
        assert s[1..][i - 1..i - 1 + |t|] == s[i..i + |t|];
        assert OccursAt(t, s[1..], i - 1);
      }
    }
  }

  /** `name in cfg` on a declared collection Python can search: a key of a
      mapping, an element of a list, a substring of a string. */
  predicate Declares(decl: Value, name: string) {
    match decl
    case Obj(fields) => HasKey(fields, name)
    case Arr(items) => Str(name) in items
    case Str(s) => Within(name, s)
    case _ => false
  }

  /** The remote records that `name not in cfg` finds undeclared, in the server's order. */
  function Unlisted(existing: Dict, decl: Value): (u: Dict)
    ensures forall p :: p in u <==> p in existing && !Declares(decl, p.0)
    ensures decl.Obj? ==> u == Undeclared(existing, decl.fields)
    decreases |existing|
  {
    if existing == [] then []
    else
      var rest := Unlisted(existing[1..], decl);
      assert forall p :: p in existing <==> p == existing[0] || p in existing[1..];
      if Declares(decl, existing[0].0) then rest else [existing[0]] + rest
  }

  /** `sync_resources` once the listing is indexed, for a declared collection that
      is not a mapping. A list or a string can still be searched, so its orphans
      are queued (declarr/arr.py:297-300) before `map_values` raises at
      declarr/arr.py:302; any other value raises at the first search, or at
      `map_values` when there is nothing to search. */
  function Misdeclared(path: string, existing: Dict, decl: Value): (e: Effect)
    requires !decl.Obj?
    ensures e.sent == []
    ensures forall i :: 0 <= i < |e.queued| ==> e.queued[i].0.Item? && e.queued[i].0.path == path && e.queued[i].1 == Null
    ensures !(decl.Arr? || decl.Str?) ==> e == Effect([], [], Fail(WrongType))
    ensures decl.Arr? || decl.Str? ==>
      var u := Unlisted(existing, decl);
      && |e.queued| <= |u|
      && (forall i :: 0 <= i < |e.queued| ==>
            u[i].1.Obj? && HasKey(u[i].1.fields, "id") && e.queued[i] == (Item(path, Lookup(u[i].1.fields, "id").value), Null))
      && ((forall i :: 0 <= i < |u| ==> u[i].1.Obj? && HasKey(u[i].1.fields, "id")) ==> |e.queued| == |u| && e.outcome == Fail(WrongType))
    ensures e.outcome.Fail?
  {
    if decl.Arr? || decl.Str? then
      var u := Unlisted(existing, decl);
      var q := Enqueue(Orphans(path, u));
      OrphansOfQueued(path, u);
      Effect([], q.items, if q.outcome.Fail? then q.outcome else Fail(WrongType))
    else Effect([], [], Fail(WrongType))
  }

  /** A worked example of `Misdeclared`: `downloadClient: ["qbit"]` against a
      server listing only `sab` (id 3) queues the deletion of `sab`, then raises. */
  lemma MisdeclaredListQueues()
    ensures var sab := Obj([("name", Str("sab")), ("id", Num(3))]);
      Misdeclared("/downloadclient", [("sab", sab)], Arr([Str("qbit")]))
        == Effect([], [(Item("/downloadclient", Num(3)), Null)], Fail(WrongType))
  {
    var sab := Obj([("name", Str("sab")), ("id", Num(3))]);
    assert !Declares(Arr([Str("qbit")]), "sab");
    assert Unlisted([("sab", sab)], Arr([Str("qbit")])) == [("sab", sab)];
  }

  // ---------------------------------------------------------------- declared entries

  /** `{"name": k, **v}`: the key becomes the name unless the entry names itself. */
  function WithName(k: string, v: Value): (r: Result<Value, Exc>)
    ensures r.Ok? <==> v.Obj?
    ensures r.Ok? ==> r.value.Obj?
    ensures r.Ok? && !HasKey(v.fields, "name") ==> Lookup(r.value.fields, "name") == Some(Str(k))
    ensures r.Ok? && NoDupKeys(v.fields) ==> forall k' :: HasKey(v.fields, k') ==> Lookup(r.value.fields, k') == Lookup(v.fields, k')
    ensures r.Ok? ==> forall k' :: k' != "name" && !HasKey(v.fields, k') ==> Lookup(r.value.fields, k') == None
  {
    if v.Obj? then
      var named := Singleton("name", Str(k));
      assert forall k' :: k' != "name" ==> Lookup(named, k') == None;
      Ok(Obj(Overlay(named, v.fields)))
    else Err(WrongType)
  }

  /** `map_values(cfg, defaults)` followed by the name injection. */
  function Declared(decl: Dict, defaults: Defaults): Result<Dict, Exc> {
    match MapValuesR(decl, defaults)
    case Err(e) => Err(e)
    case Ok(c) => MapValuesR(c, WithName)
  }

  /** Every declared entry is sent under its own key: the caller's defaults are
      applied first, every key they give is kept, and `name` is the entry's key
      unless the defaulted entry sets a name of its own; nothing else is added. */
  lemma DeclaredSpec(decl: Dict, defaults: Defaults, i: nat)
    requires Declared(decl, defaults).Ok? && i < |decl|
    ensures var desired := Declared(decl, defaults).value;
      var w := defaults(decl[i].0, decl[i].1);
      && |desired| == |decl| && desired[i].0 == decl[i].0
      && w.Ok? && w.value.Obj? && desired[i].1.Obj?
      && (NoDupKeys(w.value.fields) ==>
            forall k' :: HasKey(w.value.fields, k') ==> Lookup(desired[i].1.fields, k') == Lookup(w.value.fields, k'))
      && (forall k' :: k' != "name" && !HasKey(w.value.fields, k') ==> Lookup(desired[i].1.fields, k') == None)
      && (!HasKey(w.value.fields, "name") ==> Lookup(desired[i].1.fields, "name") == Some(Str(decl[i].0)))
  {
    MapValuesRSpec(decl, defaults);
    var c := MapValuesR(decl, defaults).value;
    MapValuesRSpec(c, WithName);
    var desired := MapValuesR(c, WithName).value;
    assert c[i] == (decl[i].0, defaults(decl[i].0, decl[i].1).value);
    assert desired[i] == (c[i].0, WithName(c[i].0, c[i].1).value);
  }

  // ---------------------------------------------------------------- upserts

  /** The request for one declared entry: a PUT of `{**existing, **desired}` to the
      existing record with that key, or a POST of the entry. */
  function ResourceStep(path: string, existing: Dict, name: string, dat: Value): (s: Step)
    ensures !HasKey(existing, name) ==> s == Ok(Req(Post, At(path), dat))
    ensures HasKey(existing, name) && s.Ok? ==>
      var rec := Lookup(existing, name).value;
      && rec.Obj? && dat.Obj? && HasKey(rec.fields, "id")
      && s.value.verb == Put && s.value.target == Item(path, Lookup(rec.fields, "id").value)
      && s.value.body.Obj?
      && (forall k :: !HasKey(dat.fields, k) ==> Lookup(s.value.body.fields, k) == Lookup(rec.fields, k))
      && (NoDupKeys(dat.fields) ==> forall k :: HasKey(dat.fields, k) ==> Lookup(s.value.body.fields, k) == Lookup(dat.fields, k))
    ensures HasKey(existing, name) && s.Err? ==> !Lookup(existing, name).value.Obj? || !HasKey(Lookup(existing, name).value.fields, "id") || !dat.Obj?
  {
    match Lookup(existing, name)
    case None => Ok(Req(Post, At(path), dat))
    case Some(rec) =>
      match Field(rec, "id")
      case Err(e) => Err(e)
      case Ok(id) =>
        if dat.Obj? then Ok(Req(Put, Item(path, id), Obj(Overlay(rec.fields, dat.fields)))) else Err(WrongType)
  }

  function ResourceSteps(path: string, existing: Dict, desired: Dict): (steps: seq<Step>)
    ensures |steps| == |desired|
    ensures forall i :: 0 <= i < |desired| ==> steps[i] == ResourceStep(path, existing, desired[i].0, desired[i].1)
  {
    seq(|desired|, i requires 0 <= i < |desired| => ResourceStep(path, existing, desired[i].0, desired[i].1))
  }

  /** An update or creation is never a deletion. */
  lemma UpsertsDeleteNothing(server: Server, n: nat, path: string, existing: Dict, desired: Dict, tolerate: bool)
    ensures forall r :: r in Attempt(server, n, ResourceSteps(path, existing, desired), tolerate).sent ==> r.verb != Delete
  {
    AttemptSentFromSteps(server, n, ResourceSteps(path, existing, desired), tolerate);
  }

  // ---------------------------------------------------------------- sync_resources

  /** `sync_resources(path, cfg, defaults, allow_error, key)` from request number `n`. */
  function ResourcesEffect(server: Server, n: nat, path: string, decl: Value, defaults: Defaults,
                           allowError: bool, key: string): (e: Effect)
    ensures decl.Null? ==> e == Effect([], [], Pass)
    ensures !decl.Null? ==> |e.sent| >= 1 && e.sent[0] == Req(Get, At(path), Null)
    ensures forall i :: 0 <= i < |e.sent| ==> e.sent[i].verb != Delete
    ensures forall i :: 0 <= i < |e.queued| ==> e.queued[i].0.Item? && e.queued[i].0.path == path && e.queued[i].1 == Null
  {
    if decl.Null? then Effect([], [], Pass)
    else
      var get := Req(Get, At(path), Null);
      var a := ResourcesFrom(server, n + 1, path, Indexed(Answer(server, n, get), key), decl, defaults, allowError);
      NoDeleteCons(get, a.sent);
      Effect([get] + a.sent, a.queued, a.outcome)
  }

  /** The deletions and upserts once the listing is indexed: the orphans are
      queued, then the declared entries are prepared and sent. */
  function ResourcesApply(server: Server, n: nat, path: string, existing: Dict, decl: Dict, defaults: Defaults,
                          allowError: bool): (e: Effect)
    ensures forall i :: 0 <= i < |e.sent| ==> e.sent[i].verb != Delete
    ensures forall i :: 0 <= i < |e.queued| ==> e.queued[i].0.Item? && e.queued[i].0.path == path && e.queued[i].1 == Null
  {
    var q := Enqueue(OrphanDeletes(path, existing, decl));
    OrphansQueuedShape(path, Undeclared(existing, decl));
    if q.outcome.Fail? then Effect([], q.items, q.outcome)
    else
      match Declared(decl, defaults)
      case Err(err) => Effect([], q.items, Fail(err))
      case Ok(desired) =>
        var run := Attempt(server, n, ResourceSteps(path, existing, desired), allowError);
        UpsertsDeleteNothing(server, n, path, existing, desired, allowError);
        Effect(run.sent, q.items, run.outcome)
  }

  /** The listing indexed by `key`, or the listing's own error. */
  function Indexed(listing: Result<Value, Exc>, key: string): (r: Result<Dict, Exc>)
    ensures listing.Err? ==> r == Err(listing.error)
    ensures listing.Ok? ==> r == ToDict(listing.value, key)
  {
    if listing.Err? then Err(listing.error) else ToDict(listing.value, key)
  }

  /** What follows the listing: its error; for a declared mapping, the orphans
      and upserts; for any other declared value, what `Misdeclared` says. */
  function ResourcesFrom(server: Server, n: nat, path: string, idx: Result<Dict, Exc>, decl: Value, defaults: Defaults,
                         allowError: bool): (e: Effect)
    ensures idx.Err? ==> e == Effect([], [], Fail(idx.error))
    ensures idx.Ok? && decl.Obj? ==> e == ResourcesApply(server, n, path, idx.value, decl.fields, defaults, allowError)
    ensures idx.Ok? && !decl.Obj? ==> e == Misdeclared(path, idx.value, decl)
    ensures forall i :: 0 <= i < |e.sent| ==> e.sent[i].verb != Delete
    ensures forall i :: 0 <= i < |e.queued| ==> e.queued[i].0.Item? && e.queued[i].0.path == path && e.queued[i].1 == Null
  {
    if idx.Err? then Effect([], [], Fail(idx.error))
    else if decl.Obj? then ResourcesApply(server, n, path, idx.value, decl.fields, defaults, allowError)
    else Misdeclared(path, idx.value, decl)
  }

  /** A declared collection is listed, then handled as `ResourcesFrom` says. */
  lemma ResourcesListed(server: Server, n: nat, path: string, decl: Value, defaults: Defaults,
                        allowError: bool, key: string)
    requires !decl.Null?
    ensures var get := Req(Get, At(path), Null);
      var a := ResourcesFrom(server, n + 1, path, Indexed(Answer(server, n, get), key), decl, defaults, allowError);
      ResourcesEffect(server, n, path, decl, defaults, allowError, key) == Effect([get] + a.sent, a.queued, a.outcome)
  {
  }

  /** Once the listing is indexed, what is queued is the orphans' deletions. */
  lemma ResourcesQueue(server: Server, n: nat, path: string, decl: Value, defaults: Defaults,
                       allowError: bool, key: string, existing: Dict)
    requires decl.Obj?
    requires Answer(server, n, Req(Get, At(path), Null)).Ok?
    requires ToDict(Answer(server, n, Req(Get, At(path), Null)).value, key) == Ok(existing)
    ensures ResourcesEffect(server, n, path, decl, defaults, allowError, key).queued
            == Enqueue(OrphanDeletes(path, existing, decl.fields)).items
  {
  }

  /** A declared collection that is not a mapping sends nothing after the
      listing, queues what `Misdeclared` says and raises. */
  lemma ResourcesMisdeclared(server: Server, n: nat, path: string, decl: Value, defaults: Defaults,
                             allowError: bool, key: string, existing: Dict)
    requires !decl.Obj? && !decl.Null?
    requires Answer(server, n, Req(Get, At(path), Null)).Ok?
    requires ToDict(Answer(server, n, Req(Get, At(path), Null)).value, key) == Ok(existing)
    ensures var e := ResourcesEffect(server, n, path, decl, defaults, allowError, key);
      && e.sent == [Req(Get, At(path), Null)]
      && e.queued == Misdeclared(path, existing, decl).queued
      && e.outcome.Fail?
  {
  }

  /** Once the orphans are queued and the entries prepared, the entries are
      attempted in declaration order from the request after the listing. */
  lemma ResourcesRun(server: Server, n: nat, path: string, decl: Value, defaults: Defaults,
                     allowError: bool, key: string, existing: Dict, desired: Dict)
    requires decl.Obj?
    requires Answer(server, n, Req(Get, At(path), Null)).Ok?
    requires ToDict(Answer(server, n, Req(Get, At(path), Null)).value, key) == Ok(existing)
    requires Enqueue(OrphanDeletes(path, existing, decl.fields)).outcome.Pass?
    requires Declared(decl.fields, defaults) == Ok(desired)
    ensures var run := Attempt(server, n + 1, ResourceSteps(path, existing, desired), allowError);
      ResourcesEffect(server, n, path, decl, defaults, allowError, key)
        == Effect([Req(Get, At(path), Null)] + run.sent, Enqueue(OrphanDeletes(path, existing, decl.fields)).items, run.outcome)
  {
  }

  /** With `allow_error`, every entry whose request could be built is sent, and
      the call does not raise. */
  lemma ResourcesTolerant(server: Server, n: nat, path: string, decl: Value, defaults: Defaults,
                          key: string, existing: Dict, desired: Dict)
    requires decl.Obj?
    requires Answer(server, n, Req(Get, At(path), Null)).Ok?
    requires ToDict(Answer(server, n, Req(Get, At(path), Null)).value, key) == Ok(existing)
    requires Enqueue(OrphanDeletes(path, existing, decl.fields)).outcome.Pass?
    requires Declared(decl.fields, defaults) == Ok(desired)
    ensures var e := ResourcesEffect(server, n, path, decl, defaults, true, key);
      e.sent == [Req(Get, At(path), Null)] + Requests(ResourceSteps(path, existing, desired)) && e.outcome == Pass
  {
    ResourcesRun(server, n, path, decl, defaults, true, key, existing, desired);
    AttemptTolerant(server, n + 1, ResourceSteps(path, existing, desired));
  }

  /** Without `allow_error`, the entries up to the first failure are sent, then the
      failing one if its request could be built, and the call raises exactly when
      some entry failed. */
  lemma ResourcesStrict(server: Server, n: nat, path: string, decl: Value, defaults: Defaults,
                        key: string, existing: Dict, desired: Dict)
    requires decl.Obj?
    requires Answer(server, n, Req(Get, At(path), Null)).Ok?
    requires ToDict(Answer(server, n, Req(Get, At(path), Null)).value, key) == Ok(existing)
    requires Enqueue(OrphanDeletes(path, existing, decl.fields)).outcome.Pass?
    requires Declared(decl.fields, defaults) == Ok(desired)
    ensures var e := ResourcesEffect(server, n, path, decl, defaults, false, key);
      var steps := ResourceSteps(path, existing, desired);
      var k := FirstFailure(server, n + 1, steps);
      && e.sent == [Req(Get, At(path), Null)] + (Requests(steps[..k]) + (if k < |steps| && steps[k].Ok? then [steps[k].value] else []))
      && (e.outcome.Pass? <==> k == |steps|)
  {
    var steps := ResourceSteps(path, existing, desired);
    ResourcesRun(server, n, path, decl, defaults, false, key, existing, desired);
    AttemptStrictSent(server, n + 1, steps);
    AttemptStrictPasses(server, n + 1, steps);
  }
}
