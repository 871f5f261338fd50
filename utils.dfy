/** The dictionary helpers the engine imports from `declarr/utils.py`, which is not
    part of this model. Each is given the behaviour its call sites rely on:

    - `deep_merge(a, b)`: a recursive merge in which the FIRST argument wins on every
      key where the two are not both dictionaries; the result starts from `b`'s keys.
    - `to_dict(xs, key)`: `{x[key]: x for x in xs}`.
    - `map_values(d, f)`: `{k: f(k, v) for k, v in d.items()}`.
    - `unique(xs)`: the elements of `xs` without repeats, first occurrences in order.
    - `del_keys(d, ks)`: a copy of `d` without the keys `ks`; absent keys are ignored. */
module Utils {
  import opened Wrappers
  import opened Json
  import opened Http

  /** `v[k]` on a value expected to be a dictionary. */
  function Field(v: Value, k: string): (r: Result<Value, Exc>)
    ensures r.Ok? <==> v.Obj? && HasKey(v.fields, k)
    ensures r.Ok? ==> Lookup(v.fields, k) == Some(r.value)
    ensures v.Obj? && !HasKey(v.fields, k) ==> r == Err(KeyMissing(Str(k)))
  {
    if !v.Obj? then Err(WrongType)
    else
      match Lookup(v.fields, k)
      case Some(x) => Ok(x)
      case None => Err(KeyMissing(Str(k)))
  }

  /** Python's iteration over a value: a list's items, a string's characters, a
      dictionary's keys. */
  function Iterate(v: Value): Result<seq<Value>, Exc> {
    match v
    case Arr(xs) => Ok(xs)
    case Str(s) => Ok(seq(|s|, i requires 0 <= i < |s| => Str([s[i]])))
    case Obj(fs) => Ok(seq(|fs|, i requires 0 <= i < |fs| => Str(fs[i].0)))
    case _ => Err(WrongType)
  }

  // ---------------------------------------------------------------- deep_merge

  /** What `deep_merge` keeps under one key, given the two sides' values there. */
  function MergeLookup(x: Option<Value>, y: Option<Value>): Option<Value> {
    match x
    case Some(a) => Some(match y case Some(b) => DeepMerge(a, b) case None => a)
    case None => y
  }

  function DeepMerge(a: Value, b: Value): Value
    decreases a, 1, 0
  {
    if a.Obj? && b.Obj? then Obj(MergeFrom(a.fields, 0, b.fields)) else a
  }

  /** Merges `af[i..]` into `acc`, key by key. */
  function MergeFrom(af: Dict, i: nat, acc: Dict): Dict
    requires i <= |af|
    decreases Obj(af), 0, |af| - i
  {
    if i == |af| then acc
    else
      var merged := match Lookup(acc, af[i].0) case Some(prev) => DeepMerge(af[i].1, prev) case None => af[i].1;
      MergeFrom(af, i + 1, Set(acc, af[i].0, merged))
  }

  lemma {:induction false} MergeFromLookup(af: Dict, i: nat, acc: Dict)
    requires NoDupKeys(af) && i <= |af|
    ensures forall k :: Lookup(MergeFrom(af, i, acc), k)
                        == if HasKey(af[i..], k) then MergeLookup(Lookup(af[i..], k), Lookup(acc, k)) else Lookup(acc, k)
    decreases |af| - i
  {
    if i < |af| {
      var k0 := af[i].0;
      var merged := match Lookup(acc, k0) case Some(prev) => DeepMerge(af[i].1, prev) case None => af[i].1;
      var acc' := Set(acc, k0, merged);
      MergeFromLookup(af, i + 1, acc');
      assert af[i..][0] == af[i] && af[i..][1..] == af[i + 1..];
      forall k ensures HasKey(af[i..], k) <==> k0 == k || HasKey(af[i + 1..], k) {
        HasKeyCons(af[i..], k);
      }
    }
  }

  lemma {:induction false} MergeFromNoDup(af: Dict, i: nat, acc: Dict)
    requires i <= |af| && NoDupKeys(acc)
    ensures NoDupKeys(MergeFrom(af, i, acc))
    decreases |af| - i
  {
    if i < |af| {
      var merged := match Lookup(acc, af[i].0) case Some(prev) => DeepMerge(af[i].1, prev) case None => af[i].1;
      SetNoDup(acc, af[i].0, merged);
      MergeFromNoDup(af, i + 1, Set(acc, af[i].0, merged));
    }
  }

  /** `deep_merge` of two dictionaries: a key of either side is kept; where only one
      side has it, that side's value is kept; where both do, the values are merged
      again, and the first argument's value wins unless both are dictionaries. */
  lemma DeepMergeLookup(a: Dict, b: Dict)
    requires NoDupKeys(a)
    ensures DeepMerge(Obj(a), Obj(b)).Obj?
    ensures forall k :: Lookup(DeepMerge(Obj(a), Obj(b)).fields, k) == MergeLookup(Lookup(a, k), Lookup(b, k))
  {
    MergeFromLookup(a, 0, b);
    assert a[0..] == a;
  }

  /** `deep_merge` of two dictionaries is a dictionary without repeated keys. */
  lemma DeepMergeNoDup(a: Dict, b: Dict)
    requires NoDupKeys(b)
    ensures DeepMerge(Obj(a), Obj(b)).Obj? && NoDupKeys(DeepMerge(Obj(a), Obj(b)).fields)
  {
    MergeFromNoDup(a, 0, b);
  }

  lemma {:induction false} MergeIntoPrefix(af: Dict, i: nat)
    requires NoDupKeys(af) && i <= |af|
    ensures MergeFrom(af, i, af[..i]) == af
    decreases |af| - i
  {
    if i < |af| {
      assert af[..i] + [af[i]] == af[..i + 1];
      MergeIntoPrefix(af, i + 1);
    } else {
      assert af[..i] == af;
    }
  }

  /** In `deep_merge(a, b)` a key of `a` that holds no dictionary keeps `a`'s value,
      and a key only `b` has keeps `b`'s. */
  lemma DeepMergeLeaf(a: Value, b: Value, key: string)
    requires a.Obj? && NoDupKeys(a.fields)
    requires !LookupOr(a.fields, key, Null).Obj?
    ensures DeepMerge(a, b).Obj?
    ensures HasKey(a.fields, key) ==> Lookup(DeepMerge(a, b).fields, key) == Lookup(a.fields, key)
    ensures !HasKey(a.fields, key) ==> Lookup(DeepMerge(a, b).fields, key) == (if b.Obj? then Lookup(b.fields, key) else None)
  {
    if b.Obj? {
      DeepMergeLookup(a.fields, b.fields);
    }
  }

  /** Merging a dictionary over `{}` gives it back unchanged (`existing.get(k, {})`
      for a declared entry with no remote counterpart). */
  lemma DeepMergeOverEmpty(a: Dict)
    requires NoDupKeys(a)
    ensures DeepMerge(Obj(a), Obj([])) == Obj(a)
  {
    MergeIntoPrefix(a, 0);
    assert a[..0] == [];
  }

  // ---------------------------------------------------------------- del_keys

  function DelKeys(d: Dict, ks: set<string>): (r: Dict)
    ensures forall k :: Lookup(r, k) == if k in ks then None else Lookup(d, k)
    ensures forall p :: p in r ==> p in d
    ensures NoDupKeys(d) ==> NoDupKeys(r)
    decreases |d|
  {
    if d == [] then []
    else
      var rest := DelKeys(d[1..], ks);
      assert forall j :: 1 <= j < |d| ==> d[1..][j - 1] == d[j];
      if d[0].0 in ks then rest
      else
        var r := [d[0]] + rest;
        assert r[1..] == rest;
        r
  }

  // ---------------------------------------------------------------- to_dict

  /** How one wire record enters a field map: `v["name"]: v.get("value", None)`. */
  function FieldEntry(x: Value): (r: Result<(string, Value), Exc>)
    ensures r.Ok? <==> x.Obj? && Lookup(x.fields, "name").Some? && Lookup(x.fields, "name").value.Str?
    ensures r.Ok? ==> Lookup(x.fields, "name") == Some(Str(r.value.0))
    ensures r.Ok? ==> r.value.1 == LookupOr(x.fields, "value", Null)
    ensures x.Obj? && !HasKey(x.fields, "name") ==> r == Err(KeyMissing(Str("name")))
  {
    if !x.Obj? then Err(WrongType)
    else
      match Lookup(x.fields, "name")
      case None => Err(KeyMissing(Str("name")))
      case Some(Str(k)) => Ok((k, LookupOr(x.fields, "value", Null)))
      case Some(_) => Err(WrongType)
  }

  /** How `to_dict(xs, key)` reads one record: its `key` field, which must be a
      string, and the record itself. */
  function RecordEntry(key: string, x: Value): Result<(string, Value), Exc> {
    if !x.Obj? then Err(WrongType)
    else
      match Lookup(x.fields, key)
      case None => Err(KeyMissing(Str(key)))
      case Some(Str(s)) => Ok((s, x))
      case Some(_) => Err(WrongType)
  }

  /** How `{v[key]: v["id"] for v in listing}` reads one record: its `key`
      field, which must be a string, then its id. */
  function IdEntry(key: string, v: Value): (r: Result<(string, Value), Exc>)
    ensures r.Ok? ==> v.Obj? && Lookup(v.fields, key) == Some(Str(r.value.0)) && Lookup(v.fields, "id") == Some(r.value.1)
    ensures r.Ok? <==> v.Obj? && Lookup(v.fields, key).Some? && Lookup(v.fields, key).value.Str? && HasKey(v.fields, "id")
  {
    if !v.Obj? then Err(WrongType)
    else
      match Lookup(v.fields, key)
      case None => Err(KeyMissing(Str(key)))
      case Some(Str(l)) =>
        (match Lookup(v.fields, "id")
         case None => Err(KeyMissing(Str("id")))
         case Some(id) => Ok((l, id)))
      case Some(_) => Err(WrongType)
  }

  /** The three dictionary comprehensions of the engine, by how they read a record. */
  datatype Keying =
    | Records(key: string)
    | Ids(key: string)
    | FieldPairs

  /** One record's entry, or the exception reading it raises. */
  function Entry(how: Keying, x: Value): Result<(string, Value), Exc> {
    match how
    case Records(key) => RecordEntry(key, x)
    case Ids(key) => IdEntry(key, x)
    case FieldPairs => FieldEntry(x)
  }

  /** The items' entries in order, or the exception of the first item that has none. */
  function EntriesOf(items: seq<Value>, how: Keying): (r: Result<Dict, Exc>)
    ensures r.Ok? <==> forall i :: 0 <= i < |items| ==> Entry(how, items[i]).Ok?
    ensures r.Ok? ==> |r.value| == |items| && forall i :: 0 <= i < |items| ==> r.value[i] == Entry(how, items[i]).value
    decreases |items|
  {
    if items == [] then Ok([])
    else
      assert forall i :: 1 <= i < |items| ==> items[1..][i - 1] == items[i];
      match Entry(how, items[0])
      case Err(e) => Err(e)
      case Ok(kv) =>
        match EntriesOf(items[1..], how)
        case Err(e) => Err(e)
        case Ok(es) => Ok([kv] + es)
  }

  /** `acc` updated with the entries `es` in order: a later entry with the same key
      replaces the value of an earlier one but keeps its position. */
  function SetAll(acc: Dict, es: Dict): (r: Dict)
    ensures NoDupKeys(acc) ==> NoDupKeys(r)
    decreases |es|
  {
    if es == [] then acc
    else
      if NoDupKeys(acc) then
        SetNoDup(acc, es[0].0, es[0].1);
        SetAll(Set(acc, es[0].0, es[0].1), es[1..])
      else
        SetAll(Set(acc, es[0].0, es[0].1), es[1..])
  }

  /** A dictionary built by a comprehension over `items`: `how` reads each item's
      key and value or raises; a later item with the same key replaces the value of
      an earlier one but keeps its position. */
  function DictOf(items: seq<Value>, how: Keying): (r: Result<Dict, Exc>)
    ensures r.Ok? <==> forall i :: 0 <= i < |items| ==> Entry(how, items[i]).Ok?
    ensures r.Ok? ==> NoDupKeys(r.value)
  {
    match EntriesOf(items, how)
    case Err(e) => Err(e)
    case Ok(es) => Ok(SetAll([], es))
  }

  /** Every entry of the result is one of `acc` or one of `es`. */
  lemma {:induction false} SetAllEntries(acc: Dict, es: Dict, p: (string, Value))
    requires p in SetAll(acc, es)
    ensures p in acc || p in es
    decreases |es|
  {
    if es != [] {
      SetAllEntries(Set(acc, es[0].0, es[0].1), es[1..], p);
      if p in es[1..] {
        var i :| 0 <= i < |es[1..]| && es[1..][i] == p;
        assert es[i + 1] == p;
      }
    }
  }

  /** Every entry of the dictionary comes from one of the items. */
  lemma DictOfEntries(items: seq<Value>, how: Keying, p: (string, Value))
    requires DictOf(items, how).Ok? && p in DictOf(items, how).value
    ensures exists i :: 0 <= i < |items| && Entry(how, items[i]) == Ok(p)
  {
    var es := EntriesOf(items, how).value;
    SetAllEntries([], es, p);
    var i :| 0 <= i < |es| && es[i] == p;
    assert Entry(how, items[i]) == Ok(p);
  }

  /** A key already in `acc` stays a key while the entries are added. */
  lemma {:induction false} SetAllKeeps(acc: Dict, es: Dict, k: string)
    requires Lookup(acc, k).Some?
    ensures Lookup(SetAll(acc, es), k).Some?
    decreases |es|
  {
    if es != [] {
      SetAllKeeps(Set(acc, es[0].0, es[0].1), es[1..], k);
    }
  }

  /** The key of the entry at `i` is a key of the result. */
  lemma {:induction false} SetAllHasKey(acc: Dict, es: Dict, i: nat)
    requires i < |es|
    ensures Lookup(SetAll(acc, es), es[i].0).Some?
    decreases |es|
  {
    var acc' := Set(acc, es[0].0, es[0].1);
    if i == 0 {
      SetAllKeeps(acc', es[1..], es[0].0);
    } else {
      assert es[1..][i - 1] == es[i];
      SetAllHasKey(acc', es[1..], i - 1);
    }
  }

  /** Every item's key is a key of the dictionary built from the items. */
  lemma DictOfHasKeys(items: seq<Value>, how: Keying, i: nat)
    requires i < |items| && DictOf(items, how).Ok?
    ensures Entry(how, items[i]).Ok? && Lookup(DictOf(items, how).value, Entry(how, items[i]).value.0).Some?
  {
    SetAllHasKey([], EntriesOf(items, how).value, i);
  }

  /** When no key repeats in `acc` followed by the entries, the result is `acc`
      followed by the entries. */
  lemma {:induction false} SetAllDistinct(acc: Dict, es: Dict)
    requires NoDupKeys(acc + es)
    ensures SetAll(acc, es) == acc + es
    decreases |es|
  {
    if es != [] {
      var kv := es[0];
      var rest := es[1..];
      forall i | 0 <= i < |acc|
        ensures acc[i].0 != kv.0
      {
        assert (acc + es)[i] == acc[i] && (acc + es)[|acc|] == kv;
      }
      SetFresh(acc, kv.0, kv.1);
      assert es == [kv] + rest;
      SeqAssoc(acc, [kv], rest);
      SetAllDistinct(acc + [kv], rest);
    } else {
      assert acc + es == acc;
    }
  }

  /** When the items' keys are all different, the dictionary holds exactly the
      items' entries, in the items' order. */
  lemma DictOfDistinct(items: seq<Value>, how: Keying)
    requires forall i :: 0 <= i < |items| ==> Entry(how, items[i]).Ok?
    requires forall i, j :: 0 <= i < j < |items| ==> Entry(how, items[i]).value.0 != Entry(how, items[j]).value.0
    ensures DictOf(items, how) == EntriesOf(items, how)
    ensures |DictOf(items, how).value| == |items|
    ensures forall i :: 0 <= i < |items| ==> DictOf(items, how).value[i] == Entry(how, items[i]).value
  {
    var es := EntriesOf(items, how).value;
    assert [] + es == es;
    SetAllDistinct([], es);
  }

  lemma SeqAssoc<T>(a: seq<T>, b: seq<T>, c: seq<T>)
    ensures (a + b) + c == a + (b + c)
  {
  }

  lemma SetFresh(d: Dict, k: string, v: Value)
    requires forall i :: 0 <= i < |d| ==> d[i].0 != k
    ensures Set(d, k, v) == d + [(k, v)]
  {
    assert !HasKey(d, k);
  }

  /** `to_dict(listing, key)`: the records of a listing indexed by their `key` field. */
  function ToDict(listing: Value, key: string): (r: Result<Dict, Exc>)
    ensures r.Ok? ==> listing.Arr? && NoDupKeys(r.value)
    ensures r.Ok? ==> forall p :: p in r.value ==> p.1.Obj? && Lookup(p.1.fields, key) == Some(Str(p.0))
    ensures r.Ok? ==> forall x :: x in listing.items ==> x.Obj? && HasKey(x.fields, key)
  {
    if !listing.Arr? then Err(WrongType)
    else
      var r := DictOf(listing.items, Records(key));
      if r.Ok? then
        ToDictEntries(listing.items, key);
        r
      else r
  }

  /** `{v[key]: v["id"] for v in listing}`: a listing's ids by name. */
  function IdMap(listing: Value, key: string): (r: Result<Dict, Exc>)
    ensures r.Ok? ==> NoDupKeys(r.value)
  {
    match Iterate(listing)
    case Err(e) => Err(e)
    case Ok(items) => DictOf(items, Ids(key))
  }

  /** The id map of a listing, given the server's answer to it. */
  function ListedIds(listing: Result<Value, Exc>, key: string): Result<Dict, Exc> {
    if listing.Err? then Err(listing.error) else IdMap(listing.value, key)
  }

  /** Every record of the listing is in the id map under its name, and every
      entry of the map is some record's name and id. */
  lemma IdMapSpec(listing: Value, key: string, i: nat)
    requires listing.Arr? && IdMap(listing, key).Ok? && i < |listing.items|
    ensures var v := listing.items[i];
      v.Obj? && Lookup(v.fields, key).Some? && Lookup(v.fields, key).value.Str?
      && HasKey(IdMap(listing, key).value, Lookup(v.fields, key).value.s)
    ensures forall p :: p in IdMap(listing, key).value ==>
      exists j :: 0 <= j < |listing.items| && IdEntry(key, listing.items[j]) == Ok(p)
  {
    var f := Ids(key);
    DictOfHasKeys(listing.items, f, i);
    forall p | p in IdMap(listing, key).value
      ensures exists j :: 0 <= j < |listing.items| && IdEntry(key, listing.items[j]) == Ok(p)
    {
      DictOfEntries(listing.items, f, p);
      var j :| 0 <= j < |listing.items| && Entry(f, listing.items[j]) == Ok(p);
    }
  }

  lemma ToDictEntries(items: seq<Value>, key: string)
    requires DictOf(items, Records(key)).Ok?
    ensures forall p :: p in DictOf(items, Records(key)).value ==> p.1.Obj? && Lookup(p.1.fields, key) == Some(Str(p.0))
    ensures forall x :: x in items ==> x.Obj? && HasKey(x.fields, key)
  {
    forall p | p in DictOf(items, Records(key)).value
      ensures p.1.Obj? && Lookup(p.1.fields, key) == Some(Str(p.0))
    {
      DictOfEntries(items, Records(key), p);
    }
    forall x | x in items ensures x.Obj? && HasKey(x.fields, key) {
      var i :| 0 <= i < |items| && items[i] == x;
      assert Entry(Records(key), items[i]).Ok?;
    }
  }

  /** `d[key]` for a key of any type: a string is looked up, a list or a
      dictionary is unhashable, and any other key is absent from a dictionary
      whose keys are strings. */
  function Index(d: Dict, key: Value): (r: Result<Value, Exc>)
    ensures key.Str? ==> (r.Ok? <==> HasKey(d, key.s))
    ensures r.Ok? ==> key.Str? && Lookup(d, key.s) == Some(r.value)
    ensures r.Err? && !key.Arr? && !key.Obj? ==> r.error == KeyMissing(key)
  {
    match key
    case Str(s) =>
      (match Lookup(d, s)
       case Some(v) => Ok(v)
       case None => Err(KeyMissing(key)))
    case Arr(_) => Err(WrongType)
    case Obj(_) => Err(WrongType)
    case _ => Err(KeyMissing(key))
  }

  // ---------------------------------------------------------------- map_values

  function MapValues(d: Dict, f: (string, Value) -> Value): (r: Dict)
    ensures |r| == |d| && forall i :: 0 <= i < |d| ==> r[i] == (d[i].0, f(d[i].0, d[i].1))
    ensures NoDupKeys(d) ==> NoDupKeys(r)
  {
    seq(|d|, i requires 0 <= i < |d| => (d[i].0, f(d[i].0, d[i].1)))
  }

  /** `map_values` with a function that may raise: the first failure in key order
      is what the comprehension raises. */
  function MapValuesR(d: Dict, f: (string, Value) -> Result<Value, Exc>): Result<Dict, Exc>
    decreases |d|
  {
    if d == [] then Ok([])
    else
      match f(d[0].0, d[0].1)
      case Err(e) => Err(e)
      case Ok(v) =>
        match MapValuesR(d[1..], f)
        case Err(e) => Err(e)
        case Ok(rest) => Ok([(d[0].0, v)] + rest)
  }

  /** What `MapValuesR` computes: it fails exactly when some value fails, with the
      error of the first failing key, and otherwise maps every value in place. */
  lemma {:induction false} MapValuesRSpec(d: Dict, f: (string, Value) -> Result<Value, Exc>)
    ensures var r := MapValuesR(d, f);
      && (r.Ok? <==> forall i :: 0 <= i < |d| ==> f(d[i].0, d[i].1).Ok?)
      && (r.Ok? ==> |r.value| == |d| && forall i :: 0 <= i < |d| ==> r.value[i] == (d[i].0, f(d[i].0, d[i].1).value))
      && (r.Ok? && NoDupKeys(d) ==> NoDupKeys(r.value))
      && (r.Err? ==> exists i :: 0 <= i < |d| && f(d[i].0, d[i].1) == Err(r.error) && forall j :: 0 <= j < i ==> f(d[j].0, d[j].1).Ok?)
    decreases |d|
  {
    if d != [] {
      assert forall i :: 1 <= i < |d| ==> d[1..][i - 1] == d[i];
      MapValuesRSpec(d[1..], f);
      var r := MapValuesR(d, f);
      if f(d[0].0, d[0].1).Ok? && MapValuesR(d[1..], f).Ok? {
        var rest := MapValuesR(d[1..], f).value;
        assert r.value == [(d[0].0, f(d[0].0, d[0].1).value)] + rest;
        assert forall i :: 0 <= i < |d| ==> r.value[i].0 == d[i].0;
      } else if f(d[0].0, d[0].1).Ok? {
        var e :| 0 <= e < |d[1..]| && f(d[1..][e].0, d[1..][e].1) == Err(r.error) && forall j :: 0 <= j < e ==> f(d[1..][j].0, d[1..][j].1).Ok?;
        assert f(d[e + 1].0, d[e + 1].1) == Err(r.error);
        assert forall j :: 0 <= j < e + 1 ==> f(d[j].0, d[j].1).Ok?;
      }
    }
  }

  /** A list comprehension `[f(x) for x in xs]` whose element expression may raise:
      the first failing element's error is what the comprehension raises. */
  function Each(xs: seq<Value>, f: Value -> Result<Value, Exc>): (r: Result<seq<Value>, Exc>)
    ensures r.Ok? <==> forall i :: 0 <= i < |xs| ==> f(xs[i]).Ok?
    ensures r.Ok? ==> |r.value| == |xs| && forall i :: 0 <= i < |xs| ==> r.value[i] == f(xs[i]).value
    ensures r.Err? ==> exists i :: 0 <= i < |xs| && f(xs[i]) == Err(r.error) && forall j :: 0 <= j < i ==> f(xs[j]).Ok?
    decreases |xs|
  {
    if xs == [] then Ok([])
    else
      assert forall i :: 1 <= i < |xs| ==> xs[1..][i - 1] == xs[i];
      match f(xs[0])
      case Err(e) => Err(e)
      case Ok(v) =>
        match Each(xs[1..], f)
        case Err(e) =>
          ghost var i :| 0 <= i < |xs[1..]| && f(xs[1..][i]) == Err(e) && forall j :: 0 <= j < i ==> f(xs[1..][j]).Ok?;
          assert f(xs[i + 1]) == Err(e);
          Err(e)
        case Ok(rest) => Ok([v] + rest)
  }

  // ---------------------------------------------------------------- unique

  function Unique(xs: seq<Value>): (r: seq<Value>)
    ensures forall x :: x in r <==> x in xs
    ensures forall i, j :: 0 <= i < j < |r| ==> r[i] != r[j]
    decreases |xs|
  {
    if xs == [] then []
    else
      var init := xs[..|xs| - 1];
      assert xs == init + [xs[|xs| - 1]];
      var r := Unique(init);
      if xs[|xs| - 1] in r then r else r + [xs[|xs| - 1]]
  }

  // ---------------------------------------------------------------- str.lower

  function LowerChar(c: char): char {
    if 'A' <= c <= 'Z' then (c as int + 32) as char else c
  }

  /** `s.lower()`, for ASCII letters: every upper-case letter becomes its
      lower-case form, every other character is kept, and no upper-case letter
      is left. */
  function Lower(s: string): (r: string)
    ensures |r| == |s|
    ensures forall i :: 0 <= i < |s| && 'A' <= s[i] <= 'Z' ==> r[i] == (s[i] as int + 32) as char
    ensures forall i :: 0 <= i < |s| && !('A' <= s[i] <= 'Z') ==> r[i] == s[i]
    ensures forall i :: 0 <= i < |r| ==> !('A' <= r[i] <= 'Z')
  {
    seq(|s|, i requires 0 <= i < |s| => LowerChar(s[i]))
  }

  /** Lower-casing twice is lower-casing once. */
  lemma LowerIdempotent(s: string)
    ensures Lower(Lower(s)) == Lower(s)
  {
  }
}
