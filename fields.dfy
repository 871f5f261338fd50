/** The per-entry conversions of the contract reconciler (declarr/arr.py:343-406):
    a contract's `fields` travel on the wire as a list of `{"name": .., "value": ..}`
    records and are edited as a map from field name to value; tag labels are
    resolved to the ids the server assigned them. */
module Fields {
  import opened Wrappers
  import opened Json
  import opened Http
  import opened Utils

  /** `{v["name"]: v.get("value", None) for v in fields}`: the wire list as a map. */
  function FieldsToMap(fields: Value): (r: Result<Dict, Exc>)
    ensures r.Ok? ==> NoDupKeys(r.value)
    ensures fields.Arr? ==> (r.Ok? <==> forall i :: 0 <= i < |fields.items| ==> FieldEntry(fields.items[i]).Ok?)
  {
    match Iterate(fields)
    case Err(e) => Err(e)
    case Ok(items) => DictOf(items, FieldPairs)
  }

  /** One map entry on the wire: `{"name": k}` when the value is None, otherwise
      `{"name": k, "value": v}`. */
  function FieldRecord(k: string, v: Value): (x: Value)
    ensures FieldEntry(x) == Ok((k, v))
    ensures x.Obj? && Lookup(x.fields, "name") == Some(Str(k))
    ensures HasKey(x.fields, "value") <==> !v.Null?
  {
    if v.Null? then
      assert Lookup([("name", Str(k))], "value") == None;
      Obj([("name", Str(k))])
    else
      var d := [("name", Str(k)), ("value", v)];
      assert d[1..] == [("value", v)];
      assert Lookup(d, "value") == Some(v);
      Obj(d)
  }

  /** The name a wire record carries, None when it carries none. */
  function FieldName(x: Value): Value {
    if x.Obj? then LookupOr(x.fields, "name", Null) else Null
  }

  /** `[{"name": k} if v is None else {"name": k, "value": v} for k, v in m.items()]` */
  function FieldsToList(m: Dict): (xs: seq<Value>)
    ensures |xs| == |m| && forall i :: 0 <= i < |m| ==> FieldEntry(xs[i]) == Ok(m[i])
  {
    seq(|m|, i requires 0 <= i < |m| => FieldRecord(m[i].0, m[i].1))
  }

  /** Map to wire list and back is the identity on any field map. */
  lemma MapListMap(m: Dict)
    requires NoDupKeys(m)
    ensures FieldsToMap(Arr(FieldsToList(m))) == Ok(m)
  {
    var xs := FieldsToList(m);
    assert forall i, j :: 0 <= i < j < |xs| ==> FieldEntry(xs[i]).value.0 != FieldEntry(xs[j]).value.0;
    DictOfDistinct(xs, FieldPairs);
    var d := DictOf(xs, FieldPairs).value;
    assert |d| == |m| && forall i :: 0 <= i < |m| ==> d[i] == m[i];
    assert d == m;
    assert Iterate(Arr(xs)) == Ok(xs);
  }

  /** A wire record in the shape the engine itself sends: a name, and a value
      only when it is not None. */
  predicate Canonical(x: Value) {
    x.Obj? &&
    ((|x.fields| == 1 && x.fields[0].0 == "name" && x.fields[0].1.Str?) ||
     (|x.fields| == 2 && x.fields[0].0 == "name" && x.fields[0].1.Str?
      && x.fields[1].0 == "value" && !x.fields[1].1.Null?))
  }

  lemma CanonicalRecord(x: Value)
    requires Canonical(x)
    ensures FieldEntry(x).Ok? && FieldRecord(FieldEntry(x).value.0, FieldEntry(x).value.1) == x
  {
    assert Lookup(x.fields, "name") == Some(x.fields[0].1);
    if |x.fields| == 2 {
      assert Lookup(x.fields, "value") == Some(x.fields[1].1);
    } else {
      assert !HasKey(x.fields, "value");
    }
  }

  /** A wire list of canonical records with distinct names goes to a map and back
      unchanged; a record whose `value` is None, or that carries other keys, does not. */
  lemma ListMapList(xs: seq<Value>)
    requires forall i :: 0 <= i < |xs| ==> Canonical(xs[i])
    requires forall i, j :: 0 <= i < j < |xs| ==> FieldName(xs[i]) != FieldName(xs[j])
    ensures FieldsToMap(Arr(xs)).Ok? && FieldsToList(FieldsToMap(Arr(xs)).value) == xs
  {
    forall i | 0 <= i < |xs| ensures FieldEntry(xs[i]).Ok? && Lookup(xs[i].fields, "name") == Some(xs[i].fields[0].1) {
      CanonicalRecord(xs[i]);
    }
    DictOfDistinct(xs, FieldPairs);
    var m := DictOf(xs, FieldPairs).value;
    forall i | 0 <= i < |xs| ensures FieldsToList(m)[i] == xs[i] {
      CanonicalRecord(xs[i]);
    }
  }

  /** `self.tag_map[t.lower()] if isinstance(t, str) else t`: a label is resolved
      case-insensitively, anything else passes through. */
  function ResolveTag(tagMap: Dict, t: Value): (r: Result<Value, Exc>)
    ensures !t.Str? ==> r == Ok(t)
    ensures t.Str? ==> (r.Ok? <==> HasKey(tagMap, Lower(t.s)))
    ensures t.Str? && r.Ok? ==> Lookup(tagMap, Lower(t.s)) == Some(r.value)
    ensures t.Str? && r.Err? ==> r.error == KeyMissing(Str(Lower(t.s)))
  {
    match t
    case Str(s) =>
      (match Lookup(tagMap, Lower(s))
       case Some(id) => Ok(id)
       case None => Err(KeyMissing(Str(Lower(s)))))
    case _ => Ok(t)
  }

  /** `[ResolveTag(t) for t in tags]` */
  function ResolveTags(tagMap: Dict, tags: seq<Value>): Result<seq<Value>, Exc> {
    Each(tags, t => ResolveTag(tagMap, t))
  }

  /** Resolution keeps the list's length and order: labels become the ids the map
      gives their lower-cased form, non-labels are kept; it fails exactly when
      some label has no id, naming the first such label. */
  lemma ResolveTagsSpec(tagMap: Dict, tags: seq<Value>)
    ensures var r := ResolveTags(tagMap, tags);
      && (r.Ok? <==> forall i :: 0 <= i < |tags| && tags[i].Str? ==> HasKey(tagMap, Lower(tags[i].s)))
      && (r.Ok? ==>
            && |r.value| == |tags|
            && (forall i :: 0 <= i < |tags| && !tags[i].Str? ==> r.value[i] == tags[i])
            && (forall i :: 0 <= i < |tags| && tags[i].Str? ==> Lookup(tagMap, Lower(tags[i].s)) == Some(r.value[i])))
      && (r.Err? ==> exists i :: 0 <= i < |tags| && tags[i].Str? && !HasKey(tagMap, Lower(tags[i].s))
                               && r.error == KeyMissing(Str(Lower(tags[i].s)))
                               && forall j :: 0 <= j < i && tags[j].Str? ==> HasKey(tagMap, Lower(tags[j].s)))
  {
    var f := t => ResolveTag(tagMap, t);
    var r := ResolveTags(tagMap, tags);
    if r.Ok? {
      forall i | 0 <= i < |tags| ensures r.value[i] == f(tags[i]).value {}
    } else {
      var i :| 0 <= i < |tags| && f(tags[i]) == Err(r.error) && forall j :: 0 <= j < i ==> f(tags[j]).Ok?;
      assert tags[i].Str?;
      assert forall j :: 0 <= j < i && tags[j].Str? ==> HasKey(tagMap, Lower(tags[j].s)) by {
        forall j | 0 <= j < i && tags[j].Str? ensures HasKey(tagMap, Lower(tags[j].s)) {
          assert f(tags[j]).Ok?;
        }
      }
    }
  }

  /** Labels that differ only in case resolve to the same id, e.g. "HD" and "hd". */
  lemma ResolveTagIgnoresCase(tagMap: Dict, a: string, b: string)
    requires Lower(a) == Lower(b)
    ensures ResolveTag(tagMap, Str(a)) == ResolveTag(tagMap, Str(b))
  {
  }

  /** A worked example of `ResolveTagIgnoresCase`: "HD" and "hd" resolve alike. */
  lemma ResolveHdTwice(tagMap: Dict)
    ensures ResolveTag(tagMap, Str("HD")) == ResolveTag(tagMap, Str("hd"))
  {
    assert Lower("HD") == "hd";
    ResolveTagIgnoresCase(tagMap, "HD", "hd");
  }
}
