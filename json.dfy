/** JSON documents as the engine sees them: the configuration it is given, the
    records the server returns and the bodies it sends. Objects keep their keys in
    insertion order, as Python dictionaries do, because the order of a collection's
    entries is the order in which the engine issues its requests. */
module Json {
  import opened Wrappers

  datatype Value =
    | Null
    | Bool(b: bool)
    | Num(n: int)
    | Str(s: string)
    | Arr(items: seq<Value>)
    | Obj(fields: seq<(string, Value)>)

  /** A dictionary: key/value pairs in insertion order. */
  type Dict = seq<(string, Value)>

  function Keys(d: Dict): (ks: seq<string>)
    ensures |ks| == |d| && forall i :: 0 <= i < |d| ==> ks[i] == d[i].0
  {
    seq(|d|, i requires 0 <= i < |d| => d[i].0)
  }

  predicate HasKey(d: Dict, k: string) {
    exists i :: 0 <= i < |d| && d[i].0 == k
  }

  /** Python dictionaries never hold a key twice. */
  predicate NoDupKeys(d: Dict) {
    forall i, j :: 0 <= i < j < |d| ==> d[i].0 != d[j].0
  }

  /** `d.get(k)`: the value stored under `k`, if any. */
  function Lookup(d: Dict, k: string): (r: Option<Value>)
    ensures r.Some? <==> HasKey(d, k)
    ensures r.Some? ==> (k, r.value) in d
  {
    if d == [] then None
    else if d[0].0 == k then Some(d[0].1)
    else
      assert forall i :: 1 <= i < |d| ==> d[i] == d[1..][i - 1];
      Lookup(d[1..], k)
  }

  /** `d.get(k, dflt)` */
  function LookupOr(d: Dict, k: string, dflt: Value): Value {
    match Lookup(d, k)
    case Some(v) => v
    case None => dflt
  }

  lemma HasKeyCons(d: Dict, k: string)
    requires d != []
    ensures HasKey(d, k) <==> d[0].0 == k || HasKey(d[1..], k)
  {
    if HasKey(d, k) && d[0].0 != k {
      var i :| 0 <= i < |d| && d[i].0 == k;
      assert d[1..][i - 1].0 == k;
    }
    if HasKey(d[1..], k) {
      var i :| 0 <= i < |d[1..]| && d[1..][i].0 == k;
      assert d[i + 1].0 == k;
    }
  }

  /** In a dictionary without repeated keys, the pair at position `i` is what a lookup of its key finds. */
  lemma {:induction false} LookupAt(d: Dict, i: nat)
    requires NoDupKeys(d) && i < |d|
    ensures Lookup(d, d[i].0) == Some(d[i].1)
  {
    if i > 0 {
      assert d[0].0 != d[i].0;
      assert d[1..][i - 1] == d[i];
      LookupAt(d[1..], i - 1);
    }
  }

  /** `d[k] = v`: an existing key keeps its position, a new key goes to the end. */
  function Set(d: Dict, k: string, v: Value): (r: Dict)
    ensures Lookup(r, k) == Some(v)
    ensures forall k' :: k' != k ==> Lookup(r, k') == Lookup(d, k')
    ensures HasKey(d, k) ==> |r| == |d| && forall i :: 0 <= i < |d| ==> r[i].0 == d[i].0
    ensures !HasKey(d, k) ==> r == d + [(k, v)]
    ensures forall p :: p in r ==> p == (k, v) || p in d
  {
    if d == [] then [(k, v)]
    else if d[0].0 == k then [(k, v)] + d[1..]
    else
      HasKeyCons(d, k);
      [d[0]] + Set(d[1..], k, v)
  }

  lemma {:induction false} SetNoDup(d: Dict, k: string, v: Value)
    requires NoDupKeys(d)
    ensures NoDupKeys(Set(d, k, v))
  {
    var r := Set(d, k, v);
    if HasKey(d, k) {
      forall i, j | 0 <= i < j < |r| ensures r[i].0 != r[j].0 {
        assert r[i].0 == d[i].0 && r[j].0 == d[j].0;
      }
    } else {
      forall i, j | 0 <= i < j < |r| ensures r[i].0 != r[j].0 {
        if j == |d| {
          assert r[i] == d[i];
        } else {
          assert r[i] == d[i] && r[j] == d[j];
        }
      }
    }
  }

  /** `{**a, **b}`: `a`'s keys in their order, then `b`'s new keys; `b`'s values win. */
  function Overlay(a: Dict, b: Dict): (r: Dict)
    ensures forall k :: !HasKey(b, k) ==> Lookup(r, k) == Lookup(a, k)
    ensures NoDupKeys(b) ==> forall k :: HasKey(b, k) ==> Lookup(r, k) == Lookup(b, k)
    ensures |a| <= |r| && forall i :: 0 <= i < |a| ==> r[i].0 == a[i].0
    decreases |b|
  {
    if b == [] then a
    else
      var r := Overlay(Set(a, b[0].0, b[0].1), b[1..]);
      OverlayStep(a, b, r);
      r
  }

  lemma OverlayStep(a: Dict, b: Dict, r: Dict)
    requires b != []
    requires forall k :: !HasKey(b[1..], k) ==> Lookup(r, k) == Lookup(Set(a, b[0].0, b[0].1), k)
    requires NoDupKeys(b[1..]) ==> forall k :: HasKey(b[1..], k) ==> Lookup(r, k) == Lookup(b[1..], k)
    ensures forall k :: !HasKey(b, k) ==> Lookup(r, k) == Lookup(a, k)
    ensures NoDupKeys(b) ==> forall k :: HasKey(b, k) ==> Lookup(r, k) == Lookup(b, k)
  {
    forall k ensures HasKey(b, k) <==> b[0].0 == k || HasKey(b[1..], k) {
      HasKeyCons(b, k);
    }
    if NoDupKeys(b) {
      assert forall j :: 1 <= j < |b| ==> b[1..][j - 1] == b[j];
      assert NoDupKeys(b[1..]);
    }
  }

  lemma {:induction false} OverlayNoDup(a: Dict, b: Dict)
    requires NoDupKeys(a)
    ensures NoDupKeys(Overlay(a, b))
    decreases |b|
  {
    if b != [] {
      SetNoDup(a, b[0].0, b[0].1);
      OverlayNoDup(Set(a, b[0].0, b[0].1), b[1..]);
    }
  }

  /** A pair is `{k: v}`: handy for literals such as `{"name": k, **v}`. */
  function Singleton(k: string, v: Value): (d: Dict)
    ensures Lookup(d, k) == Some(v) && NoDupKeys(d)
  {
    [(k, v)]
  }
}
