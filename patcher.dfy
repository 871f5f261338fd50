/** The settings patcher `recursive_sync` (declarr/arr.py:424-453): the `config`
    tree is walked depth-first; a list is a collection whose entries are each
    created, a dictionary that holds a plain value (or the `__req` marker) is one
    settings resource that is fetched and written back with the declared values
    merged over it, and any other dictionary is a namespace whose children are
    patched under `resource/key`. */
module Patcher {
  import opened Wrappers
  import opened Json
  import opened Http
  import opened Utils

  /** `any(not isinstance(obj[key], (dict, list)) for key in obj)` */
  predicate HasPlainValue(fs: Dict) {
    exists i :: 0 <= i < |fs| && !fs[i].1.Obj? && !fs[i].1.Arr?
  }

  /** A dictionary the walk treats as one settings resource. */
  predicate IsSettingsResource(fs: Dict) {
    HasPlainValue(fs) || HasKey(fs, "__req")
  }

  /** The POSTs that create each entry of a declared list. */
  function CreateEach(resource: string, bodies: seq<Value>): (steps: seq<Step>)
    ensures |steps| == |bodies|
    ensures forall i :: 0 <= i < |bodies| ==> steps[i] == Ok(Req(Post, At(resource), bodies[i]))
  {
    seq(|bodies|, i requires 0 <= i < |bodies| => Ok(Req(Post, At(resource), bodies[i])))
  }

  /** The body written back to a settings resource: the declared values, without
      the marker, merged over what the server returned (declared values win). */
  function MergedSettings(fs: Dict, current: Value): Value {
    DeepMerge(Obj(DelKeys(fs, {"__req"})), current)
  }

  /** `recursive_sync(obj, resource)` from request number `n`. Every request
      addresses `resource` or a path below it, and nothing is ever deleted. */
  function Patch(server: Server, n: nat, obj: Value, resource: string): (r: Run)
    ensures forall q :: q in r.sent ==> q.target.At? && resource <= q.target.path && q.verb != Delete
    decreases obj, 1
  {
    match obj
    case Arr(bodies) =>
      var steps := CreateEach(resource, bodies);
      AttemptSentFromSteps(server, n, steps, false);
      Attempt(server, n, steps, false)
    case Obj(fs) =>
      if IsSettingsResource(fs) then PatchSettings(server, n, fs, resource)
      else
        var r := PatchChildren(server, n, fs, 0, resource);
        forall q | q in r.sent ensures resource <= q.target.path {
          PrefixOfLonger(resource, resource + "/", q.target.path);
        }
        r
    case Str(s) => if s == "" then Run([], Pass) else Run([], Fail(WrongType))
    case _ => Run([], Fail(WrongType))
  }

  /** One settings resource: GET it, then PUT the merge. */
  function PatchSettings(server: Server, n: nat, fs: Dict, resource: string): (r: Run)
    ensures |r.sent| >= 1 && r.sent[0] == Req(Get, At(resource), Null)
    ensures forall q :: q in r.sent ==> q.target == At(resource) && (q.verb == Get || q.verb == Put)
  {
    var get := Req(Get, At(resource), Null);
    match Answer(server, n, get)
    case Err(e) => Run([get], Fail(e))
    case Ok(current) =>
      var put := Req(Put, At(resource), MergedSettings(fs, current));
      match Answer(server, n + 1, put)
      case Err(e) => Run([get, put], Fail(e))
      case Ok(_) => Run([get, put], Pass)
  }

  /** The children `i..` of a namespace, each under `resource/key`, in order,
      until one of them raises. */
  function PatchChildren(server: Server, n: nat, fs: Dict, i: nat, resource: string): (r: Run)
    requires i <= |fs|
    ensures forall q :: q in r.sent ==> q.target.At? && resource + "/" <= q.target.path && q.verb != Delete
    decreases Obj(fs), 0, |fs| - i
  {
    if i == |fs| then Run([], Pass)
    else
      var child := resource + "/" + fs[i].0;
      var head := Patch(server, n, fs[i].1, child);
      forall q | q in head.sent ensures resource + "/" <= q.target.path {
        PrefixOfLonger(resource + "/", child, q.target.path);
      }
      if head.outcome.Fail? then head
      else
        var rest := PatchChildren(server, n + |head.sent|, fs, i + 1, resource);
        Run(head.sent + rest.sent, rest.outcome)
  }

  /** One child, then the rest unless it raised. */
  lemma PatchChildrenStep(server: Server, n: nat, fs: Dict, i: nat, resource: string)
    requires i < |fs|
    ensures var head := Patch(server, n, fs[i].1, resource + "/" + fs[i].0);
      var r := PatchChildren(server, n, fs, i, resource);
      && (head.outcome.Fail? ==> r == head)
      && (head.outcome.Pass? ==>
            var rest := PatchChildren(server, n + |head.sent|, fs, i + 1, resource);
            r == Run(head.sent + rest.sent, rest.outcome))
  {
  }

  /** A prefix of a prefix is a prefix. */
  lemma PrefixOfLonger(a: string, b: string, c: string)
    requires a <= b && b <= c
    ensures a <= c
  {
    assert c[..|a|] == c[..|b|][..|a|];
  }

  // ---------------------------------------------------------------- properties

  /** A namespace never addresses itself: every request goes strictly below it. */
  lemma NamespaceOnlyBelow(server: Server, n: nat, fs: Dict, resource: string)
    requires !IsSettingsResource(fs)
    ensures forall q :: q in Patch(server, n, Obj(fs), resource).sent ==>
              q.target.At? && resource + "/" <= q.target.path && q.target.path != resource
  {
  }

  /** An empty dictionary declares nothing and sends nothing. */
  lemma EmptyNamespace(server: Server, n: nat, resource: string)
    ensures Patch(server, n, Obj([]), resource) == Run([], Pass)
  {
    assert !HasPlainValue([]);
  }

  /** A settings resource is read, then written once with every declared plain
      value in place and the `__req` marker gone; values the declaration does not
      mention keep what the server returned. */
  lemma SettingsWritten(server: Server, n: nat, fs: Dict, resource: string, k: string)
    requires IsSettingsResource(fs) && NoDupKeys(fs)
    requires Answer(server, n, Req(Get, At(resource), Null)).Ok?
    ensures var current := server(n, Req(Get, At(resource), Null)).body;
      var r := Patch(server, n, Obj(fs), resource);
      && |r.sent| == 2 && r.sent[0] == Req(Get, At(resource), Null)
      && r.sent[1].verb == Put && r.sent[1].target == At(resource)
      && (current.Obj? ==>
            && r.sent[1].body.Obj?
            && (!HasKey(current.fields, "__req") ==> !HasKey(r.sent[1].body.fields, "__req"))
            && (k != "__req" && Lookup(fs, k).Some? && !Lookup(fs, k).value.Obj? ==> Lookup(r.sent[1].body.fields, k) == Lookup(fs, k))
            && (!HasKey(fs, k) ==> Lookup(r.sent[1].body.fields, k) == Lookup(current.fields, k)))
  {
    var get := Req(Get, At(resource), Null);
    var current := server(n, get).body;
    var put := Req(Put, At(resource), MergedSettings(fs, current));
    var r := Patch(server, n, Obj(fs), resource);
    assert r == PatchSettings(server, n, fs, resource);
    assert r.sent == [get, put];
    if current.Obj? {
      var d := DelKeys(fs, {"__req"});
      DeepMergeLookup(d, current.fields);
      var merged := Lookup(put.body.fields, k);
      assert merged == MergeLookup(Lookup(d, k), Lookup(current.fields, k));
      assert Lookup(d, k) == if k in {"__req"} then None else Lookup(fs, k);
      assert Lookup(d, "__req") == None;
      assert Lookup(put.body.fields, "__req") == MergeLookup(None, Lookup(current.fields, "__req"));
    }
  }

  /** A declared list creates each entry in order with a POST to the collection,
      stopping at the first refusal. */
  lemma ListCreatesEach(server: Server, n: nat, bodies: seq<Value>, resource: string)
    ensures var r := Patch(server, n, Arr(bodies), resource);
      && (forall q :: q in r.sent ==> q.verb == Post && q.target == At(resource))
      && (r.outcome.Pass? <==> FirstFailure(server, n, CreateEach(resource, bodies)) == |bodies|)
  {
    var steps := CreateEach(resource, bodies);
    AttemptSentFromSteps(server, n, steps, false);
    AttemptStrictPasses(server, n, steps);
  }
}
