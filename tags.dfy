/** The tag resolver `sync_tags` (declarr/arr.py:260-284): it gathers every tag
    label the configuration mentions, creates on the server, lower-cased, the ones
    the server does not list yet, and rebuilds the label-to-id map that the contract
    and root-folder reconcilers resolve labels through. */
module Tags {
  import opened Wrappers
  import opened Json
  import opened Http
  import opened Utils

  /** The collections whose entries carry a `tags` list. */
  const TaggedCollections: seq<string> := ["indexer", "indexerProxy", "downloadClient", "applications"]

  // ---------------------------------------------------------------- gathering labels

  /** The value `tags` starts as: `cfg.get("tag", [])`, whatever its type. */
  function InitialTags(cfg: Dict): (r: Value)
    ensures !HasKey(cfg, "tag") ==> r == Arr([])
    ensures HasKey(cfg, "tag") ==> Lookup(cfg, "tag") == Some(r)
  {
    LookupOr(cfg, "tag", Arr([]))
  }

  /** What `y.get("tags", [])` yields for one entry; only a dictionary has `get`. */
  function EntryAddend(y: Value): (r: Result<Value, Exc>)
    ensures r.Ok? <==> y.Obj?
    ensures y.Obj? && !HasKey(y.fields, "tags") ==> r == Ok(Arr([]))
    ensures y.Obj? && HasKey(y.fields, "tags") ==> Lookup(y.fields, "tags") == Some(r.value)
  {
    if y.Obj? then Ok(LookupOr(y.fields, "tags", Arr([]))) else Err(WrongType)
  }

  /** What one `tags += v` appends to a list: the items of any iterable, unless
      computing `v` already raised. */
  function Extension(a: Result<Value, Exc>): Result<seq<Value>, Exc> {
    match a
    case Err(e) => Err(e)
    case Ok(v) => Iterate(v)
  }

  /** The values added for one collection, one per entry; an absent or None
      collection is skipped, anything but a dictionary raises. */
  function CollectionAddends(cfg: Dict, k: string): (adds: seq<Result<Value, Exc>>)
    ensures Lookup(cfg, k).None? || Lookup(cfg, k) == Some(Null) ==> adds == []
    ensures Lookup(cfg, k).Some? && Lookup(cfg, k).value.Obj? ==>
      var entries := Lookup(cfg, k).value.fields;
      |adds| == |entries| && forall i :: 0 <= i < |entries| ==> adds[i] == EntryAddend(entries[i].1)
    ensures Lookup(cfg, k).Some? && !Lookup(cfg, k).value.Obj? && !Lookup(cfg, k).value.Null? ==> adds == [Err(WrongType)]
  {
    match Lookup(cfg, k)
    case None => []
    case Some(Null) => []
    case Some(Obj(entries)) => seq(|entries|, i requires 0 <= i < |entries| => EntryAddend(entries[i].1))
    case Some(_) => [Err(WrongType)]
  }

  /** `sum([x.get("defaultTags") for x in self.cfg["rootFolder"].values()], [])`
      for lidarr: the folders' lists concatenated; a missing or non-list
      `defaultTags` raises, and so does a `rootFolder` that is not a dictionary,
      None included. */
  function RootFolderTags(cfg: Dict): (r: Result<Value, Exc>)
    ensures r.Ok? ==> r.value.Arr? && Lookup(cfg, "rootFolder").Some? && Lookup(cfg, "rootFolder").value.Obj?
    ensures Lookup(cfg, "rootFolder") == Some(Null) ==> r == Err(WrongType)
    ensures Lookup(cfg, "rootFolder").None? ==> r == Err(KeyMissing(Str("rootFolder")))
  {
    match Lookup(cfg, "rootFolder")
    case None => Err(KeyMissing(Str("rootFolder")))
    case Some(Obj(folders)) =>
      (match DefaultTagsOf(folders)
       case Ok(ts) => Ok(Arr(ts))
       case Err(e) => Err(e))
    case Some(_) => Err(WrongType)
  }

  function DefaultTagsOf(folders: Dict): (r: Result<seq<Value>, Exc>)
    ensures r.Ok? <==> forall i :: 0 <= i < |folders| ==>
                         folders[i].1.Obj? && LookupOr(folders[i].1.fields, "defaultTags", Null).Arr?
    decreases |folders|
  {
    if folders == [] then Ok([])
    else
      assert forall i :: 1 <= i < |folders| ==> folders[1..][i - 1] == folders[i];
      var x := folders[0].1;
      if !x.Obj? then Err(WrongType)
      else
        match LookupOr(x.fields, "defaultTags", Null)
        case Arr(ts) =>
          (match DefaultTagsOf(folders[1..])
           case Ok(rest) => Ok(ts + rest)
           case Err(e) => Err(e))
        case _ => Err(WrongType)
  }

  /** Every value `sync_tags` adds to `tags`, in order (declarr/arr.py:263-275). */
  function Addends(cfg: Dict, lidarr: bool): seq<Result<Value, Exc>> {
    CollectionAddends(cfg, "indexer") + CollectionAddends(cfg, "indexerProxy")
    + CollectionAddends(cfg, "downloadClient") + CollectionAddends(cfg, "applications")
    + (if lidarr then [RootFolderTags(cfg)] else [])
  }

  /** Every chunk `sync_tags` appends when `tags` is a list, in order. */
  function TagChunks(cfg: Dict, lidarr: bool): (chunks: seq<Result<seq<Value>, Exc>>)
    ensures |chunks| == |Addends(cfg, lidarr)|
    ensures forall i :: 0 <= i < |chunks| ==> chunks[i] == Extension(Addends(cfg, lidarr)[i])
  {
    var adds := Addends(cfg, lidarr);
    seq(|adds|, i requires 0 <= i < |adds| => Extension(adds[i]))
  }

  /** The list after appending chunks in order until one raises. */
  datatype Gathered = Gathered(tags: seq<Value>, outcome: Outcome<Exc>)

  function Gather(acc: seq<Value>, chunks: seq<Result<seq<Value>, Exc>>): (g: Gathered)
    ensures |acc| <= |g.tags| && g.tags[..|acc|] == acc
    ensures g.outcome.Pass? <==> forall i :: 0 <= i < |chunks| ==> chunks[i].Ok?
    decreases |chunks|
  {
    if chunks == [] then Gathered(acc, Pass)
    else
      assert forall i :: 1 <= i < |chunks| ==> chunks[1..][i - 1] == chunks[i];
      match chunks[0]
      case Err(e) => Gathered(acc, Fail(e))
      case Ok(c) =>
        var g := Gather(acc + c, chunks[1..]);
        assert g.tags[..|acc|] == (acc + c)[..|acc|] == acc by {
          assert g.tags[..|acc|] == g.tags[..|acc + c|][..|acc|];
        }
        g
  }

  /** The loop of `sync_tags` that extends the list chunk by chunk, stopping at the
      first chunk that raises. */
  method GatherTags(init: seq<Value>, chunks: seq<Result<seq<Value>, Exc>>) returns (g: Gathered)
    ensures g == Gather(init, chunks)
  {
    var tags := init;
    var i := 0;
    while i < |chunks|
      invariant i <= |chunks|
      invariant Gather(init, chunks) == Gather(tags, chunks[i..])
    {
      assert chunks[i..][1..] == chunks[i + 1..];
      match chunks[i]
      case Err(e) =>
        return Gathered(tags, Fail(e));
      case Ok(c) =>
        tags := tags + c;
        i := i + 1;
    }
    assert chunks[i..] == [];
    g := Gathered(tags, Pass);
  }

  /** All chunks concatenated. */
  function Flatten(chunks: seq<seq<Value>>): seq<Value> {
    if chunks == [] then [] else chunks[0] + Flatten(chunks[1..])
  }

  /** When no chunk raises, the gathered list is the start list followed by every
      chunk's labels in order, so no label is lost. */
  lemma {:induction false} GatherAll(acc: seq<Value>, chunks: seq<Result<seq<Value>, Exc>>)
    requires forall i :: 0 <= i < |chunks| ==> chunks[i].Ok?
    ensures Gather(acc, chunks).tags == acc + Flatten(seq(|chunks|, i requires 0 <= i < |chunks| => chunks[i].value))
    decreases |chunks|
  {
    var vs := seq(|chunks|, i requires 0 <= i < |chunks| => chunks[i].value);
    if chunks != [] {
      var rest := seq(|chunks[1..]|, i requires 0 <= i < |chunks[1..]| => chunks[1..][i].value);
      assert vs[1..] == rest;
      GatherAll(acc + chunks[0].value, chunks[1..]);
    }
  }

  // ---------------------------------------------------------------- a `tag` that is not a list

  /** Python's number value of an int or a bool. */
  function NumberOf(v: Value): int
    requires v.Num? || v.Bool?
  {
    if v.Num? then v.n else if v.b then 1 else 0
  }

  /** `tags += v` when `tags` is not a list, so a new value is bound and the
      configuration keeps its own: two strings concatenate, two numbers (bools
      counting as 0 and 1) add, and nothing else supports the operator. */
  function Append(acc: Value, a: Value): (r: Result<Value, Exc>)
    requires !acc.Arr?
    ensures r.Ok? <==> (acc.Str? && a.Str?) || ((acc.Num? || acc.Bool?) && (a.Num? || a.Bool?))
    ensures r.Ok? && acc.Str? ==> r.value == Str(acc.s + a.s)
    ensures r.Ok? && !acc.Str? ==> r.value.Num?
  {
    if acc.Str? && a.Str? then Ok(Str(acc.s + a.s))
    else if (acc.Num? || acc.Bool?) && (a.Num? || a.Bool?) then Ok(Num(NumberOf(acc) + NumberOf(a)))
    else Err(WrongType)
  }

  /** The value `tags` holds after the additions, when it did not start as a list. */
  datatype Summed = Summed(acc: Value, outcome: Outcome<Exc>)

  /** The additions in order, stopping at the first value that raises or cannot be
      added. A dictionary or None never takes an addition, a string only takes
      strings, and a number only takes numbers. */
  function Accumulate(acc: Value, adds: seq<Result<Value, Exc>>): (s: Summed)
    requires !acc.Arr?
    ensures !s.acc.Arr?
    ensures adds == [] ==> s == Summed(acc, Pass)
    ensures (acc.Obj? || acc.Null?) && adds != [] ==>
      s == Summed(acc, Fail(if adds[0].Err? then adds[0].error else WrongType))
    ensures acc.Str? ==> s.acc.Str? && (s.outcome.Pass? <==> forall i :: 0 <= i < |adds| ==> adds[i].Ok? && adds[i].value.Str?)
    ensures (acc.Num? || acc.Bool?) ==> (s.acc.Num? || s.acc.Bool?)
    ensures s.outcome.Pass? ==> forall i :: 0 <= i < |adds| ==> adds[i].Ok?
    decreases |adds|
  {
    if adds == [] then Summed(acc, Pass)
    else
      assert forall i :: 1 <= i < |adds| ==> adds[1..][i - 1] == adds[i];
      match adds[0]
      case Err(e) => Summed(acc, Fail(e))
      case Ok(a) =>
        match Append(acc, a)
        case Err(e) => Summed(acc, Fail(e))
        case Ok(next) => Accumulate(next, adds[1..])
  }

  /** The strings of a list of string values, concatenated. */
  function Text(vs: seq<Value>): string
    requires forall i :: 0 <= i < |vs| ==> vs[i].Str?
  {
    if vs == [] then "" else vs[0].s + Text(vs[1..])
  }

  /** A string `tag` to which only strings are added ends as their concatenation. */
  lemma {:induction false} AccumulateText(acc: string, adds: seq<Result<Value, Exc>>)
    requires forall i :: 0 <= i < |adds| ==> adds[i].Ok? && adds[i].value.Str?
    ensures Accumulate(Str(acc), adds)
      == Summed(Str(acc + Text(seq(|adds|, i requires 0 <= i < |adds| => adds[i].value))), Pass)
    decreases |adds|
  {
    var vs := seq(|adds|, i requires 0 <= i < |adds| => adds[i].value);
    if adds == [] {
      assert acc + Text(vs) == acc;
    } else {
      var rest := seq(|adds[1..]|, i requires 0 <= i < |adds[1..]| => adds[1..][i].value);
      assert vs[1..] == rest;
      AccumulateText(acc + adds[0].value.s, adds[1..]);
      assert acc + Text(vs) == acc + adds[0].value.s + Text(rest);
    }
  }

  /** `tag: "HD"` with nothing else tagged adds nothing, so the string itself is
      what `unique` iterates (`TextTagIsLetters`). */
  lemma TextTagAlone()
    ensures Addends([("tag", Str("HD"))], false) == []
    ensures Accumulate(InitialTags([("tag", Str("HD"))]), []) == Summed(Str("HD"), Pass)
  {
    var cfg := [("tag", Str("HD"))];
    assert Lookup(cfg, "indexer").None? && Lookup(cfg, "indexerProxy").None?;
    assert Lookup(cfg, "downloadClient").None? && Lookup(cfg, "applications").None?;
  }

  /** Iterating the string `"HD"` gives its letters, so `h` and `d` are the labels
      lowered for creation. */
  lemma TextTagIsLetters()
    ensures Iterate(Str("HD")) == Ok([Str("H"), Str("D")])
    ensures Lowered([Str("H"), Str("D")]) == Ok([Str("h"), Str("d")])
  {
    var it := Iterate(Str("HD")).value;
    assert it[0].s == ["HD"[0]] == "H";
    assert it[1].s == ["HD"[1]] == "D";
    assert it == [Str("H"), Str("D")];
    LoweredLetters();
  }

  lemma LoweredLetters()
    ensures Lowered([Str("H"), Str("D")]) == Ok([Str("h"), Str("d")])
  {
    var tags := [Str("H"), Str("D")];
    assert tags[..1] == [Str("H")];
    assert [Str("H")][..0] == [];
    assert Unique([Str("H")]) == [Str("H")];
    assert Unique(tags) == tags;
    assert Lower("H") == "h" && Lower("D") == "d";
    assert LowerTag(tags[0]) == Ok(Str("h")) && LowerTag(tags[1]) == Ok(Str("d"));
    var low := Each(tags, LowerTag).value;
    assert low == [Str("h"), Str("d")];
  }

  // ---------------------------------------------------------------- creating labels

  /** `tag.lower()`: only a string has one. */
  function LowerTag(t: Value): (r: Result<Value, Exc>)
    ensures r.Ok? <==> t.Str?
    ensures r.Ok? ==> r.value == Str(Lower(t.s))
  {
    if t.Str? then Ok(Str(Lower(t.s))) else Err(WrongType)
  }

  /** `[tag.lower() for tag in unique(tags)]`: de-duplicated BEFORE lower-casing. */
  function Lowered(tags: seq<Value>): Result<seq<Value>, Exc> {
    Each(Unique(tags), LowerTag)
  }

  /** `[v["label"] for v in listing]` */
  function LabelsOf(listing: Value): Result<seq<Value>, Exc> {
    match Iterate(listing)
    case Err(e) => Err(e)
    case Ok(items) => Each(items, v => Field(v, "label"))
  }

  /** The labels that get a POST: each lowered label not among the labels fetched
      before the loop, in order, repeats included. */
  function ToCreate(lowered: seq<Value>, labels: seq<Value>): (r: seq<Value>)
    ensures forall t :: t in r <==> t in lowered && t !in labels
    ensures |r| <= |lowered|
    decreases |lowered|
  {
    if lowered == [] then []
    else
      assert forall t :: t in lowered <==> t == lowered[0] || t in lowered[1..];
      (if lowered[0] in labels then [] else [lowered[0]]) + ToCreate(lowered[1..], labels)
  }

  function TagCreation(tag: Value): Request {
    Req(Post, At("/tag"), Obj([("label", tag)]))
  }

  function TagPosts(create: seq<Value>): (steps: seq<Step>)
    ensures |steps| == |create| && forall i :: 0 <= i < |create| ==> steps[i] == Ok(TagCreation(create[i]))
  {
    seq(|create|, i requires 0 <= i < |create| => Ok(TagCreation(create[i])))
  }

  /** What `sync_tags` did: requests, outcome, the gathered list, and the new
      label-to-id map when it got that far. */
  datatype TagRun = TagRun(sent: seq<Request>, outcome: Outcome<Exc>, gathered: seq<Value>, tagMap: Option<Dict>)

  /** A request `sync_tags` may send: a listing of the tags, or the creation of
      one lower-case label. */
  predicate TagRequest(r: Request) {
    r.target == At("/tag") &&
    (r.verb == Get ||
     (r.verb == Post && r.body.Obj? && |r.body.fields| == 1 && r.body.fields[0].0 == "label"
      && r.body.fields[0].1.Str? && Lower(r.body.fields[0].1.s) == r.body.fields[0].1.s))
  }

  /** `sync_tags()` from request number `n`. A list `tag` (or none) is extended
      chunk by chunk; any other `tag` takes its additions as `Accumulate` says.
      Nothing is sent when an addition raises; otherwise only listings of `/tag`
      and creations of lower-case labels, the listing first; the map is rebuilt
      exactly when the run succeeds. */
  function TagsEffect(server: Server, n: nat, cfg: Dict, lidarr: bool): (t: TagRun)
    ensures t.tagMap.Some? <==> t.outcome.Pass?
    ensures forall r :: r in t.sent ==> TagRequest(r)
    ensures InitialTags(cfg).Arr? && Gather(InitialTags(cfg).items, TagChunks(cfg, lidarr)).outcome.Fail? ==>
              t.sent == [] && t.outcome == Gather(InitialTags(cfg).items, TagChunks(cfg, lidarr)).outcome
    ensures InitialTags(cfg).Arr? && Gather(InitialTags(cfg).items, TagChunks(cfg, lidarr)).outcome.Pass? ==>
              t.sent != [] && t.gathered == Gather(InitialTags(cfg).items, TagChunks(cfg, lidarr)).tags
    ensures !InitialTags(cfg).Arr? && Accumulate(InitialTags(cfg), Addends(cfg, lidarr)).outcome.Fail? ==>
              t.sent == [] && t.outcome == Accumulate(InitialTags(cfg), Addends(cfg, lidarr)).outcome
    ensures !InitialTags(cfg).Arr? && Accumulate(InitialTags(cfg), Addends(cfg, lidarr)).outcome.Pass? ==>
              t.sent != [] && (Iterate(Accumulate(InitialTags(cfg), Addends(cfg, lidarr)).acc).Err? ==> t.outcome.Fail?)
    ensures t.sent != [] ==> t.sent[0] == Req(Get, At("/tag"), Null)
  {
    var start := InitialTags(cfg);
    if start.Arr? then
      var g := Gather(start.items, TagChunks(cfg, lidarr));
      if g.outcome.Fail? then TagRun([], g.outcome, g.tags, None)
      else TagsRequests(server, n, Ok(g.tags))
    else
      var s := Accumulate(start, Addends(cfg, lidarr));
      if s.outcome.Fail? then TagRun([], s.outcome, [], None)
      else TagsRequests(server, n, Iterate(s.acc))
  }

  /** The requests once the labels are gathered: list the tags, create the
      missing ones, list the tags again. `items` is what iterating the gathered
      value gives, which raises only after the first listing. */
  function TagsRequests(server: Server, n: nat, items: Result<seq<Value>, Exc>): (t: TagRun)
    ensures t.tagMap.Some? <==> t.outcome.Pass?
    ensures forall r :: r in t.sent ==> TagRequest(r)
    ensures t.sent != [] && t.sent[0] == Req(Get, At("/tag"), Null)
    ensures items.Ok? ==> t.gathered == items.value
    ensures items.Err? ==> t.outcome.Fail? && |t.sent| == 1
  {
    var get := Req(Get, At("/tag"), Null);
    var tags := if items.Ok? then items.value else [];
    var a := TagsFromCreate(server, n + 1, TagsToCreate(Answer(server, n, get), items), tags);
    assert forall r :: r in [get] + a.sent ==> r == get || r in a.sent;
    TagRun([get] + a.sent, a.outcome, tags, a.tagMap)
  }

  /** The labels to create, given the answer to the first listing: the lowered
      labels the listing does not hold. */
  function TagsToCreate(listing: Result<Value, Exc>, items: Result<seq<Value>, Exc>): (r: Result<seq<Value>, Exc>)
    ensures r.Ok? ==> items.Ok? && forall v :: v in r.value ==> v.Str? && Lower(v.s) == v.s
  {
    if listing.Err? then Err(listing.error)
    else
      match LabelsOf(listing.value)
      case Err(e) => Err(e)
      case Ok(labels) =>
        match items
        case Err(e) => Err(e)
        case Ok(tags) =>
          match Lowered(tags)
          case Err(e) => Err(e)
          case Ok(lowered) =>
            CreatedLabels(lowered, labels, tags);
            Ok(ToCreate(lowered, labels))
  }

  /** After the first listing: a failure to read it ends the call, otherwise the
      missing labels are created. */
  function TagsFromCreate(server: Server, n: nat, create: Result<seq<Value>, Exc>, tags: seq<Value>): (t: TagRun)
    requires create.Ok? ==> forall v :: v in create.value ==> v.Str? && Lower(v.s) == v.s
    ensures create.Err? ==> t == TagRun([], Fail(create.error), tags, None)
    ensures t.tagMap.Some? <==> t.outcome.Pass?
    ensures forall r :: r in t.sent ==> TagRequest(r)
    ensures t.gathered == tags
  {
    if create.Err? then TagRun([], Fail(create.error), tags, None)
    else TagsCreate(server, n, create.value, tags)
  }

  /** The creation POSTs, stopping at the first refusal, then the second listing
      that the map is rebuilt from. */
  function TagsCreate(server: Server, n: nat, create: seq<Value>, tags: seq<Value>): (t: TagRun)
    requires forall v :: v in create ==> v.Str? && Lower(v.s) == v.s
    ensures t.tagMap.Some? <==> t.outcome.Pass?
    ensures forall r :: r in t.sent ==> TagRequest(r)
    ensures t.gathered == tags
  {
    var steps := TagPosts(create);
    var run := Attempt(server, n, steps, false);
    AttemptSentFromSteps(server, n, steps, false);
    assert forall r :: Ok(r) in steps ==> TagRequest(r) by {
      forall r | Ok(r) in steps ensures TagRequest(r) {
        var i :| 0 <= i < |steps| && steps[i] == Ok(r);
        assert create[i] in create;
      }
    }
    if run.outcome.Fail? then TagRun(run.sent, run.outcome, tags, None)
    else
      var relist := TagsRelist(server, n + |run.sent|, tags);
      assert forall r :: r in run.sent + relist.sent ==> r in relist.sent || r in run.sent;
      TagRun(run.sent + relist.sent, relist.outcome, tags, relist.tagMap)
  }

  /** The second listing, and the label-to-id map read from it. */
  function TagsRelist(server: Server, n: nat, tags: seq<Value>): (t: TagRun)
    ensures t.sent == [Req(Get, At("/tag"), Null)] && t.gathered == tags
    ensures var m := ListedIds(Answer(server, n, Req(Get, At("/tag"), Null)), "label");
      && (m.Err? ==> t.outcome == Fail(m.error) && t.tagMap == None)
      && (m.Ok? ==> t.outcome == Pass && t.tagMap == Some(m.value))
  {
    var get := Req(Get, At("/tag"), Null);
    match ListedIds(Answer(server, n, get), "label")
    case Err(e) => TagRun([get], Fail(e), tags, None)
    case Ok(m) => TagRun([get], Pass, tags, Some(m))
  }

  // ---------------------------------------------------------------- properties

  /** Every label created is lower-case and was not among the labels the server
      listed before the loop. */
  lemma CreatedLabels(lowered: seq<Value>, labels: seq<Value>, tags: seq<Value>)
    requires Lowered(tags) == Ok(lowered)
    ensures forall t :: t in ToCreate(lowered, labels) ==> t.Str? && Lower(t.s) == t.s && t !in labels
    ensures forall t :: t in tags && t.Str? && Str(Lower(t.s)) !in labels ==> Str(Lower(t.s)) in ToCreate(lowered, labels)
  {
    var u := Unique(tags);
    forall t | t in ToCreate(lowered, labels) ensures t.Str? && Lower(t.s) == t.s {
      var i :| 0 <= i < |lowered| && lowered[i] == t;
      assert LowerTag(u[i]) == Ok(t);
      LowerIdempotent(u[i].s);
    }
    forall t | t in tags && t.Str? && Str(Lower(t.s)) !in labels ensures Str(Lower(t.s)) in ToCreate(lowered, labels) {
      var i :| 0 <= i < |u| && u[i] == t;
      assert lowered[i] == Str(Lower(t.s));
    }
  }

  /** A worked example of `CreatedLabels`' first clause: a run over labels that the
      server already lists, in lower case, creates none, so running the engine a
      second time with unchanged input posts no tag. */
  lemma NothingToCreateTwice(lowered: seq<Value>, labels: seq<Value>)
    requires forall t :: t in lowered ==> t in labels
    ensures ToCreate(lowered, labels) == [] && TagPosts(ToCreate(lowered, labels)) == []
  {
  }

  /** A worked example of `ToCreate` not refreshing the fetched labels: "HD" and
      "hd" in one run survive `unique` as two labels, both lower-case to
      "hd", and since the fetched labels are not refreshed inside the loop, "hd" is
      posted twice when the server did not have it. */
  lemma HdPostedTwice()
    ensures Lowered([Str("HD"), Str("hd")]) == Ok([Str("hd"), Str("hd")])
    ensures TagPosts(ToCreate([Str("hd"), Str("hd")], [])) == [Ok(TagCreation(Str("hd"))), Ok(TagCreation(Str("hd")))]
  {
    var tags := [Str("HD"), Str("hd")];
    assert tags[..1] == [Str("HD")];
    assert [Str("HD")][..0] == [];
    assert Unique([Str("HD")]) == [Str("HD")];
    assert Str("hd") != Str("HD");
    assert Unique(tags) == tags;
    assert Lower("HD") == "hd" && Lower("hd") == "hd";
    var hd := [Str("hd"), Str("hd")];
    assert hd[1..] == [Str("hd")];
    assert ToCreate([Str("hd")], []) == [Str("hd")];
    assert ToCreate(hd, []) == hd;
    var posts := TagPosts(hd);
    assert posts[0] == Ok(TagCreation(Str("hd"))) && posts[1] == Ok(TagCreation(Str("hd")));
  }

  /** On lidarr the root folders' `defaultTags` are summed into the labels; a
      `rootFolder` that is None makes `sync_tags` raise before any request. */
  lemma LidarrNoneRootFolder(server: Server, n: nat, cfg: Dict)
    requires Lookup(cfg, "rootFolder") == Some(Null)
    ensures TagsEffect(server, n, cfg, true).outcome.Fail? && TagsEffect(server, n, cfg, true).sent == []
  {
    var adds := Addends(cfg, true);
    assert adds[|adds| - 1] == Err(WrongType);
    assert TagChunks(cfg, true)[|adds| - 1] == Err(WrongType);
  }
}
