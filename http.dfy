/** The boundary to the remote application: requests, responses, the errors the
    engine raises, and the two loops every reconciler is built from: issuing a
    sequence of requests (stopping at the first failure, or carrying on past
    failures) and queueing deletions for later.

    The server is an oracle: `server(n, req)` is the response to `req` when it is
    the request numbered `n` of the run. Any fixed behaviour of the remote
    application, including the identifiers it assigns, is such a function. */
module Http {
  import opened Wrappers
  import opened Json

  datatype Verb = Get | Post | Put | Delete

  /** `path`, or `path/{id}` for one existing resource. */
  datatype Target = At(path: string) | Item(path: string, id: Value)

  datatype Request = Request(verb: Verb, target: Target, body: Value)

  datatype Response = Response(status: int, body: Value)

  /** The exceptions that leave the engine: a response with status 300 or more, a
      missing key (`KeyError`), a value of the wrong shape (`TypeError`,
      `AttributeError`), the minimum of no values (`ValueError`), a failed health check. */
  datatype Exc =
    | RequestFailed(request: Request, status: int)
    | KeyMissing(key: Value)
    | WrongType
    | EmptyMin
    | PingFailed

  type Server = (nat, Request) -> Response

  /** A request as it goes on the wire: a missing body is sent as `{}`. */
  function Req(verb: Verb, target: Target, body: Value): (r: Request)
    ensures r.verb == verb && r.target == target
    ensures r.body == if body.Null? then Obj([]) else body
  {
    Request(verb, target, if body.Null? then Obj([]) else body)
  }

  /** What the engine gets back from request number `n`: the parsed body when the
      status is below 300, an error naming the request and status otherwise. */
  function Answer(server: Server, n: nat, req: Request): (r: Result<Value, Exc>)
    ensures r.Ok? <==> server(n, req).status < 300
    ensures r.Ok? ==> r.value == server(n, req).body
    ensures r.Err? ==> r.error == RequestFailed(req, server(n, req).status)
  {
    var resp := server(n, req);
    if resp.status < 300 then Ok(resp.body) else Err(RequestFailed(req, resp.status))
  }

  /** One entry of a reconciliation: the request to issue, or the error raised
      while building it (a missing id, a body of the wrong shape). */
  type Step = Result<Request, Exc>

  /** The requests a run sent, in order, and how it ended. */
  datatype Run = Run(sent: seq<Request>, outcome: Outcome<Exc>)

  /** Attempting `steps` in order from request number `n`. With `tolerate`, a
      failing entry is logged and the next one attempted (`allow_error=True`, and
      the deferred-deletion drain); without it the first failure ends the run. */
  function Attempt(server: Server, n: nat, steps: seq<Step>, tolerate: bool): (run: Run)
    ensures |run.sent| <= |steps|
    decreases |steps|
  {
    if steps == [] then Run([], Pass)
    else
      match steps[0]
      case Err(e) =>
        if tolerate then Attempt(server, n, steps[1..], tolerate) else Run([], Fail(e))
      case Ok(req) =>
        if Answer(server, n, req).Err? && !tolerate then Run([req], Fail(Answer(server, n, req).error))
        else
          var rest := Attempt(server, n + 1, steps[1..], tolerate);
          Run([req] + rest.sent, rest.outcome)
  }

  /** One more entry of an `Attempt` run: when the run from request number
      `n0` is the requests `sent` followed by the run of `steps[i..]` from `n`,
      the entry at `i` either ends the run or extends `sent` and moves on to
      `steps[i + 1..]`. */
  lemma {:induction false} AttemptNext(server: Server, n0: nat, steps: seq<Step>, tolerate: bool, i: nat, sent: seq<Request>, n: nat)
    requires i < |steps|
    requires Attempt(server, n0, steps, tolerate) ==
      Run(sent + Attempt(server, n, steps[i..], tolerate).sent, Attempt(server, n, steps[i..], tolerate).outcome)
    ensures steps[i].Err? && !tolerate ==> Attempt(server, n0, steps, tolerate) == Run(sent, Fail(steps[i].error))
    ensures steps[i].Err? && tolerate ==>
      Attempt(server, n0, steps, tolerate) == Run(sent + Attempt(server, n, steps[i + 1..], tolerate).sent, Attempt(server, n, steps[i + 1..], tolerate).outcome)
    ensures steps[i].Ok? && Answer(server, n, steps[i].value).Err? && !tolerate ==>
      Attempt(server, n0, steps, tolerate) == Run(sent + [steps[i].value], Fail(Answer(server, n, steps[i].value).error))
    ensures steps[i].Ok? && !(Answer(server, n, steps[i].value).Err? && !tolerate) ==>
      Attempt(server, n0, steps, tolerate) == Run(sent + [steps[i].value] + Attempt(server, n + 1, steps[i + 1..], tolerate).sent, Attempt(server, n + 1, steps[i + 1..], tolerate).outcome)
  {
    assert steps[i..][1..] == steps[i + 1..];
    assert sent + [] == sent;
    if steps[i].Ok? {
      var rest := Attempt(server, n + 1, steps[i + 1..], tolerate);
      assert sent + ([steps[i].value] + rest.sent) == sent + [steps[i].value] + rest.sent;
    }
  }

  /** The requests of the entries that could be built, in order. */
  function Requests(steps: seq<Step>): (reqs: seq<Request>)
    ensures |reqs| <= |steps|
    decreases |steps|
  {
    if steps == [] then []
    else
      var last := steps[|steps| - 1];
      var init := steps[..|steps| - 1];
      assert steps == init + [last];
      if last.Ok? then Requests(init) + [last.value] else Requests(init)
  }

  lemma RequestsAppend(a: seq<Step>, b: seq<Step>)
    ensures Requests(a + b) == Requests(a) + Requests(b)
    decreases |b|
  {
    if b != [] {
      var b' := b[..|b| - 1];
      assert a + b == (a + b') + [b[|b| - 1]];
      assert (a + b)[..|a + b| - 1] == a + b';
      RequestsAppend(a, b');
    } else {
      assert a + b == a;
    }
  }

  /** With failures tolerated every entry that could be built is sent, in order,
      and the run never raises. */
  lemma {:induction false} AttemptTolerant(server: Server, n: nat, steps: seq<Step>)
    ensures Attempt(server, n, steps, true) == Run(Requests(steps), Pass)
    decreases |steps|
  {
    if steps != [] {
      assert steps == [steps[0]] + steps[1..];
      RequestsAppend([steps[0]], steps[1..]);
      assert Requests([steps[0]]) == if steps[0].Ok? then [steps[0].value] else [] by {
        assert [steps[0]][..0] == [];
      }
      match steps[0]
      case Err(_) => AttemptTolerant(server, n, steps[1..]);
      case Ok(_) => AttemptTolerant(server, n + 1, steps[1..]);
    }
  }

  /** Whatever a run sends is one of its entries' requests. */
  lemma {:induction false} AttemptSentFromSteps(server: Server, n: nat, steps: seq<Step>, tolerate: bool)
    ensures forall r :: r in Attempt(server, n, steps, tolerate).sent ==> Ok(r) in steps
    decreases |steps|
  {
    if steps != [] {
      AttemptSentFromSteps(server, n, steps[1..], tolerate);
      AttemptSentFromSteps(server, n + 1, steps[1..], tolerate);
      assert forall s :: s in steps[1..] ==> s in steps;
    }
  }

  /** Index of the first entry that fails when entries are attempted one after the
      other from request number `n` (an entry fails when it cannot be built or its
      response has status 300 or more); `|steps|` when none fails. */
  function FirstFailure(server: Server, n: nat, steps: seq<Step>): (k: nat)
    ensures k <= |steps|
    decreases |steps|
  {
    if steps == [] then 0
    else
      match steps[0]
      case Err(_) => 0
      case Ok(req) => if Answer(server, n, req).Err? then 0 else 1 + FirstFailure(server, n + 1, steps[1..])
  }

  /** Without tolerance, every entry before the first failure could be built and
      was answered successfully. */
  lemma {:induction false} BeforeFirstFailure(server: Server, n: nat, steps: seq<Step>, i: nat)
    requires i < FirstFailure(server, n, steps)
    ensures steps[i].Ok? && Answer(server, n + i, steps[i].value).Ok?
    decreases |steps|
  {
    if i > 0 {
      assert steps[i] == steps[1..][i - 1];
      BeforeFirstFailure(server, n + 1, steps[1..], i - 1);
    }
  }

  /** Without tolerance, the entries before the first failure are sent, then the
      failing entry if it could be built, and no later entry is attempted. */
  lemma {:induction false} AttemptStrictSent(server: Server, n: nat, steps: seq<Step>)
    ensures
      var k := FirstFailure(server, n, steps);
      Attempt(server, n, steps, false).sent
        == Requests(steps[..k]) + (if k < |steps| && steps[k].Ok? then [steps[k].value] else [])
    decreases |steps|
  {
    if steps != [] {
      assert steps[..0] == [];
      if steps[0].Ok? && Answer(server, n, steps[0].value).Ok? {
        var tail := steps[1..];
        AttemptStrictSent(server, n + 1, tail);
        var k' := FirstFailure(server, n + 1, tail);
        assert steps[..k' + 1] == [steps[0]] + tail[..k'];
        RequestsAppend([steps[0]], tail[..k']);
        assert Requests([steps[0]]) == [steps[0].value] by {
          assert [steps[0]][..0] == [];
        }
        if k' < |tail| {
          assert steps[k' + 1] == tail[k'];
        }
      }
    }
  }

  /** Without tolerance, the run passes exactly when no entry failed. */
  lemma AttemptStrictPasses(server: Server, n: nat, steps: seq<Step>)
    ensures Attempt(server, n, steps, false).outcome.Pass? <==> FirstFailure(server, n, steps) == |steps|
  {
    AttemptStrictOutcome(server, n, steps);
  }

  /** Without tolerance, the run raises exactly when some entry failed, and with
      that entry's error. */
  lemma {:induction false} AttemptStrictOutcome(server: Server, n: nat, steps: seq<Step>)
    ensures
      var run := Attempt(server, n, steps, false);
      var k := FirstFailure(server, n, steps);
      && (run.outcome == Pass <==> k == |steps|)
      && (k < |steps| && steps[k].Err? ==> run.outcome == Fail(steps[k].error))
      && (k < |steps| && steps[k].Ok? ==>
            run.outcome.Fail? && Answer(server, n + k, steps[k].value) == Err(run.outcome.error))
    decreases |steps|
  {
    if steps != [] && steps[0].Ok? && Answer(server, n, steps[0].value).Ok? {
      var tail := steps[1..];
      AttemptStrictOutcome(server, n + 1, tail);
      var k' := FirstFailure(server, n + 1, tail);
      if k' < |tail| {
        assert steps[k' + 1] == tail[k'];
      }
    }
  }

  /** The deletions queued by a loop that stops at the first entry it cannot build. */
  datatype Queued = Queued(items: seq<(Target, Value)>, outcome: Outcome<Exc>)

  /** Queueing `entries` in order until one of them raises. */
  function Enqueue(entries: seq<Result<(Target, Value), Exc>>): (q: Queued)
    ensures |q.items| <= |entries|
    ensures forall i :: 0 <= i < |q.items| ==> entries[i] == Ok(q.items[i])
    ensures q.outcome.Pass? ==> |q.items| == |entries|
    ensures q.outcome.Fail? ==> |q.items| < |entries| && entries[|q.items|] == Err(q.outcome.error)
    decreases |entries|
  {
    if entries == [] then Queued([], Pass)
    else
      match entries[0]
      case Err(e) => Queued([], Fail(e))
      case Ok(item) =>
        var rest := Enqueue(entries[1..]);
        Queued([item] + rest.items, rest.outcome)
  }

  /** A queue built entry by entry is `Enqueue`'s: when the first `i` entries
      could be built and entry `i` (if any) raised, those `i` deletions are queued
      and the run ends with that entry's error. */
  lemma EnqueueUpTo(entries: seq<Result<(Target, Value), Exc>>, done: seq<(Target, Value)>, i: nat)
    requires i <= |entries| && |done| == i && forall j :: 0 <= j < i ==> entries[j] == Ok(done[j])
    requires i < |entries| ==> entries[i].Err?
    ensures Enqueue(entries) == Queued(done, if i < |entries| then Fail(entries[i].error) else Pass)
  {
    var q := Enqueue(entries);
    assert |q.items| == i;
    assert q.items == done;
  }

  /** What one reconciliation did: the requests it sent, the deletions it queued,
      and how it ended. */
  datatype Effect = Effect(sent: seq<Request>, queued: seq<(Target, Value)>, outcome: Outcome<Exc>)

  /** A request that deletes nothing, put before requests that delete nothing. */
  lemma NoDeleteCons(r: Request, s: seq<Request>)
    requires r.verb != Delete && forall i :: 0 <= i < |s| ==> s[i].verb != Delete
    ensures forall i :: 0 <= i < |[r] + s| ==> ([r] + s)[i].verb != Delete
  {
    forall i | 0 <= i < |[r] + s|
      ensures ([r] + s)[i].verb != Delete
    {
      if i > 0 {
        assert ([r] + s)[i] == s[i - 1];
      }
    }
  }

  /** The DELETE requests that drain a deferred-deletion queue, in queue order. */
  function DrainRequests(queue: seq<(Target, Value)>): (reqs: seq<Request>)
    ensures |reqs| == |queue|
    ensures forall i :: 0 <= i < |queue| ==> reqs[i] == Req(Delete, queue[i].0, queue[i].1)
  {
    seq(|queue|, i requires 0 <= i < |queue| => Req(Delete, queue[i].0, queue[i].1))
  }

  function DrainSteps(queue: seq<(Target, Value)>): (steps: seq<Step>)
    ensures Requests(steps) == DrainRequests(queue)
    decreases |queue|
  {
    if queue == [] then []
    else
      var init := queue[..|queue| - 1];
      var steps := DrainSteps(init) + [Ok(Req(Delete, queue[|queue| - 1].0, queue[|queue| - 1].1))];
      assert steps[..|steps| - 1] == DrainSteps(init);
      assert DrainRequests(queue) == DrainRequests(init) + [Req(Delete, queue[|queue| - 1].0, queue[|queue| - 1].1)];
      steps
  }

  /** Draining issues one DELETE per queued entry in enqueue order, swallows every
      failure, and never raises: a failed deletion never prevents a later one. */
  lemma DrainNeverFails(server: Server, n: nat, queue: seq<(Target, Value)>)
    ensures Attempt(server, n, DrainSteps(queue), true) == Run(DrainRequests(queue), Pass)
  {
    AttemptTolerant(server, n, DrainSteps(queue));
  }
}
