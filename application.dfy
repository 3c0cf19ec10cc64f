/**
 * `App.__call__` end to end: build the request, call the handler with the
 * arguments it can take, let it write to the response, infer the status,
 * serialise the result, and emit the status line, the headers and the body.
 */
module Application {
  import opened Wrappers
  import opened Text
  import opened Values
  import opened HeaderNames
  import opened Headers
  import opened StatusLines
  import opened StatusTable
  import opened Requests
  import opened Responses

  /** What the handler is passed: the request unless it takes no argument, and whether it gets the response. */
  datatype Args = Args(request: Option<Request>, response: bool)

  function Arguments(shape: Shape, req: Request): (args: Args)
    ensures args.request.Some? <==> Arity(shape) >= 1
    ensures args.request.Some? ==> args.request.value == req
    ensures args.response <==> Arity(shape) == 2
  {
    match shape
    case NoArguments => Args(None, false)
    case RequestOnly => Args(Some(req), false)
    case RequestAndResponse => Args(Some(req), true)
  }

  /**
   * What a call of the handler does, as far as the pipeline can see: the value
   * it returns, the status it assigns to `res.status` (None when it assigns
   * none), and its `res.headers[key] = value` assignments in order.
   */
  datatype Effect = Effect(result: Value, status: Option<int>, edits: seq<(string, Value)>)

  /**
   * A registered handler: the number of named parameters and whether it takes
   * `*args` (what `inspect.getfullargspec` reports), and what a call does; a
   * call that raises gives Err.
   */
  datatype Handler = Handler(argCount: nat, varargs: bool, run: Args -> Result<Effect>)

  /** A handler that is not passed the response cannot write to it. */
  function Reachable(effect: Effect, args: Args): (seen: Effect)
    ensures seen.result == effect.result
    ensures args.response ==> seen == effect
    ensures !args.response ==> seen.status.None? && seen.edits == []
  {
    if args.response then effect else Effect(effect.result, None, [])
  }

  /** The handler's `res.headers[key] = value` assignments, in order, on a rewritable view. */
  function ApplyEdits(items: Items, edits: seq<(string, Value)>): Items {
    if edits == [] then items
    else
      var n := |edits| - 1;
      Put(ApplyEdits(items, edits[..n]), Lower(edits[n].0), edits[n].1)
  }

  /** The last assignment to a key, in any capitalisation, decides its value. */
  lemma {:induction false} EditsLastWin(items: Items, edits: seq<(string, Value)>, key: string, i: int)
    requires 0 <= i < |edits| && Lower(edits[i].0) == key
    requires forall j :: i < j < |edits| ==> Lower(edits[j].0) != key
    ensures Find(ApplyEdits(items, edits), key) == Some(edits[i].1)
  {
    var n := |edits| - 1;
    var init, last := edits[..n], edits[n];
    var before := ApplyEdits(items, init);
    assert ApplyEdits(items, edits) == Put(before, Lower(last.0), last.1);
    if i < n {
      LastWinStep(items, edits, key, i);
      EditsLastWin(items, init, key, i);
    }
  }

  lemma LastWinStep(items: Items, edits: seq<(string, Value)>, key: string, i: int)
    requires 0 <= i < |edits| - 1 && Lower(edits[i].0) == key
    requires forall j :: i < j < |edits| ==> Lower(edits[j].0) != key
    ensures var init := edits[..|edits| - 1];
      Lower(init[i].0) == key && (forall j :: i < j < |init| ==> Lower(init[j].0) != key) &&
      Lower(edits[|edits| - 1].0) != key && init[i] == edits[i]
  {
  }

  /** A key no assignment writes to keeps the value it had. */
  lemma {:induction false} EditsUntouched(items: Items, edits: seq<(string, Value)>, key: string)
    requires forall j :: 0 <= j < |edits| ==> Lower(edits[j].0) != key
    ensures Find(ApplyEdits(items, edits), key) == Find(items, key)
  {
    if edits != [] {
      var n := |edits| - 1;
      var init := edits[..n];
      assert forall j :: 0 <= j < n ==> init[j] == edits[j];
      EditsUntouched(items, init, key);
    }
  }

  /** What the server is given: the status line, the header pairs, and the body if one is yielded. */
  datatype Reply = Reply(status: string, headers: Items, body: Option<seq<byte>>)

  /** The outcome of one call, and whether a warning was logged on the way. */
  datatype Served = Served(reply: Result<Reply>, warned: bool)

  /** Lines 204-226 once the handler has returned: infer the status, serialise, look up the status line. */
  function Respond(effect: Effect, codecs: Codecs): Result<Reply> {
    var status := InferredStatus(effect.status, effect.result);
    match DefaultedHeaders(ApplyEdits([], effect.edits), effect.result)
    case Err(e) => Err(e)
    case Ok(headers) =>
    match Payload(effect.result, codecs)
    case Err(e) => Err(e)
    case Ok(data) =>
    match StatusText(Some(status))
    case Err(e) => Err(e)
    case Ok(line) => Ok(Reply(line, headers, Body(data)))
  }

  /** Lines 166-226: the whole call, as a function of the environ, the input stream, the handler and the codecs. */
  function Serve(environ: Items, input: seq<byte>, handler: Handler, codecs: Codecs): Served {
    match Build(environ, input, codecs)
    case Err(e) => Served(Err(e), false)
    case Ok(built) =>
    var args := Arguments(Dispatch(handler.argCount, handler.varargs), built.request);
    match handler.run(args)
    case Err(e) => Served(Err(e), built.warned)
    case Ok(effect) => Served(Respond(Reachable(effect, args), codecs), built.warned)
  }

  /**
   * The call fails exactly when labelling or serialising fails, or the status
   * is one the handler set that has no status line; otherwise the status line
   * starts with the status, and a status the pipeline inferred never fails.
   */
  lemma {:induction false} RespondStatus(effect: Effect, codecs: Codecs)
    ensures Respond(effect, codecs).Err? <==>
      DefaultedHeaders(ApplyEdits([], effect.edits), effect.result).Err? ||
      Payload(effect.result, codecs).Err? ||
      (effect.status.Some? && effect.status.value !in HttpStatuses())
    ensures Respond(effect, codecs).Ok? ==>
      StartsWithCode(Respond(effect, codecs).value.status, InferredStatus(effect.status, effect.result))
  {
    InferredStatusListed(effect.result);
  }

  /** The status line sent is the table's line for the status, as written. */
  lemma RespondLine(effect: Effect, codecs: Codecs, i: int)
    requires 0 <= i < |ENTRIES| && ENTRIES[i].code == InferredStatus(effect.status, effect.result)
    ensures Respond(effect, codecs).Ok? ==> Respond(effect, codecs).value.status == Line(ENTRIES[i])
  {
    StatusTextListed(i);
  }

  /** An assignment to a key, in any capitalisation, leaves that key in the dict. */
  lemma {:induction false} EditedKeyPresent(items: Items, edits: seq<(string, Value)>, key: string, i: int)
    requires 0 <= i < |edits| && Lower(edits[i].0) == key
    ensures key in Keys(ApplyEdits(items, edits))
  {
    var n := |edits| - 1;
    if i < n {
      assert edits[..n][i] == edits[i];
      EditedKeyPresent(items, edits[..n], key, i);
    }
  }

  /**
   * A handler that writes an entry named `get`, in any capitalisation, and
   * returns data that has a default content type makes the call raise
   * TypeError, since the entry hides the view's `get` method.
   */
  lemma {:induction false} GetEntryFailsCall(effect: Effect, codecs: Codecs, i: int)
    requires 0 <= i < |effect.edits| && Lower(effect.edits[i].0) == GET
    requires DefaultContentType(effect.result).Some?
    ensures Respond(effect, codecs) == Err(TypeError)
  {
    EditedKeyPresent([], effect.edits, GET, i);
    DefaultedHeadersSpec(ApplyEdits([], effect.edits), effect.result);
  }

  /** With no status set and no result, the reply is a 404 with no body and only the handler's headers. */
  lemma {:induction false} NoResultIsNotFound(effect: Effect, codecs: Codecs)
    requires effect.status.None? && effect.result.Null?
    ensures Respond(effect, codecs).Ok?
    ensures StartsWithCode(Respond(effect, codecs).value.status, 404)
    ensures Respond(effect, codecs).value.headers == ApplyEdits([], effect.edits)
    ensures Respond(effect, codecs).value.body.None?
  {
    var items := ApplyEdits([], effect.edits);
    DefaultedHeadersSpec(items, effect.result);
    assert DefaultedHeaders(items, effect.result) == Ok(items);
    assert Payload(effect.result, codecs) == Ok(Null);
    RespondStatus(effect, codecs);
  }

  /**
   * The emitted content type is the last one the handler assigned, in any
   * capitalisation; when it assigned none and the result has a default, the
   * default is emitted after the handler's headers.
   */
  lemma {:induction false} RespondContentType(effect: Effect, codecs: Codecs, i: int)
    requires 0 <= i < |effect.edits| && Lower(effect.edits[i].0) == CONTENT_TYPE
    requires forall j :: i < j < |effect.edits| ==> Lower(effect.edits[j].0) != CONTENT_TYPE
    ensures Respond(effect, codecs).Ok? ==>
      Find(Respond(effect, codecs).value.headers, CONTENT_TYPE) == Some(effect.edits[i].1)
  {
    var handlerHeaders := ApplyEdits([], effect.edits);
    EditsLastWin([], effect.edits, CONTENT_TYPE, i);
    DefaultedHeadersSpec(handlerHeaders, effect.result);
  }

  lemma {:induction false} RespondDefaultContentType(effect: Effect, codecs: Codecs)
    requires forall j :: 0 <= j < |effect.edits| ==> Lower(effect.edits[j].0) != CONTENT_TYPE
    ensures var handlerHeaders := ApplyEdits([], effect.edits);
      Respond(effect, codecs).Ok? ==>
        Respond(effect, codecs).value.headers ==
          (match DefaultContentType(effect.result)
           case None => handlerHeaders
           case Some(mimetype) => handlerHeaders + [(CONTENT_TYPE, Str(mimetype))])
  {
    var handlerHeaders := ApplyEdits([], effect.edits);
    EditsUntouched([], effect.edits, CONTENT_TYPE);
    DefaultedHeadersSpec(handlerHeaders, effect.result);
  }

  /** A body is yielded exactly when the data sent is truthy, and it is that data. */
  lemma {:induction false} RespondBody(effect: Effect, codecs: Codecs)
    ensures Respond(effect, codecs).Ok? ==>
      var sent := Payload(effect.result, codecs).value;
      (Respond(effect, codecs).value.body.Some? <==> Truthy(sent)) &&
      (Respond(effect, codecs).value.body.Some? ==> sent == Bytes(Respond(effect, codecs).value.body.value))
  {
    if Respond(effect, codecs).Ok? {
      BodyOfPayload(effect.result, codecs);
    }
  }

  /**
   * A handler that is not passed the response gets an inferred status and no
   * headers but the default content type.
   */
  lemma {:induction false} WithoutResponse(environ: Items, input: seq<byte>, handler: Handler, codecs: Codecs)
    requires Dispatch(handler.argCount, handler.varargs) != RequestAndResponse
    ensures var served := Serve(environ, input, handler, codecs).reply;
      served.Ok? ==>
        (|served.value.headers| <= 1 && (served.value.headers != [] ==> served.value.headers[0].0 == CONTENT_TYPE))
    ensures var served := Serve(environ, input, handler, codecs).reply;
      served.Ok? ==> exists code :: code in {200, 204, 404} && StartsWithCode(served.value.status, code)
  {
    if Serve(environ, input, handler, codecs).reply.Err? {
      return;
    }
    var built := Build(environ, input, codecs).value;
    var args := Arguments(Dispatch(handler.argCount, handler.varargs), built.request);
    var effect := Reachable(handler.run(args).value, args);
    DefaultedHeadersSpec([], effect.result);
    RespondStatus(effect, codecs);
    var code := InferredStatus(None, effect.result);
    assert code in {200, 204, 404};
  }

  /** A warning is logged only for a request that was built and whose JSON body does not parse. */
  lemma {:induction false} WarnsOnlyOnBadJson(environ: Items, input: seq<byte>, handler: Handler, codecs: Codecs)
    ensures Serve(environ, input, handler, codecs).warned ==> Build(environ, input, codecs).Ok?
    ensures Serve(environ, input, handler, codecs).warned ==>
      var req := Build(environ, input, codecs).value.request;
      req.mimetype == JSON_MIMETYPE && codecs.loads(req.text).JsonDecodeError? && req.json == Null
  {
    if !Serve(environ, input, handler, codecs).warned {
      return;
    }
    var head := Head(environ).value;
    var typed := WithContentType(head, codecs).value;
    var queried := WithQuery(typed, environ, codecs).value;
    var read := WithData(queried, input).value;
    var decoded := WithText(read, codecs).value;
    assert Build(environ, input, codecs) == DecodeBody(decoded, codecs);
    assert decoded.json == head.json == Null;
  }

  /**
   * A `content-length` written with a sign (`-5`), the last variable filed
   * under that key, fails the call with TypeError before the handler runs,
   * instead of reading as 0.
   */
  lemma {:induction false} SignedLengthFailsCall(environ: Items, input: seq<byte>, handler: Handler, codecs: Codecs, i: int, s: string)
    requires "REQUEST_METHOD" in Keys(environ) && "PATH_INFO" in Keys(environ)
    requires 0 <= i < |environ| && FiledUnder(environ[i].0, "content-length")
    requires forall j :: i < j < |environ| ==> !FiledUnder(environ[j].0, "content-length")
    requires environ[i].1 == Str(s) && |s| > 0 && s[0] == '-'
    ensures Serve(environ, input, handler, codecs) == Served(Err(TypeError), false)
  {
    SignedLengthRejected(environ, i, s);
    assert Head(environ) == Err(TypeError);
  }

  /** The handler's `res.headers[key] = value` assignments, made one by one. */
  method WriteHeaders(headers: HeaderView, edits: seq<(string, Value)>)
    requires headers.rewritable
    modifies headers
    ensures headers.items == ApplyEdits(old(headers.items), edits)
  {
    ghost var start := headers.items;
    var i := 0;
    while i < |edits|
      invariant 0 <= i <= |edits|
      invariant headers.items == ApplyEdits(start, edits[..i])
    {
      var written := headers.Set(edits[i].0, edits[i].1);
      assert edits[..i + 1][..i] == edits[..i];
      i := i + 1;
    }
    assert edits[..i] == edits;
  }

  /** Lines 204-226 as the statements run, on a fresh response the handler's effect is written to. */
  method Emit(effect: Effect, codecs: Codecs) returns (reply: Result<Reply>)
    ensures reply == Respond(effect, codecs)
  {
    var res := new Response();
    res.status := effect.status;
    WriteHeaders(res.headers, effect.edits);
    res.InferStatus(effect.result);
    var data := res.Serialise(effect.result, codecs);
    if data.Err? {
      return Err(data.error);
    }
    var line := res.StatusLine();
    if line.Err? {
      return Err(line.error);
    }
    reply := Ok(Reply(line.value, res.headers.items, Body(data.value)));
  }

  /** Lines 166-226 as the statements run. */
  method Call(environ: Items, input: seq<byte>, handler: Handler, codecs: Codecs) returns (served: Served)
    ensures served == Serve(environ, input, handler, codecs)
  {
    var built := BuildRequest(environ, input, codecs);
    if built.Err? {
      return Served(Err(built.error), false);
    }
    var args := Arguments(Dispatch(handler.argCount, handler.varargs), built.value.request);
    var outcome := handler.run(args);
    if outcome.Err? {
      return Served(Err(outcome.error), built.value.warned);
    }
    var reply := Emit(Reachable(outcome.value, args), codecs);
    served := Served(reply, built.value.warned);
  }
}
