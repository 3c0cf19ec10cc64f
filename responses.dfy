/**
 * The second half of `App.__call__`: how the handler is called, the status it
 * is given when it sets none, and how its result becomes a content type and a
 * body.
 */
module Responses {
  import opened Wrappers
  import opened Text
  import opened Values
  import opened HeaderNames
  import opened Headers
  import opened StatusLines
  import opened StatusTable
  import opened Requests

  /** The positional arguments the handler is called with: `()`, `(req,)` or `(req, res)`. */
  datatype Shape = NoArguments | RequestOnly | RequestAndResponse

  function Arity(shape: Shape): nat {
    match shape
    case NoArguments => 0
    case RequestOnly => 1
    case RequestAndResponse => 2
  }

  /**
   * Lines 194-202: a handler that names two or more parameters, or takes
   * `*args`, gets the request and the response; one naming a single parameter
   * gets the request; any other gets nothing.
   */
  function Dispatch(argCount: nat, varargs: bool): (shape: Shape)
    ensures varargs ==> shape == RequestAndResponse
    ensures !varargs ==> Arity(shape) == if argCount < 2 then argCount else 2
  {
    if argCount >= 2 || varargs then RequestAndResponse
    else if argCount == 1 then RequestOnly
    else NoArguments
  }

  /**
   * A handler is never passed more positional arguments than it names unless
   * it takes `*args`, and it is passed the response exactly when it can take two.
   */
  lemma DispatchFits(argCount: nat, varargs: bool)
    ensures Arity(Dispatch(argCount, varargs)) <= argCount || varargs
    ensures Dispatch(argCount, varargs) == RequestAndResponse <==> argCount >= 2 || varargs
  {
  }

  /**
   * Lines 204-208: a status the handler set is kept; otherwise no result
   * (None) is 404, a falsy one 204 and a truthy one 200.
   */
  function InferredStatus(status: Option<int>, data: Value): (code: int)
    ensures status.Some? ==> code == status.value
    ensures status.None? ==> (code == 404 <==> data.Null?)
    ensures status.None? ==> (code == 204 <==> !data.Null? && !Truthy(data))
    ensures status.None? ==> (code == 200 <==> Truthy(data))
  {
    if status.Some? then status.value
    else if data.Null? then 404
    else if Truthy(data) then 200
    else 204
  }

  /** Every status the pipeline infers has a status line, so only a status the handler sets can be unknown. */
  lemma InferredStatusListed(data: Value)
    ensures InferredStatus(None, data) in HttpStatuses()
  {
    InferableStatusesListed();
  }

  const OCTET_STREAM := "application/octet-stream"
  const TEXT_PLAIN := "text/plain"
  const CONTENT_TYPE := "content-type"

  /** Lines 210-220: the content type a result is labelled with when the handler set none. */
  function DefaultContentType(data: Value): (mimetype: Option<string>)
    ensures data.Bytes? ==> mimetype == Some(OCTET_STREAM)
    ensures data.Str? ==> mimetype == Some(TEXT_PLAIN)
    ensures !data.Bytes? && !data.Str? ==> (mimetype.Some? <==> Truthy(data))
    ensures !data.Bytes? && !data.Str? && Truthy(data) ==> mimetype == Some(JSON_MIMETYPE)
  {
    if data.Bytes? then Some(OCTET_STREAM)
    else if data.Str? then Some(TEXT_PLAIN)
    else if Truthy(data) then Some(JSON_MIMETYPE)
    else None
  }

  /**
   * Lines 210-220: the data that is sent. Bytes go as they are, a string is
   * encoded, any other truthy value is serialised to JSON and encoded (which
   * may raise), and a falsy value is left as it is. Whatever is truthy
   * afterwards is bytes.
   */
  function Payload(data: Value, codecs: Codecs): (r: Result<Value>)
    ensures r.Err? <==> !data.Bytes? && !data.Str? && Truthy(data) && codecs.dumps(data).Err?
    ensures r.Err? ==> r.error == codecs.dumps(data).error
    ensures data.Bytes? ==> r == Ok(data)
    ensures data.Str? ==> r == Ok(Bytes(codecs.encode(data.s)))
    ensures !data.Bytes? && !data.Str? && Truthy(data) && codecs.dumps(data).Ok? ==>
      r == Ok(Bytes(codecs.encode(codecs.dumps(data).value)))
    ensures DefaultContentType(data).None? ==> r == Ok(data) && !Truthy(data)
    ensures r.Ok? && Truthy(r.value) ==> r.value.Bytes?
  {
    if data.Bytes? then Ok(data)
    else if data.Str? then Ok(Bytes(codecs.encode(data.s)))
    else if Truthy(data) then
      match codecs.dumps(data)
      case Ok(text) => Ok(Bytes(codecs.encode(text)))
      case Err(e) => Err(e)
    else Ok(data)
  }

  /** Lines 225-226: the body is yielded only when the data is truthy. */
  function Body(data: Value): Option<seq<byte>> {
    if data.Bytes? && |data.bytes| > 0 then Some(data.bytes) else None
  }

  /** Whatever the result, the data sent has a body exactly when it is truthy, and the body is that data. */
  lemma BodyOfPayload(data: Value, codecs: Codecs)
    requires Payload(data, codecs).Ok?
    ensures var sent := Payload(data, codecs).value;
      (Body(sent).Some? <==> Truthy(sent)) && (Body(sent).Some? ==> sent == Bytes(Body(sent).value))
  {
  }

  /**
   * `res.headers['content-type'] = res.headers.get('content-type', default)`
   * for the result's default; the `get` raises TypeError when the handler
   * wrote an entry named `get`.
   */
  function DefaultedHeaders(items: Items, data: Value): Result<Items> {
    match DefaultContentType(data)
    case None => Ok(items)
    case Some(mimetype) =>
      if GET in Keys(items) then Err(TypeError)
      else Ok(Put(items, Lower(CONTENT_TYPE), GetOr(items, CONTENT_TYPE, Str(mimetype))))
  }

  /**
   * Labelling fails, with TypeError, exactly when there is a default to label
   * with and the handler wrote an entry named `get`. Otherwise a content type
   * the handler set is never replaced, and the dict keeps its order; when it
   * set none, the default is added last.
   */
  lemma {:induction false} DefaultedHeadersSpec(items: Items, data: Value)
    ensures DefaultedHeaders(items, data).Err? <==> DefaultContentType(data).Some? && GET in Keys(items)
    ensures DefaultedHeaders(items, data).Err? ==> DefaultedHeaders(items, data).error == TypeError
    ensures DefaultContentType(data).None? ==> DefaultedHeaders(items, data) == Ok(items)
    ensures CONTENT_TYPE in Keys(items) && DefaultedHeaders(items, data).Ok? ==> DefaultedHeaders(items, data) == Ok(items)
    ensures CONTENT_TYPE !in Keys(items) && DefaultedHeaders(items, data).Ok? && DefaultContentType(data).Some? ==>
      DefaultedHeaders(items, data) == Ok(items + [(CONTENT_TYPE, Str(DefaultContentType(data).value))])
  {
    ContentKeysLower();
    match DefaultContentType(data)
    case None =>
    case Some(mimetype) =>
      if GET in Keys(items) {
      } else if CONTENT_TYPE in Keys(items) {
        PutExisting(items, CONTENT_TYPE, GetOr(items, CONTENT_TYPE, Str(mimetype)));
      } else {
        PutNew(items, CONTENT_TYPE, Str(mimetype));
      }
  }

  /** The response object the handler may write to: its status, and a rewritable header view. */
  class Response {
    var status: Option<int>
    const headers: HeaderView

    /** `Response()` followed by `res.headers = RewritableHeaders()`. */
    constructor()
      ensures status == None && fresh(headers) && headers.rewritable && headers.items == []
    {
      status := None;
      headers := new HeaderView.Rewritable();
    }

    /** `res.status_text`. */
    function StatusLine(): (r: Result<string>)
      reads this
      ensures r.Ok? <==> status.Some? && status.value in HttpStatuses()
      ensures r.Ok? ==> StartsWithCode(r.value, status.value)
      ensures forall e :: e in ENTRIES && status == Some(e.code) ==> r == Ok(Line(e))
    {
      StatusText(status)
    }

    /** Lines 204-208, in place. */
    method InferStatus(data: Value)
      modifies this
      ensures status == Some(InferredStatus(old(status), data))
    {
      if status == None {
        if data.Null? {
          status := Some(404);
        } else {
          status := Some(if Truthy(data) then 200 else 204);
        }
      }
    }

    /** `res.headers['content-type'] = res.headers.get('content-type', mimetype)`, or the TypeError of the `get`. */
    method Label(mimetype: string) returns (outcome: Outcome)
      requires headers.rewritable
      modifies headers
      ensures GET in Keys(old(headers.items)) ==> outcome == Fail(TypeError) && headers.items == old(headers.items)
      ensures GET !in Keys(old(headers.items)) ==>
        (outcome == Pass &&
         headers.items == Put(old(headers.items), CONTENT_TYPE, GetOr(old(headers.items), CONTENT_TYPE, Str(mimetype))))
    {
      ContentKeysLower();
      var current := headers.Get(CONTENT_TYPE, Str(mimetype));
      if current.Err? {
        return Fail(current.error);
      }
      outcome := headers.Set(CONTENT_TYPE, current.value);
    }

    /** Lines 210-220, in place: label the headers and return the data to send. */
    method Serialise(data: Value, codecs: Codecs) returns (r: Result<Value>)
      requires headers.rewritable
      modifies headers
      ensures DefaultedHeaders(old(headers.items), data).Err? ==>
        r == Err(DefaultedHeaders(old(headers.items), data).error) && headers.items == old(headers.items)
      ensures DefaultedHeaders(old(headers.items), data).Ok? ==>
        r == Payload(data, codecs) && headers.items == DefaultedHeaders(old(headers.items), data).value
    {
      ContentKeysLower();
      var mimetype := DefaultContentType(data);
      if mimetype.None? {
        return Ok(data);
      }
      var outcome := Label(mimetype.value);
      if outcome.Fail? {
        return Err(outcome.error);
      }
      assert headers.items == DefaultedHeaders(old(headers.items), data).value;
      if data.Bytes? {
        r := Ok(data);
      } else if data.Str? {
        r := Ok(Bytes(codecs.encode(data.s)));
      } else {
        match codecs.dumps(data)
        case Ok(text) =>
          r := Ok(Bytes(codecs.encode(text)));
        case Err(e) =>
          r := Err(e);
      }
    }
  }
}
