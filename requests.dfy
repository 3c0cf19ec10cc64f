/**
 * Request construction (the first half of `App.__call__`): the request's
 * method and path, its read-only header view, the content type and charset,
 * the query, the body and its decodings.
 */
module Requests {
  import opened Wrappers
  import opened Text
  import opened Values
  import opened HeaderNames
  import opened Headers

  /** What `bytes.decode(charset)` does: text, a caught UnicodeDecodeError, or an error that escapes. */
  datatype Decoding = Decoded(text: string) | UnicodeDecodeError | DecodeFailure(error: Error)

  /**
   * What `json.loads(text)` does: a value, a caught JSONDecodeError, or an
   * exception the pipeline does not catch (a RecursionError on deep nesting).
   */
  datatype Loading = Loaded(value: Value) | JsonDecodeError | LoadFailure(error: Error)

  /**
   * The library codecs the pipeline calls, taken as given: `cgi.parse_header`,
   * `urllib.parse.parse_qsl`, `bytes.decode`, `json.loads`, `json.dumps` and
   * `str.encode('utf8')`.
   */
  datatype Codecs = Codecs(
    parseHeader: string -> (string, map<string, string>),
    parseQsl: string -> seq<(string, string)>,
    decode: (seq<byte>, string) -> Decoding,
    loads: string -> Loading,
    dumps: Value -> Result<string>,
    encode: string -> seq<byte>)

  /** A built request; `headers` is the dict of its read-only header view. */
  datatype Request = Request(
    httpMethod: Value,
    path: Value,
    headers: Items,
    mimetype: string,
    charset: string,
    query: map<string, string>,
    data: seq<byte>,
    text: string,
    form: map<string, string>,
    json: Value)

  /** The class attributes of `Request`: what each field holds until it is assigned. */
  const DEFAULT_REQUEST := Request(Str("GET"), Str("/"), [], "text/plain", "utf8", map[], [], "", map[], Null)

  const FORM_MIMETYPE := "application/x-www-form-urlencoded"
  const JSON_MIMETYPE := "application/json"

  /** A built request, and whether building it logged a warning. */
  datatype Built = Built(request: Request, warned: bool)

  /** `dict(pairs)`: a later pair with the same key replaces an earlier one. */
  function DictOf(pairs: seq<(string, string)>): map<string, string> {
    if pairs == [] then map[]
    else DictOf(pairs[..|pairs| - 1])[pairs[|pairs| - 1].0 := pairs[|pairs| - 1].1]
  }

  /** `dict(pairs)` has exactly the keys of the pairs. */
  lemma {:induction false} DictOfKeys(pairs: seq<(string, string)>)
    ensures forall key :: key in DictOf(pairs) <==> exists i :: 0 <= i < |pairs| && pairs[i].0 == key
  {
    if pairs != [] {
      var n := |pairs| - 1;
      var init := pairs[..n];
      assert DictOf(pairs) == DictOf(init)[pairs[n].0 := pairs[n].1];
      DictOfKeys(init);
      forall key | key in DictOf(pairs)
        ensures exists i :: 0 <= i < |pairs| && pairs[i].0 == key
      {
        if key != pairs[n].0 {
          var i :| 0 <= i < n && init[i].0 == key;
          assert pairs[i].0 == key;
        }
      }
      forall key | exists i :: 0 <= i < |pairs| && pairs[i].0 == key
        ensures key in DictOf(pairs)
      {
        var i :| 0 <= i < |pairs| && pairs[i].0 == key;
        if i < n {
          assert init[i].0 == key;
        }
      }
    }
  }

  /** Each key of `dict(pairs)` has the value of its LAST pair. */
  lemma {:induction false} DictOfLastWins(pairs: seq<(string, string)>)
    ensures forall i :: 0 <= i < |pairs| && (forall j :: i < j < |pairs| ==> pairs[j].0 != pairs[i].0) ==>
      pairs[i].0 in DictOf(pairs) && DictOf(pairs)[pairs[i].0] == pairs[i].1
  {
    if pairs != [] {
      var n := |pairs| - 1;
      var init := pairs[..n];
      DictOfLastWins(init);
      forall i | 0 <= i < n && (forall j :: i < j < |pairs| ==> pairs[j].0 != pairs[i].0)
        ensures pairs[i].0 in DictOf(pairs) && DictOf(pairs)[pairs[i].0] == pairs[i].1
      {
        assert forall j :: i < j < n ==> init[j].0 != init[i].0;
      }
    }
  }

  /** `cgi.parse_header(value)`: only a string can be parsed (`';' + value` raises otherwise). */
  function ParseContentType(value: Value, codecs: Codecs): Result<(string, map<string, string>)> {
    if value.Str? then Ok(codecs.parseHeader(value.s)) else Err(TypeError)
  }

  /** `content_type_opts.get('charset', 'utf8')`. */
  function CharsetOf(params: map<string, string>): string {
    if "charset" in params then params["charset"] else DEFAULT_REQUEST.charset
  }

  /**
   * `dict(urllib.parse.parse_qsl(value))`: a string is parsed; any falsy value
   * is read as the empty query; any other value is refused with TypeError.
   */
  function ParseQuery(value: Value, codecs: Codecs): Result<map<string, string>> {
    if value.Str? then Ok(DictOf(codecs.parseQsl(value.s)))
    else if !Truthy(value) then Ok(map[])
    else Err(TypeError)
  }

  /**
   * `environ['wsgi.input'].read(n)`: at most `n` bytes of the stream (a
   * negative size or None reads it all; a bool counts as 0 or 1); any other
   * size, a float among them, raises TypeError.
   */
  function Read(input: seq<byte>, size: Value): (r: Result<seq<byte>>)
    ensures r.Ok? <==> size.Int? || size.Bool? || size.Null?
    ensures r.Err? ==> r.error == TypeError
    ensures r.Ok? ==> r.value <= input
    ensures r.Ok? && size.Int? && size.i >= 0 ==> |r.value| == if size.i < |input| then size.i else |input|
    ensures r.Ok? && (size.Null? || (size.Int? && size.i < 0)) ==> r.value == input
    ensures r.Ok? && size.Bool? ==> |r.value| == if size.b && |input| > 0 then 1 else 0
  {
    match size
    case Int(n) => Ok(if 0 <= n < |input| then input[..n] else input)
    case Bool(b) => Ok(if b && |input| > 0 then input[..1] else if b then input else [])
    case Null => Ok(input)
    case _ => Err(TypeError)
  }

  /** Lines 176-180: decode when the charset is not empty; a UnicodeDecodeError leaves the text empty. */
  function DecodeText(data: seq<byte>, charset: string, codecs: Codecs): (r: Result<string>)
    ensures r.Err? <==> charset != [] && codecs.decode(data, charset).DecodeFailure?
    ensures r.Err? ==> r.error == codecs.decode(data, charset).error
    ensures r.Ok? && charset != [] && codecs.decode(data, charset).Decoded? ==>
      r.value == codecs.decode(data, charset).text
    ensures r.Ok? && (charset == [] || codecs.decode(data, charset).UnicodeDecodeError?) ==>
      r.value == DEFAULT_REQUEST.text
  {
    if charset == [] then Ok(DEFAULT_REQUEST.text)
    else match codecs.decode(data, charset)
      case Decoded(text) => Ok(text)
      case UnicodeDecodeError => Ok(DEFAULT_REQUEST.text)
      case DecodeFailure(e) => Err(e)
  }

  /** Lines 166-169: the method and path from the environ, then the clamped header view. */
  function Head(environ: Items): (r: Result<Request>)
    ensures r.Ok? ==> r.value == DEFAULT_REQUEST.(httpMethod := r.value.httpMethod, path := r.value.path,
                                                  headers := r.value.headers)
    ensures r.Ok? ==> Find(environ, "REQUEST_METHOD") == Some(r.value.httpMethod)
    ensures r.Ok? ==> Find(environ, "PATH_INFO") == Some(r.value.path)
    ensures r.Ok? ==> Keys(r.value.headers) == Keys(Comprehension(environ))
    ensures r.Ok? ==> forall key :: key != "content-length" ==>
      Find(r.value.headers, key) == Find(Comprehension(environ), key)
    ensures r.Ok? ==>
      var length := Find(r.value.headers, "content-length");
      length.Some? ==> IsNumber(length.value) && !IsNegative(length.value)
    ensures r.Ok? && Find(Comprehension(environ), "content-length").Some? ==>
      var length := Find(Comprehension(environ), "content-length").value;
      ClampValue(length).Ok? && Find(r.value.headers, "content-length") == Some(ClampValue(length).value)
    ensures Find(environ, "REQUEST_METHOD").None? ==> r == Err(KeyError("REQUEST_METHOD"))
    ensures Find(environ, "REQUEST_METHOD").Some? && Find(environ, "PATH_INFO").None? ==>
      r == Err(KeyError("PATH_INFO"))
    ensures Find(environ, "REQUEST_METHOD").Some? && Find(environ, "PATH_INFO").Some? ==>
      var length := Find(Comprehension(environ), "content-length");
      (r.Err? <==> length.Some? && Truthy(length.value) && !IsNumber(length.value)) &&
      (r.Err? ==> r.error == TypeError)
  {
    match Subscript(environ, "REQUEST_METHOD")
    case Err(e) => Err(e)
    case Ok(verb) =>
    match Subscript(environ, "PATH_INFO")
    case Err(e) => Err(e)
    case Ok(path) =>
    ClampedSpec(Comprehension(environ));
    match Clamped(Comprehension(environ))
    case Err(e) => Err(e)
    case Ok(headers) => Ok(DEFAULT_REQUEST.(httpMethod := verb, path := path, headers := headers))
  }

  /**
   * Lines 170-172: the mimetype and charset of the `content-type` header, which
   * must be present (KeyError) and a string (TypeError).
   */
  function WithContentType(req: Request, codecs: Codecs): (r: Result<Request>)
    ensures r.Ok? ==> r.value == req.(mimetype := r.value.mimetype, charset := r.value.charset)
    ensures var contentType := Find(req.headers, "content-type");
      if contentType.None? then r == Err(KeyError("content-type"))
      else if !contentType.value.Str? then r == Err(TypeError)
      else (r.Ok? && r.value.mimetype == codecs.parseHeader(contentType.value.s).0 &&
            r.value.charset == CharsetOf(codecs.parseHeader(contentType.value.s).1))
  {
    ContentKeysLower();
    match Lookup(req.headers, "content-type")
    case Err(e) => Err(e)
    case Ok(contentType) =>
    match ParseContentType(contentType, codecs)
    case Err(e) => Err(e)
    case Ok(parsed) => Ok(req.(mimetype := parsed.0, charset := CharsetOf(parsed.1)))
  }

  /**
   * Line 173: the query, from a `QUERY_STRING` that must be present (KeyError);
   * a falsy value gives the empty query, and a truthy one that is not a string
   * is refused (TypeError).
   */
  function WithQuery(req: Request, environ: Items, codecs: Codecs): (r: Result<Request>)
    ensures r.Ok? ==> r.value == req.(query := r.value.query)
    ensures var query := Find(environ, "QUERY_STRING");
      if query.None? then r == Err(KeyError("QUERY_STRING"))
      else if query.value.Str? then r.Ok? && r.value.query == DictOf(codecs.parseQsl(query.value.s))
      else if !Truthy(query.value) then r.Ok? && r.value.query == map[]
      else r == Err(TypeError)
  {
    match Subscript(environ, "QUERY_STRING")
    case Err(e) => Err(e)
    case Ok(queryString) =>
    match ParseQuery(queryString, codecs)
    case Err(e) => Err(e)
    case Ok(query) => Ok(req.(query := query))
  }

  /**
   * Line 174: read as many bytes as the `content-length` header says; it must
   * be present (KeyError) and an int, a bool or None (TypeError).
   */
  function WithData(req: Request, input: seq<byte>): (r: Result<Request>)
    ensures r.Ok? ==> r.value == req.(data := r.value.data)
    ensures var length := Find(req.headers, "content-length");
      if length.None? then r == Err(KeyError("content-length"))
      else if !(length.value.Int? || length.value.Bool? || length.value.Null?) then r == Err(TypeError)
      else (r.Ok? && r.value.data <= input &&
            (length.value.Int? && length.value.i >= 0 ==>
               |r.value.data| == if length.value.i < |input| then length.value.i else |input|))
  {
    ContentKeysLower();
    match Lookup(req.headers, "content-length")
    case Err(e) => Err(e)
    case Ok(size) =>
    match Read(input, size)
    case Err(e) => Err(e)
    case Ok(data) => Ok(req.(data := data))
  }

  /** Lines 176-180: the text, decoded in the request's charset. */
  function WithText(req: Request, codecs: Codecs): (r: Result<Request>)
    ensures r.Ok? ==> r.value == req.(text := r.value.text)
    ensures r.Ok? <==> DecodeText(req.data, req.charset, codecs).Ok?
    ensures r.Ok? ==> DecodeText(req.data, req.charset, codecs).value == r.value.text
    ensures r.Err? ==> r.error == codecs.decode(req.data, req.charset).error
  {
    match DecodeText(req.data, req.charset, codecs)
    case Err(e) => Err(e)
    case Ok(text) => Ok(req.(text := text))
  }

  /**
   * Lines 182-188: fill `form` or `json`, chosen by the exact mimetype; a
   * JSONDecodeError leaves `json` as None and logs a warning, and any other
   * exception from `json.loads` escapes.
   */
  function DecodeBody(req: Request, codecs: Codecs): (r: Result<Built>)
    ensures r.Err? <==> req.mimetype == JSON_MIMETYPE && codecs.loads(req.text).LoadFailure?
    ensures r.Err? ==> r.error == codecs.loads(req.text).error
    ensures r.Ok? ==> r.value.request == req.(form := r.value.request.form, json := r.value.request.json)
    ensures r.Ok? && req.mimetype == FORM_MIMETYPE ==> r.value.request.form == DictOf(codecs.parseQsl(req.text))
    ensures r.Ok? && req.mimetype != FORM_MIMETYPE ==> r.value.request.form == req.form
    ensures req.mimetype == JSON_MIMETYPE && codecs.loads(req.text).Loaded? ==>
      r.Ok? && r.value.request.json == codecs.loads(req.text).value
    ensures r.Ok? && !(req.mimetype == JSON_MIMETYPE && codecs.loads(req.text).Loaded?) ==>
      r.value.request.json == req.json
    ensures r.Ok? ==> (r.value.warned <==> req.mimetype == JSON_MIMETYPE && codecs.loads(req.text).JsonDecodeError?)
  {
    if req.mimetype == FORM_MIMETYPE then
      Ok(Built(req.(form := DictOf(codecs.parseQsl(req.text))), false))
    else if req.mimetype == JSON_MIMETYPE then
      match codecs.loads(req.text)
      case Loaded(v) => Ok(Built(req.(json := v), false))
      case JsonDecodeError => Ok(Built(req, true))
      case LoadFailure(e) => Err(e)
    else Ok(Built(req, false))
  }

  /** Lines 166-188: the statements in order, stopping at the first exception. */
  function Build(environ: Items, input: seq<byte>, codecs: Codecs): Result<Built> {
    match Head(environ)
    case Err(e) => Err(e)
    case Ok(req) =>
    match WithContentType(req, codecs)
    case Err(e) => Err(e)
    case Ok(req) =>
    match WithQuery(req, environ, codecs)
    case Err(e) => Err(e)
    case Ok(req) =>
    match WithData(req, input)
    case Err(e) => Err(e)
    case Ok(req) =>
    match WithText(req, codecs)
    case Err(e) => Err(e)
    case Ok(req) => DecodeBody(req, codecs)
  }

  /**
   * A built request holds the environ's method and path; the clamped view of
   * its headers, where `content-length` is a number that is not negative; the
   * mimetype and charset of its `content-type`; its query; a prefix of the
   * stream as long as an int `content-length` allows; text only from a
   * non-empty charset; `form` and `json` only for their own mimetype; and a
   * warning exactly when a JSON body does not parse.
   */
  lemma {:induction false} BuiltRequest(environ: Items, input: seq<byte>, codecs: Codecs)
    ensures Build(environ, input, codecs).Ok? ==>
      var r := Build(environ, input, codecs).value.request;
      Find(environ, "REQUEST_METHOD") == Some(r.httpMethod) && Find(environ, "PATH_INFO") == Some(r.path)
    ensures Build(environ, input, codecs).Ok? ==>
      var r := Build(environ, input, codecs).value.request;
      Keys(r.headers) == Keys(Comprehension(environ)) &&
      (forall key :: key != "content-length" ==> Find(r.headers, key) == Find(Comprehension(environ), key)) &&
      var length := Find(r.headers, "content-length");
      length.Some? && IsNumber(length.value) && !IsNegative(length.value) &&
      var given := Find(Comprehension(environ), "content-length");
      given.Some? && ClampValue(given.value) == Ok(length.value)
    ensures Build(environ, input, codecs).Ok? ==>
      var r := Build(environ, input, codecs).value.request;
      var contentType := Find(r.headers, "content-type");
      contentType.Some? && contentType.value.Str? &&
      r.mimetype == codecs.parseHeader(contentType.value.s).0 &&
      r.charset == CharsetOf(codecs.parseHeader(contentType.value.s).1)
    ensures Build(environ, input, codecs).Ok? ==>
      var r := Build(environ, input, codecs).value.request;
      var query := Find(environ, "QUERY_STRING");
      query.Some? && (query.value.Str? || !Truthy(query.value)) &&
      r.query == if query.value.Str? then DictOf(codecs.parseQsl(query.value.s)) else map[]
    ensures Build(environ, input, codecs).Ok? ==>
      var r := Build(environ, input, codecs).value.request;
      r.data <= input &&
      var length := Find(r.headers, "content-length");
      length.value.Int? ==> |r.data| == if length.value.i < |input| then length.value.i else |input|
    ensures Build(environ, input, codecs).Ok? ==>
      var r := Build(environ, input, codecs).value.request;
      (r.charset == [] ==> r.text == []) &&
      (r.charset != [] && codecs.decode(r.data, r.charset).Decoded? ==> r.text == codecs.decode(r.data, r.charset).text)
    ensures Build(environ, input, codecs).Ok? ==>
      var r := Build(environ, input, codecs).value.request;
      (r.form != map[] ==> r.mimetype == FORM_MIMETYPE) &&
      (r.mimetype == FORM_MIMETYPE ==> r.form == DictOf(codecs.parseQsl(r.text))) &&
      (r.json != Null ==> r.mimetype == JSON_MIMETYPE) &&
      (r.mimetype == JSON_MIMETYPE && codecs.loads(r.text).Loaded? ==> r.json == codecs.loads(r.text).value)
    ensures Build(environ, input, codecs).Ok? ==>
      var b := Build(environ, input, codecs).value;
      b.warned <==> b.request.mimetype == JSON_MIMETYPE && codecs.loads(b.request.text).JsonDecodeError?
  {
    if Build(environ, input, codecs).Err? {
      return;
    }
    var head := Head(environ).value;
    var typed := WithContentType(head, codecs).value;
    var queried := WithQuery(typed, environ, codecs).value;
    var read := WithData(queried, input).value;
    var decoded := WithText(read, codecs).value;
    assert decoded.headers == head.headers;
    assert decoded.mimetype == typed.mimetype && decoded.charset == typed.charset;
    assert decoded.data == read.data;
  }

  /** A request is built only from an environ with the three CGI variables and both content headers. */
  lemma {:induction false} BuildNeeds(environ: Items, input: seq<byte>, codecs: Codecs)
    ensures Build(environ, input, codecs).Ok? ==>
      "REQUEST_METHOD" in Keys(environ) && "PATH_INFO" in Keys(environ) && "QUERY_STRING" in Keys(environ)
    ensures Build(environ, input, codecs).Ok? ==> Named(environ, "content-type") && Named(environ, "content-length")
  {
    ClampedSpec(Comprehension(environ));
    ContentKeysLower();
    ComprehensionKeys(environ, "content-type");
    ComprehensionKeys(environ, "content-length");
  }

  /** Past the method, the path and the clamp, a missing `content-type` header fails the request. */
  lemma {:induction false} MissingContentType(environ: Items, input: seq<byte>, codecs: Codecs)
    requires "REQUEST_METHOD" in Keys(environ) && "PATH_INFO" in Keys(environ)
    requires Clamped(Comprehension(environ)).Ok?
    requires !Named(environ, "content-type")
    ensures Build(environ, input, codecs) == Err(KeyError("content-type"))
  {
    ClampedSpec(Comprehension(environ));
    ContentKeysLower();
    ComprehensionKeys(environ, "content-type");
  }

  /** Lines 166-169 as the statements run: the method, the path, and the read-only view, clamped. */
  method OpenRequest(environ: Items) returns (r: Result<Request>, headers: HeaderView?)
    ensures r == Head(environ)
    ensures r.Ok? ==> headers != null && headers.items == r.value.headers && !headers.rewritable
  {
    headers := null;
    var req := DEFAULT_REQUEST;
    var verb := Subscript(environ, "REQUEST_METHOD");
    if verb.Err? {
      return Err(verb.error), null;
    }
    req := req.(httpMethod := verb.value);
    var path := Subscript(environ, "PATH_INFO");
    if path.Err? {
      return Err(path.error), null;
    }
    req := req.(path := path.value);

    headers := new HeaderView.ReadOnly(environ);
    var clamp := headers.ClampContentLength();
    if clamp.Fail? {
      return Err(clamp.error), headers;
    }
    req := req.(headers := headers.items);
    r := Ok(req);
  }

  /** Lines 166-188 as the statements run: each assignment in turn, stopping at the first exception. */
  method BuildRequest(environ: Items, input: seq<byte>, codecs: Codecs) returns (r: Result<Built>)
    ensures r == Build(environ, input, codecs)
  {
    var head, headers := OpenRequest(environ);
    if head.Err? {
      return Err(head.error);
    }
    var req := head.value;

    var contentType := headers.Index("content-type");
    if contentType.Err? {
      return Err(contentType.error);
    }
    var parsed := ParseContentType(contentType.value, codecs);
    if parsed.Err? {
      return Err(parsed.error);
    }
    req := req.(mimetype := parsed.value.0);
    req := req.(charset := CharsetOf(parsed.value.1));
    ghost var typed := req;

    var queryString := Subscript(environ, "QUERY_STRING");
    if queryString.Err? {
      return Err(queryString.error);
    }
    var query := ParseQuery(queryString.value, codecs);
    if query.Err? {
      return Err(query.error);
    }
    req := req.(query := query.value);
    ghost var queried := req;

    var size := headers.Index("content-length");
    if size.Err? {
      return Err(size.error);
    }
    var data := Read(input, size.value);
    if data.Err? {
      return Err(data.error);
    }
    req := req.(data := data.value);
    assert WithData(queried, input) == Ok(req);

    var decoded := DecodeInto(req, codecs);
    if decoded.Err? {
      return Err(decoded.error);
    }
    r := FillBody(decoded.value, codecs);
  }

  /**
   * Lines 176-180 as the statements run: decode the body when there is a
   * charset; until then the text is still the class attribute `''`.
   */
  method DecodeInto(req: Request, codecs: Codecs) returns (r: Result<Request>)
    requires req.text == DEFAULT_REQUEST.text
    ensures r == WithText(req, codecs)
  {
    var decoded := req;
    if req.charset != [] {
      match codecs.decode(req.data, req.charset)
      case Decoded(text) =>
        decoded := req.(text := text);
      case UnicodeDecodeError =>
      case DecodeFailure(e) =>
        return Err(e);
    }
    r := Ok(decoded);
  }

  /** Lines 182-188 as the statements run: `form` or `json`, and whether a warning is logged. */
  method FillBody(req: Request, codecs: Codecs) returns (r: Result<Built>)
    ensures r == DecodeBody(req, codecs)
  {
    var filled := req;
    var warned := false;
    if req.mimetype == FORM_MIMETYPE {
      filled := req.(form := DictOf(codecs.parseQsl(req.text)));
    } else if req.mimetype == JSON_MIMETYPE {
      match codecs.loads(req.text)
      case Loaded(v) =>
        filled := req.(json := v);
      case JsonDecodeError =>
        warned := true;
      case LoadFailure(e) =>
        return Err(e);
    }
    r := Ok(Built(filled, warned));
  }
}
