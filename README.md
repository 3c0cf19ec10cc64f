# mwsgi request pipeline, in Dafny

mwsgi is a one-file WSGI micro-framework. An `App` holds one handler. For each
request, `App.__call__`:

- turns the WSGI environ into a `Request`: method, path, a read-only header
  view, mimetype, charset, query, body, text, form and json;
- calls the handler with `()`, `(req,)` or `(req, res)`, depending on how many
  parameters the handler names;
- infers a status when the handler set none;
- labels and serialises the result;
- hands the status line and the header pairs to `start_response`, and yields
  the body only when it is non-empty.

This project models that pipeline and proves what each step promises.

- `wrappers.dfy`: `Option`, `Result` and `Outcome`. The Python exceptions the
  pipeline can raise are `Error` values: `KeyError`, `TypeError`, an unknown
  status, a codec failure and a handler failure.
- `text.dfy`: the `str` operations the pipeline uses, over ASCII. These are
  digit matching, `int`/`str` conversion, `lower`, `replace` and
  `split(maxsplit=1)[0]`.
- `values.dfy`: a `Value` datatype for the Python values that flow through the
  pipeline, and Python truthiness as a predicate.
- `status_table.dfy`: `HTTP_STATUSES`. The lines are kept as written, and the
  dict comprehension that keys each line by its first field is modelled
  itself. It is proved never to fail, to have exactly the listed codes as keys,
  and to map each code to the line written for it, which starts with that code.
- `headers.dfy`:
  - the key normalisation of the environ's header variables, and `_s2any`;
  - the `content-length` clamp;
  - an insertion-ordered dict (`Items`) with `d[k]`, `d.get` and
    `d[k] = v`;
  - the class `HeaderView`, which stands for both `ReadOnlyHeaders` and
    `RewritableHeaders`. Its `items` field is the object's `__dict__`.
- `requests.dfy`: request construction. It is a chain of stage functions, one
  per group of assignments, with one `Build` function over them. The method
  `BuildRequest` runs the assignments in order and is proved equal to `Build`.
- `responses.dfy`:
  - arity dispatch, status inference, the default content type and the
    serialised payload;
  - the class `Response`, whose `status` and header view the pipeline updates
    in place.
- `application.dfy`: the whole call.
  - The function `Serve` specifies it.
  - The method `Call` performs it statement by statement and is proved equal
    to `Serve`. It writes the handler's header assignments one by one into a
    fresh `Response`.
  - The lemmas state what the server receives: the status, the headers and
    the body.

The handler is arbitrary user code, so it is an input. It is a parameter count,
a varargs flag, and a function from its arguments to an `Effect`: its return
value, the status it assigns to `res.status`, and its `res.headers[k] = v`
assignments in order. The library codecs are a `Codecs` value of functions,
taken as given: `cgi.parse_header`, `urllib.parse.parse_qsl`, `bytes.decode`,
`json.loads`, `json.dumps` and `str.encode`. The body stream is its byte
content.

Where the code differs from a natural reading of it, the model follows the
code, and lemmas state the difference:

- The mimetype is compared exactly as `cgi.parse_header` returns it. It is not
  lower-cased, so only the exact spellings fill `form` or `json`
  (`Requests.DecodeBody`).
- Header lookup lower-cases the key but does not map `_` to `-`. The request's
  view is built from the environ, and every key it holds has no underscore, so a
  key written with an underscore is never found in it
  (`Headers.UnderscoreKeyMissing`). `get` does not even lower-case the key
  (`Headers.HeaderView.Get`).
- A view keeps its entries in its instance dict, the same dict Python searches
  for the view's attributes. A handler that assigns a header named `get`, in any
  capitalisation, hides the view's `get` method. Labelling a result that has a
  default content type then raises TypeError (`Application.GetEntryFailsCall`).
- The clamp `max(v or 0, 0)` turns a negative integer into 0. A WSGI server
  passes `CONTENT_LENGTH` as a string, though, and `_s2any` leaves a signed
  string such as `"-5"` as a string. The comparison then raises TypeError, and
  the request fails before the handler runs (`Headers.SignedLengthRejected`,
  `Application.SignedLengthFailsCall`).
- A falsy `QUERY_STRING` that is not a string (None, say) gives an empty query,
  since `parse_qsl` returns no pairs for it (`Requests.WithQuery`).
- An empty `bytes` or `str` result still gets a content type. Only a falsy
  result of another kind is left unlabelled (`Responses.DefaultContentType`).

## Model

| member | source | states |
|---|---|---|
| StatusLines.EntriesAscending | mwsgi.py:21-77 | the lines are written in strictly increasing order of their codes, so no code is listed twice |
| StatusLines.NoLineFor500 | mwsgi.py:21-77 | no line of the status table is for 500 |
| StatusTable.CodeOf | mwsgi.py:19 | `int(x.split(maxsplit=1)[0])` for a first field of ASCII digits, a non-negative code; none where the field is missing or is not plain digits (a sign or `_`, which `int` accepts, never occurs in the table); `StatusTable.CodeOfLine` states it for the table's lines |
| StatusTable.Tabulate | mwsgi.py:18-79 | defines the comprehension: a later line with the same code replaces an earlier one, and a line with no code makes it raise; the lemmas below state what it gives |
| StatusTable.CodeOfLine | mwsgi.py:19 | `int(line.split(maxsplit=1)[0])` of a table line is the code the line was written with |
| StatusTable.TabulateLines | mwsgi.py:18-79 | the comprehension over the lines never raises; its keys are exactly the listed codes; each code maps to a line that starts with the code and a space |
| StatusTable.TabulateLast | mwsgi.py:18-79 | each line whose code no later line repeats is the value of its code |
| StatusTable.DistinctLines | mwsgi.py:18-79 | when the codes increase line by line, every line is the value of its own code |
| StatusTable.ListedLines | mwsgi.py:18-79 | every listed line of `HTTP_STATUSES` is the value of its own code |
| StatusTable.HttpStatuses | mwsgi.py:18-79 | `HTTP_STATUSES` has exactly the listed codes as keys, each code maps to the line written for it, and each value starts with its own code and a space |
| StatusTable.StatusText | mwsgi.py:129-131 | `status_text` succeeds exactly for a set status that the table lists, and the line starts with the status; otherwise it raises with that status |
| StatusTable.StatusTextListed | mwsgi.py:129-131 | for a listed code, `status_text` is the line written for it (`404 Not Found` for 404) |
| StatusTable.InferableStatusesListed | mwsgi.py:21-43 | 200, 204 and 404 are all keys of the table |
| StatusTable.NoInternalServerError | mwsgi.py:67-68 | 500 is not a key of the table |
| Text.DotIndex | mwsgi.py:99 | the position of the first `.`, or none when there is none |
| Text.IsDigits | mwsgi.py:97 | defines the match of `^\d+$`: one or more ASCII digits and nothing else |
| Text.IsDecimal | mwsgi.py:99 | defines the match of `^\d+\.\d+$`: digits, one dot, digits |
| Text.ValueOf | mwsgi.py:98 | defines `int(s)` of a digit string, most significant digit first; `Text.ValueOfSpell` states that it reads back `str(n)` |
| Text.RemoveAll | mwsgi.py:136 | `replace(pat, '')` never lengthens the string; `Text.RemoveAllPrefix` and `Text.RemoveAllAbsent` state what it deletes |
| Text.RemoveAllPrefix | mwsgi.py:136 | an occurrence of the pattern at the front is deleted, and the rest is treated as if it stood alone |
| Text.RemoveAllAbsent | mwsgi.py:136 | a string in which the pattern does not occur is left unchanged |
| Text.RemoveAllKeeps | mwsgi.py:136 | text in front of the first occurrence is kept as it is, and the rest is processed on its own |
| Text.FirstField | mwsgi.py:19 | defines `split(maxsplit=1)[0]`: the first run of non-whitespace, or none (IndexError) for a blank string; `Text.FirstFieldOf` states what it gives for a table line |
| Text.Spell | mwsgi.py:97-98 | `str(n)` is one or more digits with no leading zero |
| Text.ValueOfSpell | mwsgi.py:97-98 | `int` reads back `str(n)` as `n` |
| Text.Lower | mwsgi.py:146 | `lower()` keeps the length and lower-cases each character in place |
| Text.LowerIsLower | mwsgi.py:146 | a lower-cased key has no upper-case letter, and lower-casing again changes nothing |
| Text.Hyphenate | mwsgi.py:136 | `replace('_', '-')` keeps the length and changes exactly the underscores |
| Text.FirstFieldOf | mwsgi.py:19 | `split(maxsplit=1)[0]` of `word + " " + rest` is `word` |
| Values.Truthy | mwsgi.py:204-208 | defines `bool(v)`: None, False, zero, and empty bytes, strings, lists and dicts are falsy; `Responses.InferredStatus` states the statuses it picks |
| HeaderNames.IsHeaderVariable | mwsgi.py:138-139 | defines the filter: `CONTENT_LENGTH`, `CONTENT_TYPE`, or a name starting with `HTTP_` |
| HeaderNames.NormalKey | mwsgi.py:136 | defines the key a variable is filed under: `HTTP_` removed, `_` made `-`, lower-cased; `HeaderNames.NormalKeyIsNormal` states its shape |
| HeaderNames.HttpPrefixRemoved | mwsgi.py:136 | an `HTTP_` variable whose rest holds no further `HTTP_` is filed under that rest, hyphenated and lower-cased (`HTTP_X_FOO` under `x-foo`, `HTTP_AUTHORIZATION` under `authorization`) |
| HeaderNames.HttpInnerRemoved | mwsgi.py:136 | an inner `HTTP_` is removed too (`HTTP_X_HTTP_METHOD_OVERRIDE` under `x-method-override`) |
| HeaderNames.NormalKeyIsNormal | mwsgi.py:136 | every normalised key is lower-case and has no underscore |
| HeaderNames.ContentLengthKey | mwsgi.py:136-138 | `CONTENT_LENGTH` is filed under `content-length` |
| HeaderNames.ContentTypeKey | mwsgi.py:136-138 | `CONTENT_TYPE` is filed under `content-type` |
| HeaderNames.ContentKeysLower | mwsgi.py:171 | the keys the request looks up are already lower-case, so `h[k]` looks them up as written |
| Headers.Keys | mwsgi.py:223 | the keys of a dict, one per pair, in insertion order |
| Headers.Find | mwsgi.py:157 | `d.get(key)` finds a value exactly when the key is present |
| Headers.Put | mwsgi.py:164 | `d[key] = v` keeps an existing key's place or appends a new key; the key then holds `v`, and no other key's value changes |
| Headers.PutExisting | mwsgi.py:211-212 | writing back the value a key already holds leaves the dict unchanged |
| Headers.PutNew | mwsgi.py:164 | a new key is appended after every existing pair |
| Headers.GetOr | mwsgi.py:156-157 | `d.get(key, default)` is the key's value when present, else the default |
| Headers.S2Any | mwsgi.py:94-101 | defines `_s2any`: digits become an int, `digits.digits` a float, anything else is unchanged; the three lemmas below state its properties |
| Headers.S2AnySpell | mwsgi.py:97-98 | `_s2any` of the decimal spelling of a non-negative integer is that integer (in Python, for one of at most 4300 digits) |
| Headers.S2AnyShape | mwsgi.py:94-101 | `_s2any` returns a non-string unchanged; it turns a string into a non-negative number or leaves it unchanged; a string that is neither digits nor a decimal is unchanged |
| Headers.S2AnyIdempotent | mwsgi.py:94-101 | coercing twice is coercing once |
| Headers.ClampValue | mwsgi.py:142-143 | `max(v or 0, 0)` raises TypeError exactly for a truthy non-number; otherwise the result is a non-negative number: 0 for a falsy or negative value, else the value itself |
| Headers.Clamped | mwsgi.py:141-143 | defines the clamp of the view's `content-length` entry, if there is one; `Headers.ClampedSpec` states it |
| Headers.ClampedSpec | mwsgi.py:141-143 | the clamp fails exactly when a present `content-length` is truthy and not a number; otherwise the keys and every other entry are unchanged, and `content-length` becomes `max(v or 0, 0)` of its old value, a non-negative number |
| Headers.Comprehension | mwsgi.py:135-140 | defines the view's dict comprehension over the environ; the three lemmas below state its keys and values |
| Headers.ComprehensionKeys | mwsgi.py:135-140 | the view holds a key exactly when some `CONTENT_LENGTH`, `CONTENT_TYPE` or `HTTP_` variable normalises to it |
| Headers.ComprehensionLastWins | mwsgi.py:135-140 | when several variables normalise to one key, the key holds the coerced value of the last of them |
| Headers.ComprehensionKeysNormal | mwsgi.py:135-140 | every key of a view is lower-case and has no underscore |
| Headers.Subscript | mwsgi.py:167-168 | `environ[key]` succeeds exactly when the key is present, with its value; otherwise it raises KeyError for that key |
| Headers.Lookup | mwsgi.py:145-146 | `h[key]` succeeds exactly when the lower-cased key is present, with that key's value; otherwise it raises KeyError for the lower-cased key |
| Headers.UnderscoreKeyMissing | mwsgi.py:145-146 | `h[key]` with an underscore in `key` raises KeyError, whatever the environ holds |
| Headers.SignedNotCoerced | mwsgi.py:94-101 | `_s2any` leaves a string with a leading `-` as a string |
| Headers.SignedLengthRejected | mwsgi.py:141-143 | a signed `content-length` string, the last one filed under that key, makes the clamp raise TypeError |
| Headers.HeaderView.ReadOnly | mwsgi.py:134-140 | a read-only view holds the filtered, normalised, coerced comprehension |
| Headers.HeaderView.Rewritable | mwsgi.py:159-161 | a rewritable view starts empty |
| Headers.HeaderView.ClampContentLength | mwsgi.py:141-143 | the view is replaced by the clamped dict, or left as it was when the clamp raises |
| Headers.HeaderView.Index | mwsgi.py:145-146 | `h[key]` is the entry for the lower-cased key, or KeyError |
| Headers.HeaderView.Get | mwsgi.py:156-157 | `h.get(key, default)` looks the key up as given: its value when present, else the default; when the view holds an entry named `get`, that entry hides the method and the call raises TypeError |
| Headers.HeaderView.Set | mwsgi.py:163-164 | on a rewritable view, `h[key] = v` sets the lower-cased key in place; a read-only view raises TypeError and is unchanged |
| Requests.DEFAULT_REQUEST | mwsgi.py:113-123 | the class attributes every request starts from: GET, `/`, text/plain, utf8, empty query, body, text and form, and json None |
| Requests.DictOf | mwsgi.py:173 | defines `dict(pairs)`; the two lemmas below state its keys and values |
| Requests.DictOfKeys | mwsgi.py:173 | `dict(pairs)` has exactly the keys of the pairs |
| Requests.DictOfLastWins | mwsgi.py:173 | each key of `dict(pairs)` holds the value of its last pair |
| Requests.ParseContentType | mwsgi.py:170-171 | defines `cgi.parse_header(h['content-type'])`, which raises TypeError for a value that is not a string |
| Requests.CharsetOf | mwsgi.py:172 | defines `params.get('charset', 'utf8')` |
| Requests.ParseQuery | mwsgi.py:173 | defines `dict(parse_qsl(q))`: a string is parsed, a falsy value gives `{}`, and anything else raises TypeError; `Requests.WithQuery` states it |
| Requests.Read | mwsgi.py:174 | `read(n)` returns a prefix of the stream of length `min(n, len)` for `n >= 0`, and the whole stream for a negative `n` or None; a bool reads 0 or 1 bytes; any other size, a float among them, raises TypeError |
| Requests.DecodeText | mwsgi.py:176-180 | an empty charset, or a UnicodeDecodeError, leaves the text `''`; any other decode error propagates as the error the codec gave |
| Requests.Head | mwsgi.py:166-169 | a missing `REQUEST_METHOD`, then a missing `PATH_INFO`, raises KeyError for that name; then the clamp raises TypeError exactly when `content-length` is truthy and not a number; on success method and path come from the environ, the view is the comprehension with `content-length` set to `max(v or 0, 0)`, and every other field keeps its default |
| Requests.WithContentType | mwsgi.py:170-172 | a missing `content-type` raises KeyError and a non-string one TypeError; otherwise mimetype and charset come from `parse_header` with `utf8` as the default charset, and nothing else changes |
| Requests.WithQuery | mwsgi.py:173 | a missing `QUERY_STRING` raises KeyError; a string gives `dict(parse_qsl(...))`, a falsy value the empty query, and any other value TypeError; nothing else changes |
| Requests.WithData | mwsgi.py:174 | a missing `content-length` raises KeyError and one that is neither an int, a bool nor None TypeError; otherwise data is a prefix of the stream of the length asked for |
| Requests.WithText | mwsgi.py:176-180 | only the text changes, to the decoded body; the request fails exactly when decoding fails other than by UnicodeDecodeError, with the codec's error |
| Requests.DecodeBody | mwsgi.py:182-188 | form is filled only for the exact form mimetype and json only for the exact JSON mimetype; a JSONDecodeError leaves json as it was and sets the warning flag; any other exception from `json.loads` propagates, and nothing else fails |
| Requests.BuiltRequest | mwsgi.py:166-188 | a built request holds the environ's method and path, its headers with `content-length` set to `max(v or 0, 0)` of the environ's value, the content type's mimetype and charset, the query, a prefix of the body, its text, and form/json only for their mimetypes; a warning is logged exactly on a JSON error |
| Requests.BuildNeeds | mwsgi.py:167-174 | a request is built only when `REQUEST_METHOD`, `PATH_INFO` and `QUERY_STRING` are present and some variables are filed under `content-type` and `content-length` |
| Requests.MissingContentType | mwsgi.py:169-171 | with no `content-type` variable, building fails with KeyError('content-type') |
| Requests.OpenRequest | mwsgi.py:166-169 | the assignments of method, path and the read-only clamped view, in order, give `Head` |
| Requests.Build | mwsgi.py:166-188 | defines request construction as the stages in order, stopping at the first exception; the lemmas below and `Requests.BuiltRequest` state what it gives |
| Requests.BuildRequest | mwsgi.py:166-188 | the assignments of request construction, in order, give `Build` |
| Requests.DecodeInto | mwsgi.py:176-180 | the decoding statements, run on a request whose text is still `''`, give `WithText` |
| Requests.FillBody | mwsgi.py:182-188 | the form and json statements, in order, give `DecodeBody` |
| Responses.Dispatch | mwsgi.py:195-200 | varargs, or two or more parameters, give `(req, res)`; otherwise the handler gets as many arguments as it names |
| Responses.DispatchFits | mwsgi.py:195-200 | a handler is never passed more positional arguments than it names unless it takes varargs, and gets `res` exactly when it can take two |
| Responses.InferredStatus | mwsgi.py:204-208 | a set status is kept; otherwise None gives 404, a falsy result 204 and a truthy one 200, each iff |
| Responses.InferredStatusListed | mwsgi.py:204-208 | every inferred status is a key of the table |
| Responses.DefaultContentType | mwsgi.py:210-219 | bytes default to octet-stream and str to text/plain, even when empty; another value has a default exactly when it is truthy, and it is application/json |
| Responses.Payload | mwsgi.py:210-220 | bytes pass unchanged, str is encoded, another truthy value becomes the encoding of its `json.dumps` text, and a falsy one is unchanged; it fails exactly when `json.dumps` does; whatever truthy data results is bytes |
| Responses.Body | mwsgi.py:225-226 | defines `if data: yield data`; `Responses.BodyOfPayload` states it |
| Responses.BodyOfPayload | mwsgi.py:225-226 | a body is yielded exactly when the data sent is truthy, and it is that data |
| Responses.DefaultedHeaders | mwsgi.py:210-219 | defines the labelling of the handler's headers with the default content type; `Responses.DefaultedHeadersSpec` states it |
| Responses.DefaultedHeadersSpec | mwsgi.py:210-219 | labelling raises TypeError exactly when the result has a default and the handler wrote a `get` entry; otherwise an existing content type is kept and the dict unchanged, or the default is appended last |
| Responses.Response.constructor | mwsgi.py:190-191 | a new response has no status and an empty rewritable view |
| Responses.Response.StatusLine | mwsgi.py:129-131 | `status_text` succeeds exactly for a listed status, with the line written for it, which starts with the status |
| Responses.Response.InferStatus | mwsgi.py:204-208 | the status becomes the inferred one |
| Responses.Response.Label | mwsgi.py:210-219 | `res.headers['content-type'] = res.headers.get('content-type', m)` raises TypeError and changes nothing when a `get` entry exists; otherwise content-type keeps its value or becomes `m` |
| Responses.Response.Serialise | mwsgi.py:210-220 | when labelling raises, the headers are unchanged and the error is returned; otherwise the headers become the defaulted headers and the returned data is the payload |
| Application.Arguments | mwsgi.py:195-202 | the handler gets the request exactly when it takes one argument or more, and `res` exactly when it takes two |
| Application.Reachable | mwsgi.py:202 | a handler not given `res` sets no status and no header; its result is kept |
| Application.ApplyEdits | mwsgi.py:163-164 | defines the handler's `res.headers[k] = v` assignments, in order; the lemmas below state their effect |
| Application.EditsLastWin | mwsgi.py:163-164 | after the handler's assignments, a key holds the value of the last assignment to it, in any capitalisation |
| Application.EditedKeyPresent | mwsgi.py:163-164 | a key some assignment writes to is present afterwards |
| Application.EditsUntouched | mwsgi.py:163-164 | a key no assignment writes to keeps its value |
| Application.Respond | mwsgi.py:204-226 | defines what follows the handler: status inference, serialisation, the status line and the body; the lemmas below state it |
| Application.RespondStatus | mwsgi.py:204-222 | the call fails after the handler exactly when labelling raises, serialising fails, or the handler set an unlisted status; otherwise the status line starts with the inferred status |
| Application.RespondLine | mwsgi.py:204-223 | the status line sent is the table's line for the status, as written |
| Application.GetEntryFailsCall | mwsgi.py:210-219 | a handler that writes a header named `get` and returns data with a default content type makes the call raise TypeError |
| Application.NoResultIsNotFound | mwsgi.py:204-226 | with no status and no result, the reply is 404 with only the handler's headers and no body |
| Application.RespondContentType | mwsgi.py:210-223 | the emitted content type is the last one the handler assigned |
| Application.RespondDefaultContentType | mwsgi.py:210-223 | when the handler assigned no content type, the default for the result is appended after the handler's headers, or none is added |
| Application.RespondBody | mwsgi.py:225-226 | a body is yielded exactly when the data sent is truthy, and it is that data |
| Application.WithoutResponse | mwsgi.py:195-223 | a handler not given `res` gets at most a content-type header and a status of 200, 204 or 404 |
| Application.WarnsOnlyOnBadJson | mwsgi.py:184-188 | a warning is logged only for a built request whose JSON body does not parse, and its json is None |
| Application.SignedLengthFailsCall | mwsgi.py:141-143 | a signed `content-length` string fails the whole call with TypeError before the handler runs, with no warning |
| Application.WriteHeaders | mwsgi.py:163-164 | the handler's assignments, made one by one, give `ApplyEdits` |
| Application.Emit | mwsgi.py:204-226 | status inference, serialisation and the status lookup on a fresh response, in order, give `Respond` |
| Application.Serve | mwsgi.py:166-226 | defines the whole call: build, dispatch, run the handler, respond, and whether a warning is logged |
| Application.Call | mwsgi.py:166-226 | the whole call, statement by statement, gives `Serve` |

## Left out

- The bootstrap (`app_type`, argparse, importlib, the wsgiref server), the logger set-up, and the text of the logged warning. These are command-line and I/O concerns; only whether a warning is logged is kept.
- The library codecs are not reimplemented. `cgi.parse_header`, `urllib.parse.parse_qsl`, `bytes.decode`, `json.loads`, `json.dumps` and `str.encode` are parameters, and their results are taken as given.
- `inspect.getfullargspec` is reduced to the parameter count and the varargs flag.
- The handler's own code is reduced to its effect on the pipeline: its result, its status assignment and its header assignments. Changes it makes to `req`, deletions from `res.headers`, or assigning `res.headers` or `res.status` a new object are not modelled. A status is an integer or unset.
- The generator: `yield` becomes an optional body.
- `start_response` becomes the returned status line and header pairs.
- `__repr__`, `__str__` and the `App.handler` registration are display or set-up only. A call with no handler registered is not modelled.
- The environ is a sequence of name and value pairs. A Python dict never repeats a name, and nothing is claimed for a sequence that does.
- Text.Lower: lower-cases ASCII letters only, while Python's `str.lower` also lower-cases other letters.
- Text.IsDigits: recognises ASCII digits only, while the `\d` of `re` also matches other Unicode digits. A trailing newline, which `$` lets through, is not accepted.
- Text.IsSpace: covers ASCII whitespace only, among the characters `str.split` treats as whitespace.
- Values.Value: a float is held as its decimal spelling rather than as a number. `bytes` and `bytearray` are one case. A decimal with a non-zero digit that Python rounds to `0.0`, such as `"0." + "0" * 400 + "1"`, is truthy here. Python would clamp such a `content-length` to 0 and read no bytes; here `read` raises TypeError.
- Headers.S2Any, Headers.S2AnySpell, Text.ValueOf: Python 3.11 and later, and the late security releases of earlier versions, limit `int()` of a string to 4300 digits by default (`sys.set_int_max_str_digits`) and raise ValueError beyond it. The limit can be changed or switched off in the interpreter's configuration. The model converts digit strings of any length, so it builds a request where such a Python would fail on a header of more than 4300 digits.
- The body stream `environ['wsgi.input']` is always present; it is given as its byte content.
- A lookup of a status the table does not list raises `UnknownStatus` here; in Python it is a KeyError for that status.
- Requests.ParseQuery, Requests.WithQuery: a non-empty `bytes` `QUERY_STRING` raises TypeError here. `parse_qsl` decodes it and returns pairs of bytes, which a query of strings cannot hold. Other truthy values that are not strings raise TypeError in recent Python versions and AttributeError in older ones; a WSGI server passes a string.
- Responses.Payload: `str.encode('utf8')` is taken to always succeed. A string holding a lone surrogate, which raises UnicodeEncodeError in Python, is not modelled.
- Headers.HeaderView.Get: a value stored under `get` is never callable here. In Python a callable one would be called in place of the method.
