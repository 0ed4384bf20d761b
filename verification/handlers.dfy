/** The UI skill's HTTP handler: the handler name derived from the request's
    method and path, the keyword arguments passed along, the dispatch in
    `handle`, and the validation `handle_post_api_analyze` does before it
    calls the search service. */
module ApiHandlers {
  import opened Wrappers
  import Strings

  type Bytes = seq<bv8>

  /** The handler methods the class defines. */
  const DefinedHandlers: set<string> := {
    "handle_post_api_analyze",
    "handle_post_api_transaction_payload",
    "handle_post_api_notifications",
    "handle_unexpected_message"
  }

  /** The (lower-case) methods whose handlers receive the request body. */
  const BodyMethods: set<string> := {"post", "put", "patch"}

  /** `get_handler_name_and_kwargs`' name, as written: "handle_", the verb,
      "_", then the path with its leading slashes removed and every other
      slash turned into an underscore. Any other character is kept. */
  function HandlerName(verb: string, normalizedPath: string): (r: string)
  {
    "handle_" + verb + "_" + Strings.ReplaceChar(Strings.LStrip(normalizedPath, '/'), '/', '_')
  }

  /** A positional argument of a Python call: the handler's annotations are
      not enforced, so a caller may pass bytes where a string is expected. */
  datatype Arg = StrArg(s: string) | BytesArg(b: Bytes)

  /** `get_handler_name_and_kwargs`' keyword arguments: the body for the
      (string) methods post, put and patch, nothing for any other method. */
  function HandlerKwargs(verb: Arg, body: Arg): (r: map<string, Arg>)
  {
    if verb.StrArg? && verb.s in BodyMethods then map["body" := body] else map[]
  }

  /** The normalisation in `handle`: the method is lower-cased and trailing
      slashes are stripped from the path before the name is derived. */
  function Route(verb: string, path: string): (r: string)
  {
    HandlerName(Strings.AsciiLower(verb), Strings.RStrip(path, '/'))
  }

  /** Extra trailing slashes do not change the handler a request reaches. */
  lemma {:induction false} TrailingSlashIgnored(verb: string, path: string)
    ensures Route(verb, path + "/") == Route(verb, path)
  {
    Strings.RStripExtraSuffix(path, '/');
  }

  /** Extra leading slashes do not change the handler name either. */
  lemma {:induction false} LeadingSlashIgnored(verb: string, path: string)
    ensures HandlerName(verb, "/" + path) == HandlerName(verb, path)
  {
    Strings.LStripExtraPrefix(path, '/');
  }

  /** The letter case of the method does not matter: two methods equal up to
      ASCII case reach the same handler. */
  lemma MethodCaseIgnored(m1: string, m2: string, path: string)
    requires |m1| == |m2|
    requires forall i :: 0 <= i < |m1| ==> Strings.LowerChar(m1[i]) == Strings.LowerChar(m2[i])
    ensures Route(m1, path) == Route(m2, path)
  {
    Strings.AsciiLowerIs(m2, Strings.AsciiLower(m1));
  }

  /** The name derived from a path with exactly one leading slash: the rest
      of the path with its slashes turned into underscores. */
  lemma NameFor(verb: string, path: string, replaced: string)
    requires |path| >= 2 && path[0] == '/' && path[1] != '/'
    requires |replaced| == |path| - 1
    requires forall i :: 0 <= i < |replaced| ==> replaced[i] == (if path[i + 1] == '/' then '_' else path[i + 1])
    ensures HandlerName(verb, path) == "handle_" + verb + "_" + replaced
  {
    Strings.LStripNone(path[1..], '/');
    assert Strings.LStrip(path, '/') == path[1..];
    Strings.ReplaceCharIs(path[1..], '/', '_', replaced);
  }

  /** The handler names of the endpoints, spelled out from their parts. */
  lemma AnalyzeSpelled()
    ensures "handle_" + "post" + "_" + "api_analyze" == "handle_post_api_analyze"
  {
  }

  lemma NotificationsSpelled()
    ensures "handle_" + "post" + "_" + "api_notifications" == "handle_post_api_notifications"
  {
  }

  lemma TransactionPayloadAsWrittenSpelled()
    ensures "handle_" + "post" + "_" + "api_transaction-payload" == "handle_post_api_transaction-payload"
  {
  }

  lemma TransactionPayloadSpelled()
    ensures "handle_" + "post" + "_" + "api_transaction_payload" == "handle_post_api_transaction_payload"
  {
  }

  /** "post /api/analyze" reaches `handle_post_api_analyze`, a handler the
      class defines; with the lemmas above, so do "POST /api/analyze/" and
      any other spelling that differs in case or trailing slashes. */
  lemma AnalyzeRoute()
    ensures Route("post", "/api/analyze") == "handle_post_api_analyze"
    ensures Route("post", "/api/analyze") in DefinedHandlers
  {
    Strings.AsciiLowerIs("post", "post");
    Strings.RStripNone("/api/analyze", '/');
    NameFor("post", "/api/analyze", "api_analyze");
    AnalyzeSpelled();
  }

  lemma AnalyzeWithSlashSpelled()
    ensures "/api/analyze" + "/" == "/api/analyze/"
  {
  }

  /** Case and trailing slashes do not matter: "POST /api/analyze/" names
      the same handler as "post /api/analyze". */
  lemma AnalyzeRouteNormalised()
    ensures Route("POST", "/api/analyze/") == Route("post", "/api/analyze")
  {
    AnalyzeTrailingSlash();
    Strings.AsciiLowerIs("POST", "post");
    Strings.AsciiLowerIs("post", "post");
  }

  lemma AnalyzeTrailingSlash()
    ensures Strings.RStrip("/api/analyze/", '/') == Strings.RStrip("/api/analyze", '/')
  {
    AnalyzeWithSlashSpelled();
    Strings.RStripExtraSuffix("/api/analyze", '/');
  }

  /** Slashes and underscores both become underscores, so a path with an
      underscore where another has a slash names the same handler. */
  lemma NamesCollide(verb: string, path: string, i: int)
    requires |path| >= 2 && path[0] == '/' && path[1] != '/'
    requires 1 < i < |path| && path[i] == '/'
    ensures HandlerName(verb, path[..i] + "_" + path[i + 1..]) == HandlerName(verb, path)
  {
    var other := path[..i] + "_" + path[i + 1..];
    var replaced := Strings.ReplaceChar(path[1..], '/', '_');
    NameFor(verb, path, replaced);
    NameFor(verb, other, replaced);
  }

  datatype CallError = TypeError

  /** How an f-string renders an argument: a string as itself, bytes as
      their `repr`. */
  function ArgText(a: Arg): (r: string)
  {
    match a
    case StrArg(s) => s
    case BytesArg(b) => BytesRepr(b)
  }

  /** Python's `repr` of a bytes object: a `b` prefix, single quotes unless
      the bytes hold a single quote and no double quote, and escapes for the
      quote, backslash, tab, newline, carriage return and every byte outside
      printable ASCII. */
  function BytesRepr(b: Bytes): (r: string)
    ensures |r| >= 3 && r[0] == 'b'
  {
    var q := if 39 in b && 34 !in b then '"' else '\'';
    "b" + [q] + EscapeBytes(b, q) + [q]
  }

  function EscapeBytes(b: Bytes, q: char): (r: string)
    decreases |b|
  {
    if |b| == 0 then "" else EscapeByte(b[0], q) + EscapeBytes(b[1..], q)
  }

  function EscapeByte(c: bv8, q: char): (r: string)
  {
    var hex := "0123456789abcdef";
    if c as int == q as int || c == 92 then ['\\', c as char]
    else if c == 9 then "\\t"
    else if c == 10 then "\\n"
    else if c == 13 then "\\r"
    else if c < 32 || c >= 127 then "\\x" + [hex[c as int / 16], hex[c as int % 16]]
    else [c as char]
  }

  /** Calling `get_handler_name_and_kwargs` with positional arguments: it
      takes exactly three after `self` (method, normalised path, body), and
      any other count raises TypeError. The annotations are not enforced:
      only a path that is not a string raises, at its `lstrip('/')`. A bytes
      method renders as its `repr` in the name, which then names no handler,
      and takes no body; the body is passed along whatever its type. */
  function CallNameAndKwargs(args: seq<Arg>): (r: Result<(string, map<string, Arg>), CallError>)
    ensures r.Success? <==> |args| == 3 && args[1].StrArg?
    ensures r.Success? && args[0].StrArg? ==> r.value.0 == HandlerName(args[0].s, args[1].s)
    ensures r.Success? && args[0].BytesArg? ==> r.value.0 !in DefinedHandlers
    ensures r.Success? ==>
      && r.value.1.Keys <= {"body"}
      && ("body" in r.value.1 <==> args[0].StrArg? && args[0].s in BodyMethods)
      && ("body" in r.value.1 ==> r.value.1["body"] == args[2])
  {
    if |args| == 3 && args[1].StrArg? then
      var name := HandlerName(ArgText(args[0]), args[1].s);
      BytesMethodUndefined(args[0], args[1].s);
      Success((name, HandlerKwargs(args[0], args[2])))
    else Failure(TypeError)
  }

  /** A name derived from a bytes method starts "handle_b", and every
      handler the class defines starts "handle_p" or "handle_u". */
  lemma BytesMethodUndefined(verb: Arg, path: string)
    ensures verb.BytesArg? ==> HandlerName(ArgText(verb), path) !in DefinedHandlers
  {
    if verb.BytesArg? {
      var text := ArgText(verb);
      NameStartsWithVerb(text, path);
      HandlerNamesSeventh();
    }
  }

  /** The eighth character of a handler name is the first of its method. */
  lemma NameStartsWithVerb(verb: string, path: string)
    requires |verb| > 0
    ensures |HandlerName(verb, path)| > 7 && HandlerName(verb, path)[7] == verb[0]
  {
  }

  lemma HandlerNamesSeventh()
    ensures forall h :: h in DefinedHandlers ==> |h| > 7 && h[7] != 'b'
  {
  }

  /** Where `handle` sends a request: the named handler with its keyword
      arguments, or `handle_unexpected_message` when the class has no
      attribute of that name. */
  datatype Dispatch = Call(name: string, kwargs: map<string, Arg>) | Unexpected

  /** `handle` as written: it passes four arguments (method, normalised path,
      raw path, body) to the three-parameter `get_handler_name_and_kwargs`,
      so every request raises TypeError before any handler runs. */
  function HandleAsWritten(verb: string, path: string, body: Bytes): (r: Result<Dispatch, CallError>)
    ensures r == Failure(TypeError)
  {
    var m := Strings.AsciiLower(verb);
    var call := CallNameAndKwargs([StrArg(m), StrArg(Strings.RStrip(path, '/')), StrArg(path), BytesArg(body)]);
    match call
    case Failure(e) => Failure(e)
    case Success((name, kwargs)) => Success(if name in DefinedHandlers then Call(name, kwargs) else Unexpected)
  }

  /** The handler name with hyphens in the path also turned into underscores,
      so that a path such as "/api/transaction-payload" names the method
      whose docstring says it handles that path. */
  function IntendedHandlerName(verb: string, normalizedPath: string): (r: string)
    ensures |r| == |HandlerName(verb, normalizedPath)|
    ensures r[..8 + |verb|] == "handle_" + verb + "_"
    ensures forall i :: 8 + |verb| <= i < |r| ==> r[i] != '/' && r[i] != '-'
  {
    var rest := Strings.ReplaceChar(Strings.LStrip(normalizedPath, '/'), '/', '_');
    "handle_" + verb + "_" + Strings.ReplaceChar(rest, '-', '_')
  }

  /** The correction changes nothing for a path without hyphens. */
  lemma IntendedAgreesWithoutHyphen(verb: string, normalizedPath: string)
    requires forall j :: 0 <= j < |normalizedPath| ==> normalizedPath[j] != '-'
    ensures IntendedHandlerName(verb, normalizedPath) == HandlerName(verb, normalizedPath)
  {
    var stripped := Strings.LStrip(normalizedPath, '/');
    Strings.LStripKeepsAbsent(normalizedPath, '/', '-');
    var rest := Strings.ReplaceChar(stripped, '/', '_');
    Strings.ReplaceCharKeepsAbsent(stripped, '/', '_', '-');
    Strings.ReplaceCharAbsent(rest, '-', '_');
    assert HandlerName(verb, normalizedPath) == "handle_" + verb + "_" + rest;
  }

  /** `handle` with the evident intent: the name is derived from the method
      and the normalised path (hyphens included), and the request goes to the
      handler of that name with its keyword arguments, or to
      `handle_unexpected_message`. */
  function Handle(verb: string, path: string, body: Bytes): (r: Dispatch)
    ensures r.Call? ==> r.name in DefinedHandlers
    ensures r.Call? ==> ("body" in r.kwargs <==> Strings.AsciiLower(verb) in BodyMethods)
    ensures (forall j :: 0 <= j < |path| ==> path[j] != '-') ==>
      && (r.Call? <==> Route(verb, path) in DefinedHandlers)
      && (r.Call? ==> r.name == Route(verb, path))
  {
    var m := Strings.AsciiLower(verb);
    var name := IntendedHandlerName(m, Strings.RStrip(path, '/'));
    HyphenFreeRouteAgrees(m, path);
    if name in DefinedHandlers then Call(name, HandlerKwargs(StrArg(m), BytesArg(body))) else Unexpected
  }

  /** For a path without hyphens the corrected name is the name as written:
      the two fixes of `handle` are independent. */
  lemma HyphenFreeRouteAgrees(m: string, path: string)
    ensures (forall j :: 0 <= j < |path| ==> path[j] != '-') ==>
      IntendedHandlerName(m, Strings.RStrip(path, '/')) == HandlerName(m, Strings.RStrip(path, '/'))
  {
    if forall j :: 0 <= j < |path| ==> path[j] != '-' {
      var normalized := Strings.RStrip(path, '/');
      assert forall j :: 0 <= j < |normalized| ==> normalized[j] == path[j];
      IntendedAgreesWithoutHyphen(m, normalized);
    }
  }

  /** As written, a hyphen in the path survives into the handler name, and no
      handler the class defines has a hyphen in its name: such a request
      always falls through to `handle_unexpected_message`. */
  lemma HyphenNeverRouted(verb: string, path: string, i: int)
    requires 0 <= i < |Strings.LStrip(Strings.RStrip(path, '/'), '/')|
    requires Strings.LStrip(Strings.RStrip(path, '/'), '/')[i] == '-'
    ensures Route(verb, path) !in DefinedHandlers
  {
    var m := Strings.AsciiLower(verb);
    var rest := Strings.LStrip(Strings.RStrip(path, '/'), '/');
    HyphenSurvives(m, rest, i);
    HyphenatedUndefined(HandlerName(m, Strings.RStrip(path, '/')), 8 + |m| + i);
  }

  /** A hyphen of the stripped path sits at its offset in the name. */
  lemma HyphenSurvives(m: string, rest: string, i: int)
    requires 0 <= i < |rest| && rest[i] == '-'
    ensures var name := "handle_" + m + "_" + Strings.ReplaceChar(rest, '/', '_');
      8 + |m| + i < |name| && name[8 + |m| + i] == '-'
  {
  }

  /** A name with a hyphen is not one of the defined handlers. */
  lemma HyphenatedUndefined(name: string, k: int)
    requires 0 <= k < |name| && name[k] == '-'
    ensures name !in DefinedHandlers
  {
    NoHyphenInHandlerNames();
  }

  /** None of the defined handler names contains a hyphen. */
  lemma NoHyphenInHandlerNames()
    ensures forall h, k :: h in DefinedHandlers && 0 <= k < |h| ==> h[k] != '-'
  {
  }

  /** The example that shows it: the documented path of the transaction
      payload handler. */
  lemma TransactionPayloadMissed()
    ensures Route("post", "/api/transaction-payload") == "handle_post_api_transaction-payload"
    ensures Route("post", "/api/transaction-payload") !in DefinedHandlers
  {
    TransactionPayloadName();
    HyphenInPath("post", "/api/transaction-payload", 16);
  }

  lemma TransactionPayloadName()
    ensures Route("post", "/api/transaction-payload") == "handle_post_api_transaction-payload"
  {
    Strings.AsciiLowerIs("post", "post");
    Strings.RStripNone("/api/transaction-payload", '/');
    NameFor("post", "/api/transaction-payload", "api_transaction-payload");
    TransactionPayloadAsWrittenSpelled();
  }

  /** The same for a path written with exactly one leading slash and no
      trailing one, the way the endpoints are documented. */
  lemma HyphenInPath(verb: string, path: string, i: int)
    requires |path| >= 2 && path[0] == '/' && path[1] != '/' && path[|path| - 1] != '/'
    requires 1 <= i < |path| && path[i] == '-'
    ensures Route(verb, path) !in DefinedHandlers
  {
    Strings.RStripNone(path, '/');
    Strings.LStripNone(path[1..], '/');
    assert Strings.LStrip(path, '/') == path[1..];
    HyphenNeverRouted(verb, path, i - 1);
  }

  /** The corrected name of a path with exactly one leading slash and no
      trailing one: slashes and hyphens of the rest both become underscores. */
  lemma IntendedNameFor(verb: string, path: string, intended: string)
    requires |path| >= 2 && path[0] == '/' && path[1] != '/' && path[|path| - 1] != '/'
    requires |intended| == |path| - 1
    requires forall i :: 0 <= i < |intended| ==> intended[i] == (if path[i + 1] in "/-" then '_' else path[i + 1])
    ensures IntendedHandlerName(verb, Strings.RStrip(path, '/')) == "handle_" + verb + "_" + intended
  {
    Strings.RStripNone(path, '/');
    Strings.LStripNone(path[1..], '/');
    assert Strings.LStrip(path, '/') == path[1..];
    var rest := Strings.ReplaceChar(path[1..], '/', '_');
    Strings.ReplaceCharIs(rest, '-', '_', intended);
  }

  /** With the intended naming, the documented path of the transaction
      payload handler reaches it, with the body passed along. */
  lemma TransactionPayloadReached(body: Bytes)
    ensures Handle("POST", "/api/transaction-payload", body)
      == Call("handle_post_api_transaction_payload", map["body" := BytesArg(body)])
  {
    TransactionPayloadSpelled();
    Strings.AsciiLowerIs("POST", "post");
    IntendedNameFor("post", "/api/transaction-payload", "api_transaction_payload");
  }

  /** With the intended naming, the analyze endpoint is still reached. */
  lemma AnalyzeReached(body: Bytes)
    ensures Handle("POST", "/api/analyze", body) == Call("handle_post_api_analyze", map["body" := BytesArg(body)])
  {
    AnalyzeSpelled();
    Strings.AsciiLowerIs("POST", "post");
    IntendedNameFor("post", "/api/analyze", "api_analyze");
  }

  /** With the intended naming, the notifications endpoint is reached. */
  lemma NotificationsReached(body: Bytes)
    ensures Handle("POST", "/api/notifications", body) == Call("handle_post_api_notifications", map["body" := BytesArg(body)])
  {
    NotificationsSpelled();
    Strings.AsciiLowerIs("POST", "post");
    IntendedNameFor("post", "/api/notifications", "api_notifications");
  }

  /** A JSON value as `json.loads` returns it. */
  datatype Json =
    | JNull
    | JBool(b: bool)
    | JNum(n: int)
    | JStr(s: string)
    | JArr(items: seq<Json>)
    | JObj(fields: map<string, Json>)

  /** Python truthiness of a decoded JSON value. */
  predicate Truthy(j: Json) {
    match j
    case JNull => false
    case JBool(b) => b
    case JNum(n) => n != 0
    case JStr(s) => |s| > 0
    case JArr(items) => |items| > 0
    case JObj(fields) => |fields| > 0
  }

  /** The request body after UTF-8 decoding and JSON parsing: either of them
      can fail with a ValueError carrying a message. */
  datatype ParsedBody = Malformed(message: string) | Parsed(json: Json)

  /** How `handle_post_api_analyze` answers before any network call: a
      rejection with a status, or the search parameters it would send. */
  datatype Precheck = Rejected(status: int, statusText: string, error: string) | Search(params: map<string, Json>)

  const QueryRequired: string := "Query parameter is required."
  const InternalErrorMessage: string := "An internal error occurred"
  const DefaultMaxResults: int := 25
  const DefaultPage: int := 0

  /** `dict.get` with a default. */
  function Get(fields: map<string, Json>, key: string, default: Json): (r: Json)
    ensures key in fields ==> r == fields[key]
    ensures key !in fields ==> r == default
  {
    if key in fields then fields[key] else default
  }

  /** The part of `handle_post_api_analyze` before the search request: a body
      that does not decode is a 400 with the decoder's message; a decoded
      value with no `get` (anything but an object) is a 500; a missing or
      falsy `query` is a 400; otherwise the search runs with `max_results`
      (default 25) and `page` (default 0). */
  function AnalyzePrecheck(body: ParsedBody): (r: Precheck)
    ensures r.Search? <==>
      body.Parsed? && body.json.JObj? && "query" in body.json.fields && Truthy(body.json.fields["query"])
    ensures r.Rejected? ==>
      (r.status == 400 && r.statusText == "Bad Request") ||
      (r.status == 500 && r.statusText == "Internal Server Error" && r.error == InternalErrorMessage)
    ensures r.Rejected? && r.status == 500 <==> body.Parsed? && !body.json.JObj?
    ensures body.Malformed? ==> r.Rejected? && r.error == body.message
    ensures r.Search? ==>
      var fields := body.json.fields;
      && r.params.Keys == {"text", "count", "page"}
      && r.params["text"] == fields["query"]
      && r.params["count"] == (if "max_results" in fields then fields["max_results"] else JNum(DefaultMaxResults))
      && r.params["page"] == (if "page" in fields then fields["page"] else JNum(DefaultPage))
  {
    match body
    case Malformed(message) => Rejected(400, "Bad Request", message)
    case Parsed(json) =>
      if !json.JObj? then Rejected(500, "Internal Server Error", InternalErrorMessage)
      else
        var query := Get(json.fields, "query", JNull);
        var maxResults := Get(json.fields, "max_results", JNum(DefaultMaxResults));
        var page := Get(json.fields, "page", JNum(DefaultPage));
        if !Truthy(query) then Rejected(400, "Bad Request", QueryRequired)
        else Search(map["text" := query, "count" := maxResults, "page" := page])
  }

  /** A request is turned away with 400 exactly when its body does not decode
      or its query is missing or empty; an empty string, zero, false, null and
      empty containers all count as empty. */
  lemma BadRequestIff(body: ParsedBody)
    ensures AnalyzePrecheck(body).Rejected? && AnalyzePrecheck(body).status == 400 <==>
      body.Malformed? ||
      (body.json.JObj? && !("query" in body.json.fields && Truthy(body.json.fields["query"])))
  {
  }

  /** Examples from the handler's contract: an empty query is rejected with
      the fixed message, a query alone gets the defaults, explicit paging is
      passed through. */
  lemma AnalyzeExamples()
    ensures AnalyzePrecheck(Parsed(JObj(map["query" := JStr("")]))) == Rejected(400, "Bad Request", QueryRequired)
    ensures AnalyzePrecheck(Parsed(JObj(map[]))) == Rejected(400, "Bad Request", QueryRequired)
    ensures AnalyzePrecheck(Parsed(JObj(map["query" := JStr("eth")])))
      == Search(map["text" := JStr("eth"), "count" := JNum(25), "page" := JNum(0)])
    ensures AnalyzePrecheck(Parsed(JObj(map["query" := JStr("eth"), "max_results" := JNum(5), "page" := JNum(2)])))
      == Search(map["text" := JStr("eth"), "count" := JNum(5), "page" := JNum(2)])
    ensures AnalyzePrecheck(Parsed(JArr([JStr("eth")]))).status == 500
  {
  }
}
