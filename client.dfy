/** The HTTP client of src/lib/client.ts: how a request's URL, headers and
    body are chosen, the page/limit query string, and how a response becomes
    a value or one CliError carrying the status. The transport (fetch) is not
    modelled: a request is returned as data and a response is given as data. */
module Client {
  import opened Wrappers
  import opened Js
  import opened Failures

  datatype Verb = GET | POST | PATCH | DELETE

  /** What fetch is called with; the body is the object JSON.stringify encodes. */
  datatype HttpRequest = HttpRequest(verb: Verb, url: string, headers: map<string, string>, body: Option<Fields>)

  /** The parts of a fetch Response the client reads. */
  datatype Response = Response(status: int, statusText: string, text: string)

  /** JSON.parse: None where it throws. */
  type Parser = string -> Option<Value>

  const DefaultBaseUrl := "https://api.wahlu.com"
  const ApiVersion := "/v1"
  const UserAgent := "wahlu-cli"
  const JsonContentType := "application/json"

  /** A response is ok when its status is in the 2xx range. */
  predicate Ok(res: Response) {
    200 <= res.status <= 299
  }

  /** The base URL loses one trailing slash, if it has one. */
  function TrimTrailingSlash(s: string): (r: string)
    ensures r == s || r + "/" == s
    ensures r != s <==> (|s| > 0 && s[|s| - 1] == '/')
  {
    if |s| > 0 && s[|s| - 1] == '/' then s[..|s| - 1] else s
  }

  /** The headers of every request: bearer authorisation and the client's
      User-Agent always, a JSON Content-Type exactly when a body is sent, and
      nothing else. */
  predicate StandardHeaders(headers: map<string, string>, apiKey: string, hasBody: bool) {
    && headers.Keys <= {"Authorization", "User-Agent", "Content-Type"}
    && "Authorization" in headers && headers["Authorization"] == "Bearer " + apiKey
    && "User-Agent" in headers && headers["User-Agent"] == UserAgent
    && ("Content-Type" in headers <==> hasBody)
    && (hasBody ==> headers["Content-Type"] == JsonContentType)
  }

  /** URLSearchParams.toString for parameters whose names and values need no
      escaping (the names page and limit, decimal integers). */
  function EncodeParams(params: seq<(string, string)>): string {
    if params == [] then ""
    else if |params| == 1 then params[0].0 + "=" + params[0].1
    else params[0].0 + "=" + params[0].1 + "&" + EncodeParams(params[1..])
  }

  // ---------------------------------------------------------------------
  // Responses

  function HttpStatusLine(res: Response): string {
    "HTTP " + IntToString(res.status) + " " + res.statusText
  }

  /** The catch branch: the raw body text, or the status line when it is empty. */
  function FallbackMessage(res: Response): string {
    if res.text != "" then res.text else HttpStatusLine(res)
  }

  /** The first truthy of the nested error message and the top-level message,
      else "HTTP <status>"; the Error constructor turns a non-string message
      into its string form. */
  function ParsedMessage(json: Value, status: int): string {
    var nested := Member(Member(json, "error"), "message");
    var top := Member(json, "message");
    if Truthy(nested) then JsString(nested)
    else if Truthy(top) then JsString(top)
    else "HTTP " + IntToString(status)
  }

  /** The message of the CliError thrown for a non-2xx response. Reading a
      property of a body that parses to null throws inside the try, so the
      catch branch applies to it as to unparseable text. */
  function ErrorMessage(res: Response, parse: Parser): (m: string)
    ensures parse(res.text).None? && res.text != "" ==> m == res.text
    ensures parse(res.text).None? && res.text == "" ==> m == HttpStatusLine(res)
    ensures parse(res.text) == Some(Null) ==> m == FallbackMessage(res)
    ensures parse(res.text).Some? && !(parse(res.text).value.Null? || parse(res.text).value.Undefined?) ==>
      var json := parse(res.text).value;
      var nested := Member(Member(json, "error"), "message");
      var top := Member(json, "message");
      && (Truthy(nested) ==> m == JsString(nested))
      && (!Truthy(nested) && Truthy(top) ==> m == JsString(top))
      && (!Truthy(nested) && !Truthy(top) ==> m == "HTTP " + IntToString(res.status))
    ensures parse(res.text).Some? && !parse(res.text).value.Obj? && !(parse(res.text).value.Null? || parse(res.text).value.Undefined?) ==>
      m == "HTTP " + IntToString(res.status)
  {
    match parse(res.text)
    case None => FallbackMessage(res)
    case Some(json) =>
      if json.Null? || json.Undefined? then FallbackMessage(res)
      else ParsedMessage(json, res.status)
  }

  /** A body {"error": {"message": x}} gives the message x. */
  lemma NestedErrorMessage(res: Response, parse: Parser, x: string)
    requires parse(res.text) == Some(Obj([("error", Obj([("message", Str(x))]))]))
    requires x != ""
    ensures ErrorMessage(res, parse) == x
  {
  }

  /** An empty body, which JSON.parse rejects, gives "HTTP <status> <statusText>". */
  lemma EmptyBodyMessage(res: Response, parse: Parser)
    requires res.text == "" && parse("") == None
    ensures ErrorMessage(res, parse) == "HTTP " + IntToString(res.status) + " " + res.statusText
  {
  }

  /** The outcome of request(): a 2xx response yields its parsed body; any
      other yields one ApiError carrying the response's status. */
  function Settle(res: Response, parse: Parser): (r: Result<Value, Failure>)
    ensures !Ok(res) ==> r == Failure(ApiError(ErrorMessage(res, parse), res.status))
    ensures Ok(res) ==> (r.Success? <==> parse(res.text).Some?)
    ensures r.Success? ==> Ok(res) && Some(r.value) == parse(res.text)
    ensures r.Failure? ==> r.error == MalformedResponse || (r.error.ApiError? && r.error.status == res.status)
  {
    if !Ok(res) then Failure(ApiError(ErrorMessage(res, parse), res.status))
    else match parse(res.text)
      case Some(v) => Success(v)
      case None => Failure(MalformedResponse)
  }

  // ---------------------------------------------------------------------
  // The client

  /** The query string list() appends, spelled out case by case. */
  function QueryString(page: Option<int>, limit: Option<int>): string {
    match (page, limit)
    case (None, None) => ""
    case (Some(p), None) => "?page=" + IntToString(p)
    case (None, Some(l)) => "?limit=" + IntToString(l)
    case (Some(p), Some(l)) => "?page=" + IntToString(p) + "&limit=" + IntToString(l)
  }

  /** Appending page and then limit to URLSearchParams and encoding them
      gives the query string above; "?" is added only when there is one. */
  lemma EncodeBoth(path: string, p: string, l: string)
    ensures path + "?" + EncodeParams([("page", p), ("limit", l)]) == path + ("?page=" + p + "&limit=" + l)
  {
    assert [("page", p), ("limit", l)][1..] == [("limit", l)];
  }

  lemma EncodedQuery(path: string, page: Option<int>, limit: Option<int>, params: seq<(string, string)>)
    requires params == (if page.Some? then [("page", IntToString(page.value))] else [])
                     + (if limit.Some? then [("limit", IntToString(limit.value))] else [])
    ensures (if EncodeParams(params) != "" then path + "?" + EncodeParams(params) else path) ==
      path + QueryString(page, limit)
  {
    if page.Some? && limit.Some? {
      var p, l := IntToString(page.value), IntToString(limit.value);
      assert params == [("page", p), ("limit", l)];
      EncodeBoth(path, p, l);
    } else if page.Some? {
      assert params == [("page", IntToString(page.value))];
    } else if limit.Some? {
      assert params == [("limit", IntToString(limit.value))];
    } else {
      assert params == [];
    }
  }

  class WahluClient {
    const apiKey: string
    const baseUrl: string

    constructor (apiKey: string, baseUrl: string)
      ensures this.apiKey == apiKey
      ensures this.baseUrl == TrimTrailingSlash(baseUrl)
    {
      this.apiKey := apiKey;
      this.baseUrl := TrimTrailingSlash(baseUrl);
    }

    /** request(): the URL is the base URL, "/v1" and the path; the headers
        are filled in step by step. */
    method Request(verb: Verb, path: string, body: Option<Fields>) returns (req: HttpRequest)
      ensures req.verb == verb && req.body == body
      ensures req.url == baseUrl + ApiVersion + path
      ensures StandardHeaders(req.headers, apiKey, body.Some?)
    {
      var url := baseUrl + ApiVersion + path;
      var headers := map["Authorization" := "Bearer " + apiKey, "User-Agent" := UserAgent];
      if body.Some? {
        headers := headers["Content-Type" := JsonContentType];
      }
      req := HttpRequest(verb, url, headers, body);
    }

    method Get(path: string) returns (req: HttpRequest)
      ensures req.verb == GET && req.body == None
      ensures req.url == baseUrl + ApiVersion + path
      ensures StandardHeaders(req.headers, apiKey, false)
    {
      req := Request(GET, path, None);
    }

    /** list(): page and then limit are added as query parameters when given;
        with neither the path is used as it is. */
    method List(path: string, page: Option<int>, limit: Option<int>) returns (req: HttpRequest)
      ensures req.verb == GET && req.body == None
      ensures StandardHeaders(req.headers, apiKey, false)
      ensures req.url == baseUrl + ApiVersion + path + QueryString(page, limit)
    {
      var params: seq<(string, string)> := [];
      if page.Some? {
        params := params + [("page", IntToString(page.value))];
      }
      if limit.Some? {
        params := params + [("limit", IntToString(limit.value))];
      }
      var qs := EncodeParams(params);
      var target := if qs != "" then path + "?" + qs else path;
      EncodedQuery(path, page, limit, params);
      req := Request(GET, target, None);
      assert req.url == baseUrl + ApiVersion + (path + QueryString(page, limit));
    }

    method Post(path: string, body: Fields) returns (req: HttpRequest)
      ensures req.verb == POST && req.body == Some(body)
      ensures req.url == baseUrl + ApiVersion + path
      ensures StandardHeaders(req.headers, apiKey, true)
    {
      req := Request(POST, path, Some(body));
    }

    method Patch(path: string, body: Fields) returns (req: HttpRequest)
      ensures req.verb == PATCH && req.body == Some(body)
      ensures req.url == baseUrl + ApiVersion + path
      ensures StandardHeaders(req.headers, apiKey, true)
    {
      req := Request(PATCH, path, Some(body));
    }

    method Delete(path: string) returns (req: HttpRequest)
      ensures req.verb == DELETE && req.body == None
      ensures req.url == baseUrl + ApiVersion + path
      ensures StandardHeaders(req.headers, apiKey, false)
    {
      req := Request(DELETE, path, None);
    }
  }
}
