/** The request layer of the Trello client: what one call of `fetch_json`
    sends (URL, headers, query parameters, body) and how the transport's
    reply is classified. The transport itself is abstract: a request is a
    value, and the reply to it is a `Response` supplied by the caller. */
module Http {
  import opened Values

  /** Fixed base of every `fetch_json` URL. */
  const ApiBase: string := "https://api.trello.com/1/"
  /** Base of the webhook-creation URL, which does not go through `fetch_json`. */
  const HookBase: string := "https://trello.com/1/tokens/"
  const JsonContentType: string := "application/json; charset=utf-8"
  const JsonAccept: string := "application/json"

  type Headers = map<string, string>
  type Params = map<string, Value>
  /** File attachments: field name to (abstract) file content. */
  type Files = map<string, string>

  /** The OAuth1 signing context: only which four credential values it is
      built from; the signature computation belongs to a foreign library. */
  datatype SigningContext = OAuth1(
    clientKey: Option<string>,
    clientSecret: Option<string>,
    resourceOwnerKey: Option<string>,
    resourceOwnerSecret: Option<string>)

  /** `json.dumps(post_args)`: the serialised text is kept abstract. */
  datatype Payload = JsonDump(args: map<string, Value>)

  /** A request handed to the transport. `Call` is `http_service.request`
      (used by `fetch_json`); `FormPost` is `http_service.post` (used when
      creating a webhook). */
  datatype Request =
    | Call(verb: string, url: string, params: Params, headers: Headers,
           data: Option<Payload>, files: Option<Files>, auth: Option<SigningContext>)
    | FormPost(url: string, form: map<string, Value>, auth: Option<SigningContext>)

  /** The transport's reply: status code, raw text and the decoded JSON body. */
  datatype Response<J> = Response(status: int, text: string, json: J)

  /** The exceptions the core raises. */
  datatype Error =
    | PathIndexError                               // `uri_path[0]` on an empty path
    | Unauthorized(message: string, status: int)
    | ResourceUnavailable(message: string, status: int)
    | TokenError(message: string)
    | HookCreationFailed(message: string)

  /** A value, or the exception raised instead of returning one. */
  datatype Outcome<+T> = Ok(value: T) | Raised(error: Error)

  /** Python truthiness of the `files` argument: `None` and `{}` are false. */
  predicate FilesTruthy(files: Option<Files>) {
    files.Some? && files.value != map[]
  }

  /** The content-type header is added for these methods when no file is attached. */
  predicate SetsContentType(httpMethod: string, files: Option<Files>) {
    httpMethod in {"POST", "PUT", "DELETE"} && !FilesTruthy(files)
  }

  /** The path with one leading `/` removed, if it has one. */
  function StripSlash(path: string): (rest: string)
    requires path != ""
    ensures path == rest || path == "/" + rest
    ensures path[0] == '/' <==> |rest| < |path|
  {
    if path[0] == '/' then path[1..] else path
  }

  /** The absolute URL of a resource path. */
  function Url(path: string): (url: string)
    requires path != ""
    ensures |ApiBase| <= |url| && url[..|ApiBase|] == ApiBase
    ensures url[|ApiBase|..] == StripSlash(path)
  {
    ApiBase + StripSlash(path)
  }

  /** A path with or without its leading separator names the same URL. */
  lemma {:induction false} UrlIgnoresLeadingSlash(path: string)
    requires path != "" && path[0] != '/'
    ensures Url("/" + path) == Url(path)
  {
    assert ("/" + path)[0] == '/';
    assert ("/" + path)[1..] == path;
  }

  /** At most one leading separator is removed: `//x` keeps one of them. */
  lemma {:induction false} UrlStripsAtMostOneSlash(path: string)
    requires path != ""
    ensures Url("//" + path) == ApiBase + "/" + path
    ensures Url("//" + path) != Url(path)
  {
    assert ("//" + path)[0] == '/';
    assert ("//" + path)[1..] == "/" + path;
    var u, v := Url("//" + path), Url(path);
    assert |u| == |ApiBase| + 1 + |path|;
    if path[0] == '/' {
      assert |v| == |ApiBase| + |path| - 1;
    } else {
      assert |v| == |ApiBase| + |path|;
    }
  }

  /** Two paths give the same URL exactly when they agree after the strip. */
  lemma {:induction false} UrlInjective(p: string, q: string)
    requires p != "" && q != ""
    ensures Url(p) == Url(q) <==> StripSlash(p) == StripSlash(q)
  {
    if Url(p) == Url(q) {
      assert Url(p)[|ApiBase|..] == Url(q)[|ApiBase|..];
    }
  }

  /** The headers `fetch_json` sends: the caller's, plus the user agent,
      the accepted type, and the content type when the method and the
      absence of attachments call for it. */
  function RequestHeaders(userAgent: string, headers: Headers, httpMethod: string,
                          files: Option<Files>): (r: Headers)
    ensures r.Keys == headers.Keys + {"User-Agent", "Accept"}
                      + (if SetsContentType(httpMethod, files) then {"Content-Type"} else {})
    ensures r["User-Agent"] == userAgent && r["Accept"] == JsonAccept
    ensures SetsContentType(httpMethod, files) ==> r["Content-Type"] == JsonContentType
    ensures forall h :: h in headers && h != "User-Agent" && h != "Accept"
                        && !(h == "Content-Type" && SetsContentType(httpMethod, files))
                        ==> r[h] == headers[h]
  {
    var withAgent := headers["User-Agent" := userAgent];
    var withType := if SetsContentType(httpMethod, files)
                    then withAgent["Content-Type" := JsonContentType]
                    else withAgent;
    withType["Accept" := JsonAccept]
  }

  /** The query parameters `fetch_json` sends: unchanged when the request is
      signed; otherwise the API key and the API secret ride along as `key`
      and `token`. */
  function SignedParams(auth: Option<SigningContext>, apiKey: Option<string>,
                        apiSecret: Option<string>, params: Params): (r: Params)
    ensures auth.Some? ==> r == params
    ensures auth.None? ==> r.Keys == params.Keys + {"key", "token"}
    ensures auth.None? ==> r["key"] == FromOption(apiKey) && r["token"] == FromOption(apiSecret)
    ensures forall k :: k in params && k != "key" && k != "token" ==> k in r && r[k] == params[k]
  {
    if auth.None? then params["key" := FromOption(apiKey)]["token" := FromOption(apiSecret)]
    else params
  }

  /** The body `fetch_json` sends: none when files are given (even `{}`),
      otherwise the serialised post arguments whenever they are given (even `{}`). */
  function Body(postArgs: Option<map<string, Value>>, files: Option<Files>): (r: Option<Payload>)
    ensures files.Some? ==> r.None?
    ensures files.None? ==> (r.Some? <==> postArgs.Some?)
    ensures r.Some? ==> postArgs.Some? && r.value == JsonDump(postArgs.value)
  {
    if files.None? && postArgs.Some? then Some(JsonDump(postArgs.value)) else None
  }

  /** The message both HTTP errors carry: the reply text and the URL. */
  function ErrorMessage(text: string, url: string): (message: string) {
    text + " at " + url
  }

  /** The status classification at the end of `fetch_json`: 401 is checked
      first, then every other status but 200 is a missing resource. */
  function Classify<J>(response: Response<J>, url: string): (r: Outcome<J>)
    ensures r.Ok? <==> response.status == 200
    ensures r.Ok? ==> r.value == response.json
    ensures response.status == 401 ==> r == Raised(Unauthorized(ErrorMessage(response.text, url), 401))
    ensures response.status != 200 && response.status != 401
            ==> r == Raised(ResourceUnavailable(ErrorMessage(response.text, url), response.status))
  {
    if response.status == 401 then Raised(Unauthorized(ErrorMessage(response.text, url), 401))
    else if response.status != 200 then
      Raised(ResourceUnavailable(ErrorMessage(response.text, url), response.status))
    else Ok(response.json)
  }

  /** Every failure carries the reply text and the URL, and the kind of
      failure depends on the status alone. */
  lemma {:induction false} ClassifyFailureCarriesTextAndUrl<J>(response: Response<J>, other: Response<J>, url: string)
    requires response.status != 200 && other.status == response.status
    ensures Classify(response, url).Raised? && Classify(other, url).Raised?
    ensures Classify(response, url).error.message == response.text + " at " + url
    ensures Classify(response, url).error.Unauthorized? <==> Classify(other, url).error.Unauthorized?
  {
  }
}
