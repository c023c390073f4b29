/** The Trello client: credentials fixed at construction, the request
    primitive `FetchJson`, webhook listing and creation, board and
    organization creation, and search. Every HTTP call is replaced by the
    request it would send (`sent`) and an abstract `response` standing for
    what the transport returns for it. */
module Client {
  import opened Values
  import opened Http
  import opened Domain
  import opened SearchSpec
  import opened SearchBuild

  /** `token or token_secret` decides whether requests are signed. */
  function SigningContextFor(apiKey: Option<string>, apiSecret: Option<string>,
                             token: Option<string>, tokenSecret: Option<string>): (r: Option<SigningContext>)
    ensures r.Some? <==> Truthy(token) || Truthy(tokenSecret)
    ensures r.Some? ==> r.value == OAuth1(apiKey, apiSecret, token, tokenSecret)
  {
    if Truthy(token) || Truthy(tokenSecret) then Some(OAuth1(apiKey, apiSecret, token, tokenSecret))
    else None
  }

  /** The two credential tests differ: an empty token signs nothing and yet
      does not make the client public-only. */
  lemma {:induction false} EmptyTokenNeitherSignsNorIsPublic(apiKey: Option<string>, apiSecret: Option<string>,
                                                              token: Option<string>, tokenSecret: Option<string>)
    ensures SigningContextFor(apiKey, apiSecret, token, tokenSecret).None? && token.Some?
            <==> token == Some("") && !Truthy(tokenSecret)
  {
    if token == Some("") {
      assert !Truthy(token);
    }
  }

  /** `token or self.resource_owner_key or self.api_secret`, as the webhook
      operations choose their token. */
  function HookToken(token: Option<string>, resourceOwnerKey: Option<string>,
                     apiSecret: Option<string>): (r: Option<string>)
    ensures r.None? <==> !Truthy(token) && !Truthy(resourceOwnerKey) && apiSecret.None?
    ensures Truthy(token) ==> r == token
    ensures !Truthy(token) && Truthy(resourceOwnerKey) ==> r == resourceOwnerKey
    ensures !Truthy(token) && !Truthy(resourceOwnerKey) ==> r == apiSecret
  {
    Or(Or(token, resourceOwnerKey), apiSecret)
  }

  /** An empty API secret is still a token: no TokenError, the empty
      string is used. */
  lemma {:induction false} EmptySecretIsAToken(token: Option<string>, resourceOwnerKey: Option<string>)
    requires !Truthy(token) && !Truthy(resourceOwnerKey)
    ensures HookToken(token, resourceOwnerKey, Some("")) == Some("")
  {
    assert Or(token, resourceOwnerKey) == resourceOwnerKey;
  }

  /** `_existing_hook_objs` on one element. */
  function HookFromJson(token: string, hook: HookJson): (webhook: WebHook) {
    WebHook(token, hook.id, hook.description, hook.idModel, hook.callbackURL, hook.active)
  }

  /** The query parameters of `search`: the query, the cards limit and the
      fixed result fields always; each filter only when it is truthy (a
      non-empty list, or `partial` as the string "true"); nothing else. */
  ghost predicate IsSearchQuery(params: Params, query: string, partialMatch: bool, models: seq<string>,
                                boardIds: seq<string>, orgIds: seq<string>, cardIds: seq<string>,
                                cardsLimit: int) {
    && "query" in params && "cards_limit" in params && "board_fields" in params
    && "member_fields" in params && "organization_fields" in params
    && ("partial" in params <==> partialMatch)
    && ("modelTypes" in params <==> models != [])
    && ("idBoards" in params <==> boardIds != [])
    && ("idOrganizations" in params <==> orgIds != [])
    && ("idCards" in params <==> cardIds != [])
    && params.Keys <= SearchParamNames
    && params["query"] == Str(query) && params["cards_limit"] == Int(cardsLimit)
    && (partialMatch ==> params["partial"] == Str("true"))
    && (models != [] ==> params["modelTypes"] == StrList(models))
    && (boardIds != [] ==> params["idBoards"] == StrList(boardIds))
    && (orgIds != [] ==> params["idOrganizations"] == StrList(orgIds))
    && (cardIds != [] ==> params["idCards"] == StrList(cardIds))
    && params["board_fields"] == StrList(["name,url,desc,closed"])
    && params["member_fields"] == StrList(["fullName,initials,username"])
    && params["organization_fields"] == StrList(["name,url,desc"])
  }

  /** Every name `search` may put in its query. */
  const SearchParamNames: set<string> :=
    {"query", "partial", "modelTypes", "idBoards", "idOrganizations", "idCards",
     "cards_limit", "board_fields", "member_fields", "organization_fields"}

  /** The query-building half of `search`. */
  method SearchQuery(query: string, partialMatch: bool, models: seq<string>, boardIds: seq<string>,
                     orgIds: seq<string>, cardIds: seq<string>, cardsLimit: int) returns (params: Params)
    ensures IsSearchQuery(params, query, partialMatch, models, boardIds, orgIds, cardIds, cardsLimit)
  {
    params := map["query" := Str(query)];
    if partialMatch {
      params := params["partial" := Str("true")];
    }
    if models != [] {
      params := params["modelTypes" := StrList(models)];
    }
    if boardIds != [] {
      params := params["idBoards" := StrList(boardIds)];
    }
    if orgIds != [] {
      params := params["idOrganizations" := StrList(orgIds)];
    }
    if cardIds != [] {
      params := params["idCards" := StrList(cardIds)];
    }
    params := params["cards_limit" := Int(cardsLimit)];
    params := params["board_fields" := StrList(["name,url,desc,closed"])];
    params := params["member_fields" := StrList(["fullName,initials,username"])];
    params := params["organization_fields" := StrList(["name,url,desc"])];
  }

  class TrelloClient {
    const apiKey: Option<string>
    const apiSecret: Option<string>
    const resourceOwnerKey: Option<string>
    const resourceOwnerSecret: Option<string>
    /** The signing context, `None` when requests are not signed. */
    const oauth: Option<SigningContext>
    /** Gates the operations that need a user (`token is None`). */
    const publicOnly: bool
    /** The value `generate_user_agent()` gives, which this model takes as given. */
    const userAgent: string

    constructor (apiKey: Option<string>, apiSecret: Option<string>, token: Option<string>,
                 tokenSecret: Option<string>, userAgent: string)
      ensures oauth == SigningContextFor(apiKey, apiSecret, token, tokenSecret)
      ensures publicOnly <==> token.None?
      ensures this.apiKey == apiKey && this.apiSecret == apiSecret
      ensures resourceOwnerKey == token && resourceOwnerSecret == tokenSecret
      ensures this.userAgent == userAgent
    {
      if Truthy(token) || Truthy(tokenSecret) {
        oauth := Some(OAuth1(apiKey, apiSecret, token, tokenSecret));
      } else {
        oauth := None;
      }
      publicOnly := token.None?;
      this.apiKey := apiKey;
      this.apiSecret := apiSecret;
      resourceOwnerKey := token;
      resourceOwnerSecret := tokenSecret;
      this.userAgent := userAgent;
    }

    /** The request `fetch_json` sends for these arguments. */
    function RequestFor(path: string, httpMethod: string, headers: Headers, params: Params,
                        postArgs: Option<map<string, Value>>, files: Option<Files>): (request: Request)
      requires path != ""
    {
      Call(httpMethod, Url(path), SignedParams(oauth, apiKey, apiSecret, params),
           RequestHeaders(userAgent, headers, httpMethod, files), Body(postArgs, files), files, oauth)
    }

    /** `fetch_json`: builds the request step by step, sends it, and
        classifies the reply. An empty path fails before anything is sent. */
    method FetchJson<J>(path: string, httpMethod: string := "GET", headers: Option<Headers> := None,
                        queryParams: Option<Params> := None, postArgs: Option<map<string, Value>> := None,
                        files: Option<Files> := None, response: Response<J>)
      returns (outcome: Outcome<J>, sent: Option<Request>)
      ensures path == "" ==> outcome == Raised(PathIndexError) && sent.None?
      ensures path != "" ==> sent == Some(RequestFor(path, httpMethod, headers.GetOr(map[]),
                                                     queryParams.GetOr(map[]), postArgs, files))
      ensures path != "" ==> outcome == Classify(response, Url(path))
    {
      var hs := headers.GetOr(map[]);
      var params := queryParams.GetOr(map[]);
      hs := hs["User-Agent" := userAgent];
      var data: Option<Payload> := None;
      if files.None? {
        if postArgs.Some? {
          data := Some(JsonDump(postArgs.value));
        }
      }
      if httpMethod in {"POST", "PUT", "DELETE"} && !FilesTruthy(files) {
        hs := hs["Content-Type" := JsonContentType];
      }
      hs := hs["Accept" := JsonAccept];
      if path == "" {
        return Raised(PathIndexError), None;
      }
      var url := Url(path);
      if oauth.None? {
        params := params["key" := FromOption(apiKey)];
        params := params["token" := FromOption(apiSecret)];
      }
      sent := Some(Call(httpMethod, url, params, hs, data, files, oauth));
      outcome := Classify(response, url);
    }

    /** `_existing_hook_objs`: one webhook object per element, in order. */
    method ExistingHookObjs(hooks: seq<HookJson>, token: string) returns (all: seq<WebHook>)
      ensures |all| == |hooks|
      ensures forall i :: 0 <= i < |hooks| ==>
                all[i].token == token && all[i].id == hooks[i].id
                && all[i].description == hooks[i].description && all[i].idModel == hooks[i].idModel
                && all[i].callbackURL == hooks[i].callbackURL && all[i].active == hooks[i].active
    {
      all := [];
      for i := 0 to |hooks|
        invariant |all| == i
        invariant forall j :: 0 <= j < i ==> all[j] == HookFromJson(token, hooks[j])
      {
        all := all + [HookFromJson(token, hooks[i])];
      }
    }

    /** `list_hooks`: no token anywhere raises before any request. */
    method ListHooks(token: Option<string> := None, response: Response<seq<HookJson>>)
      returns (outcome: Outcome<seq<WebHook>>, sent: Option<Request>)
      ensures HookToken(token, resourceOwnerKey, apiSecret).None?
              ==> outcome == Raised(TokenError("You need to pass an auth token in to list hooks."))
                  && sent.None?
      ensures HookToken(token, resourceOwnerKey, apiSecret).Some? ==>
                var t := HookToken(token, resourceOwnerKey, apiSecret).value;
                var path := "/tokens/" + t + "/webhooks";
                && sent == Some(RequestFor(path, "GET", map[], map[], None, None))
                && (outcome.Ok? <==> response.status == 200)
                && (outcome.Raised? ==> outcome.error == Classify(response, Url(path)).error)
                && (outcome.Ok? ==>
                      && |outcome.value| == |response.json|
                      && forall i :: 0 <= i < |response.json| ==>
                           outcome.value[i] == HookFromJson(t, response.json[i]))
    {
      var t := HookToken(token, resourceOwnerKey, apiSecret);
      if t.None? {
        return Raised(TokenError("You need to pass an auth token in to list hooks.")), None;
      }
      var path := "/tokens/" + t.value + "/webhooks";
      var fetched;
      fetched, sent := FetchJson(path, response := response);
      if fetched.Raised? {
        return Raised(fetched.error), sent;
      }
      var all := ExistingHookObjs(fetched.value, t.value);
      outcome := Ok(all);
    }

    /** `create_hook`: posts the form to the webhook endpoint directly (not
        through `fetch_json`); any status but 200 is a failure. */
    method CreateHook(callbackUrl: string, idModel: string, desc: Option<string> := None,
                      token: Option<string> := None,
                      response: Response<CreatedHookJson>)
      returns (outcome: Outcome<WebHook>, sent: Option<Request>)
      ensures HookToken(token, resourceOwnerKey, apiSecret).None?
              ==> outcome == Raised(TokenError("You need to pass an auth token in to create a hook."))
                  && sent.None?
      ensures HookToken(token, resourceOwnerKey, apiSecret).Some? ==>
                var t := HookToken(token, resourceOwnerKey, apiSecret).value;
                && sent.Some? && sent.value.FormPost?
                && sent.value.url == HookBase + t + "/webhooks/"
                && sent.value.auth == oauth
                && sent.value.form.Keys <= {"callbackURL", "idModel", "description", "key"}
                && ("key" in sent.value.form <==> apiKey.Some?)
                && "callbackURL" in sent.value.form && sent.value.form["callbackURL"] == Str(callbackUrl)
                && "idModel" in sent.value.form && sent.value.form["idModel"] == Str(idModel)
                && "description" in sent.value.form && sent.value.form["description"] == FromOption(desc)
                && (apiKey.Some? ==> sent.value.form["key"] == Str(apiKey.value))
                && (response.status == 200 ==>
                      outcome == Ok(WebHook(t, response.json.id, desc, idModel, callbackUrl, true)))
                && (response.status != 200 ==>
                      outcome == Raised(HookCreationFailed("Webhook creating failed: " + response.text)))
    {
      var t := HookToken(token, resourceOwnerKey, apiSecret);
      if t.None? {
        return Raised(TokenError("You need to pass an auth token in to create a hook.")), None;
      }
      var url := HookBase + t.value + "/webhooks/";
      var data := map["callbackURL" := Str(callbackUrl), "idModel" := Str(idModel),
                      "description" := FromOption(desc)];
      if apiKey.Some? {
        data := data["key" := Str(apiKey.value)];
      }
      sent := Some(FormPost(url, data, oauth));
      if response.status == 200 {
        outcome := Ok(WebHook(t.value, response.json.id, desc, idModel, callbackUrl, true));
      } else {
        outcome := Raised(HookCreationFailed("Webhook creating failed: " + response.text));
      }
    }

    /** `add_organization`: the display name always, the description and the
        short name only when given. */
    method AddOrganization(organizationName: string, description: Option<string> := None,
                           name: Option<string> := None,
                           response: Response<OrganizationJson>)
      returns (outcome: Outcome<OrganizationJson>, sent: Option<Request>, ghost postArgs: map<string, Value>)
      ensures "displayName" in postArgs
      ensures "desc" in postArgs <==> description.Some?
      ensures "name" in postArgs <==> name.Some?
      ensures postArgs.Keys <= {"displayName", "desc", "name"}
      ensures postArgs["displayName"] == Str(organizationName)
      ensures description.Some? ==> postArgs["desc"] == Str(description.value)
      ensures name.Some? ==> postArgs["name"] == Str(name.value)
      ensures sent == Some(RequestFor("/organizations", "POST", map[], map[], Some(postArgs), None))
      ensures outcome == Classify(response, Url("/organizations"))
    {
      var args := map["displayName" := Str(organizationName)];
      if description.Some? {
        args := args["desc" := Str(description.value)];
      }
      if name.Some? {
        args := args["name" := Str(name.value)];
      }
      postArgs := args;
      outcome, sent := FetchJson("/organizations", "POST", postArgs := Some(args), response := response);
    }

    /** `add_board`: name and permission level always; the source board's id,
        the organization and `defaultLists = False` only when asked for. */
    method AddBoard(boardName: string, sourceBoard: Option<Board> := None,
                    organizationId: Option<string> := None, permissionLevel: string := "private",
                    defaultLists: bool := true, response: Response<BoardJson>)
      returns (outcome: Outcome<Board>, sent: Option<Request>, ghost postArgs: map<string, Value>)
      ensures "name" in postArgs && "prefs_permissionLevel" in postArgs
      ensures "idBoardSource" in postArgs <==> sourceBoard.Some?
      ensures "idOrganization" in postArgs <==> organizationId.Some?
      ensures "defaultLists" in postArgs <==> !defaultLists
      ensures postArgs.Keys <= {"name", "prefs_permissionLevel", "idBoardSource", "idOrganization", "defaultLists"}
      ensures postArgs["name"] == Str(boardName)
      ensures postArgs["prefs_permissionLevel"] == Str(permissionLevel)
      ensures sourceBoard.Some? ==> postArgs["idBoardSource"] == Str(sourceBoard.value.id)
      ensures organizationId.Some? ==> postArgs["idOrganization"] == Str(organizationId.value)
      ensures !defaultLists ==> postArgs["defaultLists"] == Bool(false)
      ensures sent == Some(RequestFor("/boards", "POST", map[], map[], Some(postArgs), None))
      ensures outcome.Ok? <==> response.status == 200
      ensures outcome.Ok? ==> outcome.value.id == response.json.id
                              && outcome.value.source == Some(response.json)
      ensures outcome.Raised? ==> outcome.error == Classify(response, Url("/boards")).error
    {
      var args := map["name" := Str(boardName), "prefs_permissionLevel" := Str(permissionLevel)];
      if sourceBoard.Some? {
        args := args["idBoardSource" := Str(sourceBoard.value.id)];
      }
      if organizationId.Some? {
        args := args["idOrganization" := Str(organizationId.value)];
      }
      if !defaultLists {
        args := args["defaultLists" := Bool(false)];
      }
      postArgs := args;
      var fetched;
      fetched, sent := FetchJson("/boards", "POST", postArgs := Some(args), response := response);
      if fetched.Raised? {
        return Raised(fetched.error), sent, postArgs;
      }
      var board := new Board.FromJson(fetched.value);
      outcome := Ok(board);
    }

    /** `search`: builds the query, fetches `/search`, then builds the result
        list (see `SearchBuild.BuildSearchHits`). `fetched` records the
        boards whose `fetch()` is called; `None` stands for a falsy decoded
        reply. */
    method Search(query: string, partialMatch: bool := false, models: seq<string> := [],
                  boardIds: seq<string> := [], orgIds: seq<string> := [], cardIds: seq<string> := [],
                  cardsLimit: int := 10,
                  response: Response<Option<SearchJson>>)
      returns (outcome: Outcome<seq<SearchHit>>, sent: Option<Request>, fetched: seq<Board>,
               ghost queryParams: Params)
      ensures IsSearchQuery(queryParams, query, partialMatch, models, boardIds, orgIds, cardIds, cardsLimit)
      ensures sent == Some(RequestFor("/search", "GET", map[], queryParams, None, None))
      ensures outcome.Raised? <==> response.status != 200
      ensures outcome.Raised? ==> outcome.error == Classify(response, Url("/search")).error && fetched == []
      ensures response.status == 200 && response.json.None? ==> outcome == Ok([]) && fetched == []
      ensures response.status == 200 && response.json.Some?
              ==> outcome.Ok? && Built(response.json.value, outcome.value, fetched)
    {
      var params := SearchQuery(query, partialMatch, models, boardIds, orgIds, cardIds, cardsLimit);
      queryParams := params;
      var reply;
      reply, sent := FetchJson("/search", queryParams := Some(params), response := response);
      fetched := [];
      if reply.Raised? {
        return Raised(reply.error), sent, fetched, queryParams;
      }
      if reply.value.None? {
        return Ok([]), sent, fetched, queryParams;
      }
      var json := reply.value.value;
      var hits;
      hits, fetched := BuildSearchHits(json);
      outcome := Ok(hits);
    }
  }
}
