# Trello client core in Dafny

A model of the request-building and result-assembling logic of py-trello's
`TrelloClient` (`trello/trelloclient.py`), with proofs of what that logic
promises. The transport is abstract. Each operation returns the request it
would hand to the HTTP service (`sent`). The reply to that request is an
input, a `Response` holding the status, the text and the decoded JSON.

Modules:

- `Values` (`values.dfy`): optional strings with Python truthiness,
  Python's `or` on them, and the values stored in request dictionaries.
- `Http` (`http.dfy`): the pieces of `fetch_json`:
  - the URL, built from the path with at most one leading `/` stripped;
  - the headers;
  - the query parameters, which carry `key`/`token` only when requests
    are not signed;
  - the body;
  - the status classification (401, then any other non-200).
- `Domain` (`domain.dfy`): the JSON fragments the client reads, the webhook
  record, and `Board`. `Board` is a class, so object identity in the search
  cache is real. A board built from an id alone is a stub.
- `SearchSpec` (`search_spec.dfy`): what the search-result builder must
  produce (`Built`), and lemmas drawn from it:
  - the length of the result;
  - listed boards are never fetched;
  - a missing board is fetched exactly once, so the number of fetches is
    the number of missing board ids;
  - a card's parent is the shared board object.
- `SearchBuild` (`search_build.dfy`): the four loops of `search` over
  boards, cards, members and organizations. Each loop is proved against
  `Built` through small lemmas.
- `Client` (`client.dfy`):
  - the credential decisions of the constructor;
  - the webhook token chain;
  - the search query builder;
  - the class `TrelloClient`, whose constant fields are set once by its
    constructor, and whose methods are `fetch_json`, `list_hooks`,
    `_existing_hook_objs`, `create_hook`, `add_organization`, `add_board`
    and `search`.

Two credential tests in the constructor differ: `public_only` is
`token is None`, while signing tests the truthiness of `token` and
`token_secret`. So an empty-string token with a falsy `token_secret` gives an unsigned
client that is not public-only
(`Client.EmptyTokenNeitherSignsNorIsPublic`); an empty string never signs
on its own.

The operations keep the source's default argument values: `fetch_json`
defaults to GET with no headers, query, post arguments or files; `add_board`
to the `private` permission level with default lists; `search` to no partial
match, no filters and a cards limit of 10; `create_hook`, `list_hooks` and
`add_organization` to None for their optional arguments.

## Model

| member | source | states |
|---|---|---|
| Values.Or | trello/trelloclient.py:264 | Python `x or y`: the left operand when it is truthy, otherwise the right one as it is; the result is truthy iff either operand is |
| Client.SigningContextFor | trello/trelloclient.py:43-48 | a signing context exists iff `token` or `token_secret` is truthy, and it is built from the four credentials in order |
| Client.EmptyTokenNeitherSignsNorIsPublic | trello/trelloclient.py:43-51 | "no signing context although a token is given" happens exactly for an empty-string token with a falsy token secret |
| Client.TrelloClient.constructor | trello/trelloclient.py:31-55 | `oauth` is the signing context of the credentials, `public_only` holds iff `token` is None, and the credentials are stored unchanged |
| Http.Url | trello/trelloclient.py:238-240 | the URL is the API base followed by the path, with one leading `/` removed if present |
| Http.UrlIgnoresLeadingSlash | trello/trelloclient.py:238-240 | `"/x"` and `"x"` give the same URL |
| Http.UrlStripsAtMostOneSlash | trello/trelloclient.py:238-240 | `"//x"` keeps one slash, and its URL differs from that of `"x"` |
| Http.UrlInjective | trello/trelloclient.py:238-240 | two paths give the same URL iff they agree after the strip |
| Http.RequestHeaders | trello/trelloclient.py:212-235 | the header keys are the caller's plus `User-Agent` and `Accept`, plus `Content-Type` iff the method is POST, PUT or DELETE and `files` is falsy; every other caller header is kept |
| Http.SignedParams | trello/trelloclient.py:242-244 | with a signing context the query is passed through unchanged; without one it gains exactly `key` = API key and `token` = API secret, and other entries are kept |
| Http.Body | trello/trelloclient.py:224-229 | no body whenever `files` is given (even empty); otherwise the serialised post arguments iff `post_args` is given (even `{}`) |
| Http.Classify | trello/trelloclient.py:252-257 | Ok iff the status is 200, with the decoded body; 401 is Unauthorized and any other status ResourceUnavailable, both carrying "text at url" |
| Http.ClassifyFailureCarriesTextAndUrl | trello/trelloclient.py:252-255 | every failure carries the reply text and the URL, and its kind depends on the status alone |
| Client.TrelloClient.FetchJson | trello/trelloclient.py:201-257 | an empty path fails before anything is sent; otherwise it sends the request of `Url`, `SignedParams`, `RequestHeaders` and `Body` for the arguments, and returns the classification of the reply |
| Client.HookToken | trello/trelloclient.py:264 | the first truthy of the argument and the stored token, else the API secret as it is; it is None iff neither is truthy and the secret is None |
| Client.EmptySecretIsAToken | trello/trelloclient.py:264-266 | with no truthy token, an empty API secret is chosen as the token rather than raising an error |
| Client.TrelloClient.ListHooks | trello/trelloclient.py:259-270 | no token raises TokenError before any request; otherwise it GETs `/tokens/<token>/webhooks`, and on success returns one webhook per element, in order, carrying the chosen token |
| Client.TrelloClient.ExistingHookObjs | trello/trelloclient.py:272-283 | one webhook object per hook fragment, in order, with the token and the fragment's fields |
| Client.TrelloClient.CreateHook | trello/trelloclient.py:285-310 | no token raises before any request; otherwise it posts `callbackURL`, `idModel` and `description` (None kept, as the form is built) plus `key` iff the API key is not None, to the token's webhook URL; 200 gives an active hook with the returned id, any other status a failure with the reply text |
| Client.TrelloClient.AddOrganization | trello/trelloclient.py:128-142 | the post arguments hold `displayName` always, `desc` and `name` exactly when given, nothing else; they are POSTed to `/organizations` |
| Client.TrelloClient.AddBoard | trello/trelloclient.py:144-162 | the post arguments hold `name` and `prefs_permissionLevel` always, `idBoardSource`, `idOrganization` and `defaultLists = False` exactly when asked for, nothing else; on success the board is built from the reply |
| Client.SearchQuery | trello/trelloclient.py:336-357 | the query, `cards_limit` and the fixed result fields always; `partial`, `modelTypes`, `idBoards`, `idOrganizations` and `idCards` exactly when truthy, with their values; no other parameter |
| Client.TrelloClient.Search | trello/trelloclient.py:312-392 | sends the search query; a failed status raises with nothing fetched; a falsy reply gives `[]`; otherwise the hits are `Built` from the reply |
| SearchBuild.CacheListedBoards | trello/trelloclient.py:364-371 | the cache holds exactly the listed ids, each mapped to the object built from the first fragment with that id; one hit per fragment, holding the cached object |
| SearchBuild.FetchStub | trello/trelloclient.py:375-381 | caching and fetching a stub for a new id keeps the cache and the fetch log consistent: listed entries untouched, every fetched board an unlisted stub, none twice |
| SearchBuild.AttachCards | trello/trelloclient.py:373-383 | an uncached card board id gets one stub, which is cached and fetched once; listed boards are untouched and never fetched; every card's parent is the cached board for its id |
| SearchBuild.MemberHits | trello/trelloclient.py:385-386 | one member hit per member fragment, in order |
| SearchBuild.OrganizationHits | trello/trelloclient.py:388-390 | one organization hit per organization fragment, in order |
| SearchBuild.BoardHitsFromCache | trello/trelloclient.py:364-371 | the boards loop's hits are the listed board hits of the reply |
| SearchBuild.CardHitsFromCache | trello/trelloclient.py:373-383 | the cards loop's hits are the card hits, and its fetches are exactly the missing boards |
| SearchBuild.FetchedIdsAreUnlisted | trello/trelloclient.py:375-381 | the fetched ids are exactly the card board ids that are not listed |
| SearchBuild.SharedThroughCache | trello/trelloclient.py:364-383 | since every board or card hit holds the cached object for its id, hits with the same board id hold the same object |
| SearchBuild.BuiltFromParts | trello/trelloclient.py:360-392 | boards, then cards, then members, then organizations, each built as promised, concatenate to a `Built` result |
| SearchBuild.BuildSearchHits | trello/trelloclient.py:360-392 | the four loops in order build a result that is `Built` from the reply |
| SearchSpec.BuiltLength | trello/trelloclient.py:360-392 | the result has one entry per fragment, duplicates included, and begins with the board hits |
| SearchSpec.ListedNeverFetched | trello/trelloclient.py:364-381 | no fetched board has the id of a board the reply lists |
| SearchSpec.MissingBoardFetchedOnce | trello/trelloclient.py:375-381 | a board id named by cards but not listed is fetched exactly once |
| SearchSpec.CardParentIsListedBoard | trello/trelloclient.py:364-383 | a card whose board is listed has as its parent the very object of that board hit, built from a fragment |
| SearchSpec.CardParentIsFetched | trello/trelloclient.py:373-383 | a card whose board is not listed has a fetched stub as its parent, shared by every card naming that board |
| SearchSpec.FetchCount | trello/trelloclient.py:375-381 | the number of boards fetched equals the number of distinct board ids that cards name and the reply does not list, so it never exceeds the number of cards |

## Left out

- The HTTP transport (`http_service.request` and `.post`) and proxies are I/O. The reply is an input, and the model records the request it would send.
- OAuth1 signing is a foreign library. The model keeps only whether a signing context exists and which four credentials it is built from.
- The pyOpenSSL injection at import time patches the environment. It is not modelled.
- `generate_user_agent()`: its value is a constructor parameter of the model, so every request of one client carries the same agent string.
- `json.dumps`: the serialised body is the opaque value `JsonDump(post_args)`.
- The domain classes (`Board`, `Card`, `Member`, `Organization`, `WebHook`) are reduced to what the client reads. `Board.fetch()` is recorded in the fetch log, not performed. Its failure, and the failure of `Card.from_json`, `Member.from_json` and `Organization.from_json`, are not modelled.
- Missing keys in reply fragments (a `KeyError` in Python) cannot occur in the model, because fragments are records with their fields.
- The search reply arrives decoded: `None` for a falsy reply (an empty dict), a `SearchJson` otherwise. A category missing from the reply reads as an empty list, as `json_obj.get(..., [])` does.
- The endpoint one-liners (`list_boards`, `list_organizations`, `get_organization`, `get_board`, `get_card`, `get_list`, `get_label`, `get_member`, `list_stars`, `add_star`, `delete_star`, `info_for_all_boards`) are thin wrappers over `fetch_json` or a domain object's `fetch()`. They are not modelled.
- `logout` only raises `NotImplementedError`. It is not modelled.
- Client.TrelloClient.FetchJson: it does not model that `fetch_json` writes `User-Agent`, `Content-Type` and `Accept` into the caller's own headers dict, nor `key`/`token` into the caller's query dict. The model copies them instead, so aliasing is not captured.
- Client.TrelloClient.FetchJson: the `requests` library's handling of parameters whose value is None (a missing API key or secret is dropped from the URL) belongs to the transport. The model keeps them as `Null`.
- Client.TrelloClient.CreateHook: likewise `requests` drops form fields whose value is None, so a `description` of None is not sent on the wire. The model records the form as `create_hook` builds it, with `description` kept as `Null`.
- Dictionary insertion order, which fixes the order of query parameters and form fields on the wire, is not modelled: dictionaries are maps.
- Client.TrelloClient.Search: the order in which missing boards are fetched is not stated. Only which boards are fetched, and that none is fetched twice, is stated.
- The reply type `Response`: a reply always carries its body already decoded, so a 200 reply whose body is not JSON (where `response.json()` raises) cannot be expressed.
- Transport errors (connection failures, timeouts) propagate unchanged in the source. They are not modelled.
