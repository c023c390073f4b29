/** The domain objects the client builds from JSON, reduced to what the
    client itself looks at. Their own behaviour (fetching, updating) is not
    part of this model; a board's `fetch()` is recorded, not performed. */
module Domain {
  import opened Values

  /** A board fragment as the API returns it (`id` plus the requested fields). */
  datatype BoardJson = BoardJson(id: string, fields: map<string, Value>)
  /** A card fragment: it names its board by `idBoard` only. */
  datatype CardJson = CardJson(id: string, idBoard: string, fields: map<string, Value>)
  datatype MemberJson = MemberJson(fields: map<string, Value>)
  datatype OrganizationJson = OrganizationJson(fields: map<string, Value>)

  /** A decoded search reply. A category the reply leaves out reads as an
      empty list. */
  datatype SearchJson = SearchJson(
    boards: seq<BoardJson>,
    cards: seq<CardJson>,
    members: seq<MemberJson>,
    organizations: seq<OrganizationJson>)

  /** One element of the webhook list the API returns. */
  datatype HookJson = HookJson(id: string, description: Option<string>, idModel: string,
                               callbackURL: string, active: bool)
  /** The reply to a webhook creation: the new hook's id. */
  datatype CreatedHookJson = CreatedHookJson(id: string)

  /** A webhook object. */
  datatype WebHook = WebHook(token: string, id: string, description: Option<string>,
                             idModel: string, callbackURL: string, active: bool)

  /** A board object. Its identity matters: the search builder shares one
      object per board id. `source` is the fragment it was built from, or
      `None` for a stub built from an id alone (which must be fetched). */
  class Board {
    const id: string
    const source: Option<BoardJson>

    /** `Board.from_json`. */
    constructor FromJson(json: BoardJson)
      ensures id == json.id && source == Some(json)
    {
      id := json.id;
      source := Some(json);
    }

    /** `Board(client, board_id)`: a stub. */
    constructor Stub(boardId: string)
      ensures id == boardId && source == None
    {
      id := boardId;
      source := None;
    }
  }

  /** One element of a search result list: `Card.from_json(parent, json)`
      keeps the card's parent board object; members and organizations are
      built from their fragments alone. */
  datatype SearchHit =
    | BoardHit(board: Board)
    | CardHit(card: CardJson, parent: Board)
    | MemberHit(member: MemberJson)
    | OrganizationHit(organization: OrganizationJson)
  {
    predicate HasBoard() {
      BoardHit? || CardHit?
    }

    /** The board object a hit refers to: itself, or a card's parent. */
    function BoardOf(): (b: Board)
      requires HasBoard()
    {
      if BoardHit? then board else parent
    }
  }
}
