/** What the search-result builder must produce: ordering, one shared board
    object per id, and which boards it fetches. */
module SearchSpec {
  import opened Values
  import opened Domain

  /** The ids of the listed board fragments, in reply order. */
  function BoardIds(boards: seq<BoardJson>): (ids: seq<string>)
    ensures |ids| == |boards| && forall i :: 0 <= i < |boards| ==> ids[i] == boards[i].id
  {
    seq(|boards|, i requires 0 <= i < |boards| => boards[i].id)
  }

  function CardBoardIds(cards: seq<CardJson>): (ids: seq<string>)
    ensures |ids| == |cards| && forall i :: 0 <= i < |cards| ==> ids[i] == cards[i].idBoard
  {
    seq(|cards|, i requires 0 <= i < |cards| => cards[i].idBoard)
  }

  /** The ids of board objects, in order. It has the shape of `BoardIds`,
      but over board objects (the fetch log) rather than JSON fragments:
      the two element types share no field that one function could read. */
  function Ids(boards: seq<Board>): (ids: seq<string>)
    ensures |ids| == |boards| && forall i :: 0 <= i < |boards| ==> ids[i] == boards[i].id
  {
    seq(|boards|, i requires 0 <= i < |boards| => boards[i].id)
  }

  predicate Distinct(ids: seq<string>) {
    forall i, j :: 0 <= i < j < |ids| ==> ids[i] != ids[j]
  }

  /** The position of the first occurrence of `x`. */
  function FirstIndex(ids: seq<string>, x: string): (k: nat)
    requires x in ids
    ensures k < |ids| && ids[k] == x
    ensures forall j :: 0 <= j < k ==> ids[j] != x
  {
    if ids[0] == x then 0 else 1 + FirstIndex(ids[1..], x)
  }

  /** Every hit that refers to a board refers to the one object kept for
      that board's id. */
  ghost predicate SharesBoards(hits: seq<SearchHit>) {
    forall i, j :: 0 <= i < |hits| && 0 <= j < |hits| && hits[i].HasBoard() && hits[j].HasBoard()
                   && hits[i].BoardOf().id == hits[j].BoardOf().id
                   ==> hits[i].BoardOf() == hits[j].BoardOf()
  }

  /** One hit per listed board fragment, in reply order: the object built
      from the first fragment with that id (a board listed twice is listed
      twice, as the same object). */
  ghost predicate ListedBoardHits(boards: seq<BoardJson>, hits: seq<SearchHit>) {
    && |hits| == |boards|
    && forall i :: 0 <= i < |boards| ==>
         hits[i].BoardHit? && hits[i].board.id == boards[i].id
         && hits[i].board.source == Some(boards[FirstIndex(BoardIds(boards), boards[i].id)])
  }

  /** One hit per card fragment, in reply order: the card and a parent
      board object with the card's `idBoard`. */
  ghost predicate CardHitsOf(cards: seq<CardJson>, hits: seq<SearchHit>) {
    && |hits| == |cards|
    && forall k :: 0 <= k < |cards| ==>
         hits[k].CardHit? && hits[k].card == cards[k] && hits[k].parent.id == cards[k].idBoard
  }

  predicate MemberHitsOf(members: seq<MemberJson>, hits: seq<SearchHit>) {
    |hits| == |members| && forall k :: 0 <= k < |members| ==> hits[k] == MemberHit(members[k])
  }

  predicate OrganizationHitsOf(organizations: seq<OrganizationJson>, hits: seq<SearchHit>) {
    && |hits| == |organizations|
    && forall k :: 0 <= k < |organizations| ==> hits[k] == OrganizationHit(organizations[k])
  }

  /** The hits are the boards, then the cards, then the members, then the
      organizations of the reply, each category in reply order. */
  ghost predicate InReplyOrder(reply: SearchJson, hits: seq<SearchHit>) {
    var b, c, m := |reply.boards|, |reply.cards|, |reply.members|;
    && |hits| == b + c + m + |reply.organizations|
    && ListedBoardHits(reply.boards, hits[..b])
    && CardHitsOf(reply.cards, hits[b..b + c])
    && MemberHitsOf(reply.members, hits[b + c..b + c + m])
    && OrganizationHitsOf(reply.organizations, hits[b + c + m..])
  }

  /** The boards fetched are stubs, one per card board id that the reply
      does not list as a board, none twice; a card's parent is a listed
      board exactly when its id is listed, and is otherwise one of the
      fetched boards. */
  ghost predicate FetchesMissingBoards(reply: SearchJson, cardHits: seq<SearchHit>, fetched: seq<Board>)
    requires |cardHits| == |reply.cards|
  {
    var listed := BoardIds(reply.boards);
    && Distinct(Ids(fetched))
    && (forall x :: x in Ids(fetched) <==> x in CardBoardIds(reply.cards) && x !in listed)
    && (forall f :: f in fetched ==> f.source.None?)
    && (forall k :: 0 <= k < |reply.cards| && cardHits[k].CardHit? ==>
          (reply.cards[k].idBoard in listed <==> cardHits[k].parent.source.Some?)
          && (reply.cards[k].idBoard !in listed ==> cardHits[k].parent in fetched))
  }

  /** The whole promise of the search-result builder for a truthy reply. */
  ghost predicate Built(reply: SearchJson, hits: seq<SearchHit>, fetched: seq<Board>) {
    var b, c := |reply.boards|, |reply.cards|;
    && InReplyOrder(reply, hits)
    && SharesBoards(hits)
    && FetchesMissingBoards(reply, hits[b..b + c], fetched)
  }

  /** The result has one entry per fragment of the reply, duplicates
      included. */
  lemma {:induction false} BuiltLength(reply: SearchJson, hits: seq<SearchHit>, fetched: seq<Board>)
    requires Built(reply, hits, fetched)
    ensures |hits| == |reply.boards| + |reply.cards| + |reply.members| + |reply.organizations|
    ensures forall i :: 0 <= i < |reply.boards| ==> hits[i].BoardHit?
  {
    var b := |reply.boards|;
    forall i | 0 <= i < b ensures hits[i].BoardHit? {
      assert hits[..b][i] == hits[i];
    }
  }

  /** A board the reply lists is never fetched. */
  lemma {:induction false} ListedNeverFetched(reply: SearchJson, hits: seq<SearchHit>, fetched: seq<Board>)
    requires Built(reply, hits, fetched)
    ensures forall f :: f in fetched ==> f.id !in BoardIds(reply.boards)
  {
    forall f | f in fetched ensures f.id !in BoardIds(reply.boards) {
      var i :| 0 <= i < |fetched| && fetched[i] == f;
      assert Ids(fetched)[i] == f.id;
    }
  }

  /** A board id that cards name but the reply does not list is fetched
      exactly once. */
  lemma {:induction false} MissingBoardFetchedOnce(reply: SearchJson, hits: seq<SearchHit>, fetched: seq<Board>,
                                                  x: string)
    requires Built(reply, hits, fetched)
    requires x in CardBoardIds(reply.cards) && x !in BoardIds(reply.boards)
    ensures exists i :: 0 <= i < |fetched| && fetched[i].id == x
    ensures forall i, j :: 0 <= i < |fetched| && 0 <= j < |fetched| && fetched[i].id == x && fetched[j].id == x
                           ==> i == j
  {
    var ids := Ids(fetched);
    assert x in ids;
    var i :| 0 <= i < |ids| && ids[i] == x;
    assert fetched[i].id == x;
    forall i, j | 0 <= i < |fetched| && 0 <= j < |fetched| && fetched[i].id == x && fetched[j].id == x
      ensures i == j
    {
      assert ids[i] == ids[j];
    }
  }

  /** A card whose board the reply lists has that very board object as its
      parent, the one the board hit holds. */
  lemma {:induction false} CardParentIsListedBoard(reply: SearchJson, hits: seq<SearchHit>, fetched: seq<Board>,
                                                  i: nat, k: nat)
    requires Built(reply, hits, fetched)
    requires i < |reply.boards| && k < |reply.cards| && reply.cards[k].idBoard == reply.boards[i].id
    ensures hits[i].BoardHit? && hits[|reply.boards| + k].CardHit?
    ensures hits[|reply.boards| + k].parent == hits[i].board
    ensures hits[i].board.source.Some?
  {
    var b, c := |reply.boards|, |reply.cards|;
    assert hits[..b][i] == hits[i];
    assert hits[b..b + c][k] == hits[b + k];
  }

  /** A card whose board the reply does not list has a fetched stub as its
      parent, and every card naming that board shares it. */
  lemma {:induction false} CardParentIsFetched(reply: SearchJson, hits: seq<SearchHit>, fetched: seq<Board>,
                                              k: nat, l: nat)
    requires Built(reply, hits, fetched)
    requires k < |reply.cards| && l < |reply.cards| && reply.cards[k].idBoard == reply.cards[l].idBoard
    requires reply.cards[k].idBoard !in BoardIds(reply.boards)
    ensures hits[|reply.boards| + k].CardHit? && hits[|reply.boards| + l].CardHit?
    ensures hits[|reply.boards| + k].parent in fetched
    ensures hits[|reply.boards| + k].parent.source.None?
    ensures hits[|reply.boards| + k].parent == hits[|reply.boards| + l].parent
  {
    var b, c := |reply.boards|, |reply.cards|;
    assert hits[b..b + c][k] == hits[b + k];
    assert hits[b..b + c][l] == hits[b + l];
  }

  /** The elements of a sequence, as a set. */
  ghost function Elements(ids: seq<string>): (r: set<string>)
    ensures forall x :: x in r <==> x in ids
  {
    set x | x in ids
  }

  /** A sequence has at least as many positions as distinct elements. */
  lemma {:induction false} ElementsBound(ids: seq<string>)
    ensures |Elements(ids)| <= |ids|
  {
    if ids != [] {
      ElementsBound(ids[1..]);
      assert Elements(ids) <= Elements(ids[1..]) + {ids[0]};
      SubsetCardinality(Elements(ids), Elements(ids[1..]) + {ids[0]});
    }
  }

  /** A sequence without repetitions has exactly as many distinct elements
      as positions. */
  lemma {:induction false} DistinctElements(ids: seq<string>)
    requires Distinct(ids)
    ensures |Elements(ids)| == |ids|
  {
    if ids != [] {
      assert Distinct(ids[1..]) by {
        forall i, j | 0 <= i < j < |ids[1..]| ensures ids[1..][i] != ids[1..][j] {
          assert ids[1..][i] == ids[i + 1] && ids[1..][j] == ids[j + 1];
        }
      }
      DistinctElements(ids[1..]);
      assert ids[0] !in Elements(ids[1..]) by {
        forall k | 0 <= k < |ids[1..]| ensures ids[1..][k] != ids[0] {
          assert ids[1..][k] == ids[k + 1];
        }
      }
      assert Elements(ids) == Elements(ids[1..]) + {ids[0]};
    }
  }

  /** The board ids that cards name but the reply does not list. */
  ghost function MissingBoardIds(reply: SearchJson): (r: set<string>)
    ensures forall x :: x in r <==> x in CardBoardIds(reply.cards) && x !in BoardIds(reply.boards)
  {
    set x | x in CardBoardIds(reply.cards) && x !in BoardIds(reply.boards)
  }

  /** The search fetches as many boards as there are missing board ids, so
      never more than there are cards. */
  lemma {:induction false} FetchCount(reply: SearchJson, hits: seq<SearchHit>, fetched: seq<Board>)
    requires Built(reply, hits, fetched)
    ensures |fetched| == |MissingBoardIds(reply)|
    ensures |fetched| <= |reply.cards|
  {
    var ids := Ids(fetched);
    DistinctElements(ids);
    assert Elements(ids) == MissingBoardIds(reply);
    var cardBoards := CardBoardIds(reply.cards);
    ElementsBound(cardBoards);
    assert MissingBoardIds(reply) <= Elements(cardBoards);
    SubsetCardinality(MissingBoardIds(reply), Elements(cardBoards));
  }

  lemma {:induction false} SubsetCardinality(a: set<string>, b: set<string>)
    requires a <= b
    ensures |a| <= |b|
  {
    assert b == a + (b - a);
  }
}
