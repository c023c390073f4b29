/** The result-building half of `search`: the four loops over the reply's
    boards, cards, members and organizations, and the proof that together
    they build what `SearchSpec.Built` describes. */
module SearchBuild {
  import opened Values
  import opened Domain
  import opened SearchSpec

  /** `p` is where `x` first occurs in `ids`. */
  lemma {:induction false} FirstIndexAt(ids: seq<string>, x: string, p: nat)
    requires p < |ids| && ids[p] == x
    requires forall q :: 0 <= q < p ==> ids[q] != x
    ensures FirstIndex(ids, x) == p
  {
    if ids[0] != x {
      FirstIndexAt(ids[1..], x, p - 1);
    }
  }

  /** The boards loop of `search`: a fragment whose id is not cached yet is
      turned into a board object and cached; every fragment gives one hit,
      the cached object. */
  method CacheListedBoards(boards: seq<BoardJson>) returns (hits: seq<SearchHit>, cache: map<string, Board>)
    ensures forall x :: x in cache <==> x in BoardIds(boards)
    ensures forall x :: x in cache ==>
              cache[x].id == x && cache[x].source == Some(boards[FirstIndex(BoardIds(boards), x)])
    ensures |hits| == |boards|
    ensures forall j :: 0 <= j < |boards| ==> boards[j].id in cache && hits[j] == BoardHit(cache[boards[j].id])
  {
    ghost var origin: map<string, nat> := map[];
    hits, cache := [], map[];
    for i := 0 to |boards|
      invariant forall x :: x in cache ==>
                  && x in origin && origin[x] < i && boards[origin[x]].id == x
                  && cache[x].id == x && cache[x].source == Some(boards[origin[x]])
                  && forall q :: 0 <= q < origin[x] ==> boards[q].id != x
      invariant |hits| == i
      invariant forall j :: 0 <= j < i ==> boards[j].id in cache && hits[j] == BoardHit(cache[boards[j].id])
    {
      var id := boards[i].id;
      if id !in cache {
        var board := new Board.FromJson(boards[i]);
        cache := cache[id := board];
        origin := origin[id := i];
      }
      hits := hits + [BoardHit(cache[id])];
    }
    ghost var ids := BoardIds(boards);
    forall x | x in cache ensures x in ids && FirstIndex(ids, x) == origin[x] {
      FirstIndexAt(ids, x, origin[x]);
    }
  }

  /** The cache and fetch log of the cards loop, relative to the cache of
      listed boards it started from: listed entries untouched; every other
      entry a stub for one of the `named` ids, recorded in `fetched`; every
      recorded board an unlisted stub still in the cache, none twice. */
  ghost predicate StubsFetched(listedCache: map<string, Board>, named: seq<string>,
                               cache: map<string, Board>, fetched: seq<Board>) {
    && (forall x :: x in listedCache ==> x in cache && cache[x] == listedCache[x])
    && (forall x :: x in cache ==> cache[x].id == x)
    && (forall x :: x in cache && x !in listedCache ==>
          cache[x].source.None? && cache[x] in fetched && x in named)
    && (forall i :: 0 <= i < |fetched| ==>
          fetched[i].id in cache && fetched[i].id !in listedCache && fetched[i].source.None?)
    && (forall i, j :: 0 <= i < j < |fetched| ==> fetched[i].id != fetched[j].id)
  }

  /** Caching and recording a new stub for a named, uncached id keeps
      `StubsFetched`. */
  lemma {:induction false} FetchStub(listedCache: map<string, Board>, named: seq<string>,
                                    cache: map<string, Board>, fetched: seq<Board>, stub: Board)
    requires StubsFetched(listedCache, named, cache, fetched)
    requires stub.id !in cache && stub.id in named && stub.source.None?
    ensures StubsFetched(listedCache, named, cache[stub.id := stub], fetched + [stub])
  {
    var cache', fetched' := cache[stub.id := stub], fetched + [stub];
    forall x | x in cache' && x !in listedCache
      ensures cache'[x].source.None? && cache'[x] in fetched' && x in named
    {
      if x != stub.id {
        assert cache'[x] == cache[x];
      } else {
        assert fetched'[|fetched|] == stub;
      }
    }
    forall i, j | 0 <= i < j < |fetched'| ensures fetched'[i].id != fetched'[j].id {
      if j == |fetched| {
        assert fetched'[i] == fetched[i];
      }
    }
  }

  /** The cards loop of `search`: a card whose board id is not cached gets a
      new stub board, which is cached and then fetched (recorded in
      `fetched`); the card's hit keeps the cached board as its parent. */
  method AttachCards(cards: seq<CardJson>, listedCache: map<string, Board>)
    returns (hits: seq<SearchHit>, cache: map<string, Board>, fetched: seq<Board>)
    requires forall x :: x in listedCache ==> listedCache[x].id == x && listedCache[x].source.Some?
    ensures forall x :: x in listedCache ==> x in cache && cache[x] == listedCache[x]
    ensures forall x :: x in cache ==> cache[x].id == x
    ensures forall x :: x in cache && x !in listedCache ==> cache[x].source.None? && cache[x] in fetched
    ensures forall i :: 0 <= i < |fetched| ==>
              fetched[i].id !in listedCache && fetched[i].source.None? && fetched[i].id in CardBoardIds(cards)
    ensures Distinct(Ids(fetched))
    ensures |hits| == |cards|
    ensures forall j :: 0 <= j < |cards| ==>
              cards[j].idBoard in cache && hits[j] == CardHit(cards[j], cache[cards[j].idBoard])
  {
    ghost var named := CardBoardIds(cards);
    hits, cache, fetched := [], listedCache, [];
    for k := 0 to |cards|
      invariant StubsFetched(listedCache, named, cache, fetched)
      invariant |hits| == k
      invariant forall j :: 0 <= j < k ==>
                  cards[j].idBoard in cache && hits[j] == CardHit(cards[j], cache[cards[j].idBoard])
    {
      var idBoard := cards[k].idBoard;
      if idBoard !in cache {
        var stub := new Board.Stub(idBoard);
        assert named[k] == idBoard;
        FetchStub(listedCache, named, cache, fetched, stub);
        cache := cache[idBoard := stub];
        fetched := fetched + [stub];
      }
      hits := hits + [CardHit(cards[k], cache[idBoard])];
    }
  }

  /** The members loop of `search`. */
  method MemberHits(members: seq<MemberJson>) returns (hits: seq<SearchHit>)
    ensures MemberHitsOf(members, hits)
  {
    hits := [];
    for k := 0 to |members|
      invariant |hits| == k && forall j :: 0 <= j < k ==> hits[j] == MemberHit(members[j])
    {
      hits := hits + [MemberHit(members[k])];
    }
  }

  /** The organizations loop of `search`. */
  method OrganizationHits(organizations: seq<OrganizationJson>) returns (hits: seq<SearchHit>)
    ensures OrganizationHitsOf(organizations, hits)
  {
    hits := [];
    for k := 0 to |organizations|
      invariant |hits| == k && forall j :: 0 <= j < k ==> hits[j] == OrganizationHit(organizations[j])
    {
      hits := hits + [OrganizationHit(organizations[k])];
    }
  }

  /** The result-building half of `search` on a truthy reply: the four loops
      in order, their hits concatenated. */
  method BuildSearchHits(reply: SearchJson) returns (hits: seq<SearchHit>, fetched: seq<Board>)
    ensures Built(reply, hits, fetched)
  {
    var boardHits, boardCache := CacheListedBoards(reply.boards);
    var cardHits, cache;
    cardHits, cache, fetched := AttachCards(reply.cards, boardCache);
    var memberHits := MemberHits(reply.members);
    var organizationHits := OrganizationHits(reply.organizations);
    hits := boardHits + cardHits + memberHits + organizationHits;
    BoardHitsFromCache(reply.boards, boardHits, boardCache);
    CardHitsFromCache(reply, boardCache, cardHits, cache, fetched);
    SharedThroughCache(reply, boardHits, boardCache, cardHits, cache, memberHits, organizationHits);
    BuiltFromParts(reply, boardHits, cardHits, memberHits, organizationHits, fetched);
  }

  /** The four categories, each built as promised, concatenated in order. */
  lemma {:induction false} BuiltFromParts(reply: SearchJson, boardHits: seq<SearchHit>, cardHits: seq<SearchHit>,
                                         memberHits: seq<SearchHit>, organizationHits: seq<SearchHit>,
                                         fetched: seq<Board>)
    requires ListedBoardHits(reply.boards, boardHits)
    requires CardHitsOf(reply.cards, cardHits)
    requires MemberHitsOf(reply.members, memberHits)
    requires OrganizationHitsOf(reply.organizations, organizationHits)
    requires SharesBoards(boardHits + cardHits + memberHits + organizationHits)
    requires FetchesMissingBoards(reply, cardHits, fetched)
    ensures Built(reply, boardHits + cardHits + memberHits + organizationHits, fetched)
  {
    ConcatenationSlices(boardHits, cardHits, memberHits, organizationHits);
  }

  /** Every board-bearing hit is the cached object for its id, so two such
      hits with the same id are the same object. */
  lemma {:induction false} SharedThroughCache(reply: SearchJson, boardHits: seq<SearchHit>,
                                             listedCache: map<string, Board>, cardHits: seq<SearchHit>,
                                             cache: map<string, Board>, memberHits: seq<SearchHit>,
                                             organizationHits: seq<SearchHit>)
    requires |boardHits| == |reply.boards|
    requires forall j :: 0 <= j < |reply.boards| ==>
               reply.boards[j].id in listedCache && boardHits[j] == BoardHit(listedCache[reply.boards[j].id])
    requires forall x :: x in listedCache ==> x in cache && cache[x] == listedCache[x]
    requires forall x :: x in cache ==> cache[x].id == x
    requires |cardHits| == |reply.cards|
    requires forall j :: 0 <= j < |reply.cards| ==>
               reply.cards[j].idBoard in cache && cardHits[j] == CardHit(reply.cards[j], cache[reply.cards[j].idBoard])
    requires MemberHitsOf(reply.members, memberHits)
    requires OrganizationHitsOf(reply.organizations, organizationHits)
    ensures SharesBoards(boardHits + cardHits + memberHits + organizationHits)
  {
    var hits := boardHits + cardHits + memberHits + organizationHits;
    var b, c := |boardHits|, |cardHits|;
    forall i | 0 <= i < |hits| && hits[i].HasBoard()
      ensures hits[i].BoardOf().id in cache && hits[i].BoardOf() == cache[hits[i].BoardOf().id]
    {
      if i < b {
        assert hits[i] == boardHits[i];
      } else if i < b + c {
        assert hits[i] == cardHits[i - b];
      } else {
        assert false;
      }
    }
  }

  /** The four parts can be read back from their concatenation. */
  lemma {:induction false} ConcatenationSlices(p: seq<SearchHit>, q: seq<SearchHit>, r: seq<SearchHit>, s: seq<SearchHit>)
    ensures var all, a, b, c := p + q + r + s, |p|, |q|, |r|;
            && all[..a] == p && all[a..a + b] == q && all[a + b..a + b + c] == r && all[a + b + c..] == s
  {
    var all := p + q + r + s;
    assert all == p + (q + (r + s));
    assert (q + (r + s))[..|q|] == q;
    assert (r + s)[..|r|] == r;
  }

  /** The boards loop's hits are the listed board hits. */
  lemma {:induction false} BoardHitsFromCache(boards: seq<BoardJson>, hits: seq<SearchHit>, cache: map<string, Board>)
    requires forall x :: x in cache <==> x in BoardIds(boards)
    requires forall x :: x in cache ==>
               cache[x].id == x && cache[x].source == Some(boards[FirstIndex(BoardIds(boards), x)])
    requires |hits| == |boards|
    requires forall j :: 0 <= j < |boards| ==> hits[j] == BoardHit(cache[boards[j].id])
    ensures ListedBoardHits(boards, hits)
  {
    forall i | 0 <= i < |boards| ensures boards[i].id in cache {
      assert BoardIds(boards)[i] == boards[i].id;
    }
  }

  /** The cards loop's hits are the card hits, and its fetches are exactly
      the missing boards. */
  lemma {:induction false} CardHitsFromCache(reply: SearchJson, listedCache: map<string, Board>,
                                            hits: seq<SearchHit>, cache: map<string, Board>, fetched: seq<Board>)
    requires forall x :: x in listedCache <==> x in BoardIds(reply.boards)
    requires forall x :: x in listedCache ==> listedCache[x].source.Some?
    requires forall x :: x in listedCache ==> x in cache && cache[x] == listedCache[x]
    requires forall x :: x in cache ==> cache[x].id == x
    requires forall x :: x in cache && x !in listedCache ==> cache[x].source.None? && cache[x] in fetched
    requires forall i :: 0 <= i < |fetched| ==>
               fetched[i].id !in listedCache && fetched[i].source.None? && fetched[i].id in CardBoardIds(reply.cards)
    requires Distinct(Ids(fetched))
    requires |hits| == |reply.cards|
    requires forall j :: 0 <= j < |reply.cards| ==>
               reply.cards[j].idBoard in cache && hits[j] == CardHit(reply.cards[j], cache[reply.cards[j].idBoard])
    ensures CardHitsOf(reply.cards, hits)
    ensures FetchesMissingBoards(reply, hits, fetched)
  {
    var cardBoards := CardBoardIds(reply.cards);
    forall x | x in cardBoards ensures x in cache {
      var j :| 0 <= j < |cardBoards| && cardBoards[j] == x;
      assert reply.cards[j].idBoard == x;
    }
    FetchedIdsAreUnlisted(cardBoards, BoardIds(reply.boards), listedCache, cache, fetched);
  }

  /** The ids fetched are those named by cards but not listed. */
  lemma {:induction false} FetchedIdsAreUnlisted(cardBoards: seq<string>, listed: seq<string>,
                                                listedCache: map<string, Board>, cache: map<string, Board>,
                                                fetched: seq<Board>)
    requires forall x :: x in listedCache <==> x in listed
    requires forall x :: x in cardBoards ==> x in cache
    requires forall x :: x in cache ==> cache[x].id == x
    requires forall x :: x in cache && x !in listedCache ==> cache[x] in fetched
    requires forall i :: 0 <= i < |fetched| ==> fetched[i].id !in listedCache && fetched[i].id in cardBoards
    ensures forall x :: x in Ids(fetched) <==> x in cardBoards && x !in listed
  {
    var ids := Ids(fetched);
    forall x | x in cardBoards && x !in listed ensures x in ids {
      var i :| 0 <= i < |fetched| && fetched[i] == cache[x];
      assert ids[i] == x;
    }
  }
}
