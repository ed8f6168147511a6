/**
 * A set's card list: seeded from the set's stored first page, fetched when that is missing or
 * stale and whenever a later page is asked for, with page 1 written back to the store.
 */
module SetScreen {
  import opened Types
  import Store
  import CardView
  import CardCache
  import TcgData

  const CARDS_PER_PAGE := 60

  /** The query for every card of a set: `set.id:"<id>"`. */
  function SetQuery(setId: string): string {
    "set.id:" + TcgData.Quote(setId)
  }

  class Screen {
    const setId: string
    var page: int
    /** The cards collected so far (`allFetchedCards`). */
    var acc: seq<Card>
    /** Read once at mount from the set's stored first page. */
    const cachedTotal: int
    const needsFetch: bool

    ghost predicate Valid()
      reads this
    {
      page >= 1
    }

    /**
     * Mount: the stored first page's cards and count (none and 0 without one); a fetch is
     * needed iff nothing is stored or it is stale.
     */
    constructor (cache: CardCache.Cache, id: string, now: int)
      ensures Valid() && setId == id && page == 1
      ensures var cached := CardCache.SetCardCache(cache.storage, id);
              acc == (if cached.Some? then cached.value.cards else [])
              && cachedTotal == (if cached.Some? then cached.value.totalCount else 0)
              && (needsFetch <==> cached.None? || CardCache.IsSetCardCacheStale(cache.storage, id, now))
    {
      var cached := CardCache.SetCardCache(cache.storage, id);
      setId := id;
      page := 1;
      acc := if cached.Some? then cached.value.cards else [];
      cachedTotal := if cached.Some? then cached.value.totalCount else 0;
      needsFetch := cached.None? || CardCache.IsSetCardCacheStale(cache.storage, id, now);
    }

    /** The options the screen passes to `useSearchCards`. */
    function SearchOptions(): (o: TcgData.SearchOptions)
      reads this
      ensures o.rawQuery == Some(SetQuery(setId)) && o.orderBy == Some("number")
      ensures o.page == Some(page) && o.pageSize == Some(CARDS_PER_PAGE)
      ensures o.enabled == Some(needsFetch || page > 1)
    {
      TcgData.SearchOptions(None, Some(page), Some(CARDS_PER_PAGE), None, Some(needsFetch || page > 1),
                            Some(SetQuery(setId)), Some("number"))
    }

    /**
     * The accumulate effect for a search result, with `deduped` what `dedupeById` returns: page
     * 1 replaces the list and is written to the set's store entry (as received, count
     * included); a later page is appended and the store is not touched.
     */
    method ApplyResult(cache: CardCache.Cache, result: CardsPage, deduped: seq<Card>, now: int, dataOk: bool, stampOk: bool)
      requires Valid()
      requires CardView.IsDedupeOf(deduped, if page == 1 then result.cards else acc + result.cards)
      modifies this, cache
      ensures Valid() && acc == deduped && UniqueIds(acc) && page == old(page)
      ensures old(page) == 1 && dataOk ==>
                cache.storage == CardCache.WithTimestamp(
                  old(cache.storage)[CardCache.SetCardKey(setId) := CardCache.SetCardsJson(CardCache.SetCards(result.cards, result.totalCount))],
                  CardCache.SetCardKey(setId), now, stampOk)
      ensures old(page) == 1 && dataOk ==> CardCache.SetCardCache(cache.storage, setId) == Some(CardCache.SetCards(result.cards, result.totalCount))
      ensures old(page) == 1 && dataOk && stampOk && now != 0 ==> !CardCache.IsSetCardCacheStale(cache.storage, setId, now)
      ensures old(page) != 1 || !dataOk ==> cache.storage == old(cache.storage)
      ensures cache.cards == old(cache.cards) && cache.order == old(cache.order) && cache.persistPending == old(cache.persistPending)
    {
      acc := deduped;
      if page == 1 {
        cache.SetSetCardCache(setId, CardCache.SetCards(result.cards, result.totalCount), now, dataOk, stampOk);
      }
    }

    /** Load more: the next page. */
    method LoadMore()
      requires Valid()
      modifies this
      ensures Valid() && page == old(page) + 1 && acc == old(acc)
    {
      page := page + 1;
    }

    /** `result?.totalCount ?? cachedTotal` */
    function TotalCount(result: Option<CardsPage>): int
      reads this
    {
      if result.Some? then result.value.totalCount else cachedTotal
    }

    /** `hasMore`: fewer cards collected than the count reports. */
    predicate HasMore(result: Option<CardsPage>)
      reads this
    {
      |acc| < TotalCount(result)
    }

    /** The listed cards: the collected ones, status-overlaid. */
    function Cards(states: map<string, Store.CardState>): (r: seq<Card>)
      reads this
      ensures r == acc
    {
      CardView.OverlayAll(states, acc)
    }
  }

  /** A request is issued iff the stored page is missing or stale, or a page beyond the first is wanted; it is always the set's cards by number, 60 at a time. */
  lemma RequestIffNeededOrPaging(s: Screen)
    ensures var r := TcgData.SearchRequestFor(s.SearchOptions());
            (r.Some? <==> s.needsFetch || s.page > 1)
            && (r.Some? ==> r.value == TcgData.SearchRequest(Some(SetQuery(s.setId)), Some(s.page), CARDS_PER_PAGE, Some("number")))
  {
  }
}
