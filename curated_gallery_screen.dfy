/**
 * The curated gallery's search mode: the query, facets and meta-filters the viewer sets, and
 * the page accumulator that collects search results page by page.
 */
module CuratedGallery {
  import opened Types
  import Text
  import Store
  import CardView
  import TcgData

  const CARDS_PER_PAGE := 20

  class Gallery {
    var query: string
    var filters: CardFilters
    var metaFilters: seq<MetaFilter>
    var page: int
    /** The search results collected so far (`allFetchedCards`). */
    var acc: seq<Card>
    var endReached: bool

    ghost predicate Valid()
      reads this
    {
      page >= 1 && UniqueIds(acc)
    }

    /** The screen opened with the incoming filters (none by default) and query (empty by default). */
    constructor (initialFilters: Option<CardFilters>, initialQuery: Option<string>)
      ensures Valid()
      ensures query == initialQuery.GetOr("") && filters == initialFilters.GetOr(EMPTY_FILTERS)
      ensures metaFilters == [] && page == 1 && acc == [] && !endReached
    {
      query := initialQuery.GetOr("");
      filters := initialFilters.GetOr(EMPTY_FILTERS);
      metaFilters := [];
      page := 1;
      acc := [];
      endReached := false;
    }

    /** `hasSearch`: some non-blank text or some selected facet value. */
    predicate HasSearch()
      reads this
    {
      Text.Trim(query) != "" || filters.ActiveCount() > 0
    }

    /** The options the screen passes to `useSearchCards`. */
    function SearchOptions(): (o: TcgData.SearchOptions)
      reads this
      ensures o.page == Some(page) && o.pageSize == Some(CARDS_PER_PAGE) && o.filters == Some(filters)
      ensures o.rawQuery.None? && o.orderBy.None?
      ensures o.q.Some? <==> Text.Trim(query) != ""
      ensures o.q.Some? ==> o.q.value == Text.Trim(query)
    {
      TcgData.SearchOptions(
        if Text.Trim(query) != "" then Some(Text.Trim(query)) else None,
        Some(page), Some(CARDS_PER_PAGE), Some(filters), Some(HasSearch()), None, None)
    }

    /**
     * The accumulate effect for a search result, with `deduped` what `dedupeById` returns: page
     * 1 replaces the accumulator, a later page is appended to it; a short page marks the end.
     */
    method ApplyResult(result: CardsPage, deduped: seq<Card>)
      requires Valid()
      requires CardView.IsDedupeOf(deduped, if page == 1 then result.cards else acc + result.cards)
      modifies this
      ensures Valid()
      ensures acc == deduped
      ensures endReached == (old(endReached) || |result.cards| < CARDS_PER_PAGE)
      ensures query == old(query) && filters == old(filters) && metaFilters == old(metaFilters) && page == old(page)
    {
      if |result.cards| < CARDS_PER_PAGE {
        endReached := true;
      }
      acc := deduped;
    }

    /** `handleFiltersChange(f)`: new facets, and the accumulator starts over. */
    method HandleFiltersChange(f: CardFilters)
      modifies this
      ensures Valid()
      ensures filters == f && page == 1 && acc == [] && !endReached
      ensures query == old(query) && metaFilters == old(metaFilters)
    {
      filters := f;
      page := 1;
      acc := [];
      endReached := false;
    }

    /** `handleQueryChange(q)`: new text, and the accumulator starts over. */
    method HandleQueryChange(q: string)
      modifies this
      ensures Valid()
      ensures query == q && page == 1 && acc == [] && !endReached
      ensures filters == old(filters) && metaFilters == old(metaFilters)
    {
      query := q;
      page := 1;
      acc := [];
      endReached := false;
    }

    /** The meta-filters change on their own: the accumulator, page and end marker are kept. */
    method SetMetaFilters(m: seq<MetaFilter>)
      requires Valid()
      modifies this
      ensures Valid()
      ensures metaFilters == m
      ensures query == old(query) && filters == old(filters) && page == old(page) && acc == old(acc) && endReached == old(endReached)
    {
      metaFilters := m;
    }

    /** Load more: the next page. */
    method LoadMore()
      requires Valid()
      modifies this
      ensures Valid()
      ensures page == old(page) + 1
      ensures query == old(query) && filters == old(filters) && metaFilters == old(metaFilters)
      ensures acc == old(acc) && endReached == old(endReached)
    {
      page := page + 1;
    }

    /** `result?.totalCount ?? 0` */
    function TotalCount(result: Option<CardsPage>): int {
      if result.Some? then result.value.totalCount else 0
    }

    /** `hasMore`: searching, the end not reached, and fewer cards collected than the search reports. */
    predicate HasMore(result: Option<CardsPage>)
      reads this
    {
      HasSearch() && !endReached && |acc| < TotalCount(result)
    }

    /**
     * `displayCards`: the collected results when searching and the curated cards otherwise,
     * status-overlaid and then meta-filtered.
     */
    function DisplayCards(curated: seq<Card>, states: map<string, Store.CardState>): (r: seq<Card>)
      reads this
      ensures forall c | c in r :: (if HasSearch() then c in acc else c in curated) && CardView.MetaAccepts(metaFilters, c)
      ensures forall c | (if HasSearch() then c in acc else c in curated) && CardView.MetaAccepts(metaFilters, c) :: c in r
    {
      CardView.ApplyMetaFilters(CardView.OverlayAll(states, if HasSearch() then acc else curated), metaFilters)
    }
  }

  /** The search request is issued exactly when the screen is searching. */
  lemma SearchesIffHasSearch(g: Gallery)
    ensures TcgData.SearchRequestFor(g.SearchOptions()).Some? <==> g.HasSearch()
  {
  }

  /** There is never more to load outside search mode, nor once a short page has arrived. */
  lemma NoMoreWithoutSearchOrAfterEnd(g: Gallery, result: Option<CardsPage>)
    requires !g.HasSearch() || g.endReached
    ensures !g.HasMore(result)
  {
  }

  /** After any reset the accumulator is empty, so more is available iff searching and the search reports any card. */
  lemma HasMoreAfterReset(g: Gallery, result: Option<CardsPage>)
    requires g.acc == [] && !g.endReached
    ensures g.HasMore(result) <==> g.HasSearch() && g.TotalCount(result) > 0
  {
  }

  /** Searching with no card found shows nothing, whatever the meta-filters. */
  lemma EmptySearchShowsNothing(g: Gallery, curated: seq<Card>, states: map<string, Store.CardState>)
    requires g.HasSearch() && g.acc == []
    ensures g.DisplayCards(curated, states) == []
  {
  }
}
