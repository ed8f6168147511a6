/**
 * The catalogue hooks: the search-query builder, the request each search issues and how its
 * outcome settles the hook's state (with the sample-card fallback), the mount-time decisions of
 * the sets, meta and featured-cards hooks, and the cache partition of `useCardsById`.
 * Every network outcome is a parameter.
 */
module TcgData {
  import opened Types
  import opened Seqs
  import Text
  import MockData
  import CardCache

  // ── The query builder ──

  function Quote(v: string): string {
    "\"" + v + "\""
  }

  function Quoted(values: seq<string>): (r: seq<string>)
    ensures |r| == |values| && forall i | 0 <= i < |values| :: r[i] == Quote(values[i])
  {
    seq(|values|, i requires 0 <= i < |values| => Quote(values[i]))
  }

  /** One facet's clause: `field:("v1" OR "v2" ...)`, values in list order. */
  function FacetClause(field: string, values: seq<string>): string {
    field + ":(" + Text.Join(Quoted(values), " OR ") + ")"
  }

  /** The free-text fragment: none when the text is absent or blank, else `name:"<trimmed>*"`. */
  function TextPart(q: Option<string>): (r: seq<string>)
    ensures |r| <= 1
    ensures r == [] <==> q.None? || Text.Trim(q.value) == ""
    ensures r != [] ==> r[0] == "name:\"" + Text.Trim(q.value) + "*\""
  {
    if q.Some? && Text.Trim(q.value) != "" then ["name:\"" + Text.Trim(q.value) + "*\""] else []
  }

  /** A facet's fragment: none for an empty facet. */
  function FacetPart(field: string, values: seq<string>): (r: seq<string>)
    ensures |r| <= 1 && (r == [] <==> values == [])
    ensures r != [] ==> r[0] == FacetClause(field, values)
  {
    if values != [] then [FacetClause(field, values)] else []
  }

  /** The fragments in their fixed order: name, set, type, rarity, artist. */
  function QueryParts(q: Option<string>, filters: Option<CardFilters>): (r: seq<string>)
    ensures r == [] <==> (q.None? || Text.Trim(q.value) == "") && (filters.None? || filters.value.ActiveCount() == 0)
  {
    TextPart(q)
    + (if filters.None? then []
       else FacetPart("set.name", filters.value.sets) + FacetPart("types", filters.value.types)
            + FacetPart("rarity", filters.value.rarity) + FacetPart("artist", filters.value.artist))
  }

  /** `luceneQuery`: the fragments joined by single spaces, or nothing when the join is empty. */
  function LuceneQuery(q: Option<string>, filters: Option<CardFilters>): Option<string> {
    var s := Text.Join(QueryParts(q, filters), " ");
    if s == "" then None else Some(s)
  }

  /** No text and no selected facet value gives no query, and any criterion gives one. */
  lemma QueryAbsentIffNoCriteria(q: Option<string>, filters: Option<CardFilters>)
    ensures LuceneQuery(q, filters).None? <==>
              (q.None? || Text.Trim(q.value) == "") && (filters.None? || filters.value.ActiveCount() == 0)
  {
    var parts := QueryParts(q, filters);
    if parts != [] {
      Text.JoinStartsWithFirst(parts, " ");
      FirstPartNonEmpty(q, filters);
    }
  }

  /** Every fragment begins with its field name, so the first one is never empty. */
  lemma FirstPartNonEmpty(q: Option<string>, filters: Option<CardFilters>)
    requires QueryParts(q, filters) != []
    ensures QueryParts(q, filters)[0] != ""
  {
    var parts := QueryParts(q, filters);
    if TextPart(q) != [] {
      assert parts[0] == TextPart(q)[0];
    } else {
      var f := filters.value;
      var facets := FacetPart("set.name", f.sets) + FacetPart("types", f.types)
                    + FacetPart("rarity", f.rarity) + FacetPart("artist", f.artist);
      assert parts == facets;
      var field := if f.sets != [] then "set.name" else if f.types != [] then "types"
                   else if f.rarity != [] then "rarity" else "artist";
      var values := if f.sets != [] then f.sets else if f.types != [] then f.types
                    else if f.rarity != [] then f.rarity else f.artist;
      assert parts[0] == FacetClause(field, values);
    }
  }

  /** With search text, the query begins with the name fragment, ahead of every facet. */
  lemma QueryLeadsWithText(q: Option<string>, filters: Option<CardFilters>)
    requires q.Some? && Text.Trim(q.value) != ""
    ensures var lead := "name:\"" + Text.Trim(q.value) + "*\"";
            LuceneQuery(q, filters).Some?
            && |lead| <= |LuceneQuery(q, filters).value|
            && LuceneQuery(q, filters).value[..|lead|] == lead
  {
    var parts := QueryParts(q, filters);
    Text.JoinStartsWithFirst(parts, " ");
  }

  /** Without search text, a selected set leads the query, ahead of type, rarity and artist. */
  lemma QueryLeadsWithSet(filters: CardFilters)
    requires filters.sets != []
    ensures var lead := FacetClause("set.name", filters.sets);
            LuceneQuery(None, Some(filters)).Some?
            && |lead| <= |LuceneQuery(None, Some(filters)).value|
            && LuceneQuery(None, Some(filters)).value[..|lead|] == lead
  {
    var parts := QueryParts(None, Some(filters));
    Text.JoinStartsWithFirst(parts, " ");
  }

  /** A single selected set and nothing else: `set.name:("Base")`. */
  lemma SingleSetQuery()
    ensures LuceneQuery(None, Some(CardFilters([], [], ["Base"], []))) == Some("set.name:(\"Base\")")
  {
    assert Quote("Base") == "\"Base\"";
    assert Quoted(["Base"]) == ["\"Base\""];
    assert FacetClause("set.name", ["Base"]) == "set.name:(\"Base\")";
    assert QueryParts(None, Some(CardFilters([], [], ["Base"], []))) == ["set.name:(\"Base\")"];
  }

  // ── The search request ──

  datatype SearchOptions = SearchOptions(
    q: Option<string>,
    page: Option<int>,
    pageSize: Option<int>,
    filters: Option<CardFilters>,
    enabled: Option<bool>,
    rawQuery: Option<string>,
    orderBy: Option<string>)

  /** The parameters of a cards request; an absent field is not sent. */
  datatype SearchRequest = SearchRequest(q: Option<string>, page: Option<int>, pageSize: int, orderBy: Option<string>)

  /**
   * The request `useSearchCards` issues: none when disabled; the pre-built query, when given,
   * replaces the built one (an empty one sends no query at all); page 1 and 20 per page by
   * default; an empty ordering is not sent.
   */
  function SearchRequestFor(opts: SearchOptions): (r: Option<SearchRequest>)
    ensures r.None? <==> opts.enabled == Some(false)
    ensures r.Some? ==> r.value.page == Some(opts.page.GetOr(1)) && r.value.pageSize == opts.pageSize.GetOr(20)
    ensures r.Some? && opts.rawQuery.Some? ==> r.value.q == (if opts.rawQuery.value == "" then None else opts.rawQuery)
    ensures r.Some? && opts.rawQuery.None? ==> r.value.q == LuceneQuery(opts.q, opts.filters)
    ensures r.Some? ==> (r.value.orderBy.Some? <==> opts.orderBy.Some? && opts.orderBy.value != "")
    ensures r.Some? && r.value.orderBy.Some? ==> r.value.orderBy == opts.orderBy
  {
    if !opts.enabled.GetOr(true) then None
    else
      var finalQuery := if opts.rawQuery.Some? then opts.rawQuery else LuceneQuery(opts.q, opts.filters);
      Some(SearchRequest(
        if finalQuery.Some? && finalQuery.value != "" then finalQuery else None,
        Some(opts.page.GetOr(1)),
        opts.pageSize.GetOr(20),
        if opts.orderBy.Some? && opts.orderBy.value != "" then opts.orderBy else None))
  }

  /** With a pre-built query, the text and the facets have no effect on the request. */
  lemma RawQueryOverridesFilters(opts: SearchOptions, q: Option<string>, filters: Option<CardFilters>)
    requires opts.rawQuery.Some?
    ensures SearchRequestFor(opts.(q := q, filters := filters)) == SearchRequestFor(opts)
  {
  }

  // ── How a fetch settles a hook's state ──

  /** What a request ends with: data, a failure message, or cancellation. */
  datatype FetchOutcome<T> = Fetched(data: T) | Failed(message: string) | Aborted

  datatype SearchState = SearchState(result: Option<CardsPage>, loading: bool, error: Option<string>)

  const INITIAL_SEARCH := SearchState(None, false, None)

  /** The page shown when a search fails: every sample card, as one page. */
  function MockFallback(): (r: CardsPage)
    ensures r.cards == MockData.MockCards()
    ensures r.totalCount == |r.cards| == r.pageSize == 60 && r.page == 1
  {
    var cards := MockData.MockCards();
    CardsPage(cards, |cards|, 1, |cards|)
  }

  /**
   * One run of the search effect: nothing when disabled; otherwise loading with the error
   * cleared, and then the outcome: the fetched page, the sample-card fallback with the failure
   * message, or (when cancelled) nothing more.
   */
  function RunSearch(s: SearchState, opts: SearchOptions, outcome: FetchOutcome<CardsPage>): (r: SearchState)
    ensures opts.enabled == Some(false) ==> r == s
    ensures opts.enabled != Some(false) && outcome.Fetched? ==> r == SearchState(Some(outcome.data), false, None)
    ensures opts.enabled != Some(false) && outcome.Failed? ==> r == SearchState(Some(MockFallback()), false, Some(outcome.message))
    ensures opts.enabled != Some(false) && outcome.Aborted? ==> r == s.(loading := true, error := None)
  {
    if SearchRequestFor(opts).None? then s
    else
      var started := s.(loading := true, error := None);
      match outcome
      case Fetched(page) => started.(result := Some(page), loading := false)
      case Failed(msg) => started.(error := Some(msg), result := Some(MockFallback()), loading := false)
      case Aborted => started
  }

  /** The cards a settled search hands to `putCardsInCacheAndPersist`: the fetched page's, and none otherwise. */
  function SearchCardsToCache(opts: SearchOptions, outcome: FetchOutcome<CardsPage>): (r: seq<Card>)
    ensures r != [] ==> opts.enabled != Some(false) && outcome.Fetched? && r == outcome.data.cards
    ensures SearchRequestFor(opts).Some? && outcome.Fetched? ==> r == outcome.data.cards
  {
    if SearchRequestFor(opts).Some? && outcome.Fetched? then outcome.data.cards else []
  }

  /** A hook's value with its loading flag and error, as `useSets` and `useMeta` keep them. */
  datatype Loadable<T> = Loadable(value: T, loading: bool, error: Option<string>)

  /** The `.then`/`.catch` ending shared by `useSets` and `useMeta`. */
  function Settle<T>(st: Loadable<T>, outcome: FetchOutcome<T>): (r: Loadable<T>)
    ensures outcome.Fetched? ==> r == Loadable(outcome.data, false, None)
    ensures outcome.Failed? ==> r == Loadable(st.value, false, Some(outcome.message))
    ensures outcome.Aborted? ==> r == st
  {
    match outcome
    case Fetched(data) => Loadable(data, false, None)
    case Failed(msg) => st.(error := Some(msg), loading := false)
    case Aborted => st
  }

  /** `useSets`' success and failure handlers: a fetched list is first written to the store, then shown. */
  method SettleSets(cache: CardCache.Cache, st: Loadable<seq<CardSet>>, outcome: FetchOutcome<seq<CardSet>>,
                    now: int, dataOk: bool, stampOk: bool) returns (r: Loadable<seq<CardSet>>)
    modifies cache
    ensures r == Settle(st, outcome)
    ensures outcome.Fetched? && dataOk ==>
              cache.storage == CardCache.WithTimestamp(old(cache.storage)[CardCache.LS_SETS := CardCache.SetsJson(outcome.data)],
                                                       CardCache.LS_SETS, now, stampOk)
              && CardCache.CachedSets(cache.storage) == Some(r.value)
    ensures !(outcome.Fetched? && dataOk) ==> cache.storage == old(cache.storage)
    ensures cache.cards == old(cache.cards) && cache.order == old(cache.order) && cache.persistPending == old(cache.persistPending)
  {
    if outcome.Fetched? {
      cache.SetCachedSets(outcome.data, now, dataOk, stampOk);
    }
    r := Settle(st, outcome);
  }

  /** `useMeta`'s success and failure handlers: fetched meta is first written to the store, then shown. */
  method SettleMeta(cache: CardCache.Cache, st: Loadable<CachedMeta>, outcome: FetchOutcome<CachedMeta>,
                    now: int, dataOk: bool, stampOk: bool) returns (r: Loadable<CachedMeta>)
    modifies cache
    ensures r == Settle(st, outcome)
    ensures outcome.Fetched? && dataOk ==>
              cache.storage == CardCache.WithTimestamp(old(cache.storage)[CardCache.LS_META := CardCache.MetaJson(outcome.data)],
                                                       CardCache.LS_META, now, stampOk)
              && CardCache.CachedMetaIn(cache.storage) == Some(r.value)
    ensures !(outcome.Fetched? && dataOk) ==> cache.storage == old(cache.storage)
    ensures cache.cards == old(cache.cards) && cache.order == old(cache.order) && cache.persistPending == old(cache.persistPending)
  {
    if outcome.Fetched? {
      cache.SetCachedMeta(outcome.data, now, dataOk, stampOk);
    }
    r := Settle(st, outcome);
  }

  /**
   * `useSets` on mount: a non-empty cached list is shown at once and, when fresh, ends the
   * effect; a missing, empty or stale list starts a fetch.
   */
  function SetsOnMount(cached: Option<seq<CardSet>>, stale: bool): (r: (Loadable<seq<CardSet>>, bool))
    ensures r.1 <==> cached.None? || cached.value == [] || stale
    ensures r.0.value == (if cached.Some? && cached.value != [] then cached.value else [])
    ensures r.0.loading == r.1 && r.0.error.None?
  {
    var hit := cached.Some? && |cached.value| > 0;
    var shown := if hit then cached.value else [];
    var fetch := !hit || stale;
    (Loadable(shown, fetch, None), fetch)
  }

  /** The meta the hook starts from: the sample types and rarities, and no subtypes. */
  function DefaultMeta(): (m: CachedMeta)
    ensures m.types == MockData.MockTypes() && m.rarities == MockData.MockRarities() && m.subtypes == []
  {
    CachedMeta(MockData.MockTypes(), MockData.MockRarities(), [])
  }

  /** `useMeta` on mount: any cached meta is shown, and a fetch starts iff none is cached or it is stale. */
  function MetaOnMount(cached: Option<CachedMeta>, stale: bool): (r: (Loadable<CachedMeta>, bool))
    ensures r.1 <==> cached.None? || stale
    ensures r.0.value == (if cached.Some? then cached.value else DefaultMeta())
    ensures r.0.loading == r.1 && r.0.error.None?
  {
    var fetch := cached.None? || stale;
    (Loadable(if cached.Some? then cached.value else DefaultMeta(), fetch, None), fetch)
  }

  /**
   * Sets written to storage (a non-empty list, with its timestamp, at a non-zero instant) are
   * served without a fetch by every mount in the following 24 hours.
   */
  lemma StoredSetsNeedNoFetch(storage: map<string, CardCache.Stored>, sets: seq<CardSet>, written: int, now: int)
    requires sets != [] && written != 0 && written <= now <= written + CardCache.STALE_SETS
    ensures var after := CardCache.WithTimestamp(storage[CardCache.LS_SETS := CardCache.SetsJson(sets)], CardCache.LS_SETS, written, true);
            var (st, fetch) := SetsOnMount(CardCache.CachedSets(after), CardCache.IsSetsStale(after, now));
            !fetch && st.value == sets
  {
    var after := CardCache.WithTimestamp(storage[CardCache.LS_SETS := CardCache.SetsJson(sets)], CardCache.LS_SETS, written, true);
    assert CardCache.LS_SETS != CardCache.LS_TIMESTAMPS;
    assert CardCache.CachedSets(after) == Some(sets);
    CardCache.StampedIsFreshUntilThreshold(CardCache.Timestamps(storage[CardCache.LS_SETS := CardCache.SetsJson(sets)]),
                                           CardCache.LS_SETS, CardCache.STALE_SETS, written, now);
  }

  /** An empty stored list of sets counts as missing: the next mount fetches, however fresh it is. */
  lemma EmptyStoredSetsAreFetched(storage: map<string, CardCache.Stored>, now: int)
    requires CardCache.CachedSets(storage) == Some([])
    ensures SetsOnMount(CardCache.CachedSets(storage), CardCache.IsSetsStale(storage, now)).1
  {
  }

  // ── Featured cards ──

  datatype FeaturedState = FeaturedState(cards: seq<Card>, needsFetch: bool, loading: bool)

  /** The featured-cards request: the set's cards, `limit` of them, rarest first. */
  datatype FeaturedRequest = FeaturedRequest(q: string, pageSize: int, orderBy: string)

  /**
   * `useFeaturedCards` on mount, from the set's featured-cards cache: without a set id (or with
   * an empty one) nothing is cached and a fetch counts as needed; otherwise the cached cards
   * are shown and a fetch is needed iff none are cached or they are stale.
   */
  function FeaturedOnMount(setId: Option<string>, cached: Option<seq<Card>>, stale: bool): (r: FeaturedState)
    ensures setId.None? || setId.value == "" ==> r.cards == [] && r.needsFetch
    ensures setId.Some? && setId.value != "" ==>
              r.cards == (if cached.Some? then cached.value else []) && (r.needsFetch <==> cached.None? || stale)
    ensures !r.loading
  {
    if setId.None? || setId.value == "" then FeaturedState([], true, false)
    else FeaturedState(cached.GetOr([]), cached.None? || stale, false)
  }

  /** The request the featured effect issues: only for a set id, and only when a fetch is needed. */
  function FeaturedRequestFor(setId: Option<string>, st: FeaturedState, limit: Option<int>): (r: Option<FeaturedRequest>)
    ensures r.Some? <==> setId.Some? && setId.value != "" && st.needsFetch
    ensures r.Some? ==> r.value == FeaturedRequest("set.id:" + Quote(setId.value), limit.GetOr(8), "-rarity")
  {
    if setId.None? || setId.value == "" || !st.needsFetch then None
    else Some(FeaturedRequest("set.id:" + Quote(setId.value), limit.GetOr(8), "-rarity"))
  }

  /** A request is made exactly for a set whose featured cache is missing or stale. */
  lemma FeaturedFetchIffMissingOrStale(setId: string, cached: Option<seq<Card>>, stale: bool, limit: Option<int>)
    requires setId != ""
    ensures FeaturedRequestFor(Some(setId), FeaturedOnMount(Some(setId), cached, stale), limit).Some? <==> cached.None? || stale
  {
  }

  /**
   * One run of the featured effect: when a request is made, loading shows only while no cards
   * are on screen; the fetched cards replace the shown ones; a failure or cancellation keeps them.
   */
  function RunFeatured(setId: Option<string>, st: FeaturedState, limit: Option<int>, outcome: FetchOutcome<seq<Card>>): (r: FeaturedState)
    ensures FeaturedRequestFor(setId, st, limit).None? ==> r == st
    ensures FeaturedRequestFor(setId, st, limit).Some? && outcome.Fetched? ==> r == st.(cards := outcome.data, loading := false)
    ensures FeaturedRequestFor(setId, st, limit).Some? && outcome.Failed? ==> r == st.(loading := false)
    ensures FeaturedRequestFor(setId, st, limit).Some? && outcome.Aborted? ==> r == st.(loading := st.loading || st.cards == [])
  {
    if FeaturedRequestFor(setId, st, limit).None? then st
    else
      var started := if |st.cards| == 0 then st.(loading := true) else st;
      match outcome
      case Fetched(cards) => started.(cards := cards, loading := false)
      case Failed(_) => started.(loading := false)
      case Aborted => started
  }

  // ── Cards by id ──

  /** The ids a cache lookup does not resolve. */
  function NotCachedIn(cards: map<string, Card>): string -> bool {
    id => id !in cards
  }

  /** The ids among `missing` the by-id fetches returned a card for, with those cards. */
  function MergeFetched(resolved: map<string, Card>, missing: seq<string>, available: map<string, Card>): (r: map<string, Card>)
    ensures r.Keys == resolved.Keys + (set id | id in missing && id in available)
    ensures forall id | id in r :: r[id] == if id in missing && id in available then available[id] else resolved[id]
    decreases |missing|
  {
    if missing == [] then resolved
    else
      var rest := MergeFetched(resolved, missing[..|missing| - 1], available);
      var id := missing[|missing| - 1];
      if id in available then rest[id := available[id]] else rest
  }

  /** One id of the loop below: resolved from the cards when cached, otherwise appended to the missing ids. */
  function SplitOne(cards: map<string, Card>, id: string, resolved: map<string, Card>, missing: seq<string>)
    : (r: (map<string, Card>, seq<string>))
    ensures id in cards ==> r.0 == resolved[id := cards[id]] && r.1 == missing
    ensures id !in cards ==> r.0 == resolved && r.1 == missing + [id]
  {
    if id in cards then (resolved[id := cards[id]], missing) else (resolved, missing + [id])
  }

  /** One more id is either resolved from the cache or appended to the missing ids. */
  lemma CacheSplitStep(cards: map<string, Card>, ids: seq<string>, i: int, resolved: map<string, Card>, missing: seq<string>)
    requires 0 <= i < |ids|
    requires missing == Filter(ids[..i], NotCachedIn(cards))
    requires forall id :: id in resolved <==> id in ids[..i] && id in cards
    requires forall id | id in resolved :: resolved[id] == cards[id]
    ensures var (r, m) := SplitOne(cards, ids[i], resolved, missing);
            && m == Filter(ids[..i + 1], NotCachedIn(cards))
            && (forall id :: id in r <==> id in ids[..i + 1] && id in cards)
            && (forall id | id in r :: r[id] == cards[id])
  {
    assert ids[..i + 1] == ids[..i] + [ids[i]];
    FilterSnoc(ids[..i], ids[i], NotCachedIn(cards));
  }

  /**
   * The loop of `useCardsById`: each requested id is either resolved from the card cache or
   * collected, in request order, as missing.
   */
  method PartitionByCache(cache: CardCache.Cache, ids: seq<string>) returns (resolved: map<string, Card>, missing: seq<string>)
    ensures missing == Filter(ids, NotCachedIn(cache.cards))
    ensures forall id :: id in resolved <==> id in ids && id in cache.cards
    ensures forall id | id in resolved :: resolved[id] == cache.cards[id]
    ensures forall id | id in ids :: id in resolved <==> id !in missing
  {
    resolved, missing := map[], [];
    var i := 0;
    while i < |ids|
      invariant 0 <= i <= |ids|
      invariant missing == Filter(ids[..i], NotCachedIn(cache.cards))
      invariant forall id :: id in resolved <==> id in ids[..i] && id in cache.cards
      invariant forall id | id in resolved :: resolved[id] == cache.cards[id]
    {
      CacheSplitStep(cache.cards, ids, i, resolved, missing);
      var step := SplitOne(cache.cards, ids[i], resolved, missing);
      resolved, missing := step.0, step.1;
      i := i + 1;
    }
    assert ids[..i] == ids;
  }

  /**
   * `useCardsById(ids)`, with `available` the cards the by-id endpoint returns: no ids give an
   * empty result and no request; ids all in the cache give their cached cards and no request;
   * otherwise exactly the missing ids are requested and those that come back are added.
   */
  method CardsById(cache: CardCache.Cache, ids: seq<string>, available: map<string, Card>)
    returns (cards: map<string, Card>, requested: seq<string>)
    ensures requested == Filter(ids, NotCachedIn(cache.cards))
    ensures cards.Keys <= set id | id in ids
    ensures forall id | id in ids && id in cache.cards :: id in cards && cards[id] == cache.cards[id]
    ensures forall id | id in ids && id !in cache.cards :: (id in cards <==> id in available)
                                                          && (id in cards ==> cards[id] == available[id])
  {
    if ids == [] {
      return map[], [];
    }
    var resolved, missing := PartitionByCache(cache, ids);
    if missing == [] {
      return resolved, [];
    }
    cards := MergeFetched(resolved, missing, available);
    requested := missing;
  }
}
