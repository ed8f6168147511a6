# dexter: a verified model of the card catalogue, caches, store and screens

dexter is a Pokémon trading-card web app. A viewer browses the catalogue and marks cards as
owned or liked. They also file cards into binders of four-slot pages. This project models the
app's logic in Dafny:

- the bundled sample catalogue (`lib/mock-data.ts`);
- the browser-side card cache and its key/value persistence (`lib/card-cache.ts`);
- the server-side catalogue client with its expiring cache (`lib/tcg-api.ts`);
- the persisted store of card flags and binders (`lib/store.ts`);
- the data hooks (`hooks/use-tcg-data.ts`, `hooks/use-user-cards.ts`);
- the filtering, paging and form logic of the screens: discover feed, browse-all, curated
  gallery, set screen, collection tab, quick-filter bar, all-filters sheet and binder library.

Code that computes a value becomes datatypes, functions and lemmas. Code that changes state in
place becomes a Dafny `class`:

- the card cache module (`CardCache.Cache`);
- the server cache (`TcgApi.ServerCache`);
- the two screens that collect search pages (`CuratedGallery.Gallery`, `SetScreen.Screen`).

The store's actions build a new state from the old one, so they are `State -> State` functions.

Several consequences of the source as written are proved rather than assumed:

- The store keeps `{owned, liked}` per card, but the screens and `useUserCards` read a `status`
  field from that record. No status is ever read from it (`CardView.Overlay`), so:
  - `matchingIds` is always empty (`UserCards.StoreRecordsMatchNothing`);
  - both collection segments list nothing and both counts are zero
    (`CollectionTab.CollectionIsAlwaysEmpty`);
  - the chase row is simply the first ten "Rare Holo" sample cards
    (`DiscoverTab.SampleChaseIsFirstHolos`).
- When a feed search fails, the search hook keeps the whole sample page as its result. The feed
  then lists every sample card that passes the meta-filters, whatever text and facets are chosen
  (`DiscoverTab.FailedSearchFeedIgnoresTextAndFacets`). The client-side text and facet filters
  apply only while no page has arrived (`DiscoverTab.FallbackFeedIsExactlyTheAccepted`).
- An upstream page in the feed is only meta-filtered (`DiscoverTab.UpstreamFeedIsOnlyMetaFiltered`).
- An empty stored set list counts as missing, so the next mount fetches however fresh the list
  is (`TcgData.EmptyStoredSetsAreFetched`).

Network calls, the clock, random ids and storage write failures are parameters of the
operations that meet them: an outcome datatype, `now`, an id list, and `ok` flags.

## Model

| member | source | states |
|---|---|---|
| MockData.Sample | lib/mock-data.ts:8-73 | a sample card carries its row's id and owned/liked flags, and no set id and no status |
| MockData.MockCards | lib/mock-data.ts:8-73 | the catalogue holds sixty sample cards |
| MockData.SampleCardsCarryNoStatus | lib/mock-data.ts:8-73 | every sample card has owned and liked flags and no status |
| MockData.FieldValues | lib/mock-data.ts:76-79 | one field's values across a card list, one per card, in list order |
| MockData.DistinctIsFirstOccurrences | lib/mock-data.ts:76-79 | `[...new Set(xs)]` has no repeats, only input values, and lists them in first-occurrence order |
| MockData.FieldOptionsExact | lib/mock-data.ts:76-79 | a field's option list holds every value of that field across the cards exactly once, in first-occurrence order |
| MockData.CreateEmptySlots | lib/mock-data.ts:82-88 | `count` slots with the given ids, no card, and positions 0 to count-1 |
| MockData.DefaultBindersShape | lib/mock-data.ts:91-119 | the default list is one binder of four pages of four slots at positions 0-3; every slot of the first page holds a card and every slot of the third and fourth pages is empty |
| CardCache.CardMap.Set | lib/card-cache.ts:17-19 | the id maps to the card; a new id is appended to the insertion order, an existing one keeps its place; validity is kept |
| CardCache.CardMap.PutAll | lib/card-cache.ts:21-25 | setting a batch in order keeps every key listed once in the insertion order |
| CardCache.CardMap.HydrateAll | lib/card-cache.ts:150-154 | adding only absent ids keeps every key listed once in the insertion order |
| CardCache.CardMap.HydrateStep | lib/card-cache.ts:150-154 | one more stored entry is added when its id is not yet present and ignored otherwise |
| CardCache.CardMap.Entries | lib/card-cache.ts:137 | the entries are the ids in insertion order, each with its card |
| CardCache.CardMap.Values | lib/card-cache.ts:27-29 | the values are the cards in the insertion order of their ids |
| CardCache.ValuesAreTheCachedCards | lib/card-cache.ts:27-29 | the value list has one card per key, holds every cached card, and holds nothing else |
| CardCache.PutAllLastWins | lib/card-cache.ts:21-25 | after a batch, an id is present iff it was before or the batch has it; it holds the batch's last card with that id; other ids keep their cards |
| CardCache.FirstEntryOf | lib/card-cache.ts:150-154 | the position of the first entry with the id, or -1 exactly when no entry has it |
| CardCache.HydrateFirstWins | lib/card-cache.ts:145-156 | hydration never replaces a present card; an absent id gets the card of its first stored entry; no other id is added |
| CardCache.HydrateKnownIsNoop | lib/card-cache.ts:150-154 | hydrating entries whose ids are all present changes nothing |
| CardCache.NonSampleEntriesAreCurrent | lib/card-cache.ts:135-140 | every non-sample entry pairs an id with its current card, and no id appears twice |
| CardCache.PersistedIsNewestNonSample | lib/card-cache.ts:135-143 | at most 500 entries are written; they are the newest non-sample entries in insertion order, each with its current card, no id twice |
| CardCache.HydrateDistinctRestores | lib/card-cache.ts:150-154 | hydrating entries with distinct ids, none yet present, gives each id its own entry's card |
| CardCache.PersistThenReloadRestores | lib/card-cache.ts:135-156 | hydrating the written entries into a map of sample cards restores each written id to the card it had when written |
| CardCache.SetCardKey | lib/card-cache.ts:107-109 | the key is the fixed 14-character prefix followed by the set id |
| CardCache.SetCardKeysDistinct | lib/card-cache.ts:33-36 | a set's key never equals one of the four fixed keys, and two sets share a key only if they are the same set |
| CardCache.Timestamps | lib/card-cache.ts:43-49 | the stored timestamp table, or an empty one when it is missing or does not parse |
| CardCache.WithTimestamp | lib/card-cache.ts:51-55 | a successful write stamps the key with `now`; a failed one changes nothing; no other storage key changes |
| CardCache.SetTimestampOnlyOwnKey | lib/card-cache.ts:51-55 | stamping one key leaves every other key's stamp as it was |
| CardCache.StaleStaysStale | lib/card-cache.ts:75-79 | an entry that is stale at one instant is stale at every later instant |
| CardCache.StampedIsFreshUntilThreshold | lib/card-cache.ts:127-131 | an entry stamped at a non-zero instant is fresh until the threshold has passed, and stale one millisecond after |
| CardCache.CachedSets | lib/card-cache.ts:59-66 | the stored sets exactly when the key holds a parsed set list, nothing otherwise |
| CardCache.CachedMetaIn | lib/card-cache.ts:83-90 | the stored meta exactly when the key holds parsed meta, nothing otherwise |
| CardCache.SetCardCache | lib/card-cache.ts:111-118 | a set's stored first page exactly when its key holds one, nothing otherwise |
| CardCache.StoredEntries | lib/card-cache.ts:145-156 | the persisted entries when the key holds a parsed entry list, and none when it is missing or does not parse |
| CardCache.Cache.constructor | lib/card-cache.ts:6-11 | the map is seeded with every sample card, its keys are exactly the sample ids, and no persist is pending |
| CardCache.Cache.GetCard | lib/card-cache.ts:13-15 | a card exactly for a cached id, and it is that id's card |
| CardCache.Cache.PutCard | lib/card-cache.ts:17-19 | the map becomes the old map with the card set under its id; storage is untouched |
| CardCache.Cache.PutCards | lib/card-cache.ts:21-25 | the loop leaves the map equal to the old map with the whole batch set in order |
| CardCache.Cache.AllCachedCards | lib/card-cache.ts:27-29 | the cached cards in insertion order |
| CardCache.Cache.SetTimestamp | lib/card-cache.ts:51-55 | storage becomes the old storage with the key stamped (or unchanged when the write fails); the map is untouched |
| CardCache.Cache.SetCachedSets | lib/card-cache.ts:68-73 | a failed data write changes nothing; otherwise the sets read back and, with the stamp written at a non-zero instant, are fresh |
| CardCache.Cache.SetCachedMeta | lib/card-cache.ts:92-97 | a failed data write changes nothing; otherwise the meta reads back and, with the stamp written at a non-zero instant, is fresh |
| CardCache.Cache.SetSetCardCache | lib/card-cache.ts:120-125 | a failed data write changes nothing; otherwise the set's page reads back and, with the stamp written at a non-zero instant, is fresh |
| CardCache.Cache.PersistCardCache | lib/card-cache.ts:135-143 | a successful write stores the newest 500 non-sample entries; a failed one changes nothing |
| CardCache.Cache.HydrateCardCache | lib/card-cache.ts:145-156 | the loop leaves the map equal to the old map with each absent stored id added |
| CardCache.Cache.PutCardsInCacheAndPersist | lib/card-cache.ts:163-169 | the batch is in memory at once and exactly one delayed persist is pending |
| CardCache.Cache.FirePersistTimer | lib/card-cache.ts:168 | the delayed persist writes the map as it is when the delay ends, and nothing is pending afterwards |
| TcgApi.FirstType | lib/tcg-api.ts:53-65 | the first listed type, or "Colorless" when the list is absent or empty |
| TcgApi.TransformCard | lib/tcg-api.ts:53-65 | id, name, set, set id and small image copied; rarity and artist default to "Unknown"; status "none" |
| TcgApi.TransformSet | lib/tcg-api.ts:67-77 | every field copied, the two images under their own names |
| TcgApi.TransformCards | lib/tcg-api.ts:137 | one transformed card per upstream card, in order |
| TcgApi.TransformSets | lib/tcg-api.ts:87 | one transformed set per upstream set, in order |
| TcgApi.ApiHeaders | lib/tcg-api.ts:34-41 | always the JSON content type; the key header exactly when a key is set, non-empty and not the placeholder, and only with that key |
| TcgApi.CardsKeyOf | lib/tcg-api.ts:118-128 | the cache key has page 1, 20 per page and newest sets first by default, and a query only when one is given and non-empty |
| TcgApi.CardsKeySharedIffSameRequest | lib/tcg-api.ts:118-128 | two option sets share a cache entry exactly when they ask for the same effective request |
| TcgApi.Lookup | lib/tcg-api.ts:16-24 | the data exactly when the entry exists and its expiry has not passed |
| TcgApi.AfterLookup | lib/tcg-api.ts:19-22 | an expired entry is deleted and nothing else changes |
| TcgApi.Store | lib/tcg-api.ts:26-28 | the key is added and every other key keeps its entry |
| TcgApi.StoreThenLookup | lib/tcg-api.ts:16-28 | a stored value is served back until its time to live has elapsed, and not after |
| TcgApi.StoreLeavesOtherKeys | lib/tcg-api.ts:26-28 | storing under one key changes no other key's answer |
| TcgApi.LookupDeletionIsInvisible | lib/tcg-api.ts:19-22 | deleting an expired entry never changes any answer at the same instant or later |
| TcgApi.ServerCache.constructor | lib/tcg-api.ts:10 | the server cache starts empty |
| TcgApi.ServerCache.GetCached | lib/tcg-api.ts:16-24 | the answer is the lookup's; the cache loses the entry exactly when it has expired |
| TcgApi.ServerCache.SetCached | lib/tcg-api.ts:26-28 | the cache becomes the old cache with the entry stored |
| TcgApi.ServerCache.FetchSets | lib/tcg-api.ts:81-90 | upstream is called iff no live entry; a cached list is returned as is; an upstream list is transformed, cached for 24 hours from the instant the upstream call returned, and returned; a failure is passed on |
| TcgApi.ServerCache.FetchMeta | lib/tcg-api.ts:92-110 | as fetchSets over three lists; any failing one fails the fetch and nothing is cached; all three succeeding cache the meta for 24 hours from the instant they returned |
| TcgApi.ServerCache.FetchCards | lib/tcg-api.ts:112-144 | cached per effective request for 15 minutes from the instant the upstream call returned; the result always carries the requested page and page size |
| TcgApi.ServerCache.FetchCardById | lib/tcg-api.ts:146-159 | a cached card is returned without calling upstream; a failure yields no card and caches nothing; a fetched card is cached for 15 minutes from the instant the upstream call returned |
| Store.CardStatesFromLastWins | lib/store.ts:28-31 | the initial table has an entry exactly for the listed ids, each with the flags of the last card carrying it |
| Store.Existing | lib/store.ts:62 | the card's record, or not owned and not liked when it has none |
| Store.IsOwned | lib/store.ts:82 | false for an id with no record |
| Store.IsLiked | lib/store.ts:83 | false for an id with no record |
| Store.ToggleOwned | lib/store.ts:60-69 | the card's owned flag flips; its liked flag, every other record and the binders are unchanged |
| Store.ToggleLiked | lib/store.ts:71-80 | the card's liked flag flips; its owned flag, every other record and the binders are unchanged |
| Store.ToggleTwiceRestores | lib/store.ts:60-80 | toggling the same flag twice on a recorded card gives back the same state |
| Store.UpdateSlots | lib/store.ts:48 | the slots keep their order; exactly the slots with the id get the new card |
| Store.UpdatePages | lib/store.ts:44-50 | the pages keep their order; exactly the matching page's slots are updated |
| Store.UpdateBinderPages | lib/store.ts:33-53 | only the card of slots matching all three ids changes; every binder, page and slot keeps its place, ids and other fields |
| Store.UpdateBinderPagesIdempotent | lib/store.ts:33-53 | applying the same slot update twice is the same as applying it once |
| Store.SetSlotCard | lib/store.ts:136-139 | the binders are the slot update's result and the card records are unchanged |
| Store.ClearSlot | lib/store.ts:141-144 | every matching slot is left empty, no slot disappears, and the card records are unchanged |
| Store.ClearSlotIsSetNone | lib/store.ts:136-144 | clearing a slot is setting it to no card |
| Store.EmptyPage | lib/store.ts:123-130 | a new page of four empty slots at positions 0 to 3 |
| Store.AddBinder | lib/store.ts:88-108 | exactly one binder is appended with the name and colour and one page of four empty slots; the rest is unchanged |
| Store.DeleteBinderKeepsOthers | lib/store.ts:110-113 | every binder with the id is removed and every other binder stays as many times as it occurred |
| Store.DeleteBinder | lib/store.ts:110-113 | no binder with the id remains, every other binder stays in its order, and the card records are unchanged |
| Store.AddPage | lib/store.ts:115-134 | each matching binder gets one empty page at the end; every other binder is unchanged |
| CardView.Overlay | components/discover/discover-tab.tsx:84-87 | the store's records carry no status, so the overlay leaves every card as it is |
| CardView.OverlayAll | components/discover/database-screen.tsx:36-41 | overlaying a list leaves it unchanged |
| CardView.ApplyMetaFilters | components/discover/database-screen.tsx:67-73 | exactly the cards with the demanded status remain |
| CardView.MetaFiltersKeepOrder | components/discover/database-screen.tsx:67-73 | the meta-filters only drop cards; the rest keep their order |
| CardView.BothMetaFiltersLeaveNothing | components/discover/database-screen.tsx:67-73 | owned and wishlist together leave no card |
| CardView.NoMetaFilterKeepsAll | components/discover/database-screen.tsx:67-73 | without a meta-filter every card remains |
| CardView.DedupeKeepFirstIsDedupe | components/discover/curated-gallery-screen.tsx:65 | keeping the first card of each id meets the de-duplication contract, so that contract can be met |
| CardView.DedupeSize | components/discover/curated-gallery-screen.tsx:65-67 | any de-duplication holds exactly one card per distinct id |
| UserCards.MatchingIds | hooks/use-user-cards.ts:13-17 | exactly the ids of entries with the status, each at most once per entry |
| UserCards.RecordEntries | hooks/use-user-cards.ts:14-15 | one entry per record key, pairing the id with the status read from its record |
| UserCards.StoreRecordsMatchNothing | hooks/use-user-cards.ts:13-17 | as the store is written, no id ever matches |
| UserCards.CachedWithStatusAreTheCachedCards | hooks/use-user-cards.ts:23-30 | one card per cached id, in order: the i-th is the cache's card for the i-th cached id with its status replaced |
| UserCards.PartitionStep | hooks/use-user-cards.ts:23-30 | one more id either appends its cached card with the status or appends the id to the missing ones, keeping both lists exact |
| UserCards.PartitionCounts | hooks/use-user-cards.ts:23-30 | every id is either cached or missing, never both |
| UserCards.PartitionCached | hooks/use-user-cards.ts:20-32 | the loop yields exactly the cached cards with the status and exactly the missing ids, in order |
| UserCards.MissingAreAllRequested | hooks/use-user-cards.ts:35 | the by-id hook requests every missing id again |
| UserCards.WithStatus | hooks/use-user-cards.ts:40-42 | every card with its status replaced, in order |
| UserCards.Combine | hooks/use-user-cards.ts:38-44 | the cached cards, then every fetched card with the status |
| UserCards.UserCards | hooks/use-user-cards.ts:9-47 | every returned card carries the status, the cached ones come first, and an id is requested iff it matches and is not cached |
| TcgData.Quoted | hooks/use-tcg-data.ts:146 | each value quoted, in order |
| TcgData.TextPart | hooks/use-tcg-data.ts:141-143 | a name fragment with the trimmed text exactly when the text is present and not blank |
| TcgData.FacetPart | hooks/use-tcg-data.ts:145-160 | a facet's fragment exactly when the facet has a value |
| TcgData.QueryParts | hooks/use-tcg-data.ts:139-161 | no fragment exactly when there is no text and no facet value |
| TcgData.QueryAbsentIffNoCriteria | hooks/use-tcg-data.ts:139-163 | the query is absent exactly when there is no text and no facet value |
| TcgData.FirstPartNonEmpty | hooks/use-tcg-data.ts:162 | the first fragment is never empty, so a join with fragments is never empty |
| TcgData.QueryLeadsWithText | hooks/use-tcg-data.ts:141-143 | with text, the query starts with the name fragment |
| TcgData.QueryLeadsWithSet | hooks/use-tcg-data.ts:145-148 | without text, a selected set leads the query |
| TcgData.SingleSetQuery | hooks/use-tcg-data.ts:145-148 | one selected set and nothing else gives `set.name:("Base")` |
| TcgData.SearchRequestFor | hooks/use-tcg-data.ts:165-173 | no request when disabled; the pre-built query, when given, replaces the built one; page 1 and 20 per page by default; an empty ordering is not sent |
| TcgData.RawQueryOverridesFilters | hooks/use-tcg-data.ts:169 | with a pre-built query the text and facets do not affect the request |
| TcgData.MockFallback | hooks/use-tcg-data.ts:199-204 | the fallback page is every sample card, sixty of them, as page 1 |
| TcgData.RunSearch | hooks/use-tcg-data.ts:165-207 | disabled changes nothing; a fetched page is shown; a failure shows the sample page with the message; a cancel leaves it loading |
| TcgData.SearchCardsToCache | hooks/use-tcg-data.ts:185-186 | the cards of a fetched page of an enabled search are exactly the ones cached, and nothing is cached otherwise |
| TcgData.SettleSets | hooks/use-tcg-data.ts:46-61 | a fetched list is written to the sets entry with its timestamp, and reads back as the shown list; a failure or cancel leaves storage alone; the shown state is Settle's |
| TcgData.SettleMeta | hooks/use-tcg-data.ts:94-109 | fetched meta is written to the meta entry with its timestamp, and reads back as the shown meta; a failure or cancel leaves storage alone; the shown state is Settle's |
| TcgData.Settle | hooks/use-tcg-data.ts:46-61 | fetched data replaces the value and clears the error; a failure keeps the value with the message; a cancel changes nothing |
| TcgData.SetsOnMount | hooks/use-tcg-data.ts:30-39 | a non-empty cached list is shown; a fetch starts iff the list is missing, empty or stale |
| TcgData.DefaultMeta | hooks/use-tcg-data.ts:22 | the sample types and rarities, and no subtypes |
| TcgData.MetaOnMount | hooks/use-tcg-data.ts:78-87 | any cached meta is shown; a fetch starts iff none is cached or it is stale |
| TcgData.StoredSetsNeedNoFetch | hooks/use-tcg-data.ts:30-36 | sets written with their stamp are served without a fetch for the next 24 hours |
| TcgData.EmptyStoredSetsAreFetched | hooks/use-tcg-data.ts:33 | an empty stored list is fetched however fresh it is |
| TcgData.FeaturedOnMount | hooks/use-tcg-data.ts:219-225 | without a set id nothing is shown and a fetch counts as needed; otherwise the cached cards are shown and a fetch is needed iff none or stale |
| TcgData.FeaturedRequestFor | hooks/use-tcg-data.ts:229-237 | a request only for a set id and a needed fetch: the set's cards, `limit` (8 by default), rarest first |
| TcgData.FeaturedFetchIffMissingOrStale | hooks/use-tcg-data.ts:219-237 | a set's featured cards are requested exactly when their cache is missing or stale |
| TcgData.RunFeatured | hooks/use-tcg-data.ts:228-259 | loading shows only while no cards are on screen; fetched cards replace the shown ones; a failure keeps them |
| TcgData.MergeFetched | hooks/use-tcg-data.ts:299-319 | the resolved cards plus exactly the missing ids the endpoint returned, with their cards |
| TcgData.SplitOne | hooks/use-tcg-data.ts:280-287 | a cached id is resolved to its card and the missing list is untouched; an uncached id is appended to the missing list and nothing is resolved |
| TcgData.CacheSplitStep | hooks/use-tcg-data.ts:280-287 | one more id keeps the resolved map exactly the cached ids seen so far, with their cards, and the missing list exactly the uncached ones |
| TcgData.PartitionByCache | hooks/use-tcg-data.ts:277-287 | the loop resolves exactly the cached ids to their cards and collects the rest, in order, as missing |
| TcgData.CardsById | hooks/use-tcg-data.ts:266-325 | cached ids keep their cached card; exactly the uncached ids are requested; an uncached id has a card iff the endpoint returned one |
| CuratedGallery.Gallery.constructor | components/discover/curated-gallery-screen.tsx:29-37 | the incoming query and filters (empty by default), no meta-filter, page 1, nothing collected |
| CuratedGallery.Gallery.SearchOptions | components/discover/curated-gallery-screen.tsx:49-55 | the trimmed text or none, the current page, 20 per page, the facets, no pre-built query |
| CuratedGallery.Gallery.ApplyResult | components/discover/curated-gallery-screen.tsx:58-70 | the collected list becomes the de-duplicated page (page 1) or old list plus page; a short page marks the end, which then stays |
| CuratedGallery.Gallery.HandleFiltersChange | components/discover/curated-gallery-screen.tsx:73-78 | new facets, page 1, nothing collected, end not reached |
| CuratedGallery.Gallery.HandleQueryChange | components/discover/curated-gallery-screen.tsx:80-85 | new text, page 1, nothing collected, end not reached |
| CuratedGallery.Gallery.SetMetaFilters | components/discover/curated-gallery-screen.tsx:33 | the meta-filters change and nothing else does |
| CuratedGallery.Gallery.LoadMore | components/discover/curated-gallery-screen.tsx:205 | the page goes up by one and nothing else changes |
| CuratedGallery.Gallery.DisplayCards | components/discover/curated-gallery-screen.tsx:88-103 | exactly the cards of the active source (search results or curated) that pass the meta-filters |
| CuratedGallery.SearchesIffHasSearch | components/discover/curated-gallery-screen.tsx:41-55 | a search request is issued exactly when the screen is searching |
| CuratedGallery.NoMoreWithoutSearchOrAfterEnd | components/discover/curated-gallery-screen.tsx:108 | never more to load outside search mode or after a short page |
| CuratedGallery.HasMoreAfterReset | components/discover/curated-gallery-screen.tsx:107-108 | after a reset, more is available iff searching and the search reports any card |
| CuratedGallery.EmptySearchShowsNothing | components/discover/curated-gallery-screen.tsx:88-103 | searching with nothing collected shows nothing |
| SetScreen.Screen.constructor | components/discover/set-screen.tsx:29-38 | the stored first page's cards and count (none and 0 without one); a fetch is needed iff nothing is stored or it is stale |
| SetScreen.Screen.SearchOptions | components/discover/set-screen.tsx:41-47 | the set's query by number, the current page, 60 per page, enabled iff a fetch is needed or past page 1 |
| SetScreen.Screen.ApplyResult | components/discover/set-screen.tsx:50-63 | the list becomes the de-duplicated result with unique ids; page 1 writes the set's storage entry and its timestamp and no other key, a later page leaves storage alone; the card map and the pending persist stay as they were |
| SetScreen.Screen.LoadMore | components/discover/set-screen.tsx:130 | the page goes up by one and the list is kept |
| SetScreen.Screen.Cards | components/discover/set-screen.tsx:66-71 | the overlaid list is the collected list |
| SetScreen.RequestIffNeededOrPaging | components/discover/set-screen.tsx:41-47 | a request is issued iff the stored page is missing or stale or a later page is wanted, always for the set's cards by number, 60 at a time |
| DatabaseScreen.FilteredIsExactlyTheAccepted | components/discover/database-screen.tsx:43-76 | the list keeps, in order, exactly the cards matching the text (name, set or artist), every selected facet and the meta-filters |
| DatabaseScreen.NoCriteriaListsAll | components/discover/database-screen.tsx:43-76 | with no criterion every card is listed |
| DatabaseScreen.BothMetaFiltersListNothing | components/discover/database-screen.tsx:68-73 | owned and wishlist together list nothing |
| DatabaseScreen.Open | components/discover/database-screen.tsx:29-33 | the incoming filters and query (empty by default), no meta-filter, 20 visible |
| DatabaseScreen.Visible | components/discover/database-screen.tsx:78 | the first `visibleCount` cards of the list, or all of them when fewer |
| DatabaseScreen.HasMoreIffSomethingHidden | components/discover/database-screen.tsx:78-79 | there is more exactly when the visible part is shorter than the list |
| DatabaseScreen.HandleFiltersChange | components/discover/database-screen.tsx:81-84 | only the facets change, and the visible count goes back to 20 |
| DatabaseScreen.HandleQueryChange | components/discover/database-screen.tsx:86-89 | only the text changes, and the visible count goes back to 20 |
| DatabaseScreen.LoadMore | components/discover/database-screen.tsx:138 | only the visible count changes, by 20 |
| DatabaseScreen.LoadMoreExtendsVisible | components/discover/database-screen.tsx:78-138 | loading more keeps the visible cards in front and never shows fewer |
| DiscoverTab.FeedSearchOptions | components/discover/discover-tab.tsx:70-75 | the trimmed text or none, the facets, 20 per page, enabled exactly with a feed filter |
| DiscoverTab.FeedSearchesIffFiltered | components/discover/discover-tab.tsx:64-75 | the feed searches exactly when a feed filter is active, for page 1 of 20 |
| DiscoverTab.MetaOnlyFeedSendsNoQuery | components/discover/discover-tab.tsx:64-75 | with only meta-filters the feed still searches, with no query |
| DiscoverTab.FeedFilteredCards | components/discover/discover-tab.tsx:78-121 | no list exactly when no feed filter is active |
| DiscoverTab.FallbackChainIsAccepted | components/discover/discover-tab.tsx:88-118 | for any card list, the fallback filters followed by the meta-filters keep exactly the accepted cards, in order |
| DiscoverTab.FallbackFeedIsExactlyTheAccepted | components/discover/discover-tab.tsx:88-118 | with no page yet, exactly the sample cards meeting the text, every facet and the meta-filters, in order |
| DiscoverTab.UpstreamFeedIsOnlyMetaFiltered | components/discover/discover-tab.tsx:83-87 | a page's cards are kept in order exactly when they pass the meta-filters |
| DiscoverTab.FailedSearchFeedIgnoresTextAndFacets | components/discover/discover-tab.tsx:78-121 | after a failed search the feed is every sample card passing the meta-filters |
| DiscoverTab.Score | components/discover/discover-tab.tsx:136 | 2 exactly for wishlist, 1 exactly for owned, 0 otherwise |
| DiscoverTab.SortPermutes | components/discover/discover-tab.tsx:135-138 | the sort keeps every card as many times as it occurs |
| DiscoverTab.SortIsBuckets | components/discover/discover-tab.tsx:135-138 | the stable sort is wishlist cards, then owned, then the rest, each group in original order |
| DiscoverTab.BucketsDescend | components/discover/discover-tab.tsx:135-138 | the sorted list never rises in score |
| DiscoverTab.UnmarkedCardsKeepTheirOrder | components/discover/discover-tab.tsx:135-138 | with no status on any card the sort keeps the list |
| DiscoverTab.ChaseCardsAreTopHolos | components/discover/discover-tab.tsx:132-140 | at most 10 "Rare Holo" cards from the list: the first ten of the holo cards grouped wishlist, owned, rest |
| DiscoverTab.SampleChaseIsFirstHolos | components/discover/discover-tab.tsx:124-140 | over the sample cards the chase list is the first ten holo cards |
| DiscoverTab.RowList | components/discover/discover-tab.tsx:146-148 | at most 12 cards, each from the list with the row's field value |
| DiscoverTab.RowCardsFrom | components/discover/discover-tab.tsx:144-150 | each row's id maps to its list, and no other key is present |
| DiscoverTab.RowIdsDistinct | components/discover/discover-tab.tsx:29-36 | no two rows share an id |
| DiscoverTab.RowCards | components/discover/discover-tab.tsx:143-151 | each of the six rows' ids maps to its list, and no other key is present |
| DiscoverTab.HandleViewAll | components/discover/discover-tab.tsx:153-156 | just the row's facet, holding just the row's value |
| DiscoverTab.RowIsPrefixOfViewAll | components/discover/discover-tab.tsx:143-156 | a row shows the first cards of the browse-all list its "View all" opens |
| CollectionTab.SegmentStatus | components/collection/collection-tab.tsx:28-30 | wishlist exactly for the wishlist segment, owned exactly for the owned segment |
| CollectionTab.StatusCount | components/collection/collection-tab.tsx:41-42 | a count never exceeds the number of sample cards |
| CollectionTab.ListedIsExactlyTheMatching | components/collection/collection-tab.tsx:21-39 | exactly the sample cards of the segment whose name contains the text, in order |
| CollectionTab.EmptyQueryListsTheSegmentCount | components/collection/collection-tab.tsx:21-42 | with no text the list is as long as the segment's count |
| CollectionTab.CountsAreDisjoint | components/collection/collection-tab.tsx:41-42 | the two counts together never exceed the sample size |
| CollectionTab.CollectionIsAlwaysEmpty | components/collection/collection-tab.tsx:21-42 | as written, both segments list nothing and both counts are zero |
| QuickFilterBar.TotalActive | components/shared/quick-filter-bar.tsx:54-55 | every selected facet value plus every meta-filter |
| QuickFilterBar.ToggleChip | components/shared/quick-filter-bar.tsx:61-67 | the chip becomes active iff it was not; other facets and other values are unchanged |
| QuickFilterBar.ToggleChipTwiceRestores | components/shared/quick-filter-bar.tsx:61-67 | toggling an inactive chip on and off gives back the same filters |
| QuickFilterBar.ToggleOnCountsOne | components/shared/quick-filter-bar.tsx:54-67 | switching an inactive chip on raises the count by one |
| QuickFilterBar.ToggleMeta | components/shared/quick-filter-bar.tsx:69-76 | nothing without a handler; otherwise the meta-filter flips and the others stay |
| QuickFilterBar.ClearAll | components/shared/quick-filter-bar.tsx:78-81 | no facet value, and an empty meta list exactly when there is a handler |
| QuickFilterBar.ClearAllLeavesNothingActive | components/shared/quick-filter-bar.tsx:54-81 | after clearing with a handler nothing is active |
| AllFiltersModal.Init | components/shared/all-filters-modal.tsx:40 | the draft starts as the given filters |
| AllFiltersModal.Sync | components/shared/all-filters-modal.tsx:43-45 | an open sheet copies the incoming filters; a closed one keeps its draft |
| AllFiltersModal.TotalDraft | components/shared/all-filters-modal.tsx:47-50 | the number of selected values across the four facets |
| AllFiltersModal.ToggleOption | components/shared/all-filters-modal.tsx:52-59 | one value's membership in one facet flips; everything else is unchanged |
| AllFiltersModal.ToggleOptionTwiceRestores | components/shared/all-filters-modal.tsx:52-59 | selecting and unselecting an option gives back the draft |
| AllFiltersModal.ClearAll | components/shared/all-filters-modal.tsx:61-63 | an empty draft |
| AllFiltersModal.HandleApply | components/shared/all-filters-modal.tsx:65-68 | the draft is handed on unchanged and the sheet closes |
| AllFiltersModal.OpenThenApplyIsIdentity | components/shared/all-filters-modal.tsx:43-68 | opening and applying at once hands back the incoming filters |
| BinderLibraryScreen.FindColor | components/binder/binder-library-screen.tsx:29 | the first entry for the colour, and none exactly when no entry has it |
| BinderLibraryScreen.GetBinderColorClasses | components/binder/binder-library-screen.tsx:28-30 | always one of the six entries |
| BinderLibraryScreen.ColorClassesMatchTheColor | components/binder/binder-library-screen.tsx:19-30 | every colour has an entry, so the red fallback is never used |
| BinderLibraryScreen.FilledInSlots | components/binder/binder-library-screen.tsx:73 | a page never has more filled slots than slots |
| BinderLibraryScreen.FilledAtMostTotal | components/binder/binder-library-screen.tsx:72-75 | a binder never has more filled slots than slots |
| BinderLibraryScreen.EmptySlotsAreUnfilled | components/binder/binder-library-screen.tsx:72-75 | slots without a card count as unfilled |
| BinderLibraryScreen.BinderName | components/binder/binder-library-screen.tsx:44 | the trimmed name, or "Untitled Binder" when it is blank; never empty |
| BinderLibraryScreen.HandleCreate | components/binder/binder-library-screen.tsx:43-49 | one binder is appended with that name and colour, one page, 4 slots and none filled; the form resets to empty, blue, closed |
| Seqs.Filter | components/discover/database-screen.tsx:55-66 | exactly the elements that pass, never more than the input |
| Seqs.FilterMultiplicity | components/discover/database-screen.tsx:55-66 | each passing value is kept as often as it occurs, and every other value is dropped |
| Seqs.Toggle | components/shared/quick-filter-bar.tsx:62-65 | the value is present iff it was absent; every other value keeps its membership |
| Seqs.ToggleTwiceRestores | components/shared/all-filters-modal.tsx:55-57 | adding an absent value and removing it again gives back the list |
| Seqs.Take | components/discover/discover-tab.tsx:139 | the first `n` elements, or all of them when there are fewer |
| Text.Lower | components/discover/database-screen.tsx:47 | same length, each character lower-cased |
| Text.TrimEmptyIff | components/discover/discover-tab.tsx:64-65 | a string trims to nothing exactly when all of it is white space |
| Text.Join | hooks/use-tcg-data.ts:162 | no part joins to the empty string and one part joins to itself |

## Left out

- Store.AddPage: one page id and one slot id list are given for every binder whose id matches, where `addPage` draws fresh ids inside the map for each match. The two agree when binder ids are unique, which the model does not require.
- Network I/O: every fetch's outcome is a parameter (an outcome datatype, or the data the endpoint returns). The API route handlers under `app/api/` are not part of this model.
- The upstream HTTP call (`apiFetch`), the base URL and the request paths are not modelled. The outcome of the call is a parameter.
- The clock is a `now` parameter. The server fetches read it twice: `now` for the cache lookup, and a later `storedAt` (after the upstream call returns) for the cache write. Random ids (`generateId`) are parameters of the operations that create binders, pages and slots.
- localStorage and JSON are a map from key to parsed value (`CardCache.Stored`), with an explicit "does not parse" value. A quota failure is a `writeOk`/`dataOk`/`stampOk` flag.
- The server cache's string keys (`URLSearchParams` text) become an injective key datatype (`TcgApi.CacheKey`). The parameter encoding itself is not modelled.
- `toLowerCase` folds only the ASCII capitals. `trim` uses a fixed set of white-space characters. No Unicode case mapping is modelled.
- React effect scheduling, `startTransition`, abort controllers and re-renders are not modelled. Each effect is one function or method run to completion, and cancellation is the `Aborted` outcome.
- The 2-second persist debounce is a pending flag plus `CardCache.Cache.FirePersistTimer`. Timer identity and elapsed time are not modelled.
- `getSetFeaturedCache`, `setSetFeaturedCache` and `isSetFeaturedCacheStale` are imported by the hooks but not defined in `lib/card-cache.ts`. The featured cache's content and staleness are therefore parameters of `TcgData.FeaturedOnMount`.
- TcgData.RunFeatured: the write of fetched featured cards into the card cache and the featured cache is not modelled. The featured cache functions are not defined, as above.
- TcgData.CardsById: fetched cards are not written back into the card cache (`putCardsInCacheAndPersist`). The request list and the returned map are modelled.
- `useCuratedCards` (the curated default list) is not defined in the hooks file. The curated cards are a parameter of `CuratedGallery.Gallery.DisplayCards`. Its loading, stale, error and retry values are not modelled.
- `dedupeById` (from `lib/utils`) is not part of this model. Its result is a parameter constrained by `CardView.IsDedupeOf`; `CardView.DedupeKeepFirst` shows that constraint can be met.
- The discover feed's query, facets and meta-filters and the collection tab's segment and query come from store fields that `lib/store.ts` does not define. They are parameters of the feed and collection functions.
- Rendering, styling and navigation (which screen is shown, the selected card, the card-detail and picker modals) are not modelled. The all-filters sheet's option sections are not modelled either.
- The store's `persist` middleware (saving the store under "pokemon-binder-storage") is not modelled. A state is a value.
- Loading flags and the first-load placeholders of the screens are not modelled.
- Integer widths are not modelled: counts, pages, timestamps and time-to-live arithmetic use unbounded integers, as JavaScript numbers stay exact at these sizes.
