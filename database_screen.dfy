/**
 * The browse-all screen: the sample cards, status-overlaid, narrowed by the text query, each
 * selected facet and the meta-filters, then shown 20 more at a time.
 */
module DatabaseScreen {
  import opened Types
  import opened Seqs
  import Text
  import Store
  import CardView
  import MockData

  const CARDS_PER_PAGE := 20

  /** The card's name, set or artist contains the (already lower-cased) needle, ignoring case. */
  predicate TextMatches(c: Card, needle: string) {
    Text.Contains(Text.Lower(c.name), needle) || Text.Contains(Text.Lower(c.setName), needle)
    || Text.Contains(Text.Lower(c.artist), needle)
  }

  function TextStep(needle: string): Card -> bool {
    (c: Card) => TextMatches(c, needle)
  }

  /** One facet's filter: the card's field is one of the selected values. */
  function FacetStep(key: FacetKey, values: seq<string>): Card -> bool {
    (c: Card) => CardField(c, key) in values
  }

  function FacetSteps(filters: CardFilters): seq<Card -> bool> {
    (if |filters.rarity| > 0 then [FacetStep(RarityKey, filters.rarity)] else [])
    + (if |filters.artist| > 0 then [FacetStep(ArtistKey, filters.artist)] else [])
    + (if |filters.sets| > 0 then [FacetStep(SetKey, filters.sets)] else [])
    + (if |filters.types| > 0 then [FacetStep(TypeKey, filters.types)] else [])
  }

  /** The filters the screen applies, in its order: text (when the query is non-empty), rarity, artist, set, type, owned, wishlist. */
  function Steps(query: string, filters: CardFilters, metas: seq<MetaFilter>): seq<Card -> bool> {
    (if query != "" then [TextStep(Text.Lower(query))] else []) + FacetSteps(filters) + CardView.MetaSteps(metas)
  }

  /** `filtered`, over the status-overlaid cards `all`. */
  function Filtered(all: seq<Card>, query: string, filters: CardFilters, metas: seq<MetaFilter>): seq<Card> {
    Chain(all, Steps(query, filters, metas))
  }

  /** Every selected facet admits the card. */
  predicate FacetsAccept(filters: CardFilters, c: Card) {
    (|filters.rarity| > 0 ==> c.rarity in filters.rarity)
    && (|filters.artist| > 0 ==> c.artist in filters.artist)
    && (|filters.sets| > 0 ==> c.setName in filters.sets)
    && (|filters.types| > 0 ==> c.cardType in filters.types)
  }

  /** What a shown card must satisfy: the text query, every selected facet, and the meta-filters. */
  predicate Accepts(query: string, filters: CardFilters, metas: seq<MetaFilter>, c: Card) {
    (query != "" ==> TextMatches(c, Text.Lower(query))) && FacetsAccept(filters, c) && CardView.MetaAccepts(metas, c)
  }

  lemma FacetStepsMean(filters: CardFilters, c: Card)
    ensures AllOf(FacetSteps(filters), c) <==> FacetsAccept(filters, c)
  {
    var r := if |filters.rarity| > 0 then [FacetStep(RarityKey, filters.rarity)] else [];
    var a := if |filters.artist| > 0 then [FacetStep(ArtistKey, filters.artist)] else [];
    var s := if |filters.sets| > 0 then [FacetStep(SetKey, filters.sets)] else [];
    var y := if |filters.types| > 0 then [FacetStep(TypeKey, filters.types)] else [];
    AllOfConcat(r + a + s, y, c);
    AllOfConcat(r + a, s, c);
    AllOfConcat(r, a, c);
    AllOfOptional(|filters.rarity| > 0, FacetStep(RarityKey, filters.rarity), c);
    AllOfOptional(|filters.artist| > 0, FacetStep(ArtistKey, filters.artist), c);
    AllOfOptional(|filters.sets| > 0, FacetStep(SetKey, filters.sets), c);
    AllOfOptional(|filters.types| > 0, FacetStep(TypeKey, filters.types), c);
  }

  lemma StepsMeanAccepts(query: string, filters: CardFilters, metas: seq<MetaFilter>, c: Card)
    ensures AllOf(Steps(query, filters, metas), c) <==> Accepts(query, filters, metas, c)
  {
    var t := if query != "" then [TextStep(Text.Lower(query))] else [];
    AllOfConcat(t + FacetSteps(filters), CardView.MetaSteps(metas), c);
    AllOfConcat(t, FacetSteps(filters), c);
    AllOfOptional(query != "", TextStep(Text.Lower(query)), c);
    FacetStepsMean(filters, c);
    CardView.MetaStepsMean(metas, c);
  }

  /**
   * The filtered list keeps, in their original order, exactly the cards that meet every
   * active criterion.
   */
  lemma FilteredIsExactlyTheAccepted(all: seq<Card>, query: string, filters: CardFilters, metas: seq<MetaFilter>)
    ensures IsSubsequence(Filtered(all, query, filters, metas), all)
    ensures forall c | c in Filtered(all, query, filters, metas) :: c in all && Accepts(query, filters, metas, c)
    ensures forall c | c in all && Accepts(query, filters, metas, c) :: c in Filtered(all, query, filters, metas)
  {
    var steps := Steps(query, filters, metas);
    ChainIsOneFilter(all, steps);
    FilterIsSubsequence(all, AllOfFn(steps));
    forall c ensures AllOfFn(steps)(c) <==> Accepts(query, filters, metas, c) {
      StepsMeanAccepts(query, filters, metas, c);
    }
  }

  /** With no query, no facet value and no meta-filter, every card is listed. */
  lemma NoCriteriaListsAll(all: seq<Card>, filters: CardFilters)
    requires filters.ActiveCount() == 0
    ensures Filtered(all, "", filters, []) == all
  {
    assert Steps("", filters, []) == [];
  }

  /** Owned and wishlist together admit no card. */
  lemma BothMetaFiltersListNothing(all: seq<Card>, query: string, filters: CardFilters, metas: seq<MetaFilter>)
    requires OwnedOnly in metas && WishlistOnly in metas
    ensures Filtered(all, query, filters, metas) == []
  {
    var steps := Steps(query, filters, metas);
    ChainIsOneFilter(all, steps);
    forall c | c in all ensures !AllOfFn(steps)(c) {
      StepsMeanAccepts(query, filters, metas, c);
    }
    FilterNone(all, AllOfFn(steps));
  }

  /** The screen's own state: what the viewer typed and picked, and how many cards are shown. */
  datatype View = View(query: string, filters: CardFilters, metas: seq<MetaFilter>, visibleCount: int)

  /** The screen opened with the incoming filters (none by default) and query (empty by default). */
  function Open(initialFilters: Option<CardFilters>, initialQuery: Option<string>): (v: View)
    ensures v.visibleCount == CARDS_PER_PAGE && v.metas == []
    ensures v.filters == initialFilters.GetOr(EMPTY_FILTERS) && v.query == initialQuery.GetOr("")
  {
    View(initialQuery.GetOr(""), initialFilters.GetOr(EMPTY_FILTERS), [], CARDS_PER_PAGE)
  }

  /** The listed cards for a store state: the sample cards, overlaid and filtered. */
  function ListFor(v: View, states: map<string, Store.CardState>): seq<Card> {
    Filtered(CardView.OverlayAll(states, MockData.MockCards()), v.query, v.filters, v.metas)
  }

  /** `visible`: the first `visibleCount` of the list. */
  function Visible(v: View, list: seq<Card>): (r: seq<Card>)
    ensures |r| == if v.visibleCount <= 0 then 0 else if v.visibleCount < |list| then v.visibleCount else |list|
    ensures r == list[..|r|]
  {
    Take(list, v.visibleCount)
  }

  /** `hasMore`: part of the list is not shown yet. */
  predicate HasMore(v: View, list: seq<Card>) {
    v.visibleCount < |list|
  }

  /** Exactly when there is more, the visible part is a strict prefix of the list. */
  lemma HasMoreIffSomethingHidden(v: View, list: seq<Card>)
    requires v.visibleCount >= 0
    ensures HasMore(v, list) <==> |Visible(v, list)| < |list|
  {
  }

  /** `handleFiltersChange(f)`: new facets and back to the first 20. */
  function HandleFiltersChange(v: View, f: CardFilters): (r: View)
    ensures r == v.(filters := f, visibleCount := CARDS_PER_PAGE)
  {
    View(v.query, f, v.metas, CARDS_PER_PAGE)
  }

  /** `handleQueryChange(q)`: new text and back to the first 20. */
  function HandleQueryChange(v: View, q: string): (r: View)
    ensures r == v.(query := q, visibleCount := CARDS_PER_PAGE)
  {
    View(q, v.filters, v.metas, CARDS_PER_PAGE)
  }

  /** Load more: 20 more cards. */
  function LoadMore(v: View): (r: View)
    ensures r == v.(visibleCount := v.visibleCount + CARDS_PER_PAGE)
  {
    v.(visibleCount := v.visibleCount + CARDS_PER_PAGE)
  }

  /** Loading more shows the previous cards first, and never fewer. */
  lemma LoadMoreExtendsVisible(v: View, list: seq<Card>)
    requires v.visibleCount >= 0
    ensures var before := Visible(v, list);
            var after := Visible(LoadMore(v), list);
            |before| <= |after| && after[..|before|] == before
  {
  }
}
