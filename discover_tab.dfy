/**
 * The discover feed: whether any feed filter is active, the search it issues, the filtered feed
 * list (upstream results or the sample cards), the chase cards and the spotlight rows.
 */
module DiscoverTab {
  import opened Types
  import opened Seqs
  import Text
  import Store
  import CardView
  import MockData
  import TcgData
  import DatabaseScreen

  // ── Feed filters ──

  /** `hasFeedFilters`: non-blank text, a selected facet value, or a meta-filter. */
  predicate HasFeedFilters(query: string, filters: CardFilters, metas: seq<MetaFilter>) {
    Text.Trim(query) != "" || filters.ActiveCount() > 0 || |metas| > 0
  }

  /** The options the feed passes to the search hook: trimmed text or none, 20 per page, enabled only with filters. */
  function FeedSearchOptions(query: string, filters: CardFilters, metas: seq<MetaFilter>): (r: TcgData.SearchOptions)
    ensures r.q.Some? <==> Text.Trim(query) != ""
    ensures r.q.Some? ==> r.q.value == Text.Trim(query)
    ensures r.filters == Some(filters) && r.pageSize == Some(20)
    ensures r.enabled == Some(HasFeedFilters(query, filters, metas))
    ensures r.page.None? && r.rawQuery.None? && r.orderBy.None?
  {
    var trimmed := Text.Trim(query);
    TcgData.SearchOptions(
      if trimmed != "" then Some(trimmed) else None, None, Some(20), Some(filters),
      Some(HasFeedFilters(query, filters, metas)), None, None)
  }

  /** The feed searches exactly when a feed filter is active, for its first page of 20. */
  lemma FeedSearchesIffFiltered(query: string, filters: CardFilters, metas: seq<MetaFilter>)
    ensures var req := TcgData.SearchRequestFor(FeedSearchOptions(query, filters, metas));
            (req.Some? <==> HasFeedFilters(query, filters, metas))
            && (req.Some? ==> req.value.page == Some(1) && req.value.pageSize == 20 && req.value.orderBy.None?)
  {
  }

  /** With only meta-filters active the feed still searches, and sends no query at all. */
  lemma MetaOnlyFeedSendsNoQuery(query: string, filters: CardFilters, metas: seq<MetaFilter>)
    requires Text.Trim(query) == "" && filters.ActiveCount() == 0 && |metas| > 0
    ensures var req := TcgData.SearchRequestFor(FeedSearchOptions(query, filters, metas));
            req.Some? && req.value.q.None?
  {
    TcgData.QueryAbsentIffNoCriteria(None, Some(filters));
  }

  /** The client-side text and facet steps of the sample-card fallback: text only when the trimmed query is non-blank, matched untrimmed. */
  function FallbackSteps(query: string, filters: CardFilters): seq<Card -> bool> {
    (if Text.Trim(query) != "" then [DatabaseScreen.TextStep(Text.Lower(query))] else [])
    + DatabaseScreen.FacetSteps(filters)
  }

  /** `feedFilteredCards`: nothing without feed filters; otherwise the upstream page, or while there is none the filtered sample cards, then the meta-filters. */
  function FeedFilteredCards(states: map<string, Store.CardState>, searchResult: Option<CardsPage>,
                             query: string, filters: CardFilters, metas: seq<MetaFilter>): (r: Option<seq<Card>>)
    ensures r.None? <==> !HasFeedFilters(query, filters, metas)
  {
    if !HasFeedFilters(query, filters, metas) then None
    else
      var results :=
        if searchResult.Some? then CardView.OverlayAll(states, searchResult.value.cards)
        else Chain(CardView.OverlayAll(states, MockData.MockCards()), FallbackSteps(query, filters));
      Some(CardView.ApplyMetaFilters(results, metas))
  }

  /** What a fallback feed card must satisfy: the non-blank text, every selected facet and the meta-filters. */
  predicate FallbackAccepts(query: string, filters: CardFilters, metas: seq<MetaFilter>, c: Card) {
    (Text.Trim(query) != "" ==> DatabaseScreen.TextMatches(c, Text.Lower(query)))
    && DatabaseScreen.FacetsAccept(filters, c) && CardView.MetaAccepts(metas, c)
  }

  lemma FallbackStepsMean(query: string, filters: CardFilters, metas: seq<MetaFilter>, c: Card)
    ensures AllOf(FallbackSteps(query, filters) + CardView.MetaSteps(metas), c) <==> FallbackAccepts(query, filters, metas, c)
  {
    var t := if Text.Trim(query) != "" then [DatabaseScreen.TextStep(Text.Lower(query))] else [];
    AllOfConcat(FallbackSteps(query, filters), CardView.MetaSteps(metas), c);
    AllOfConcat(t, DatabaseScreen.FacetSteps(filters), c);
    AllOfOptional(Text.Trim(query) != "", DatabaseScreen.TextStep(Text.Lower(query)), c);
    DatabaseScreen.FacetStepsMean(filters, c);
    CardView.MetaStepsMean(metas, c);
  }

  /** Before any upstream page arrives, the feed is exactly the sample cards meeting every criterion, in their order. */
  lemma FallbackFeedIsExactlyTheAccepted(states: map<string, Store.CardState>, query: string, filters: CardFilters, metas: seq<MetaFilter>)
    requires HasFeedFilters(query, filters, metas)
    ensures var r := FeedFilteredCards(states, None, query, filters, metas).value;
            IsSubsequence(r, MockData.MockCards())
            && (forall c | c in r :: c in MockData.MockCards() && FallbackAccepts(query, filters, metas, c))
            && (forall c | c in MockData.MockCards() && FallbackAccepts(query, filters, metas, c) :: c in r)
  {
    var all := MockData.MockCards();
    assert CardView.OverlayAll(states, all) == all;
    FallbackChainIsAccepted(all, query, filters, metas);
  }

  /** The fallback chain followed by the meta-filters keeps, in order, exactly the accepted cards of any list. */
  lemma FallbackChainIsAccepted(all: seq<Card>, query: string, filters: CardFilters, metas: seq<MetaFilter>)
    ensures var r := CardView.ApplyMetaFilters(Chain(all, FallbackSteps(query, filters)), metas);
            IsSubsequence(r, all)
            && (forall c | c in r :: c in all && FallbackAccepts(query, filters, metas, c))
            && (forall c | c in all && FallbackAccepts(query, filters, metas, c) :: c in r)
  {
    var steps := FallbackSteps(query, filters) + CardView.MetaSteps(metas);
    CardView.MetaFiltersAreSteps(Chain(all, FallbackSteps(query, filters)), metas);
    ChainConcat(all, FallbackSteps(query, filters), CardView.MetaSteps(metas));
    ChainIsOneFilter(all, steps);
    FilterIsSubsequence(all, AllOfFn(steps));
    forall c ensures AllOfFn(steps)(c) <==> FallbackAccepts(query, filters, metas, c) {
      FallbackStepsMean(query, filters, metas, c);
    }
  }

  /** An upstream page is only meta-filtered: its cards are kept in order whatever the text and facets say. */
  lemma UpstreamFeedIsOnlyMetaFiltered(states: map<string, Store.CardState>, page: CardsPage,
                                       query: string, filters: CardFilters, metas: seq<MetaFilter>)
    requires HasFeedFilters(query, filters, metas)
    ensures var r := FeedFilteredCards(states, Some(page), query, filters, metas).value;
            IsSubsequence(r, page.cards)
            && forall c | c in page.cards :: c in r <==> CardView.MetaAccepts(metas, c)
  {
    CardView.MetaFiltersKeepOrder(page.cards, metas);
  }

  /**
   * Once a feed search fails, the search hook holds the whole sample page as its result, so the
   * feed lists every sample card passing the meta-filters, whatever text and facets are chosen.
   */
  lemma FailedSearchFeedIgnoresTextAndFacets(states: map<string, Store.CardState>, s: TcgData.SearchState, message: string,
                                             query: string, filters: CardFilters, metas: seq<MetaFilter>)
    requires HasFeedFilters(query, filters, metas)
    ensures var after := TcgData.RunSearch(s, FeedSearchOptions(query, filters, metas), TcgData.Failed(message));
            FeedFilteredCards(states, after.result, query, filters, metas)
              == Some(CardView.ApplyMetaFilters(MockData.MockCards(), metas))
  {
  }

  // ── Chase cards ──

  /** The sort key: wishlist 2, owned 1, anything else (no status included) 0. */
  function Score(c: Card): (r: int)
    ensures 0 <= r <= 2
    ensures r == 2 <==> c.status == Some(Wishlist)
    ensures r == 1 <==> c.status == Some(Owned)
  {
    if c.status == Some(Wishlist) then 2 else if c.status == Some(Owned) then 1 else 0
  }

  /** Places `x` after every card of the sorted list whose score is at least its own. */
  function InsertByScore(sorted: seq<Card>, x: Card): seq<Card>
    decreases |sorted|
  {
    if sorted == [] || Score(sorted[|sorted| - 1]) >= Score(x) then sorted + [x]
    else InsertByScore(sorted[..|sorted| - 1], x) + [sorted[|sorted| - 1]]
  }

  /** The `sort` by descending score; the sort is stable, so equal scores keep their order. */
  function SortByScore(s: seq<Card>): seq<Card>
    decreases |s|
  {
    if s == [] then [] else InsertByScore(SortByScore(s[..|s| - 1]), s[|s| - 1])
  }

  lemma {:induction false} InsertPermutes(sorted: seq<Card>, x: Card)
    ensures multiset(InsertByScore(sorted, x)) == multiset(sorted) + multiset{x}
    decreases |sorted|
  {
    if sorted != [] && Score(sorted[|sorted| - 1]) < Score(x) {
      var init := sorted[..|sorted| - 1];
      InsertPermutes(init, x);
      assert sorted == init + [sorted[|sorted| - 1]];
    }
  }

  /** The sort only reorders: it keeps every card as many times as it occurs. */
  lemma {:induction false} SortPermutes(s: seq<Card>)
    ensures multiset(SortByScore(s)) == multiset(s)
    decreases |s|
  {
    if s != [] {
      var init := s[..|s| - 1];
      SortPermutes(init);
      InsertPermutes(SortByScore(init), s[|s| - 1]);
      assert s == init + [s[|s| - 1]];
    }
  }

  function ScoreIs(k: int): Card -> bool {
    (c: Card) => Score(c) == k
  }

  /** The cards of each score, each group in list order, wishlist first and unmarked last. */
  function Buckets(s: seq<Card>): seq<Card> {
    Filter(s, ScoreIs(2)) + Filter(s, ScoreIs(1)) + Filter(s, ScoreIs(0))
  }

  /** Inserting a card in front of lower-scored cards, behind one scored at least as high. */
  lemma {:induction false} InsertBefore(t: seq<Card>, u: seq<Card>, x: Card)
    requires t == [] || Score(t[|t| - 1]) >= Score(x)
    requires forall y | y in u :: Score(y) < Score(x)
    ensures InsertByScore(t + u, x) == t + [x] + u
    decreases |u|
  {
    if u == [] {
      assert t + u == t;
    } else {
      var ui, last := u[..|u| - 1], u[|u| - 1];
      var tu := t + u;
      assert tu[..|tu| - 1] == t + ui;
      assert tu[|tu| - 1] == last;
      assert last in u;
      assert InsertByScore(tu, x) == InsertByScore(t + ui, x) + [last];
      InsertBefore(t, ui, x);
      assert u == ui + [last];
    }
  }

  /** Adding a card at the end of a list adds it at the end of its own score group. */
  lemma BucketsSnoc(init: seq<Card>, x: Card)
    ensures Buckets(init + [x]) == InsertByScore(Buckets(init), x)
  {
    var a, b, c := Filter(init, ScoreIs(2)), Filter(init, ScoreIs(1)), Filter(init, ScoreIs(0));
    FilterSnoc(init, x, ScoreIs(2));
    FilterSnoc(init, x, ScoreIs(1));
    FilterSnoc(init, x, ScoreIs(0));
    assert Buckets(init) == a + b + c;
    assert forall y | y in a :: Score(y) == 2;
    assert forall y | y in b :: Score(y) == 1;
    assert forall y | y in c :: Score(y) == 0;
    GroupedInsert(a, b, c, x);
  }

  /** Inserting into three score groups appends to the card's own group. */
  lemma GroupedInsert(a: seq<Card>, b: seq<Card>, c: seq<Card>, x: Card)
    requires forall y | y in a :: Score(y) == 2
    requires forall y | y in b :: Score(y) == 1
    requires forall y | y in c :: Score(y) == 0
    ensures InsertByScore(a + b + c, x)
            == (a + if Score(x) == 2 then [x] else []) + (b + if Score(x) == 1 then [x] else [])
               + (c + if Score(x) == 0 then [x] else [])
  {
    if Score(x) == 2 {
      InsertTop(a, b, c, x);
    } else if Score(x) == 1 {
      InsertMiddle(a, b, c, x);
    } else {
      InsertBottom(a, b, c, x);
    }
  }

  lemma InsertTop(a: seq<Card>, b: seq<Card>, c: seq<Card>, x: Card)
    requires forall y | y in a :: Score(y) == 2
    requires forall y | y in b + c :: Score(y) < 2
    requires Score(x) == 2
    ensures InsertByScore(a + b + c, x) == (a + [x]) + b + c
  {
    InsertAtGroupEnd(a, b + c, x);
    assert a + (b + c) == a + b + c;
    assert a + [x] + (b + c) == (a + [x]) + b + c;
  }

  lemma InsertMiddle(a: seq<Card>, b: seq<Card>, c: seq<Card>, x: Card)
    requires forall y | y in a + b :: Score(y) >= 1
    requires forall y | y in c :: Score(y) == 0
    requires Score(x) == 1
    ensures InsertByScore(a + b + c, x) == a + (b + [x]) + c
  {
    InsertAtGroupEnd(a + b, c, x);
    assert a + b + [x] + c == a + (b + [x]) + c;
  }

  lemma InsertBottom(a: seq<Card>, b: seq<Card>, c: seq<Card>, x: Card)
    requires Score(x) == 0
    ensures InsertByScore(a + b + c, x) == a + b + (c + [x])
  {
    var t := a + b + c;
    InsertAtGroupEnd(t, [], x);
    assert t + [] == t;
  }

  /** `x` goes between the cards scored at least as high and those scored lower. */
  lemma InsertAtGroupEnd(t: seq<Card>, u: seq<Card>, x: Card)
    requires forall y | y in t :: Score(y) >= Score(x)
    requires forall y | y in u :: Score(y) < Score(x)
    ensures InsertByScore(t + u, x) == t + [x] + u
  {
    if t != [] {
      assert t[|t| - 1] in t;
    }
    InsertBefore(t, u, x);
  }

  /** The stable sort groups the cards by score, highest first, each group in its original order. */
  lemma {:induction false} SortIsBuckets(s: seq<Card>)
    ensures SortByScore(s) == Buckets(s)
    decreases |s|
  {
    if s != [] {
      var init, x := s[..|s| - 1], s[|s| - 1];
      SortIsBuckets(init);
      assert s == init + [x];
      BucketsSnoc(init, x);
    }
  }

  /** Grouped by score, the list never rises in score. */
  lemma BucketsDescend(s: seq<Card>)
    ensures forall i, j | 0 <= i < j < |Buckets(s)| :: Score(Buckets(s)[i]) >= Score(Buckets(s)[j])
  {
    var a, b, c := Filter(s, ScoreIs(2)), Filter(s, ScoreIs(1)), Filter(s, ScoreIs(0));
    var r := Buckets(s);
    forall i, j | 0 <= i < j < |r| ensures Score(r[i]) >= Score(r[j]) {
      if i < |a| {
        assert r[i] == a[i] && a[i] in a;
      } else if i < |a| + |b| {
        assert r[i] == b[i - |a|] && b[i - |a|] in b;
        if j < |a| + |b| {
          assert r[j] == b[j - |a|] && b[j - |a|] in b;
        } else {
          assert r[j] == c[j - |a| - |b|] && c[j - |a| - |b|] in c;
        }
      } else {
        assert r[j] == c[j - |a| - |b|] && c[j - |a| - |b|] in c;
      }
    }
  }

  /** When no card carries a status, the sort keeps the list as it is. */
  lemma UnmarkedCardsKeepTheirOrder(s: seq<Card>)
    requires forall c | c in s :: c.status.None?
    ensures SortByScore(s) == s
  {
    SortIsBuckets(s);
    FilterNone(s, ScoreIs(2));
    FilterNone(s, ScoreIs(1));
    FilterAll(s, ScoreIs(0));
  }

  const CHASE_RARITY := "Rare Holo"
  const CHASE_LIMIT := 10

  predicate IsChaseRarity(c: Card) {
    c.rarity == CHASE_RARITY
  }

  /** `chaseCards`: the "Rare Holo" cards, wishlist first, then owned, then the rest, at most 10. */
  function ChaseCards(all: seq<Card>): seq<Card> {
    Take(SortByScore(Filter(all, (c: Card) => IsChaseRarity(c))), CHASE_LIMIT)
  }

  /** The chase list holds at most 10 "Rare Holo" cards, the first ten of the holo cards grouped wishlist, owned, rest. */
  lemma ChaseCardsAreTopHolos(all: seq<Card>)
    ensures var r := ChaseCards(all);
            var holos := Filter(all, (c: Card) => IsChaseRarity(c));
            |r| <= CHASE_LIMIT
            && (forall c | c in r :: c in all && c.rarity == CHASE_RARITY)
            && r == Take(Buckets(holos), CHASE_LIMIT)
            && (forall i, j | 0 <= i < j < |r| :: Score(r[i]) >= Score(r[j]))
  {
    var holos := Filter(all, (c: Card) => IsChaseRarity(c));
    SortIsBuckets(holos);
    BucketsDescend(holos);
    var r := ChaseCards(all);
    forall c | c in r ensures c in all && c.rarity == CHASE_RARITY {
      assert c in Buckets(holos);
    }
  }

  /** Over the sample cards, which carry no status, the chase list is simply the first ten holo cards. */
  lemma SampleChaseIsFirstHolos(states: map<string, Store.CardState>)
    ensures ChaseCards(CardView.OverlayAll(states, MockData.MockCards()))
            == Take(Filter(MockData.MockCards(), (c: Card) => IsChaseRarity(c)), CHASE_LIMIT)
  {
    MockData.SampleCardsCarryNoStatus();
    UnmarkedCardsKeepTheirOrder(Filter(MockData.MockCards(), (c: Card) => IsChaseRarity(c)));
  }

  // ── Spotlight rows ──

  /** A fallback row: the cards whose field under `key` equals `value`. */
  datatype RowDef = RowDef(id: string, title: string, key: FacetKey, value: string)

  const ROW_DEFS: seq<RowDef> := [
    RowDef("set-base", "Set Spotlight: Base Set", SetKey, "Base"),
    RowDef("artist-arita", "Artist Spotlight: Mitsuhiro Arita", ArtistKey, "Mitsuhiro Arita"),
    RowDef("set-jungle", "Set Spotlight: Jungle", SetKey, "Jungle"),
    RowDef("artist-himeno", "Artist Spotlight: Kagemaru Himeno", ArtistKey, "Kagemaru Himeno"),
    RowDef("set-fossil", "Set Spotlight: Fossil", SetKey, "Fossil"),
    RowDef("set-rocket", "Set Spotlight: Team Rocket", SetKey, "Team Rocket")
  ]

  const ROW_LIMIT := 12

  function RowMatch(row: RowDef): Card -> bool {
    (c: Card) => CardField(c, row.key) == row.value
  }

  /** One row's cards: the first 12 cards whose field equals the row's value. */
  function RowList(all: seq<Card>, row: RowDef): (r: seq<Card>)
    ensures |r| <= ROW_LIMIT
    ensures forall c | c in r :: c in all && CardField(c, row.key) == row.value
  {
    var matching := Filter(all, RowMatch(row));
    var r := Take(matching, ROW_LIMIT);
    assert forall c | c in r :: c in matching;
    r
  }

  function RowId(row: RowDef): string {
    row.id
  }

  /** The loop filling `map[row.id]` for each row in turn. */
  function RowCardsFrom(all: seq<Card>, rows: seq<RowDef>): (r: map<string, seq<Card>>)
    requires DistinctBy(rows, RowId)
    ensures forall row | row in rows :: row.id in r && r[row.id] == RowList(all, row)
    ensures forall id | id in r :: exists row | row in rows :: row.id == id
    decreases |rows|
  {
    if rows == [] then map[]
    else
      var init, last := rows[..|rows| - 1], rows[|rows| - 1];
      DistinctByInit(rows, RowId);
      assert forall row | row in rows :: row in init || row == last;
      RowCardsFrom(all, init)[last.id := RowList(all, last)]
  }

  lemma RowIdsDistinct()
    ensures DistinctBy(ROW_DEFS, RowId)
  {
  }

  /** `rowCards`: each row's list under the row's id. */
  function RowCards(all: seq<Card>): (r: map<string, seq<Card>>)
    ensures forall row | row in ROW_DEFS :: row.id in r && r[row.id] == RowList(all, row)
    ensures forall id | id in r :: exists row | row in ROW_DEFS :: row.id == id
  {
    RowIdsDistinct();
    RowCardsFrom(all, ROW_DEFS)
  }

  /** "View all" on a row: no filter but the row's facet, holding just the row's value. */
  function HandleViewAll(row: RowDef): (r: CardFilters)
    ensures r.Get(row.key) == [row.value]
    ensures forall k | k != row.key :: r.Get(k) == []
    ensures r.ActiveCount() == 1
  {
    EMPTY_FILTERS.With(row.key, [row.value])
  }

  /** A row shows the first cards of the browse-all list that its "View all" opens. */
  lemma RowIsPrefixOfViewAll(all: seq<Card>, row: RowDef)
    ensures var listed := DatabaseScreen.Filtered(all, "", HandleViewAll(row), []);
            var shown := RowList(all, row);
            |shown| <= |listed| && shown == listed[..|shown|]
  {
    var f := HandleViewAll(row);
    var step := DatabaseScreen.FacetStep(row.key, [row.value]);
    assert DatabaseScreen.FacetSteps(f) == [step] by {
      match row.key
      case RarityKey => assert f == CardFilters([row.value], [], [], []);
      case ArtistKey => assert f == CardFilters([], [row.value], [], []);
      case SetKey => assert f == CardFilters([], [], [row.value], []);
      case TypeKey => assert f == CardFilters([], [], [], [row.value]);
    }
    assert CardView.MetaSteps([]) == [];
    assert DatabaseScreen.Steps("", f, []) == [step];
    assert [step][..0] == [];
    assert Chain(all, [step]) == Filter(Chain(all, []), step);
    assert DatabaseScreen.Filtered(all, "", f, []) == Filter(all, step);
    FilterSamePredicate(all, step, RowMatch(row));
  }
}
