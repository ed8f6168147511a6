/**
 * The collection tab: the sample cards, status-overlaid, restricted to the chosen segment
 * (wishlist or owned) and to names containing the search text, with the two segment counts.
 */
module CollectionTab {
  import opened Types
  import opened Seqs
  import Text
  import Store
  import CardView
  import MockData

  /** The segmented control: "wishlist" or "owned". */
  datatype Segment = WishlistSegment | OwnedSegment

  /** The status a segment lists: wishlist for the wishlist segment, owned for anything else. */
  function SegmentStatus(segment: Segment): (r: CardStatus)
    ensures r == Wishlist <==> segment == WishlistSegment
    ensures r == Owned <==> segment == OwnedSegment
  {
    match segment
    case WishlistSegment => Wishlist
    case OwnedSegment => Owned
  }

  /** The card's lower-cased name contains the (already lower-cased) search text. */
  function NameStep(needle: string): Card -> bool {
    (c: Card) => Text.Contains(Text.Lower(c.name), needle)
  }

  /** The sample cards with the store's statuses laid over them. */
  function OverlaidCards(states: map<string, Store.CardState>): seq<Card> {
    CardView.OverlayAll(states, MockData.MockCards())
  }

  /** `cards`: the segment's cards, then, for a non-empty query, those whose name contains it ignoring case. */
  function ListedCards(states: map<string, Store.CardState>, segment: Segment, query: string): seq<Card> {
    var bySegment := Filter(OverlaidCards(states), CardView.HasStatus(SegmentStatus(segment)));
    if query != "" then Filter(bySegment, NameStep(Text.Lower(query))) else bySegment
  }

  /** `wishlistCount` and `ownedCount`: how many overlaid sample cards carry the status. */
  function StatusCount(states: map<string, Store.CardState>, status: CardStatus): (r: nat)
    ensures r <= |MockData.MockCards()|
  {
    Count(OverlaidCards(states), CardView.HasStatus(status))
  }

  /** What a listed card must satisfy: the segment's status and, for a non-empty query, a matching name. */
  predicate Listed(segment: Segment, query: string, c: Card) {
    c.status == Some(SegmentStatus(segment))
    && (query != "" ==> Text.Contains(Text.Lower(c.name), Text.Lower(query)))
  }

  /**
   * The list keeps, in sample order, exactly the cards of the segment whose name matches; the
   * set and the artist are not searched.
   */
  lemma ListedIsExactlyTheMatching(states: map<string, Store.CardState>, segment: Segment, query: string)
    ensures var r := ListedCards(states, segment, query);
            IsSubsequence(r, MockData.MockCards())
            && (forall c | c in r :: c in MockData.MockCards() && Listed(segment, query, c))
            && (forall c | c in MockData.MockCards() && Listed(segment, query, c) :: c in r)
  {
    var all := OverlaidCards(states);
    var seg := CardView.HasStatus(SegmentStatus(segment));
    var keep: Card -> bool := (c: Card) => Listed(segment, query, c);
    if query != "" {
      FilterFilter(all, seg, NameStep(Text.Lower(query)), keep);
    } else {
      FilterSamePredicate(all, seg, keep);
    }
    FilterIsSubsequence(all, keep);
  }

  /** With no search text the list holds exactly as many cards as the active segment's count. */
  lemma EmptyQueryListsTheSegmentCount(states: map<string, Store.CardState>, segment: Segment)
    ensures |ListedCards(states, segment, "")| == StatusCount(states, SegmentStatus(segment))
  {
  }

  /** The two counts together never exceed the sample size, since a card has one status. */
  lemma CountsAreDisjoint(states: map<string, Store.CardState>)
    ensures StatusCount(states, Wishlist) + StatusCount(states, Owned) <= |MockData.MockCards()|
  {
    CountSplit(OverlaidCards(states));
  }

  /**
   * The sample cards carry no status and the store's records hold none, so as written both
   * segments list nothing and both counts are zero.
   */
  lemma CollectionIsAlwaysEmpty(states: map<string, Store.CardState>, segment: Segment, query: string)
    ensures ListedCards(states, segment, query) == []
    ensures StatusCount(states, Wishlist) == 0 && StatusCount(states, Owned) == 0
  {
    MockData.SampleCardsCarryNoStatus();
    var all := OverlaidCards(states);
    FilterNone(all, CardView.HasStatus(SegmentStatus(segment)));
    FilterNone(all, CardView.HasStatus(Wishlist));
    FilterNone(all, CardView.HasStatus(Owned));
  }

  lemma {:induction false} CountSplit(s: seq<Card>)
    ensures Count(s, CardView.HasStatus(Wishlist)) + Count(s, CardView.HasStatus(Owned)) <= |s|
    decreases |s|
  {
    if s != [] {
      CountSplit(s[..|s| - 1]);
    }
  }
}
