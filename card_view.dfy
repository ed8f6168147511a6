/**
 * What the screens do to a card list before showing it: the status overlay from the store, the
 * owned/wishlist meta-filters, and the id de-duplication of accumulated search pages.
 */
module CardView {
  import opened Types
  import opened Seqs
  import Store

  /**
   * `cardStates[id]?.status`: the store's record holds only `owned` and `liked`, so no status
   * is ever read from it, whether or not the id has a record.
   */
  function RecordedStatus(states: map<string, Store.CardState>, id: string): Option<CardStatus> {
    None
  }

  /** `{ ...c, status: cardStates[c.id]?.status ?? c.status }`: as the store is, every card keeps its own status. */
  function Overlay(states: map<string, Store.CardState>, c: Card): (r: Card)
    ensures r == c
  {
    var recorded := RecordedStatus(states, c.id);
    c.(status := if recorded.Some? then recorded else c.status)
  }

  function OverlayAll(states: map<string, Store.CardState>, cards: seq<Card>): (r: seq<Card>)
    ensures r == cards
  {
    seq(|cards|, i requires 0 <= i < |cards| => Overlay(states, cards[i]))
  }

  function HasStatus(status: CardStatus): Card -> bool {
    (c: Card) => c.status == Some(status)
  }

  /** A card passes the active meta-filters: "owned" demands owned, "wishlist" demands wishlist. */
  predicate MetaAccepts(metas: seq<MetaFilter>, c: Card) {
    (OwnedOnly in metas ==> c.status == Some(Owned)) && (WishlistOnly in metas ==> c.status == Some(Wishlist))
  }

  /** The two meta-filter passes, owned first, then wishlist. */
  function ApplyMetaFilters(cards: seq<Card>, metas: seq<MetaFilter>): (r: seq<Card>)
    ensures forall c | c in r :: c in cards && MetaAccepts(metas, c)
    ensures forall c | c in cards && MetaAccepts(metas, c) :: c in r
  {
    var owned := if OwnedOnly in metas then Filter(cards, HasStatus(Owned)) else cards;
    if WishlistOnly in metas then Filter(owned, HasStatus(Wishlist)) else owned
  }

  /** The meta-filter passes as a list of steps, owned first. */
  function MetaSteps(metas: seq<MetaFilter>): seq<Card -> bool> {
    (if OwnedOnly in metas then [HasStatus(Owned)] else [])
    + (if WishlistOnly in metas then [HasStatus(Wishlist)] else [])
  }

  lemma MetaStepsMean(metas: seq<MetaFilter>, c: Card)
    ensures AllOf(MetaSteps(metas), c) <==> MetaAccepts(metas, c)
  {
    var o := if OwnedOnly in metas then [HasStatus(Owned)] else [];
    var w := if WishlistOnly in metas then [HasStatus(Wishlist)] else [];
    AllOfConcat(o, w, c);
    AllOfOptional(OwnedOnly in metas, HasStatus(Owned), c);
    AllOfOptional(WishlistOnly in metas, HasStatus(Wishlist), c);
  }

  /** Applying the meta-filters is running their steps. */
  lemma MetaFiltersAreSteps(cards: seq<Card>, metas: seq<MetaFilter>)
    ensures ApplyMetaFilters(cards, metas) == Chain(cards, MetaSteps(metas))
  {
    var o := if OwnedOnly in metas then [HasStatus(Owned)] else [];
    var w := if WishlistOnly in metas then [HasStatus(Wishlist)] else [];
    ChainConcat(cards, o, w);
    assert Chain(cards, o) == if OwnedOnly in metas then Filter(cards, HasStatus(Owned)) else cards by {
      if OwnedOnly in metas {
        assert o[..0] == [];
      }
    }
    if WishlistOnly in metas {
      assert w[..0] == [];
    }
  }

  /** The meta-filters only drop cards: what remains keeps its order. */
  lemma MetaFiltersKeepOrder(cards: seq<Card>, metas: seq<MetaFilter>)
    ensures IsSubsequence(ApplyMetaFilters(cards, metas), cards)
  {
    var both: Card -> bool := (c: Card) => c.status == Some(Owned) && c.status == Some(Wishlist);
    var keep: Card -> bool :=
      if OwnedOnly in metas && WishlistOnly in metas then both
      else if OwnedOnly in metas then HasStatus(Owned)
      else if WishlistOnly in metas then HasStatus(Wishlist)
      else (c: Card) => true;
    if OwnedOnly in metas && WishlistOnly in metas {
      FilterFilter(cards, HasStatus(Owned), HasStatus(Wishlist), both);
    } else if OwnedOnly !in metas && WishlistOnly !in metas {
      FilterAll(cards, keep);
    }
    assert ApplyMetaFilters(cards, metas) == Filter(cards, keep);
    FilterIsSubsequence(cards, keep);
  }

  /** Asking for owned and wishlist cards at once leaves nothing, since a card has one status. */
  lemma BothMetaFiltersLeaveNothing(cards: seq<Card>, metas: seq<MetaFilter>)
    requires OwnedOnly in metas && WishlistOnly in metas
    ensures ApplyMetaFilters(cards, metas) == []
  {
    var owned := Filter(cards, HasStatus(Owned));
    FilterNone(owned, HasStatus(Wishlist));
  }

  /** With no meta-filter active every card passes. */
  lemma NoMetaFilterKeepsAll(cards: seq<Card>)
    ensures ApplyMetaFilters(cards, []) == cards
  {
  }

  /**
   * `dedupeById(cards)` (its definition is not part of this model): no two results share an id,
   * every result is one of the input cards, and every input id is represented.
   */
  predicate IsDedupeOf(out: seq<Card>, input: seq<Card>) {
    UniqueIds(out) && (forall c | c in out :: c in input) && Ids(out) == Ids(input)
  }

  /** One implementation meeting that contract: the first card of each id, in order. */
  function DedupeKeepFirst(cards: seq<Card>): (r: seq<Card>)
    decreases |cards|
  {
    if cards == [] then []
    else
      var rest := DedupeKeepFirst(cards[..|cards| - 1]);
      var last := cards[|cards| - 1];
      if last.id in Ids(rest) then rest else rest + [last]
  }

  lemma {:induction false} DedupeKeepFirstIsDedupe(cards: seq<Card>)
    ensures IsDedupeOf(DedupeKeepFirst(cards), cards)
    decreases |cards|
  {
    if cards != [] {
      var init := cards[..|cards| - 1];
      var last := cards[|cards| - 1];
      DedupeKeepFirstIsDedupe(init);
      var rest := DedupeKeepFirst(init);
      assert cards == init + [last];
      assert Ids(cards) == Ids(init) + {last.id};
      if last.id !in Ids(rest) {
        var r := rest + [last];
        assert Ids(r) == Ids(rest) + {last.id};
        forall i, j | 0 <= i < j < |r| ensures r[i].id != r[j].id {
          if j == |r| - 1 {
            assert r[i] in rest;
          }
        }
      }
    }
  }

  /** A list's de-duplication by any implementation holds exactly as many cards as it has distinct ids. */
  lemma {:induction false} DedupeSize(out: seq<Card>, input: seq<Card>)
    requires IsDedupeOf(out, input)
    ensures |out| == |Ids(input)|
    decreases |out|
  {
    if out != [] {
      var init := out[..|out| - 1];
      var last := out[|out| - 1];
      assert out == init + [last];
      assert IsDedupeOf(init, init) by {
        forall i, j | 0 <= i < j < |init| ensures init[i].id != init[j].id {
          assert init[i] == out[i] && init[j] == out[j];
        }
      }
      DedupeSize(init, init);
      assert Ids(out) == Ids(init) + {last.id};
      assert last.id !in Ids(init) by {
        forall c | c in init ensures c.id != last.id {
          var i :| 0 <= i < |init| && init[i] == c;
          assert out[i] == c;
        }
      }
    }
  }
}
