/**
 * `useUserCards(status)`: the ids whose store record has the status, split into the cards the
 * card cache resolves and the ids it does not, and the cached cards followed by the fetched
 * ones, each stamped with the status.
 */
module UserCards {
  import opened Types
  import opened Seqs
  import Store
  import CardView
  import CardCache
  import TcgData

  /**
   * `matchingIds`: the ids, in table order, of the entries whose recorded status is `status`.
   * Each entry pairs an id with the status read from its record.
   */
  function MatchingIds(entries: seq<(string, Option<CardStatus>)>, status: CardStatus): (r: seq<string>)
    ensures forall id | id in r :: exists i | 0 <= i < |entries| :: entries[i] == (id, Some(status))
    ensures forall i | 0 <= i < |entries| && entries[i].1 == Some(status) :: entries[i].0 in r
    ensures |r| <= |entries|
    decreases |entries|
  {
    if entries == [] then []
    else
      var init := entries[..|entries| - 1];
      var last := entries[|entries| - 1];
      MatchingIds(init, status) + (if last.1 == Some(status) then [last.0] else [])
  }

  /** The store's table read as `Object.entries` pairs: each record's status, as the store keeps it. */
  function RecordEntries(states: map<string, Store.CardState>, keys: seq<string>): (r: seq<(string, Option<CardStatus>)>)
    ensures |r| == |keys| && forall i | 0 <= i < |keys| :: r[i] == (keys[i], CardView.RecordedStatus(states, keys[i]))
  {
    seq(|keys|, i requires 0 <= i < |keys| => (keys[i], CardView.RecordedStatus(states, keys[i])))
  }

  /** As the store is written, its records carry no status, so no id ever matches. */
  lemma StoreRecordsMatchNothing(states: map<string, Store.CardState>, keys: seq<string>, status: CardStatus)
    ensures MatchingIds(RecordEntries(states, keys), status) == []
  {
    NoStatusNoMatch(RecordEntries(states, keys), status);
  }

  lemma {:induction false} NoStatusNoMatch(entries: seq<(string, Option<CardStatus>)>, status: CardStatus)
    requires forall i | 0 <= i < |entries| :: entries[i].1 != Some(status)
    ensures MatchingIds(entries, status) == []
    decreases |entries|
  {
    if entries != [] {
      NoStatusNoMatch(entries[..|entries| - 1], status);
    }
  }

  function CachedIn(cards: map<string, Card>): (p: string -> bool)
    ensures forall id :: p(id) <==> id in cards
  {
    id => id in cards
  }

  /** The cached cards of `ids`, in order, each with its status replaced by `status`. */
  function CachedWithStatus(cards: map<string, Card>, ids: seq<string>, status: CardStatus): seq<Card>
    decreases |ids|
  {
    if ids == [] then []
    else
      var init := ids[..|ids| - 1];
      var last := ids[|ids| - 1];
      CachedWithStatus(cards, init, status) + (if last in cards then [cards[last].(status := Some(status))] else [])
  }

  /** The `i`-th card is the cache's card for the `i`-th cached id, with the status replaced. */
  lemma {:induction false} CachedWithStatusAreTheCachedCards(cards: map<string, Card>, ids: seq<string>, status: CardStatus)
    ensures var r, hits := CachedWithStatus(cards, ids, status), Filter(ids, CachedIn(cards));
            |r| == |hits| && forall i | 0 <= i < |r| :: hits[i] in cards && r[i] == cards[hits[i]].(status := Some(status))
    decreases |ids|
  {
    if ids != [] {
      var init := ids[..|ids| - 1];
      CachedWithStatusAreTheCachedCards(cards, init, status);
      assert ids == init + [ids[|ids| - 1]];
      FilterSnoc(init, ids[|ids| - 1], CachedIn(cards));
    }
  }

  /** Each id lands on exactly one side: the cached cards and the missing ids together number the ids. */
  lemma {:induction false} PartitionCounts(cards: map<string, Card>, ids: seq<string>)
    ensures |Filter(ids, CachedIn(cards))| + |Filter(ids, TcgData.NotCachedIn(cards))| == |ids|
    decreases |ids|
  {
    if ids != [] {
      PartitionCounts(cards, ids[..|ids| - 1]);
    }
  }

  /** One more id extends the cached side or the missing side, by that id alone. */
  lemma PartitionStep(cards: map<string, Card>, ids: seq<string>, i: int, status: CardStatus,
                      cached: seq<Card>, missing: seq<string>)
    requires 0 <= i < |ids|
    requires cached == CachedWithStatus(cards, ids[..i], status)
    requires missing == Filter(ids[..i], TcgData.NotCachedIn(cards))
    ensures ids[i] in cards ==> cached + [cards[ids[i]].(status := Some(status))] == CachedWithStatus(cards, ids[..i + 1], status)
                                && missing == Filter(ids[..i + 1], TcgData.NotCachedIn(cards))
    ensures ids[i] !in cards ==> cached == CachedWithStatus(cards, ids[..i + 1], status)
                                 && missing + [ids[i]] == Filter(ids[..i + 1], TcgData.NotCachedIn(cards))
  {
    assert ids[..i + 1][..i] == ids[..i];
  }

  /** The loop of `useUserCards` over the matching ids. */
  method PartitionCached(cache: CardCache.Cache, ids: seq<string>, status: CardStatus)
    returns (cached: seq<Card>, missing: seq<string>)
    ensures cached == CachedWithStatus(cache.cards, ids, status)
    ensures missing == Filter(ids, TcgData.NotCachedIn(cache.cards))
  {
    cached, missing := [], [];
    var i := 0;
    while i < |ids|
      invariant 0 <= i <= |ids|
      invariant cached == CachedWithStatus(cache.cards, ids[..i], status)
      invariant missing == Filter(ids[..i], TcgData.NotCachedIn(cache.cards))
    {
      PartitionStep(cache.cards, ids, i, status, cached, missing);
      var card := cache.GetCard(ids[i]);
      if card.Some? {
        cached := cached + [card.value.(status := Some(status))];
      } else {
        missing := missing + [ids[i]];
      }
      i := i + 1;
    }
    assert ids[..i] == ids;
  }

  /** The ids handed to `useCardsById` are all missing from the cache, so it requests every one of them again. */
  lemma MissingAreAllRequested(cards: map<string, Card>, ids: seq<string>)
    ensures var missing := Filter(ids, TcgData.NotCachedIn(cards));
            Filter(missing, TcgData.NotCachedIn(cards)) == missing
  {
    var p := TcgData.NotCachedIn(cards);
    FilterFilter(ids, p, p, p);
  }

  function WithStatus(cards: seq<Card>, status: CardStatus): (r: seq<Card>)
    ensures |r| == |cards| && forall i | 0 <= i < |cards| :: r[i] == cards[i].(status := Some(status))
  {
    seq(|cards|, i requires 0 <= i < |cards| => cards[i].(status := Some(status)))
  }

  /** The combine step: the cached cards, then each fetched card (in the fetched map's order) with the status. */
  method Combine(cached: seq<Card>, fetched: seq<Card>, status: CardStatus) returns (all: seq<Card>)
    ensures all == cached + WithStatus(fetched, status)
  {
    all := cached;
    var i := 0;
    while i < |fetched|
      invariant 0 <= i <= |fetched|
      invariant all == cached + WithStatus(fetched[..i], status)
    {
      all := all + [fetched[i].(status := Some(status))];
      i := i + 1;
    }
    assert fetched[..i] == fetched;
  }

  /**
   * The whole hook: `requested` are the ids passed on to the by-id fetch, and `fetched` the
   * cards that fetch resolved, in its map's order. Every returned card carries the status, the
   * cached ones come first, and an id is requested iff it matches and is not cached.
   * `fetched` is the value list of the map `TcgData.CardsById` returns, whose keys lie within the
   * ids it was asked for. It is left unconstrained here because the hook reads that map from
   * state, which can still hold the answer for an earlier id list while a new fetch is under way.
   */
  method UserCards(cache: CardCache.Cache, entries: seq<(string, Option<CardStatus>)>, status: CardStatus, fetched: seq<Card>)
    returns (cards: seq<Card>, requested: seq<string>)
    ensures requested == Filter(MatchingIds(entries, status), TcgData.NotCachedIn(cache.cards))
    ensures cards == CachedWithStatus(cache.cards, MatchingIds(entries, status), status) + WithStatus(fetched, status)
    ensures forall c | c in cards :: c.status == Some(status)
    ensures |cards| == |MatchingIds(entries, status)| - |requested| + |fetched|
  {
    var ids := MatchingIds(entries, status);
    var cached, missing := PartitionCached(cache, ids, status);
    PartitionCounts(cache.cards, ids);
    CachedWithStatusAreTheCachedCards(cache.cards, ids, status);
    forall c | c in cached ensures c.status == Some(status) {
      var k :| 0 <= k < |cached| && cached[k] == c;
    }
    requested := missing;
    cards := Combine(cached, fetched, status);
  }
}
