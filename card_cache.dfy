/**
 * The browser-side card cache: an in-memory id -> card map seeded with the sample cards, a
 * key/value storage holding sets, meta, per-set card lists, persisted cards and a timestamp
 * table, and a debounced "persist later" flag. The clock is the `now` parameter of the
 * operations that read it.
 */
module CardCache {
  import opened Types
  import opened Seqs
  import MockData

  // ── The in-memory map ──

  /**
   * A `Map` from card id to card, with the order in which its keys were first inserted
   * (re-setting a key keeps its place).
   */
  datatype CardMap = CardMap(cards: map<string, Card>, order: seq<string>) {

    /** Every key is listed once in the order, and the order lists nothing else. */
    ghost predicate Valid() {
      (forall i, j | 0 <= i < j < |order| :: order[i] != order[j])
      && (forall id :: id in cards <==> id in order)
    }

    /** `map.set(id, card)` */
    function Set(id: string, card: Card): (r: CardMap)
      ensures r.cards == cards[id := card]
      ensures id in cards ==> r.order == order
      ensures id !in cards ==> r.order == order + [id]
      ensures Valid() ==> r.Valid()
    {
      CardMap(cards[id := card], if id in cards then order else order + [id])
    }

    /** The loop of `putCardsInCache`: every card set under its own id, in list order. */
    function PutAll(batch: seq<Card>): (r: CardMap)
      ensures Valid() ==> r.Valid()
      decreases |batch|
    {
      if batch == [] then this
      else PutAll(batch[..|batch| - 1]).Set(batch[|batch| - 1].id, batch[|batch| - 1])
    }

    /** The loop of `hydrateCardCache`: an entry is set only when its id is not yet present. */
    function HydrateAll(entries: seq<(string, Card)>): (r: CardMap)
      ensures Valid() ==> r.Valid()
      decreases |entries|
    {
      if entries == [] then this
      else
        var h := HydrateAll(entries[..|entries| - 1]);
        var last := entries[|entries| - 1];
        if last.0 in h.cards then h else h.Set(last.0, last.1)
    }

    /** One more stored entry: added when its id is not yet present, ignored otherwise. */
    lemma HydrateStep(entries: seq<(string, Card)>, i: int)
      requires 0 <= i < |entries|
      ensures var h := HydrateAll(entries[..i]);
              HydrateAll(entries[..i + 1]) == if entries[i].0 in h.cards then h else h.Set(entries[i].0, entries[i].1)
    {
      assert entries[..i + 1][..i] == entries[..i];
    }

    /** `Array.from(map.entries())` */
    function Entries(): (r: seq<(string, Card)>)
      requires Valid()
      ensures |r| == |order|
      ensures forall i | 0 <= i < |order| :: r[i] == (order[i], cards[order[i]])
    {
      seq(|order|, i requires 0 <= i < |order| => (order[i], cards[order[i]]))
    }

    /** `Array.from(map.values())`: the cards in the insertion order of their ids. */
    function Values(): (r: seq<Card>)
      requires Valid()
      ensures |r| == |order|
      ensures forall i | 0 <= i < |order| :: r[i] == cards[order[i]]
    {
      seq(|order|, i requires 0 <= i < |order| => cards[order[i]])
    }
  }

  /** `getAllCachedCards()` lists every cached card, one per key, and nothing else. */
  lemma ValuesAreTheCachedCards(m: CardMap)
    requires m.Valid()
    ensures |m.Values()| == |m.cards|
    ensures forall id | id in m.cards :: m.cards[id] in m.Values()
    ensures forall c | c in m.Values() :: exists id | id in m.cards :: m.cards[id] == c
  {
    OrderCountsKeys(m);
    var r := m.Values();
    forall id | id in m.cards ensures m.cards[id] in r {
      var i :| 0 <= i < |m.order| && m.order[i] == id;
      assert r[i] == m.cards[id];
    }
    forall c | c in r ensures exists id | id in m.cards :: m.cards[id] == c {
      var i :| 0 <= i < |r| && r[i] == c;
      assert m.order[i] in m.order;
    }
  }

  /** The order of a valid map has as many entries as the map has keys. */
  lemma OrderCountsKeys(m: CardMap)
    requires m.Valid()
    ensures |m.cards.Keys| == |m.order|
  {
    var ks := set i | 0 <= i < |m.order| :: m.order[i];
    assert ks == m.cards.Keys;
    IndexSetSize(m.order);
  }

  /** A list without repeats has as many distinct elements as entries. */
  lemma {:induction false} IndexSetSize(s: seq<string>)
    requires forall i, j | 0 <= i < j < |s| :: s[i] != s[j]
    ensures |set i | 0 <= i < |s| :: s[i]| == |s|
    decreases |s|
  {
    if s != [] {
      var init := s[..|s| - 1];
      IndexSetSize(init);
      var a := set i | 0 <= i < |init| :: init[i];
      var b := set i | 0 <= i < |s| :: s[i];
      assert b == a + {s[|s| - 1]};
      assert s[|s| - 1] !in a;
    }
  }

  const EMPTY_MAP := CardMap(map[], [])

  /**
   * After `putCardsInCache(batch)` an id is present when it was before or the batch has it; an id
   * of the batch holds the last card of the batch with that id, and any other id keeps its card.
   */
  lemma {:induction false} PutAllLastWins(m: CardMap, batch: seq<Card>, id: string)
    ensures id in m.PutAll(batch).cards <==> id in m.cards || LastIndexOf(batch, id) >= 0
    ensures LastIndexOf(batch, id) >= 0 ==> m.PutAll(batch).cards[id] == batch[LastIndexOf(batch, id)]
    ensures LastIndexOf(batch, id) == -1 && id in m.cards ==> m.PutAll(batch).cards[id] == m.cards[id]
    decreases |batch|
  {
    if batch != [] {
      PutAllLastWins(m, batch[..|batch| - 1], id);
    }
  }

  /** The position of the first entry with this id, or -1 when no entry has it. */
  function FirstEntryOf(entries: seq<(string, Card)>, id: string): (r: int)
    ensures -1 <= r < |entries|
    ensures r >= 0 ==> entries[r].0 == id && forall j | 0 <= j < r :: entries[j].0 != id
    ensures r == -1 ==> forall j | 0 <= j < |entries| :: entries[j].0 != id
    decreases |entries|
  {
    if entries == [] then -1
    else
      var k := FirstEntryOf(entries[..|entries| - 1], id);
      if k >= 0 then k else if entries[|entries| - 1].0 == id then |entries| - 1 else -1
  }

  /**
   * `hydrateCardCache` never replaces a card that is present, and an absent id that the entries
   * carry gets the card of its first entry; nothing else is added.
   */
  lemma {:induction false} HydrateFirstWins(m: CardMap, entries: seq<(string, Card)>, id: string)
    ensures id in m.HydrateAll(entries).cards <==> id in m.cards || FirstEntryOf(entries, id) >= 0
    ensures id in m.cards ==> m.HydrateAll(entries).cards[id] == m.cards[id]
    ensures id !in m.cards && FirstEntryOf(entries, id) >= 0 ==>
              m.HydrateAll(entries).cards[id] == entries[FirstEntryOf(entries, id)].1
    decreases |entries|
  {
    if entries != [] {
      HydrateFirstWins(m, entries[..|entries| - 1], id);
    }
  }

  /** Hydrating entries whose ids are all present already changes nothing. */
  lemma {:induction false} HydrateKnownIsNoop(m: CardMap, entries: seq<(string, Card)>)
    requires forall e | e in entries :: e.0 in m.cards
    ensures m.HydrateAll(entries) == m
    decreases |entries|
  {
    if entries != [] {
      var init := entries[..|entries| - 1];
      assert forall e | e in init :: e in entries;
      HydrateKnownIsNoop(m, init);
      assert entries[|entries| - 1] in entries;
    }
  }

  // ── Persistence ──

  const MAX_CARD_CACHE := 500

  function EntryId(e: (string, Card)): string {
    e.0
  }

  /** `([id]) => !MOCK_CARDS.some((m) => m.id === id)`, for the given sample ids. */
  function NotSample(sampleIds: set<string>): ((string, Card)) -> bool {
    (e: (string, Card)) => e.0 !in sampleIds
  }

  /** The entries whose ids are not sample ids, in insertion order. */
  function NonSampleEntries(m: CardMap, sampleIds: set<string>): seq<(string, Card)>
    requires m.Valid()
  {
    Filter(m.Entries(), NotSample(sampleIds))
  }

  /**
   * What `persistCardCache` writes: the newest (by first insertion) 500 entries that are not
   * sample cards, oldest first.
   */
  function Persisted(m: CardMap, sampleIds: set<string>): seq<(string, Card)>
    requires m.Valid()
  {
    var ns := NonSampleEntries(m, sampleIds);
    if |ns| <= MAX_CARD_CACHE then ns else ns[|ns| - MAX_CARD_CACHE..]
  }

  /** Every non-sample entry is an id with its current card, and no id appears twice. */
  lemma NonSampleEntriesAreCurrent(m: CardMap, sampleIds: set<string>)
    requires m.Valid()
    ensures forall e | e in NonSampleEntries(m, sampleIds) :: e.0 !in sampleIds && e.0 in m.cards && m.cards[e.0] == e.1
    ensures DistinctBy(NonSampleEntries(m, sampleIds), EntryId)
  {
    var all := m.Entries();
    assert DistinctBy(all, EntryId);
    FilterKeepsDistinct(all, NotSample(sampleIds), EntryId);
    forall e | e in NonSampleEntries(m, sampleIds) ensures e.0 in m.cards && m.cards[e.0] == e.1 {
      var i :| 0 <= i < |all| && all[i] == e;
    }
  }

  /**
   * At most 500 entries are written, they are the newest of the non-sample entries in insertion
   * order, each is an id with its current card, and no id is written twice.
   */
  lemma PersistedIsNewestNonSample(m: CardMap, sampleIds: set<string>)
    requires m.Valid()
    ensures var p, ns := Persisted(m, sampleIds), NonSampleEntries(m, sampleIds);
            |p| == (if |ns| < MAX_CARD_CACHE then |ns| else MAX_CARD_CACHE)
            && p == ns[|ns| - |p|..]
    ensures forall e | e in Persisted(m, sampleIds) :: e.0 !in sampleIds && e.0 in m.cards && m.cards[e.0] == e.1
    ensures DistinctBy(Persisted(m, sampleIds), EntryId)
  {
    var ns := NonSampleEntries(m, sampleIds);
    NonSampleEntriesAreCurrent(m, sampleIds);
    var r := Persisted(m, sampleIds);
    SuffixKeepsDistinct(ns, |ns| - |r|, EntryId);
    assert r == ns[|ns| - |r|..];
  }

  /** In a list without repeated ids, an entry is the first one carrying its id. */
  lemma FirstEntryOfDistinct(entries: seq<(string, Card)>, i: int)
    requires DistinctBy(entries, EntryId) && 0 <= i < |entries|
    ensures FirstEntryOf(entries, entries[i].0) == i
  {
    var k := FirstEntryOf(entries, entries[i].0);
    assert EntryId(entries[k]) == EntryId(entries[i]);
  }

  /** Hydrating a map from entries with distinct ids, none of them present yet, gives each its own card. */
  lemma HydrateDistinctRestores(m: CardMap, entries: seq<(string, Card)>)
    requires DistinctBy(entries, EntryId)
    requires forall e | e in entries :: e.0 !in m.cards
    ensures forall e | e in entries :: e.0 in m.HydrateAll(entries).cards && m.HydrateAll(entries).cards[e.0] == e.1
  {
    forall e | e in entries ensures e.0 in m.HydrateAll(entries).cards && m.HydrateAll(entries).cards[e.0] == e.1 {
      var i :| 0 <= i < |entries| && entries[i] == e;
      FirstEntryOfDistinct(entries, i);
      HydrateFirstWins(m, entries, e.0);
    }
  }

  /**
   * A reload restores every persisted card: hydrating the persisted entries into a map that holds
   * only sample cards (as the map does right after seeding) gives each persisted id the card it
   * had when it was written.
   */
  lemma PersistThenReloadRestores(m: CardMap, sampleIds: set<string>, reloaded: CardMap)
    requires m.Valid()
    requires reloaded.cards.Keys <= sampleIds
    ensures forall e | e in Persisted(m, sampleIds) :: e.0 in m.cards
    ensures forall e | e in Persisted(m, sampleIds) ::
              var r := reloaded.HydrateAll(Persisted(m, sampleIds));
              e.0 in r.cards && r.cards[e.0] == m.cards[e.0]
  {
    var p := Persisted(m, sampleIds);
    PersistedIsNewestNonSample(m, sampleIds);
    HydrateDistinctRestores(reloaded, p);
  }

  // ── Storage ──

  const LS_SETS := "tcg_sets"
  const LS_META := "tcg_meta"
  const LS_CARD_CACHE := "tcg_card_cache"
  const LS_TIMESTAMPS := "tcg_cache_timestamps"

  /** Milliseconds: 24 hours for sets and meta, 1 hour for a set's card list. */
  const STALE_SETS := 24 * 60 * 60 * 1000
  const STALE_META := 24 * 60 * 60 * 1000
  const STALE_SET_CARDS := 60 * 60 * 1000

  /** A set's first page of cards with the search's total. */
  datatype SetCards = SetCards(cards: seq<Card>, totalCount: int)

  /**
   * A stored value as it parses. `Unparseable` stands for text that does not parse (or, for a
   * read, parses to a value of another shape than the one the reader expects).
   */
  datatype Stored =
    | SetsJson(sets: seq<CardSet>)
    | MetaJson(meta: CachedMeta)
    | SetCardsJson(setCards: SetCards)
    | EntriesJson(entries: seq<(string, Card)>)
    | TimestampsJson(stamps: map<string, int>)
    | Unparseable

  /** `setCardKey(setId)` */
  function SetCardKey(setId: string): (k: string)
    ensures |k| == 14 + |setId| && k[14..] == setId
  {
    "tcg_set_cards_" + setId
  }

  /** A set's key never collides with the four fixed keys, nor with another set's key. */
  lemma SetCardKeysDistinct(setId: string, other: string)
    ensures SetCardKey(setId) !in {LS_SETS, LS_META, LS_CARD_CACHE, LS_TIMESTAMPS}
    ensures SetCardKey(setId) == SetCardKey(other) <==> setId == other
  {
    var k := SetCardKey(setId);
    assert k[4] == 's' && LS_CARD_CACHE[4] == 'c' && LS_TIMESTAMPS[4] == 'c';
    assert k[5] == 'e' && LS_META[4] == 'm';
    assert |LS_SETS| == 8 < |k|;
    if k == SetCardKey(other) {
      assert setId == k[14..] == SetCardKey(other)[14..] == other;
    }
  }

  /** `getTimestamps()`: the stored table, or an empty one when it is missing or does not parse. */
  function Timestamps(storage: map<string, Stored>): (r: map<string, int>)
    ensures LS_TIMESTAMPS in storage && storage[LS_TIMESTAMPS].TimestampsJson? ==> r == storage[LS_TIMESTAMPS].stamps
    ensures !(LS_TIMESTAMPS in storage && storage[LS_TIMESTAMPS].TimestampsJson?) ==> r == map[]
  {
    if LS_TIMESTAMPS in storage && storage[LS_TIMESTAMPS].TimestampsJson? then storage[LS_TIMESTAMPS].stamps
    else map[]
  }

  /** The storage after `setTimestamp(key)` at time `now`; a failed write leaves it as it was. */
  function WithTimestamp(storage: map<string, Stored>, key: string, now: int, writeOk: bool): (r: map<string, Stored>)
    ensures writeOk ==> Timestamps(r) == Timestamps(storage)[key := now]
    ensures !writeOk ==> r == storage
    ensures forall k | k != LS_TIMESTAMPS :: (k in r <==> k in storage) && (k in r ==> r[k] == storage[k])
  {
    if writeOk then storage[LS_TIMESTAMPS := TimestampsJson(Timestamps(storage)[key := now])] else storage
  }

  /** `setTimestamp` touches only its own key of the table. */
  lemma SetTimestampOnlyOwnKey(storage: map<string, Stored>, key: string, now: int, other: string)
    requires other != key
    ensures var t := Timestamps(WithTimestamp(storage, key, now, true));
            (other in t <==> other in Timestamps(storage))
            && (other in t ==> t[other] == Timestamps(storage)[other])
  {
    var old_ := Timestamps(storage);
    var t := Timestamps(WithTimestamp(storage, key, now, true));
    assert t == old_[key := now];
    assert other in t <==> other in old_;
  }

  /**
   * `!ts` in the staleness checks: a missing stamp and a stamp of 0 count as never written;
   * otherwise the entry is stale once more than `threshold` milliseconds have passed.
   */
  predicate IsStale(stamps: map<string, int>, key: string, threshold: int, now: int) {
    key !in stamps || stamps[key] == 0 || now - stamps[key] > threshold
  }

  /** An entry that is stale stays stale as time goes on. */
  lemma StaleStaysStale(stamps: map<string, int>, key: string, threshold: int, now: int, later: int)
    requires now <= later
    requires IsStale(stamps, key, threshold, now)
    ensures IsStale(stamps, key, threshold, later)
  {
  }

  /** An entry stamped at a non-zero instant is fresh at that instant and until the threshold passes. */
  lemma StampedIsFreshUntilThreshold(stamps: map<string, int>, key: string, threshold: int, now: int, later: int)
    requires now != 0 && 0 <= threshold
    requires now <= later <= now + threshold
    ensures !IsStale(stamps[key := now], key, threshold, later)
    ensures IsStale(stamps[key := now], key, threshold, now + threshold + 1)
  {
  }

  function IsSetsStale(storage: map<string, Stored>, now: int): bool {
    IsStale(Timestamps(storage), LS_SETS, STALE_SETS, now)
  }

  function IsMetaStale(storage: map<string, Stored>, now: int): bool {
    IsStale(Timestamps(storage), LS_META, STALE_META, now)
  }

  function IsSetCardCacheStale(storage: map<string, Stored>, setId: string, now: int): bool {
    IsStale(Timestamps(storage), SetCardKey(setId), STALE_SET_CARDS, now)
  }

  /** `getCachedSets()`: the stored sets, or nothing when missing or unreadable. */
  function CachedSets(storage: map<string, Stored>): (r: Option<seq<CardSet>>)
    ensures r.Some? <==> LS_SETS in storage && storage[LS_SETS].SetsJson?
    ensures r.Some? ==> r.value == storage[LS_SETS].sets
  {
    if LS_SETS in storage && storage[LS_SETS].SetsJson? then Some(storage[LS_SETS].sets) else None
  }

  /** `getCachedMeta()`: the stored meta, or nothing when missing or unreadable. */
  function CachedMetaIn(storage: map<string, Stored>): (r: Option<CachedMeta>)
    ensures r.Some? <==> LS_META in storage && storage[LS_META].MetaJson?
    ensures r.Some? ==> r.value == storage[LS_META].meta
  {
    if LS_META in storage && storage[LS_META].MetaJson? then Some(storage[LS_META].meta) else None
  }

  /** `getSetCardCache(setId)`: the stored first page of a set, or nothing when missing or unreadable. */
  function SetCardCache(storage: map<string, Stored>, setId: string): (r: Option<SetCards>)
    ensures r.Some? <==> SetCardKey(setId) in storage && storage[SetCardKey(setId)].SetCardsJson?
    ensures r.Some? ==> r.value == storage[SetCardKey(setId)].setCards
  {
    var k := SetCardKey(setId);
    if k in storage && storage[k].SetCardsJson? then Some(storage[k].setCards) else None
  }

  /** The persisted entries `hydrateCardCache` reads: none when missing or unreadable. */
  function StoredEntries(storage: map<string, Stored>): (r: seq<(string, Card)>)
    ensures !(LS_CARD_CACHE in storage && storage[LS_CARD_CACHE].EntriesJson?) ==> r == []
    ensures LS_CARD_CACHE in storage && storage[LS_CARD_CACHE].EntriesJson? ==> r == storage[LS_CARD_CACHE].entries
  {
    if LS_CARD_CACHE in storage && storage[LS_CARD_CACHE].EntriesJson? then storage[LS_CARD_CACHE].entries else []
  }

  // ── The module state ──

  class Cache {
    var cards: map<string, Card>
    var order: seq<string>
    var storage: map<string, Stored>
    /** A delayed `persistCardCache` is scheduled. */
    var persistPending: bool

    function Contents(): CardMap
      reads this
    {
      CardMap(cards, order)
    }

    ghost predicate Valid()
      reads this
    {
      Contents().Valid()
    }

    /** Module initialisation: the map seeded with every sample card, over whatever storage holds. */
    constructor (initialStorage: map<string, Stored>)
      ensures Valid() && Contents() == EMPTY_MAP.PutAll(MockData.MockCards())
      ensures cards.Keys == MockData.SampleIds()
      ensures storage == initialStorage && !persistPending
    {
      cards, order := map[], [];
      storage := initialStorage;
      persistPending := false;
      new;
      var samples := MockData.MockCards();
      PutCards(samples);
      forall id ensures id in cards <==> id in MockData.SampleIds() {
        PutAllLastWins(EMPTY_MAP, samples, id);
        if id in MockData.SampleIds() {
          var c :| c in samples && c.id == id;
          var i :| 0 <= i < |samples| && samples[i] == c;
        }
      }
    }

    /** `getCardFromCache(id)` */
    function GetCard(id: string): (r: Option<Card>)
      reads this
      ensures r.Some? <==> id in cards
      ensures r.Some? ==> r.value == cards[id]
    {
      if id in cards then Some(cards[id]) else None
    }

    /** `putCardInCache(card)` */
    method PutCard(card: Card)
      requires Valid()
      modifies this
      ensures Valid()
      ensures Contents() == old(Contents()).Set(card.id, card)
      ensures storage == old(storage) && persistPending == old(persistPending)
    {
      if card.id !in cards {
        order := order + [card.id];
      }
      cards := cards[card.id := card];
    }

    /** `putCardsInCache(batch)` */
    method PutCards(batch: seq<Card>)
      requires Valid()
      modifies this
      ensures Valid()
      ensures Contents() == old(Contents()).PutAll(batch)
      ensures storage == old(storage) && persistPending == old(persistPending)
    {
      ghost var start := Contents();
      var i := 0;
      while i < |batch|
        invariant 0 <= i <= |batch|
        invariant Valid()
        invariant Contents() == start.PutAll(batch[..i])
        invariant storage == old(storage) && persistPending == old(persistPending)
      {
        assert batch[..i + 1][..i] == batch[..i];
        PutCard(batch[i]);
        i := i + 1;
      }
      assert batch[..i] == batch;
    }

    /** `getAllCachedCards()` */
    function AllCachedCards(): (r: seq<Card>)
      reads this
      requires Valid()
      ensures r == Contents().Values()
    {
      Contents().Values()
    }

    /** `setTimestamp(key)` */
    method SetTimestamp(key: string, now: int, writeOk: bool)
      modifies this
      ensures storage == WithTimestamp(old(storage), key, now, writeOk)
      ensures cards == old(cards) && order == old(order) && persistPending == old(persistPending)
    {
      var ts := Timestamps(storage);
      ts := ts[key := now];
      if writeOk {
        storage := storage[LS_TIMESTAMPS := TimestampsJson(ts)];
      }
    }

    /**
     * `setCachedSets(sets)`: a failed data write changes nothing; a failed timestamp write keeps
     * the data; a full write makes the sets fresh at the write instant.
     */
    method SetCachedSets(sets: seq<CardSet>, now: int, dataOk: bool, stampOk: bool)
      modifies this
      ensures !dataOk ==> storage == old(storage)
      ensures dataOk ==> storage == WithTimestamp(old(storage)[LS_SETS := SetsJson(sets)], LS_SETS, now, stampOk)
      ensures dataOk ==> CachedSets(storage) == Some(sets)
      ensures dataOk && stampOk && now != 0 ==> !IsSetsStale(storage, now)
      ensures cards == old(cards) && order == old(order) && persistPending == old(persistPending)
    {
      if dataOk {
        storage := storage[LS_SETS := SetsJson(sets)];
        SetTimestamp(LS_SETS, now, stampOk);
      }
    }

    /** `setCachedMeta(meta)`, with the same failure behaviour as `setCachedSets`. */
    method SetCachedMeta(meta: CachedMeta, now: int, dataOk: bool, stampOk: bool)
      modifies this
      ensures !dataOk ==> storage == old(storage)
      ensures dataOk ==> storage == WithTimestamp(old(storage)[LS_META := MetaJson(meta)], LS_META, now, stampOk)
      ensures dataOk ==> CachedMetaIn(storage) == Some(meta)
      ensures dataOk && stampOk && now != 0 ==> !IsMetaStale(storage, now)
      ensures cards == old(cards) && order == old(order) && persistPending == old(persistPending)
    {
      if dataOk {
        storage := storage[LS_META := MetaJson(meta)];
        SetTimestamp(LS_META, now, stampOk);
      }
    }

    /** `setSetCardCache(setId, data)`, with the same failure behaviour as `setCachedSets`. */
    method SetSetCardCache(setId: string, data: SetCards, now: int, dataOk: bool, stampOk: bool)
      modifies this
      ensures !dataOk ==> storage == old(storage)
      ensures dataOk ==> storage == WithTimestamp(old(storage)[SetCardKey(setId) := SetCardsJson(data)],
                                                  SetCardKey(setId), now, stampOk)
      ensures dataOk ==> SetCardCache(storage, setId) == Some(data)
      ensures dataOk && stampOk && now != 0 ==> !IsSetCardCacheStale(storage, setId, now)
      ensures cards == old(cards) && order == old(order) && persistPending == old(persistPending)
    {
      if dataOk {
        SetCardKeysDistinct(setId, setId);
        storage := storage[SetCardKey(setId) := SetCardsJson(data)];
        SetTimestamp(SetCardKey(setId), now, stampOk);
      }
    }

    /** `persistCardCache()`; a failed write is swallowed. */
    method PersistCardCache(writeOk: bool)
      requires Valid()
      modifies this
      ensures Valid()
      ensures writeOk ==> storage == old(storage)[LS_CARD_CACHE := EntriesJson(Persisted(Contents(), MockData.SampleIds()))]
      ensures !writeOk ==> storage == old(storage)
      ensures cards == old(cards) && order == old(order) && persistPending == old(persistPending)
    {
      var capped := Persisted(Contents(), MockData.SampleIds());
      if writeOk {
        storage := storage[LS_CARD_CACHE := EntriesJson(capped)];
      }
    }

    /** `hydrateCardCache()`: adds the persisted cards whose ids are absent and replaces nothing. */
    method HydrateCardCache()
      requires Valid()
      modifies this
      ensures Valid()
      ensures Contents() == old(Contents()).HydrateAll(StoredEntries(storage))
      ensures storage == old(storage) && persistPending == old(persistPending)
    {
      var entries := StoredEntries(storage);
      ghost var start := Contents();
      var i := 0;
      while i < |entries|
        invariant 0 <= i <= |entries|
        invariant Valid()
        invariant Contents() == start.HydrateAll(entries[..i])
        invariant storage == old(storage) && persistPending == old(persistPending)
      {
        start.HydrateStep(entries, i);
        var (id, card) := entries[i];
        if id !in cards {
          order := order + [id];
          cards := cards[id := card];
        }
        i := i + 1;
      }
      assert entries[..i] == entries;
    }

    /**
     * `putCardsInCacheAndPersist(batch)`: memory is updated at once, and exactly one delayed
     * persist is pending, whatever was pending before.
     */
    method PutCardsInCacheAndPersist(batch: seq<Card>)
      requires Valid()
      modifies this
      ensures Valid()
      ensures Contents() == old(Contents()).PutAll(batch)
      ensures storage == old(storage) && persistPending
    {
      PutCards(batch);
      persistPending := true;
    }

    /** The delayed persist firing: it writes the map as it is when the delay ends. */
    method FirePersistTimer(writeOk: bool)
      requires Valid() && persistPending
      modifies this
      ensures Valid()
      ensures writeOk ==> storage == old(storage)[LS_CARD_CACHE := EntriesJson(Persisted(Contents(), MockData.SampleIds()))]
      ensures !writeOk ==> storage == old(storage)
      ensures cards == old(cards) && order == old(order) && !persistPending
    {
      PersistCardCache(writeOk);
      persistPending := false;
    }
  }
}
