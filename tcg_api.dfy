/**
 * The server-side catalogue client: an in-memory cache with expiry, the upstream record
 * transforms, the request defaults and cache keys, and the cache-or-fetch shape of the four
 * public fetches. The upstream call's outcome is a parameter, and the clock is `now`.
 */
module TcgApi {
  import opened Types

  // ── Upstream records ──

  datatype RawSetRef = RawSetRef(id: string, name: string)

  /** An upstream card: rarity, types and artist may be absent. */
  datatype RawCard = RawCard(
    id: string,
    name: string,
    setRef: RawSetRef,
    rarity: Option<string>,
    types: Option<seq<string>>,
    artist: Option<string>,
    smallImage: string)

  datatype RawSet = RawSet(
    id: string,
    name: string,
    series: string,
    total: int,
    releaseDate: string,
    symbolImage: string,
    logoImage: string)

  /** One page of an upstream card search. */
  datatype RawCardsPage = RawCardsPage(data: seq<RawCard>, totalCount: int)

  // ── Transforms ──

  /** `raw.types?.[0] ?? "Colorless"`: the first type, when the list is present and not empty. */
  function FirstType(types: Option<seq<string>>): (t: string)
    ensures types.Some? && types.value != [] ==> t == types.value[0]
    ensures types.None? || types.value == [] ==> t == "Colorless"
  {
    if types.Some? && types.value != [] then types.value[0] else "Colorless"
  }

  /**
   * `transformCard`: identity, name, set and image copied; rarity and artist default to
   * "Unknown", type to the first listed type or "Colorless"; the status is always "none".
   */
  function TransformCard(raw: RawCard): (c: Card)
    ensures c.id == raw.id && c.name == raw.name && c.imageUrl == raw.smallImage
    ensures c.setName == raw.setRef.name && c.setId == Some(raw.setRef.id)
    ensures c.rarity == (if raw.rarity.Some? then raw.rarity.value else "Unknown")
    ensures c.artist == (if raw.artist.Some? then raw.artist.value else "Unknown")
    ensures c.cardType == FirstType(raw.types)
    ensures c.status == Some(NoStatus) && c.owned.None? && c.liked.None?
  {
    Card(raw.id, raw.name, raw.setRef.name, Some(raw.setRef.id), raw.rarity.GetOr("Unknown"), FirstType(raw.types),
         raw.artist.GetOr("Unknown"), raw.smallImage, Some(NoStatus), None, None)
  }

  /** `transformSet`: every field copied, the two images under their own names. */
  function TransformSet(raw: RawSet): (s: CardSet)
    ensures s.id == raw.id && s.name == raw.name && s.series == raw.series && s.total == raw.total
    ensures s.releaseDate == raw.releaseDate && s.symbolUrl == raw.symbolImage && s.logoUrl == raw.logoImage
  {
    CardSet(raw.id, raw.name, raw.series, raw.total, raw.releaseDate, raw.symbolImage, raw.logoImage)
  }

  function TransformCards(raws: seq<RawCard>): (r: seq<Card>)
    ensures |r| == |raws| && forall i | 0 <= i < |raws| :: r[i] == TransformCard(raws[i])
  {
    seq(|raws|, i requires 0 <= i < |raws| => TransformCard(raws[i]))
  }

  function TransformSets(raws: seq<RawSet>): (r: seq<CardSet>)
    ensures |r| == |raws| && forall i | 0 <= i < |raws| :: r[i] == TransformSet(raws[i])
  {
    seq(|raws|, i requires 0 <= i < |raws| => TransformSet(raws[i]))
  }

  // ── Request headers ──

  const PLACEHOLDER_KEY := "your_api_key_here"

  /**
   * `apiHeaders()` for the configured key: always the JSON content type, and the key header
   * exactly when a key is configured, non-empty and not the placeholder.
   */
  function ApiHeaders(apiKey: Option<string>): (h: seq<(string, string)>)
    ensures |h| >= 1 && h[0] == ("Content-Type", "application/json")
    ensures ("X-Api-Key", apiKey.GetOr("")) in h <==> apiKey.Some? && apiKey.value != "" && apiKey.value != PLACEHOLDER_KEY
    ensures forall v :: ("X-Api-Key", v) in h ==> apiKey == Some(v)
    ensures |h| <= 2
  {
    [("Content-Type", "application/json")]
    + (if apiKey.Some? && apiKey.value != "" && apiKey.value != PLACEHOLDER_KEY then [("X-Api-Key", apiKey.value)] else [])
  }

  // ── Cache keys ──

  /**
   * The cache keys: `"sets"`, `"meta"`, `"cards:<query string>"` and `"card:<id>"`. The four
   * prefixes cannot be confused, and the query string is an injective encoding of its
   * parameters, so a key is modelled by the values it encodes.
   */
  datatype CacheKey =
    | SetsKey
    | MetaKey
    | CardsKey(q: Option<string>, page: int, pageSize: int, orderBy: string)
    | CardKey(id: string)

  /** The options `fetchCards` accepts; each may be absent. */
  datatype CardsOptions = CardsOptions(q: Option<string>, page: Option<int>, pageSize: Option<int>, orderBy: Option<string>)

  const DEFAULT_ORDER := "-set.releaseDate"

  /** The key `fetchCards` builds: page 1, 20 per page and newest sets first by default; no query when it is absent or empty. */
  function CardsKeyOf(opts: CardsOptions): (k: CacheKey)
    ensures k.CardsKey?
    ensures k.page == (if opts.page.Some? then opts.page.value else 1)
    ensures k.pageSize == (if opts.pageSize.Some? then opts.pageSize.value else 20)
    ensures k.orderBy == (if opts.orderBy.Some? then opts.orderBy.value else DEFAULT_ORDER)
    ensures k.q.Some? <==> opts.q.Some? && opts.q.value != ""
    ensures k.q.Some? ==> k.q == opts.q
  {
    CardsKey(if opts.q.Some? && opts.q.value != "" then opts.q else None,
             opts.page.GetOr(1), opts.pageSize.GetOr(20), opts.orderBy.GetOr(DEFAULT_ORDER))
  }

  /** Two option sets share a cache entry exactly when they ask for the same effective request. */
  lemma CardsKeySharedIffSameRequest(a: CardsOptions, b: CardsOptions)
    ensures CardsKeyOf(a) == CardsKeyOf(b) <==>
              (a.q.Some? && a.q.value != "" <==> b.q.Some? && b.q.value != "")
              && (a.q.Some? && a.q.value != "" ==> a.q == b.q)
              && a.page.GetOr(1) == b.page.GetOr(1)
              && a.pageSize.GetOr(20) == b.pageSize.GetOr(20)
              && a.orderBy.GetOr(DEFAULT_ORDER) == b.orderBy.GetOr(DEFAULT_ORDER)
  {
  }

  // ── The cache ──

  /** Milliseconds: 24 hours for sets and meta, 15 minutes for card pages and single cards. */
  const TTL_SETS := 24 * 60 * 60 * 1000
  const TTL_META := 24 * 60 * 60 * 1000
  const TTL_CARDS := 15 * 60 * 1000

  datatype Payload =
    | SetsData(sets: seq<CardSet>)
    | MetaData(meta: CachedMeta)
    | PageData(cardsPage: CardsPage)
    | CardData(card: Card)

  datatype CacheEntry = CacheEntry(data: Payload, expiresAt: int)

  /** What each kind of key holds; a card page is stored under the key of its own page and page size. */
  predicate Fits(key: CacheKey, data: Payload) {
    match key
    case SetsKey => data.SetsData?
    case MetaKey => data.MetaData?
    case CardsKey(_, page, pageSize, _) => data.PageData? && data.cardsPage.page == page && data.cardsPage.pageSize == pageSize
    case CardKey(_) => data.CardData?
  }

  /** `getCached(key)`'s answer: the data, when the entry exists and has not expired. */
  function Lookup(entries: map<CacheKey, CacheEntry>, key: CacheKey, now: int): (r: Option<Payload>)
    ensures r.Some? <==> key in entries && now <= entries[key].expiresAt
    ensures r.Some? ==> r.value == entries[key].data
  {
    if key in entries && now <= entries[key].expiresAt then Some(entries[key].data) else None
  }

  /** The cache after `getCached(key)`: an expired entry is deleted, and nothing else changes. */
  function AfterLookup(entries: map<CacheKey, CacheEntry>, key: CacheKey, now: int): (r: map<CacheKey, CacheEntry>)
    ensures key in entries && now > entries[key].expiresAt ==> r == entries - {key}
    ensures !(key in entries && now > entries[key].expiresAt) ==> r == entries
  {
    if key in entries && now > entries[key].expiresAt then entries - {key} else entries
  }

  /** `setCached(key, data, ttl)` at time `now` */
  function Store(entries: map<CacheKey, CacheEntry>, key: CacheKey, data: Payload, ttl: int, now: int): (r: map<CacheKey, CacheEntry>)
    ensures r.Keys == entries.Keys + {key}
    ensures forall k | k in entries && k != key :: r[k] == entries[k]
  {
    entries[key := CacheEntry(data, now + ttl)]
  }

  /** A stored value is served back until its time to live has elapsed, and not after. */
  lemma StoreThenLookup(entries: map<CacheKey, CacheEntry>, key: CacheKey, data: Payload, ttl: int, stored: int, now: int)
    ensures Lookup(Store(entries, key, data, ttl, stored), key, now) == (if now <= stored + ttl then Some(data) else None)
  {
  }

  /** Storing under one key changes no other key's answer. */
  lemma StoreLeavesOtherKeys(entries: map<CacheKey, CacheEntry>, key: CacheKey, other: CacheKey, data: Payload, ttl: int, stored: int, now: int)
    requires other != key
    ensures Lookup(Store(entries, key, data, ttl, stored), other, now) == Lookup(entries, other, now)
  {
  }

  /** A lookup never changes what any lookup at the same instant or later answers. */
  lemma LookupDeletionIsInvisible(entries: map<CacheKey, CacheEntry>, key: CacheKey, other: CacheKey, now: int, later: int)
    requires now <= later
    ensures Lookup(AfterLookup(entries, key, now), other, later) == Lookup(entries, other, later)
  {
  }

  class ServerCache {
    var entries: map<CacheKey, CacheEntry>

    ghost predicate Valid()
      reads this
    {
      forall k | k in entries :: Fits(k, entries[k].data)
    }

    constructor ()
      ensures Valid() && entries == map[]
    {
      entries := map[];
    }

    /** `getCached(key)` */
    method GetCached(key: CacheKey, now: int) returns (r: Option<Payload>)
      requires Valid()
      modifies this
      ensures Valid()
      ensures r == Lookup(old(entries), key, now)
      ensures entries == AfterLookup(old(entries), key, now)
      ensures r.Some? ==> Fits(key, r.value)
    {
      if key !in entries {
        return None;
      }
      var entry := entries[key];
      if now > entry.expiresAt {
        entries := entries - {key};
        return None;
      }
      return Some(entry.data);
    }

    /** `setCached(key, data, ttl)` */
    method SetCached(key: CacheKey, data: Payload, ttl: int, now: int)
      requires Valid() && Fits(key, data)
      modifies this
      ensures Valid()
      ensures entries == Store(old(entries), key, data, ttl, now)
    {
      entries := entries[key := CacheEntry(data, now + ttl)];
    }

    /**
     * `fetchSets()`: a live cached list is returned without calling upstream; otherwise the
     * upstream list is transformed, cached for 24 hours and returned, and an upstream failure
     * is passed on. The cache is looked up at `now` and written at `storedAt`, the later instant
     * at which the upstream call has returned; the three fetches below read the clock the same way.
     */
    method FetchSets(now: int, storedAt: int, upstream: Result<seq<RawSet>>) returns (r: Result<seq<CardSet>>, calledUpstream: bool)
      requires Valid() && now <= storedAt
      modifies this
      ensures Valid()
      ensures calledUpstream <==> Lookup(old(entries), SetsKey, now).None?
      ensures !calledUpstream ==> r == Ok(Lookup(old(entries), SetsKey, now).value.sets) && entries == old(entries)
      ensures calledUpstream && upstream.Err? ==> r == Err(upstream.message) && entries == AfterLookup(old(entries), SetsKey, now)
      ensures calledUpstream && upstream.Ok? ==>
                r == Ok(TransformSets(upstream.value))
                && entries == Store(AfterLookup(old(entries), SetsKey, now), SetsKey, SetsData(TransformSets(upstream.value)), TTL_SETS, storedAt)
    {
      var cached := GetCached(SetsKey, now);
      if cached.Some? {
        return Ok(cached.value.sets), false;
      }
      calledUpstream := true;
      if upstream.Err? {
        return Err(upstream.message), calledUpstream;
      }
      var sets := TransformSets(upstream.value);
      SetCached(SetsKey, SetsData(sets), TTL_SETS, storedAt);
      r := Ok(sets);
    }

    /**
     * `fetchMeta()`: as `fetchSets`, over three upstream lists (types, rarities, subtypes); any
     * failing one fails the whole fetch and nothing is cached. Which failure's message comes back
     * (the first to fail in time) is not modelled: the body picks them in argument order.
     */
    method FetchMeta(now: int, storedAt: int, types: Result<seq<string>>, rarities: Result<seq<string>>, subtypes: Result<seq<string>>)
      returns (r: Result<CachedMeta>, calledUpstream: bool)
      requires Valid() && now <= storedAt
      modifies this
      ensures Valid()
      ensures calledUpstream <==> Lookup(old(entries), MetaKey, now).None?
      ensures !calledUpstream ==> r == Ok(Lookup(old(entries), MetaKey, now).value.meta) && entries == old(entries)
      ensures calledUpstream && (types.Err? || rarities.Err? || subtypes.Err?) ==>
                r.Err? && entries == AfterLookup(old(entries), MetaKey, now)
      ensures calledUpstream && types.Ok? && rarities.Ok? && subtypes.Ok? ==>
                var meta := CachedMeta(types.value, rarities.value, subtypes.value);
                r == Ok(meta) && entries == Store(AfterLookup(old(entries), MetaKey, now), MetaKey, MetaData(meta), TTL_META, storedAt)
    {
      var cached := GetCached(MetaKey, now);
      if cached.Some? {
        return Ok(cached.value.meta), false;
      }
      calledUpstream := true;
      if types.Err? {
        return Err(types.message), calledUpstream;
      } else if rarities.Err? {
        return Err(rarities.message), calledUpstream;
      } else if subtypes.Err? {
        return Err(subtypes.message), calledUpstream;
      }
      var meta := CachedMeta(types.value, rarities.value, subtypes.value);
      SetCached(MetaKey, MetaData(meta), TTL_META, storedAt);
      r := Ok(meta);
    }

    /**
     * `fetchCards(opts)`: cached per effective request for 15 minutes; a result always echoes
     * the requested page and page size, whether it comes from the cache or from upstream.
     */
    method FetchCards(opts: CardsOptions, now: int, storedAt: int, upstream: Result<RawCardsPage>) returns (r: Result<CardsPage>, calledUpstream: bool)
      requires Valid() && now <= storedAt
      modifies this
      ensures Valid()
      ensures var key := CardsKeyOf(opts);
              (calledUpstream <==> Lookup(old(entries), key, now).None?)
              && (!calledUpstream ==> r == Ok(Lookup(old(entries), key, now).value.cardsPage) && entries == old(entries))
              && (calledUpstream && upstream.Err? ==> r == Err(upstream.message) && entries == AfterLookup(old(entries), key, now))
              && (calledUpstream && upstream.Ok? ==>
                    var result := CardsPage(TransformCards(upstream.value.data), upstream.value.totalCount, key.page, key.pageSize);
                    r == Ok(result) && entries == Store(AfterLookup(old(entries), key, now), key, PageData(result), TTL_CARDS, storedAt))
      ensures r.Ok? ==> r.value.page == opts.page.GetOr(1) && r.value.pageSize == opts.pageSize.GetOr(20)
    {
      var key := CardsKeyOf(opts);
      var cached := GetCached(key, now);
      if cached.Some? {
        return Ok(cached.value.cardsPage), false;
      }
      calledUpstream := true;
      if upstream.Err? {
        return Err(upstream.message), calledUpstream;
      }
      var result := CardsPage(TransformCards(upstream.value.data), upstream.value.totalCount, key.page, key.pageSize);
      SetCached(key, PageData(result), TTL_CARDS, storedAt);
      r := Ok(result);
    }

    /**
     * `fetchCardById(id)`: a cached card is returned without calling upstream; an upstream
     * failure yields no card and caches nothing.
     */
    method FetchCardById(id: string, now: int, storedAt: int, upstream: Result<RawCard>) returns (r: Option<Card>, calledUpstream: bool)
      requires Valid() && now <= storedAt
      modifies this
      ensures Valid()
      ensures calledUpstream <==> Lookup(old(entries), CardKey(id), now).None?
      ensures !calledUpstream ==> r == Some(Lookup(old(entries), CardKey(id), now).value.card) && entries == old(entries)
      ensures calledUpstream && upstream.Err? ==> r == None && entries == AfterLookup(old(entries), CardKey(id), now)
      ensures calledUpstream && upstream.Ok? ==>
                r == Some(TransformCard(upstream.value))
                && entries == Store(AfterLookup(old(entries), CardKey(id), now), CardKey(id), CardData(TransformCard(upstream.value)), TTL_CARDS, storedAt)
    {
      var cached := GetCached(CardKey(id), now);
      if cached.Some? {
        return Some(cached.value.card), false;
      }
      calledUpstream := true;
      if upstream.Err? {
        return None, calledUpstream;
      }
      var card := TransformCard(upstream.value);
      SetCached(CardKey(id), CardData(card), TTL_CARDS, storedAt);
      r := Some(card);
    }
  }
}
