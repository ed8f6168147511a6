/** The record shapes shared by the card catalogue, the caches, the store and the screens. */
module Types {

  datatype Option<T> = None | Some(value: T) {
    /** `x ?? d` for a value that may be undefined */
    function GetOr(default: T): T {
      if Some? then value else default
    }
  }

  /** A call that either yields a value or fails with a message (a thrown error). */
  datatype Result<T> = Ok(value: T) | Err(message: string)

  /** "owned" | "wishlist" | "none" */
  datatype CardStatus = Owned | Wishlist | NoStatus

  /** The viewer-state filters that are never sent upstream: "owned" | "wishlist" */
  datatype MetaFilter = OwnedOnly | WishlistOnly

  /**
   * A catalogue card. `setId` is set only by the upstream transform; `status` is absent on
   * the bundled sample cards, which instead carry `owned` and `liked`.
   */
  datatype Card = Card(
    id: string,
    name: string,
    setName: string,
    setId: Option<string>,
    rarity: string,
    cardType: string,
    artist: string,
    imageUrl: string,
    status: Option<CardStatus>,
    owned: Option<bool>,
    liked: Option<bool>)

  function Ids(cards: seq<Card>): set<string> {
    set c | c in cards :: c.id
  }

  /** No two cards of the list share an identifier. */
  predicate UniqueIds(cards: seq<Card>) {
    forall i, j | 0 <= i < j < |cards| :: cards[i].id != cards[j].id
  }

  /** The position of the last card with this id, or -1 when no card has it. */
  function LastIndexOf(cards: seq<Card>, id: string): (r: int)
    ensures -1 <= r < |cards|
    ensures r >= 0 ==> cards[r].id == id && forall j | r < j < |cards| :: cards[j].id != id
    ensures r == -1 ==> forall j | 0 <= j < |cards| :: cards[j].id != id
    decreases |cards|
  {
    if cards == [] then -1
    else if cards[|cards| - 1].id == id then |cards| - 1
    else LastIndexOf(cards[..|cards| - 1], id)
  }

  /** A set as the catalogue describes it (id, name, series, size, release date, two images). */
  datatype CardSet = CardSet(
    id: string,
    name: string,
    series: string,
    total: int,
    releaseDate: string,
    symbolUrl: string,
    logoUrl: string)

  /** The filter-picker vocabulary: types, rarities and subtypes. */
  datatype CachedMeta = CachedMeta(types: seq<string>, rarities: seq<string>, subtypes: seq<string>)

  /** One page of a card search, as the cards endpoint returns it. */
  datatype CardsPage = CardsPage(cards: seq<Card>, totalCount: int, page: int, pageSize: int)

  datatype Slot = Slot(id: string, cardId: Option<string>, position: int)

  datatype BinderPage = BinderPage(id: string, slots: seq<Slot>)

  datatype BinderColor = Red | Blue | Green | Purple | Orange | Black

  datatype Binder = Binder(id: string, name: string, color: BinderColor, pages: seq<BinderPage>)

  /** The four facets a search can be restricted by. */
  datatype FacetKey = RarityKey | ArtistKey | SetKey | TypeKey

  /** Each facet is an OR-group of accepted values. */
  datatype CardFilters = CardFilters(rarity: seq<string>, artist: seq<string>, sets: seq<string>, types: seq<string>) {

    function Get(key: FacetKey): seq<string> {
      match key
      case RarityKey => rarity
      case ArtistKey => artist
      case SetKey => sets
      case TypeKey => types
    }

    /** `{ ...filters, [key]: values }` */
    function With(key: FacetKey, values: seq<string>): (r: CardFilters)
      ensures r.Get(key) == values
      ensures forall k :: k != key ==> r.Get(k) == Get(k)
    {
      match key
      case RarityKey => this.(rarity := values)
      case ArtistKey => this.(artist := values)
      case SetKey => this.(sets := values)
      case TypeKey => this.(types := values)
    }

    /** `Object.values(filters).flat().length` */
    function ActiveCount(): nat {
      |rarity| + |artist| + |sets| + |types|
    }
  }

  const EMPTY_FILTERS := CardFilters([], [], [], [])

  /** The card field a facet key selects (`c[key]`). */
  function CardField(c: Card, key: FacetKey): string {
    match key
    case RarityKey => c.rarity
    case ArtistKey => c.artist
    case SetKey => c.setName
    case TypeKey => c.cardType
  }
}
