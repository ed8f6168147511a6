/** The bundled sample catalogue, the filter options derived from it, and the default binder. */
module MockData {
  import opened Types

  /** One row of `MOCK_CARDS`: the fields a sample card is written with. */
  datatype SampleRow = SampleRow(id: string, name: string, setName: string, rarity: string, cardType: string,
                                 artist: string, imageUrl: string, owned: bool, liked: bool)

  /** A sample card: no set id, no status, and the viewer's `owned` / `liked` flags. */
  function Sample(row: SampleRow): (r: Card)
    ensures r.status.None? && r.setId.None?
    ensures r.id == row.id && r.owned == Some(row.owned) && r.liked == Some(row.liked)
  {
    Card(row.id, row.name, row.setName, None, row.rarity, row.cardType, row.artist, row.imageUrl,
         None, Some(row.owned), Some(row.liked))
  }

  /** Row `i` of `MOCK_CARDS`, the sixty sample cards in file order. */
  function SampleRowAt(i: nat): SampleRow
    requires i < 60
  {
    match i
    case 0 => SampleRow("base1-4", "Charizard", "Base", "Rare Holo", "Fire", "Mitsuhiro Arita", "https://images.pokemontcg.io/base1/4.png", true, true)
    case 1 => SampleRow("base1-2", "Blastoise", "Base", "Rare Holo", "Water", "Ken Sugimori", "https://images.pokemontcg.io/base1/2.png", false, true)
    case 2 => SampleRow("base1-15", "Venusaur", "Base", "Rare Holo", "Grass", "Mitsuhiro Arita", "https://images.pokemontcg.io/base1/15.png", true, false)
    case 3 => SampleRow("base1-58", "Pikachu", "Base", "Common", "Lightning", "Mitsuhiro Arita", "https://images.pokemontcg.io/base1/58.png", true, true)
    case 4 => SampleRow("base1-44", "Bulbasaur", "Base", "Common", "Grass", "Mitsuhiro Arita", "https://images.pokemontcg.io/base1/44.png", true, false)
    case 5 => SampleRow("base1-46", "Charmander", "Base", "Common", "Fire", "Mitsuhiro Arita", "https://images.pokemontcg.io/base1/46.png", false, false)
    case 6 => SampleRow("base1-63", "Squirtle", "Base", "Common", "Water", "Mitsuhiro Arita", "https://images.pokemontcg.io/base1/63.png", false, true)
    case 7 => SampleRow("base1-17", "Beedrill", "Base", "Rare", "Grass", "Ken Sugimori", "https://images.pokemontcg.io/base1/17.png", false, false)
    case 8 => SampleRow("base1-5", "Clefairy", "Base", "Rare Holo", "Colorless", "Ken Sugimori", "https://images.pokemontcg.io/base1/5.png", false, false)
    case 9 => SampleRow("base1-1", "Alakazam", "Base", "Rare Holo", "Psychic", "Ken Sugimori", "https://images.pokemontcg.io/base1/1.png", false, false)
    case 10 => SampleRow("base1-8", "Machamp", "Base", "Rare Holo", "Fighting", "Ken Sugimori", "https://images.pokemontcg.io/base1/8.png", true, false)
    case 11 => SampleRow("base1-10", "Mewtwo", "Base", "Rare Holo", "Psychic", "Ken Sugimori", "https://images.pokemontcg.io/base1/10.png", false, true)
    case 12 => SampleRow("base1-3", "Chansey", "Base", "Rare Holo", "Colorless", "Ken Sugimori", "https://images.pokemontcg.io/base1/3.png", false, false)
    case 13 => SampleRow("base1-7", "Hitmonchan", "Base", "Rare Holo", "Fighting", "Ken Sugimori", "https://images.pokemontcg.io/base1/7.png", false, false)
    case 14 => SampleRow("base1-9", "Magneton", "Base", "Rare Holo", "Lightning", "Ken Sugimori", "https://images.pokemontcg.io/base1/9.png", false, false)
    case 15 => SampleRow("base1-11", "Nidoking", "Base", "Rare Holo", "Grass", "Ken Sugimori", "https://images.pokemontcg.io/base1/11.png", false, false)
    case 16 => SampleRow("base1-12", "Ninetales", "Base", "Rare Holo", "Fire", "Ken Sugimori", "https://images.pokemontcg.io/base1/12.png", false, true)
    case 17 => SampleRow("base1-14", "Raichu", "Base", "Rare Holo", "Lightning", "Ken Sugimori", "https://images.pokemontcg.io/base1/14.png", false, false)
    case 18 => SampleRow("base1-6", "Gyarados", "Base", "Rare Holo", "Water", "Mitsuhiro Arita", "https://images.pokemontcg.io/base1/6.png", true, true)
    case 19 => SampleRow("base1-13", "Poliwrath", "Base", "Rare Holo", "Water", "Ken Sugimori", "https://images.pokemontcg.io/base1/13.png", false, false)
    // Jungle set
    case 20 => SampleRow("jungle-1", "Clefable", "Jungle", "Rare Holo", "Colorless", "Mitsuhiro Arita", "https://images.pokemontcg.io/jungle/1.png", false, false)
    case 21 => SampleRow("jungle-2", "Electrode", "Jungle", "Rare Holo", "Lightning", "Mitsuhiro Arita", "https://images.pokemontcg.io/jungle/2.png", false, false)
    case 22 => SampleRow("jungle-3", "Flareon", "Jungle", "Rare Holo", "Fire", "Kagemaru Himeno", "https://images.pokemontcg.io/jungle/3.png", true, true)
    case 23 => SampleRow("jungle-4", "Jolteon", "Jungle", "Rare Holo", "Lightning", "Kagemaru Himeno", "https://images.pokemontcg.io/jungle/4.png", false, true)
    case 24 => SampleRow("jungle-5", "Kangaskhan", "Jungle", "Rare Holo", "Colorless", "Mitsuhiro Arita", "https://images.pokemontcg.io/jungle/5.png", false, false)
    case 25 => SampleRow("jungle-7", "Nidoqueen", "Jungle", "Rare Holo", "Grass", "Ken Sugimori", "https://images.pokemontcg.io/jungle/7.png", false, false)
    case 26 => SampleRow("jungle-9", "Pinsir", "Jungle", "Rare Holo", "Grass", "Kagemaru Himeno", "https://images.pokemontcg.io/jungle/9.png", false, false)
    case 27 => SampleRow("jungle-11", "Snorlax", "Jungle", "Rare Holo", "Colorless", "Ken Sugimori", "https://images.pokemontcg.io/jungle/11.png", true, false)
    case 28 => SampleRow("jungle-12", "Vaporeon", "Jungle", "Rare Holo", "Water", "Kagemaru Himeno", "https://images.pokemontcg.io/jungle/12.png", false, true)
    case 29 => SampleRow("jungle-16", "Wigglytuff", "Jungle", "Rare Holo", "Colorless", "Mitsuhiro Arita", "https://images.pokemontcg.io/jungle/16.png", false, false)
    // Fossil set
    case 30 => SampleRow("fossil-1", "Aerodactyl", "Fossil", "Rare Holo", "Fighting", "Kagemaru Himeno", "https://images.pokemontcg.io/fossil/1.png", false, true)
    case 31 => SampleRow("fossil-2", "Articuno", "Fossil", "Rare Holo", "Water", "Mitsuhiro Arita", "https://images.pokemontcg.io/fossil/2.png", true, true)
    case 32 => SampleRow("fossil-3", "Ditto", "Fossil", "Rare Holo", "Colorless", "Keiji Kinebuchi", "https://images.pokemontcg.io/fossil/3.png", false, false)
    case 33 => SampleRow("fossil-5", "Gengar", "Fossil", "Rare Holo", "Psychic", "Keiji Kinebuchi", "https://images.pokemontcg.io/fossil/5.png", false, true)
    case 34 => SampleRow("fossil-6", "Haunter", "Fossil", "Rare Holo", "Psychic", "Keiji Kinebuchi", "https://images.pokemontcg.io/fossil/6.png", false, false)
    case 35 => SampleRow("fossil-7", "Hitmonlee", "Fossil", "Rare Holo", "Fighting", "Ken Sugimori", "https://images.pokemontcg.io/fossil/7.png", false, false)
    case 36 => SampleRow("fossil-8", "Hypno", "Fossil", "Rare Holo", "Psychic", "Ken Sugimori", "https://images.pokemontcg.io/fossil/8.png", false, false)
    case 37 => SampleRow("fossil-10", "Lapras", "Fossil", "Rare Holo", "Water", "Kagemaru Himeno", "https://images.pokemontcg.io/fossil/10.png", true, true)
    case 38 => SampleRow("fossil-12", "Moltres", "Fossil", "Rare Holo", "Fire", "Mitsuhiro Arita", "https://images.pokemontcg.io/fossil/12.png", false, true)
    case 39 => SampleRow("fossil-13", "Muk", "Fossil", "Rare Holo", "Grass", "Mitsuhiro Arita", "https://images.pokemontcg.io/fossil/13.png", false, false)
    case 40 => SampleRow("fossil-15", "Zapdos", "Fossil", "Rare Holo", "Lightning", "Mitsuhiro Arita", "https://images.pokemontcg.io/fossil/15.png", false, true)
    // Team Rocket
    case 41 => SampleRow("rocket-1", "Dark Alakazam", "Team Rocket", "Rare Holo", "Psychic", "Ken Sugimori", "https://images.pokemontcg.io/base5/1.png", false, false)
    case 42 => SampleRow("rocket-2", "Dark Arbok", "Team Rocket", "Rare Holo", "Grass", "Mitsuhiro Arita", "https://images.pokemontcg.io/base5/2.png", false, false)
    case 43 => SampleRow("rocket-3", "Dark Blastoise", "Team Rocket", "Rare Holo", "Water", "Kagemaru Himeno", "https://images.pokemontcg.io/base5/3.png", false, true)
    case 44 => SampleRow("rocket-4", "Dark Charizard", "Team Rocket", "Rare Holo", "Fire", "Ken Sugimori", "https://images.pokemontcg.io/base5/4.png", true, true)
    case 45 => SampleRow("rocket-7", "Dark Golbat", "Team Rocket", "Rare Holo", "Grass", "Mitsuhiro Arita", "https://images.pokemontcg.io/base5/7.png", false, false)
    case 46 => SampleRow("rocket-8", "Dark Gyarados", "Team Rocket", "Rare Holo", "Water", "Kagemaru Himeno", "https://images.pokemontcg.io/base5/8.png", false, false)
    case 47 => SampleRow("rocket-9", "Dark Hypno", "Team Rocket", "Rare Holo", "Psychic", "Ken Sugimori", "https://images.pokemontcg.io/base5/9.png", false, false)
    case 48 => SampleRow("rocket-10", "Dark Machamp", "Team Rocket", "Rare Holo", "Fighting", "Ken Sugimori", "https://images.pokemontcg.io/base5/10.png", false, false)
    case 49 => SampleRow("rocket-13", "Dark Vileplume", "Team Rocket", "Rare Holo", "Grass", "Mitsuhiro Arita", "https://images.pokemontcg.io/base5/13.png", false, false)
    // Base commons/uncommons for variety
    case 50 => SampleRow("base1-23", "Arcanine", "Base", "Uncommon", "Fire", "Ken Sugimori", "https://images.pokemontcg.io/base1/23.png", true, false)
    case 51 => SampleRow("base1-25", "Dewgong", "Base", "Uncommon", "Water", "Mitsuhiro Arita", "https://images.pokemontcg.io/base1/25.png", false, false)
    case 52 => SampleRow("base1-26", "Dratini", "Base", "Uncommon", "Colorless", "Ken Sugimori", "https://images.pokemontcg.io/base1/26.png", false, false)
    case 53 => SampleRow("base1-18", "Dragonair", "Base", "Rare", "Colorless", "Mitsuhiro Arita", "https://images.pokemontcg.io/base1/18.png", false, true)
    case 54 => SampleRow("base1-34", "Machoke", "Base", "Uncommon", "Fighting", "Ken Sugimori", "https://images.pokemontcg.io/base1/34.png", false, false)
    case 55 => SampleRow("base1-36", "Magmar", "Base", "Uncommon", "Fire", "Ken Sugimori", "https://images.pokemontcg.io/base1/36.png", false, false)
    case 56 => SampleRow("base1-41", "Seel", "Base", "Uncommon", "Water", "Ken Sugimori", "https://images.pokemontcg.io/base1/41.png", false, false)
    case 57 => SampleRow("base1-49", "Drowzee", "Base", "Common", "Psychic", "Ken Sugimori", "https://images.pokemontcg.io/base1/49.png", false, false)
    case 58 => SampleRow("base1-52", "Growlithe", "Base", "Common", "Fire", "Ken Sugimori", "https://images.pokemontcg.io/base1/52.png", false, false)
    case _ => SampleRow("base1-55", "Nidoran M", "Base", "Common", "Grass", "Ken Sugimori", "https://images.pokemontcg.io/base1/55.png", false, false)
  }

  /** `MOCK_CARDS` */
  function MockCards(): (r: seq<Card>)
    ensures |r| == 60
  {
    seq(60, i requires 0 <= i < 60 => Sample(SampleRowAt(i)))
  }

  /** The sample cards carry the viewer's flags but no status. */
  lemma SampleCardsCarryNoStatus()
    ensures forall c | c in MockCards() :: c.status.None? && c.owned.Some? && c.liked.Some?
  {
    var cards := MockCards();
    forall c | c in cards ensures c.status.None? && c.owned.Some? && c.liked.Some? {
      var i :| 0 <= i < 60 && cards[i] == c;
      assert c == Sample(SampleRowAt(i));
    }
  }

  /** The ids of the sample cards. */
  function SampleIds(): set<string> {
    Ids(MockCards())
  }

  /** `MOCK_CARDS.some((m) => m.id === id)` */
  predicate IsSampleId(id: string) {
    id in SampleIds()
  }

  /** The value of one field across a card list, in list order (`cards.map((c) => c[key])`). */
  function FieldValues(cards: seq<Card>, key: FacetKey): (r: seq<string>)
    ensures |r| == |cards|
    ensures forall i | 0 <= i < |cards| :: r[i] == CardField(cards[i], key)
  {
    seq(|cards|, i requires 0 <= i < |cards| => CardField(cards[i], key))
  }

  /** `[...new Set(xs)]`: every value once, in the order in which it first occurs. */
  function Distinct<T(==)>(xs: seq<T>): seq<T>
    decreases |xs|
  {
    if xs == [] then []
    else
      var d := Distinct(xs[..|xs| - 1]);
      if xs[|xs| - 1] in d then d else d + [xs[|xs| - 1]]
  }

  /** The position at which a value first occurs. */
  function FirstIndex<T(==)>(xs: seq<T>, x: T): (k: nat)
    requires x in xs
    ensures k < |xs| && xs[k] == x && x !in xs[..k]
  {
    if xs[0] == x then 0
    else
      assert x in xs[1..] by { var j :| 0 <= j < |xs| && xs[j] == x; assert xs[1..][j - 1] == x; }
      var k := 1 + FirstIndex(xs[1..], x);
      assert xs[..k] == [xs[0]] + xs[1..][..k - 1];
      k
  }

  /** Extending a list does not move the first occurrence of a value it already held. */
  lemma FirstIndexPrefix<T>(init: seq<T>, y: T, x: T)
    requires x in init
    ensures FirstIndex(init + [y], x) == FirstIndex(init, x)
  {
    var xs := init + [y];
    var k, k' := FirstIndex(xs, x), FirstIndex(init, x);
    assert xs[..k'] == init[..k'];
    assert xs[k'] == x;
  }

  /** A value is in the distinct list exactly when it is in the input. */
  lemma {:induction false} DistinctMember<T>(xs: seq<T>, x: T)
    ensures x in Distinct(xs) <==> x in xs
    decreases |xs|
  {
    if xs != [] {
      assert xs == xs[..|xs| - 1] + [xs[|xs| - 1]];
      DistinctMember(xs[..|xs| - 1], x);
    }
  }

  /**
   * The distinct list has no repeated value, and lists the values in the order of their first
   * occurrence in the input.
   */
  lemma {:induction false} DistinctIsFirstOccurrences<T>(xs: seq<T>)
    ensures forall i, j | 0 <= i < j < |Distinct(xs)| :: Distinct(xs)[i] != Distinct(xs)[j]
    ensures forall x | x in Distinct(xs) :: x in xs
    ensures forall i, j | 0 <= i < j < |Distinct(xs)| ::
              FirstIndex(xs, Distinct(xs)[i]) < FirstIndex(xs, Distinct(xs)[j])
    decreases |xs|
  {
    forall x | x in Distinct(xs) ensures x in xs {
      DistinctMember(xs, x);
    }
    if xs != [] {
      var init, last := xs[..|xs| - 1], xs[|xs| - 1];
      assert xs == init + [last];
      DistinctIsFirstOccurrences(init);
      var d := Distinct(init);
      forall x | x in d ensures FirstIndex(xs, x) == FirstIndex(init, x) {
        DistinctMember(init, x);
        FirstIndexPrefix(init, last, x);
      }
      if last !in d {
        DistinctMember(init, last);
        assert FirstIndex(xs, last) == |xs| - 1;
      }
    }
  }

  /** The distinct values of one field across a card list, in first-occurrence order. */
  function FieldOptions(cards: seq<Card>, key: FacetKey): seq<string> {
    Distinct(FieldValues(cards, key))
  }

  /**
   * A field's option list holds every value of that field across the cards, once each, in the
   * order of first occurrence.
   */
  lemma FieldOptionsExact(cards: seq<Card>, key: FacetKey)
    ensures forall i, j | 0 <= i < j < |FieldOptions(cards, key)| ::
              FieldOptions(cards, key)[i] != FieldOptions(cards, key)[j]
    ensures forall v :: v in FieldOptions(cards, key) <==> exists c | c in cards :: CardField(c, key) == v
    ensures forall v | v in FieldOptions(cards, key) :: v in FieldValues(cards, key)
    ensures forall i, j | 0 <= i < j < |FieldOptions(cards, key)| ::
              FirstIndex(FieldValues(cards, key), FieldOptions(cards, key)[i])
              < FirstIndex(FieldValues(cards, key), FieldOptions(cards, key)[j])
  {
    var vs := FieldValues(cards, key);
    DistinctIsFirstOccurrences(vs);
    forall v ensures v in FieldOptions(cards, key) <==> exists c | c in cards :: CardField(c, key) == v {
      DistinctMember(vs, v);
      if v in vs {
        var i :| 0 <= i < |vs| && vs[i] == v;
        assert cards[i] in cards;
      }
      if exists c | c in cards :: CardField(c, key) == v {
        var c :| c in cards && CardField(c, key) == v;
        var i :| 0 <= i < |cards| && cards[i] == c;
        assert vs[i] == v;
      }
    }
  }

  /** `MOCK_RARITIES`, `MOCK_ARTISTS`, `MOCK_SETS`, `MOCK_TYPES` */
  function MockRarities(): seq<string> { FieldOptions(MockCards(), RarityKey) }
  function MockArtists(): seq<string> { FieldOptions(MockCards(), ArtistKey) }
  function MockSets(): seq<string> { FieldOptions(MockCards(), SetKey) }
  function MockTypes(): seq<string> { FieldOptions(MockCards(), TypeKey) }

  /** `createEmptySlots(count)`, with the slot ids that the random id generator would produce. */
  function CreateEmptySlots(count: nat, ids: seq<string>): (r: seq<Slot>)
    requires |ids| == count
    ensures |r| == count
    ensures forall i | 0 <= i < count :: r[i] == Slot(ids[i], None, i)
  {
    seq(count, i requires 0 <= i < count => Slot(ids[i], None, i))
  }

  /** `DEFAULT_BINDERS`; the eight ids of the two generated pages' slots are a parameter. */
  function DefaultBinders(freshIds: seq<string>): seq<Binder>
    requires |freshIds| == 8
  {
    [Binder("binder-1", "Main Binder", Red, [
      BinderPage("page-1", [
        Slot("s1-0", Some("base1-4"), 0),
        Slot("s1-1", Some("base1-2"), 1),
        Slot("s1-2", Some("base1-15"), 2),
        Slot("s1-3", Some("base1-58"), 3)]),
      BinderPage("page-2", [
        Slot("s2-0", Some("base1-6"), 0),
        Slot("s2-1", None, 1),
        Slot("s2-2", Some("fossil-2"), 2),
        Slot("s2-3", None, 3)]),
      BinderPage("page-3", CreateEmptySlots(4, freshIds[..4])),
      BinderPage("page-4", CreateEmptySlots(4, freshIds[4..]))])]
  }

  /** One binder of four pages, each holding four slots at positions 0 to 3; the first page is full and the last two are empty. */
  lemma DefaultBindersShape(freshIds: seq<string>)
    requires |freshIds| == 8
    ensures |DefaultBinders(freshIds)| == 1
    ensures |DefaultBinders(freshIds)[0].pages| == 4
    ensures forall p | p in DefaultBinders(freshIds)[0].pages ::
              |p.slots| == 4 && forall i | 0 <= i < 4 :: p.slots[i].position == i
    ensures forall j, k | 2 <= j < 4 && 0 <= k < 4 :: DefaultBinders(freshIds)[0].pages[j].slots[k].cardId == None
    ensures forall k | 0 <= k < 4 :: DefaultBinders(freshIds)[0].pages[0].slots[k].cardId.Some?
  {
  }
}
