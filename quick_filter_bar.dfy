/**
 * The search bar's quick chips: the fixed chip list, the active-filter count, and the chip,
 * meta-filter and clear-all actions, each producing what it hands to the parent's handler.
 */
module QuickFilterBar {
  import opened Types
  import opened Seqs

  /** A chip toggles one value in one facet. */
  datatype QuickChip = QuickChip(id: string, caption: string, key: FacetKey, value: string)

  const QUICK_CHIPS: seq<QuickChip> := [
    QuickChip("holo", "Holo", RarityKey, "Rare Holo"),
    QuickChip("base", "Base Set", SetKey, "Base"),
    QuickChip("fossil", "Fossil", SetKey, "Fossil"),
    QuickChip("arita", "Mitsuhiro Arita", ArtistKey, "Mitsuhiro Arita"),
    QuickChip("himeno", "Kagemaru Himeno", ArtistKey, "Kagemaru Himeno")
  ]

  /** `totalActive`: every selected facet value plus every meta-filter (an absent meta list is empty). */
  function TotalActive(filters: CardFilters, metas: seq<MetaFilter>): (r: nat)
    ensures r == |filters.Get(RarityKey)| + |filters.Get(ArtistKey)| + |filters.Get(SetKey)| + |filters.Get(TypeKey)| + |metas|
  {
    filters.ActiveCount() + |metas|
  }

  predicate IsChipActive(filters: CardFilters, chip: QuickChip) {
    chip.value in filters.Get(chip.key)
  }

  /** `toggleChip`: the filters handed on, with the chip's value removed from or appended to its facet. */
  function ToggleChip(filters: CardFilters, chip: QuickChip): (r: CardFilters)
    ensures IsChipActive(r, chip) <==> !IsChipActive(filters, chip)
    ensures forall k | k != chip.key :: r.Get(k) == filters.Get(k)
    ensures forall v | v != chip.value :: v in r.Get(chip.key) <==> v in filters.Get(chip.key)
  {
    filters.With(chip.key, Toggle(filters.Get(chip.key), chip.value))
  }

  /** Toggling an inactive chip on and then off gives back the very same filters. */
  lemma ToggleChipTwiceRestores(filters: CardFilters, chip: QuickChip)
    requires !IsChipActive(filters, chip)
    ensures ToggleChip(ToggleChip(filters, chip), chip) == filters
  {
    var arr := filters.Get(chip.key);
    ToggleTwiceRestores(arr, chip.value);
    var r := ToggleChip(ToggleChip(filters, chip), chip);
    assert r.Get(chip.key) == arr;
    assert forall k :: r.Get(k) == filters.Get(k);
    assert r.rarity == r.Get(RarityKey) && r.artist == r.Get(ArtistKey) && r.sets == r.Get(SetKey) && r.types == r.Get(TypeKey);
  }

  /** `toggleMeta`: nothing happens without a meta handler; otherwise the list with `m` flipped is handed on. */
  function ToggleMeta(metas: seq<MetaFilter>, hasHandler: bool, m: MetaFilter): (r: Option<seq<MetaFilter>>)
    ensures r.None? <==> !hasHandler
    ensures r.Some? ==> (m in r.value <==> m !in metas)
    ensures r.Some? ==> forall x | x != m :: x in r.value <==> x in metas
  {
    if !hasHandler then None else Some(Toggle(metas, m))
  }

  /** `clearAll`: four empty facets, and an empty meta list when there is a meta handler. */
  function ClearAll(hasHandler: bool): (r: (CardFilters, Option<seq<MetaFilter>>))
    ensures r.0.ActiveCount() == 0
    ensures hasHandler ==> r.1 == Some([])
    ensures !hasHandler ==> r.1.None?
  {
    (EMPTY_FILTERS, if hasHandler then Some([]) else None)
  }

  /** After clearing with a meta handler, nothing is active. */
  lemma ClearAllLeavesNothingActive()
    ensures TotalActive(ClearAll(true).0, ClearAll(true).1.value) == 0
  {
  }

  /** Switching an inactive chip on raises the count by exactly one. */
  lemma ToggleOnCountsOne(filters: CardFilters, metas: seq<MetaFilter>, chip: QuickChip)
    requires !IsChipActive(filters, chip)
    ensures TotalActive(ToggleChip(filters, chip), metas) == TotalActive(filters, metas) + 1
  {
    var r := ToggleChip(filters, chip);
    assert r.Get(chip.key) == filters.Get(chip.key) + [chip.value];
    match chip.key
    case RarityKey =>
    case ArtistKey =>
    case SetKey =>
    case TypeKey =>
  }
}
