/**
 * The all-filters sheet: a draft copy of the filters that the viewer edits option by option,
 * clears, and finally applies.
 */
module AllFiltersModal {
  import opened Types
  import opened Seqs

  /** The sheet's state: whether it is open and the draft being edited. */
  datatype Modal = Modal(open: bool, draft: CardFilters)

  /** The draft starts as the filters the sheet is given. */
  function Init(filters: CardFilters): (m: Modal)
    ensures m.draft == filters && !m.open
  {
    Modal(false, filters)
  }

  /** The sync effect: whenever the sheet is open it copies the incoming filters into the draft. */
  function Sync(m: Modal, open: bool, filters: CardFilters): (r: Modal)
    ensures r.open == open
    ensures open ==> r.draft == filters
    ensures !open ==> r.draft == m.draft
  {
    if open then Modal(open, filters) else m.(open := open)
  }

  /** `totalDraft`: the number of selected values across the four facets. */
  function TotalDraft(m: Modal): (r: nat)
    ensures r == |m.draft.Get(RarityKey)| + |m.draft.Get(ArtistKey)| + |m.draft.Get(SetKey)| + |m.draft.Get(TypeKey)|
  {
    m.draft.ActiveCount()
  }

  /** `toggleOption`: flips one value's membership in one facet of the draft. */
  function ToggleOption(m: Modal, key: FacetKey, value: string): (r: Modal)
    ensures r.open == m.open
    ensures value in r.draft.Get(key) <==> value !in m.draft.Get(key)
    ensures forall v | v != value :: v in r.draft.Get(key) <==> v in m.draft.Get(key)
    ensures forall k | k != key :: r.draft.Get(k) == m.draft.Get(k)
  {
    m.(draft := m.draft.With(key, Toggle(m.draft.Get(key), value)))
  }

  /** Selecting an unselected option and unselecting it again gives back the draft exactly. */
  lemma ToggleOptionTwiceRestores(m: Modal, key: FacetKey, value: string)
    requires value !in m.draft.Get(key)
    ensures ToggleOption(ToggleOption(m, key, value), key, value) == m
  {
    ToggleTwiceRestores(m.draft.Get(key), value);
    var r := ToggleOption(ToggleOption(m, key, value), key, value).draft;
    assert forall k :: r.Get(k) == m.draft.Get(k);
    assert r.rarity == r.Get(RarityKey) && r.artist == r.Get(ArtistKey) && r.sets == r.Get(SetKey) && r.types == r.Get(TypeKey);
  }

  /** `clearAll`: an empty draft, still open. */
  function ClearAll(m: Modal): (r: Modal)
    ensures r.open == m.open && TotalDraft(r) == 0
  {
    m.(draft := EMPTY_FILTERS)
  }

  /** `handleApply`: the draft is handed on unchanged and the sheet closes. */
  function HandleApply(m: Modal): (r: (CardFilters, Modal))
    ensures r.0 == m.draft
    ensures !r.1.open && r.1.draft == m.draft
  {
    (m.draft, m.(open := false))
  }

  /** Opening the sheet and applying at once hands back the incoming filters unchanged. */
  lemma OpenThenApplyIsIdentity(m: Modal, filters: CardFilters)
    ensures HandleApply(Sync(m, true, filters)).0 == filters
  {
  }
}
