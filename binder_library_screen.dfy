/**
 * The binder library: each binder's cover colour classes, its count of filled slots, and the
 * create-binder form.
 */
module BinderLibraryScreen {
  import opened Types
  import Text
  import Store

  /** A colour's cover classes. */
  datatype ColorClasses = ColorClasses(value: BinderColor, bg: string, ring: string)

  const BINDER_COLORS: seq<ColorClasses> := [
    ColorClasses(Red, "bg-red-500", "ring-red-500"),
    ColorClasses(Blue, "bg-blue-500", "ring-blue-500"),
    ColorClasses(Green, "bg-green-500", "ring-green-500"),
    ColorClasses(Purple, "bg-violet-500", "ring-violet-500"),
    ColorClasses(Orange, "bg-orange-500", "ring-orange-500"),
    ColorClasses(Black, "bg-neutral-800", "ring-neutral-800")
  ]

  /** `find`: the first entry of the list for the colour, if any. */
  function FindColor(entries: seq<ColorClasses>, color: BinderColor): (r: Option<ColorClasses>)
    ensures r.None? <==> forall i | 0 <= i < |entries| :: entries[i].value != color
    ensures r.Some? ==> exists i | 0 <= i < |entries| :: entries[i] == r.value
                          && r.value.value == color && forall j | 0 <= j < i :: entries[j].value != color
  {
    if entries == [] then None
    else if entries[0].value == color then Some(entries[0])
    else
      var rest := FindColor(entries[1..], color);
      if rest.Some? then
        var i :| 0 <= i < |entries[1..]| && entries[1..][i] == rest.value
                 && rest.value.value == color && forall j | 0 <= j < i :: entries[1..][j].value != color;
        assert entries[i + 1] == rest.value;
        Some(rest.value)
      else None
  }

  /** `getBinderColorClasses`: the colour's entry, falling back to the first (red) one. */
  function GetBinderColorClasses(color: BinderColor): (r: ColorClasses)
    ensures r in BINDER_COLORS
  {
    FindColor(BINDER_COLORS, color).GetOr(BINDER_COLORS[0])
  }

  /** Every colour has an entry, so the fallback is never taken and the classes are the colour's own. */
  lemma ColorClassesMatchTheColor(color: BinderColor)
    ensures FindColor(BINDER_COLORS, color).Some?
    ensures GetBinderColorClasses(color).value == color
  {
    var i := match color
      case Red => 0 case Blue => 1 case Green => 2 case Purple => 3 case Orange => 4 case Black => 5;
    assert BINDER_COLORS[i].value == color;
  }

  /** A slot counts as filled when its card id is present and non-empty. */
  predicate IsFilled(s: Slot) {
    s.cardId.Some? && s.cardId.value != ""
  }

  function FilledInSlots(slots: seq<Slot>): (r: nat)
    ensures r <= |slots|
    decreases |slots|
  {
    if slots == [] then 0
    else FilledInSlots(slots[..|slots| - 1]) + (if IsFilled(slots[|slots| - 1]) then 1 else 0)
  }

  /** `filledSlots`: the filled slots summed over the pages. */
  function FilledSlots(pages: seq<BinderPage>): nat
    decreases |pages|
  {
    if pages == [] then 0
    else FilledSlots(pages[..|pages| - 1]) + FilledInSlots(pages[|pages| - 1].slots)
  }

  function TotalSlots(pages: seq<BinderPage>): nat
    decreases |pages|
  {
    if pages == [] then 0
    else TotalSlots(pages[..|pages| - 1]) + |pages[|pages| - 1].slots|
  }

  /** A binder never has more filled slots than slots. */
  lemma {:induction false} FilledAtMostTotal(pages: seq<BinderPage>)
    ensures FilledSlots(pages) <= TotalSlots(pages)
    decreases |pages|
  {
    if pages != [] {
      FilledAtMostTotal(pages[..|pages| - 1]);
    }
  }

  /** A slot list with no card in any slot has nothing filled. */
  lemma {:induction false} EmptySlotsAreUnfilled(slots: seq<Slot>)
    requires forall k | 0 <= k < |slots| :: slots[k].cardId.None?
    ensures FilledInSlots(slots) == 0
    decreases |slots|
  {
    if slots != [] {
      EmptySlotsAreUnfilled(slots[..|slots| - 1]);
    }
  }

  /** The create form: the typed name, the picked colour, and whether the dialog is shown. */
  datatype CreateForm = CreateForm(name: string, color: BinderColor, open: bool)

  const INITIAL_FORM := CreateForm("", Blue, false)

  /** The name a new binder gets: the trimmed text, or "Untitled Binder" when it is blank. */
  function BinderName(typed: string): (r: string)
    ensures Text.Trim(typed) != "" ==> r == Text.Trim(typed)
    ensures Text.Trim(typed) == "" ==> r == "Untitled Binder"
    ensures r != ""
  {
    var trimmed := Text.Trim(typed);
    if trimmed != "" then trimmed else "Untitled Binder"
  }

  /**
   * `handleCreate`: adds the binder under the form's name and colour (the fresh ids are given),
   * then resets the form to an empty name, blue, closed.
   */
  function HandleCreate(s: Store.State, form: CreateForm, binderId: string, pageId: string,
                        slotIds: seq<string>): (r: (Store.State, CreateForm))
    requires |slotIds| == 4
    ensures r.1 == INITIAL_FORM
    ensures r.0.cardStates == s.cardStates
    ensures |r.0.binders| == |s.binders| + 1 && r.0.binders[..|s.binders|] == s.binders
    ensures var b := r.0.binders[|s.binders|];
            b.id == binderId && b.name == BinderName(form.name) && b.color == form.color
            && |b.pages| == 1 && FilledSlots(b.pages) == 0 && TotalSlots(b.pages) == 4
  {
    var next := Store.AddBinder(s, BinderName(form.name), form.color, binderId, pageId, slotIds);
    var b := next.binders[|s.binders|];
    EmptySlotsAreUnfilled(b.pages[0].slots);
    assert b.pages[..0] == [];
    (next, INITIAL_FORM)
  }
}
