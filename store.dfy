/**
 * The persisted application store: the viewer's per-card `{owned, liked}` record and the binder
 * list. Every action builds a new state from the old one, so each is a State -> State function.
 */
module Store {
  import opened Types
  import opened Seqs
  import MockData

  /** The record the store keeps per card id. */
  datatype CardState = CardState(owned: bool, liked: bool)

  datatype State = State(cardStates: map<string, CardState>, binders: seq<Binder>)

  /** The record built from one sample card's flags (every sample card carries both). */
  function StateOf(c: Card): CardState
  {
    CardState(c.owned.GetOr(false), c.liked.GetOr(false))
  }

  /** The loop that fills the initial record table: one assignment per card, in list order. */
  function CardStatesFrom(cards: seq<Card>): map<string, CardState>
    decreases |cards|
  {
    if cards == [] then map[]
    else
      var last := cards[|cards| - 1];
      CardStatesFrom(cards[..|cards| - 1])[last.id := StateOf(last)]
  }

  /**
   * The table has an entry for exactly the ids of the list, and each id maps to the flags of the
   * last card carrying it.
   */
  lemma {:induction false} CardStatesFromLastWins(cards: seq<Card>, id: string)
    ensures id in CardStatesFrom(cards) <==> LastIndexOf(cards, id) >= 0
    ensures LastIndexOf(cards, id) >= 0 ==> CardStatesFrom(cards)[id] == StateOf(cards[LastIndexOf(cards, id)])
    decreases |cards|
  {
    if cards != [] {
      CardStatesFromLastWins(cards[..|cards| - 1], id);
    }
  }

  /** `initialCardStates`: the sample cards' own flags. */
  function InitialCardStates(): map<string, CardState>
  {
    CardStatesFrom(MockData.MockCards())
  }

  /** `cardStates[cardId] ?? { owned: false, liked: false }` */
  function Existing(s: State, cardId: string): (r: CardState)
    ensures cardId in s.cardStates ==> r == s.cardStates[cardId]
    ensures cardId !in s.cardStates ==> r == CardState(false, false)
  {
    if cardId in s.cardStates then s.cardStates[cardId] else CardState(false, false)
  }

  /** `isOwned`: the record's `owned` flag, false for an id with no record. */
  function IsOwned(s: State, cardId: string): (r: bool)
    ensures cardId !in s.cardStates ==> !r
  {
    Existing(s, cardId).owned
  }

  /** `isLiked`: the record's `liked` flag, false for an id with no record. */
  function IsLiked(s: State, cardId: string): (r: bool)
    ensures cardId !in s.cardStates ==> !r
  {
    Existing(s, cardId).liked
  }

  /** `toggleOwned`: flips one card's `owned` flag and nothing else. */
  function ToggleOwned(s: State, cardId: string): (r: State)
    ensures r.binders == s.binders
    ensures r.cardStates.Keys == s.cardStates.Keys + {cardId}
    ensures IsOwned(r, cardId) == !IsOwned(s, cardId)
    ensures IsLiked(r, cardId) == IsLiked(s, cardId)
    ensures forall id | id in s.cardStates && id != cardId :: r.cardStates[id] == s.cardStates[id]
  {
    var existing := Existing(s, cardId);
    s.(cardStates := s.cardStates[cardId := existing.(owned := !existing.owned)])
  }

  /** `toggleLiked`: flips one card's `liked` flag and nothing else. */
  function ToggleLiked(s: State, cardId: string): (r: State)
    ensures r.binders == s.binders
    ensures r.cardStates.Keys == s.cardStates.Keys + {cardId}
    ensures IsLiked(r, cardId) == !IsLiked(s, cardId)
    ensures IsOwned(r, cardId) == IsOwned(s, cardId)
    ensures forall id | id in s.cardStates && id != cardId :: r.cardStates[id] == s.cardStates[id]
  {
    var existing := Existing(s, cardId);
    s.(cardStates := s.cardStates[cardId := existing.(liked := !existing.liked)])
  }

  /** Toggling the same flag twice on a card that has a record gives back the state exactly. */
  lemma ToggleTwiceRestores(s: State, cardId: string)
    requires cardId in s.cardStates
    ensures ToggleOwned(ToggleOwned(s, cardId), cardId) == s
    ensures ToggleLiked(ToggleLiked(s, cardId), cardId) == s
  {
    var t := ToggleOwned(ToggleOwned(s, cardId), cardId);
    assert t.cardStates == s.cardStates;
    var u := ToggleLiked(ToggleLiked(s, cardId), cardId);
    assert u.cardStates == s.cardStates;
  }

  /** The slot list with the slot whose id matches given `cardId`. */
  function UpdateSlots(slots: seq<Slot>, slotId: string, cardId: Option<string>): (r: seq<Slot>)
    ensures |r| == |slots|
    ensures forall k | 0 <= k < |slots| ::
              r[k] == if slots[k].id == slotId then slots[k].(cardId := cardId) else slots[k]
  {
    seq(|slots|, k requires 0 <= k < |slots| =>
      if slots[k].id == slotId then slots[k].(cardId := cardId) else slots[k])
  }

  function UpdatePages(pages: seq<BinderPage>, pageId: string, slotId: string, cardId: Option<string>): (r: seq<BinderPage>)
    ensures |r| == |pages|
    ensures forall j | 0 <= j < |pages| ::
              r[j] == if pages[j].id == pageId then pages[j].(slots := UpdateSlots(pages[j].slots, slotId, cardId)) else pages[j]
  {
    seq(|pages|, j requires 0 <= j < |pages| =>
      if pages[j].id == pageId then pages[j].(slots := UpdateSlots(pages[j].slots, slotId, cardId)) else pages[j])
  }

  /** The slot reached by indices `i`, `j`, `k`, when they are in range. */
  predicate HasSlot(binders: seq<Binder>, i: int, j: int, k: int) {
    0 <= i < |binders| && 0 <= j < |binders[i].pages| && 0 <= k < |binders[i].pages[j].slots|
  }

  /**
   * `updateBinderPages`: only the `cardId` of the slots matching all three ids changes; every
   * binder, page and slot keeps its place, its ids and its other fields, and every list its length.
   */
  function UpdateBinderPages(binders: seq<Binder>, binderId: string, pageId: string, slotId: string,
                             cardId: Option<string>): (r: seq<Binder>)
    ensures |r| == |binders|
    ensures forall i | 0 <= i < |binders| ::
              r[i].id == binders[i].id && r[i].name == binders[i].name && r[i].color == binders[i].color
              && |r[i].pages| == |binders[i].pages|
    ensures forall i, j | 0 <= i < |binders| && 0 <= j < |binders[i].pages| ::
              r[i].pages[j].id == binders[i].pages[j].id && |r[i].pages[j].slots| == |binders[i].pages[j].slots|
    ensures forall i, j, k | HasSlot(binders, i, j, k) ::
              var old_ := binders[i].pages[j].slots[k];
              r[i].pages[j].slots[k] ==
                if binders[i].id == binderId && binders[i].pages[j].id == pageId && old_.id == slotId
                then old_.(cardId := cardId) else old_
  {
    seq(|binders|, i requires 0 <= i < |binders| =>
      if binders[i].id != binderId then binders[i]
      else binders[i].(pages := UpdatePages(binders[i].pages, pageId, slotId, cardId)))
  }

  /** Applying the same slot update twice is the same as applying it once. */
  lemma UpdateBinderPagesIdempotent(binders: seq<Binder>, binderId: string, pageId: string, slotId: string,
                                    cardId: Option<string>)
    ensures var once := UpdateBinderPages(binders, binderId, pageId, slotId, cardId);
            UpdateBinderPages(once, binderId, pageId, slotId, cardId) == once
  {
    var once := UpdateBinderPages(binders, binderId, pageId, slotId, cardId);
    var twice := UpdateBinderPages(once, binderId, pageId, slotId, cardId);
    forall i | 0 <= i < |once| ensures twice[i] == once[i] {
      forall j | 0 <= j < |once[i].pages| ensures twice[i].pages[j] == once[i].pages[j] {
        assert twice[i].pages[j].slots == once[i].pages[j].slots;
      }
      assert twice[i].pages == once[i].pages;
    }
  }

  /** `setSlotCard` */
  function SetSlotCard(s: State, binderId: string, pageId: string, slotId: string, cardId: Option<string>): (r: State)
    ensures r.cardStates == s.cardStates
    ensures r.binders == UpdateBinderPages(s.binders, binderId, pageId, slotId, cardId)
  {
    s.(binders := UpdateBinderPages(s.binders, binderId, pageId, slotId, cardId))
  }

  /** `clearSlot`: the matching slot is left empty, and nothing else changes. */
  function ClearSlot(s: State, binderId: string, pageId: string, slotId: string): (r: State)
    ensures r.cardStates == s.cardStates
    ensures forall i, j, k | HasSlot(s.binders, i, j, k) :: HasSlot(r.binders, i, j, k)
    ensures forall i, j, k | HasSlot(s.binders, i, j, k) && HasSlot(r.binders, i, j, k) && s.binders[i].id == binderId
              && s.binders[i].pages[j].id == pageId && s.binders[i].pages[j].slots[k].id == slotId ::
              r.binders[i].pages[j].slots[k].cardId == None
  {
    s.(binders := UpdateBinderPages(s.binders, binderId, pageId, slotId, None))
  }

  /** Clearing a slot is setting it to no card. */
  lemma ClearSlotIsSetNone(s: State, binderId: string, pageId: string, slotId: string)
    ensures ClearSlot(s, binderId, pageId, slotId) == SetSlotCard(s, binderId, pageId, slotId, None)
  {
  }

  /** A page of four empty slots at positions 0 to 3; the ids stand for freshly generated ones. */
  function EmptyPage(pageId: string, slotIds: seq<string>): (p: BinderPage)
    requires |slotIds| == 4
    ensures p.id == pageId && |p.slots| == 4
    ensures forall k | 0 <= k < 4 :: p.slots[k].position == k && p.slots[k].cardId == None && p.slots[k].id == slotIds[k]
  {
    BinderPage(pageId, MockData.CreateEmptySlots(4, slotIds))
  }

  /** `addBinder`: exactly one new binder at the end, holding one empty page. */
  function AddBinder(s: State, name: string, color: BinderColor, binderId: string, pageId: string,
                     slotIds: seq<string>): (r: State)
    requires |slotIds| == 4
    ensures r.cardStates == s.cardStates
    ensures |r.binders| == |s.binders| + 1 && r.binders[..|s.binders|] == s.binders
    ensures var b := r.binders[|s.binders|];
            b.id == binderId && b.name == name && b.color == color && |b.pages| == 1
            && |b.pages[0].slots| == 4
            && forall k | 0 <= k < 4 :: b.pages[0].slots[k].position == k && b.pages[0].slots[k].cardId == None
  {
    s.(binders := s.binders + [Binder(binderId, name, color, [EmptyPage(pageId, slotIds)])])
  }

  /** `deleteBinder`: the binders with that id go; the rest stay, in their order. */
  function DeleteBinder(s: State, binderId: string): (r: State)
    ensures r.cardStates == s.cardStates
    ensures forall b | b in r.binders :: b.id != binderId
    ensures forall b | b in s.binders && b.id != binderId :: b in r.binders
    ensures IsSubsequence(r.binders, s.binders)
  {
    var keep := (b: Binder) => b.id != binderId;
    FilterIsSubsequence(s.binders, keep);
    s.(binders := Filter(s.binders, keep))
  }

  /** Deleting a binder removes every copy with that id and keeps every other binder as often as it occurred. */
  lemma DeleteBinderKeepsOthers(s: State, binderId: string)
    ensures forall b :: multiset(DeleteBinder(s, binderId).binders)[b] == if b.id != binderId then multiset(s.binders)[b] else 0
  {
    FilterMultiplicity(s.binders, (b: Binder) => b.id != binderId);
  }

  /** `addPage`: the matching binders get one more empty page at the end; every other binder is unchanged. */
  function AddPage(s: State, binderId: string, pageId: string, slotIds: seq<string>): (r: State)
    requires |slotIds| == 4
    ensures r.cardStates == s.cardStates
    ensures |r.binders| == |s.binders|
    ensures forall i | 0 <= i < |s.binders| && s.binders[i].id != binderId :: r.binders[i] == s.binders[i]
    ensures forall i | 0 <= i < |s.binders| && s.binders[i].id == binderId ::
              r.binders[i].(pages := s.binders[i].pages) == s.binders[i]
              && r.binders[i].pages == s.binders[i].pages + [EmptyPage(pageId, slotIds)]
  {
    s.(binders := seq(|s.binders|, i requires 0 <= i < |s.binders| =>
      if s.binders[i].id != binderId then s.binders[i]
      else s.binders[i].(pages := s.binders[i].pages + [EmptyPage(pageId, slotIds)])))
  }
}
