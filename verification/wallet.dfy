/**
  The wallet view's event handlers, lifted out of their DOM callbacks as
  transitions on the view's state: the card list and the id of the card whose
  details are open (`null` when none). Ids that the source draws from the
  clock or from `Math.random()` are parameters. The handlers that save
  (add card, save notes, delete card, add benefit, and the Remove and usage
  controls) persist the whole list, which is the `cards` of the state they
  return; opening and closing the details view save nothing.
 */
module Wallet {
  import opened Wrappers
  import opened Text
  import opened Cards
  import opened Catalog

  datatype State = State(cards: seq<Card>, currentCardId: Option<string>)

  /** `if (!currentCardId) return`: `null` and the empty string both mean no card is open. */
  function HasOpenCard(s: State): (r: bool)
    ensures !r <==> s.currentCardId == None || s.currentCardId == Some("")
  {
    s.currentCardId.Some? && s.currentCardId.value != ""
  }

  /** The card a handler guarded by `!currentCardId` edits: the first card with the open id. */
  function OpenIndex(s: State): (r: Option<nat>)
    ensures r.Some? ==> HasOpenCard(s) && r.value < |s.cards| && s.cards[r.value].id == s.currentCardId.value
    ensures r.Some? ==> forall j :: 0 <= j < r.value ==> s.cards[j].id != s.currentCardId.value
    ensures r.None? <==> !HasOpenCard(s) || forall j :: 0 <= j < |s.cards| ==> s.cards[j].id != s.currentCardId.value
  {
    if HasOpenCard(s) then FirstIndex(s.cards, s.currentCardId.value) else None
  }

  /** The card whose benefits `openDetails` rendered: the first card with the open id, with no truthiness test. */
  function ShownIndex(s: State): (r: Option<nat>)
    ensures r.Some? ==> s.currentCardId.Some? && r.value < |s.cards| && s.cards[r.value].id == s.currentCardId.value
    ensures r.Some? ==> forall j :: 0 <= j < r.value ==> s.cards[j].id != s.currentCardId.value
    ensures r.None? <==> s.currentCardId.None? || forall j :: 0 <= j < |s.cards| ==> s.cards[j].id != s.currentCardId.value
  {
    match s.currentCardId
    case None => None
    case Some(id) => FirstIndex(s.cards, id)
  }

  /**
    `handleAddCard`: refuses an empty bank code or card name; otherwise appends
    one card labelled with the bank's display name and carrying copies of the
    catalog's default benefits for that exact (bank code, card name) pair.
   */
  function AddCard(
    s: State, catalog: BenefitCatalog, newId: string, newBenefitIds: IdSource,
    bankCode: string, cardName: string, last4Input: string, cardType: string): (r: State)
    ensures bankCode == "" || cardName == "" ==> r == s
    ensures bankCode != "" && cardName != "" ==>
      && |r.cards| == |s.cards| + 1
      && r.cards[..|s.cards|] == s.cards
      && r.currentCardId == s.currentCardId
      && var c := r.cards[|s.cards|];
         && c.id == newId
         && c.name == cardName
         && c.bank == BankLabel(bankCode)
         && c.last4 == Trim(last4Input)
         && c.cardType == cardType
         && c.notes == ""
         && c.benefits == Array(DefaultBenefits(catalog, bankCode, cardName, newBenefitIds))
  {
    if bankCode == "" || cardName == "" then s
    else
      var card := Card(newId, cardName, BankLabel(bankCode), Trim(last4Input), cardType, "",
                       Array(DefaultBenefits(catalog, bankCode, cardName, newBenefitIds)));
      s.(cards := s.cards + [card])
  }

  /** `openDetails`, state part: the id is recorded even when no card has it. */
  function OpenDetails(s: State, cardId: string): (r: State)
    ensures r.cards == s.cards && r.currentCardId == Some(cardId)
    ensures ShownIndex(r) == FirstIndex(s.cards, cardId)
  {
    s.(currentCardId := Some(cardId))
  }

  /** `closeDetails`, state part: no card is open afterwards and the list is untouched. */
  function CloseDetails(s: State): (r: State)
    ensures r.cards == s.cards && r.currentCardId == None && !HasOpenCard(r)
  {
    s.(currentCardId := None)
  }

  /** `handleSaveDetails`: overwrites the notes of the open card and nothing else. */
  function SaveDetails(s: State, notesInput: string): (r: State)
    ensures OpenIndex(s).None? ==> r == s
    ensures OpenIndex(s).Some? ==>
      var k := OpenIndex(s).value;
      && r.currentCardId == s.currentCardId
      && |r.cards| == |s.cards|
      && r.cards[k].notes == notesInput
      && r.cards[k].(notes := s.cards[k].notes) == s.cards[k]
      && forall j :: 0 <= j < |s.cards| && j != k ==> r.cards[j] == s.cards[j]
  {
    match OpenIndex(s)
    case None => s
    case Some(k) => s.(cards := s.cards[k := s.cards[k].(notes := notesInput)])
  }

  /**
    `handleDeleteCard`: with a card open, drops every card carrying the open id,
    keeps the rest, and closes the details view.
   */
  function DeleteCard(s: State): (r: State)
    ensures !HasOpenCard(s) ==> r == s
    ensures HasOpenCard(s) ==>
      && r.currentCardId == None
      && r.cards == RemoveById(s.cards, s.currentCardId.value)
  {
    if !HasOpenCard(s) then s
    else CloseDetails(s.(cards := RemoveById(s.cards, s.currentCardId.value)))
  }

  /**
    `handleAddBenefit`: with a card open and found and a name that is not blank,
    appends one benefit (trimmed name) to that card, turning a non-array
    `benefits` into a list first; any failed guard leaves the state as it was.
   */
  function AddBenefit(s: State, newId: string, nameInput: string, period: string, limit: int, used: int): (r: State)
    ensures OpenIndex(s).None? || IsBlank(nameInput) ==> r == s
    ensures OpenIndex(s).Some? && !IsBlank(nameInput) ==>
      var k := OpenIndex(s).value;
      var before := Items(s.cards[k].benefits);
      && r.currentCardId == s.currentCardId
      && |r.cards| == |s.cards|
      && r.cards[k].benefits == Array(before + [Benefit(newId, Trim(nameInput), period, limit, used)])
      && r.cards[k].(benefits := s.cards[k].benefits) == s.cards[k]
      && forall j :: 0 <= j < |s.cards| && j != k ==> r.cards[j] == s.cards[j]
  {
    TrimEmptyIffBlank(nameInput);
    match OpenIndex(s)
    case None => s
    case Some(k) =>
      var name := Trim(nameInput);
      if name == "" then s
      else s.(cards := s.cards[k := AddBenefitTo(s.cards[k], Benefit(newId, name, period, limit, used))])
  }

  /** A benefit row's Remove button: splices out exactly the benefit at `index` of the shown card. */
  function RemoveBenefit(s: State, index: nat): (r: State)
    ensures ShownIndex(s).None? ==> r == s
    ensures ShownIndex(s).Some? ==>
      var k := ShownIndex(s).value;
      && r.currentCardId == s.currentCardId
      && |r.cards| == |s.cards|
      && r.cards[k] == RemoveBenefitFrom(s.cards[k], index)
      && forall j :: 0 <= j < |s.cards| && j != k ==> r.cards[j] == s.cards[j]
  {
    match ShownIndex(s)
    case None => s
    case Some(k) => s.(cards := s.cards[k := RemoveBenefitFrom(s.cards[k], index)])
  }

  /** A benefit row's usage input: overwrites only `used` of the benefit at `index` of the shown card. */
  function SetUsed(s: State, index: nat, used: int): (r: State)
    ensures ShownIndex(s).None? ==> r == s
    ensures ShownIndex(s).Some? ==>
      var k := ShownIndex(s).value;
      && r.currentCardId == s.currentCardId
      && |r.cards| == |s.cards|
      && r.cards[k] == SetUsedOn(s.cards[k], index, used)
      && forall j :: 0 <= j < |s.cards| && j != k ==> r.cards[j] == s.cards[j]
  {
    match ShownIndex(s)
    case None => s
    case Some(k) => s.(cards := s.cards[k := SetUsedOn(s.cards[k], index, used)])
  }

  /** Deleting the card just opened leaves no card with its id and returns to the list view. */
  lemma OpenThenDeleteRemovesCard(s: State, cardId: string)
    requires cardId != ""
    ensures var r := DeleteCard(OpenDetails(s, cardId));
      && !HasOpenCard(r)
      && (forall j :: 0 <= j < |r.cards| ==> r.cards[j].id != cardId)
      && (forall c :: c in s.cards && c.id != cardId ==> c in r.cards)
  {
  }

  /** Adding a benefit to the open card and removing it again by its index restores the list. */
  lemma AddThenRemoveBenefitRestores(s: State, newId: string, nameInput: string, period: string, limit: int, used: int)
    requires OpenIndex(s).Some? && !IsBlank(nameInput)
    requires s.cards[OpenIndex(s).value].benefits.Array?
    ensures var k := OpenIndex(s).value;
      RemoveBenefit(AddBenefit(s, newId, nameInput, period, limit, used), |s.cards[k].benefits.items|) == s
  {
    var k := OpenIndex(s).value;
    var a := AddBenefit(s, newId, nameInput, period, limit, used);
    assert ShownIndex(a) == Some(k);
    AddThenRemoveRestores(s.cards[k], Benefit(newId, Trim(nameInput), period, limit, used));
    assert a.cards[k] == AddBenefitTo(s.cards[k], Benefit(newId, Trim(nameInput), period, limit, used));
    assert a.cards[k := s.cards[k]] == s.cards;
  }

  /**
    Adding a card, opening it and deleting it removes the new card together
    with any older card sharing its id; when the id is new to the list, the
    original list comes back (`RemoveByIdUnchangedIff`).
   */
  lemma {:induction false} AddOpenDeleteRestores(s: State, catalog: BenefitCatalog, newId: string, newBenefitIds: IdSource, bankCode: string, cardName: string, last4Input: string, cardType: string)
    requires newId != "" && bankCode != "" && cardName != ""
    ensures DeleteCard(OpenDetails(AddCard(s, catalog, newId, newBenefitIds, bankCode, cardName, last4Input, cardType), newId)).cards
         == RemoveById(s.cards, newId)
  {
    var a := AddCard(s, catalog, newId, newBenefitIds, bankCode, cardName, last4Input, cardType);
    var added := a.cards[|s.cards|];
    assert a.cards == s.cards + [added];
    RemoveByIdAppend(s.cards, [added], newId);
    assert RemoveById([added], newId) == [];
  }

  /** Saving the notes twice keeps only the second text. */
  lemma SaveDetailsTwice(s: State, first: string, second: string)
    ensures SaveDetails(SaveDetails(s, first), second) == SaveDetails(s, second)
  {
  }
}
