/**
  The card-details page's handlers. Its `currentCard` is a reference into the
  card list, modelled as an index; every edit through it is an edit of that
  list element. The benefit edits are the same shared operations the wallet
  view uses.
 */
module CardDetails {
  import opened Wrappers
  import opened Text
  import opened Cards
  import Wallet

  datatype State = State(cards: seq<Card>, currentCard: Option<nat>)

  /** The current card, when there is one, is an element of the list. */
  predicate Valid(s: State) {
    s.currentCard.Some? ==> s.currentCard.value < |s.cards|
  }

  /**
    `findCurrentCard`: the current card becomes the first card with the id, or
    none; a found card whose `benefits` is not an array gets an empty one, and
    nothing else changes.
   */
  function FindCurrentCard(s: State, cardId: string): (r: State)
    ensures Valid(r)
    ensures |r.cards| == |s.cards|
    ensures r.currentCard.None? <==> forall j :: 0 <= j < |s.cards| ==> s.cards[j].id != cardId
    ensures r.currentCard.None? ==> r.cards == s.cards
    ensures r.currentCard.Some? ==>
      var k := r.currentCard.value;
      && s.cards[k].id == cardId
      && (forall j :: 0 <= j < k ==> s.cards[j].id != cardId)
      && r.cards[k].benefits.Array?
      && r.cards[k].benefits.items == Items(s.cards[k].benefits)
      && r.cards[k].(benefits := s.cards[k].benefits) == s.cards[k]
      && forall j :: 0 <= j < |s.cards| && j != k ==> r.cards[j] == s.cards[j]
  {
    match FirstIndex(s.cards, cardId)
    case None => State(s.cards, None)
    case Some(k) => State(s.cards[k := Healed(s.cards[k])], Some(k))
  }

  /**
    `handleAddBenefit`: with a current card and a name that is not blank,
    appends one benefit (trimmed name) at the end of its benefits; otherwise
    nothing changes.
   */
  function AddBenefit(s: State, newId: string, nameInput: string, period: string, limit: int, used: int): (r: State)
    requires Valid(s)
    ensures Valid(r) && r.currentCard == s.currentCard && |r.cards| == |s.cards|
    ensures s.currentCard.None? || IsBlank(nameInput) ==> r == s
    ensures s.currentCard.Some? && !IsBlank(nameInput) ==>
      var k := s.currentCard.value;
      && r.cards[k].benefits == Array(Items(s.cards[k].benefits) + [Benefit(newId, Trim(nameInput), period, limit, used)])
      && r.cards[k].(benefits := s.cards[k].benefits) == s.cards[k]
      && forall j :: 0 <= j < |s.cards| && j != k ==> r.cards[j] == s.cards[j]
  {
    TrimEmptyIffBlank(nameInput);
    match s.currentCard
    case None => s
    case Some(k) =>
      var name := Trim(nameInput);
      if name == "" then s
      else s.(cards := s.cards[k := AddBenefitTo(s.cards[k], Benefit(newId, name, period, limit, used))])
  }

  /** A benefit row's Remove button: splices out exactly the benefit at `index` of the current card. */
  function RemoveBenefit(s: State, index: nat): (r: State)
    requires Valid(s)
    ensures Valid(r) && r.currentCard == s.currentCard && |r.cards| == |s.cards|
    ensures s.currentCard.None? ==> r == s
    ensures s.currentCard.Some? ==>
      var k := s.currentCard.value;
      && r.cards[k] == RemoveBenefitFrom(s.cards[k], index)
      && forall j :: 0 <= j < |s.cards| && j != k ==> r.cards[j] == s.cards[j]
  {
    match s.currentCard
    case None => s
    case Some(k) => s.(cards := s.cards[k := RemoveBenefitFrom(s.cards[k], index)])
  }

  /** A benefit row's usage input: overwrites only `used` of the benefit at `index` of the current card. */
  function SetUsed(s: State, index: nat, used: int): (r: State)
    requires Valid(s)
    ensures Valid(r) && r.currentCard == s.currentCard && |r.cards| == |s.cards|
    ensures s.currentCard.None? ==> r == s
    ensures s.currentCard.Some? ==>
      var k := s.currentCard.value;
      && r.cards[k] == SetUsedOn(s.cards[k], index, used)
      && forall j :: 0 <= j < |s.cards| && j != k ==> r.cards[j] == s.cards[j]
  {
    match s.currentCard
    case None => s
    case Some(k) => s.(cards := s.cards[k := SetUsedOn(s.cards[k], index, used)])
  }

  /**
    Both views add a benefit alike: the details page opened on a card id and
    the wallet view with the same card open end with the same card list.
   */
  lemma ViewsAgreeOnAddBenefit(
    cards: seq<Card>, cardId: string, newId: string, nameInput: string, period: string, limit: int, used: int)
    requires cardId != "" && !IsBlank(nameInput)
    ensures AddBenefit(FindCurrentCard(State(cards, None), cardId), newId, nameInput, period, limit, used).cards
         == Wallet.AddBenefit(Wallet.State(cards, Some(cardId)), newId, nameInput, period, limit, used).cards
  {
  }

  /**
    Both views remove a benefit alike. The only difference is the details
    page's healing of a non-array `benefits`, so the details page ends where
    the wallet view ends followed by that healing.
   */
  lemma ViewsAgreeOnRemoveBenefit(cards: seq<Card>, cardId: string, index: nat)
    ensures RemoveBenefit(FindCurrentCard(State(cards, None), cardId), index).cards
         == FindCurrentCard(State(Wallet.RemoveBenefit(Wallet.State(cards, Some(cardId)), index).cards, None), cardId).cards
  {
  }

  /** Both views record usage alike, up to the details page's healing of a non-array `benefits`. */
  lemma ViewsAgreeOnSetUsed(cards: seq<Card>, cardId: string, index: nat, used: int)
    ensures SetUsed(FindCurrentCard(State(cards, None), cardId), index, used).cards
         == FindCurrentCard(State(Wallet.SetUsed(Wallet.State(cards, Some(cardId)), index, used).cards, None), cardId).cards
  {
  }

  /** On the details page, adding a benefit and removing it again by its index restores the list. */
  lemma AddThenRemoveBenefitRestores(s: State, newId: string, nameInput: string, period: string, limit: int, used: int)
    requires Valid(s) && s.currentCard.Some? && !IsBlank(nameInput)
    requires s.cards[s.currentCard.value].benefits.Array?
    ensures var k := s.currentCard.value;
      RemoveBenefit(AddBenefit(s, newId, nameInput, period, limit, used), |s.cards[k].benefits.items|) == s
  {
    var k := s.currentCard.value;
    var a := AddBenefit(s, newId, nameInput, period, limit, used);
    AddThenRemoveRestores(s.cards[k], Benefit(newId, Trim(nameInput), period, limit, used));
    assert a.cards[k] == AddBenefitTo(s.cards[k], Benefit(newId, Trim(nameInput), period, limit, used));
    assert a.cards[k := s.cards[k]] == s.cards;
  }
}
