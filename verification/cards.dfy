/**
  The stored wallet entities and the benefit operations both views share:
  append a benefit, remove the benefit at an index (`splice(index, 1)`),
  overwrite a benefit's `used`, and the `cards.find` / `cards.filter` lookups
  by card id.
 */
module Cards {
  import opened Wrappers

  /** A statement-credit benefit; `limit` and `used` are already coerced to numbers. */
  datatype Benefit = Benefit(id: string, name: string, period: string, limit: int, used: int)

  /** A stored card's `benefits` field: an array, or anything else (missing, `null`, an object). */
  datatype BenefitList = NotArray | Array(items: seq<Benefit>)

  datatype Card = Card(
    id: string,
    name: string,
    bank: string,
    last4: string,
    cardType: string,
    notes: string,
    benefits: BenefitList)

  /** The benefits a handler works on: a non-array field reads as the empty list. */
  function Items(list: BenefitList): seq<Benefit> {
    match list
    case NotArray => []
    case Array(bs) => bs
  }

  /** `if (!Array.isArray(card.benefits)) card.benefits = []`. */
  function Healed(c: Card): (r: Card)
    ensures r.benefits.Array? && r.benefits.items == Items(c.benefits)
    ensures r.(benefits := c.benefits) == c
    ensures c.benefits.Array? ==> r == c
  {
    if c.benefits.Array? then c else c.(benefits := Array([]))
  }

  /** `cards.find(c => c.id === id)`: the index of the first card with that id, if any. */
  function FirstIndex(cards: seq<Card>, id: string): (r: Option<nat>)
    ensures r.Some? ==> r.value < |cards| && cards[r.value].id == id
    ensures r.Some? ==> forall j :: 0 <= j < r.value ==> cards[j].id != id
    ensures r.None? <==> forall j :: 0 <= j < |cards| ==> cards[j].id != id
  {
    if |cards| == 0 then None
    else if cards[0].id == id then Some(0)
    else
      match FirstIndex(cards[1..], id)
      case None => None
      case Some(k) => Some(k + 1)
  }

  /** `cards.filter(c => c.id !== id)`: drops every card with that id and keeps the others. */
  function RemoveById(cards: seq<Card>, id: string): (r: seq<Card>)
    ensures |r| <= |cards|
    ensures forall c :: c in r <==> c in cards && c.id != id
  {
    if |cards| == 0 then []
    else if cards[0].id == id then RemoveById(cards[1..], id)
    else [cards[0]] + RemoveById(cards[1..], id)
  }

  /** The filter works piecewise, so the kept cards stay in their original order. */
  lemma {:induction false} RemoveByIdAppend(a: seq<Card>, b: seq<Card>, id: string)
    ensures RemoveById(a + b, id) == RemoveById(a, id) + RemoveById(b, id)
    decreases |a|
  {
    if |a| == 0 {
      assert a + b == b;
    } else {
      assert (a + b)[1..] == a[1..] + b;
      RemoveByIdAppend(a[1..], b, id);
    }
  }

  /** When no card carries the id the filter changes nothing, and otherwise it shortens the list. */
  lemma {:induction false} RemoveByIdUnchangedIff(cards: seq<Card>, id: string)
    ensures RemoveById(cards, id) == cards <==> forall j :: 0 <= j < |cards| ==> cards[j].id != id
    ensures !(forall j :: 0 <= j < |cards| ==> cards[j].id != id) ==> |RemoveById(cards, id)| < |cards|
    decreases |cards|
  {
    if |cards| > 0 {
      RemoveByIdUnchangedIff(cards[1..], id);
      if cards[0].id == id {
        assert |RemoveById(cards, id)| < |cards|;
      } else {
        assert RemoveById(cards, id) == [cards[0]] + RemoveById(cards[1..], id);
        if RemoveById(cards, id) == cards {
          assert RemoveById(cards[1..], id) == cards[1..];
        }
        assert forall j :: 1 <= j < |cards| ==> cards[j] == cards[1..][j - 1];
      }
    }
  }

  /** `benefits.splice(index, 1)`: removes exactly the element at `index`; an index past the end removes nothing. */
  function RemoveAt(bs: seq<Benefit>, index: nat): (r: seq<Benefit>)
    ensures index < |bs| ==> |r| == |bs| - 1
    ensures index < |bs| ==> forall j :: 0 <= j < index ==> r[j] == bs[j]
    ensures index < |bs| ==> forall j :: index <= j < |r| ==> r[j] == bs[j + 1]
    ensures index >= |bs| ==> r == bs
  {
    if index < |bs| then bs[..index] + bs[index + 1..] else bs
  }

  /** `benefit.used = newVal`: only the `used` field of the benefit at `index` changes. */
  function SetUsedAt(bs: seq<Benefit>, index: nat, used: int): (r: seq<Benefit>)
    ensures |r| == |bs|
    ensures index < |bs| ==> r[index].used == used && r[index].(used := bs[index].used) == bs[index]
    ensures forall j :: 0 <= j < |bs| && j != index ==> r[j] == bs[j]
  {
    if index < |bs| then bs[index := bs[index].(used := used)] else bs
  }

  /** `benefits.push(b)` after healing: `b` lands at the end, earlier benefits untouched, no other field changes. */
  function AddBenefitTo(c: Card, b: Benefit): (r: Card)
    ensures r.benefits.Array?
    ensures |r.benefits.items| == |Items(c.benefits)| + 1
    ensures r.benefits.items[..|Items(c.benefits)|] == Items(c.benefits)
    ensures r.benefits.items[|Items(c.benefits)|] == b
    ensures r.(benefits := c.benefits) == c
  {
    c.(benefits := Array(Items(c.benefits) + [b]))
  }

  /** The Remove button: splices the card's benefit array; a card with no array has nothing rendered to remove. */
  function RemoveBenefitFrom(c: Card, index: nat): (r: Card)
    ensures r.benefits.Array? <==> c.benefits.Array?
    ensures c.benefits.Array? ==> r.benefits.items == RemoveAt(c.benefits.items, index)
    ensures r.(benefits := c.benefits) == c
  {
    match c.benefits
    case NotArray => c
    case Array(bs) => c.(benefits := Array(RemoveAt(bs, index)))
  }

  /** The usage input: overwrites `used` of the benefit at `index` of the card's array. */
  function SetUsedOn(c: Card, index: nat, used: int): (r: Card)
    ensures r.benefits.Array? <==> c.benefits.Array?
    ensures c.benefits.Array? ==> r.benefits.items == SetUsedAt(c.benefits.items, index, used)
    ensures r.(benefits := c.benefits) == c
  {
    match c.benefits
    case NotArray => c
    case Array(bs) => c.(benefits := Array(SetUsedAt(bs, index, used)))
  }

  /** Adding a benefit and then removing it again by its index restores the card. */
  lemma AddThenRemoveRestores(c: Card, b: Benefit)
    requires c.benefits.Array?
    ensures RemoveBenefitFrom(AddBenefitTo(c, b), |c.benefits.items|) == c
  {
  }
}
