/**
  The bank-code labels and the read-only default-benefit catalog, keyed by
  internal bank code and then by exact card name.
 */
module Catalog {
  import opened Wrappers
  import opened Cards

  /** A catalog entry; a template may carry its own `id`, which the copy keeps. */
  datatype Template = Template(id: Option<string>, name: string, period: string, limit: int, used: int)

  type BenefitCatalog = map<string, map<string, seq<Template>>>

  /** The ids a copy hands out, one per template position (the source draws them from the clock and `Math.random()`). */
  type IdSource = nat -> string

  /** The six bank codes of the add-card form and their display labels. */
  const BankLabels: map<string, string> := map[
    "amex" := "American Express",
    "chase" := "Chase",
    "citi" := "Citi",
    "boa" := "Bank of America",
    "discover" := "Discover",
    "other" := "Other"
  ]

  /** `getBankLabel`: a known code gets its label, any other code is shown as is, and the empty code reads "Unknown bank". */
  function BankLabel(code: string): (r: string)
    ensures code in BankLabels ==> r == BankLabels[code]
    ensures code !in BankLabels && code != "" ==> r == code
    ensures code == "" ==> r == "Unknown bank"
    ensures r != ""
  {
    match code
    case "amex" => "American Express"
    case "chase" => "Chase"
    case "citi" => "Citi"
    case "boa" => "Bank of America"
    case "discover" => "Discover"
    case "other" => "Other"
    case _ => if code == "" then "Unknown bank" else code
  }

  /** `{ id: freshId, ...template }`: the template's fields are copied and a template `id` overrides the generated one. */
  function Instantiate(t: Template, freshId: string): (b: Benefit)
    ensures b.id == (if t.id.Some? then t.id.value else freshId)
    ensures b.name == t.name && b.period == t.period && b.limit == t.limit && b.used == t.used
  {
    Benefit(t.id.GetOr(freshId), t.name, t.period, t.limit, t.used)
  }

  /** `templates.map(...)`: one copy per template, in order, the i-th given the i-th generated id. */
  function InstantiateAll(ts: seq<Template>, newIds: IdSource): (r: seq<Benefit>)
    ensures |r| == |ts|
    ensures forall i :: 0 <= i < |ts| ==> r[i] == Instantiate(ts[i], newIds(i))
  {
    if |ts| == 0 then []
    else InstantiateAll(ts[..|ts| - 1], newIds) + [Instantiate(ts[|ts| - 1], newIds(|ts| - 1))]
  }

  /** `getDefaultBenefitsForCard`: a catalog miss on the bank code or the card name gives no benefits. */
  function DefaultBenefits(catalog: BenefitCatalog, bankCode: string, cardName: string, newIds: IdSource): (r: seq<Benefit>)
    ensures bankCode !in catalog || cardName !in catalog[bankCode] ==> r == []
    ensures bankCode in catalog && cardName in catalog[bankCode] ==>
      var ts := catalog[bankCode][cardName];
      && |r| == |ts|
      && forall i :: 0 <= i < |ts| ==>
           && r[i].id == (if ts[i].id.Some? then ts[i].id.value else newIds(i))
           && r[i].name == ts[i].name
           && r[i].period == ts[i].period
           && r[i].limit == ts[i].limit
           && r[i].used == ts[i].used
  {
    if bankCode !in catalog || cardName !in catalog[bankCode] then []
    else InstantiateAll(catalog[bankCode][cardName], newIds)
  }
}
