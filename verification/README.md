# SmartSaver wallet: card and benefit data model

SmartSaver is a browser-extension popup that keeps a list of credit cards and,
for each card, the recurring statement-credit benefits it carries ("$100
quarterly dining credit") with how much of each has been used this period.
Two pages edit the same stored list: the wallet view (`wallet.js`), which adds
cards, opens a card's details and edits its benefits, and also defines
delete-card and save-notes handlers that no listener calls; and the
card-details page (`card_details.js`), which edits the benefits of one card.

This project models the data those pages keep and every event handler that
changes it, as pure transitions in Dafny:

- `Cards` — the `Card`, `Benefit` and `BenefitList` datatypes (a stored
  `benefits` field is either an array or not), the `cards.find` and
  `cards.filter` lookups by id, and the benefit edits both pages share:
  append, `splice(index, 1)`, and overwriting `used`.
- `Catalog` — the bank-code labels and the read-only default-benefit catalog
  (bank code → card name → benefit templates) with the copy made when a card
  is added.
- `Display` — the period label (written twice, once per page, in each page's
  order of tests) and the "Remaining" amount with the rule for showing it.
- `Wallet` — the wallet view's state (card list plus the open card id, `null`
  as `None`) and its handlers: add card, open/close details, save notes,
  delete card, add benefit, remove benefit, set usage.
- `CardDetails` — the details page's state (card list plus the current card,
  an index into the list) and its handlers: find the current card, add
  benefit, remove benefit, set usage, together with lemmas that the two pages
  make the same edits.
- `Text` — JavaScript's `trim()` over the exact whitespace and line-terminator
  set of ECMA-262; `Wrappers` — `Option`.

Values the source draws from the clock or from `Math.random()` (new card and
benefit ids) are parameters: `newId` for one id, `newBenefitIds: IdSource` (a `nat -> string`)
for the i-th copied catalog benefit. The handlers that save persist the whole
list, and the saved list is the `cards` of the state the model returns. They
are `handleAddCard`, `handleSaveDetails`, `handleDeleteCard`, both pages'
`handleAddBenefit`, and both pages' Remove buttons and usage inputs. Opening
and closing the wallet's details view and `findCurrentCard` save nothing.

Behaviours of the code worth noting:

- `findCurrentCard` turns a non-array `benefits` into `[]` in memory only.
  The healed card reaches storage only with the next add, remove or usage
  edit on the details page (`CardDetails.FindCurrentCard`).
- No event listener in the wallet or details page calls `handleSaveDetails`
  or `handleDeleteCard`. Of the page's static controls, only add card, back,
  add benefit, the bank select and the tabs have listeners; the card-stack
  items, the Remove buttons and the usage inputs get theirs when rendered.
  `Wallet.SaveDetails` and `Wallet.DeleteCard` model the two functions as
  written.
- A catalog template that carries its own `id` keeps it: in
  `{ id: …, ...benefit }` the spread comes after `id`. So copied benefits are
  not guaranteed fresh ids (`Catalog.Instantiate`).
- Deleting a card does not take a card id. It removes every card whose id
  equals the open card's id, and does nothing when no card is open.
- No operation clamps `used` or `limit` at zero; negative values pass through.
- The wallet view tests "a card is open" by JavaScript truthiness. So an open
  id equal to the empty string counts as no card open (`Wallet.HasOpenCard`).
  The benefit rows' buttons are different: they act on the card object that
  `openDetails` rendered, with no such test (`Wallet.ShownIndex`).
- In the wallet view, a `benefits` field that is not an array is replaced by
  `[]` only when a benefit is actually added. A blank name leaves it as it was.

## Model

| member | source | states |
|---|---|---|
| Text.Trim | wallet.js:405 | `trim()` yields a string no longer than its input that neither starts nor ends with whitespace |
| Text.TrimIsSlice | wallet.js:405 | the trimmed name is a contiguous slice of the input and everything cut off on either side is whitespace |
| Text.TrimEmptyIffBlank | wallet.js:405-413 | the `if (!name)` guard after `trim()` fails exactly when the input consists only of whitespace (both directions) |
| Cards.Healed | card_details.js:25-27 | a non-array `benefits` becomes the empty list; an array is kept; no other field changes |
| Cards.FirstIndex | card_details.js:24 | `cards.find` by id: the found card has the id and no earlier card does; nothing is found exactly when no card has the id |
| Cards.RemoveById | wallet.js:387 | `cards.filter(c => c.id !== id)`: a card is in the result exactly when it was in the list and has another id |
| Cards.RemoveByIdAppend | wallet.js:387 | filtering distributes over concatenation, so the kept cards keep their original order |
| Cards.RemoveByIdUnchangedIff | wallet.js:387 | the filter leaves the list as it was exactly when no card carries the id, and otherwise makes it strictly shorter |
| Cards.RemoveAt | wallet.js:217 | `splice(index, 1)`: one element fewer, elements before `index` in place, later ones shifted down by one; out of range, no change |
| Cards.SetUsedAt | wallet.js:248-249 | only the `used` field of the benefit at `index` becomes the new value; length and every other benefit unchanged |
| Cards.AddBenefitTo | wallet.js:415-425 | after healing, the new benefit is appended at the end, earlier benefits are unchanged, no other card field changes |
| Cards.RemoveBenefitFrom | wallet.js:216-220 | the Remove button splices the card's benefit array and changes no other field; a card without an array is unchanged |
| Cards.SetUsedOn | wallet.js:247-252 | the usage input changes the card's benefit array as `SetUsedAt` and no other field |
| Cards.AddThenRemoveRestores | wallet.js:419-425 | appending a benefit and then removing it by its index gives back the original card |
| Catalog.BankLabel | wallet.js:43-53 | each of the six codes gets its fixed label, any other non-empty code is returned unchanged, the empty code gives "Unknown bank"; the label is never empty |
| Catalog.Instantiate | wallet.js:286-289 | a copied benefit has every field of its template, and the template's own id overrides the generated one |
| Catalog.InstantiateAll | wallet.js:286-289 | the copy has one benefit per template, in the same order, the i-th made from the i-th template and the i-th generated id |
| Catalog.DefaultBenefits | wallet.js:282-290 | a miss on the bank code or on the exact card name yields no benefits; otherwise same length and order as the templates, fields copied, template id overriding |
| Display.WalletPeriodLabel | wallet.js:226-230 | quarter, semiannual, monthly and annual map to their labels; every other period maps to "Other" |
| Display.DetailsPeriodLabel | card_details.js:81-85 | the same table as the wallet view, although the tests run in a different order |
| Display.PeriodLabelsAgree | card_details.js:81-85 | the two pages label every period alike, and "Other" appears exactly for the unknown periods |
| Display.Remaining | card_details.js:90-93 | the "Remaining" segment is shown exactly when the limit is non-zero; its value is never negative and is the larger of 0 and limit − used |
| Wallet.HasOpenCard | wallet.js:386 | the `if (!currentCardId) return` guard: a card counts as open exactly when the open id is neither null nor the empty string |
| Wallet.OpenIndex | wallet.js:376-378 | the card the notes and add-benefit handlers edit is the first card with the open id (`cards.find`), and there is none exactly when no card is open or none has the id |
| Wallet.ShownIndex | wallet.js:146-148 | the card whose benefits `openDetails` rendered is the first card with the open id (`cards.find`), and there is none exactly when no id is recorded or no card has it |
| Wallet.AddCard | wallet.js:329-366 | an empty bank code or card name changes nothing; otherwise exactly one card is appended after the unchanged earlier cards, with the card name, the bank label, the trimmed last four digits, empty notes and the catalog's default benefits |
| Wallet.OpenDetails | wallet.js:146-149 | the open id is recorded even when no card has it, the list is untouched, and the card the Remove and usage controls then act on is the first card with that id |
| Wallet.CloseDetails | wallet.js:163-164 | the open id becomes null and the list is untouched |
| Wallet.SaveDetails | wallet.js:375-383 | with no open or no matching card nothing changes; otherwise only the notes of the open card change |
| Wallet.DeleteCard | wallet.js:385-391 | with no card open nothing changes; otherwise the list is the `filter` of the old one by the open id (every card carrying it gone, all others kept in order, see `RemoveByIdAppend`) and the open id becomes null |
| Wallet.AddBenefit | wallet.js:393-425 | no open card, no matching card or a blank name changes nothing; otherwise one benefit with the trimmed name is appended to the open card's (healed) benefits and no other card or field changes |
| Wallet.RemoveBenefit | wallet.js:216-220 | the benefit at the index is spliced out of the shown card only; other cards and the open id are unchanged |
| Wallet.SetUsed | wallet.js:247-252 | only `used` of the benefit at the index of the shown card changes |
| Wallet.OpenThenDeleteRemovesCard | wallet.js:385-391 | deleting the card just opened leaves no card with its id, keeps every other card, and returns to the list view |
| Wallet.AddOpenDeleteRestores | wallet.js:354-364 | adding a card, opening it and deleting it leaves the old list filtered by the new id, which is the original list when the id is new (`RemoveByIdUnchangedIff`) |
| Wallet.SaveDetailsTwice | wallet.js:380-381 | saving notes twice leaves only the second text: the notes are overwritten, not accumulated |
| Wallet.AddThenRemoveBenefitRestores | wallet.js:419-425 | adding a benefit to the open card and removing it by its index restores the whole state |
| CardDetails.FindCurrentCard | card_details.js:23-28 | the current card is the first card with the id, or none exactly when no card has it; a found card's non-array `benefits` becomes empty and nothing else changes |
| CardDetails.AddBenefit | card_details.js:125-153 | no current card or a blank name changes nothing; otherwise one benefit with the trimmed name is appended at the end of the current card's benefits and nothing else changes |
| CardDetails.RemoveBenefit | card_details.js:71-75 | the benefit at the index is spliced out of the current card only |
| CardDetails.SetUsed | card_details.js:102-107 | only `used` of the benefit at the index of the current card changes |
| CardDetails.ViewsAgreeOnAddBenefit | card_details.js:143-153 | the details page and the wallet view, opened on the same card id, add a benefit identically |
| CardDetails.ViewsAgreeOnRemoveBenefit | card_details.js:72 | for every card list, the details page removes a benefit exactly as the wallet view does, followed by the details page's healing of a non-array `benefits` |
| CardDetails.ViewsAgreeOnSetUsed | card_details.js:103-104 | for every card list, the details page records usage exactly as the wallet view does, followed by the details page's healing of a non-array `benefits` |
| CardDetails.AddThenRemoveBenefitRestores | card_details.js:147-153 | on the details page, adding a benefit and removing it by its index restores the whole state |

## Left out

- Storage: `chrome.storage.local` load and save (wallet.js:55-64, card_details.js:12-21) are external I/O. Each save is the returned state's card list, and a load that finds nothing gives the empty list.
- The catalog fetch and its fallback to an empty catalog (wallet.js:270-280) are asynchronous I/O. The catalog is an immutable map parameter, and an empty map models the fallback.
- popup.js (tab query and script injection) is foreign calls with no logic.
- DOM rendering has no contract beyond display and is not modelled. This covers the card stack, the preview pane, headers, the empty-list messages, the "Untitled" fallbacks, the `Used $x of $y` text, dropdown population from `BANK_CARDS`, tab switching, form resets, the back link and reading `cardId` from the URL.
- The guards that return when a form element is missing from the page are not modelled. The model assumes the page has all its elements.
- Id generation by `Date.now()` and `Math.random()` is modelled as parameters. Uniqueness is not asserted, because the source does not guarantee it.
- `Number(...)` coercion, `NaN` and floating point are out of scope. `limit` and `used` are integers taken as already coerced, and `NaN` as a falsy limit is not modelled.
- Catalog.Template: a template is taken to carry `name`, `period`, `limit` and `used`. Templates with fields missing or extra are not modelled, because the spread copies arbitrary JSON fields.
- Catalog.DefaultBenefits: inherited object keys are not modelled, because bank codes and card names come from fixed select options. A bank code such as `constructor` would reach JavaScript's prototype chain.
- Two popups that overwrite each other's saves are a concurrency matter, outside a sequential model.
