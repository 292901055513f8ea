# Stock and donation tracking: client-side logic and the identity resolver

This project models the logic of a small inventory and donation-tracking web
application for associations that sits outside its database and its server
actions:

- the **donation cart** of the "give" page: a list of order lines and the list
  of product ids already in the cart, with add, change-quantity and remove
  operations, the product search capped at ten results, and the checks made
  before the stock-deduction action is called (`Give`, `give.dfy`);
- the **transaction history** page: the ledger filtered by product and by an
  inclusive day range, five entries per page, the page controls, and the
  effect that narrows the product list to products active in the chosen days
  (`TransactionsView`, `transactions.dfy`);
- the **identity resolver** `checkAndAddUser`, which registers an e-mail
  address under a name the first time it is seen (`Identity`, `identity.dfy`);
- the **restock panel**: the selected product id, the product card shown under
  the select box, the quantity, the `openStockModal` event that may arrive
  before the products are loaded, the effect that fills in the card later,
  and the submit handler (`Restock`, `stock.dfy`).

Shared records (products, cart lines, ledger entries) are in `Inventory`
(`inventory.dfy`); the JavaScript array and string operations the pages rely
on (`filter`, `slice`, `find`, `toLowerCase`, `includes`) are in `Sequences`
and `Text`.

Each page is a class whose fields are the page's state variables and whose
methods are its event handlers, each one atomic. The state changes are given
by pure functions (`AddToOrders`, `FilterTransactions`, `OnOpenEvent`, ...)
and the properties are proved about those functions. The server actions that
read or change stock (`readProducts`, `getTransactions`,
`deductStockWithTransaction`, `replenishStockWithTransaction`) are not part
of this model: each call is appended to a ghost trace `calls` with its
arguments, and what the action answers is a parameter of the handler. The
user's answer to the confirmation dialog is a boolean parameter. A string
that JavaScript would test for truthiness is the empty string when it is
absent (`null`, `undefined` or `""`). Dates are integer timestamps; the
start and end of a chosen day are given as inputs.

The code returns nothing from `checkAndAddUser`; the model follows it rather
than an identity resolver that returns the association record.

## Model

| member | source | states |
|---|---|---|
| `Give.AvailableProducts` | app/give/page.tsx:47-54 | at most 10 products; each has a lower-cased name containing the lower-cased query and an id not in the cart; source order kept; they are the first min(10, matches) matches, and every match is listed when there are at most 10 |
| `Give.EmptyQueryMatchesUnselected` | app/give/page.tsx:47-53 | an empty query matches every product whose id is not in the cart |
| `Give.Increment` | app/give/page.tsx:62-66 | same length; each line of the product gets min(quantity + 1, stock), every other line is unchanged |
| `Give.AddToOrders` | app/give/page.tsx:56-80 | a product already in the cart: same length, its line's quantity becomes min(q + 1, stock), other lines unchanged; a new product: exactly one line appended, carrying the product's id, unit, image and name, quantity 1 and available quantity equal to the stock, even when the stock is 0; the cart's ids grow by the product id only in the second case |
| `Give.AddToIds` | app/give/page.tsx:82-84 | an absent id is appended at the end and a present one leaves the list as it is: the result holds exactly the old ids and the new one, and never gains a duplicate |
| `Give.SetQuantity` | app/give/page.tsx:94-99 | same length; lines with the product id get the given quantity, others are unchanged |
| `Give.ChangeQuantity` | app/give/page.tsx:90-101 | a negative quantity leaves the cart unchanged; otherwise only the lines with the product id get the new quantity (0 included) and the cart's ids are unchanged |
| `Give.RemoveFromOrders` | app/give/page.tsx:104-109 | exactly the lines of other products remain, in their order; the product id no longer occurs; the remaining ids are the old ids with that one filtered out |
| `Give.RemoveFromIds` | app/give/page.tsx:107 | the id is gone, every other id stays in its order, no duplicate appears |
| `Give.RemoveUndoesAdd` | app/give/page.tsx:56-109 | removing a product after adding it gives the cart that removing it alone gives |
| `Give.RemoveAfterChangeQuantity` | app/give/page.tsx:90-109 | removing a product after changing its quantity is removing it |
| `Give.InvalidLineCount` | app/give/page.tsx:120-121 | zero exactly when every cart line has a positive quantity |
| `Give.DonationBlocked` | app/give/page.tsx:114-130 | the donation goes ahead exactly when the cart is non-empty, every quantity is positive and the user confirmed; otherwise it names the first failing check (empty cart, a quantity of 0 or less, declined) |
| `Give.ReplyNotice` | app/give/page.tsx:132-192 | success only for a response with success set; an OUT_OF_STOCK failure offers a restock carrying the product id (none when empty); a missing answer and every other failure show an error, with the message or the default one; a raised error is only logged |
| `Give.RestockEventId` | app/give/page.tsx:159-161 | the event carries a product id exactly when the response named one, and that id is the response's `productId` |
| `Give.OutOfStockPreselectsProduct` | app/give/page.tsx:144-161 | the restock button of an out-of-stock notice makes the restock panel select the offending product and show its card when it is loaded, and leaves the panel alone when no product id came back |
| `Give.GivePage.constructor` | app/give/page.tsx:20-23 | empty cart, empty id list, empty query; the cart invariant holds |
| `Give.GivePage.FetchProducts` | app/give/page.tsx:25-39 | products are read only when signed in, and replaced by any list the action returns, an empty one included; a `null` answer or a raised call keeps them |
| `Give.GivePage.SetSearchQuery` | app/give/page.tsx:204 | the query becomes the typed text |
| `Give.GivePage.AddToCart` | app/give/page.tsx:56-88 | the cart and the id list become `AddToOrders` and `AddToIds` of the old ones; the ids stay exactly the cart's ids, without duplicates |
| `Give.GivePage.QuantityChange` | app/give/page.tsx:90-101 | the cart becomes `ChangeQuantity` of the old one; the invariant is kept |
| `Give.GivePage.RemoveFromCart` | app/give/page.tsx:104-110 | the cart and the id list lose the product; the invariant is kept |
| `Give.GivePage.ConfirmDonation` | app/give/page.tsx:112-193 | a blocked donation calls nothing and changes nothing; otherwise exactly one deduction call with the whole cart and the user's e-mail; on success the cart and the id list become empty and the products are read again; on any other answer nothing changes |
| `TransactionsView.FilterTransactions` | app/transactions/page.tsx:53-73 | an order-preserving subsequence of the ledger holding exactly the entries of the selected product (if any) between the start of the first day and the end of the last day, both inclusive (for whichever is set); with no filter it is the whole ledger |
| `TransactionsView.TotalPages` | app/transactions/page.tsx:76 | the ceiling of n / 5: the pages hold all n entries and the last page is not empty; 0 pages exactly when there is no entry |
| `TransactionsView.PageItems` | app/transactions/page.tsx:77-78 | at most 5 entries, the ones from position (p - 1) * 5 on; non-empty for a page up to the page count, empty for a page past it |
| `TransactionsView.EntryOnItsPage` | app/transactions/page.tsx:76-78 | entry i is on page i / 5 + 1, which lies between 1 and the page count, at position i % 5 |
| `TransactionsView.PagesUpToIsPrefix` | app/transactions/page.tsx:76-78 | pages 1 to k laid end to end are the first 5k entries |
| `TransactionsView.PagesCoverFiltered` | app/transactions/page.tsx:76-78 | all the pages laid end to end are exactly the filtered list |
| `TransactionsView.ProductsWithActivity` | app/transactions/page.tsx:94-107 | an order-preserving subsequence of the products holding exactly those with at least one ledger entry of theirs inside the set bounds (a bound whose timestamp is 0 is not applied) |
| `TransactionsView.ProductsWithActivityIdempotent` | app/transactions/page.tsx:87-110 | narrowing the narrowed list again gives an equal list (equal as a value; see "## Left out" for the repeated runs) |
| `TransactionsView.ActivityMatchesLedgerFilter` | app/transactions/page.tsx:94-107 | with non-zero bounds a product is kept exactly when the ledger filtered by that product and those days is non-empty |
| `TransactionsView.TransactionsPage.constructor` | app/transactions/page.tsx:16-23 | empty lists, no filter, page 1 |
| `TransactionsView.TransactionsPage.FetchData` | app/transactions/page.tsx:26-46 | both lists are read only when signed in; products get the placeholder category name when they have none |
| `TransactionsView.TransactionsPage.SelectProduct` | app/transactions/page.tsx:127-130 | the selected product is the first product with that id, or none |
| `TransactionsView.TransactionsPage.SetDateRange` | app/transactions/page.tsx:141-166 | the bounds become the chosen ones |
| `TransactionsView.TransactionsPage.ResetFilters` | app/transactions/page.tsx:113-117 | no filter is left, so the filtered list is the whole ledger |
| `TransactionsView.TransactionsPage.PageChange` | app/transactions/page.tsx:81-85 | the page changes only to a page between 1 and the page count; otherwise nothing changes |
| `TransactionsView.TransactionsPage.PreviousPage` | app/transactions/page.tsx:192-200 | callable only while the buttons are shown (more than 5 filtered entries); the page becomes max(1, p - 1) |
| `TransactionsView.TransactionsPage.NextPage` | app/transactions/page.tsx:204-210 | callable only while the buttons are shown (more than 5 filtered entries); the page becomes min(page count, p + 1), a page between 1 and the page count with a non-empty slice |
| `TransactionsView.TransactionsPage.ApplyDateRangeToProducts` | app/transactions/page.tsx:87-110 | with no date set the products are unchanged; otherwise they become the products of the current, possibly already narrowed, list that are active in the range, so a product dropped by an earlier range does not come back, even after the filters are reset |
| `Identity.CheckAndAdd` | app/actions.ts:5-22 | at most one key is added and it is the given address; no entry is replaced or removed; the address is present afterwards exactly when it was before or both the address and the name are non-empty, and a new entry maps it to the name |
| `Identity.CheckAndAddIdempotent` | app/actions.ts:8-20 | a second call with the same arguments leaves the table as the first left it |
| `Identity.RegisteredIsFinal` | app/actions.ts:8-13 | once the address is present, a call with any name leaves the table unchanged |
| `Identity.AssociationStore.CheckAndAddUser` | app/actions.ts:5-22 | without a fault the table becomes `CheckAndAdd` of the old one; a fault is swallowed and leaves the table unchanged |
| `Restock.OnProductChange` | app/components/Stock.tsx:85-89 | the id is the argument; the card is the first product with that id (`find`), or none exactly when no product has it; the card matches the id |
| `Restock.OnOpenEvent` | app/components/Stock.tsx:48-63 | no id: nothing changes; a loaded id: the id and the card of the first product with that id are set; an id not loaded: only the id is set, the card stays as it was |
| `Restock.OnDeferredResolve` | app/components/Stock.tsx:76-81 | acts only when an id is set, no card is shown and products are loaded; then shows the card of the first product with that id, and shows none when no product has it; the id never changes and a matching card stays matching |
| `Restock.StaleCardAfterUnloadedOpen` | app/components/Stock.tsx:53-81 | choosing product a, then receiving an event for b before b is loaded, shows a's card under b's id, and loading b does not replace it |
| `Restock.OnOpenEventCorrected` | app/components/Stock.tsx:59-62 | an id not loaded clears the card; the card always matches the id |
| `Restock.CorrectedOpenResolvesAfterLoad` | app/components/Stock.tsx:59-81 | with the corrected handler an id received before its product is loaded ends with that product's card once the products arrive |
| `Restock.StockPanel.constructor` | app/components/Stock.tsx:13-17 | no selection, quantity 0, no products |
| `Restock.StockPanel.FetchProducts` | app/components/Stock.tsx:19-35 | products are read only when signed in and get the placeholder category name |
| `Restock.StockPanel.ProductChange` | app/components/Stock.tsx:85-89 | the selection becomes `OnProductChange` |
| `Restock.StockPanel.OpenStockModal` | app/components/Stock.tsx:47-72 | the selection becomes `OnOpenEvent` of the old one |
| `Restock.StockPanel.ResolveDeferredSelection` | app/components/Stock.tsx:76-81 | the selection becomes `OnDeferredResolve` of the old one |
| `Restock.StockPanel.SetQuantity` | app/components/Stock.tsx:165 | the quantity becomes the typed number |
| `Restock.StockPanel.Submit` | app/components/Stock.tsx:91-118 | no id or a quantity of 0 or less: no call, nothing changes; otherwise one replenishment call with the id, quantity and e-mail when signed in, and the selection and quantity reset to none and 0, also when not signed in and no call was made; a raised replenishment leaves the state as it was |
| `Inventory.FindProduct` | app/components/Stock.tsx:86 | the first product with the id, or none exactly when no product has it |
| `Inventory.WithCategoryDefault` | app/components/Stock.tsx:25-28 | same products in the same order; an empty category name becomes "Inconnu", others are kept |
| `Sequences.Filter` | app/give/page.tsx:48-53 | JavaScript `filter`: exactly the elements that satisfy the predicate, in their order, each kept as many times as it occurs in the input (see `Sequences.FilterMultiplicity`) |
| `Sequences.FilterMultiplicity` | app/give/page.tsx:48-53 | `filter` keeps every occurrence of a kept element: each element occurs in the result exactly as often as in the input when it satisfies the predicate, and never otherwise |
| `Sequences.FilterEmpty` | app/give/page.tsx:120-121 | `filter` gives an empty array exactly when no element satisfies the predicate |
| `Text.Lower` | app/give/page.tsx:49 | `toLowerCase` on ASCII letters (see `Text.Lower` under "## Left out"): same length, each character lower-cased, no upper-case ASCII letter left |
| `Sequences.Slice` | app/give/page.tsx:54 | JavaScript `slice`: from a non-negative start, the elements from that start up to the clamped end |
| `Text.IncludesOccurrence` | app/give/page.tsx:49 | `includes` holds only when the query occurs at some position of the name |

## Left out

- Rendering, styling, toasts and opening or closing dialogs are not modelled; a toast is reduced to the `Notice` it shows.
- `deductStockWithTransaction`, `replenishStockWithTransaction`, `readProducts` and `getTransactions` are not part of this model: only their calls and arguments are recorded, and their answers are inputs.
- Database access and authentication are not modelled; the signed-in user's e-mail is a constant of each page, empty when nobody is signed in.
- Asynchrony is not modelled: each handler and each effect runs as one atomic step, and a refresh started by a handler is completed within it.
- `Text.Lower`: only ASCII letters are lower-cased, not the full Unicode mapping of `toLowerCase`.
- `Restock.StockPanel.SetQuantity`: the quantity is an integer; `Number(...)` of the input field can also give a fraction such as 2.5, which passes the `quantity <= 0` guard of `handleSubmit` and is sent to `replenishStockWithTransaction`, and NaN, which passes that guard too because `NaN <= 0` is false. `Restock.StockPanel.Submit` therefore only sends integers.
- `Give.ChangeQuantity`: the new quantity is an integer; `Number(...)` of the input field can also give a fraction or NaN, which the page would store.
- `TransactionsView.FilterTransactions`: the day bounds are given timestamps, the ones the page computes; how they are computed is not modelled. `new Date("YYYY-MM-DD")` reads the date as midnight UTC, so west of UTC `setHours` yields the bounds of the previous local day; invalid dates are not modelled either.
- `TransactionsView.ProductsWithActivityIdempotent`: holds for values only. The effect at app/transactions/page.tsx:87-110 stores a new array on every run and lists `products` among its dependencies, so while a date is set React runs it again after each run; effect scheduling is not modelled.
- `TransactionsView.TransactionsPage.FetchData`: a raised `readProducts` also skips `getTransactions`; the model records both calls whenever the user is signed in.
- The transaction page never resets `currentPage` when a filter changes, so a page past the new page count shows an empty slice (`PageItems` states this).
- The image-upload route, the reporting components and the product and category forms are not part of this model.

## Findings

| source | as written | input that shows it | evidently intended | confidence | as-written member | corrected member |
|---|---|---|---|---|---|---|
| app/components/Stock.tsx:59-62 | an `openStockModal` event whose product is not loaded sets only the id and keeps the card already shown; the effect at lines 76-81 fills in the card only when none is shown | select product a, then receive the event for b before b is loaded: the card shows a under b's id, and loading b does not change it | the comment at line 60 says the id is kept so the product can be selected after loading: the card should be cleared so the effect can show b | medium, not executed | `Restock.StaleCardAfterUnloadedOpen` | `Restock.CorrectedOpenResolvesAfterLoad` |

`Restock.StockPanel.OpenStockModal` keeps the as-written behaviour so that the
panel matches the code; `Restock.OnOpenEventCorrected` is the corrected
transition and the lemmas about the open, load and resolve sequence use it.
