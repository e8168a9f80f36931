# RapidVolt shopping cart, modelled in Dafny

This project models the shopping-cart store of the RapidVolt site script
(`script.js`). The script keeps one cart for the whole page: an ordered list of
line items `{id, title, price, qty}`. It reads products from a catalog
(`PRODUCTS`). Three mutators change the cart:

- `addToCart` raises the quantity of the line that already has the id, or
  pushes a snapshot of the catalog product.
- `removeFromCart` filters out the lines with the id.
- `changeQty` adds a signed delta to the line with the id, and removes the line
  when its quantity falls to 0 or below.

Two values are derived from the cart: the total `getTotal` and the item-count
badge. The checkout empties the cart when the order e-mail is sent, and leaves
it alone when sending fails.

Files:

- `cart_model.dfy`, module `CartModel`, has the parts that are plain values:
  - the `Product` and `Line` datatypes;
  - the cart invariant `Valid`: ids are unique and every quantity is at least 1;
  - the two `find` lookups, both built on one generic first-match search `FirstIndex`;
  - the mutators as functions from the old cart to the new one (`Added`,
    `Removed`, `QtyChanged`);
  - the two `reduce` folds (`Total`, `ItemCount`, both built on one left fold `Sum`);
  - the click commands (`Command`, `Apply`, `Run`);
  - the lemmas about all of these.
- `cart_store.dfy`, module `CartStore`, has the class `Store`. Its `lines`
  field is the cart, which the methods update in place. Its `catalog` constant
  is the read-only product list. The three mutators and the click handler are
  each proved equal to their `CartModel` function. `FinishCheckout` has no such
  function: its contract states the new cart directly. Every method also keeps
  the invariant whenever the invariant held before the call.

Modelling choices:

- Prices are whole minor units (fils), so totals are exact integer sums.
- Quantities and deltas are `int`.
- Ids are strings compared by equality, as `===` compares them.
- A lookup returns the first match, as `Array.prototype.find` does.
- The filter in `removeFromCart` drops every line with the id. This differs
  from dropping only one line only when ids are not unique.
- The script never checks the cart it loads at start-up. So the constructor
  accepts any sequence, and the methods do not require the invariant. If the
  loaded cart has unique ids and every `qty >= 1`, so does every later cart.
  The model proves this: each method ensures `old(Valid()) ==> Valid()`, and
  `CartModel` proves that each mutator keeps `Valid`. A loaded cart that
  breaks the invariant is handled exactly as the script handles it, with no
  check.
- Lemmas about "the line with the id" are stated for the first line with the
  id, which is the line `find` returns, so they hold for every cart. The lemmas
  that need unique ids say so.

## Model

| member | source | states |
|---|---|---|
| CartModel.FirstIndex | script.js:47-50 | the generic `find` by key: when it finds something, the result is the first position whose key is the id; it returns None exactly when no element has that key |
| CartModel.LineIndex | script.js:47 | `cart.find` by id: when it finds something, the result is the first position whose line has the id; it returns None exactly when no line has the id |
| CartModel.ProductIndex | script.js:50 | `PRODUCTS.find` by id: when it finds something, the result is the first catalog position with the id; it returns None exactly when the catalog has no such product |
| CartModel.LineIndexFirst | script.js:47 | the lookup returns exactly the first line that has the id |
| CartModel.LineIndexUnique | script.js:47 | when ids are unique, the line found for an id is the one line that has it |
| CartModel.Added | script.js:46-54 | `addToCart` as a function. The cart grows by exactly one line when the id is in the catalog but not in the cart; otherwise its length stays the same. Every old line keeps its id, title and price, so snapshots are never refreshed. Every old quantity stays the same or rises by 1. The id is in the new cart exactly when it was in the old cart or in the catalog. The exact result is given by AddedExisting, AddedNew and AddedUnknown |
| CartModel.QtyChanged | script.js:61-67 | `changeQty` as a function: the cart never grows; an absent id leaves it unchanged; the only line not in the old cart is the changed line, which has the id and a positive quantity. The exact result is given by QtyChangedAbsent and QtyChangedPresent |
| CartModel.Removed | script.js:57 | the filtered cart has no line with the id; every line it keeps came from the old cart; every old line with another id is kept; it is never longer than the old cart |
| CartModel.AddedExisting | script.js:47-48 | for any cart, adding an id whose first line is line i keeps the length; line i's quantity goes up by exactly 1 and its id, title and price stay the same; every other line is unchanged; the catalog is not consulted |
| CartModel.AddedNew | script.js:49-51 | adding an id that is not in the cart appends exactly one line at the end: the first catalog product with that id, its id, title and price, and quantity 1; the earlier lines are the old cart |
| CartModel.AddedUnknown | script.js:49-51 | adding an id that is in neither the cart nor the catalog leaves the cart equal to the old one |
| CartModel.AddedTwice | script.js:46-54 | for any cart, adding an unseen product twice gives one line with quantity 2 after the old lines, not two lines |
| CartModel.AddsKeepUnique | script.js:51 | pushing a line whose id is absent keeps ids unique |
| CartModel.AddedKeepsValid | script.js:46-54 | for any cart, if the invariant held before, `addToCart` keeps it: unique ids and every quantity at least 1 |
| CartModel.RemovedAbsent | script.js:57 | removing an id that no line has leaves the cart unchanged |
| CartModel.RemovedAppend | script.js:57 | the filter distributes over concatenation, so the kept lines stay in their original relative order |
| CartModel.RemovedSingle | script.js:57 | the filter keeps a single line exactly when it has another id |
| CartModel.RemovedAt | script.js:57 | when ids are unique, removing the id of line i gives exactly the cart without line i |
| CartModel.RemovedIdempotent | script.js:56-59 | removing twice equals removing once |
| CartModel.RemovedKeepsValid | script.js:57 | for any cart, if the invariant held before, `removeFromCart` keeps it |
| CartModel.RemovedIgnoresUpdate | script.js:64-65 | overwriting the line that has the id, before filtering it out, does not change the filtered cart; this is why updating and then removing in `changeQty` equals plain removal |
| CartModel.QtyChangedAbsent | script.js:62-63 | `changeQty` on an id that is not in the cart leaves the cart unchanged |
| CartModel.QtyChangedPresent | script.js:61-67 | for any cart whose first line with the id is line i: if qty + delta > 0, only that line's quantity changes, to qty + delta; otherwise the result is what `removeFromCart` gives; when ids are also unique, that is the cart without line i |
| CartModel.QtyChangedKeepsValid | script.js:61-67 | for any cart, if the invariant held before, `changeQty` keeps it; in particular no line with quantity at most 0 remains |
| CartModel.Sum | script.js:69-73 | no contract of its own: the left fold from 0 that both `reduce` calls compute; characterised by SumsOfEmpty, SumAppend, SumSplit and SumUpdate |
| CartModel.Total | script.js:69 | no contract of its own: `getTotal`, the fold of price * qty; characterised by TotalExample and the *Sums lemmas |
| CartModel.ItemCount | script.js:73 | no contract of its own: the badge count, the fold of qty; characterised by ItemCountBounds and the *Sums lemmas |
| CartModel.SumsOfEmpty | script.js:69-73 | the total and the badge count of the empty cart are both 0 |
| CartModel.TotalExample | script.js:69 | lines of 10.00 x 2 and 5.50 x 1 total 25.50 (2550 fils) |
| CartModel.SumAppend | script.js:69 | the `reduce` fold of a concatenation is the sum of the two folds |
| CartModel.SumSplit | script.js:69 | the fold is the fold before line i, plus line i's term, plus the fold after it |
| CartModel.SumUpdate | script.js:69 | replacing one line changes the fold by the new line's term minus the old line's term |
| CartModel.AddedExistingSums | script.js:46-73 | for any cart, incrementing the first line with the id raises the total by that line's price and the badge count by 1 |
| CartModel.AddedNewSums | script.js:49-73 | appending a new product raises the total by its price and the badge count by 1 |
| CartModel.RemovedSums | script.js:56-73 | when ids are unique, removing the id of line i lowers the total by price * qty and the badge count by qty |
| CartModel.QtyChangedSums | script.js:61-73 | for any cart, a change that keeps the first line with the id moves the total by price * delta and the badge count by delta |
| CartModel.ItemCountBounds | script.js:73 | when every quantity is at least 1, the badge count is at least the number of lines, and it is 0 exactly when the cart is empty |
| CartModel.RunAppend | script.js:152-155 | two batches of clicks, one after the other, give the same cart as the joined batch, with commands applied in call order |
| CartModel.Apply | script.js:153-155 | one click applies its command's mutator, and each of the three keeps the cart invariant |
| CartModel.Run | script.js:152-155 | the commands are applied one at a time in call order, and every sequence of add, remove and change-quantity commands keeps the cart invariant |
| CartStore.Store.constructor | script.js:39 | the store starts with the cart read at start-up and with the page's catalog |
| CartStore.Store.AddToCart | script.js:46-54 | the new cart is `Added` of the old cart; the invariant is kept if it held |
| CartStore.Store.RemoveFromCart | script.js:56-59 | the new cart is `Removed` of the old cart; the invariant is kept if it held |
| CartStore.Store.ChangeQty | script.js:61-67 | the method updates the line in place and then calls `RemoveFromCart` when the quantity is not positive; the resulting cart is `QtyChanged` of the old cart; the invariant is kept if it held |
| CartStore.Store.Handle | script.js:152-155 | one click command runs its mutator, so the new cart is `Apply` of the old cart; the invariant is kept if it held |
| CartStore.Store.FinishCheckout | script.js:187-189 | when the e-mail is sent, the cart becomes empty; when sending fails, the cart stays exactly as it was |

## Left out

- Persistence (`saveCart`, and reading `localStorage` with `JSON.parse` at line 39) is foreign library I/O. The stored cart is the constructor's argument. The model has no stored copy, so it does not capture the following:
  - the save that follows every mutation;
  - that `changeQty` on an absent id returns before saving;
  - that malformed stored data throws.
- Decimal prices and `toFixed(2)` formatting: prices are integer fils. The limits of JavaScript number precision are not modelled.
- `delta` comes from `Number(...)` on a DOM attribute and could be `NaN`. The model takes `delta` as an integer.
- `loadProductsFromHTML` (DOM scraping and `parseFloat`): the catalog is a constant given to the constructor.
- `updateCartUI` is HTML rendering. Only its item count (line 73) is modelled, as `ItemCount`.
- The menu toggle, the URL highlighting handlers and the card navigation in the click handler (lines 157-160) are DOM and timer wiring.
- The click handler matches CSS classes, and one element could match more than one of them. The model treats one click as exactly one command.
- The EmailJS submission and the order-details text are third-party asynchronous I/O. The dispatch result is a parameter of `FinishCheckout`.
