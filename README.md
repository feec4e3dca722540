# Shopping cart with a free gift — a Dafny model

This project models the state logic of a single-page shopping cart
(`src/App.js`). The component keeps three state cells:

- `quantities`: a pending count per catalog product, the amount the user
  intends to add next;
- `cart`: the line items `{id, name, price, quantity}`;
- `giftMessage`: the congratulation shown while the free gift is in the cart.

Its handlers adjust a count, add the pending count to the cart, edit a
line's quantity and remove a line. An effect keyed on the cart grants the
free gift once the subtotal reaches the threshold and withdraws it once the
subtotal falls below. The subtotal leaves the gift out.

Layout:

- `catalog.dfy`, module `Catalog`: the configuration the component imports
  from its data file: products, the gift and the threshold. That file is not
  part of this model. Here it is a parameter `Config`. The only assumption
  is that the gift's id is not a catalog id. Prices and the threshold are
  `nat`.
- `selector.dfy`, module `Selector`: the initial counts and the clamped
  adjustment.
- `cart.dfy`, module `CartEngine`: the cart operations as pure functions
  over `seq<LineItem>`, the gift reconciliation, and the lemmas about them.
- `shop.dfy`, module `Shop`: class `App`. It holds the three state cells as
  fields. Each handler is a method. A handler that replaces the cart ends by
  running the gift effect (`RunGiftEffect`), so every state seen between
  handlers satisfies `Valid()`:
  - the counts are non-negative and cover the catalog;
  - cart ids are distinct and every quantity is at least one;
  - the gift line is exactly `{...gift, quantity: 1}`;
  - the gift is present exactly when the subtotal is at least the threshold;
  - the message is the congratulation exactly when the gift is present.

  Three client methods replay an end-to-end run with a threshold of 500:
  - select two units of a product priced 300;
  - add them, which brings the gift;
  - try to remove the gift, which is refused;
  - lower the line to one unit, which withdraws the gift.

Points where the behaviour is easy to misread:

- The quantity edit does not refuse the gift's id; only the user interface
  hides the buttons for the gift line. The pure `UpdateQuantity` therefore
  accepts the gift id, and `UpdateQuantityReachesGift` shows that it then
  moves the gift's quantity to 2. The class method `UpdateCartQuantity`
  takes the user interface's restriction as a precondition.
- "Gift present exactly when subtotal ≥ threshold" does not hold for every
  cart. It holds once the effect has run. The model states it about
  `ReconcileGift`'s result and about the class invariant.
- The effect also runs when the component mounts. With a threshold of 0,
  the gift is in the cart from the start. The constructor models this.
- Changing a selector count does not replace the cart, so the effect does
  not run then.

## Model

| member | source | states |
|---|---|---|
| `Selector.InitialQuantities` | src/App.js:8-13 | the initial selector has exactly the catalog ids as keys, each mapped to 0 |
| `Selector.AdjustQuantity` | src/App.js:43-47 | the adjusted count is `old + delta` when that is non-negative and 0 otherwise; it is never negative; every other id and the key set are unchanged; non-negativity of all counts is preserved |
| `Selector.AdjustClampsAtZero` | src/App.js:45 | "-" on a count of 0 leaves the selector unchanged |
| `Selector.AdjustUndo` | src/App.js:43-47 | raising a count by d and lowering it by d restores the selector; lowering first does not when the clamp cut in |
| `Selector.ResetQuantity` | src/App.js:69 | after a successful add the product's count is 0 and every other count is unchanged |
| `CartEngine.Filter` | src/App.js:81 | `filter` never lengthens; it returns its input when every line is kept and something strictly shorter when some line is dropped |
| `CartEngine.FilterMembers` | src/App.js:81 | the kept lines are exactly the input lines satisfying the condition |
| `CartEngine.FilterDistinct` | src/App.js:81 | filtering keeps ids distinct |
| `CartEngine.FilterAppend` | src/App.js:81 | filtering a concatenation filters each part, so relative order is kept |
| `CartEngine.WithoutId` | src/App.js:37 | filtering out an id leaves every other id's presence unchanged; it is the identity when the id is absent and shortens the cart when it is present; distinct ids stay distinct |
| `CartEngine.WithoutIdMembers` | src/App.js:37 | after filtering out an id no line carries it, and the remaining lines are exactly the lines of other ids |
| `CartEngine.WithoutIdAt` | src/App.js:88 | in a cart with distinct ids, filtering out the id at position k yields the cart without position k, other lines in order |
| `CartEngine.Sum` | src/App.js:25 | the price×quantity total of lines with positive quantities is non-negative |
| `CartEngine.SumAppend` | src/App.js:25 | the total of a concatenation is the sum of the totals |
| `CartEngine.Subtotal` | src/App.js:22-26 | the subtotal of a cart with positive quantities is non-negative |
| `CartEngine.SubtotalIsPricedTotal` | src/App.js:22-26 | filter-then-reduce equals a direct walk that adds price×quantity for every line whose id is not the gift's and 0 for gift lines |
| `CartEngine.SubtotalAppend` | src/App.js:22-26 | the subtotal of a concatenation is the sum of the subtotals |
| `CartEngine.SubtotalIgnoresGift` | src/App.js:22-26 | appending the gift line, or filtering every gift line out, leaves the subtotal unchanged |
| `CartEngine.SubtotalRequantify` | src/App.js:22-26 | setting one non-gift line's quantity replaces its old amount by its new amount in the subtotal |
| `CartEngine.SubtotalGrow` | src/App.js:22-26 | raising one non-gift line's quantity by g raises the subtotal by price×g |
| `CartEngine.ReconcileGift` | src/App.js:29-40 | the subtotal is unchanged. Afterwards the gift is present exactly when the subtotal is ≥ threshold (inclusive). At or above the threshold with no gift, the cart gets one gift line with quantity 1 at the end and the message is the congratulation. Below it with a gift, every gift line is filtered out and the message is "". Otherwise nothing changes |
| `CartEngine.ReconcileIdempotent` | src/App.js:29-40 | running the reconciliation on its own result changes neither cart nor message |
| `CartEngine.ReconcileFixpoint` | src/App.js:33-39 | the reconciliation leaves cart and message unchanged if and only if gift presence already matches the threshold test |
| `CartEngine.ReconcileSettles` | src/App.js:29-40 | from distinct ids, positive quantities, an intact gift line and a message in step with it, the reconciliation reaches a settled cart (all of those plus gift presence matching the threshold) |
| `CartEngine.ReconcileRemovesAt` | src/App.js:36-38 | below the threshold, with distinct ids and the gift at position k, the result is the cart without position k, in order, and the message is "" |
| `CartEngine.Merge` | src/App.js:58-62 | the merging `map` keeps length and every line's id |
| `CartEngine.AddLine` | src/App.js:52-66 | a zero quantity changes nothing. A new product is appended at the end as `{...product, quantity}`. An existing product keeps the cart's length. The set of ids present grows by exactly the product's id. Lines of other ids all come from the old cart. Distinct ids stay distinct. Positive quantities stay positive for a non-negative amount |
| `CartEngine.AddMergesExisting` | src/App.js:55-63 | with distinct ids, adding to the product's line at k is a point update: that line's quantity grows by the amount; all other lines and the length are unchanged |
| `CartEngine.AddLineSubtotal` | src/App.js:22-26 | adding q units of a non-gift product whose lines carry its price raises the subtotal by price×q, merged or appended |
| `CartEngine.Clamp` | src/App.js:76-80 | the clamping `map` keeps length and ids; lines of other ids are unchanged; every line of the target id has quantity ≥ 1; distinct ids stay distinct |
| `CartEngine.UpdateQuantity` | src/App.js:73-83 | after the edit every quantity is ≥ 1; lines of other ids all come from the old cart; on a cart of positive quantities the final filter drops nothing, so the result is the clamped map; distinct ids stay distinct |
| `CartEngine.UpdateQuantityInPlace` | src/App.js:73-83 | on positive quantities: the length is kept; target lines get `max(1, quantity + delta)`; other lines are unchanged; the set of ids present is unchanged |
| `CartEngine.UpdateQuantityAt` | src/App.js:76-81 | with distinct ids and positive quantities, editing the line at k is a point update of that line to `max(1, quantity + delta)` |
| `CartEngine.UpdateHoldsAtFloor` | src/App.js:78 | a line at quantity 1 is left unchanged by any decrement; the edit never removes it |
| `CartEngine.UpdateQuantitySubtotal` | src/App.js:73-83 | editing a non-gift line replaces its old amount by price×`max(1, quantity + delta)` in the subtotal |
| `CartEngine.UpdateQuantityReachesGift` | src/App.js:73-83 | the edit does not refuse the gift id: +1 on a cart holding only the gift line gives the gift quantity 2 |
| `CartEngine.RemoveLine` | src/App.js:86-89 | the gift id and any absent id leave the cart unchanged. For any other id, no line with that id remains and the remaining lines are exactly the old lines with other ids. Every other id's presence is unchanged. Distinct ids stay distinct |
| `CartEngine.RemoveLineAt` | src/App.js:86-89 | with distinct ids, removing the non-gift line at k yields the cart without position k, other lines in order |
| `Shop.App.constructor` | src/App.js:8-19 | the component starts with every catalog count at 0, then runs the gift effect once on the empty cart with message ""; the result satisfies the invariant |
| `Shop.App.RunGiftEffect` | src/App.js:29-40 | the effect's branches write exactly `ReconcileGift` of the old cart and message, reach a settled cart and leave the selector alone |
| `Shop.App.HandleQuantityChange` | src/App.js:43-47 | only the selector changes, to the clamped adjustment; cart and message are unchanged; the invariant is kept |
| `Shop.App.AddToCart` | src/App.js:51-70 | with a pending count of 0 nothing changes. Otherwise the selector entry is reset to 0, and cart and message become the reconciliation of the merged-or-appended cart. The invariant is kept |
| `Shop.App.UpdateCartQuantity` | src/App.js:73-83 | for a non-gift id, cart and message become the reconciliation of the edited cart; the selector is unchanged; the invariant is kept |
| `Shop.App.RemoveFromCart` | src/App.js:86-89 | the gift id changes nothing. Any other id makes cart and message the reconciliation of the filtered cart. The selector is unchanged and the invariant is kept |
| `Shop.SelectScenario` | src/App.js:43-47 | from a fresh component, three "+" and one "-" give a count of 2 with an empty cart and no message |
| `Shop.EarnGiftScenario` | src/App.js:29-70 | adding those two units priced 300 (600 ≥ 500) gives the cart [headphones×2, gift] with the congratulation, and the selector back at 0 |

## Left out

- Rendering, buttons and the stylesheet import (src/App.js:4, 94-173): user interface, not state logic.
- The progress percentage at src/App.js:92: it uses floating-point division and is only displayed.
- The "Add ₹X more" text at src/App.js:127: display only.
- React scheduling: when `useState` and `useEffect` run, and the stale `cart` a handler closes over when two updates are batched. Each handler is modelled as one synchronous step, followed by the effect when it replaces the cart.
- The data file that provides `PRODUCTS`, `FREE_GIFT` and `THRESHOLD` is not part of this model. They are the parameter `Config`. Product ids are modelled as `int`, since the code only compares them for equality.
- JavaScript numbers are doubles. The model uses unbounded integers, so rounding and precision loss for very large amounts are not modelled.
- Shop.App.HandleQuantityChange: requires the id to be a selector key. For any other id the code computes `undefined + delta`, which is `NaN`, and stores it. The model does not describe that state.
- Shop.App.AddToCart: requires the product to be a catalog product. The buttons only offer catalog products, and for another product the selector lookup is `undefined`.
- Shop.App.UpdateCartQuantity: requires the id not to be the gift's. The code accepts the gift id, but the user interface shows no quantity buttons for the gift line (src/App.js:151). The unrestricted behaviour is modelled by `CartEngine.UpdateQuantity`, and `CartEngine.UpdateQuantityReachesGift` shows what it does to the gift.
- CartEngine.AddLineSubtotal: requires the cart's lines for the product to carry the product's price. The catalog is not assumed to have distinct ids, so this is not derived from the invariant.
- The congratulation text is kept as the literal string of the code. No property depends on its wording, only on it being non-empty.
