# Shopping cart of the phone storefront, in Dafny

This project models the shopping-cart aggregate of the storefront's web client
and the checkout step that turns the cart into an order.

- `wrappers.dfy` (module `Wrappers`): `Option` and `Result`.
- `cart_context.dfy` (module `CartContext`): the cart as an ordered sequence of
  line items keyed by product id. `addToCart`, `updateCartItemQuantity` and
  `removeFromCart` are modelled as pure transforms (`AddItem`, `UpdateQuantity`,
  `Remove`), following the source's `find`/`map`/`filter` expressions. Lemmas
  characterise each transform element by element. The `cart` state cell becomes
  the class `CartStore`. Its `seq` field is replaced by each method, just as
  `setCart` replaces the array. The class invariant is that no two lines share
  an id.
- `cart_page.dfy` (module `CartPage`): `calculateTotal` is a left fold that
  copies the source's `reduce`. It is proved equal to a reference sum of price ×
  quantity. `BuildOrder` models the total guard and the payload. The class
  `CheckoutPage` holds the page's form state, and its method `PlaceOrder` runs
  the submit handler against an abstract order service.

Prices are integers in the smallest currency unit. `None` stands for the NaN
that `parseFloat` returns on an unreadable price. NaN propagates through the
sum, as it does in JavaScript, so one unreadable price makes the total NaN.

The model follows the code, not the product's stated invariant
`1 <= quantity <= stock`. That invariant holds only for stock of at least 1:

- A new line is appended with quantity 1 whatever the stock, so stock 0 gives
  quantity 1. A second add then sets it to `min(2, 0) = 0` (`AddRepeated`).
- The merge clamp uses the stock of the product passed in, not the stored copy.
  It can therefore lower an existing quantity, or make it 0 or negative.
- The quantity update clamps with the stored stock. `Math.max(1, …)` wins, so
  the result is always at least 1, even when the stock is 0.

A stricter cart would reject an add with stock 0, or give it quantity 0. The
code does neither, and the model follows the code.

## Model

| member | source | states |
|---|---|---|
| `CartContext.FindFound` | src/context/CartContext.jsx:11 | `find` returns a line exactly when some line has the id, and the line it returns carries that id and is in the cart |
| `CartContext.BumpAt` | src/context/CartContext.jsx:13-17 | the merging `map` keeps the length, and each line becomes its merged form: `min(quantity + 1, product.stock)` if its id matches, unchanged otherwise |
| `CartContext.AddAbsent` | src/context/CartContext.jsx:11-19 | adding an absent id appends exactly one line at the end, with the product's fields and quantity 1 whatever its stock; earlier lines unchanged |
| `CartContext.AddPresent` | src/context/CartContext.jsx:11-17 | adding a present id keeps length and order; that line's quantity becomes `min(old + 1, product.stock)`, its other fields stay, every other line is unchanged |
| `CartContext.AddKeepsUnique` | src/context/CartContext.jsx:9-21 | `addToCart` never creates two lines with the same id |
| `CartContext.AddWithinStock` | src/context/CartContext.jsx:15-19 | with `product.stock >= 1`, after an add every line with that id holds at most `product.stock` |
| `CartContext.AddAtStock` | src/context/CartContext.jsx:15 | once a line's quantity equals the product's stock, adding the product again leaves the cart unchanged |
| `CartContext.AddToLast` | src/context/CartContext.jsx:12-17 | adding a product whose only line is the last one changes only that line's quantity, to `min(quantity + 1, stock)` |
| `CartContext.AddRepeated` | src/context/CartContext.jsx:9-21 | `n >= 1` adds of an absent product give one new line at the end, with quantity 1 after one add and `min(n, stock)` after more (so 0 for stock 0) |
| `CartContext.AddConverges` | src/context/CartContext.jsx:15-19 | with stock at least 1, repeated adds keep the line in `[1, stock]` and reach the stock after `stock` adds |
| `CartContext.Clamp` | src/context/CartContext.jsx:27 | the clamped quantity is always at least 1; with stock at least 1 it is the request limited to `[1, stock]`; with stock below 1 it is 1 |
| `CartContext.UpdateAt` | src/context/CartContext.jsx:23-31 | the update keeps the length and order; lines with the id get `Clamp(n, own stored stock)`, their other fields stay, all other lines are unchanged |
| `CartContext.UpdateBounds` | src/context/CartContext.jsx:27 | after an update, each updated line holds at least 1, and at most its stock when that stock is at least 1 |
| `CartContext.UpdateAbsent` | src/context/CartContext.jsx:24-30 | updating an absent id is a no-op |
| `CartContext.UpdateKeepsUnique` | src/context/CartContext.jsx:24-30 | updates never create duplicate ids |
| `CartContext.RemoveMembers` | src/context/CartContext.jsx:34 | the result has no line with the id, and holds exactly the cart's lines with other ids |
| `CartContext.RemoveAppend` | src/context/CartContext.jsx:34 | removal distributes over concatenation, so the remaining lines keep their relative order |
| `CartContext.RemoveAbsent` | src/context/CartContext.jsx:34 | removing an absent id is a no-op |
| `CartContext.RemoveAt` | src/context/CartContext.jsx:33-35 | in a cart without duplicates, removing line `k`'s id gives `cart[..k] + cart[k+1..]` |
| `CartContext.RemoveKeepsUnique` | src/context/CartContext.jsx:34 | removal never creates duplicate ids |
| `CartContext.CartStore.constructor` | src/context/CartContext.jsx:7 | the cart starts empty |
| `CartContext.CartStore.AddToCart` | src/context/CartContext.jsx:9-21 | the new cart is `AddItem` of the old one; no id is duplicated |
| `CartContext.CartStore.UpdateCartItemQuantity` | src/context/CartContext.jsx:23-31 | the new cart is `UpdateQuantity` of the old one; no id is duplicated |
| `CartContext.CartStore.RemoveFromCart` | src/context/CartContext.jsx:33-35 | the new cart is `Remove` of the old one; no id is duplicated |
| `CartContext.CartStore.ClearCart` | src/context/CartContext.jsx:37-39 | whatever it held, the cart becomes empty |
| `CartPage.ReduceNaN` | src/pages/CartPage.jsx:22 | once the running sum is NaN, the fold's result is NaN |
| `CartPage.ReduceSum` | src/pages/CartPage.jsx:22 | starting from `acc`, the fold gives `acc` plus the sum of price × quantity if every price reads, NaN otherwise |
| `CartPage.TotalIsSum` | src/pages/CartPage.jsx:21-23 | `calculateTotal` is the sum of price × quantity over the cart, or NaN; it is 0 for the empty cart |
| `CartPage.TotalAfterAddNew` | src/pages/CartPage.jsx:21-23 | after adding a new product, the total rises by exactly its price, or becomes NaN if a price is unreadable |
| `CartPage.AmountPositive` | src/pages/CartPage.jsx:29 | a non-empty cart whose prices and quantities are all at least 1 has a total of at least 1 |
| `CartPage.LinesAt` | src/pages/CartPage.jsx:34 | the payload's `products` has the cart's length and order; entry `i` is `{product: cart[i]._id, quantity: cart[i].quantity}` |
| `CartPage.BuildOrderSpec` | src/pages/CartPage.jsx:28-37 | no order is built if and only if a price is NaN or the total is `<= 0` (so never for an empty cart); otherwise the payload's total is `calculateTotal()`, its lines mirror the cart, and it carries the form fields |
| `CartPage.PositiveCartBuilds` | src/pages/CartPage.jsx:28-31 | a non-empty cart with all prices and quantities at least 1 passes the total guard |
| `CartPage.CheckoutPage.constructor` | src/pages/CartPage.jsx:8-15 | the page starts with empty form fields and the order form hidden |
| `CartPage.CheckoutPage.PlaceOrder` | src/pages/CartPage.jsx:25-53 | if the guard fails: nothing is sent, a failure is shown, and cart and form are unchanged. Otherwise the built payload is sent. On success the cart is emptied and the form closed. On failure the cart and form stay exactly as they were and a failure is shown |

## Left out

- Floating-point arithmetic: prices are exact integers in the smallest currency unit. `parseFloat` is modelled only as readable (`Some`) or NaN (`None`). Rounding, `Infinity` and `toFixed` formatting are not modelled.
- `Clamp` and `UpdateQuantity`: the requested quantity is an integer. A fractional or non-numeric value (JavaScript's `Math.min` would pass it through or give NaN) is not modelled.
- `createOrder` (src/utils/api.js) is a remote REST call. It is a function parameter that says whether the request succeeded. Its response body, the logging of `error.response`, network failures as distinct cases, and the `await` suspension are not modelled.
- `alert` and `console` output: the alert becomes the returned `Notice`. Console logging is dropped.
- `handleInputChange` and the HTML `required` attributes on the order form are browser form binding. The form fields are a value held by `CheckoutPage`, and no field validation is modelled. The buttons that open and cancel the form are presentation.
- React mechanics: context providers, `useCart`, re-rendering, and the updater-function form of `setCart`. Each update is modelled as one atomic replacement of the store's sequence.
- The single-product order of src/pages/HomePage.jsx:36-59 is not modelled. It sends `quantity: 1` and `total = parseFloat(price)` with no total guard, which is an unvalidated variant of `PlaceOrder`.
- The admin pages, the admin order list's filter-after-delete (the same shape as `Remove`), the product card, the navbar, and the constant dummy user are UI or network pass-through with no local logic.
