# Food-ordering storefront: page rules in Dafny

This project models the small amount of logic that sits inside three page
components of a Next.js food-ordering storefront. The rest of those
components is rendering.

- **Checkout page** (`Checkout`).
  - Charges: a flat delivery fee of 40 for delivery and 0 for takeaway.
    Tax is 5% of the subtotal only. The total is subtotal + tax + fee.
  - Validation before an order is sent, first failure wins: name and
    phone first, then the address, for delivery orders only.
  - The order request built from the form and the cart lines.
  - The page state, modelled as the class `CheckoutPage`. It holds the
    contact form, the order type (initially takeaway), the `loading` flag
    and the cart read from the store. Its methods are the page's
    handlers:
    - `handleInputChange`;
    - the profile pre-fill effect;
    - the order-type buttons, which are not rendered for a canteen;
    - `handleSubmitOrder`, which empties the cart only when the order
      service reports success.
- **Canteen page** (`Canteen`).
  - The per-item quantity selector: a map clamped to 1..10, where a
    missing entry reads as 1. It is modelled as the class `CanteenPage`.
  - The cart line built by "Add to Order", after which that item's
    selector goes back to 1.
  - The split of the menu into Snacks and Beverages, keeping menu order.
  - The image slug: the name lower-cased, with each whitespace run
    turned into one `-`.
  - The fallback emoji for a beverage picture.
- **Home page** (`Home`).
  - Keep only the first six restaurants, and only when the reply is an
    array.
  - The three-tier choice of a restaurant picture: its own URL, else a
    bundled file for three named restaurants, else a default URL.

Amounts are exact: money is Dafny `real`, in rupees. The subtotal is a
parameter, because the cart store that computes it
(`src/store/cartStore`) is not part of this model. `Common` holds
`Option` and the JavaScript idiom `x || ''`. `Text` holds ASCII
whitespace, ASCII lower-casing and `includes`. `Cart` holds the cart-line
record that the pages exchange with the store.

Three behaviours of the code that are easy to misread:

- `handleSubmitOrder` does not check for an empty cart. The page
  redirects to `/cart` while rendering
  (src/app/checkout/page.tsx:124-127), so `CheckoutPage.SubmitOrder` does
  not check it either.
- The pre-fill never checks `res.ok`. An error reply such as
  `{ error: 'User not found' }` (src/app/api/profile/route.ts:29) is a
  truthy object, so the pre-fill runs with every profile field absent.
  That blanks name, phone and address and sets the session email.
  `PreFilled` models this with a `ProfileData` whose fields are all
  `None`.
- A reply whose `success` is truthy but that carries no `order` object
  empties the cart (`clearCart()` runs first) and then throws when
  `data.order.order_id` is read, so the page shows its error message and
  stays put with an empty cart. `OrderReply.AcceptedWithoutOrder` models
  this reply.

## Model

| member | source | states |
|---|---|---|
| `Checkout.DeliveryFee` | src/app/checkout/page.tsx:30 | the fee is 40 exactly for delivery and 0 exactly for takeaway |
| `Checkout.ComputeCharges` | src/app/checkout/page.tsx:30-32 | tax is one twentieth of the subtotal alone; the fee is the order type's; total = subtotal + tax + fee |
| `Checkout.DeliveryCostsFortyMore` | src/app/checkout/page.tsx:30-32 | for the same subtotal, delivery and takeaway pay the same tax, and the delivery total is the takeaway total plus 40 |
| `Checkout.ChargesFor250` | src/app/checkout/page.tsx:30-32 | a 250 subtotal gives tax 12.5, with total 302.5 for delivery and 262.5 for takeaway |
| `Checkout.WithField` | src/app/checkout/page.tsx:66-71 | the named field takes the new value and every other field keeps its value |
| `Checkout.PreFilled` | src/app/checkout/page.tsx:40-60 | notes are never changed; a failed fetch changes only the email; a null body changes nothing; a body sets name, phone and address (an absent value gives '') and the session email |
| `Checkout.Validate` | src/app/checkout/page.tsx:74-83 | an empty name or phone gives the required-fields error, whatever the address; otherwise an empty address on a delivery order gives the address error; the form passes exactly when name and phone are non-empty and a delivery order has an address |
| `Checkout.TakeawayIgnoresAddress` | src/app/checkout/page.tsx:80-83 | a takeaway order gets the same verdict whatever its address |
| `Checkout.ToOrderItems` | src/app/checkout/page.tsx:99-103 | one item per cart line, same length and order, each copying the line's id, quantity and price |
| `Checkout.BuildRequest` | src/app/checkout/page.tsx:91-104 | contact fields, notes, restaurant id and order type are copied; an address is sent exactly for delivery orders (null otherwise); the items match the cart line by line |
| `Checkout.CheckoutPage.constructor` | src/app/checkout/page.tsx:18-27 | the form starts empty, the order type starts as takeaway, `loading` starts false |
| `Checkout.CheckoutPage.Summary` | src/app/checkout/page.tsx:29-32 | the shown charges are those of the current order type, and a canteen cart pays no delivery fee |
| `Checkout.IsCanteen` | src/app/checkout/page.tsx:29 | a missing restaurant name is not a canteen; a present one is exactly when 'Canteen' occurs in it |
| `Checkout.CheckoutPage.SelectOrderType` | src/app/checkout/page.tsx:151-192 | the buttons set the order type, except for a canteen cart, which stays takeaway |
| `Checkout.CheckoutPage.HandleInputChange` | src/app/checkout/page.tsx:66-71 | only the named field of the form changes |
| `Checkout.CheckoutPage.PreFill` | src/app/checkout/page.tsx:33-63 | only a signed-in user's form is pre-filled, and its notes are kept |
| `Checkout.CheckoutPage.SubmitOrder` | src/app/checkout/page.tsx:73-122 | an invalid form sends nothing and changes nothing; otherwise one request is built from the form and cart; the order counts as placed exactly when the service accepts it with an order; the cart is emptied exactly when the reply's `success` is truthy, including a reply without an order that then falls into the error path; `loading` ends false after a send |
| `Canteen.Clamp` | src/app/canteen/page.tsx:82 | the result lies in 1..10: values in range are kept, lower ones become 1, higher ones 10 |
| `Canteen.Selected` | src/app/canteen/page.tsx:81 | an item without an entry, or with a 0 entry, reads as 1; any other entry reads as itself; with all entries in 1..10 the read value lies in 1..10 |
| `Canteen.CanteenPage.constructor` | src/app/canteen/page.tsx:23-26 | the selector map starts empty |
| `Canteen.CanteenPage.UpdateQuantity` | src/app/canteen/page.tsx:80-84 | the item's entry becomes clamp(shown + delta) in 1..10, and no other item's shown quantity changes |
| `Canteen.CanteenPage.AddToCart` | src/app/canteen/page.tsx:56-78 | the line carries the shown quantity (1 when unset), the item's fields, the canteen id and the name 'NSUT Canteen'; then only that item's selector is reset to 1 |
| `Canteen.InCategory` | src/app/canteen/page.tsx:87-88 | the result holds exactly the menu items of the given category, and every item in it has that category |
| `Canteen.InCategoryAppend` | src/app/canteen/page.tsx:87-88 | filtering a concatenation gives the two filtered parts in the same order, so menu order is kept |
| `Canteen.Snacks` | src/app/canteen/page.tsx:87 | the snacks group holds exactly the menu items whose category is 'Snacks' |
| `Canteen.Beverages` | src/app/canteen/page.tsx:88 | the beverages group holds exactly the menu items whose category is 'Beverages' |
| `Canteen.GroupsPartition` | src/app/canteen/page.tsx:87-88 | snacks and beverages share no item; an item of another category or of none is in neither; together they are no longer than the menu |
| `Canteen.CollapseFrom` | src/app/canteen/page.tsx:178 | the collapsed text holds no whitespace, is no longer than the input, and has no upper-case letter unless the input does |
| `Canteen.CollapseNoSpace` | src/app/canteen/page.tsx:178 | text without whitespace is left unchanged |
| `Canteen.CollapseSpacesRun` | src/app/canteen/page.tsx:178 | one maximal whitespace run between two parts becomes exactly one '-', and the two parts are collapsed independently |
| `Canteen.Slug` | src/app/canteen/page.tsx:178 | the slug holds no whitespace and no upper-case letter, and is no longer than the name |
| `Canteen.SlugIdempotent` | src/app/canteen/page.tsx:178 | slugging a slug gives the same slug |
| `Canteen.ImagePath` | src/app/canteen/page.tsx:280 | the picture path is the slug between /images/canteen/ and a .jpg suffix, and holds no whitespace |
| `Canteen.FallbackEmoji` | src/app/canteen/page.tsx:285 | a name containing 'Tea' gets ☕, even when it also contains 'Coffee'; else 'Coffee' gets 🧋; anything else gets 🥤 |
| `Canteen.CanteenLinesAreCanteen` | src/app/canteen/page.tsx:65 | a line added from the canteen names a restaurant that the checkout page treats as a canteen, so it is takeaway only |
| `Home.KeptRestaurants` | src/app/page.tsx:45-46 | an array reply keeps its first min(6, length) restaurants, as a prefix in order; any other reply leaves the list as it was |
| `Home.ShortListKept` | src/app/page.tsx:46 | an array of at most six restaurants is kept whole |
| `Home.ImageFor` | src/app/page.tsx:334-343 | a non-empty image_url wins whatever the name; without one, the three named restaurants get their bundled files and every other restaurant gets the default URL; the result is never empty |
| `Text.LowerChar` | src/app/canteen/page.tsx:178 | an upper-case ASCII letter becomes its lower-case letter, any other character is kept, and whitespace stays whitespace |
| `Text.Lower` | src/app/canteen/page.tsx:178 | the result has the input's length and lower-cases it character by character |
| `Common.OrEmpty` | src/app/checkout/page.tsx:46-49 | an absent value gives the empty string and a present one is kept |
| `Text.Contains` | src/app/checkout/page.tsx:29 | `includes` holds exactly when the text occurs at some position |

## Left out

- The cart store (`src/store/cartStore`) is not part of this model. That
  covers `addItem` merging and clamping, the cross-restaurant policy,
  `getTotalPrice`, `getTotalItems` and persistence. The subtotal is a
  parameter, and cart lines are inputs or outputs.
- `CheckoutPage.SubmitOrder` models `clearCart()` as emptying the lines
  and dropping the restaurant id and name. That store's code is not part
  of this model. A reply with an `order` object but no `order_id` (which
  navigates to `orderId=undefined`) is not distinguished from `Accepted`.
- Network calls are left out: `fetch` of restaurants, menus, the profile
  and orders. Their replies are parameters (`RestaurantsBody`,
  `ProfileReply`, `OrderReply`). The menu load (taking the first canteen
  returned) is left out; `CanteenPage` starts from an already-loaded
  canteen id and menu.
- Navigation is left out: `router.push`, `router.back` and the redirect of
  an empty cart to `/cart`. A placed order's id is returned in the
  outcome instead of navigating.
- Toast notifications are left out. The validation errors and outcomes
  are datatype values instead of messages.
- Rendering, animation and the `img` `onError` handlers that rewrite the
  DOM are left out. Only the emoji choice is modelled.
- Asynchrony is left out. `loading` is a plain boolean. Each handler runs
  to completion. The stale `formData` closure in `handleInputChange`
  versus the functional update in the pre-fill is not modelled.
- Floating point is left out, and so is `toFixed` display formatting.
  Amounts are exact reals. Quantities and deltas are integers.
- Unicode `toLowerCase` and `\s` are left out. Lower-casing covers ASCII
  letters only. Whitespace is space, tab, line feed, vertical tab, form
  feed and carriage return.
- The profile API route, the profile, restaurant and layout pages, the
  navigation bar and the session type declarations are left out. They
  hold session handling, database access and rendering only.
