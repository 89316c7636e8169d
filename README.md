# GigaBites storefront — a Dafny model of its core

GigaBites is a React storefront for a shop selling computer parts. Products live in
a `products` collection and the current session's cart lives in a `carts` document,
both in Firestore. The storefront component (`App.jsx`) holds the loaded products and
the cart lines. Adding to the cart reserves stock: the product's stock goes down and
the cart line's quantity goes up. Removing a line gives the stock back. Checkout
checks every line against the loaded products. Two Redux slices keep a product list
(with a search filter and a sort) and a cart list (with a count and a total). The
views compute their own order summaries, each with its own tax and shipping rule:

- The storefront's checkout charges 10% tax and a flat 10 shipping.
- The cart page charges 8% tax and 9.99 shipping unless the subtotal is above 100.
- The cart drawer charges 8% tax and no shipping.

The product modal keeps its quantity selector in a reducer. The product grid shows
one card per stored product. The product form validates its inputs and hands the
storefront the data for a new or an edited product.

The model is one Dafny module per source file, plus three support modules:

- `Wrappers`: `Option` and `Result`.
- `Js`: the JavaScript semantics the code relies on. This covers truthiness, `trim`,
  `startsWith`, `includes`, `toLowerCase`, radix-10 `parseInt`/`parseFloat` and the
  order of strings.
- `Entities`: products, cart lines, `find`/`findIndex`, `filter` and sums.

The two Firestore collections become classes whose fields the operations update in
place:

- `ProductService.ProductStore` holds a map from document id to document.
- `CartService.CartStore` holds the cart document, which may not exist yet.

The storefront's React state is the class `App.Storefront`. The slices are the
classes `ProductsSlice.ProductsState` and `CartSlice.CartState`, with one method per
reducer case. The form's state is `ProductForm.FormState`. Pure computations are
functions: the selectors, the reducer of the modal, the order summaries and the
validation rules. The properties relating them are lemmas. Money is `real`. An empty
string stands for a missing id or name, and a quantity of 0 stands for a missing
quantity, which is what the code's `||` defaults test for.

## Model

| member | source | states |
|---|---|---|
| Js.Trim | src/services/productService.js:128 | trimming never lengthens a string; the result is empty exactly when every character is white space, and otherwise starts and ends with a non-space |
| Js.TrimStartShape | src/services/productService.js:128 | trimming the start removes only a leading run of white space and keeps the rest, which starts with a non-space |
| Js.TrimEndShape | src/services/productService.js:128 | trimming the end removes only a trailing run of white space and keeps the rest, which ends with a non-space |
| Js.TrimIdempotent | src/services/productService.js:158-159 | a trimmed name or description is left unchanged by a second trim |
| Js.IncludesIff | src/store/slices/productsSlice.js:140-141 | `includes` holds exactly when the needle occurs at some offset of the haystack |
| Js.ParseIntDecimal | src/services/productService.js:140 | `parseInt` reads back the decimal text of any integer, of either sign |
| Js.ParseFloatDecimal | src/services/productService.js:136 | `parseFloat` reads back the decimal text of any natural number |
| Js.BeforeTotal | src/store/slices/productsSlice.js:152 | any two distinct names are ordered one way or the other |
| Js.BeforeTransitive | src/store/slices/productsSlice.js:152 | the order of names is transitive |
| Js.BeforeAsymmetric | src/store/slices/productsSlice.js:152 | no two names each precede the other |
| Js.LeastExists | src/App.jsx:175-187 | every non-empty set of document ids has a first one, so a name query has a first result |
| Entities.FindFirst | src/App.jsx:195 | `find`/`findIndex`: the position found satisfies the test and no earlier one does; nothing is found exactly when no element satisfies it |
| Entities.Filter | src/store/slices/productsSlice.js:139-143 | `filter` keeps exactly the elements that pass the test, and never more elements than it was given |
| Entities.FilterPartition | src/store/slices/productsSlice.js:117-122 | a filter and its complement together hold every element, each as often as before |
| Entities.RemoveById | src/App.jsx:380 | removing by id keeps exactly the lines with another id |
| Entities.RemoveByIdPartition | src/App.jsx:380 | the lines removed are exactly those with the id; with the kept lines they make up the cart |
| Entities.ItemCount | src/App.jsx:148 | the cart badge counts at least one unit per line when no quantity is negative |
| Entities.ItemCountIsSum | src/store/slices/cartSlice.js:182-183 | the badge count is the sum over the lines of `quantity \|\| 1` |
| Entities.Subtotal | src/App.jsx:310 | the subtotal of lines with non-negative prices and quantities is non-negative |
| Entities.SubtotalConcat | src/App.jsx:310 | the subtotal of two lists put together is the sum of their subtotals |
| CartService.RemoveMatching | src/services/cartService.js:176-191 | removeCartItem keeps exactly the lines whose productId and id both differ from the product's id |
| CartService.UpsertSetsQuantity | src/services/cartService.js:143-172 | after updateCartItem the product's line carries its id and exactly the quantity written; the cart grows by one line exactly when no line matched |
| CartService.UpsertKeepsOthers | src/services/cartService.js:143-158 | lines of other products are left exactly as they were |
| CartService.UpsertIdempotent | src/services/cartService.js:119-173 | writing the same quantity twice is writing it once |
| CartService.RemoveAfterUpsert | src/services/cartService.js:176-191 | removing a product after updating it leaves the cart as removing it alone would |
| CartService.CartStore.LoadCart | src/services/cartService.js:27-42 | loadCart creates an empty document when there is none and returns its items |
| CartService.CartStore.UpdateCartItem | src/services/cartService.js:119-173 | without a document one is created holding the new line; otherwise the product's line is upserted |
| CartService.CartStore.RemoveCartItem | src/services/cartService.js:176-191 | the product's lines leave the document; a missing document stays missing |
| CartService.CartStore.ClearCart | src/services/cartService.js:194-202 | the document ends up with no items |
| CartService.CartStore.ReplaceCartItems | src/services/cartService.js:205-217 | the document ends up holding exactly the given items |
| CartService.RecoverUserCarts | src/services/cartService.js:45-116 | the loop over every cart document yields the merge of all their lines, cart by cart and line by line |
| CartService.MergeCartsTotal | src/services/cartService.js:76-97 | recovery loses no units: the merged quantity is the sum of every cart's quantity |
| CartService.MergeItemTotal | src/services/cartService.js:80-96 | merging one line adds exactly its quantity to the total |
| CartService.MergeCartsUnique | src/services/cartService.js:80-96 | when every stored line names its product, recovery yields at most one line per product |
| CartService.MergeCartsIdentified | src/services/cartService.js:90-95 | every recovered line carries both an id and a productId when each stored line has one of them |
| ProductService.CheckFields | src/services/productService.js:106-161 | accepted fields are exactly the trimmed name and description, `parseFloat(price)` and `parseInt(stock)`, and so are trimmed and non-blank, with a positive price and a non-negative stock; a refusal is one of the eight field checks |
| ProductService.CheckFieldsFirstFailure | src/services/productService.js:106-142 | the service reports the first failing check in its order of checks, and accepts the data exactly when no check fails |
| ProductService.CheckFieldsAccepts | src/services/productService.js:106-142 | trimmed non-blank texts with a positive number price and a non-negative whole stock are accepted with exactly those values |
| ProductService.UpdatedImage | src/services/productService.js:240-248 | a non-blank new image is stored trimmed; a blank or null one keeps the stored image; an absent one is not written |
| ProductService.ApplyPurchasesStock | src/services/productService.js:284-312 | the batch decrement lowers each product's stock by the summed quantity of the lines naming it and keeps the set of products |
| ProductService.ProductStore.AddProduct | src/services/productService.js:101-177 | invalid data is refused with its check's error and a taken name with the duplicate error, with nothing stored; otherwise the trimmed, parsed document is stored under the new id |
| ProductService.ProductStore.UpdateProduct | src/services/productService.js:180-269 | the same checks, then an invalid reference or an unknown id is refused; otherwise the stored document takes the new fields and the kept or new image |
| ProductService.ProductStore.DeleteProduct | src/services/productService.js:272-281 | a valid id leaves the collection without it, whether or not it was there; an empty id is refused |
| ProductService.ProductStore.UpdateProductStock | src/services/productService.js:284-297 | an existing product's stock goes down by the quantity, with no lower bound; otherwise the call fails and nothing changes |
| ProductService.ProductStore.UpdateMultipleProductStocks | src/services/productService.js:299-312 | every line's decrement takes effect on the products that exist, and the batch succeeds exactly when every line names one |
| App.FirstNamedExists | src/App.jsx:175-187 | when some product has the name, a first such product exists |
| App.FirstNamedUnique | src/App.jsx:175-187 | that first product is unique |
| App.CheckoutTotalsShape | src/App.jsx:310-313 | the checkout total is 110% of the subtotal plus shipping; shipping is 10 exactly when the subtotal is positive |
| App.CheckoutTotalsMonotone | src/App.jsx:310 | adding lines with non-negative prices and quantities never lowers the subtotal |
| App.SetQuantityWhere | src/App.jsx:369-371 | every line with the id takes the new quantity and every other line stays as it was, position by position |
| App.SetQuantityWhereKeepsOthers | src/App.jsx:369-371 | a quantity edit leaves the lines of every other id as they were, in order |
| App.SetQuantityWhereIdempotent | src/App.jsx:369-371 | setting the same quantity twice is setting it once |
| App.KeyMatchesById | src/App.jsx:376 | looking a line up by an id key is the plain id test |
| App.Storefront.constructor | src/App.jsx:47-53 | no products, no cart lines, loading, an empty query and the name sort |
| App.Storefront.HandleSearch | src/App.jsx:425-427 | the query becomes the search query |
| App.Storefront.HandleSortChange | src/App.jsx:431-433 | the option becomes the sort key |
| App.Storefront.FilterProducts | src/App.jsx:126-146 | the list shown holds exactly the loaded products matching the query, as the slice's selector does, sorted as the key asks |
| App.Storefront.OnProductsSnapshot | src/App.jsx:93-99 | a snapshot becomes both the product list and the list shown, and loading ends |
| App.Storefront.OnCartSnapshot | src/App.jsx:70-72 | a cart snapshot becomes the cart lines, or none while the document is missing |
| App.Storefront.LoadInitialCart | src/App.jsx:59-67 | the cart document is created when missing and its items become the cart lines |
| App.Storefront.HandleAddToCart | src/App.jsx:160-228 | the product is resolved by id, then by the first product with its name; too little stock for the request, or for the request plus what the cart already holds, is refused with nothing written; otherwise the stock goes down by the request and the cart line holds the old quantity plus the request |
| App.Storefront.HandleRemoveFromCart | src/App.jsx:374-400 | nothing happens unless a line's id equals the key; then every line with that id leaves the list and the document, and an existing product gets `quantity \|\| 1` units back |
| App.Storefront.HandleUpdateQuantity | src/App.jsx:363-392 | a quantity of 0 or less goes to the remove handler: the lines with the id leave the list and the cart document and an existing product gets `quantity \|\| 1` units back; otherwise the lines with the id take the quantity locally and nothing is written |
| App.Storefront.HandleCheckout | src/App.jsx:289-313 | an empty cart is refused; otherwise the first line whose product is not loaded or has too little stock is reported with the stock shown; a cart that passes ends in the error notice |
| ProductsSlice.Insert | src/store/slices/productsSlice.js:144-154 | inserting a product adds exactly that product to the list's contents |
| ProductsSlice.SortBy | src/store/slices/productsSlice.js:144-154 | the sort is a permutation of its input |
| ProductsSlice.SortBySorted | src/store/slices/productsSlice.js:144-154 | the sort's result is ordered by the comparator the key selects |
| ProductsSlice.LeTotal | src/store/slices/productsSlice.js:146-152 | any two products are comparable under each comparator |
| ProductsSlice.LeTransitive | src/store/slices/productsSlice.js:146-152 | each comparator is transitive |
| ProductsSlice.FilterAndSort | src/store/slices/productsSlice.js:135-155 | the selector returns exactly the products matching the term, each as often as it is listed, ordered by the key |
| ProductsSlice.FilterAndSortEmptyTerm | src/store/slices/productsSlice.js:139-143 | an empty search term keeps every product |
| ProductsSlice.FilterAndSortIgnoresCase | src/store/slices/productsSlice.js:140-141 | the term's letter case does not change the result |
| ProductsSlice.FilterAndSortPriceOrder | src/store/slices/productsSlice.js:146-149 | prices never go down along "price-low" and never go up along "price-high" |
| ProductsSlice.ToLowerIdempotent | src/store/slices/productsSlice.js:140 | lower-casing twice is lower-casing once |
| ProductsSlice.ReplaceFirst | src/store/slices/productsSlice.js:107-115 | the first product with the payload's id is replaced by the payload, every other position stays, and with no such product nothing changes |
| ProductsSlice.ReplaceFirstKeepsOthers | src/store/slices/productsSlice.js:107-115 | an update leaves the products with other ids as they were, in order |
| ProductsSlice.DeletePartition | src/store/slices/productsSlice.js:117-122 | a delete keeps exactly the products with other ids; with the removed ones they make up the list |
| ProductsSlice.ProductsState.constructor | src/store/slices/productsSlice.js:66-72 | the initial state: no items, not loading, no error, an empty term and the name sort |
| ProductsSlice.ProductsState.SetSearchTerm | src/store/slices/productsSlice.js:74-76 | the term is stored |
| ProductsSlice.ProductsState.SetSortBy | src/store/slices/productsSlice.js:77-79 | the sort key is stored |
| ProductsSlice.ProductsState.ClearError | src/store/slices/productsSlice.js:80-82 | the error is cleared |
| ProductsSlice.ProductsState.FetchPending | src/store/slices/productsSlice.js:87-90 | loading starts and the error is cleared |
| ProductsSlice.ProductsState.FetchFulfilled | src/store/slices/productsSlice.js:91-94 | loading ends and the payload becomes the list |
| ProductsSlice.ProductsState.FetchRejected | src/store/slices/productsSlice.js:95-98 | loading ends and the error is recorded |
| ProductsSlice.ProductsState.OperationRejected | src/store/slices/productsSlice.js:100-122 | a failed add, update or delete records its error |
| ProductsSlice.ProductsState.AddFulfilled | src/store/slices/productsSlice.js:100-105 | the new product goes to the end of the list |
| ProductsSlice.ProductsState.UpdateFulfilled | src/store/slices/productsSlice.js:107-115 | the list becomes the list with the first product of that id replaced |
| ProductsSlice.ProductsState.DeleteFulfilled | src/store/slices/productsSlice.js:117-122 | the list loses every product with the id |
| CartSlice.AddLocal | src/store/slices/cartSlice.js:90-106 | a local add keeps the list's length or grows it by one line |
| CartSlice.AddLocalShape | src/store/slices/cartSlice.js:90-106 | a local add raises the product's first line by one unit, keeping its id, name, price and image and every other line; otherwise it appends the placeholder line built from the product (its name, price and image, quantity 1, a `temp-` id) |
| CartSlice.AddLocalCount | src/store/slices/cartSlice.js:90-106 | with every quantity present, a local add raises the item count by exactly one |
| CartSlice.AddLocalTotal | src/store/slices/cartSlice.js:90-106 | with every quantity present, a local add raises the cart total by the price of the line that gets the unit |
| CartSlice.IncrementCount | src/store/slices/cartSlice.js:95 | one more unit on a line with a present quantity adds one to the count |
| CartSlice.IncrementTotal | src/store/slices/cartSlice.js:95 | one more unit on a line with a present quantity adds the line's price to the total |
| CartSlice.SetFirstQuantity | src/store/slices/cartSlice.js:107-113 | only the first line with the id takes the quantity, with its other fields kept; every other line stays, and with no such line nothing changes |
| CartSlice.SetFirstQuantityTotal | src/store/slices/cartSlice.js:107-113 | a quantity edit changes the summed quantity by the difference on the one line it touches |
| CartSlice.ReplaceTemp | src/store/slices/cartSlice.js:134-144 | the stored line takes the place of the first `temp-` line for its product with every other position kept, or is appended when there is none |
| CartSlice.AddThenStore | src/store/slices/cartSlice.js:90-106 | adding a new product and then receiving its stored line leaves the old lines followed by the stored line |
| CartSlice.CartState.constructor | src/store/slices/cartSlice.js:73-78 | the initial state: no items, not loading, no error, the drawer closed |
| CartSlice.CartState.ToggleCart | src/store/slices/cartSlice.js:80-82 | the drawer's open flag flips |
| CartSlice.CartState.ToggleTwice | src/store/slices/cartSlice.js:80-82 | toggling twice leaves the drawer as it was |
| CartSlice.CartState.CloseCart | src/store/slices/cartSlice.js:83-85 | the drawer is closed |
| CartSlice.CartState.ClearError | src/store/slices/cartSlice.js:86-88 | the error is cleared |
| CartSlice.CartState.AddToCartLocal | src/store/slices/cartSlice.js:90-106 | the list becomes the local add of the product |
| CartSlice.CartState.UpdateCartItemLocal | src/store/slices/cartSlice.js:107-113 | the list becomes the list with the first line of that id set to the quantity |
| CartSlice.CartState.RemoveFromCartLocal | src/store/slices/cartSlice.js:114-116 | the list loses every line with the id |
| CartSlice.CartState.FetchPending | src/store/slices/cartSlice.js:121-124 | loading starts and the error is cleared |
| CartSlice.CartState.FetchFulfilled | src/store/slices/cartSlice.js:125-128 | loading ends and the payload becomes the list |
| CartSlice.CartState.FetchRejected | src/store/slices/cartSlice.js:129-132 | loading ends and the error is recorded |
| CartSlice.CartState.AddFulfilled | src/store/slices/cartSlice.js:134-144 | the stored line replaces the product's first placeholder, or is appended |
| CartSlice.CartState.UpdateFulfilled | src/store/slices/cartSlice.js:149-154 | the same edit as the local quantity update |
| CartSlice.CartState.RemoveFulfilled | src/store/slices/cartSlice.js:159-161 | the same filter as the local removal |
| CartSlice.CartState.OperationRejected | src/store/slices/cartSlice.js:145-164 | a failed add, update or remove records its error |
| ProductModal.Reduce | src/components/ProductModal.jsx:6-44 | a set gives `max(1, min(payload, maxStock))`: the payload when it lies in range, the stock above it, 1 below it or with no stock; an increment adds one up to the stock; a decrement subtracts one down to 1; each records its action; a reset restores the opening state; every quantity action hides the success message |
| ProductModal.ReduceKeepsRange | src/components/ProductModal.jsx:6-44 | every action keeps a selection between 1 and the stock, except a reset to an empty stock |
| ProductModal.SelectionStaysInRange | src/components/ProductModal.jsx:6-44 | through any run of selector actions the selection stays between 1 and the stock |
| ProductModal.IncrementOnEmptyStock | src/components/ProductModal.jsx:15-21 | an increment on an empty stock sets the selection to 0 |
| ProductModal.ImagePath | src/components/ProductModal.jsx:97-106 | a missing path gives the placeholder, an `assets/` path gets a leading slash, anything else is kept |
| ProductModal.ImagePathResolved | src/components/ProductModal.jsx:97-106 | the path shown is never empty nor a bare `assets/` path, and resolving it again changes nothing |
| ProductModal.BadgeLevels | src/components/ProductModal.jsx:129-134 | the badge is out of stock exactly at 0, low from 1 to 4 (or when negative), and in stock from 5 up |
| ProductModal.AddRequest | src/components/ProductModal.jsx:73-78 | the button hands over a quantity exactly when the product has stock and the selection is positive, and then the selection itself |
| ProductModal.AddRequestWithinStock | src/components/ProductModal.jsx:73-78 | a selection kept in range never asks for more than the stock |
| ProductModal.ModalAddToCart | src/components/ProductModal.jsx:73-88 | when the guard refuses nothing happens; otherwise the storefront's add handler runs with the selected quantity (for a stored product: refused when short of stock, else the stock is lowered and the cart line upserted) and the success flag is raised whatever it reports |
| ProductGrid.Cards | src/components/ProductGrid.jsx:88-105 | a card is shown exactly for each present entry with an id |
| ProductGrid.Shown | src/components/ProductGrid.jsx:17 | a prop that is not an array shows no card, and every card has an id |
| ProductGrid.CardsConcat | src/components/ProductGrid.jsx:88-105 | the cards keep the order of the entries |
| ProductGrid.CardsOfIdentified | src/components/ProductGrid.jsx:88-105 | a list of products that all have ids is shown whole, in its own order |
| ProductGrid.ImagePathAgrees | src/components/ProductGrid.jsx:148-154 | the card resolves every image path as the modal does |
| ProductGrid.StockClass | src/components/ProductGrid.jsx:186-198 | the card's stock class is the modal's badge |
| ProductGrid.AddDisabledIffOutOfStock | src/components/ProductGrid.jsx:203-209 | the add button is disabled exactly when the card shows out of stock |
| ProductGrid.CardAddToCart | src/components/ProductGrid.jsx:142-145 | a card's add of an out-of-stock product is refused by the storefront with nothing written |
| ProductGrid.HandleDelete | src/components/ProductGrid.jsx:130-135 | the product is deleted only when the confirmation returns true |
| CartPage.Kept | src/components/CartPage.jsx:12 | the page keeps exactly the present entries with an id |
| CartPage.SafeItems | src/components/CartPage.jsx:12 | a prop that is not an array gives no items, and every item kept has an id |
| CartPage.OrderSummaryShape | src/components/CartPage.jsx:14-22 | shipping is free exactly above 100, the total is 108% of the subtotal plus shipping, and the notice shows exactly below 100 with the amount still missing |
| CartPage.ExactlyHundred | src/components/CartPage.jsx:20-22 | at a subtotal of exactly 100 there is no notice, shipping is still charged and the total is 117.99 |
| CartPage.SkippedEntries | src/components/CartPage.jsx:12-18 | null entries and entries without an id change neither the items nor the summary |
| CartPage.SubtotalOfLines | src/components/CartPage.jsx:14-18 | over the storefront's lines the page's subtotal is the cart slice's total |
| CartPage.QuantityChange | src/components/CartPage.jsx:147-151 | only a positive quantity reaches the storefront, which sets it on the line's id |
| CartPage.RemoveClick | src/components/CartPage.jsx:137-145 | as written, a click never changes the cart or the stock |
| CartPage.RemoveByObjectMissesLine | src/App.jsx:376 | a whole line matches no line of the cart, while its id finds it |
| CartPage.RemoveClickById | src/components/CartPage.jsx:137-145 | passing the id removes every line with it from the cart and gives its units back to the product |
| Cart.TotalsShape | src/components/Cart.jsx:5-7 | the drawer's total is 108% of the subtotal, with no shipping |
| Cart.SubtotalIsCartTotal | src/components/Cart.jsx:5 | with every quantity present the drawer's subtotal is the cart slice's total |
| Cart.AgreesWithCartPage | src/components/Cart.jsx:5-7 | the drawer and the cart page agree on the subtotal, and their totals differ only by the page's shipping |
| Cart.QuantityChange | src/components/Cart.jsx:93-99 | a quantity below 1 asks for a removal; any other asks for an update to that quantity |
| Cart.ButtonsStep | src/components/Cart.jsx:123-132 | minus removes a line of quantity 1 and lowers a larger one by one; plus updates to one more |
| ProductForm.Prefill | src/components/ProductForm.jsx:29-35 | a product opens with its texts and image, and with an empty price or stock input exactly when that value is 0 |
| ProductForm.SetField | src/components/ProductForm.jsx:66-73 | the edited input takes the typed text and nothing else changes |
| ProductForm.TextRule | src/components/ProductForm.jsx:118-126 | a text input fails exactly when it is blank after trimming |
| ProductForm.PriceRule | src/components/ProductForm.jsx:128-131 | the price fails exactly when it does not parse to a positive number |
| ProductForm.StockRule | src/components/ProductForm.jsx:133-136 | the stock fails when it is falsy or does not parse to a non-negative integer |
| ProductForm.ErrorMap | src/components/ProductForm.jsx:114-136 | each input has an error entry exactly when its check failed, with its message |
| ProductForm.Errors | src/components/ProductForm.jsx:113-141 | every entry of the error map carries its input's message |
| ProductForm.ErrorsIff | src/components/ProductForm.jsx:113-141 | the error map has an entry exactly for each input that breaks its rule: a blank name or description, a price that does not parse to a positive number, a falsy stock or one that does not parse to a non-negative integer |
| ProductForm.ValidIff | src/components/ProductForm.jsx:139-140 | the form is valid exactly when every input passes its rule |
| ProductForm.Outcome | src/components/ProductForm.jsx:170-256 | an invalid form is refused; a submission carries the trimmed texts, the parsed price and stock and the image, passes the service's rules, and an edit goes out with the product's id and a positive stock |
| ProductForm.ValidatedSubmission | src/components/ProductForm.jsx:198-249 | after validation the later price, stock and text checks never fire; an edit is refused exactly when its stock is 0 |
| ProductForm.ZeroStockOnlyForNew | src/components/ProductForm.jsx:246-256 | a typed stock of "0" creates a new product but is refused for an existing one |
| ProductForm.PrefillZeroStock | src/components/ProductForm.jsx:34 | a product without stock opens with an empty stock input that fails validation |
| ProductForm.PrefillRoundTrip | src/components/ProductForm.jsx:29-35 | submitting an untouched form for a tidy product hands back exactly the product's own fields and id |
| ProductForm.PayloadAccepted | src/services/productService.js:106-142 | the form's submitted data passes the service's checks with every field kept |
| ProductForm.CheckImage | src/components/ProductForm.jsx:87-96 | a file is accepted exactly when its type starts with `image/` and it is at most 5 MB |
| ProductForm.ImageLimits | src/components/ProductForm.jsx:92-96 | exactly 5 MB is accepted, one byte more is not, and another type is refused whatever its size |
| ProductForm.CollectErrors | src/components/ProductForm.jsx:114-136 | the checks run one at a time build the error map of the failing inputs |
| ProductForm.FormState.constructor | src/components/ProductForm.jsx:5-17 | empty values, no errors, no image and not initialised |
| ProductForm.FormState.Initialize | src/components/ProductForm.jsx:19-61 | a product pre-fills the form and its preview; no product resets it; either way the form is initialised |
| ProductForm.FormState.HandleInputChange | src/components/ProductForm.jsx:63-81 | the input takes the text and an error showing on it is blanked, no other error changing |
| ProductForm.FormState.HandleImageChange | src/components/ProductForm.jsx:83-109 | an accepted file becomes the image and preview; a refused one changes nothing |
| ProductForm.FormState.ValidateForm | src/components/ProductForm.jsx:113-141 | the errors are rebuilt from the current values, and the form is valid exactly when there are none |
| ProductForm.FormState.HandleSubmit | src/components/ProductForm.jsx:143-256 | an uninitialised form is refused; otherwise the errors are shown and the outcome is the submission of the values |
| ProductForm.AddSubmitted | src/App.jsx:235-254 | a new product's clean data is stored field for field under the new id, unless its name is taken |
| ProductForm.SubmitEditAsWired | src/App.jsx:526-527 | as wired, every edit is refused with the missing-name error and nothing changes |
| ProductForm.EditWiringRefused | src/components/ProductForm.jsx:252 | the spread id fails the service's checks while the submitted data passes them |
| ProductForm.UpdateSubmitted | src/App.jsx:256-273 | passing the data on, a clean edit replaces the stored fields and a blank image keeps the stored one; an unknown id is refused |
| ProductForm.Deliver | src/App.jsx:523-531 | with the edit wiring corrected (as wired, every edit is refused, see SubmitEditAsWired): a refusal writes nothing; a clean new product with a free name is stored under the new id; a clean edit of a stored product succeeds, keeps the set of products and stores the new stock |

## Left out

- Firestore itself is not modelled: no network, latency, offline behaviour or
  snapshot listeners. The collections are in-memory classes, and a listener's
  callback is a method taking the snapshot.
- Concurrency is not modelled, and neither are the `async` interleavings of the
  handlers. Each handler runs to completion as one step.
- The session id, user ids, `serverTimestamp`, `Date.now()` and `setTimeout` are not
  modelled. Where a value matters (the placeholder line's timestamp, a new
  document's id) it is a parameter. That a new document id is fresh is a
  precondition.
- The FileReader is not modelled: the data URL it produces is a parameter, applied
  at once.
- Notifications, `alert`, `console` output and `window.confirm` are not modelled
  beyond the notice values. The confirmation's answer is a parameter.
- Rendering and styling are not modelled: JSX, dark mode, the header, the hero, the
  dialogs and the error boundary. The sample-data and seeding scripts are left out
  too.
- Number formatting with `toFixed` is not modelled; totals are exact `real`s.
- App.Storefront.HandleCheckout: the order document, the confirmation data and the
  clearing of the cart that follow the stock check are not modelled. Checkout lowers no
  stock, since stock is reserved when a line is added. The order document reads the
  current user, who is undefined in the storefront, so that step throws. The model
  ends every cart that passes the check in the error notice.
- App.Storefront.FilterProducts: the storefront's filter effect calls `toLowerCase`
  on `product.name` without `?.`, so a product without a name would throw. The model
  has every product carry a name, so that failure is not modelled.
- Entities: a missing name or id is the empty string, and a missing quantity is 0.
  So the model does not capture the `NaN` arithmetic of a line whose quantity is
  `undefined`: the drawer's `price * undefined`, or `quantity += 1` on `undefined`.
- Js.ParseInt: only decimal text is read, with optional leading white space and a
  sign. Hexadecimal prefixes, `Infinity` and exponents are not modelled. Js.ParseFloat
  is modelled to the same extent, plus a fractional part. A number argument is
  truncated toward zero (Js.ParseIntOf); `parseInt` reads the number's `String` form,
  which differs for values printed in exponent form (`parseInt(5e-7)` is 5). The
  storefront only passes small integers there.
- Js.ToLower maps ASCII letters only. `localeCompare` is modelled as code-point order
  (Js.Before), so locale collation is not captured.
- ProductGrid: the defaults of `safeProduct` are overridden by the spread
  `...product`, so they are not modelled. The grid's overlay button is never
  disabled, which CardAddToCart captures.
- CartPage.QuantityChange: the cart page never wires `handleQuantityChange` to a
  control. It is modelled as written, but nothing calls it.
- Cart: the drawer is not rendered by the storefront. Its totals and buttons are
  modelled as written.
- ProductForm: the `isSubmitting` flag and the error-message display are not
  modelled.
- CartSlice: the thunks' Firestore calls are not modelled; only the reducer cases
  that fold their results back into the list are.
- ProductModal.Reduce: RESET_STATE's `payload || 0` is taken as an integer stock.
- ProductsSlice: the selector's `(a.price || 0)` is a price as it is, since the model
  has no missing price.

## Findings

| source | as written | input that shows it | evidently intended | confidence | as-written member | corrected member |
|---|---|---|---|---|---|---|
| src/components/CartPage.jsx:141 with src/App.jsx:374-377 | the remove button passes the whole line object to `handleRemoveFromCart`, which compares it with line ids, finds no line and does nothing | any cart with at least one line, and a click on its remove button | pass `item.id`, so that the line leaves the cart and its stock is given back | not executed | CartPage.RemoveClick | CartPage.RemoveClickById |
| src/components/ProductForm.jsx:252 with src/App.jsx:526-527 | the form calls `onSubmit(product.id, submitData)`, but the edit callback takes one argument and passes it as the data; `updateProduct` receives the spread id string, which has no `name`, and throws "Product name is missing" (src/services/productService.js:190-192) | any edit of a stored product with valid values | hand `submitData` to `handleUpdateProduct(editingProduct.id, …)` | not executed | ProductForm.SubmitEditAsWired | ProductForm.UpdateSubmitted |

Other behaviour the proofs bring out, which the model keeps as written:

- An edit can never set a product's stock to 0. An empty stock input fails
  validation, and a typed "0" passes it but is refused by the falsy check at
  src/components/ProductForm.jsx:246. A new product with a typed "0" is accepted.
  See ProductForm.ZeroStockOnlyForNew.
- Once `validateForm` passes, the later price, stock and text checks in
  `handleSubmit` (lines 198, 204 and 228) cannot fire. See
  ProductForm.ValidatedSubmission.
- An increment dispatched on an empty stock sets the modal's selection to 0. The
  modal disables its increment button in that state. See
  ProductModal.IncrementOnEmptyStock.
