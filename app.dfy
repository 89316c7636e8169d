/**
 * The storefront's reservation handlers: adding to the cart reserves stock in the
 * product store, removing from the cart gives it back, quantity edits touch only
 * the local cart list, and checkout validates every line against the loaded
 * products before computing the order totals.
 */
module App {
  import opened Wrappers
  import opened Js
  import opened Entities
  import CartService
  import ProductService
  import ProductsSlice

  /** The `product` argument of handleAddToCart when it is an object: its id ("" when
      missing) and its name (None when undefined). */
  datatype ProductArg = ProductArg(id: Id, name: Option<string>)

  /** The notification handleAddToCart shows. */
  datatype AddNotice =
    | InvalidProduct
    | ProductNotFound
    | InsufficientStock(stock: int)
    | CannotAddMore(available: int)
    | Added(remaining: int)
    | AddFailed

  /** What handleRemoveFromCart receives: an id, or (from the cart page) a whole line. */
  datatype RemoveKey = ById(id: Id) | ByObject(line: CartLine)

  /** The notification handleRemoveFromCart shows, when it shows one. */
  datatype RemoveNotice = Removed(name: string) | RemoveFailed

  /** The notification handleCheckout shows. */
  datatype CheckoutNotice = EmptyCart | OutOfStock(name: string, available: int) | CheckoutError

  /** An order summary. */
  datatype Totals = Totals(subtotal: real, tax: real, shipping: real, total: real)

  // ---------------------------------------------------------------------------
  // Product resolution
  // ---------------------------------------------------------------------------

  /** k is the first document, in document-id order, whose name is exactly `name`:
      the first result of an equality query on `name`. */
  predicate FirstNamed(docs: map<Id, ProductDoc>, name: string, k: Id)
  {
    && k in docs && docs[k].name == name
    && forall k' :: k' in docs && docs[k'].name == name && k' != k ==> Before(k, k')
  }

  /** The document handleAddToCart works on: the argument's id when it names a
      document, otherwise the first document carrying the argument's name. */
  predicate ResolvesTo(docs: map<Id, ProductDoc>, arg: ProductArg, k: Id)
  {
    if arg.id in docs then k == arg.id
    else arg.name.Some? && FirstNamed(docs, arg.name.value, k)
  }

  /** The lookups handleAddToCart issues throw: an empty id makes an invalid
      document reference, an undefined name an invalid query. */
  predicate LookupThrows(docs: map<Id, ProductDoc>, arg: ProductArg)
  {
    arg.id == "" || (arg.id !in docs && arg.name.None?)
  }

  /** Some stored product has exactly this name. */
  predicate Named(docs: map<Id, ProductDoc>, name: string)
  {
    exists k :: k in docs && docs[k].name == name
  }

  /** When some product carries the name, exactly one of them comes first. */
  lemma FirstNamedExists(docs: map<Id, ProductDoc>, name: string)
    requires Named(docs, name)
    ensures exists k :: FirstNamed(docs, name, k)
  {
    var named := set k | k in docs && docs[k].name == name;
    var w :| w in docs && docs[w].name == name;
    assert w in named;
    var m := LeastExists(named);
    assert FirstNamed(docs, name, m);
  }

  lemma FirstNamedUnique(docs: map<Id, ProductDoc>, name: string, a: Id, b: Id)
    requires FirstNamed(docs, name, a) && FirstNamed(docs, name, b)
    ensures a == b
  {
    if a != b {
      BeforeAsymmetric(a, b);
    }
  }

  /** The quantity of the cart line for product k: `cartItems.find(item => item.id === k)`,
      0 without one. */
  function CartQuantity(lines: seq<CartLine>, k: Id): int
  {
    match FindFirst(lines, HasId(k))
    case Some(i) => lines[i].quantity
    case None => 0
  }

  // ---------------------------------------------------------------------------
  // Checkout
  // ---------------------------------------------------------------------------

  /** The stock checkout compares a line against: `products.find(p => p.id === item.id)`. */
  function StockFor(products: seq<Product>, id: Id): Option<int>
  {
    match FindFirst(products, ProductHasId(id))
    case Some(j) => Some(products[j].stock)
    case None => None
  }

  /** `currentProduct?.stock || 0` */
  function ReportedStock(products: seq<Product>, id: Id): int
  {
    match StockFor(products, id)
    case Some(s) => s
    case None => 0
  }

  /** Lines checkout refuses: the product is not loaded or has less stock than the line's quantity. */
  function Short(products: seq<Product>): CartLine -> bool
  {
    (l: CartLine) => StockFor(products, l.id).None? || StockFor(products, l.id).value < l.quantity
  }

  /** The checkout order summary: 10% tax and a flat 10 shipping on any positive subtotal. */
  function CheckoutTotals(lines: seq<CartLine>): Totals
  {
    var subtotal := Subtotal(lines);
    var tax := subtotal * 0.1;
    var shipping := if subtotal > 0.0 then 10.0 else 0.0;
    Totals(subtotal, tax, shipping, subtotal + tax + shipping)
  }

  /** The total is 110% of the subtotal plus shipping, and shipping is charged
      exactly when the subtotal is positive. */
  lemma CheckoutTotalsShape(lines: seq<CartLine>)
    ensures var t := CheckoutTotals(lines);
      && t.subtotal == Subtotal(lines)
      && t.total == t.subtotal * 1.1 + t.shipping
      && (t.shipping == 10.0 <==> t.subtotal > 0.0)
      && (t.shipping == 0.0 <==> t.subtotal <= 0.0)
  {
  }

  /** Every line of a cart with non-negative prices and quantities adds to the total. */
  lemma CheckoutTotalsMonotone(a: seq<CartLine>, b: seq<CartLine>)
    requires forall i :: 0 <= i < |b| ==> b[i].price >= 0.0 && b[i].quantity >= 0
    ensures CheckoutTotals(a).subtotal <= CheckoutTotals(a + b).subtotal
  {
    SubtotalConcat(a, b);
  }

  // ---------------------------------------------------------------------------
  // Quantity edits
  // ---------------------------------------------------------------------------

  /** `cartItems.map(item => item.id === id ? { ...item, quantity } : item)` */
  function SetQuantityWhere(lines: seq<CartLine>, id: Id, quantity: int): (r: seq<CartLine>)
    ensures |r| == |lines|
    ensures forall i :: 0 <= i < |lines| && lines[i].id == id ==> r[i] == lines[i].(quantity := quantity)
    ensures forall i :: 0 <= i < |lines| && lines[i].id != id ==> r[i] == lines[i]
  {
    if lines == [] then []
    else
      var first := if lines[0].id == id then lines[0].(quantity := quantity) else lines[0];
      [first] + SetQuantityWhere(lines[1..], id, quantity)
  }

  /** Setting a quantity leaves the lines of every other id exactly as they were, in order. */
  lemma {:induction false} SetQuantityWhereKeepsOthers(lines: seq<CartLine>, id: Id, quantity: int)
    ensures RemoveById(SetQuantityWhere(lines, id, quantity), id) == RemoveById(lines, id)
  {
    if lines != [] {
      SetQuantityWhereKeepsOthers(lines[1..], id, quantity);
      assert SetQuantityWhere(lines, id, quantity)[1..] == SetQuantityWhere(lines[1..], id, quantity);
    }
  }

  /** Setting the same quantity twice is setting it once. */
  lemma {:induction false} SetQuantityWhereIdempotent(lines: seq<CartLine>, id: Id, quantity: int)
    ensures SetQuantityWhere(SetQuantityWhere(lines, id, quantity), id, quantity) == SetQuantityWhere(lines, id, quantity)
  {
    if lines != [] {
      SetQuantityWhereIdempotent(lines[1..], id, quantity);
      assert SetQuantityWhere(lines, id, quantity)[1..] == SetQuantityWhere(lines[1..], id, quantity);
    }
  }

  /** The storefront's state: the two stores it writes through and its local React state. */
  class Storefront {
    const store: ProductService.ProductStore
    const cart: CartService.CartStore
    var products: seq<Product>
    var cartItems: seq<CartLine>
    var loading: bool
    var searchQuery: string
    var sortBy: string
    var filteredProducts: seq<Product>

    constructor (store: ProductService.ProductStore, cart: CartService.CartStore)
      ensures this.store == store && this.cart == cart
      ensures products == [] && cartItems == [] && loading
      ensures searchQuery == "" && sortBy == "name" && filteredProducts == []
    {
      this.store := store;
      this.cart := cart;
      products := [];
      cartItems := [];
      loading := true;
      searchQuery := "";
      sortBy := "name";
      filteredProducts := [];
    }

    /** handleSearch */
    method HandleSearch(query: string)
      modifies this`searchQuery
      ensures searchQuery == query
    {
      searchQuery := query;
    }

    /** handleSortChange */
    method HandleSortChange(sort: string)
      modifies this`sortBy
      ensures sortBy == sort
    {
      sortBy := sort;
    }

    /** The filter-and-sort effect: the same filter and order as the products slice's
        selector, so the list shown holds exactly the loaded products matching the
        query, each as often as loaded, in the order the sort option asks for. */
    method FilterProducts()
      modifies this`filteredProducts
      ensures filteredProducts == ProductsSlice.FilterAndSort(products, searchQuery, sortBy)
      ensures forall p :: p in filteredProducts <==> p in products && ProductsSlice.MatchesTerm(searchQuery)(p)
      ensures ProductsSlice.Sorted(ProductsSlice.ModeOf(sortBy), filteredProducts)
    {
      filteredProducts := ProductsSlice.FilterAndSort(products, searchQuery, sortBy);
    }

    /** The products subscription delivers a snapshot, shown unfiltered until the
        filter effect runs. */
    method OnProductsSnapshot(fetched: seq<Product>)
      modifies this`products, this`filteredProducts, this`loading
      ensures products == fetched && filteredProducts == fetched && !loading
    {
      products := fetched;
      filteredProducts := fetched;
      loading := false;
    }

    /** The cart subscription delivers the document's items (or [] without one). */
    method OnCartSnapshot()
      modifies this`cartItems
      ensures cartItems == CartService.ItemsOf(cart.doc)
    {
      cartItems := CartService.ItemsOf(cart.doc);
    }

    /** loadInitialCart: loads (creating if needed) the cart document. */
    method LoadInitialCart()
      modifies this`cartItems, cart
      ensures cart.doc == Some(CartService.ItemsOf(old(cart.doc)))
      ensures cartItems == CartService.ItemsOf(old(cart.doc))
    {
      var items := cart.LoadCart();
      cartItems := items;
    }

    /** handleAddToCart(product, quantity): resolve the product, check the stock against
        the quantity requested and the quantity already in the cart, then write the
        reduced stock and the new cart quantity. */
    method HandleAddToCart(product: Option<ProductArg>, quantity: int) returns (notice: AddNotice, resolved: Option<Id>)
      requires store != cart as object
      modifies store, cart
      ensures product.None? ==> notice == InvalidProduct && resolved.None? && unchanged(store, cart)
      ensures product.Some? && LookupThrows(old(store.docs), product.value) ==>
        notice == AddFailed && resolved.None? && unchanged(store, cart)
      ensures product.Some? && !LookupThrows(old(store.docs), product.value) ==>
        (resolved.Some? <==> exists k :: ResolvesTo(old(store.docs), product.value, k))
      ensures resolved.Some? ==> product.Some? && ResolvesTo(old(store.docs), product.value, resolved.value)
      ensures product.Some? && !LookupThrows(old(store.docs), product.value) && resolved.None? ==>
        notice == ProductNotFound && unchanged(store, cart)
      ensures resolved.Some? ==>
        var k := resolved.value;
        var p := old(store.docs)[k];
        var current := CartQuantity(cartItems, k);
        && (p.stock < quantity ==> notice == InsufficientStock(p.stock) && unchanged(store, cart))
        && (quantity <= p.stock < current + quantity ==>
              notice == CannotAddMore(p.stock - current) && unchanged(store, cart))
        && (quantity <= p.stock && current + quantity <= p.stock ==>
              && notice == Added(p.stock - quantity)
              && store.docs == old(store.docs)[k := p.(stock := p.stock - quantity)]
              && cart.doc == Some(CartService.Upsert(CartService.ItemsOf(old(cart.doc)),
                                   CartService.LineSource(k, p.name, p.price, p.image), current + quantity)))
    {
      if product.None? {
        return InvalidProduct, None;
      }
      var arg := product.value;
      if arg.id == "" {
        return AddFailed, None;
      }
      var k: Id;
      if arg.id in store.docs {
        k := arg.id;
      } else {
        if arg.name.None? {
          return AddFailed, None;
        }
        var name := arg.name.value;
        if !Named(store.docs, name) {
          return ProductNotFound, None;
        }
        FirstNamedExists(store.docs, name);
        k :| FirstNamed(store.docs, name, k);
      }
      assert ResolvesTo(store.docs, arg, k);
      resolved := Some(k);
      var p := store.docs[k];
      var current := CartQuantity(cartItems, k);
      var total := current + quantity;
      if p.stock < quantity {
        return InsufficientStock(p.stock), resolved;
      }
      if p.stock < total {
        return CannotAddMore(p.stock - current), resolved;
      }
      var newStock := p.stock - quantity;
      store.docs := store.docs[k := p.(stock := newStock)];
      cart.UpdateCartItem(CartService.LineSource(k, p.name, p.price, p.image), total);
      notice := Added(newStock);
    }

    /** handleRemoveFromCart(key): nothing happens unless some line's id equals the key;
        then every line with that id leaves the local list and the cart document, and
        the product, if it still exists, gets `quantity || 1` units back. */
    method HandleRemoveFromCart(key: RemoveKey) returns (notice: Option<RemoveNotice>)
      requires store != cart as object
      modifies this`cartItems, store, cart
      ensures FindFirst(old(cartItems), KeyMatches(key)).None? ==>
        notice.None? && cartItems == old(cartItems) && unchanged(store, cart)
      ensures FindFirst(old(cartItems), KeyMatches(key)).Some? ==>
        var removed := old(cartItems)[FindFirst(old(cartItems), KeyMatches(key)).value];
        var id := removed.id;
        && key == ById(id)
        && cartItems == RemoveById(old(cartItems), id)
        && cart.doc == (if old(cart.doc).None? then None else Some(CartService.RemoveMatching(old(cart.doc).value, id)))
        && (id == "" ==> notice == Some(RemoveFailed) && store.docs == old(store.docs))
        && (id != "" && id !in old(store.docs) ==> notice == Some(Removed(removed.name)) && store.docs == old(store.docs))
        && (id != "" && id in old(store.docs) ==>
              && notice == Some(Removed(removed.name))
              && store.docs == old(store.docs)[id := old(store.docs)[id].(stock := old(store.docs)[id].stock + UnitsOf(removed.quantity))])
    {
      var found := FindFirst(cartItems, KeyMatches(key));
      if found.None? {
        return None;
      }
      var removed := cartItems[found.value];
      var id := key.id;
      cartItems := RemoveById(cartItems, id);
      cart.RemoveCartItem(id);
      if id == "" {
        return Some(RemoveFailed);
      }
      if id in store.docs {
        var p := store.docs[id];
        store.docs := store.docs[id := p.(stock := p.stock + UnitsOf(removed.quantity))];
      }
      notice := Some(Removed(removed.name));
    }

    /** handleUpdateQuantity(id, newQuantity): a quantity of 0 or less removes the line;
        otherwise every line with that id gets the new quantity, locally only. */
    method HandleUpdateQuantity(id: Id, newQuantity: int) returns (notice: Option<RemoveNotice>)
      requires store != cart as object
      modifies this`cartItems, store, cart
      ensures newQuantity > 0 ==>
        notice.None? && cartItems == SetQuantityWhere(old(cartItems), id, newQuantity) && unchanged(store, cart)
      ensures newQuantity <= 0 && FindFirst(old(cartItems), HasId(id)).None? ==>
        notice.None? && cartItems == old(cartItems) && unchanged(store, cart)
      ensures newQuantity <= 0 && FindFirst(old(cartItems), HasId(id)).Some? ==>
        var removed := old(cartItems)[FindFirst(old(cartItems), HasId(id)).value];
        && cartItems == RemoveById(old(cartItems), id)
        && cart.doc == (if old(cart.doc).None? then None else Some(CartService.RemoveMatching(old(cart.doc).value, id)))
        && (id == "" ==> notice == Some(RemoveFailed) && store.docs == old(store.docs))
        && (id != "" && id !in old(store.docs) ==> notice == Some(Removed(removed.name)) && store.docs == old(store.docs))
        && (id != "" && id in old(store.docs) ==>
              && notice == Some(Removed(removed.name))
              && store.docs == old(store.docs)[id := old(store.docs)[id].(stock := old(store.docs)[id].stock + UnitsOf(removed.quantity))])
    {
      if newQuantity <= 0 {
        KeyMatchesById(id);
        FindFirstSame(cartItems, KeyMatches(ById(id)), HasId(id));
        ghost var found := FindFirst(cartItems, HasId(id));
        if found.Some? {
          assert cartItems[found.value].id == id;
        }
        notice := HandleRemoveFromCart(ById(id));
        return;
      }
      cartItems := SetQuantityWhere(cartItems, id, newQuantity);
      notice := None;
    }

    /** handleCheckout up to the order commit: an empty cart is refused; otherwise every
        line is checked in cart order against the loaded products and the first short
        line is reported. Past the check the order commit throws (it reads an undefined
        user), so a cart that passes ends in the error notice. Nothing is written. */
    method HandleCheckout() returns (notice: CheckoutNotice)
      modifies this`loading
      ensures cartItems == [] ==> notice == EmptyCart && loading == old(loading)
      ensures cartItems != [] ==> !loading
      ensures cartItems != [] ==> notice == match FindFirst(cartItems, Short(products))
        case Some(i) => OutOfStock(cartItems[i].name, ReportedStock(products, cartItems[i].id))
        case None => CheckoutError
    {
      if |cartItems| == 0 {
        return EmptyCart;
      }
      loading := true;
      var i := 0;
      while i < |cartItems|
        invariant 0 <= i <= |cartItems|
        invariant forall j :: 0 <= j < i ==> !Short(products)(cartItems[j])
      {
        var item := cartItems[i];
        var currentProduct := FindFirst(products, ProductHasId(item.id));
        if currentProduct.None? || products[currentProduct.value].stock < item.quantity {
          var available := if currentProduct.None? then 0 else products[currentProduct.value].stock;
          FindFirstAt(cartItems, Short(products), i);
          notice := OutOfStock(item.name, available);
          loading := false;
          return;
        }
        i := i + 1;
      }
      var totals := CheckoutTotals(cartItems);
      notice := CheckoutError;
      loading := false;
    }
  }

  /** Lines whose id is strictly equal to the key: a line object never equals a string. */
  function KeyMatches(key: RemoveKey): CartLine -> bool
  {
    (l: CartLine) => key.ById? && l.id == key.id
  }

  lemma KeyMatchesById(id: Id)
    ensures forall l :: KeyMatches(ById(id))(l) == HasId(id)(l)
  {
  }
}
