/**
 * The product detail modal: the quantity selector's reducer, the image path helper,
 * the stock badge and the add-to-cart button, which hands the selected quantity to
 * the storefront's add handler.
 */
module ProductModal {
  import opened Wrappers
  import opened Js
  import opened Entities
  import App
  import CartService

  datatype LastAction = NoAction | SetAction | IncrementAction | DecrementAction

  /** The quantity selector's state. */
  datatype ModalState = ModalState(selectedQuantity: int, maxStock: int, lastAction: LastAction, showSuccess: bool)

  /** The actions the reducer handles, and any other action type. */
  datatype ModalAction =
    | SetQuantity(payload: int)
    | IncrementQuantity
    | DecrementQuantity
    | ResetState(stock: int)
    | ShowSuccess
    | OtherAction

  function Min(a: int, b: int): int { if a <= b then a else b }
  function Max(a: int, b: int): int { if a >= b then a else b }

  /** The state the modal opens with for a product's stock. */
  function Initial(stock: int): ModalState
  {
    ModalState(1, stock, NoAction, false)
  }

  /** productInteractionReducer */
  function Reduce(s: ModalState, a: ModalAction): (r: ModalState)
    ensures a.SetQuantity? ==>
      && r.selectedQuantity >= 1
      && (s.maxStock >= 1 ==> r.selectedQuantity <= s.maxStock)
      && (1 <= a.payload <= s.maxStock ==> r.selectedQuantity == a.payload)
      && (1 <= s.maxStock <= a.payload ==> r.selectedQuantity == s.maxStock)
      && (a.payload <= 1 || s.maxStock < 1 ==> r.selectedQuantity == 1)
      && r.lastAction == SetAction
    ensures a.IncrementQuantity? ==>
      && r.selectedQuantity <= s.maxStock
      && (s.selectedQuantity < s.maxStock ==> r.selectedQuantity == s.selectedQuantity + 1)
      && (s.selectedQuantity >= s.maxStock ==> r.selectedQuantity == s.maxStock)
      && r.lastAction == IncrementAction
    ensures a.DecrementQuantity? ==>
      && r.selectedQuantity >= 1
      && (s.selectedQuantity > 1 ==> r.selectedQuantity == s.selectedQuantity - 1)
      && (s.selectedQuantity <= 1 ==> r.selectedQuantity == 1)
      && r.lastAction == DecrementAction
    ensures a.ResetState? ==> r == Initial(a.stock)
    ensures a.ShowSuccess? ==> r == s.(showSuccess := true)
    ensures a.OtherAction? ==> r == s
    ensures !a.ResetState? ==> r.maxStock == s.maxStock
    ensures a.SetQuantity? || a.IncrementQuantity? || a.DecrementQuantity? ==> !r.showSuccess
  {
    match a
    case SetQuantity(payload) =>
      s.(selectedQuantity := Max(1, Min(payload, s.maxStock)), lastAction := SetAction, showSuccess := false)
    case IncrementQuantity =>
      s.(selectedQuantity := Min(s.selectedQuantity + 1, s.maxStock), lastAction := IncrementAction, showSuccess := false)
    case DecrementQuantity =>
      s.(selectedQuantity := Max(1, s.selectedQuantity - 1), lastAction := DecrementAction, showSuccess := false)
    case ResetState(stock) => ModalState(1, stock, NoAction, false)
    case ShowSuccess => s.(showSuccess := true)
    case OtherAction => s
  }

  /** The selected quantity lies between 1 and the stock. */
  predicate InRange(s: ModalState)
  {
    1 <= s.selectedQuantity <= s.maxStock
  }

  /** Every action keeps a selection in range, except a reset to an empty stock. */
  lemma ReduceKeepsRange(s: ModalState, a: ModalAction)
    requires InRange(s)
    requires a.ResetState? ==> a.stock >= 1
    ensures InRange(Reduce(s, a))
  {
  }

  /** The state after a run of actions. */
  function ReduceAll(s: ModalState, actions: seq<ModalAction>): ModalState
    decreases |actions|
  {
    if actions == [] then s else ReduceAll(Reduce(s, actions[0]), actions[1..])
  }

  /** A modal opened on a product in stock keeps its selection between 1 and the stock
      through any run of the selector's actions. */
  lemma {:induction false} SelectionStaysInRange(s: ModalState, actions: seq<ModalAction>)
    requires InRange(s)
    requires forall i :: 0 <= i < |actions| ==> !actions[i].ResetState?
    ensures InRange(ReduceAll(s, actions))
    decreases |actions|
  {
    if actions != [] {
      ReduceKeepsRange(s, actions[0]);
      SelectionStaysInRange(Reduce(s, actions[0]), actions[1..]);
    }
  }

  /** Dispatched with an empty stock, INCREMENT_QUANTITY drives the selection to 0:
      the reducer's lower bound of 1 holds only for SET_QUANTITY and
      DECREMENT_QUANTITY (the modal disables its increment button in that state). */
  lemma IncrementOnEmptyStock()
    ensures Reduce(Initial(0), IncrementQuantity).selectedQuantity == 0
  {
  }

  // ---------------------------------------------------------------------------
  // Image path and stock badge
  // ---------------------------------------------------------------------------

  /** The placeholder picture shown for a product without an image. */
  const Fallback: string := "https://" + "images.unsplash.com/photo-1560472354-b33ff0c44a43?w=400&h=300&fit=crop"

  /** getImagePath: the fallback picture for a missing path, an absolute path for a
      bundled asset, and anything else (a data URL included) as it is. */
  function ImagePath(path: string): (r: string)
    ensures path == "" ==> r == Fallback
    ensures path != "" && StartsWith(path, "assets/") ==> r == "/" + path
    ensures path != "" && !StartsWith(path, "assets/") ==> r == path
  {
    if path == "" then Fallback
    else if StartsWith(path, "assets/") then "/" + path
    else if StartsWith(path, "data:image/") then path
    else path
  }

  /** The path shown is never empty and never a bare `assets/` path, and resolving it
      again changes nothing. */
  lemma ImagePathResolved(path: string)
    ensures ImagePath(path) != ""
    ensures !StartsWith(ImagePath(path), "assets/")
    ensures ImagePath(ImagePath(path)) == ImagePath(path)
  {
    if path != "" && StartsWith(path, "assets/") {
      assert ImagePath(path)[0] == '/';
      assert ("assets/")[0] == 'a';
    }
    assert Fallback[0] == 'h' && Fallback[..7][0] == 'h';
    assert "assets/"[0] == 'a';
  }

  datatype StockLevel = OutOfStock | LowStock | InStock

  /** The stock badge: `stock === 0 ? 'out-of-stock' : stock < 5 ? 'low-stock' : 'in-stock'`. */
  function Badge(stock: int): StockLevel
  {
    if stock == 0 then OutOfStock else if stock < 5 then LowStock else InStock
  }

  /** The badge partitions the stock levels: 0 is out of stock, 1 to 4 low, 5 and up in
      stock (a negative stock shows as low). */
  lemma BadgeLevels(stock: int)
    ensures Badge(stock) == OutOfStock <==> stock == 0
    ensures Badge(stock) == LowStock <==> stock != 0 && stock < 5
    ensures Badge(stock) == InStock <==> stock >= 5
  {
  }

  // ---------------------------------------------------------------------------
  // The add-to-cart button
  // ---------------------------------------------------------------------------

  /** The quantity the button hands to the add handler: only with stock and a positive
      selection. */
  function AddRequest(stock: int, s: ModalState): (r: Option<int>)
    ensures r.Some? <==> stock > 0 && s.selectedQuantity > 0
    ensures r.Some? ==> r.value == s.selectedQuantity
  {
    if stock > 0 && s.selectedQuantity > 0 then Some(s.selectedQuantity) else None
  }

  /** A request from a selection kept in range never asks for more than the stock the
      modal was opened with. */
  lemma AddRequestWithinStock(stock: int, s: ModalState)
    requires InRange(s) && s.maxStock == stock
    ensures AddRequest(stock, s) == Some(s.selectedQuantity)
    ensures AddRequest(stock, s).value <= stock
  {
  }

  /** handleAddToCart in the modal: when the guard lets it through, the storefront's add
      handler runs with the product and the selected quantity, and the success flag is
      raised whatever that handler reported (it reports failures itself and does not
      throw). */
  method ModalAddToCart(app: App.Storefront, product: Product, s: ModalState) returns (r: ModalState, notice: Option<App.AddNotice>)
    requires app.store != app.cart as object
    modifies app.store, app.cart
    ensures AddRequest(product.stock, s).None? ==> r == s && notice.None? && unchanged(app.store, app.cart)
    ensures AddRequest(product.stock, s).Some? ==> r == Reduce(s, ShowSuccess) && notice.Some?
    ensures AddRequest(product.stock, s).Some? && product.id != "" && product.id in old(app.store.docs) ==>
      var q := s.selectedQuantity;
      var p := old(app.store.docs)[product.id];
      var current := App.CartQuantity(app.cartItems, product.id);
      && (p.stock < q ==> notice == Some(App.InsufficientStock(p.stock)) && unchanged(app.store, app.cart))
      && (q <= p.stock < current + q ==> notice == Some(App.CannotAddMore(p.stock - current)) && unchanged(app.store, app.cart))
      && (q <= p.stock && current + q <= p.stock ==>
            && notice == Some(App.Added(p.stock - q))
            && app.store.docs == old(app.store.docs)[product.id := p.(stock := p.stock - q)]
            && app.cart.doc == Some(CartService.Upsert(CartService.ItemsOf(old(app.cart.doc)),
                                      CartService.LineSource(product.id, p.name, p.price, p.image), current + q)))
  {
    var request := AddRequest(product.stock, s);
    if request.None? {
      return s, None;
    }
    assert product.id != "" && product.id in app.store.docs ==>
      App.ResolvesTo(app.store.docs, App.ProductArg(product.id, Some(product.name)), product.id);
    var added, resolved := app.HandleAddToCart(Some(App.ProductArg(product.id, Some(product.name))), request.value);
    notice := Some(added);
    r := Reduce(s, ShowSuccess);
  }
}
