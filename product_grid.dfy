/**
 * The product grid and its cards: which entries of the `products` prop become cards,
 * the card's image path and stock classification, the add button's enabled state,
 * and the delete button's confirmation guard.
 */
module ProductGrid {
  import opened Wrappers
  import opened Js
  import opened Entities
  import App
  import ProductModal
  import ProductService

  /** The `products` prop: something that is not an array, or an array whose entries may
      be null. */
  datatype ProductsProp = NotAnArray | Entries(entries: seq<Option<Product>>)

  /** `Array.isArray(products) ? products : []` */
  function SafeProducts(products: ProductsProp): seq<Option<Product>>
  {
    if products.Entries? then products.entries else []
  }

  /** The products that get a card: the present entries with a non-empty id, in order. */
  function Cards(entries: seq<Option<Product>>): (r: seq<Product>)
    ensures |r| <= |entries|
    ensures forall p :: p in r <==> Some(p) in entries && p.id != ""
  {
    if entries == [] then []
    else
      assert forall x :: x in entries <==> x == entries[0] || x in entries[1..];
      (if entries[0].Some? && entries[0].value.id != "" then [entries[0].value] else []) + Cards(entries[1..])
  }

  /** The cards of the grid. */
  function Shown(products: ProductsProp): (r: seq<Product>)
    ensures products.NotAnArray? ==> r == []
    ensures forall p :: p in r ==> p.id != ""
  {
    Cards(SafeProducts(products))
  }

  /** Cards keep the order of the entries. */
  lemma {:induction false} CardsConcat(a: seq<Option<Product>>, b: seq<Option<Product>>)
    ensures Cards(a + b) == Cards(a) + Cards(b)
  {
    if a == [] {
      assert a + b == b;
    } else {
      assert (a + b)[1..] == a[1..] + b;
      CardsConcat(a[1..], b);
    }
  }

  /** The loaded products as the array entries the grid receives. */
  function Present(ps: seq<Product>): (r: seq<Option<Product>>)
    ensures |r| == |ps|
  {
    if ps == [] then [] else [Some(ps[0])] + Present(ps[1..])
  }

  /** A list of products that all carry an id is shown whole, in its own order. */
  lemma {:induction false} CardsOfIdentified(ps: seq<Product>)
    requires forall i :: 0 <= i < |ps| ==> ps[i].id != ""
    ensures Shown(Entries(Present(ps))) == ps
  {
    if ps != [] {
      CardsOfIdentified(ps[1..]);
      assert Present(ps)[1..] == Present(ps[1..]);
    }
  }

  /** The card's getImagePath, which has no data-URL branch. */
  function ImagePath(path: string): string
  {
    if path == "" then ProductModal.Fallback
    else if StartsWith(path, "assets/") then "/" + path
    else path
  }

  /** The card and the modal resolve every image path the same way. */
  lemma ImagePathAgrees(path: string)
    ensures ImagePath(path) == ProductModal.ImagePath(path)
  {
  }

  /** The card's stock class, the same three-way split as the modal's badge. */
  function StockClass(stock: int): (r: ProductModal.StockLevel)
    ensures r == ProductModal.Badge(stock)
  {
    if stock == 0 then ProductModal.OutOfStock
    else if stock < 5 then ProductModal.LowStock
    else ProductModal.InStock
  }

  /** The card's add button is disabled when the stock is 0. */
  predicate AddDisabled(stock: int)
  {
    stock == 0
  }

  /** The add button is disabled exactly when the card shows out of stock. */
  lemma AddDisabledIffOutOfStock(stock: int)
    ensures AddDisabled(stock) <==> StockClass(stock) == ProductModal.OutOfStock
  {
  }

  /** The card's add buttons send the product with the default quantity of 1. The
      overlay button is never disabled, so an out-of-stock card can still reach the
      storefront's handler, which then refuses and writes nothing. */
  method CardAddToCart(app: App.Storefront, product: Product) returns (notice: App.AddNotice)
    requires app.store != app.cart as object
    modifies app.store, app.cart
    ensures product.id != "" && product.id in old(app.store.docs) && old(app.store.docs)[product.id].stock < 1 ==>
      notice == App.InsufficientStock(old(app.store.docs)[product.id].stock) && unchanged(app.store, app.cart)
  {
    var arg := App.ProductArg(product.id, Some(product.name));
    if product.id in app.store.docs {
      assert App.ResolvesTo(app.store.docs, arg, product.id);
    }
    var resolved;
    notice, resolved := app.HandleAddToCart(Some(arg), 1);
  }

  /** The delete button: the product is deleted only when the confirmation returns true. */
  method HandleDelete(store: ProductService.ProductStore, product: Product, confirmed: bool)
    modifies store
    ensures !confirmed ==> store.docs == old(store.docs)
    ensures confirmed && product.id != "" ==> store.docs == old(store.docs) - {product.id}
    ensures confirmed && product.id == "" ==> store.docs == old(store.docs)
  {
    if confirmed {
      var r := store.DeleteProduct(product.id);
    }
  }
}
