/**
 * The cart page: its order summary (8% tax, free shipping strictly above 100, a
 * notice below 100) computed over the items that are present and carry an id, and
 * the per-line quantity and removal controls that call the storefront's handlers.
 */
module CartPage {
  import opened Wrappers
  import opened Js
  import opened Entities
  import App
  import CartSlice

  /** A cart item as the page reads it: price and quantity may hold any value. */
  datatype PageItem = PageItem(id: Id, name: string, price: JsValue, quantity: JsValue)

  /** The `items` prop: something that is not an array, or an array whose entries may be null. */
  datatype ItemsProp = NotAnArray | Entries(entries: seq<Option<PageItem>>)

  /** The present items with a non-empty id, in order. */
  function Kept(entries: seq<Option<PageItem>>): (r: seq<PageItem>)
    ensures |r| <= |entries|
    ensures forall it :: it in r <==> Some(it) in entries && it.id != ""
  {
    if entries == [] then []
    else
      assert forall x :: x in entries <==> x == entries[0] || x in entries[1..];
      (if entries[0].Some? && entries[0].value.id != "" then [entries[0].value] else []) + Kept(entries[1..])
  }

  /** `Array.isArray(items) ? items.filter(item => item && item.id) : []` */
  function SafeItems(items: ItemsProp): (r: seq<PageItem>)
    ensures items.NotAnArray? ==> r == []
    ensures forall it :: it in r ==> it.id != ""
  {
    if items.Entries? then Kept(items.entries) else []
  }

  /** `parseFloat(item.price) || 0` */
  function ItemPrice(it: PageItem): real
  {
    match ParseFloatOf(it.price)
    case Some(x) => x
    case None => 0.0
  }

  /** `parseInt(item.quantity) || 1` */
  function ItemUnits(it: PageItem): int
  {
    match ParseIntOf(it.quantity)
    case Some(n) => UnitsOf(n)
    case None => 1
  }

  function ItemAmount(it: PageItem): real
  {
    ItemPrice(it) * ItemUnits(it) as real
  }

  /** The page's order summary; `notice` is the amount still missing for free shipping
      when the notice shows. */
  datatype Summary = Summary(subtotal: real, tax: real, shipping: real, total: real, notice: Option<real>)

  const FreeShippingOver: real := 100.0
  const ShippingFee: real := 9.99
  const TaxRate: real := 0.08

  /** The subtotal: the sum of every kept item's price times its units. */
  function PageSubtotal(items: ItemsProp): real
  {
    SumReal(SafeItems(items), ItemAmount)
  }

  function OrderSummary(items: ItemsProp): Summary
  {
    var subtotal := PageSubtotal(items);
    var tax := subtotal * TaxRate;
    var shipping := if subtotal > FreeShippingOver then 0.0 else ShippingFee;
    var notice := if subtotal < FreeShippingOver then Some(FreeShippingOver - subtotal) else None;
    Summary(subtotal, tax, shipping, subtotal + tax + shipping, notice)
  }

  /** Shipping is free exactly when the subtotal is above 100, the total is 108% of the
      subtotal plus shipping, and the notice shows exactly below 100 with the amount
      still missing. */
  lemma OrderSummaryShape(items: ItemsProp)
    ensures var s := OrderSummary(items);
      && s.subtotal == PageSubtotal(items)
      && (s.shipping == 0.0 <==> s.subtotal > 100.0)
      && (s.shipping == 9.99 <==> s.subtotal <= 100.0)
      && s.total == s.subtotal * 1.08 + s.shipping
      && (s.notice.Some? <==> s.subtotal < 100.0)
      && (s.notice.Some? ==> s.notice.value > 0.0 && s.subtotal + s.notice.value == 100.0)
  {
  }

  /** At a subtotal of exactly 100 no notice shows and shipping is still charged. */
  lemma ExactlyHundred(items: ItemsProp)
    requires PageSubtotal(items) == 100.0
    ensures OrderSummary(items).notice.None? && OrderSummary(items).shipping == 9.99
    ensures OrderSummary(items).total == 117.99
  {
  }

  /** Null entries and entries without an id do not count. */
  lemma SkippedEntries(entries: seq<Option<PageItem>>, it: Option<PageItem>)
    requires it.None? || it.value.id == ""
    ensures SafeItems(Entries(entries + [it])) == SafeItems(Entries(entries))
    ensures OrderSummary(Entries(entries + [it])) == OrderSummary(Entries(entries))
  {
    KeptConcat(entries, [it]);
    assert Kept([it]) == [];
    assert Kept(entries + [it]) == Kept(entries) + [];
  }

  lemma {:induction false} KeptConcat(a: seq<Option<PageItem>>, b: seq<Option<PageItem>>)
    ensures Kept(a + b) == Kept(a) + Kept(b)
  {
    if a == [] {
      assert a + b == b;
    } else {
      assert (a + b)[1..] == a[1..] + b;
      KeptConcat(a[1..], b);
    }
  }

  /** A storefront cart line as the page receives it; a missing quantity is undefined. */
  function FromLine(l: CartLine): PageItem
  {
    PageItem(l.id, l.name, Num(l.price), if l.quantity == 0 then Undefined else Num(l.quantity as real))
  }

  function FromLines(lines: seq<CartLine>): (r: seq<Option<PageItem>>)
    ensures |r| == |lines|
    ensures forall i :: 0 <= i < |lines| ==> r[i] == Some(FromLine(lines[i]))
  {
    if lines == [] then [] else FromLines(lines[..|lines| - 1]) + [Some(FromLine(lines[|lines| - 1]))]
  }

  /** Over the storefront's own lines the page's subtotal is the cart slice's total:
      each line's price times `quantity || 1`. */
  lemma {:induction false} SubtotalOfLines(lines: seq<CartLine>)
    requires forall i :: 0 <= i < |lines| ==> lines[i].id != ""
    ensures PageSubtotal(Entries(FromLines(lines))) == CartSlice.CartTotal(lines)
  {
    if lines != [] {
      var init := lines[..|lines| - 1];
      var last := lines[|lines| - 1];
      SubtotalOfLines(init);
      KeptOfLines(init, last);
      FromLineAmount(last);
      var kept := Kept(FromLines(init)) + [FromLine(last)];
      assert kept[..|kept| - 1] == Kept(FromLines(init));
    }
  }

  lemma KeptOfLines(init: seq<CartLine>, last: CartLine)
    requires last.id != ""
    ensures Kept(FromLines(init + [last])) == Kept(FromLines(init)) + [FromLine(last)]
  {
    assert (init + [last])[..|init|] == init;
    KeptConcat(FromLines(init), [Some(FromLine(last))]);
    assert Kept([Some(FromLine(last))]) == [FromLine(last)];
  }

  /** The page reads a storefront line's price and units as the cart slice does. */
  lemma FromLineAmount(l: CartLine)
    ensures ItemAmount(FromLine(l)) == CartSlice.LineTotal(l)
  {
    TruncOfInt(l.quantity);
  }

  // ---------------------------------------------------------------------------
  // CartItem controls
  // ---------------------------------------------------------------------------

  /** handleQuantityChange: only a positive quantity reaches the storefront's handler. */
  method QuantityChange(app: App.Storefront, item: CartLine, newQuantity: int)
    requires app.store != app.cart as object
    modifies app`cartItems, app.store, app.cart
    ensures newQuantity > 0 ==>
      app.cartItems == App.SetQuantityWhere(old(app.cartItems), item.id, newQuantity) && unchanged(app.store, app.cart)
    ensures newQuantity <= 0 ==> app.cartItems == old(app.cartItems) && unchanged(app.store, app.cart)
  {
    if newQuantity > 0 {
      var notice := app.HandleUpdateQuantity(item.id, newQuantity);
    }
  }

  /** handleRemoveClick as written: a click while a removal is in flight is ignored;
      otherwise the whole line object is handed to the storefront's remove handler,
      which looks lines up by id, finds none, and changes nothing. */
  method RemoveClick(app: App.Storefront, item: CartLine, isRemoving: bool) returns (notice: Option<App.RemoveNotice>)
    requires app.store != app.cart as object
    modifies app`cartItems, app.store, app.cart
    ensures notice.None? && app.cartItems == old(app.cartItems) && unchanged(app.store, app.cart)
  {
    if isRemoving {
      return None;
    }
    notice := app.HandleRemoveFromCart(App.ByObject(item));
  }

  /** The line handed over whole matches nothing, although passing its id finds it. */
  lemma RemoveByObjectMissesLine(lines: seq<CartLine>, i: nat)
    requires i < |lines|
    ensures FindFirst(lines, App.KeyMatches(App.ByObject(lines[i]))).None?
    ensures FindFirst(lines, App.KeyMatches(App.ById(lines[i].id))).Some?
  {
    assert App.KeyMatches(App.ById(lines[i].id))(lines[i]);
  }

  /** handleRemoveClick passing `item.id`, as the storefront's handler expects: the
      line and every other line with its id leave the cart, and its units go back to
      the product's stock. */
  method RemoveClickById(app: App.Storefront, item: CartLine, isRemoving: bool) returns (notice: Option<App.RemoveNotice>)
    requires app.store != app.cart as object
    modifies app`cartItems, app.store, app.cart
    ensures isRemoving ==> notice.None? && app.cartItems == old(app.cartItems) && unchanged(app.store, app.cart)
    ensures !isRemoving && item in old(app.cartItems) ==>
      var first := old(app.cartItems)[FindFirst(old(app.cartItems), App.KeyMatches(App.ById(item.id))).value];
      var docs := old(app.store.docs);
      && notice.Some?
      && app.cartItems == RemoveById(old(app.cartItems), item.id)
      && item !in app.cartItems
      && (item.id != "" && item.id in docs ==>
            app.store.docs == docs[item.id := docs[item.id].(stock := docs[item.id].stock + UnitsOf(first.quantity))])
  {
    if isRemoving {
      return None;
    }
    App.KeyMatchesById(item.id);
    notice := app.HandleRemoveFromCart(App.ById(item.id));
  }
}
