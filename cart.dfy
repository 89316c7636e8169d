/**
 * The cart drawer: its summary (8% tax, no shipping) and each line's quantity
 * buttons, which ask for a removal below 1 and for an update otherwise.
 */
module Cart {
  import opened Entities
  import CartSlice
  import CartPage

  /** The drawer's summary. */
  datatype PanelTotals = PanelTotals(subtotal: real, tax: real, total: real)

  function Totals(items: seq<CartLine>): PanelTotals
  {
    var subtotal := Subtotal(items);
    var tax := subtotal * 0.08;
    PanelTotals(subtotal, tax, subtotal + tax)
  }

  /** The total is 108% of `Σ price × quantity`, with no shipping term. */
  lemma TotalsShape(items: seq<CartLine>)
    ensures Totals(items).subtotal == Subtotal(items)
    ensures Totals(items).tax == Totals(items).subtotal * 0.08
    ensures Totals(items).total == Totals(items).subtotal * 1.08
  {
  }

  /** Where every quantity is present, the drawer's subtotal is the cart slice's total. */
  lemma {:induction false} SubtotalIsCartTotal(items: seq<CartLine>)
    requires forall i :: 0 <= i < |items| ==> items[i].quantity >= 1
    ensures Subtotal(items) == CartSlice.CartTotal(items)
  {
    if items != [] {
      SubtotalIsCartTotal(items[..|items| - 1]);
    }
  }

  /** For the storefront's lines with present quantities, the drawer and the cart page
      agree on the subtotal, and their totals differ only by the page's shipping. */
  lemma AgreesWithCartPage(items: seq<CartLine>)
    requires forall i :: 0 <= i < |items| ==> items[i].id != "" && items[i].quantity >= 1
    ensures var page := CartPage.OrderSummary(CartPage.Entries(CartPage.FromLines(items)));
      && Totals(items).subtotal == page.subtotal
      && Totals(items).total == page.total - page.shipping
  {
    SubtotalIsCartTotal(items);
    CartPage.SubtotalOfLines(items);
  }

  /** What a quantity button asks the parent for. */
  datatype QuantityRequest = RemoveItem(id: Id) | UpdateItem(id: Id, quantity: int)

  /** CartItem.handleQuantityChange */
  function QuantityChange(item: CartLine, newQuantity: int): (r: QuantityRequest)
    ensures r.id == item.id
    ensures r.RemoveItem? <==> newQuantity < 1
    ensures r.UpdateItem? ==> r.quantity == newQuantity && r.quantity >= 1
  {
    if newQuantity < 1 then RemoveItem(item.id) else UpdateItem(item.id, newQuantity)
  }

  /** The minus button. */
  function Minus(item: CartLine): QuantityRequest
  {
    QuantityChange(item, item.quantity - 1)
  }

  /** The plus button. */
  function Plus(item: CartLine): QuantityRequest
  {
    QuantityChange(item, item.quantity + 1)
  }

  /** Minus removes a line of quantity 1 (or less) and lowers any larger quantity by one;
      plus on a non-negative quantity always updates, to one more. */
  lemma ButtonsStep(item: CartLine)
    ensures Minus(item) == (if item.quantity <= 1 then RemoveItem(item.id) else UpdateItem(item.id, item.quantity - 1))
    ensures item.quantity >= 0 ==> Plus(item) == UpdateItem(item.id, item.quantity + 1)
  {
  }
}
