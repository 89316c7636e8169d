/**
 * The cart slice of the Redux store: local cart edits for immediate feedback, the
 * cases that fold the results of the cart thunks back into the list, the drawer's
 * open flag, and the count and total selectors.
 */
module CartSlice {
  import opened Wrappers
  import opened Js
  import opened Entities

  /** Lines for the given product. */
  function ForProduct(pid: Id): CartLine -> bool
  {
    (l: CartLine) => l.productId == pid
  }

  /** Placeholder lines for the given product: same productId and a `temp-` id. */
  function TempFor(pid: Id): CartLine -> bool
  {
    (l: CartLine) => l.productId == pid && StartsWith(l.id, "temp-")
  }

  /** The placeholder line addToCartLocal pushes, stamped with the current time. */
  function TempLine(product: Product, now: nat): CartLine
  {
    CartLine("temp-" + Decimal(now), product.id, product.name, product.price, product.image, 1)
  }

  /** The list after addToCartLocal: one more unit on the first line for the product,
      or a placeholder line with one unit. */
  function AddLocal(items: seq<CartLine>, product: Product, now: nat): (r: seq<CartLine>)
    ensures |items| <= |r| <= |items| + 1
  {
    match FindFirst(items, ForProduct(product.id))
    case Some(i) => items[i := items[i].(quantity := items[i].quantity + 1)]
    case None => items + [TempLine(product, now)]
  }

  /** The list after updateCartItemLocal or updateCartItemFirestore.fulfilled: only the
      first line with the id takes the quantity. */
  function SetFirstQuantity(items: seq<CartLine>, id: Id, quantity: int): (r: seq<CartLine>)
    ensures |r| == |items|
    ensures FindFirst(items, HasId(id)).None? ==> r == items
    ensures FindFirst(items, HasId(id)).Some? ==>
      var i := FindFirst(items, HasId(id)).value;
      r[i] == items[i].(quantity := quantity) && r[i].id == id
      && forall j :: 0 <= j < |items| && j != i ==> r[j] == items[j]
  {
    match FindFirst(items, HasId(id))
    case Some(i) => items[i := items[i].(quantity := quantity)]
    case None => items
  }

  /** The list after addToCartFirestore.fulfilled: the stored line takes the place of
      the first placeholder for its product, or is appended. */
  function ReplaceTemp(items: seq<CartLine>, payload: CartLine): (r: seq<CartLine>)
    ensures |items| <= |r| <= |items| + 1
    ensures payload in r
    ensures match FindFirst(items, TempFor(payload.productId))
      case Some(i) =>
        |r| == |items| && r[i] == payload
        && forall j :: 0 <= j < |items| && j != i ==> r[j] == items[j]
      case None => r == items + [payload]
  {
    match FindFirst(items, TempFor(payload.productId))
    case Some(i) =>
      assert items[i := payload][i] == payload;
      items[i := payload]
    case None => items + [payload]
  }

  /** `selectCartTotal`: each line's price times `quantity || 1`. */
  function LineTotal(l: CartLine): real
  {
    l.price * UnitsOf(l.quantity) as real
  }

  function CartTotal(items: seq<CartLine>): real
  {
    SumReal(items, LineTotal)
  }

  /** One more unit on a line with a present quantity adds one to the item count. */
  lemma IncrementCount(items: seq<CartLine>, i: nat)
    requires i < |items| && items[i].quantity >= 1
    ensures ItemCount(items[i := items[i].(quantity := items[i].quantity + 1)]) == ItemCount(items) + 1
  {
    ItemCountIsSum(items);
    ItemCountIsSum(items[i := items[i].(quantity := items[i].quantity + 1)]);
    SumIntUpdate(items, i, items[i].(quantity := items[i].quantity + 1), LineUnits);
  }

  /** In a cart whose quantities are all present (at least 1), a local add raises the
      item count by exactly one. */
  lemma AddLocalCount(items: seq<CartLine>, product: Product, now: nat)
    requires forall j :: 0 <= j < |items| ==> items[j].quantity >= 1
    ensures ItemCount(AddLocal(items, product, now)) == ItemCount(items) + 1
  {
    var found := FindFirst(items, ForProduct(product.id));
    if found.Some? {
      var i := found.value;
      AddLocalExisting(items, product, now, i);
      IncrementCount(items, i);
    } else {
      AddLocalNew(items, product, now);
      AppendCount(items, TempLine(product, now));
    }
  }

  lemma AppendCount(items: seq<CartLine>, l: CartLine)
    ensures ItemCount(items + [l]) == ItemCount(items) + LineUnits(l)
  {
    assert (items + [l])[..|items|] == items;
  }

  /** In a cart whose quantities are all present (at least 1), a local add raises the
      total by the price of the line that gets the unit: the existing line's price
      when the product is already in the cart, the product's price otherwise. */
  lemma AddLocalTotal(items: seq<CartLine>, product: Product, now: nat)
    requires forall j :: 0 <= j < |items| ==> items[j].quantity >= 1
    ensures FindFirst(items, ForProduct(product.id)).Some? ==>
      CartTotal(AddLocal(items, product, now)) ==
        CartTotal(items) + items[FindFirst(items, ForProduct(product.id)).value].price
    ensures FindFirst(items, ForProduct(product.id)).None? ==>
      CartTotal(AddLocal(items, product, now)) == CartTotal(items) + product.price
  {
    var found := FindFirst(items, ForProduct(product.id));
    if found.Some? {
      var i := found.value;
      AddLocalExisting(items, product, now, i);
      IncrementTotal(items, i);
    } else {
      AddLocalNew(items, product, now);
      AppendTotal(items, TempLine(product, now));
      TempLineTotal(product, now);
    }
  }

  lemma AddLocalExisting(items: seq<CartLine>, product: Product, now: nat, i: nat)
    requires FindFirst(items, ForProduct(product.id)) == Some(i)
    ensures AddLocal(items, product, now) == items[i := items[i].(quantity := items[i].quantity + 1)]
  {
  }

  lemma AddLocalNew(items: seq<CartLine>, product: Product, now: nat)
    requires FindFirst(items, ForProduct(product.id)).None?
    ensures AddLocal(items, product, now) == items + [TempLine(product, now)]
  {
  }

  lemma TempLineTotal(product: Product, now: nat)
    ensures LineTotal(TempLine(product, now)) == product.price
  {
  }

  lemma AppendTotal(items: seq<CartLine>, l: CartLine)
    ensures CartTotal(items + [l]) == CartTotal(items) + LineTotal(l)
  {
    assert (items + [l])[..|items|] == items;
  }

  /** One more unit on a line with a present quantity adds the line's price to the total. */
  lemma IncrementTotal(items: seq<CartLine>, i: nat)
    requires i < |items| && items[i].quantity >= 1
    ensures CartTotal(items[i := items[i].(quantity := items[i].quantity + 1)]) == CartTotal(items) + items[i].price
  {
    var line := items[i].(quantity := items[i].quantity + 1);
    SumRealUpdate(items, i, line, LineTotal);
    var q := items[i].quantity as real;
    assert (items[i].quantity + 1) as real == q + 1.0;
    assert LineTotal(items[i]) == items[i].price * q;
    assert LineTotal(line) == items[i].price * (q + 1.0);
  }

  /** A local add either raises the first line of the product by one unit and touches
      nothing else, or appends the placeholder line built from the product: one unit,
      the product's name, price and image, and a `temp-` id. */
  lemma AddLocalShape(items: seq<CartLine>, product: Product, now: nat)
    ensures FindFirst(items, ForProduct(product.id)).Some? ==>
      var i := FindFirst(items, ForProduct(product.id)).value;
      && AddLocal(items, product, now) == items[i := items[i].(quantity := items[i].quantity + 1)]
      && items[i].productId == product.id
    ensures FindFirst(items, ForProduct(product.id)).None? ==>
      var line := TempLine(product, now);
      && AddLocal(items, product, now) == items + [line]
      && line.productId == product.id && line.quantity == 1
      && line.name == product.name && line.price == product.price
      && line.image == product.image && StartsWith(line.id, "temp-")
  {
    var found := FindFirst(items, ForProduct(product.id));
    if found.Some? {
      AddLocalExisting(items, product, now, found.value);
    } else {
      AddLocalNew(items, product, now);
      TempLineShape(product, now);
    }
  }

  lemma TempLineShape(product: Product, now: nat)
    ensures var t := TempLine(product, now);
      && t.productId == product.id && t.quantity == 1
      && t.name == product.name && t.price == product.price && t.image == product.image
      && StartsWith(t.id, "temp-")
  {
    assert ("temp-" + Decimal(now))[..5] == "temp-";
  }

  /** Adding a product that is not yet in the cart, then receiving the stored line for
      it, leaves exactly the old lines followed by the stored line. */
  lemma AddThenStore(items: seq<CartLine>, product: Product, now: nat, payload: CartLine)
    requires FindFirst(items, ForProduct(product.id)).None?
    requires payload.productId == product.id
    ensures ReplaceTemp(AddLocal(items, product, now), payload) == items + [payload]
  {
    var added := AddLocal(items, product, now);
    assert added == items + [TempLine(product, now)];
    assert ("temp-" + Decimal(now))[..5] == "temp-";
    assert TempFor(payload.productId)(added[|items|]);
    FindFirstAt(added, TempFor(payload.productId), |items|);
  }

  /** Setting a quantity changes the summed quantity by the difference on the one
      line it touches. */
  lemma SetFirstQuantityTotal(items: seq<CartLine>, id: Id, quantity: int)
    ensures FindFirst(items, HasId(id)).Some? ==>
      TotalQuantity(SetFirstQuantity(items, id, quantity)) ==
        TotalQuantity(items) - items[FindFirst(items, HasId(id)).value].quantity + quantity
  {
    match FindFirst(items, HasId(id))
    case Some(i) =>
      SumIntUpdate(items, i, items[i].(quantity := quantity), LineQuantity);
    case None =>
  }

  class CartState {
    var items: seq<CartLine>
    var loading: bool
    var error: Option<string>
    var isOpen: bool

    /** initialState */
    constructor ()
      ensures items == [] && !loading && error.None? && !isOpen
    {
      items := [];
      loading := false;
      error := None;
      isOpen := false;
    }

    method ToggleCart()
      modifies this`isOpen
      ensures isOpen == !old(isOpen)
    {
      isOpen := !isOpen;
    }

    method CloseCart()
      modifies this`isOpen
      ensures !isOpen
    {
      isOpen := false;
    }

    method ClearError()
      modifies this`error
      ensures error.None?
    {
      error := None;
    }

    method AddToCartLocal(product: Product, now: nat)
      modifies this`items
      ensures items == AddLocal(old(items), product, now)
    {
      var existing := FindFirst(items, ForProduct(product.id));
      if existing.Some? {
        var i := existing.value;
        items := items[i := items[i].(quantity := items[i].quantity + 1)];
      } else {
        items := items + [TempLine(product, now)];
      }
    }

    method UpdateCartItemLocal(id: Id, quantity: int)
      modifies this`items
      ensures items == SetFirstQuantity(old(items), id, quantity)
    {
      var found := FindFirst(items, HasId(id));
      if found.Some? {
        var i := found.value;
        items := items[i := items[i].(quantity := quantity)];
      }
    }

    method RemoveFromCartLocal(id: Id)
      modifies this`items
      ensures items == RemoveById(old(items), id)
    {
      items := RemoveById(items, id);
    }

    /** fetchCartItems.pending */
    method FetchPending()
      modifies this`loading, this`error
      ensures loading && error.None?
    {
      loading := true;
      error := None;
    }

    /** fetchCartItems.fulfilled */
    method FetchFulfilled(payload: seq<CartLine>)
      modifies this`loading, this`items
      ensures !loading && items == payload
    {
      loading := false;
      items := payload;
    }

    /** fetchCartItems.rejected */
    method FetchRejected(message: string)
      modifies this`loading, this`error
      ensures !loading && error == Some(message)
    {
      loading := false;
      error := Some(message);
    }

    /** addToCartFirestore.fulfilled */
    method AddFulfilled(payload: CartLine)
      modifies this`items
      ensures items == ReplaceTemp(old(items), payload)
    {
      var tempIndex := FindFirst(items, TempFor(payload.productId));
      if tempIndex.Some? {
        items := items[tempIndex.value := payload];
      } else {
        items := items + [payload];
      }
    }

    /** updateCartItemFirestore.fulfilled: the same edit as the local one. */
    method UpdateFulfilled(id: Id, quantity: int)
      modifies this`items
      ensures items == SetFirstQuantity(old(items), id, quantity)
    {
      UpdateCartItemLocal(id, quantity);
    }

    /** removeFromCartFirestore.fulfilled: the same filter as the local removal. */
    method RemoveFulfilled(id: Id)
      modifies this`items
      ensures items == RemoveById(old(items), id)
    {
      RemoveFromCartLocal(id);
    }

    /** addToCartFirestore.rejected, updateCartItemFirestore.rejected and
        removeFromCartFirestore.rejected */
    method OperationRejected(message: string)
      modifies this`error
      ensures error == Some(message)
    {
      error := Some(message);
    }

    /** Toggling the drawer twice leaves it as it was. */
    method ToggleTwice()
      modifies this`isOpen
      ensures isOpen == old(isOpen)
    {
      ToggleCart();
      ToggleCart();
    }
  }
}
