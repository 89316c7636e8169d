/**
 * The cart service: the current session's cart document in the `carts`
 * collection (created on demand, upserted, filtered, cleared, replaced) and the
 * recovery of every stored cart into one merged list.
 */
module CartService {
  import opened Wrappers
  import opened Entities

  /** The fields of the product object handed to updateCartItem that the line copies. */
  datatype LineSource = LineSource(id: Id, name: string, price: real, image: string)

  /** The line updateCartItem writes for a product it has not seen in the cart. */
  function NewLine(p: LineSource, quantity: int): CartLine
  {
    CartLine(p.id, p.id, p.name, p.price, p.image, quantity)
  }

  /** The items a read of the document yields: its items, or [] while it does not exist. */
  function ItemsOf(doc: Option<seq<CartLine>>): seq<CartLine>
  {
    match doc
    case Some(items) => items
    case None => []
  }

  /** Lines updateCartItem and removeCartItem treat as the product's line:
      `item.productId === pid || item.id === pid`. */
  function MatchesId(pid: Id): CartLine -> bool
  {
    (l: CartLine) => l.productId == pid || l.id == pid
  }

  function Unmatched(pid: Id): CartLine -> bool
  {
    (l: CartLine) => l.productId != pid && l.id != pid
  }

  /** The document's items after updateCartItem(p, quantity): the first matching
      line gets the quantity and both ids set to the product's id; with no matching
      line a new line is appended. */
  function Upsert(items: seq<CartLine>, p: LineSource, quantity: int): seq<CartLine>
  {
    match FindFirst(items, MatchesId(p.id))
    case Some(i) => items[i := items[i].(quantity := quantity, productId := p.id, id := p.id)]
    case None => items + [NewLine(p, quantity)]
  }

  /** The document's items after removeCartItem(pid). */
  function RemoveMatching(items: seq<CartLine>, pid: Id): (r: seq<CartLine>)
    ensures forall l :: l in r <==> l in items && l.productId != pid && l.id != pid
  {
    Filter(items, Unmatched(pid))
  }

  /** After updateCartItem(p, q) the cart's line for p (the first one matching p's
      id) carries p's id and exactly quantity q; the cart grows by one line exactly
      when no line matched before. */
  lemma UpsertSetsQuantity(items: seq<CartLine>, p: LineSource, quantity: int)
    ensures var r := Upsert(items, p, quantity);
      && FindFirst(r, MatchesId(p.id)).Some?
      && var i := FindFirst(r, MatchesId(p.id)).value;
      && r[i].quantity == quantity && r[i].id == p.id && r[i].productId == p.id
      && |r| == |items| + (if FindFirst(items, MatchesId(p.id)).None? then 1 else 0)
  {
    var r := Upsert(items, p, quantity);
    match FindFirst(items, MatchesId(p.id))
    case Some(i) =>
      FindFirstAt(r, MatchesId(p.id), i);
    case None =>
      FindFirstAt(r, MatchesId(p.id), |items|);
  }

  /** Lines that do not match the product are left exactly as they were. */
  lemma UpsertKeepsOthers(items: seq<CartLine>, p: LineSource, quantity: int, j: nat)
    requires j < |items| && !MatchesId(p.id)(items[j])
    ensures j < |Upsert(items, p, quantity)| && Upsert(items, p, quantity)[j] == items[j]
  {
  }

  /** Writing the same quantity twice is writing it once. */
  lemma UpsertIdempotent(items: seq<CartLine>, p: LineSource, quantity: int)
    ensures Upsert(Upsert(items, p, quantity), p, quantity) == Upsert(items, p, quantity)
  {
    var r := Upsert(items, p, quantity);
    match FindFirst(items, MatchesId(p.id))
    case Some(i) =>
      FindFirstAt(r, MatchesId(p.id), i);
      assert r[i := r[i].(quantity := quantity, productId := p.id, id := p.id)] == r;
    case None =>
      FindFirstAt(r, MatchesId(p.id), |items|);
      assert r[|items| := r[|items|].(quantity := quantity, productId := p.id, id := p.id)] == r;
  }

  lemma FilterSingleDropped<T(!new)>(x: T, keep: T -> bool)
    requires !keep(x)
    ensures Filter([x], keep) == []
  {
    assert [x][1..] == [];
  }

  /** The document's items after updateCartItem when a line matches. */
  lemma UpsertExisting(items: seq<CartLine>, p: LineSource, quantity: int, i: nat)
    requires FindFirst(items, MatchesId(p.id)) == Some(i)
    ensures Upsert(items, p, quantity) == items[i := items[i].(quantity := quantity, productId := p.id, id := p.id)]
  {
  }

  /** The document's items after updateCartItem when no line matches. */
  lemma UpsertNew(items: seq<CartLine>, p: LineSource, quantity: int)
    requires FindFirst(items, MatchesId(p.id)).None?
    ensures Upsert(items, p, quantity) == items + [NewLine(p, quantity)]
  {
  }

  /** Replacing an element the filter drops by another it drops leaves the result alone. */
  lemma FilterReplaceDropped<T(!new)>(s: seq<T>, i: nat, x: T, keep: T -> bool)
    requires i < |s| && !keep(s[i]) && !keep(x)
    ensures Filter(s[i := x], keep) == Filter(s, keep)
  {
    assert s == s[..i] + ([s[i]] + s[i + 1..]);
    assert s[i := x] == s[..i] + ([x] + s[i + 1..]);
    FilterConcat(s[..i], [s[i]] + s[i + 1..], keep);
    FilterConcat([s[i]], s[i + 1..], keep);
    FilterConcat(s[..i], [x] + s[i + 1..], keep);
    FilterConcat([x], s[i + 1..], keep);
    FilterSingleDropped(s[i], keep);
    FilterSingleDropped(x, keep);
  }

  /** removeCartItem(p.id) undoes updateCartItem(p, q): the cart is left as it was
      minus the product's lines. */
  lemma RemoveAfterUpsert(items: seq<CartLine>, p: LineSource, quantity: int)
    ensures RemoveMatching(Upsert(items, p, quantity), p.id) == RemoveMatching(items, p.id)
  {
    var found := FindFirst(items, MatchesId(p.id));
    if found.Some? {
      var i := found.value;
      UpsertExisting(items, p, quantity, i);
      FilterReplaceDropped(items, i, items[i].(quantity := quantity, productId := p.id, id := p.id), Unmatched(p.id));
    } else {
      UpsertNew(items, p, quantity);
      FilterConcat(items, [NewLine(p, quantity)], Unmatched(p.id));
      FilterSingleDropped(NewLine(p, quantity), Unmatched(p.id));
    }
  }

  /** The cart document of the current session. */
  class CartStore {
    /** None until the document is created. */
    var doc: Option<seq<CartLine>>

    constructor (initial: Option<seq<CartLine>>)
      ensures doc == initial
    {
      doc := initial;
    }

    /** loadCart: getOrCreateCart creates an empty document when there is none;
        the items are returned. */
    method LoadCart() returns (items: seq<CartLine>)
      modifies this
      ensures doc == Some(ItemsOf(old(doc)))
      ensures items == ItemsOf(old(doc))
    {
      if doc.None? {
        doc := Some([]);
      }
      items := doc.value;
    }

    /** updateCartItem(product, quantity): creates the document with a single line
        when it does not exist, otherwise upserts the product's line. */
    method UpdateCartItem(p: LineSource, quantity: int)
      modifies this
      ensures doc == Some(Upsert(ItemsOf(old(doc)), p, quantity))
    {
      if doc.None? {
        doc := Some([NewLine(p, quantity)]);
        assert [] + [NewLine(p, quantity)] == [NewLine(p, quantity)];
        return;
      }
      var items := doc.value;
      var index := FindFirst(items, MatchesId(p.id));
      if index.Some? {
        var i := index.value;
        var updated := items[i := items[i].(quantity := quantity, productId := p.id, id := p.id)];
        doc := Some(updated);
      } else {
        doc := Some(items + [NewLine(p, quantity)]);
      }
    }

    /** removeCartItem(pid): drops every line whose productId or id is pid; a
        missing document stays missing. */
    method RemoveCartItem(pid: Id)
      modifies this
      ensures doc == if old(doc).None? then None else Some(RemoveMatching(old(doc).value, pid))
    {
      if doc.Some? {
        doc := Some(RemoveMatching(doc.value, pid));
      }
    }

    /** clearCart */
    method ClearCart()
      modifies this
      ensures doc == Some([])
    {
      doc := Some([]);
    }

    /** replaceCartItems(newItems) */
    method ReplaceCartItems(newItems: seq<CartLine>)
      modifies this
      ensures doc == Some(newItems)
    {
      doc := Some(newItems);
    }
  }

  // ---------------------------------------------------------------------------
  // recoverUserCarts
  // ---------------------------------------------------------------------------

  /** `{ ...item, id: item.id || item.productId, productId: item.productId || item.id }` */
  function Adopted(item: CartLine): CartLine
  {
    item.(id := if item.id != "" then item.id else item.productId,
          productId := if item.productId != "" then item.productId else item.id)
  }

  /** Merged lines an item folds into: `existing.productId === item.productId || existing.id === item.productId`. */
  function MergesWith(item: CartLine): CartLine -> bool
  {
    (e: CartLine) => e.productId == item.productId || e.id == item.productId
  }

  /** The merged list after one more item: its quantity is added to the first line it
      merges with, or a copy with both ids set is appended. */
  function MergeItem(acc: seq<CartLine>, item: CartLine): seq<CartLine>
  {
    match FindFirst(acc, MergesWith(item))
    case Some(i) => acc[i := acc[i].(quantity := acc[i].quantity + item.quantity)]
    case None => acc + [Adopted(item)]
  }

  /** The merged list after the items of one cart, in order. */
  function MergeItems(acc: seq<CartLine>, items: seq<CartLine>): seq<CartLine>
  {
    if items == [] then acc
    else MergeItem(MergeItems(acc, items[..|items| - 1]), items[|items| - 1])
  }

  /** The merged list after every cart, in the order the collection is read. */
  function MergeCarts(carts: seq<seq<CartLine>>): seq<CartLine>
  {
    if carts == [] then []
    else MergeItems(MergeCarts(carts[..|carts| - 1]), carts[|carts| - 1])
  }

  lemma MergeItemExisting(acc: seq<CartLine>, item: CartLine, i: nat)
    requires FindFirst(acc, MergesWith(item)) == Some(i)
    ensures MergeItem(acc, item) == acc[i := acc[i].(quantity := acc[i].quantity + item.quantity)]
  {
  }

  lemma MergeItemNew(acc: seq<CartLine>, item: CartLine)
    requires FindFirst(acc, MergesWith(item)).None?
    ensures MergeItem(acc, item) == acc + [Adopted(item)]
  {
  }

  /** Merging one more item of a cart. */
  lemma MergeItemsSnoc(acc: seq<CartLine>, items: seq<CartLine>, k: nat)
    requires k < |items|
    ensures MergeItems(acc, items[..k + 1]) == MergeItem(MergeItems(acc, items[..k]), items[k])
  {
    assert items[..k + 1][..k] == items[..k];
  }

  /** recoverUserCarts, given the items of every cart document in the collection. */
  method RecoverUserCarts(carts: seq<seq<CartLine>>) returns (allItems: seq<CartLine>)
    ensures allItems == MergeCarts(carts)
  {
    allItems := [];
    var c := 0;
    while c < |carts|
      invariant 0 <= c <= |carts|
      invariant allItems == MergeCarts(carts[..c])
    {
      var items := carts[c];
      if |items| > 0 {
        var k := 0;
        while k < |items|
          invariant 0 <= k <= |items|
          invariant allItems == MergeItems(MergeCarts(carts[..c]), items[..k])
        {
          var item := items[k];
          var index := FindFirst(allItems, MergesWith(item));
          if index.Some? {
            var i := index.value;
            MergeItemExisting(allItems, item, i);
            allItems := allItems[i := allItems[i].(quantity := allItems[i].quantity + item.quantity)];
          } else {
            MergeItemNew(allItems, item);
            allItems := allItems + [Adopted(item)];
          }
          MergeItemsSnoc(MergeCarts(carts[..c]), items, k);
          k := k + 1;
        }
        assert items[..k] == items;
      }
      assert carts[..c + 1][..c] == carts[..c];
      c := c + 1;
    }
    assert carts[..c] == carts;
  }

  // Properties of the merge.

  lemma SumIntSingle<T>(x: T, f: T -> int)
    ensures SumInt([x], f) == f(x)
  {
    assert [x][..0] == [];
  }

  /** Merging one item adds exactly its quantity to the total. */
  lemma MergeItemTotal(acc: seq<CartLine>, item: CartLine)
    ensures TotalQuantity(MergeItem(acc, item)) == TotalQuantity(acc) + item.quantity
  {
    match FindFirst(acc, MergesWith(item))
    case Some(i) =>
      SumIntUpdate(acc, i, acc[i].(quantity := acc[i].quantity + item.quantity), LineQuantity);
    case None =>
      SumIntConcat(acc, [Adopted(item)], LineQuantity);
      SumIntSingle(Adopted(item), LineQuantity);
  }

  lemma {:induction false} MergeItemsTotal(acc: seq<CartLine>, items: seq<CartLine>)
    ensures TotalQuantity(MergeItems(acc, items)) == TotalQuantity(acc) + TotalQuantity(items)
    decreases |items|
  {
    if items != [] {
      MergeItemsTotal(acc, items[..|items| - 1]);
      MergeItemTotal(MergeItems(acc, items[..|items| - 1]), items[|items| - 1]);
    }
  }

  /** Recovery loses no units: the merged total is the sum of every cart's total. */
  lemma {:induction false} MergeCartsTotal(carts: seq<seq<CartLine>>)
    ensures TotalQuantity(MergeCarts(carts)) == SumInt(carts, TotalQuantity)
    decreases |carts|
  {
    if carts != [] {
      MergeCartsTotal(carts[..|carts| - 1]);
      MergeItemsTotal(MergeCarts(carts[..|carts| - 1]), carts[|carts| - 1]);
    }
  }

  /** No two lines of the list carry the same productId. */
  predicate UniqueProducts(lines: seq<CartLine>)
  {
    forall i, j :: 0 <= i < j < |lines| ==> lines[i].productId != lines[j].productId
  }

  /** Every line of every cart names its product. */
  predicate AllNamed(carts: seq<seq<CartLine>>)
  {
    forall c, k :: 0 <= c < |carts| && 0 <= k < |carts[c]| ==> carts[c][k].productId != ""
  }

  lemma MergeItemUnique(acc: seq<CartLine>, item: CartLine)
    requires UniqueProducts(acc) && item.productId != ""
    ensures UniqueProducts(MergeItem(acc, item))
  {
    match FindFirst(acc, MergesWith(item))
    case Some(i) =>
    case None =>
      var r := acc + [Adopted(item)];
      forall i, j | 0 <= i < j < |r|
        ensures r[i].productId != r[j].productId
      {
        if j == |acc| {
          assert !MergesWith(item)(acc[i]);
        }
      }
  }

  lemma {:induction false} MergeItemsUnique(acc: seq<CartLine>, items: seq<CartLine>)
    requires UniqueProducts(acc)
    requires forall k :: 0 <= k < |items| ==> items[k].productId != ""
    ensures UniqueProducts(MergeItems(acc, items))
    decreases |items|
  {
    if items != [] {
      MergeItemsUnique(acc, items[..|items| - 1]);
      MergeItemUnique(MergeItems(acc, items[..|items| - 1]), items[|items| - 1]);
    }
  }

  /** When every stored line names its product, recovery yields one line per product. */
  lemma {:induction false} MergeCartsUnique(carts: seq<seq<CartLine>>)
    requires AllNamed(carts)
    ensures UniqueProducts(MergeCarts(carts))
    decreases |carts|
  {
    if carts != [] {
      var n := |carts| - 1;
      assert AllNamed(carts[..n]) by {
        forall c, k | 0 <= c < n && 0 <= k < |carts[..n][c]|
          ensures carts[..n][c][k].productId != ""
        {
          assert carts[..n][c] == carts[c];
        }
      }
      MergeCartsUnique(carts[..n]);
      MergeItemsUnique(MergeCarts(carts[..n]), carts[n]);
    }
  }

  /** Both ids of a line are present. */
  predicate Identified(l: CartLine)
  {
    l.id != "" && l.productId != ""
  }

  lemma {:induction false} MergeItemsIdentified(acc: seq<CartLine>, items: seq<CartLine>)
    requires forall i :: 0 <= i < |acc| ==> Identified(acc[i])
    requires forall k :: 0 <= k < |items| ==> items[k].id != "" || items[k].productId != ""
    ensures forall i :: 0 <= i < |MergeItems(acc, items)| ==> Identified(MergeItems(acc, items)[i])
    decreases |items|
  {
    if items != [] {
      MergeItemsIdentified(acc, items[..|items| - 1]);
    }
  }

  /** Every line of every cart has an id or a productId. */
  predicate AllIdentifiable(carts: seq<seq<CartLine>>)
  {
    forall c, k :: 0 <= c < |carts| && 0 <= k < |carts[c]| ==> carts[c][k].id != "" || carts[c][k].productId != ""
  }

  /** Every recovered line carries both an id and a productId, provided every stored
      line has at least one of them. */
  lemma {:induction false} MergeCartsIdentified(carts: seq<seq<CartLine>>)
    requires AllIdentifiable(carts)
    ensures forall i :: 0 <= i < |MergeCarts(carts)| ==> Identified(MergeCarts(carts)[i])
    decreases |carts|
  {
    if carts != [] {
      var n := |carts| - 1;
      assert AllIdentifiable(carts[..n]) by {
        forall c, k | 0 <= c < n && 0 <= k < |carts[..n][c]|
          ensures carts[..n][c][k].id != "" || carts[..n][c][k].productId != ""
        {
          assert carts[..n][c] == carts[c];
        }
      }
      MergeCartsIdentified(carts[..n]);
      MergeItemsIdentified(MergeCarts(carts[..n]), carts[n]);
    }
  }
}
