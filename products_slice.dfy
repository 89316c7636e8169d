/**
 * The products slice of the Redux store: the reducers that keep the loaded product
 * list, the search term and the sort key, and the selector that filters the list
 * by the search term and sorts it.
 */
module ProductsSlice {
  import opened Wrappers
  import opened Js
  import opened Entities

  // ---------------------------------------------------------------------------
  // The filter
  // ---------------------------------------------------------------------------

  /** Products whose name or description contains the (already lower-cased) needle,
      once lower-cased themselves. */
  function MatchesLowered(needle: string): Product -> bool
  {
    (p: Product) => Includes(ToLower(p.name), needle) || Includes(ToLower(p.description), needle)
  }

  /** The search filter for a term: a case-insensitive substring test on name or description. */
  function MatchesTerm(term: string): Product -> bool
  {
    MatchesLowered(ToLower(term))
  }

  /** Every string contains the empty string. */
  lemma IncludesEmpty(s: string)
    ensures Includes(s, "")
  {
    assert s[..0] == "";
  }

  /** Lower-casing twice is lower-casing once. */
  lemma ToLowerIdempotent(s: string)
    ensures ToLower(ToLower(s)) == ToLower(s)
  {
  }

  // ---------------------------------------------------------------------------
  // The sort
  // ---------------------------------------------------------------------------

  /** The comparator the `sortBy` key selects. */
  datatype SortMode = PriceLow | PriceHigh | ByName

  /** `switch (sortBy)`: "price-low", "price-high", and anything else ("name" or the
      default case) compares names. */
  function ModeOf(sortBy: string): SortMode
  {
    if sortBy == "price-low" then PriceLow
    else if sortBy == "price-high" then PriceHigh
    else ByName
  }

  /** a may stay ahead of b: the comparator does not place b strictly before a. */
  predicate Le(m: SortMode, a: Product, b: Product)
  {
    match m
    case PriceLow => a.price <= b.price
    case PriceHigh => b.price <= a.price
    case ByName => !Before(b.name, a.name)
  }

  lemma LeTotal(m: SortMode, a: Product, b: Product)
    ensures Le(m, a, b) || Le(m, b, a)
  {
    if m == ByName && Before(b.name, a.name) {
      BeforeAsymmetric(b.name, a.name);
    }
  }

  lemma LeTransitive(m: SortMode, a: Product, b: Product, c: Product)
    requires Le(m, a, b) && Le(m, b, c)
    ensures Le(m, a, c)
  {
    if m == ByName && Before(c.name, a.name) {
      if a.name == b.name {
      } else if Before(a.name, b.name) {
        BeforeTransitive(c.name, a.name, b.name);
      } else {
        BeforeTotal(a.name, b.name);
      }
    }
  }

  /** Every product is at least as early as every later one. */
  predicate Sorted(m: SortMode, s: seq<Product>)
  {
    forall i, j :: 0 <= i < j < |s| ==> Le(m, s[i], s[j])
  }

  /** Inserts x into a sorted list after every element the comparator does not place
      strictly after x, so equal elements keep their arrival order. */
  function Insert(m: SortMode, x: Product, s: seq<Product>): (r: seq<Product>)
    ensures multiset(r) == multiset(s) + multiset{x}
  {
    if s == [] then [x]
    else if !Le(m, s[0], x) then [x] + s
    else
      assert s == [s[0]] + s[1..];
      [s[0]] + Insert(m, x, s[1..])
  }

  /** Array.prototype.sort with the mode's comparator: a stable insertion sort. */
  function SortBy(m: SortMode, s: seq<Product>): (r: seq<Product>)
    ensures multiset(r) == multiset(s)
  {
    if s == [] then []
    else
      assert s == s[..|s| - 1] + [s[|s| - 1]];
      Insert(m, s[|s| - 1], SortBy(m, s[..|s| - 1]))
  }

  lemma {:induction false} InsertSorted(m: SortMode, x: Product, s: seq<Product>)
    requires Sorted(m, s)
    ensures Sorted(m, Insert(m, x, s))
  {
    if s == [] {
    } else if !Le(m, s[0], x) {
      LeTotal(m, s[0], x);
      forall j | 0 <= j < |s|
        ensures Le(m, x, s[j])
      {
        if j > 0 {
          LeTransitive(m, x, s[0], s[j]);
        }
      }
    } else {
      InsertSorted(m, x, s[1..]);
      var rest := Insert(m, x, s[1..]);
      forall i | 0 <= i < |rest|
        ensures Le(m, s[0], rest[i])
      {
        assert rest[i] in multiset(rest);
        if rest[i] != x {
          assert rest[i] in multiset(s[1..]);
          var k :| 0 <= k < |s[1..]| && s[1..][k] == rest[i];
          assert s[k + 1] == rest[i];
        }
      }
    }
  }

  lemma {:induction false} SortBySorted(m: SortMode, s: seq<Product>)
    ensures Sorted(m, SortBy(m, s))
  {
    if s != [] {
      SortBySorted(m, s[..|s| - 1]);
      InsertSorted(m, s[|s| - 1], SortBy(m, s[..|s| - 1]));
    }
  }

  /** selectFilteredAndSortedProducts: exactly the matching items, as a permutation of
      the filtered list, in the order the sort key asks for. */
  function FilterAndSort(items: seq<Product>, term: string, sortBy: string): (r: seq<Product>)
    ensures multiset(r) == multiset(Filter(items, MatchesTerm(term)))
    ensures forall p :: p in r <==> p in items && MatchesTerm(term)(p)
    ensures Sorted(ModeOf(sortBy), r)
  {
    SortBySorted(ModeOf(sortBy), Filter(items, MatchesTerm(term)));
    SameMembers(SortBy(ModeOf(sortBy), Filter(items, MatchesTerm(term))), Filter(items, MatchesTerm(term)));
    SortBy(ModeOf(sortBy), Filter(items, MatchesTerm(term)))
  }

  lemma SameMembers<T>(a: seq<T>, b: seq<T>)
    requires multiset(a) == multiset(b)
    ensures forall x :: x in a <==> x in b
  {
    forall x
      ensures x in a <==> x in b
    {
      assert x in a <==> x in multiset(a);
      assert x in b <==> x in multiset(b);
    }
  }

  /** An empty search term keeps every item. */
  lemma FilterAndSortEmptyTerm(items: seq<Product>, sortBy: string)
    ensures multiset(FilterAndSort(items, "", sortBy)) == multiset(items)
  {
    forall p | p in items
      ensures MatchesTerm("")(p)
    {
      IncludesEmpty(ToLower(p.name));
    }
    FilterKeepsAll(items, MatchesTerm(""));
  }

  /** The term's letter case does not matter. */
  lemma FilterAndSortIgnoresCase(items: seq<Product>, term: string, sortBy: string)
    ensures FilterAndSort(items, ToLower(term), sortBy) == FilterAndSort(items, term, sortBy)
  {
    ToLowerIdempotent(term);
  }

  /** With "price-low" prices never go down along the result; with "price-high" they
      never go up. */
  lemma FilterAndSortPriceOrder(items: seq<Product>, term: string, sortBy: string)
    ensures var r := FilterAndSort(items, term, sortBy);
      && (sortBy == "price-low" ==> forall i, j :: 0 <= i < j < |r| ==> r[i].price <= r[j].price)
      && (sortBy == "price-high" ==> forall i, j :: 0 <= i < j < |r| ==> r[i].price >= r[j].price)
  {
    var r := FilterAndSort(items, term, sortBy);
    assert Sorted(ModeOf(sortBy), r);
  }

  // ---------------------------------------------------------------------------
  // The slice state and its reducers
  // ---------------------------------------------------------------------------

  class ProductsState {
    var items: seq<Product>
    var loading: bool
    var error: Option<string>
    var searchTerm: string
    var sortBy: string

    /** initialState */
    constructor ()
      ensures items == [] && !loading && error.None? && searchTerm == "" && sortBy == "name"
    {
      items := [];
      loading := false;
      error := None;
      searchTerm := "";
      sortBy := "name";
    }

    method SetSearchTerm(term: string)
      modifies this`searchTerm
      ensures searchTerm == term
    {
      searchTerm := term;
    }

    method SetSortBy(key: string)
      modifies this`sortBy
      ensures sortBy == key
    {
      sortBy := key;
    }

    method ClearError()
      modifies this`error
      ensures error.None?
    {
      error := None;
    }

    /** fetchProducts.pending */
    method FetchPending()
      modifies this`loading, this`error
      ensures loading && error.None?
    {
      loading := true;
      error := None;
    }

    /** fetchProducts.fulfilled */
    method FetchFulfilled(payload: seq<Product>)
      modifies this`loading, this`items
      ensures !loading && items == payload
    {
      loading := false;
      items := payload;
    }

    /** fetchProducts.rejected */
    method FetchRejected(message: string)
      modifies this`loading, this`error
      ensures !loading && error == Some(message)
    {
      loading := false;
      error := Some(message);
    }

    /** addProduct.rejected, updateProduct.rejected and deleteProduct.rejected */
    method OperationRejected(message: string)
      modifies this`error
      ensures error == Some(message)
    {
      error := Some(message);
    }

    /** addProduct.fulfilled: the new product goes to the end. */
    method AddFulfilled(payload: Product)
      modifies this`items
      ensures items == old(items) + [payload]
    {
      items := items + [payload];
    }

    /** updateProduct.fulfilled: the first item with the payload's id is replaced. */
    method UpdateFulfilled(payload: Product)
      modifies this`items
      ensures items == ReplaceFirst(old(items), payload)
    {
      var index := FindFirst(items, ProductHasId(payload.id));
      if index.Some? {
        items := items[index.value := payload];
      }
    }

    /** deleteProduct.fulfilled */
    method DeleteFulfilled(id: Id)
      modifies this`items
      ensures items == Filter(old(items), ProductLacksId(id))
    {
      items := Filter(items, ProductLacksId(id));
    }
  }

  /** The list after updateProduct.fulfilled. */
  function ReplaceFirst(items: seq<Product>, payload: Product): (r: seq<Product>)
    ensures |r| == |items|
    ensures FindFirst(items, ProductHasId(payload.id)).None? ==> r == items
    ensures FindFirst(items, ProductHasId(payload.id)).Some? ==>
      var i := FindFirst(items, ProductHasId(payload.id)).value;
      r[i] == payload && forall j :: 0 <= j < |items| && j != i ==> r[j] == items[j]
  {
    match FindFirst(items, ProductHasId(payload.id))
    case Some(i) => items[i := payload]
    case None => items
  }

  /** Replacing the first item with an id leaves every item with another id in place
      and keeps all items with that id but the first. */
  lemma ReplaceFirstKeepsOthers(items: seq<Product>, payload: Product)
    ensures Filter(ReplaceFirst(items, payload), ProductLacksId(payload.id)) == Filter(items, ProductLacksId(payload.id))
  {
    match FindFirst(items, ProductHasId(payload.id))
    case None =>
    case Some(i) =>
      var r := ReplaceFirst(items, payload);
      assert items == items[..i] + [items[i]] + items[i + 1..];
      assert r == items[..i] + [payload] + items[i + 1..];
      FilterConcat(items[..i] + [items[i]], items[i + 1..], ProductLacksId(payload.id));
      FilterConcat(items[..i], [items[i]], ProductLacksId(payload.id));
      FilterConcat(items[..i] + [payload], items[i + 1..], ProductLacksId(payload.id));
      FilterConcat(items[..i], [payload], ProductLacksId(payload.id));
  }

  /** Deleting keeps the other items in order and drops exactly those with the id. */
  lemma DeletePartition(items: seq<Product>, id: Id)
    ensures forall p :: p in Filter(items, ProductLacksId(id)) <==> p in items && p.id != id
    ensures multiset(Filter(items, ProductLacksId(id))) + multiset(Filter(items, ProductHasId(id))) == multiset(items)
  {
    FilterPartition(items, ProductLacksId(id), ProductHasId(id));
  }
}
