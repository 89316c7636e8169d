/**
 * The storefront's records (products and cart line items) and the generic list
 * operations the handlers and reducers are built from: Array.prototype.find /
 * findIndex, filter, and sums over line items.
 */
module Entities {
  import opened Wrappers

  /** A document id. The empty string stands for a missing id (falsy, like undefined). */
  type Id = string

  /** A product document as stored in the `products` collection; the id lives outside the data. */
  datatype ProductDoc = ProductDoc(name: string, description: string, price: real, stock: int, image: string)

  /** A product as the views hold it: `{ id: snapshot.id, ...snapshot.data() }`. */
  datatype Product = Product(id: Id, name: string, description: string, price: real, stock: int, image: string)

  function WithId(id: Id, d: ProductDoc): Product
  {
    Product(id, d.name, d.description, d.price, d.stock, d.image)
  }

  /** A cart line item. A quantity of 0 stands for a missing quantity (falsy). */
  datatype CartLine = CartLine(id: Id, productId: Id, name: string, price: real, image: string, quantity: int)

  /** `quantity || 1`: the number of units a line counts for. */
  function UnitsOf(q: int): int
  {
    if q == 0 then 1 else q
  }

  // ---------------------------------------------------------------------------
  // find / findIndex and filter
  // ---------------------------------------------------------------------------

  /** Array.prototype.findIndex, None for -1: the first position whose element satisfies p. */
  function FindFirst<T>(s: seq<T>, p: T -> bool): (r: Option<nat>)
    ensures r.Some? ==> r.value < |s| && p(s[r.value])
    ensures r.Some? ==> forall j :: 0 <= j < r.value ==> !p(s[j])
    ensures r.None? <==> forall j :: 0 <= j < |s| ==> !p(s[j])
  {
    if s == [] then None
    else if p(s[0]) then Some(0)
    else match FindFirst(s[1..], p)
      case None => None
      case Some(k) => Some(k + 1)
  }

  /** The first position satisfying p is what findIndex reports. */
  lemma FindFirstAt<T>(s: seq<T>, p: T -> bool, i: nat)
    requires i < |s| && p(s[i])
    requires forall j :: 0 <= j < i ==> !p(s[j])
    ensures FindFirst(s, p) == Some(i)
  {
  }

  /** Two tests that agree on every element find the same position. */
  lemma {:induction false} FindFirstSame<T>(s: seq<T>, p: T -> bool, q: T -> bool)
    requires forall j :: 0 <= j < |s| ==> p(s[j]) == q(s[j])
    ensures FindFirst(s, p) == FindFirst(s, q)
  {
    if s != [] {
      FindFirstSame(s[1..], p, q);
    }
  }

  /** Array.prototype.filter */
  function Filter<T(!new)>(s: seq<T>, keep: T -> bool): (r: seq<T>)
    ensures |r| <= |s|
    ensures forall x :: x in r <==> x in s && keep(x)
  {
    if s == [] then [] else (if keep(s[0]) then [s[0]] else []) + Filter(s[1..], keep)
  }

  /** filter distributes over concatenation, so it keeps the order of what it keeps. */
  lemma {:induction false} FilterConcat<T(!new)>(a: seq<T>, b: seq<T>, keep: T -> bool)
    ensures Filter(a + b, keep) == Filter(a, keep) + Filter(b, keep)
  {
    if a != [] {
      assert (a + b)[1..] == a[1..] + b;
      FilterConcat(a[1..], b, keep);
    } else {
      assert a + b == b;
    }
  }

  /** What filter drops and what it keeps make up the input. */
  lemma {:induction false} FilterPartition<T(!new)>(s: seq<T>, keep: T -> bool, drop: T -> bool)
    requires forall x :: drop(x) <==> !keep(x)
    ensures multiset(Filter(s, keep)) + multiset(Filter(s, drop)) == multiset(s)
  {
    if s != [] {
      var rest := s[1..];
      FilterPartition(rest, keep, drop);
      assert drop(s[0]) == !keep(s[0]);
      assert s == [s[0]] + rest;
      PartitionStep(s[0], rest, Filter(rest, keep), Filter(rest, drop), keep(s[0]), Filter(s, keep), Filter(s, drop));
    }
  }

  /** Putting x in front of one of two parts of rest gives two parts of `[x] + rest`. */
  lemma PartitionStep<T>(x: T, rest: seq<T>, a: seq<T>, b: seq<T>, inA: bool, a': seq<T>, b': seq<T>)
    requires multiset(a) + multiset(b) == multiset(rest)
    requires a' == (if inA then [x] else []) + a
    requires b' == (if inA then [] else [x]) + b
    ensures multiset(a') + multiset(b') == multiset([x] + rest)
  {
    assert multiset([x] + rest) == multiset{x} + multiset(rest);
    if inA {
      assert multiset(a') == multiset{x} + multiset(a);
      assert b' == b;
    } else {
      assert a' == a;
      assert multiset(b') == multiset{x} + multiset(b);
    }
  }

  /** A filter that rejects nothing is the identity. */
  lemma {:induction false} FilterKeepsAll<T(!new)>(s: seq<T>, keep: T -> bool)
    requires forall x :: x in s ==> keep(x)
    ensures Filter(s, keep) == s
  {
    if s != [] {
      FilterKeepsAll(s[1..], keep);
    }
  }

  /** Lines whose `id` is the given id. */
  function HasId(id: Id): CartLine -> bool
  {
    (l: CartLine) => l.id == id
  }

  /** Lines whose `id` is not the given id. */
  function LacksId(id: Id): CartLine -> bool
  {
    (l: CartLine) => l.id != id
  }

  /** Products whose `id` is the given id. */
  function ProductHasId(id: Id): Product -> bool
  {
    (p: Product) => p.id == id
  }

  /** Products whose `id` is not the given id. */
  function ProductLacksId(id: Id): Product -> bool
  {
    (p: Product) => p.id != id
  }

  /** `lines.filter(item => item.id !== id)` */
  function RemoveById(lines: seq<CartLine>, id: Id): (r: seq<CartLine>)
    ensures forall l :: l in r <==> l in lines && l.id != id
  {
    Filter(lines, LacksId(id))
  }

  /** Removing by id drops exactly the lines with that id and keeps the rest. */
  lemma RemoveByIdPartition(lines: seq<CartLine>, id: Id)
    ensures multiset(RemoveById(lines, id)) + multiset(Filter(lines, HasId(id))) == multiset(lines)
  {
    FilterPartition(lines, LacksId(id), HasId(id));
  }

  // ---------------------------------------------------------------------------
  // Sums over line items
  // ---------------------------------------------------------------------------

  /** Sum of f over s, accumulated from the front as Array.prototype.reduce does. */
  function SumInt<T>(s: seq<T>, f: T -> int): int
  {
    if s == [] then 0 else SumInt(s[..|s| - 1], f) + f(s[|s| - 1])
  }

  function SumReal<T>(s: seq<T>, f: T -> real): real
  {
    if s == [] then 0.0 else SumReal(s[..|s| - 1], f) + f(s[|s| - 1])
  }

  lemma {:induction false} SumIntConcat<T>(a: seq<T>, b: seq<T>, f: T -> int)
    ensures SumInt(a + b, f) == SumInt(a, f) + SumInt(b, f)
    decreases |b|
  {
    if b != [] {
      assert (a + b)[..|a + b| - 1] == a + b[..|b| - 1];
      SumIntConcat(a, b[..|b| - 1], f);
    } else {
      assert a + b == a;
    }
  }

  lemma {:induction false} SumRealConcat<T>(a: seq<T>, b: seq<T>, f: T -> real)
    ensures SumReal(a + b, f) == SumReal(a, f) + SumReal(b, f)
    decreases |b|
  {
    if b != [] {
      assert (a + b)[..|a + b| - 1] == a + b[..|b| - 1];
      SumRealConcat(a, b[..|b| - 1], f);
    } else {
      assert a + b == a;
    }
  }

  /** Changing one element changes the sum by the difference at that element. */
  lemma {:induction false} SumIntUpdate<T>(s: seq<T>, i: nat, x: T, f: T -> int)
    requires i < |s|
    ensures SumInt(s[i := x], f) == SumInt(s, f) - f(s[i]) + f(x)
    decreases |s|
  {
    if i < |s| - 1 {
      assert s[i := x][..|s| - 1] == s[..|s| - 1][i := x];
      SumIntUpdate(s[..|s| - 1], i, x, f);
    } else {
      assert s[i := x][..|s| - 1] == s[..|s| - 1];
    }
  }

  lemma {:induction false} SumRealUpdate<T>(s: seq<T>, i: nat, x: T, f: T -> real)
    requires i < |s|
    ensures SumReal(s[i := x], f) == SumReal(s, f) - f(s[i]) + f(x)
    decreases |s|
  {
    if i < |s| - 1 {
      assert s[i := x][..|s| - 1] == s[..|s| - 1][i := x];
      SumRealUpdate(s[..|s| - 1], i, x, f);
    } else {
      assert s[i := x][..|s| - 1] == s[..|s| - 1];
    }
  }

  function LineUnits(l: CartLine): int
  {
    UnitsOf(l.quantity)
  }

  function LineQuantity(l: CartLine): int
  {
    l.quantity
  }

  function LineAmount(l: CartLine): real
  {
    l.price * l.quantity as real
  }

  /** The cart badge count: `reduce((total, item) => total + (item.quantity || 1), 0)`.
      A line with a missing quantity still counts once, so a cart of lines with
      non-negative quantities counts at least one unit per line. */
  function ItemCount(lines: seq<CartLine>): (r: int)
    ensures (forall i :: 0 <= i < |lines| ==> lines[i].quantity >= 0) ==> r >= |lines|
  {
    if lines == [] then 0
    else ItemCount(lines[..|lines| - 1]) + LineUnits(lines[|lines| - 1])
  }

  lemma {:induction false} ItemCountIsSum(lines: seq<CartLine>)
    ensures ItemCount(lines) == SumInt(lines, LineUnits)
  {
    if lines != [] {
      ItemCountIsSum(lines[..|lines| - 1]);
    }
  }

  /** Sum of the quantities, each missing quantity counting as 0. */
  function TotalQuantity(lines: seq<CartLine>): int
  {
    SumInt(lines, LineQuantity)
  }

  /** `reduce((sum, item) => sum + item.price * item.quantity, 0)` */
  function Subtotal(lines: seq<CartLine>): (r: real)
    ensures (forall i :: 0 <= i < |lines| ==> lines[i].price >= 0.0 && lines[i].quantity >= 0) ==> r >= 0.0
  {
    if lines == [] then 0.0
    else Subtotal(lines[..|lines| - 1]) + LineAmount(lines[|lines| - 1])
  }

  /** The subtotal of two carts put together is the sum of their subtotals. */
  lemma {:induction false} SubtotalConcat(a: seq<CartLine>, b: seq<CartLine>)
    ensures Subtotal(a + b) == Subtotal(a) + Subtotal(b)
    decreases |b|
  {
    if b != [] {
      assert (a + b)[..|a + b| - 1] == a + b[..|b| - 1];
      SubtotalConcat(a, b[..|b| - 1]);
    } else {
      assert a + b == a;
    }
  }
}
