/**
 * The product service over an in-memory `products` collection: the field checks
 * shared by addProduct and updateProduct, the duplicate-name rule, the stored
 * shape of a new or updated product, deletion and the stock decrements of
 * checkout.
 */
module ProductService {
  import opened Wrappers
  import opened Js
  import opened Entities

  /** The `image` property of the data handed to add or update. */
  datatype ImageField = Absent | NullImage | Given(text: string)

  /** The data object handed to addProduct / updateProduct, its fields as they come. */
  datatype ProductData = ProductData(name: JsValue, description: JsValue, price: JsValue, stock: JsValue, image: ImageField)

  /** The reasons the service throws. */
  datatype ProductError =
    | InvalidData
    | NameMissing | DescriptionMissing | PriceMissing | StockMissing
    | NameRequired | DescriptionRequired | PriceInvalid | StockInvalid
    | DuplicateName
    | BadReference
    | NotFound

  /** The checked fields: trimmed text, parsed price, `parseInt(stock) || 0`. */
  datatype Fields = Fields(name: string, description: string, price: real, stock: int)

  /** The field checks both operations run, in the order they run them. */
  const FieldChecks: seq<ProductError> :=
    [NameMissing, DescriptionMissing, PriceMissing, StockMissing,
     NameRequired, DescriptionRequired, PriceInvalid, StockInvalid]

  /** Whether the data passes the check that reports e. */
  predicate Passes(d: ProductData, e: ProductError)
  {
    match e
    case NameMissing => !IsNullish(d.name)
    case DescriptionMissing => !IsNullish(d.description)
    case PriceMissing => !IsNullish(d.price)
    case StockMissing => !IsNullish(d.stock)
    case NameRequired => d.name.Str? && Trim(d.name.s) != ""
    case DescriptionRequired => d.description.Str? && Trim(d.description.s) != ""
    case PriceInvalid => ParseFloatOf(d.price).Some? && ParseFloatOf(d.price).value > 0.0
    case StockInvalid => ParseIntOf(d.stock).Some? && ParseIntOf(d.stock).value >= 0
    case _ => true
  }

  /** The validation both operations start with. Accepted fields are the input's
      trimmed texts, its parsed price and its parsed stock: trimmed and non-blank,
      with a positive price and a non-negative stock. */
  function CheckFields(d: ProductData): (r: Result<Fields, ProductError>)
    ensures r.Ok? ==> r.value.name != "" && Trim(r.value.name) == r.value.name
    ensures r.Ok? ==> r.value.description != "" && Trim(r.value.description) == r.value.description
    ensures r.Ok? ==> r.value.price > 0.0 && r.value.stock >= 0
    ensures r.Ok? ==>
      && d.name.Str? && d.description.Str? && ParseFloatOf(d.price).Some? && ParseIntOf(d.stock).Some?
      && r.value == Fields(Trim(d.name.s), Trim(d.description.s), ParseFloatOf(d.price).value, ParseIntOf(d.stock).value)
    ensures r.Err? ==> r.error in FieldChecks
  {
    if IsNullish(d.name) then Err(NameMissing)
    else if IsNullish(d.description) then Err(DescriptionMissing)
    else if IsNullish(d.price) then Err(PriceMissing)
    else if IsNullish(d.stock) then Err(StockMissing)
    else if !d.name.Str? || Trim(d.name.s) == "" then Err(NameRequired)
    else if !d.description.Str? || Trim(d.description.s) == "" then Err(DescriptionRequired)
    else if ParseFloatOf(d.price).None? || ParseFloatOf(d.price).value <= 0.0 then Err(PriceInvalid)
    else if ParseIntOf(d.stock).None? || ParseIntOf(d.stock).value < 0 then Err(StockInvalid)
    else
      TrimIdempotent(d.name.s);
      TrimIdempotent(d.description.s);
      var stock := ParseIntOf(d.stock).value;
      Ok(Fields(Trim(d.name.s), Trim(d.description.s), ParseFloatOf(d.price).value, if stock == 0 then 0 else stock))
  }

  /** `!productData || typeof productData !== 'object'`, then the field checks. */
  function CheckData(data: Option<ProductData>): Result<Fields, ProductError>
  {
    match data
    case None => Err(InvalidData)
    case Some(d) => CheckFields(d)
  }

  /** The checks the data fails. */
  function Fails(d: ProductData): ProductError -> bool
  {
    (e: ProductError) => !Passes(d, e)
  }

  /** The service reports the first failing check in the order of FieldChecks, and
      accepts the data exactly when no check fails. */
  lemma CheckFieldsFirstFailure(d: ProductData)
    ensures match FindFirst(FieldChecks, Fails(d))
      case Some(i) => CheckFields(d) == Err(FieldChecks[i])
      case None => CheckFields(d).Ok?
  {
    var first := FindFirst(FieldChecks, Fails(d));
    CheckFieldsStopsAt(d, if first.Some? then first.value else |FieldChecks|);
  }

  lemma CheckFieldsStopsAt(d: ProductData, n: nat)
    requires n <= |FieldChecks|
    requires forall j :: 0 <= j < n ==> Passes(d, FieldChecks[j])
    requires n < |FieldChecks| ==> !Passes(d, FieldChecks[n])
    ensures n < |FieldChecks| ==> CheckFields(d) == Err(FieldChecks[n])
    ensures n == |FieldChecks| ==> CheckFields(d).Ok?
  {
    var c := FieldChecks;
    assert c[0] == NameMissing && c[1] == DescriptionMissing && c[2] == PriceMissing && c[3] == StockMissing;
    assert c[4] == NameRequired && c[5] == DescriptionRequired && c[6] == PriceInvalid && c[7] == StockInvalid;
    if n > 0 { assert Passes(d, c[0]); }
    if n > 1 { assert Passes(d, c[1]); }
    if n > 2 { assert Passes(d, c[2]); }
    if n > 3 { assert Passes(d, c[3]); }
    if n > 4 { assert Passes(d, c[4]); }
    if n > 5 { assert Passes(d, c[5]); }
    if n > 6 { assert Passes(d, c[6]); }
    if n > 7 { assert Passes(d, c[7]); }
    if n < |c| {
      assert !Passes(d, c[n]);
    }
    match n
    case 0 => assert CheckFields(d) == Err(NameMissing);
    case 1 => assert CheckFields(d) == Err(DescriptionMissing);
    case 2 => assert CheckFields(d) == Err(PriceMissing);
    case 3 => assert CheckFields(d) == Err(StockMissing);
    case 4 => assert CheckFields(d) == Err(NameRequired);
    case 5 => assert CheckFields(d) == Err(DescriptionRequired);
    case 6 => assert CheckFields(d) == Err(PriceInvalid);
    case 7 => assert CheckFields(d) == Err(StockInvalid);
    case _ => assert CheckFields(d).Ok?;
  }

  /** Data whose texts are already trimmed and non-blank, whose price is a positive
      number and whose stock a non-negative whole number is accepted with those very
      values. */
  lemma CheckFieldsAccepts(d: ProductData, name: string, description: string, price: real, stock: int)
    requires d.name == Str(name) && name != "" && Trim(name) == name
    requires d.description == Str(description) && description != "" && Trim(description) == description
    requires d.price == Num(price) && price > 0.0
    requires d.stock == Num(stock as real) && stock >= 0
    ensures CheckFields(d) == Ok(Fields(name, description, price, stock))
  {
    TruncOfInt(stock);
    assert Trim(d.name.s) == name && Trim(d.description.s) == description;
  }

  /** Some stored product already has this name (the `where('name', '==', name)` query). */
  predicate NameTaken(docs: map<Id, ProductDoc>, name: string)
  {
    exists k :: k in docs && docs[k].name == name
  }

  /** The document addProduct stores: `image || ''`. */
  function NewDoc(f: Fields, image: ImageField): ProductDoc
  {
    ProductDoc(f.name, f.description, f.price, f.stock, if image.Given? then image.text else "")
  }

  /** The image updateProduct leaves in place: a non-blank new image trimmed, a blank
      or null one replaced by the existing image, an absent one not written. */
  function UpdatedImage(existing: string, image: ImageField): (r: string)
    ensures image.Absent? ==> r == existing
    ensures image.Given? && Trim(image.text) != "" ==> r == Trim(image.text)
    ensures image.NullImage? || (image.Given? && Trim(image.text) == "") ==> r == existing
  {
    match image
    case Absent => existing
    case NullImage => existing
    case Given(text) => if text != "" && Trim(text) != "" then Trim(text) else existing
  }

  /** The document updateProduct leaves behind. */
  function UpdatedDoc(old_: ProductDoc, f: Fields, image: ImageField): ProductDoc
  {
    ProductDoc(f.name, f.description, f.price, f.stock, UpdatedImage(old_.image, image))
  }

  /** Decrements by each line's quantity, in cart order, of the products that exist. */
  function ApplyPurchase(docs: map<Id, ProductDoc>, line: CartLine): map<Id, ProductDoc>
  {
    if Updatable(docs, line.id) then docs[line.id := docs[line.id].(stock := docs[line.id].stock - line.quantity)]
    else docs
  }

  function ApplyPurchases(docs: map<Id, ProductDoc>, lines: seq<CartLine>): map<Id, ProductDoc>
  {
    if lines == [] then docs
    else ApplyPurchase(ApplyPurchases(docs, lines[..|lines| - 1]), lines[|lines| - 1])
  }

  /** A stock update that can succeed: the reference is valid and the document exists. */
  predicate Updatable(docs: map<Id, ProductDoc>, id: Id)
  {
    id != "" && id in docs
  }

  /** The batch decrement lowers each product's stock by the sum of the quantities of
      the lines that name it, once per line, and changes nothing else. */
  lemma {:induction false} ApplyPurchasesStock(docs: map<Id, ProductDoc>, lines: seq<CartLine>, k: Id)
    requires Updatable(docs, k)
    ensures ApplyPurchases(docs, lines).Keys == docs.Keys
    ensures ApplyPurchases(docs, lines)[k] ==
      docs[k].(stock := docs[k].stock - TotalQuantity(Filter(lines, HasId(k))))
    decreases |lines|
  {
    if lines != [] {
      var n := |lines| - 1;
      ApplyPurchasesStock(docs, lines[..n], k);
      assert lines == lines[..n] + [lines[n]];
      FilterConcat(lines[..n], [lines[n]], HasId(k));
      var single := Filter([lines[n]], HasId(k));
      assert [lines[n]][1..] == [];
      SumIntConcat(Filter(lines[..n], HasId(k)), single, LineQuantity);
      if lines[n].id == k {
        assert single == [lines[n]];
        assert [lines[n]][..0] == [];
      } else {
        assert single == [];
      }
    }
  }

  /** The `products` collection. */
  class ProductStore {
    var docs: map<Id, ProductDoc>

    constructor (initial: map<Id, ProductDoc>)
      ensures docs == initial
    {
      docs := initial;
    }

    /** addProduct(data), storing under the id the collection assigns. */
    method AddProduct(data: Option<ProductData>, newId: Id) returns (r: Result<Product, ProductError>)
      requires newId != "" && newId !in docs
      modifies this
      ensures CheckData(data).Err? ==> r == Err(CheckData(data).error) && docs == old(docs)
      ensures CheckData(data).Ok? && NameTaken(old(docs), CheckData(data).value.name) ==>
        r == Err(DuplicateName) && docs == old(docs)
      ensures CheckData(data).Ok? && !NameTaken(old(docs), CheckData(data).value.name) ==>
        var stored := NewDoc(CheckData(data).value, data.value.image);
        r == Ok(WithId(newId, stored)) && docs == old(docs)[newId := stored]
    {
      var checked := CheckData(data);
      if checked.Err? {
        return Err(checked.error);
      }
      var f := checked.value;
      if NameTaken(docs, f.name) {
        return Err(DuplicateName);
      }
      var stored := NewDoc(f, data.value.image);
      docs := docs[newId := stored];
      r := Ok(WithId(newId, stored));
    }

    /** updateProduct(id, data): the same checks, then the id must name a stored product. */
    method UpdateProduct(id: Id, data: Option<ProductData>) returns (r: Result<Product, ProductError>)
      modifies this
      ensures CheckData(data).Err? ==> r == Err(CheckData(data).error) && docs == old(docs)
      ensures CheckData(data).Ok? && id == "" ==> r == Err(BadReference) && docs == old(docs)
      ensures CheckData(data).Ok? && id != "" && id !in old(docs) ==> r == Err(NotFound) && docs == old(docs)
      ensures CheckData(data).Ok? && id != "" && id in old(docs) ==>
        var updated := UpdatedDoc(old(docs)[id], CheckData(data).value, data.value.image);
        r == Ok(WithId(id, updated)) && docs == old(docs)[id := updated]
    {
      var checked := CheckData(data);
      if checked.Err? {
        return Err(checked.error);
      }
      if id == "" {
        return Err(BadReference);
      }
      if id !in docs {
        return Err(NotFound);
      }
      var updated := UpdatedDoc(docs[id], checked.value, data.value.image);
      docs := docs[id := updated];
      r := Ok(WithId(id, updated));
    }

    /** deleteProduct(id): deleting a document that does not exist succeeds. */
    method DeleteProduct(id: Id) returns (r: Result<Id, ProductError>)
      modifies this
      ensures id == "" ==> r == Err(BadReference) && docs == old(docs)
      ensures id != "" ==> r == Ok(id) && docs == old(docs) - {id}
    {
      if id == "" {
        return Err(BadReference);
      }
      docs := docs - {id};
      r := Ok(id);
    }

    /** updateProductStock(id, quantity): `increment(-quantity)` with no lower bound;
        updating a document that does not exist fails. */
    method UpdateProductStock(id: Id, quantity: int) returns (r: Result<bool, ProductError>)
      modifies this
      ensures !Updatable(old(docs), id) ==> r.Err? && docs == old(docs)
      ensures Updatable(old(docs), id) ==>
        r == Ok(true) && docs == old(docs)[id := old(docs)[id].(stock := old(docs)[id].stock - quantity)]
    {
      if id == "" {
        return Err(BadReference);
      }
      if id !in docs {
        return Err(NotFound);
      }
      docs := docs[id := docs[id].(stock := docs[id].stock - quantity)];
      r := Ok(true);
    }

    /** updateMultipleProductStocks(lines): one decrement per line; the batch fails when
        any single update fails, the others having taken effect. */
    method UpdateMultipleProductStocks(lines: seq<CartLine>) returns (r: Result<bool, ProductError>)
      modifies this
      ensures docs == ApplyPurchases(old(docs), lines)
      ensures r.Ok? <==> forall i :: 0 <= i < |lines| ==> Updatable(old(docs), lines[i].id)
    {
      var failure: Option<ProductError> := None;
      ghost var start := docs;
      var i := 0;
      while i < |lines|
        invariant 0 <= i <= |lines|
        invariant docs == ApplyPurchases(start, lines[..i])
        invariant docs.Keys == start.Keys
        invariant failure.None? <==> forall j :: 0 <= j < i ==> Updatable(start, lines[j].id)
      {
        var one := UpdateProductStock(lines[i].id, lines[i].quantity);
        if one.Err? {
          failure := Some(one.error);
        }
        assert lines[..i + 1][..i] == lines[..i];
        i := i + 1;
      }
      assert lines[..i] == lines;
      r := if failure.None? then Ok(true) else Err(failure.value);
    }
  }
}
