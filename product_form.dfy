/**
 * The product form: its pre-filled values, the field-by-field validation, the input
 * and image-file handlers, the submission that turns the form into the data handed
 * to the storefront, and the storefront's add and update handlers that receive it.
 */
module ProductForm {
  import opened Wrappers
  import opened Js
  import opened Entities
  import ProductService

  /** The form's four validated inputs, which are also the keys of its error map. */
  datatype Field = NameInput | DescriptionInput | PriceInput | StockInput

  /** The form's values. Name, description and image are text; price and stock hold
      whatever was pre-filled (a number or '') or typed (a string). */
  datatype FormData = FormData(name: string, description: string, price: JsValue, image: string, stock: JsValue)

  /** The values of a form opened for a new product. */
  const Blank: FormData := FormData("", "", Str(""), "", Str(""))

  /** The values a form opens with: `product.x || ''` for each field. */
  function Prefill(product: Option<Product>): (r: FormData)
    ensures product.None? ==> r == Blank
    ensures product.Some? ==>
      && r.name == product.value.name && r.description == product.value.description
      && r.image == product.value.image
      && (r.price == Str("") <==> product.value.price == 0.0)
      && (r.stock == Str("") <==> product.value.stock == 0)
  {
    match product
    case None => Blank
    case Some(p) =>
      FormData(p.name, p.description,
               if p.price == 0.0 then Str("") else Num(p.price),
               p.image,
               if p.stock == 0 then Str("") else Num(p.stock as real))
  }

  /** An input's current value. */
  function Get(f: FormData, k: Field): JsValue
  {
    match k
    case NameInput => Str(f.name)
    case DescriptionInput => Str(f.description)
    case PriceInput => f.price
    case StockInput => f.stock
  }

  /** `{ ...prev, [name]: value }`: the named input takes the typed text and nothing
      else changes. */
  function SetField(f: FormData, k: Field, value: string): (r: FormData)
    ensures Get(r, k) == Str(value)
    ensures forall k' :: k' != k ==> Get(r, k') == Get(f, k')
    ensures r.image == f.image
  {
    match k
    case NameInput => f.(name := value)
    case DescriptionInput => f.(description := value)
    case PriceInput => f.(price := Str(value))
    case StockInput => f.(stock := Str(value))
  }

  /** The message each failing input shows. */
  function Message(k: Field): string
  {
    match k
    case NameInput => "Product name is required"
    case DescriptionInput => "Description is required"
    case PriceInput => "Valid price is required"
    case StockInput => "Valid stock quantity is required"
  }

  /** `!value || !value.trim()` */
  predicate TextFails(s: string)
  {
    s == "" || Trim(s) == ""
  }

  /** `!price || price === '' || isNaN(parseFloat(price)) || parseFloat(price) <= 0` */
  predicate PriceFails(v: JsValue)
  {
    !Truthy(v) || v == Str("") || ParseFloatOf(v).None? || ParseFloatOf(v).value <= 0.0
  }

  /** `!stock || stock === '' || isNaN(parseInt(stock)) || parseInt(stock) < 0` */
  predicate StockFails(v: JsValue)
  {
    !Truthy(v) || v == Str("") || ParseIntOf(v).None? || ParseIntOf(v).value < 0
  }

  /** A text input fails exactly when it is blank after trimming. */
  lemma TextRule(s: string)
    ensures TextFails(s) <==> Trim(s) == ""
  {
  }

  /** The price fails exactly when it does not parse to a positive number: the falsy
      and empty-string tests add nothing. */
  lemma PriceRule(v: JsValue)
    ensures PriceFails(v) <==> !(ParseFloatOf(v).Some? && ParseFloatOf(v).value > 0.0)
  {
    if v == Str("") {
      assert DigitPrefix("") == [] && FractionDigits(""[0..]) == [];
      assert ParseFloat("") == None;
    }
  }

  /** The stock's empty-string test adds nothing, but its falsy test does: a number 0
      fails while a typed "0" does not. */
  lemma StockRule(v: JsValue)
    ensures StockFails(v) <==> !Truthy(v) || !(ParseIntOf(v).Some? && ParseIntOf(v).value >= 0)
  {
  }

  /** `if (fails) newErrors[k] = message`: one check's contribution to the error map. */
  function WithError(m: map<Field, string>, k: Field, fails: bool): (r: map<Field, string>)
    ensures forall k' :: k' in r <==> k' in m || (fails && k' == k)
    ensures forall k' :: k' in r && k' != k ==> r[k'] == m[k']
    ensures fails ==> r[k] == Message(k)
  {
    if fails then m[k := Message(k)] else m
  }

  /** `newErrors` after the four checks, given which of them failed. */
  function ErrorMap(name: bool, description: bool, price: bool, stock: bool): (r: map<Field, string>)
    ensures NameInput in r <==> name
    ensures DescriptionInput in r <==> description
    ensures PriceInput in r <==> price
    ensures StockInput in r <==> stock
    ensures forall k :: k in r ==> r[k] == Message(k)
  {
    var e0: map<Field, string> := map[];
    WithError(WithError(WithError(WithError(e0, NameInput, name), DescriptionInput, description), PriceInput, price), StockInput, stock)
  }

  /** The error map validateForm builds from the form's values. */
  function Errors(f: FormData): (r: map<Field, string>)
    ensures forall k :: k in r ==> r[k] == Message(k)
  {
    ErrorMap(TextFails(f.name), TextFails(f.description), PriceFails(f.price), StockFails(f.stock))
  }

  /** The error map has one entry, with its message, exactly for each input that
      breaks its rule. */
  lemma ErrorsIff(f: FormData)
    ensures NameInput in Errors(f) <==> Trim(f.name) == ""
    ensures DescriptionInput in Errors(f) <==> Trim(f.description) == ""
    ensures PriceInput in Errors(f) <==> !(ParseFloatOf(f.price).Some? && ParseFloatOf(f.price).value > 0.0)
    ensures StockInput in Errors(f) <==> !Truthy(f.stock) || !(ParseIntOf(f.stock).Some? && ParseIntOf(f.stock).value >= 0)
  {
    TextRule(f.name);
    TextRule(f.description);
    PriceRule(f.price);
    StockRule(f.stock);
  }

  /** The form is valid exactly when every input passes its rule. */
  lemma ValidIff(f: FormData)
    ensures Errors(f) == map[] <==>
      && Trim(f.name) != "" && Trim(f.description) != ""
      && ParseFloatOf(f.price).Some? && ParseFloatOf(f.price).value > 0.0
      && Truthy(f.stock) && ParseIntOf(f.stock).Some? && ParseIntOf(f.stock).value >= 0
  {
    ErrorsIff(f);
    var e := Errors(f);
    if e != map[] {
      var k :| k in e;
      assert k == NameInput || k == DescriptionInput || k == PriceInput || k == StockInput;
    }
  }

  // ---------------------------------------------------------------------------
  // Submission
  // ---------------------------------------------------------------------------

  /** submitData: trimmed text, the parsed price, `parseInt(stock) || 0`, `image || ''`. */
  datatype SubmitData = SubmitData(name: string, description: string, price: real, stock: int, image: string)

  /** What a submission of a valid form ends in: one of the refusals, or a call of the
      `onSubmit` prop, with the product's id first when editing. */
  datatype SubmitOutcome =
    | NotInitialized
    | Invalid
    | PriceRejected
    | StockRejected
    | DataInvalid
    | FieldsMissing
    | SubmitNew(data: SubmitData)
    | SubmitEdit(id: Id, data: SubmitData)

  /** Data the product service accepts as it is: trimmed non-blank text, a positive
      price and a non-negative stock. */
  predicate Clean(d: SubmitData)
  {
    && d.name != "" && Trim(d.name) == d.name
    && d.description != "" && Trim(d.description) == d.description
    && d.price > 0.0 && d.stock >= 0
  }

  /** The form being edited belongs to a stored product: `product && product.id`. */
  predicate Editing(product: Option<Product>)
  {
    product.Some? && product.value.id != ""
  }

  /** handleSubmit of an initialised form, from validateForm on. A call of `onSubmit`
      carries clean data read off the form: the trimmed texts, the parsed price, the
      parsed stock and the image; an edit is never submitted with a stock of 0. */
  function Outcome(f: FormData, product: Option<Product>): (r: SubmitOutcome)
    ensures r.Invalid? <==> Errors(f) != map[]
    ensures r.SubmitNew? ==> !Editing(product)
    ensures r.SubmitEdit? ==> Editing(product) && r.id == product.value.id && r.data.stock > 0
    ensures r.SubmitNew? || r.SubmitEdit? ==>
      && Clean(r.data)
      && r.data.name == Trim(f.name) && r.data.description == Trim(f.description)
      && ParseFloatOf(f.price) == Some(r.data.price)
      && ParseIntOf(f.stock) == Some(r.data.stock)
      && r.data.image == f.image
  {
    if Errors(f) != map[] then Invalid
    else
      ValidIff(f);
      TrimIdempotent(f.name);
      TrimIdempotent(f.description);
      var price := ParseFloatOf(f.price);
      var stock := match ParseIntOf(f.stock) case Some(n) => n case None => 0;
      if price.None? || price.value <= 0.0 then PriceRejected
      else if stock < 0 then StockRejected
      else
        var d := SubmitData(Trim(f.name), Trim(f.description), price.value, stock, f.image);
        if d.name == "" || d.description == "" then DataInvalid
        else if Editing(product) then
          if d.name == "" || d.description == "" || d.price == 0.0 || d.stock == 0 then FieldsMissing
          else SubmitEdit(product.value.id, d)
        else SubmitNew(d)
  }

  /** Once validateForm passes, the later checks on price, stock and the trimmed texts
      can never fire: the only refusal left is the edit-time check, and it fires
      exactly when an edit would set the stock to 0. */
  lemma ValidatedSubmission(f: FormData, product: Option<Product>)
    requires Errors(f) == map[]
    ensures !Editing(product) ==> Outcome(f, product).SubmitNew?
    ensures Editing(product) && ParseIntOf(f.stock) == Some(0) ==> Outcome(f, product) == FieldsMissing
    ensures Editing(product) && ParseIntOf(f.stock) != Some(0) ==> Outcome(f, product).SubmitEdit?
  {
    ValidIff(f);
  }

  /** A new product may be created with a typed stock of "0"; the same stock on an
      existing product is refused, so no edit brings a product's stock down to 0. */
  lemma ZeroStockOnlyForNew(f: FormData, p: Product)
    requires Errors(f) == map[] && ParseIntOf(f.stock) == Some(0)
    requires p.id != ""
    ensures Outcome(f, None).SubmitNew? && Outcome(f, None).data.stock == 0
    ensures Outcome(f, Some(p)) == FieldsMissing
  {
    ValidatedSubmission(f, None);
    ValidatedSubmission(f, Some(p));
  }

  /** A stored product with no stock opens with an empty stock input, which fails
      validation: editing it without typing a stock is refused. */
  lemma PrefillZeroStock(p: Product)
    requires p.stock == 0
    ensures StockInput in Errors(Prefill(Some(p)))
    ensures Outcome(Prefill(Some(p)), Some(p)) == Invalid
  {
    ErrorsIff(Prefill(Some(p)));
  }

  /** Submitting an untouched form for a stored product with tidy fields and stock
      hands back exactly the product's own name, description, price, stock and image. */
  lemma PrefillRoundTrip(p: Product)
    requires p.id != ""
    requires p.name != "" && Trim(p.name) == p.name
    requires p.description != "" && Trim(p.description) == p.description
    requires p.price > 0.0 && p.stock > 0
    ensures Outcome(Prefill(Some(p)), Some(p)) ==
      SubmitEdit(p.id, SubmitData(p.name, p.description, p.price, p.stock, p.image))
  {
    var f := Prefill(Some(p));
    TruncOfInt(p.stock);
    assert ParseIntOf(f.stock) == Some(p.stock);
    ValidIff(f);
    ValidatedSubmission(f, Some(p));
  }

  /** The data object the storefront hands to the product service. */
  function Payload(d: SubmitData): ProductService.ProductData
  {
    ProductService.ProductData(Str(d.name), Str(d.description), Num(d.price), Num(d.stock as real), ProductService.Given(d.image))
  }

  /** Clean data passes the product service's checks and keeps every field. */
  lemma PayloadAccepted(d: SubmitData)
    requires Clean(d)
    ensures ProductService.CheckFields(Payload(d)) == Ok(ProductService.Fields(d.name, d.description, d.price, d.stock))
  {
    ProductService.CheckFieldsAccepts(Payload(d), d.name, d.description, d.price, d.stock);
  }

  // ---------------------------------------------------------------------------
  // Image file
  // ---------------------------------------------------------------------------

  /** The chosen file, as far as the form inspects it. */
  datatype ImageFile = ImageFile(mimeType: string, size: int)

  /** 5 MB. */
  const MaxImageSize: int := 5 * 1024 * 1024

  datatype ImageVerdict = NoFile | NotAnImage | TooLarge | Accepted

  /** handleImageChange's checks: the type first, then the size. */
  function CheckImage(file: Option<ImageFile>): (r: ImageVerdict)
    ensures r == Accepted <==>
      file.Some? && StartsWith(file.value.mimeType, "image/") && file.value.size <= MaxImageSize
  {
    match file
    case None => NoFile
    case Some(f) =>
      if !StartsWith(f.mimeType, "image/") then NotAnImage
      else if f.size > MaxImageSize then TooLarge
      else Accepted
  }

  /** A picture of exactly 5 MB is accepted, one byte more is not, and a file of
      another type is refused whatever its size. */
  lemma ImageLimits(size: int)
    ensures CheckImage(Some(ImageFile("image/png", 5242880))) == Accepted
    ensures CheckImage(Some(ImageFile("image/png", 5242881))) == TooLarge
    ensures CheckImage(Some(ImageFile("text/plain", size))) == NotAnImage
  {
    assert "image/png"[..6] == "image/";
    assert "text/plain"[0] != "image/"[0];
  }

  // ---------------------------------------------------------------------------
  // The form's state
  // ---------------------------------------------------------------------------

  /** validateForm's `newErrors`, built one check at a time from which checks failed. */
  method CollectErrors(nameFails: bool, descriptionFails: bool, priceFails: bool, stockFails: bool) returns (newErrors: map<Field, string>)
    ensures newErrors == ErrorMap(nameFails, descriptionFails, priceFails, stockFails)
  {
    newErrors := map[];
    ghost var before := newErrors;
    if nameFails {
      newErrors := newErrors[NameInput := Message(NameInput)];
    }
    assert newErrors == WithError(before, NameInput, nameFails);
    before := newErrors;
    if descriptionFails {
      newErrors := newErrors[DescriptionInput := Message(DescriptionInput)];
    }
    assert newErrors == WithError(before, DescriptionInput, descriptionFails);
    before := newErrors;
    if priceFails {
      newErrors := newErrors[PriceInput := Message(PriceInput)];
    }
    assert newErrors == WithError(before, PriceInput, priceFails);
    before := newErrors;
    if stockFails {
      newErrors := newErrors[StockInput := Message(StockInput)];
    }
    assert newErrors == WithError(before, StockInput, stockFails);
  }

  class FormState {
    var data: FormData
    var errors: map<Field, string>
    var initialized: bool
    var imageFile: Option<ImageFile>
    var imagePreview: string

    /** The state before the initialising effect has run. */
    constructor ()
      ensures data == Blank && errors == map[] && !initialized
      ensures imageFile.None? && imagePreview == ""
    {
      data := Blank;
      errors := map[];
      initialized := false;
      imageFile := None;
      imagePreview := "";
    }

    /** The effect run for the `product` prop: pre-fill for a product, reset otherwise. */
    method Initialize(product: Option<Product>)
      modifies this`data, this`imagePreview, this`imageFile, this`initialized
      ensures data == Prefill(product) && initialized
      ensures imagePreview == (if product.Some? then product.value.image else "")
      ensures product.None? ==> imageFile.None?
      ensures product.Some? ==> imageFile == old(imageFile)
    {
      if product.Some? {
        data := Prefill(product);
        imagePreview := product.value.image;
      } else {
        data := Blank;
        imagePreview := "";
        imageFile := None;
      }
      initialized := true;
    }

    /** handleInputChange: the input takes the text; an error showing on that input is
        blanked, and no other error changes. */
    method HandleInputChange(k: Field, value: string)
      modifies this`data, this`errors
      ensures data == SetField(old(data), k, value)
      ensures errors == if k in old(errors) && old(errors)[k] != "" then old(errors)[k := ""] else old(errors)
    {
      data := SetField(data, k, value);
      if k in errors && errors[k] != "" {
        errors := errors[k := ""];
      }
    }

    /** handleImageChange, with the data URL the file reader produces passed in: an
        accepted file becomes the form's image and preview; otherwise nothing changes. */
    method HandleImageChange(file: Option<ImageFile>, dataUrl: string) returns (verdict: ImageVerdict)
      modifies this`imageFile, this`imagePreview, this`data
      ensures verdict == CheckImage(file)
      ensures verdict == Accepted ==>
        imageFile == file && imagePreview == dataUrl && data == old(data).(image := dataUrl)
      ensures verdict != Accepted ==> unchanged(this)
    {
      verdict := CheckImage(file);
      if verdict == Accepted {
        imageFile := file;
        imagePreview := dataUrl;
        data := data.(image := dataUrl);
      }
    }

    /** validateForm: the error map is rebuilt from the current values, and the form
        is valid when it comes out empty. */
    method ValidateForm() returns (ok: bool)
      modifies this`errors
      ensures errors == Errors(data)
      ensures ok <==> errors == map[]
    {
      var newErrors := CollectErrors(TextFails(data.name), TextFails(data.description), PriceFails(data.price), StockFails(data.stock));
      assert newErrors == Errors(data);
      errors := newErrors;
      ok := |newErrors| == 0;
    }

    /** handleSubmit: refused while the form is not initialised; otherwise the form is
        validated, its errors shown, and the outcome is the submission of its values. */
    method HandleSubmit(product: Option<Product>) returns (outcome: SubmitOutcome)
      modifies this`errors
      ensures !initialized ==> outcome == NotInitialized && errors == old(errors)
      ensures initialized ==> errors == Errors(data) && outcome == Outcome(data, product)
    {
      if !initialized {
        return NotInitialized;
      }
      var valid := ValidateForm();
      if !valid {
        return Invalid;
      }
      outcome := Outcome(data, product);
    }
  }

  // ---------------------------------------------------------------------------
  // The storefront's handlers for the form
  // ---------------------------------------------------------------------------

  /** handleAddProduct: a new product's data goes to addProduct; clean data is stored
      field for field unless the name is taken. */
  method AddSubmitted(store: ProductService.ProductStore, d: SubmitData, newId: Id) returns (r: Result<Product, ProductService.ProductError>)
    requires newId != "" && newId !in store.docs
    modifies store
    ensures Clean(d) && ProductService.NameTaken(old(store.docs), d.name) ==>
      r == Err(ProductService.DuplicateName) && store.docs == old(store.docs)
    ensures Clean(d) && !ProductService.NameTaken(old(store.docs), d.name) ==>
      var stored := ProductDoc(d.name, d.description, d.price, d.stock, d.image);
      r == Ok(WithId(newId, stored)) && store.docs == old(store.docs)[newId := stored]
  {
    if Clean(d) {
      PayloadAccepted(d);
    }
    r := store.AddProduct(Some(Payload(d)), newId);
  }

  /** The data object `{ ...value }` makes of a string: only index keys, so name,
      description, price, stock and image are all missing. */
  function SpreadOfString(s: string): ProductService.ProductData
  {
    ProductService.ProductData(Undefined, Undefined, Undefined, Undefined, ProductService.Absent)
  }

  /** The edit as wired: the form calls `onSubmit(product.id, submitData)`, but the
      storefront's callback for an edit takes one argument and treats it as the data,
      so updateProduct receives the spread id and refuses it, whatever was typed. */
  method SubmitEditAsWired(store: ProductService.ProductStore, editingId: Id, id: Id, d: SubmitData) returns (r: Result<Product, ProductService.ProductError>)
    modifies store
    ensures r == Err(ProductService.NameMissing) && store.docs == old(store.docs)
  {
    var received := id;
    r := store.UpdateProduct(editingId, Some(SpreadOfString(received)));
  }

  /** No edit reaches the store through the wiring as written, while the same edit with
      its data passed on is accepted by the service's checks. */
  lemma EditWiringRefused(id: Id, d: SubmitData)
    requires Clean(d)
    ensures ProductService.CheckData(Some(SpreadOfString(id))) == Err(ProductService.NameMissing)
    ensures ProductService.CheckData(Some(Payload(d))).Ok?
  {
    PayloadAccepted(d);
  }

  /** handleUpdateProduct receiving the submitted data itself: clean data replaces the
      stored product's fields, and a blank image keeps the stored one. */
  method UpdateSubmitted(store: ProductService.ProductStore, id: Id, d: SubmitData) returns (r: Result<Product, ProductService.ProductError>)
    modifies store
    ensures Clean(d) && id != "" && id in old(store.docs) ==>
      var updated := ProductDoc(d.name, d.description, d.price, d.stock,
                                ProductService.UpdatedImage(old(store.docs)[id].image, ProductService.Given(d.image)));
      r == Ok(WithId(id, updated)) && store.docs == old(store.docs)[id := updated]
    ensures Clean(d) && id != "" && id !in old(store.docs) ==>
      r == Err(ProductService.NotFound) && store.docs == old(store.docs)
  {
    if Clean(d) {
      PayloadAccepted(d);
    }
    r := store.UpdateProduct(id, Some(Payload(d)));
  }

  /** A submission delivered to the store, with the edit wiring corrected: a new
      product through handleAddProduct, an edit through handleUpdateProduct with its
      data (as wired, an edit ends in SubmitEditAsWired's refusal instead). */
  method Deliver(store: ProductService.ProductStore, outcome: SubmitOutcome, newId: Id) returns (r: Option<Result<Product, ProductService.ProductError>>)
    requires newId != "" && newId !in store.docs
    modifies store
    ensures !(outcome.SubmitNew? || outcome.SubmitEdit?) ==> r.None? && store.docs == old(store.docs)
    ensures outcome.SubmitNew? && Clean(outcome.data) && !ProductService.NameTaken(old(store.docs), outcome.data.name) ==>
      var d := outcome.data;
      var stored := ProductDoc(d.name, d.description, d.price, d.stock, d.image);
      r == Some(Ok(WithId(newId, stored))) && store.docs == old(store.docs)[newId := stored]
    ensures outcome.SubmitEdit? && Clean(outcome.data) && outcome.id != "" && outcome.id in old(store.docs) ==>
      r.Some? && r.value.Ok? && store.docs.Keys == old(store.docs).Keys
      && store.docs[outcome.id].stock == outcome.data.stock
  {
    match outcome
    case SubmitNew(d) =>
      var added := AddSubmitted(store, d, newId);
      r := Some(added);
    case SubmitEdit(id, d) =>
      var updated := UpdateSubmitted(store, id, d);
      r := Some(updated);
    case _ =>
      r := None;
  }
}
