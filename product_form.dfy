/** The logic of the product editor (`src/entities/product/ui/ProductForm.tsx`):
    validation into an error dictionary, the record handed to `onSubmit`, and
    the clearing of a field's error when the field is edited. */
module ProductForm {
  import opened Wrappers
  import opened Text
  import Catalog

  /** `formData`; a missing image is the empty string. */
  datatype FormData = FormData(
    name: string,
    description: string,
    categoryId: string,
    priceCents: int,
    sku: string,
    uom: Catalog.Uom,
    stock: int,
    image: string)

  /** The form before anything is typed. */
  const BlankForm := FormData("", "", "", 0, "", Catalog.Ea, 0, "")

  /** The form filled from a product being edited (`image || ''`). */
  function FormOf(p: Catalog.Product): (f: FormData)
    ensures f.name == p.name && f.description == p.description && f.categoryId == p.categoryId
    ensures f.priceCents == p.priceCents && f.sku == p.sku && f.uom == p.uom && f.stock == p.stock
    ensures p.image.None? ==> f.image == ""
    ensures p.image.Some? ==> f.image == p.image.value
  {
    FormData(p.name, p.description, p.categoryId, p.priceCents, p.sku, p.uom, p.stock,
      if p.image.Some? then p.image.value else "")
  }

  /** The form's fields, which also key the error dictionary. */
  datatype Field = Name | Description | CategoryId | PriceCents | Sku | UomField | Stock | Image

  /** The rule of `validateForm` a field breaks, if any: text fields that
      are nothing but white space once trimmed, an empty category, a price
      that is not positive, a negative stock (0 passes). Unit and image have
      no rule. */
  predicate Fails(f: FormData, field: Field) {
    match field
    case Name => IsBlank(f.name)
    case Description => IsBlank(f.description)
    case CategoryId => f.categoryId == ""
    case PriceCents => f.priceCents <= 0
    case Sku => IsBlank(f.sku)
    case Stock => f.stock < 0
    case _ => false
  }

  /** The message recorded for a broken rule. */
  function Message(field: Field): string {
    match field
    case Name => "Product name is required"
    case Description => "Description is required"
    case CategoryId => "Category is required"
    case PriceCents => "Price must be greater than 0"
    case Sku => "SKU is required"
    case Stock => "Stock cannot be negative"
    case _ => ""
  }

  /** The form passes every rule. */
  predicate Acceptable(f: FormData) {
    !IsBlank(f.name) && !IsBlank(f.description) && f.categoryId != "" &&
    f.priceCents > 0 && !IsBlank(f.sku) && f.stock >= 0
  }

  /** A form is acceptable exactly when no field breaks its rule. */
  lemma AcceptableIffNoRuleBroken(f: FormData)
    ensures Acceptable(f) <==> forall field :: !Fails(f, field)
  {
    if !Acceptable(f) {
      assert Fails(f, Name) || Fails(f, Description) || Fails(f, CategoryId) ||
        Fails(f, PriceCents) || Fails(f, Sku) || Fails(f, Stock);
    }
  }

  /** `validateForm`: one error per broken rule, keyed by the field, and the
      form is valid iff no error was recorded. */
  method ValidateForm(f: FormData) returns (errors: map<Field, string>, valid: bool)
    ensures forall field :: field in errors <==> Fails(f, field)
    ensures forall field :: field in errors ==> errors[field] == Message(field)
    ensures valid <==> errors == map[]
    ensures valid <==> Acceptable(f)
  {
    errors := map[];
    var nameBlank := TrimsToEmpty(f.name);
    if nameBlank {
      errors := errors[Name := Message(Name)];
    }
    var descriptionBlank := TrimsToEmpty(f.description);
    if descriptionBlank {
      errors := errors[Description := Message(Description)];
    }
    if f.categoryId == "" {
      errors := errors[CategoryId := Message(CategoryId)];
    }
    if f.priceCents <= 0 {
      errors := errors[PriceCents := Message(PriceCents)];
    }
    var skuBlank := TrimsToEmpty(f.sku);
    if skuBlank {
      errors := errors[Sku := Message(Sku)];
    }
    if f.stock < 0 {
      errors := errors[Stock := Message(Stock)];
    }
    assert forall k :: k in errors <==> Fails(f, k);
    valid := errors == map[];
    AcceptableIffNoRuleBroken(f);
    if !valid {
      var field :| field in errors;
      assert Fails(f, field);
    }
  }

  /** The record built by `handleSubmit`: the form's fields, `image` only
      when it is non-empty, and the edited product's id when editing. */
  function Submitted(f: FormData, editing: Option<Catalog.Product>): (d: Catalog.ProductDraft)
    ensures d.image.None? <==> f.image == ""
    ensures d.image.Some? ==> d.image.value == f.image
    ensures editing.None? ==> d.id.None?
    ensures editing.Some? ==> d.id == Some(editing.value.id)
    ensures d.name == f.name && d.description == f.description && d.categoryId == f.categoryId
    ensures d.priceCents == f.priceCents && d.sku == f.sku && d.uom == f.uom && d.stock == f.stock
  {
    Catalog.ProductDraft(
      if editing.Some? then Some(editing.value.id) else None,
      f.name, f.description, f.categoryId, f.priceCents, f.sku, f.uom, f.stock,
      if f.image == "" then None else Some(f.image))
  }

  /** Opening a product for editing and submitting without changes hands
      back that product, as long as its image is not the empty string. */
  lemma EditUnchangedRoundTrip(p: Catalog.Product)
    requires p.image != Some("")
    ensures Catalog.WithId(Submitted(FormOf(p), Some(p)), p.id) == p
    ensures Submitted(FormOf(p), Some(p)).id == Some(p.id)
  {
  }

  /** `handleSubmit`: the errors are replaced by the validation result; only
      a valid form produces a record for `onSubmit`. */
  method HandleSubmit(f: FormData, editing: Option<Catalog.Product>) returns (errors: map<Field, string>, submitted: Option<Catalog.ProductDraft>)
    ensures forall field :: field in errors <==> Fails(f, field)
    ensures forall field :: field in errors ==> errors[field] == Message(field)
    ensures submitted.Some? <==> Acceptable(f)
    ensures submitted.Some? <==> errors == map[]
    ensures submitted.Some? ==> submitted.value == Submitted(f, editing)
  {
    var valid;
    errors, valid := ValidateForm(f);
    if !valid {
      return errors, None;
    }
    submitted := Some(Submitted(f, editing));
  }

  /** What an input delivers: text, a number, or a unit of measure. */
  datatype Value = TextValue(text: string) | NumberValue(n: int) | UomValue(u: Catalog.Uom)

  /** The value has the type the field holds. */
  predicate Fits(field: Field, v: Value) {
    match field
    case PriceCents => v.NumberValue?
    case Stock => v.NumberValue?
    case UomField => v.UomValue?
    case _ => v.TextValue?
  }

  /** `{ ...prev, [field]: value }`: exactly that field changes. */
  function SetField(f: FormData, field: Field, v: Value): (r: FormData)
    requires Fits(field, v)
    ensures field == Name ==> r == f.(name := v.text)
    ensures field == Description ==> r == f.(description := v.text)
    ensures field == CategoryId ==> r == f.(categoryId := v.text)
    ensures field == PriceCents ==> r == f.(priceCents := v.n)
    ensures field == Sku ==> r == f.(sku := v.text)
    ensures field == UomField ==> r == f.(uom := v.u)
    ensures field == Stock ==> r == f.(stock := v.n)
    ensures field == Image ==> r == f.(image := v.text)
  {
    match field
    case Name => f.(name := v.text)
    case Description => f.(description := v.text)
    case CategoryId => f.(categoryId := v.text)
    case PriceCents => f.(priceCents := v.n)
    case Sku => f.(sku := v.text)
    case UomField => f.(uom := v.u)
    case Stock => f.(stock := v.n)
    case Image => f.(image := v.text)
  }

  /** The component's state: the form and the displayed errors. */
  datatype FormState = FormState(form: FormData, errors: map<Field, string>)

  /** `handleInputChange(field, value)`: the field takes the value; a shown
      (non-empty) error for that field is blanked, every other error stays. */
  function HandleInputChange(s: FormState, field: Field, v: Value): (r: FormState)
    requires Fits(field, v)
    ensures r.form == SetField(s.form, field, v)
    ensures r.errors.Keys == s.errors.Keys
    ensures field in r.errors ==> r.errors[field] == ""
    ensures forall k :: k in s.errors && k != field ==> r.errors[k] == s.errors[k]
  {
        var errors := if field in s.errors && s.errors[field] != "" then s.errors[field := ""] else s.errors;
    FormState(SetField(s.form, field, v), errors)
  }

  /** The SKU input stores what is typed in upper case. */
  function SkuInput(s: FormState, typed: string): (r: FormState)
    ensures r.form.sku == ToUpper(typed)
    ensures forall i :: 0 <= i < |r.form.sku| ==> !('a' <= r.form.sku[i] <= 'z')
    ensures r.form == s.form.(sku := r.form.sku)
  {
    HandleInputChange(s, Sku, TextValue(ToUpper(typed)))
  }
}
