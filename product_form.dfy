/**
 * The product form on the client: its state, the field-by-field change
 * handler, the validation that lists what is wrong, and the submit decision
 * between updating an existing product, creating a new one and sending
 * nothing. The HTTP call itself is an input: the submit method returns the
 * request it would send and is told whether that request succeeded.
 */
module ProductFormModel {
  import opened Common

  /** The form's data, and also the shape of the `product` prop; `id` is `_id`. */
  datatype FormProduct = FormProduct(
    id: Option<string>,
    name: string,
    price: int,
    description: Option<string>,
    provider: Option<string>)

  const NameRequired := "Name is required."
  const PriceNotPositive := "Price must be greater than 0."
  const ProviderRequired := "Provider is required."
  const ProductsUrl := "/api/products"

  /** The blank form: no id, empty strings and a price of 0. */
  const BlankForm := FormProduct(None, "", 0, Some(""), Some(""))

  /** The first state: the blank form overridden by every field the prop has. */
  function InitialFormData(product: Option<FormProduct>): (d: FormProduct)
    ensures product.None? ==> d == BlankForm
    ensures product.Some? ==> d.id == product.value.id && d.name == product.value.name && d.price == product.value.price
    ensures product.Some? && product.value.description.Some? ==> d.description == product.value.description
    ensures product.Some? && product.value.provider.Some? ==> d.provider == product.value.provider
    ensures d.description.Some? && d.provider.Some?
  {
    match product
    case None => BlankForm
    case Some(p) =>
      FormProduct(p.id, p.name, p.price,
                   if p.description.Some? then p.description else BlankForm.description,
                   if p.provider.Some? then p.provider else BlankForm.provider)
  }

  /** What the effect on a new prop sets: a copy of the product, or the blank form. */
  function SyncedFormData(product: Option<FormProduct>): (d: FormProduct)
    ensures product.Some? ==> d == product.value
    ensures product.None? ==> d == BlankForm && d.id.None?
  {
    product.GetOr(BlankForm)
  }

  /** The place of each message in the fixed order name, price, provider. */
  function MessageRank(m: string): nat {
    if m == NameRequired then 0
    else if m == PriceNotPositive then 1
    else if m == ProviderRequired then 2
    else 3
  }

  /** The error messages of the form: one per failed check, in the order name, price, provider. */
  function FormErrors(d: FormProduct): (errs: seq<string>)
    ensures errs == [] <==> d.name != "" && d.price > 0 && Truthy(d.provider)
    ensures NameRequired in errs <==> d.name == ""
    ensures PriceNotPositive in errs <==> d.price <= 0
    ensures ProviderRequired in errs <==> !Truthy(d.provider)
    ensures forall m :: m in errs ==> MessageRank(m) < 3
    ensures forall i, j :: 0 <= i < j < |errs| ==> MessageRank(errs[i]) < MessageRank(errs[j])
  {
    (if d.name == "" then [NameRequired] else [])
    + (if d.price <= 0 then [PriceNotPositive] else [])
    + (if !Truthy(d.provider) then [ProviderRequired] else [])
  }

  /** Whether the form is valid after a change depends on the other fields as before. */
  lemma ChangeKeepsOtherChecks(d: FormProduct, c: FormChange)
    ensures !c.NameInput? ==> (NameRequired in FormErrors(ApplyChange(d, c)) <==> NameRequired in FormErrors(d))
    ensures !c.PriceInput? ==> (PriceNotPositive in FormErrors(ApplyChange(d, c)) <==> PriceNotPositive in FormErrors(d))
    ensures !c.ProviderInput? ==> (ProviderRequired in FormErrors(ApplyChange(d, c)) <==> ProviderRequired in FormErrors(d))
  {
  }

  /** The blank form lists all three errors, so it is never submitted. */
  lemma BlankFormRejected()
    ensures FormErrors(SyncedFormData(None)) == [NameRequired, PriceNotPositive, ProviderRequired]
    ensures FormErrors(InitialFormData(None)) == FormErrors(SyncedFormData(None))
  {
  }

  /**
   * The first render and the effect's run after mount can hold different
   * data (a field the prop lacks is "" in one and undefined in the other),
   * but they fail exactly the same checks.
   */
  lemma MountKeepsValidation(product: Option<FormProduct>)
    ensures FormErrors(InitialFormData(product)) == FormErrors(SyncedFormData(product))
  {
  }

  /** The request the form sends. */
  datatype ApiRequest = Put(url: string, payload: FormProduct) | Post(url: string, payload: FormProduct)

  /**
   * The submit decision: nothing when the form is invalid; otherwise PUT to
   * the product's own URL when the prop has a truthy id, else POST.
   */
  function SubmitRequest(product: Option<FormProduct>, d: FormProduct): (r: Option<ApiRequest>)
    ensures r.None? <==> FormErrors(d) != []
    ensures r.Some? ==> r.value.payload == d
    ensures r.Some? ==> (r.value.Put? <==> product.Some? && Truthy(product.value.id))
    ensures r.Some? && r.value.Put? ==> r.value.url == ProductsUrl + "/" + product.value.id.value
    ensures r.Some? && r.value.Post? ==> r.value.url == ProductsUrl
  {
    if FormErrors(d) != [] then None
    else if product.Some? && Truthy(product.value.id) then Some(Put(ProductsUrl + "/" + product.value.id.value, d))
    else Some(Post(ProductsUrl, d))
  }

  /** An input event: the field named by the input and its new value. */
  datatype FormChange =
    | NameInput(name: string)
    | PriceInput(price: int)
    | DescriptionInput(description: string)
    | ProviderInput(provider: string)

  /** The change handler's update: the named field takes the value, every other field stays. */
  function ApplyChange(d: FormProduct, c: FormChange): (r: FormProduct)
    ensures r.id == d.id
    ensures r.name == (if c.NameInput? then c.name else d.name)
    ensures r.price == (if c.PriceInput? then c.price else d.price)
    ensures r.description == (if c.DescriptionInput? then Some(c.description) else d.description)
    ensures r.provider == (if c.ProviderInput? then Some(c.provider) else d.provider)
  {
    match c
    case NameInput(v) => d.(name := v)
    case PriceInput(v) => d.(price := v)
    case DescriptionInput(v) => d.(description := Some(v))
    case ProviderInput(v) => d.(provider := Some(v))
  }

  /** The form component: its prop, its form data and its list of errors. */
  class ProductForm {
    var product: Option<FormProduct>
    var formData: FormProduct
    var errors: seq<string>

    /** The first render, then the `[product]` effect's run after mount. */
    constructor (product: Option<FormProduct>)
      ensures this.product == product && formData == SyncedFormData(product) && errors == []
    {
      this.product := product;
      formData := InitialFormData(product);
      errors := [];
      formData := SyncedFormData(product);
    }

    /**
     * A changed prop arrives and the effect on it replaces the form data. The
     * effect runs only when the prop changes by reference, so this stands for
     * a new prop only: passing the same prop again (null after null) leaves
     * the form as it was and is not a call of this method.
     */
    method ReceiveProduct(p: Option<FormProduct>)
      modifies this`product, this`formData
      ensures product == p && formData == SyncedFormData(p)
    {
      product := p;
      formData := SyncedFormData(p);
    }

    method HandleChange(c: FormChange)
      modifies this`formData
      ensures formData == ApplyChange(old(formData), c)
    {
      formData := ApplyChange(formData, c);
    }

    /** Collect the messages in order, publish them, and report whether there were none. */
    method ValidateForm() returns (ok: bool)
      modifies this`errors
      ensures errors == FormErrors(formData)
      ensures ok <==> formData.name != "" && formData.price > 0 && Truthy(formData.provider)
    {
      var newErrors: seq<string> := [];
      if formData.name == "" {
        newErrors := newErrors + [NameRequired];
      }
      if formData.price <= 0 {
        newErrors := newErrors + [PriceNotPositive];
      }
      if !Truthy(formData.provider) {
        newErrors := newErrors + [ProviderRequired];
      }
      errors := newErrors;
      ok := |newErrors| == 0;
    }

    /**
     * Validate, then send the request the submit decision names; `onSuccess`
     * is called only when a request was sent and succeeded.
     */
    method HandleSubmit(requestSucceeds: bool) returns (sent: Option<ApiRequest>, onSuccessCalled: bool)
      modifies this`errors
      ensures errors == FormErrors(formData)
      ensures sent == SubmitRequest(product, formData)
      ensures onSuccessCalled <==> sent.Some? && requestSucceeds
    {
      var ok := ValidateForm();
      if !ok {
        return None, false;
      }
      if product.Some? && Truthy(product.value.id) {
        sent := Some(Put(ProductsUrl + "/" + product.value.id.value, formData));
      } else {
        sent := Some(Post(ProductsUrl, formData));
      }
      onSuccessCalled := requestSucceeds;
    }
  }
}
