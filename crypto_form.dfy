/** The logic of the crypto payment form
    (`apps/crypto-payment/src/components/PaymentForm.tsx`): validation into
    an error dictionary, error removal on input, the offered currencies and
    the submit-enable rule. */
module CryptoPaymentForm {
  import opened Wrappers
  import Seqs
  import Email
  import CryptoService
  import opened CryptoPayments
  import CryptoStore

  /** The form's fields, which also key the error dictionary. */
  datatype Field = Amount | Currency | SelectedCrypto | EmailField

  /** The rule of `validateForm` a field breaks, if any: an amount that is
      not positive, no selected currency (taken from `$selectedCrypto`), an
      e-mail that is present, non-empty and not of the accepted form. The
      fiat currency has no rule. */
  predicate Fails(form: PaymentFormData, selectedCrypto: string, field: Field) {
    match field
    case Amount => form.amount <= 0.0
    case SelectedCrypto => selectedCrypto == ""
    case EmailField => form.email.Some? && form.email.value != "" && !Email.IsValidEmail(form.email.value)
    case Currency => false
  }

  /** The message recorded for a broken rule. */
  function Message(field: Field): string {
    match field
    case Amount => "Please enter a valid amount"
    case SelectedCrypto => "Please select a cryptocurrency"
    case EmailField => "Please enter a valid email address"
    case Currency => ""
  }

  /** `validateForm`: one error per broken rule, keyed by the field, and the
      form is valid iff no error was recorded. */
  method ValidateForm(form: PaymentFormData, selectedCrypto: string) returns (errors: map<Field, string>, valid: bool)
    ensures forall field :: field in errors <==> Fails(form, selectedCrypto, field)
    ensures forall field :: field in errors ==> errors[field] == Message(field)
    ensures valid <==> errors == map[]
    ensures valid <==> form.amount > 0.0 && selectedCrypto != "" &&
                       (form.email.Some? && form.email.value != "" ==> Email.IsValidEmail(form.email.value))
  {
    errors := map[];
    if form.amount <= 0.0 {
      errors := errors[Amount := Message(Amount)];
    }
    if selectedCrypto == "" {
      errors := errors[SelectedCrypto := Message(SelectedCrypto)];
    }
    if form.email.Some? && form.email.value != "" && !Email.IsValidEmail(form.email.value) {
      errors := errors[EmailField := Message(EmailField)];
    }
    valid := errors == map[];
    if !valid {
      var field :| field in errors;
      assert Fails(form, selectedCrypto, field);
    } else {
      assert Amount !in errors && SelectedCrypto !in errors && EmailField !in errors;
    }
  }

  /** `handleSubmit`: only a valid form raises `createPaymentRequest`, with
      the form and the selected currency. */
  method HandleSubmit(form: PaymentFormData, selectedCrypto: string) returns (errors: map<Field, string>, request: Option<PaymentFormData>)
    ensures forall field :: field in errors <==> Fails(form, selectedCrypto, field)
    ensures forall field :: field in errors ==> errors[field] == Message(field)
    ensures request.Some? <==> errors == map[]
    ensures request.Some? <==> form.amount > 0.0 && selectedCrypto != "" &&
                               (form.email.Some? && form.email.value != "" ==> Email.IsValidEmail(form.email.value))
    ensures request.Some? ==> request.value == form.(selectedCrypto := selectedCrypto)
    ensures request.Some? ==> request.value.amount > 0.0 && request.value.selectedCrypto != ""
  {
    var valid;
    errors, valid := ValidateForm(form, selectedCrypto);
    if !valid {
      return errors, None;
    }
    request := Some(form.(selectedCrypto := selectedCrypto));
  }

  /** What an input delivers. */
  datatype Value = AmountValue(amount: real) | CurrencyValue(currency: Fiat) | TextValue(text: string)

  predicate Fits(field: Field, v: Value) {
    match field
    case Amount => v.AmountValue?
    case Currency => v.CurrencyValue?
    case _ => v.TextValue?
  }

  /** `{ [field]: value }`: a patch holding only that field. */
  function PatchOf(field: Field, v: Value): (p: CryptoStore.FormPatch)
    requires Fits(field, v)
    ensures field == Amount ==> p == CryptoStore.EmptyPatch.(amount := Some(v.amount))
    ensures field == Currency ==> p == CryptoStore.EmptyPatch.(currency := Some(v.currency))
    ensures field == SelectedCrypto ==> p == CryptoStore.EmptyPatch.(selectedCrypto := Some(v.text))
    ensures field == EmailField ==> p == CryptoStore.EmptyPatch.(email := Some(v.text))
  {
    match field
    case Amount => CryptoStore.EmptyPatch.(amount := Some(v.amount))
    case Currency => CryptoStore.EmptyPatch.(currency := Some(v.currency))
    case SelectedCrypto => CryptoStore.EmptyPatch.(selectedCrypto := Some(v.text))
    case EmailField => CryptoStore.EmptyPatch.(email := Some(v.text))
  }

  /** `handleInputChange(field, value)`: the form update sent to the store,
      and the errors with that field's shown error deleted; the others stay. */
  function HandleInputChange(errors: map<Field, string>, field: Field, v: Value): (r: (CryptoStore.FormPatch, map<Field, string>))
    requires Fits(field, v)
    ensures r.0 == PatchOf(field, v)
    ensures field in errors && errors[field] != "" ==> field !in r.1
    ensures forall k :: k in errors && k != field ==> k in r.1 && r.1[k] == errors[k]
    ensures r.1.Keys <= errors.Keys
  {
    (PatchOf(field, v), if field in errors && errors[field] != "" then errors - {field} else errors)
  }

  /** Editing a field and applying the patch changes that field of the form
      and no other. */
  lemma InputChangesOneField(form: PaymentFormData, field: Field, v: Value)
    requires Fits(field, v)
    ensures var f := CryptoStore.MergeForm(form, PatchOf(field, v));
      (field != Amount ==> f.amount == form.amount) &&
      (field != Currency ==> f.currency == form.currency) &&
      (field != SelectedCrypto ==> f.selectedCrypto == form.selectedCrypto) &&
      (field != EmailField ==> f.email == form.email)
  {
  }

  /** The currencies offered: the enabled ones, in list order. */
  function EnabledCurrencies(currencies: seq<CryptoService.CryptoCurrency>): (r: seq<CryptoService.CryptoCurrency>)
    ensures forall i :: 0 <= i < |r| ==> r[i].enabled && r[i] in currencies
    ensures forall i :: 0 <= i < |currencies| && currencies[i].enabled ==> currencies[i] in r
  {
    Seqs.Filter(currencies, (c: CryptoService.CryptoCurrency) => c.enabled)
  }

  /** All of the supported currencies are offered. */
  lemma AllSupportedOffered()
    ensures EnabledCurrencies(CryptoService.SupportedCurrencies) == CryptoService.SupportedCurrencies
  {
    CryptoService.SupportedCurrenciesWellFormed();
    Seqs.FilterAll(CryptoService.SupportedCurrencies, (c: CryptoService.CryptoCurrency) => c.enabled);
  }

  /** The submit button is disabled while loading, with a zero amount, or
      with no currency selected. */
  predicate SubmitDisabled(isLoading: bool, form: PaymentFormData, selectedCrypto: string)
    ensures isLoading ==> SubmitDisabled(isLoading, form, selectedCrypto)
    ensures !SubmitDisabled(isLoading, form, selectedCrypto) ==> !Fails(form, selectedCrypto, SelectedCrypto)
  {
    isLoading || form.amount == 0.0 || selectedCrypto == ""
  }

  /** An enabled submit button rules out the currency error, and leaves an
      amount error only for a negative amount. */
  lemma EnabledSubmitPassesCurrencyRule(isLoading: bool, form: PaymentFormData, selectedCrypto: string)
    requires !SubmitDisabled(isLoading, form, selectedCrypto)
    ensures !Fails(form, selectedCrypto, SelectedCrypto)
    ensures Fails(form, selectedCrypto, Amount) <==> form.amount < 0.0
  {
  }
}
