/** The card payment add-on's request service
    (`apps/adyen-payment/src/services/paymentService.ts`): form validation
    into an ordered error list, and the payment request built from a form. */
module AdyenService {
  import opened Wrappers
  import Email
  import opened AdyenStore

  const AmountError: string := "Amount must be greater than 0"
  const CurrencyError: string := "Currency is required"
  const EmailError: string := "Invalid email address"

  /** The amount rule is broken: the amount is not positive. */
  predicate AmountFails(form: PaymentFormData) {
    form.amount <= 0.0
  }

  /** The currency rule is broken: no currency. */
  predicate CurrencyFails(form: PaymentFormData) {
    form.currency == ""
  }

  /** The e-mail rule is broken: an e-mail is given and does not have the
      accepted form. */
  predicate EmailFails(form: PaymentFormData) {
    form.shopperEmail.Some? && form.shopperEmail.value != "" && !Email.IsValidEmail(form.shopperEmail.value)
  }

  /** The position a message takes in the fixed rule order. */
  function RuleOrder(message: string): int {
    if message == AmountError then 0 else if message == CurrencyError then 1 else 2
  }

  /** `validatePaymentForm(formData)`: one message per broken rule, in the
      order amount, currency, e-mail; valid iff the list is empty. */
  method ValidatePaymentForm(form: PaymentFormData) returns (isValid: bool, errors: seq<string>)
    ensures AmountError in errors <==> AmountFails(form)
    ensures CurrencyError in errors <==> CurrencyFails(form)
    ensures EmailError in errors <==> EmailFails(form)
    ensures forall i :: 0 <= i < |errors| ==> errors[i] in {AmountError, CurrencyError, EmailError}
    ensures forall i, j :: 0 <= i < j < |errors| ==> RuleOrder(errors[i]) < RuleOrder(errors[j])
    ensures isValid <==> errors == []
    ensures isValid <==> !AmountFails(form) && !CurrencyFails(form) && !EmailFails(form)
  {
    errors := [];
    if form.amount <= 0.0 {
      errors := errors + [AmountError];
    }
    if form.currency == "" {
      errors := errors + [CurrencyError];
    }
    if form.shopperEmail.Some? && form.shopperEmail.value != "" && !Email.IsValidEmail(form.shopperEmail.value) {
      errors := errors + [EmailError];
    }
    isValid := |errors| == 0;
  }

  /** `AdyenPaymentRequest`; absent optional fields are `None`. */
  datatype Amount = Amount(value: int, currency: string)
  datatype PaymentRequest = PaymentRequest(
    amount: Amount,
    reference: string,
    paymentMethodType: string,
    returnUrl: string,
    merchantAccount: string,
    countryCode: Option<string>,
    shopperLocale: Option<string>,
    shopperReference: Option<string>,
    shopperEmail: Option<string>)

  /** `createPaymentRequest(formData)`. The amount in minor units, the
      generated reference, the page origin and the configured merchant
      account (empty when unset) are inputs. */
  method CreatePaymentRequest(form: PaymentFormData, minorAmount: int, generatedReference: string, origin: string, configuredMerchant: string)
    returns (request: PaymentRequest)
    ensures request.amount == Amount(minorAmount, form.currency)
    ensures form.reference != "" ==> request.reference == form.reference
    ensures form.reference == "" ==> request.reference == generatedReference
    ensures request.paymentMethodType == "scheme"
    ensures request.returnUrl == origin + "/payment/result"
    ensures configuredMerchant != "" ==> request.merchantAccount == configuredMerchant
    ensures configuredMerchant == "" ==> request.merchantAccount == "YourMerchantAccount"
    ensures request.countryCode == Some("NL") && request.shopperLocale == Some("en_US")
    ensures request.shopperEmail.Some? <==> form.shopperEmail.Some? && form.shopperEmail.value != ""
    ensures request.shopperEmail.Some? ==> request.shopperEmail == form.shopperEmail
    ensures request.shopperReference == request.shopperEmail
  {
    request := PaymentRequest(
      Amount(minorAmount, form.currency),
      if form.reference != "" then form.reference else generatedReference,
      "scheme",
      origin + "/payment/result",
      if configuredMerchant != "" then configuredMerchant else "YourMerchantAccount",
      Some("NL"),
      Some("en_US"),
      None,
      None);
    if form.shopperEmail.Some? && form.shopperEmail.value != "" {
      request := request.(shopperEmail := form.shopperEmail, shopperReference := form.shopperEmail);
    }
  }

  /** A form that passes validation gives a request with a currency, and any
      e-mail it carries has the accepted form (so it also matches the pattern). */
  lemma ValidFormGivesCleanRequest(form: PaymentFormData, request: PaymentRequest)
    requires !AmountFails(form) && !CurrencyFails(form) && !EmailFails(form)
    requires request.amount.currency == form.currency
    requires request.shopperEmail.Some? ==> request.shopperEmail == form.shopperEmail && form.shopperEmail.value != ""
    ensures request.amount.currency != ""
    ensures request.shopperEmail.Some? ==> Email.MatchesPattern(request.shopperEmail.value)
  {
    if request.shopperEmail.Some? {
      Email.IsValidEmailIffPattern(request.shopperEmail.value);
    }
  }
}
