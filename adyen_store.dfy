/** The card payment add-on's stores (`apps/adyen-payment/src/store/paymentStore.ts`):
    the payment state machine `idle / loading / success / error` driven by
    the start, result and failure of the submit and action effects, by
    `setError` and by `resetPayment`; the stores derived from it; and the
    payment form with its patch merge. */
module AdyenStore {
  import opened Wrappers

  datatype ResultCode = Authorised | Refused | Error | Cancelled | Pending | Received

  /** `AdyenPaymentResponse`, without the opaque `action` and `additionalData`. */
  datatype PaymentResponse = PaymentResponse(
    resultCode: ResultCode,
    refusalReason: Option<string>,
    pspReference: Option<string>,
    merchantReference: Option<string>)

  datatype Status = Idle | Loading | Success | Failure

  /** The `error` field: not there at all (the initial state), `null`, or a
      message. */
  datatype ErrorField = Absent | Null | Msg(text: string)

  /** `PaymentState`. No update ever sets `reference`. */
  datatype PaymentState = PaymentState(
    status: Status,
    paymentData: Option<PaymentResponse>,
    error: ErrorField,
    reference: Option<string>)

  /** `{ status: 'idle' }`. */
  const Initial := PaymentState(Idle, None, Absent, None)

  /** What `resetPayment` produces: `{ status: 'idle', error: null }`. */
  const ResetState := PaymentState(Idle, None, Null, None)

  /** The events the state reacts to. */
  datatype Event =
    | SubmitStarted
    | SubmitDone(submitResponse: PaymentResponse)
    | SubmitFailed(submitMessage: string)
    | ActionStarted
    | ActionDone(actionResponse: PaymentResponse)
    | ActionFailed(actionMessage: string)
    | SetError(message: string)
    | Reset

  /** `a || b` on strings, with a missing string falsy like the empty one. */
  function OrElse(a: Option<string>, fallback: string): (r: string)
    ensures a.Some? && a.value != "" ==> r == a.value
    ensures a.None? || a.value == "" ==> r == fallback
  {
    if a.Some? && a.value != "" then a.value else fallback
  }

  /** The state after an effect's response: success iff authorised, the
      response kept, and otherwise the refusal reason or the fallback. */
  function Completed(s: PaymentState, response: PaymentResponse, fallback: string): (r: PaymentState)
    ensures r.status == Success <==> response.resultCode == Authorised
    ensures r.status == Success || r.status == Failure
    ensures r.paymentData == Some(response)
    ensures response.resultCode == Authorised ==> r.error == Null
    ensures response.resultCode != Authorised ==> r.error == Msg(OrElse(response.refusalReason, fallback))
    ensures r.reference == s.reference
  {
    s.(status := if response.resultCode == Authorised then Success else Failure,
       paymentData := Some(response),
       error := if response.resultCode != Authorised then Msg(OrElse(response.refusalReason, fallback)) else Null)
  }

  /** `$paymentState`'s update for one event. */
  function Reduce(s: PaymentState, ev: Event): (r: PaymentState)
    ensures ev.SubmitStarted? ==> r == s.(status := Loading, error := Null)
    ensures ev.ActionStarted? ==> r == s.(status := Loading)
    ensures ev.SubmitDone? ==> r == Completed(s, ev.submitResponse, "Payment failed")
    ensures ev.ActionDone? ==> r == Completed(s, ev.actionResponse, "Action failed")
    ensures ev.SubmitFailed? ==> r == s.(status := Failure, error := Msg(OrElse(Some(ev.submitMessage), "Payment failed")))
    ensures ev.ActionFailed? ==> r == s.(status := Failure, error := Msg(OrElse(Some(ev.actionMessage), "Action handling failed")))
    ensures ev.SetError? ==> r == s.(status := Failure, error := Msg(ev.message))
    ensures ev.Reset? ==> r == ResetState
  {
    match ev
    case SubmitStarted => s.(status := Loading, error := Null)
    case SubmitDone(resp) => Completed(s, resp, "Payment failed")
    case SubmitFailed(m) => s.(status := Failure, error := Msg(OrElse(Some(m), "Payment failed")))
    case ActionStarted => s.(status := Loading)
    case ActionDone(resp) => Completed(s, resp, "Action failed")
    case ActionFailed(m) => s.(status := Failure, error := Msg(OrElse(Some(m), "Action handling failed")))
    case SetError(m) => s.(status := Failure, error := Msg(m))
    case Reset => ResetState
  }

  /** The `status` string the source stores. */
  function StatusName(st: Status): string {
    match st
    case Idle => "idle"
    case Loading => "loading"
    case Success => "success"
    case Failure => "error"
  }

  /** `$isLoading`: `status === 'loading'`; a loading state is never a
      successful one. */
  predicate IsLoading(s: PaymentState)
    ensures IsLoading(s) <==> StatusName(s.status) == "loading"
    ensures IsLoading(s) ==> !IsSuccess(s)
  {
    s.status == Loading
  }

  /** `$isSuccess`: `status === 'success'`. */
  predicate IsSuccess(s: PaymentState)
    ensures IsSuccess(s) <==> StatusName(s.status) == "success"
  {
    s.status == Success
  }

  /** `$error`: the message when it is a non-empty string, null otherwise. */
  function ErrorOf(s: PaymentState): (r: Option<string>)
    ensures r.Some? <==> s.error.Msg? && s.error.text != ""
    ensures r.Some? ==> r.value == s.error.text
  {
    if s.error.Msg? && s.error.text != "" then Some(s.error.text) else None
  }

  /** After any response or failure of either effect the state is settled:
      not loading, and exactly one of success and a shown error. */
  lemma SettledAfterOutcome(s: PaymentState, ev: Event)
    requires ev.SubmitDone? || ev.ActionDone? || ev.SubmitFailed? || ev.ActionFailed?
    ensures !IsLoading(Reduce(s, ev))
    ensures IsSuccess(Reduce(s, ev)) <==> ErrorOf(Reduce(s, ev)).None?
  {
  }

  /** Submit start clears the previous error; action start keeps it. */
  lemma StartsAndErrors(s: PaymentState)
    ensures IsLoading(Reduce(s, SubmitStarted)) && ErrorOf(Reduce(s, SubmitStarted)).None?
    ensures IsLoading(Reduce(s, ActionStarted)) && ErrorOf(Reduce(s, ActionStarted)) == ErrorOf(s)
  {
  }

  /** Reset forgets everything, and shows what the initial state shows. */
  lemma ResetLikeInitial(s: PaymentState)
    ensures Reduce(s, Reset).paymentData.None? && Reduce(s, Reset).reference.None?
    ensures IsLoading(Reduce(s, Reset)) == IsLoading(Initial)
    ensures IsSuccess(Reduce(s, Reset)) == IsSuccess(Initial)
    ensures ErrorOf(Reduce(s, Reset)) == ErrorOf(Initial)
  {
  }

  /** `PaymentFormData`. */
  datatype PaymentFormData = PaymentFormData(
    amount: real,
    currency: string,
    reference: string,
    shopperEmail: Option<string>,
    description: Option<string>)

  /** The initial form. */
  const InitialForm := PaymentFormData(23.30, "EUR", "", Some(""), Some("InsureCare POC Payment"))

  /** `Partial<PaymentFormData>`: a field is in the patch when it is `Some`. */
  datatype FormPatch = FormPatch(
    amount: Option<real>,
    currency: Option<string>,
    reference: Option<string>,
    shopperEmail: Option<string>,
    description: Option<string>)

  /** `{ ...state, ...payload }`. */
  function MergeForm(form: PaymentFormData, patch: FormPatch): (r: PaymentFormData)
    ensures r.amount == (if patch.amount.Some? then patch.amount.value else form.amount)
    ensures r.currency == (if patch.currency.Some? then patch.currency.value else form.currency)
    ensures r.reference == (if patch.reference.Some? then patch.reference.value else form.reference)
    ensures r.shopperEmail == (if patch.shopperEmail.Some? then patch.shopperEmail else form.shopperEmail)
    ensures r.description == (if patch.description.Some? then patch.description else form.description)
  {
    PaymentFormData(
      patch.amount.GetOr(form.amount),
      patch.currency.GetOr(form.currency),
      patch.reference.GetOr(form.reference),
      if patch.shopperEmail.Some? then patch.shopperEmail else form.shopperEmail,
      if patch.description.Some? then patch.description else form.description)
  }

  /** An empty patch changes nothing; a patch applied twice acts once. */
  lemma MergeFormLaws(form: PaymentFormData, patch: FormPatch)
    ensures MergeForm(form, FormPatch(None, None, None, None, None)) == form
    ensures MergeForm(MergeForm(form, patch), patch) == MergeForm(form, patch)
  {
  }
}
