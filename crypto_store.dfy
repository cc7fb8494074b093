/** The crypto add-on's stores (`apps/crypto-payment/src/store/paymentStore.ts`),
    each store update a function of the state and the event. */
module CryptoStore {
  import opened Wrappers
  import CryptoService
  import opened CryptoPayments

  /** `Partial<PaymentFormData>`: a field is in the patch when it is `Some`. */
  datatype FormPatch = FormPatch(amount: Option<real>, currency: Option<Fiat>, selectedCrypto: Option<string>, email: Option<string>)

  const EmptyPatch := FormPatch(None, None, None, None)

  /** `{ ...form, ...updates }`. */
  function MergeForm(form: PaymentFormData, patch: FormPatch): (r: PaymentFormData)
    ensures r.amount == (if patch.amount.Some? then patch.amount.value else form.amount)
    ensures r.currency == (if patch.currency.Some? then patch.currency.value else form.currency)
    ensures r.selectedCrypto == (if patch.selectedCrypto.Some? then patch.selectedCrypto.value else form.selectedCrypto)
    ensures r.email == (if patch.email.Some? then patch.email else form.email)
  {
    PaymentFormData(
      patch.amount.GetOr(form.amount),
      patch.currency.GetOr(form.currency),
      patch.selectedCrypto.GetOr(form.selectedCrypto),
      if patch.email.Some? then patch.email else form.email)
  }

  /** An empty patch changes nothing, and a patch applied twice acts once. */
  lemma MergeFormLaws(form: PaymentFormData, patch: FormPatch)
    ensures MergeForm(form, EmptyPatch) == form
    ensures MergeForm(MergeForm(form, patch), patch) == MergeForm(form, patch)
  {
  }

  /** The stores of the add-on. */
  datatype State = State(
    currencies: seq<CryptoService.CryptoCurrency>,
    selectedCrypto: string,
    form: PaymentFormData,
    currentPayment: Option<PaymentRequest>,
    isLoading: bool,
    error: Option<string>)

  /** The stores' initial values. */
  const Initial := State([], "", PaymentFormData(0.0, USD, "", Some("")), None, false, None)

  /** The three effects. */
  datatype Effect = FetchCurrencies | CreatePaymentFx | CheckStatusFx

  /** The events the stores react to: the user events, and the start, result
      and failure of each effect. */
  datatype Event =
    | SelectCryptoCurrency(cryptoId: string)
    | UpdatePaymentForm(patch: FormPatch)
    | ResetPayment
    | Started(fx: Effect)
    | CurrenciesFetched(fetched: seq<CryptoService.CryptoCurrency>)
    | PaymentCreated(created: PaymentRequest)
    | StatusChecked(checked: PaymentRequest)
    | EffectFailed(failed: Effect, message: string)

  /** A status check result replaces the current payment only when the ids
      match; a missing current payment stays missing. */
  function ApplyStatus(current: Option<PaymentRequest>, updated: PaymentRequest): (r: Option<PaymentRequest>)
    ensures current.Some? && current.value.id == updated.id ==> r == Some(updated)
    ensures current.None? || current.value.id != updated.id ==> r == current
  {
    if current.Some? && current.value.id == updated.id then Some(updated) else current
  }

  /** Every store's update for one event. `selectCryptoCurrency` also feeds
      the form through the `sample` that writes `selectedCrypto` into it. */
  function Reduce(s: State, ev: Event): (r: State)
    ensures ev.SelectCryptoCurrency? ==>
      r == s.(selectedCrypto := ev.cryptoId, form := s.form.(selectedCrypto := ev.cryptoId))
    ensures ev.UpdatePaymentForm? ==> r == s.(form := MergeForm(s.form, ev.patch))
    ensures ev.ResetPayment? ==> r == s.(currentPayment := None, error := None)
    ensures ev.Started? ==> r == s.(isLoading := true, error := None)
    ensures ev.CurrenciesFetched? ==> r == s.(currencies := ev.fetched, isLoading := false)
    ensures ev.PaymentCreated? ==> r == s.(currentPayment := Some(ev.created), isLoading := false)
    ensures ev.StatusChecked? ==> r == s.(currentPayment := ApplyStatus(s.currentPayment, ev.checked), isLoading := false)
    ensures ev.EffectFailed? ==> r == s.(isLoading := false, error := Some(ev.message))
  {
    match ev
    case SelectCryptoCurrency(c) =>
      s.(selectedCrypto := c, form := MergeForm(s.form, EmptyPatch.(selectedCrypto := Some(c))))
    case UpdatePaymentForm(p) => s.(form := MergeForm(s.form, p))
    case ResetPayment => s.(currentPayment := None, error := None)
    case Started(_) => s.(isLoading := true, error := None)
    case CurrenciesFetched(cs) => s.(currencies := cs, isLoading := false)
    case PaymentCreated(p) => s.(currentPayment := Some(p), isLoading := false)
    case StatusChecked(p) => s.(currentPayment := ApplyStatus(s.currentPayment, p), isLoading := false)
    case EffectFailed(_, m) => s.(isLoading := false, error := Some(m))
  }

  /** The state after a run of events. */
  function Run(s: State, events: seq<Event>): State
    decreases events
  {
    if events == [] then s else Run(Reduce(s, events[0]), events[1..])
  }

  /** An effect that was started and then finished, whatever its outcome,
      leaves the store not loading; a failure leaves its message as the
      error, a success leaves no error. */
  lemma EffectRoundTrip(s: State, fx: Effect, outcome: Event)
    requires outcome.CurrenciesFetched? || outcome.PaymentCreated? || outcome.StatusChecked? || outcome.EffectFailed?
    ensures !Run(s, [Started(fx), outcome]).isLoading
    ensures outcome.EffectFailed? ==> Run(s, [Started(fx), outcome]).error == Some(outcome.message)
    ensures !outcome.EffectFailed? ==> Run(s, [Started(fx), outcome]).error == None
  {
    var started := Reduce(s, Started(fx));
    assert [Started(fx), outcome][1..] == [outcome];
    assert Run(s, [Started(fx), outcome]) == Run(started, [outcome]);
    assert [outcome][1..] == [];
    assert Run(started, [outcome]) == Reduce(started, outcome);
  }

  /** Status checks for other payments never change the current payment, so
      a created payment is only replaced by a result carrying its own id. */
  lemma {:induction false} OnlyOwnStatusReplaces(s: State, checks: seq<PaymentRequest>)
    requires s.currentPayment.Some?
    requires forall i :: 0 <= i < |checks| ==> checks[i].id != s.currentPayment.value.id
    ensures Run(s, seq(|checks|, i requires 0 <= i < |checks| => StatusChecked(checks[i]))).currentPayment == s.currentPayment
    decreases |checks|
  {
    var events := seq(|checks|, i requires 0 <= i < |checks| => StatusChecked(checks[i]));
    if checks != [] {
      var next := Reduce(s, events[0]);
      assert next.currentPayment == s.currentPayment;
      assert events[1..] == seq(|checks[1..]|, i requires 0 <= i < |checks[1..]| => StatusChecked(checks[1..][i]));
      OnlyOwnStatusReplaces(next, checks[1..]);
    }
  }
}
