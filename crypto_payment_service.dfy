/** The crypto add-on's payment service
    (`apps/crypto-payment/src/services/paymentService.ts`): a dictionary of
    payment requests, creation, status lookup, and the three timed progress
    steps, here explicit step events. */
module CryptoPayments {
  import opened Wrappers
  import opened CryptoService

  datatype PaymentStatus = Pending | AwaitingConfirmation | Confirmed | Completed | Expired | Failed

  datatype Fiat = USD | EUR

  /** `PaymentFormData`; `email` is optional. Amounts are decimal numbers. */
  datatype PaymentFormData = PaymentFormData(amount: real, currency: Fiat, selectedCrypto: string, email: Option<string>)

  /** `PaymentRequest` without `cryptoAmount` and `qrCode`; times are
      milliseconds since the epoch. */
  datatype PaymentRequest = PaymentRequest(
    id: string,
    amount: real,
    currency: Fiat,
    cryptoCurrency: CryptoCurrency,
    walletAddress: string,
    status: PaymentStatus,
    createdAt: int,
    expiresAt: int)

  /** Thirty minutes, in milliseconds. */
  const PaymentLifetime: int := 30 * 60 * 1000

  const CreateFailed: string := "Failed to create payment request"
  const NotFound: string := "Payment not found"

  /** The payment `createPayment` builds for the form, given the generated id
      and the clock, or the error it throws when the currency is unknown. */
  function NewPayment(form: PaymentFormData, paymentId: string, now: int): (r: Result<PaymentRequest, string>)
    ensures r.Err? <==> FindCurrency(SupportedCurrencies, form.selectedCrypto).None?
    ensures r.Err? ==> r.error == CreateFailed
    ensures r.Ok? ==> r.value.id == paymentId && r.value.status == Pending
    ensures r.Ok? ==> r.value.amount == form.amount && r.value.currency == form.currency
    ensures r.Ok? ==> r.value.cryptoCurrency.id == form.selectedCrypto && r.value.cryptoCurrency in SupportedCurrencies
    ensures r.Ok? ==> r.value.walletAddress != UnknownAddress
    ensures r.Ok? ==> r.value.createdAt == now && r.value.expiresAt == now + 1800000
  {
    match FindCurrency(SupportedCurrencies, form.selectedCrypto)
    case None => Err(CreateFailed)
    case Some(c) =>
      SupportedHaveAddresses(form.selectedCrypto);
      Ok(PaymentRequest(paymentId, form.amount, form.currency, c, GenerateWalletAddress(form.selectedCrypto),
                        Pending, now, now + PaymentLifetime))
  }

  /** The three progress steps, fired 5, 15 and 25 seconds after creation. */
  datatype Step = ToAwaitingConfirmation | ToConfirmed | ToCompleted

  /** The status a step fires from. */
  function From(step: Step): PaymentStatus {
    match step
    case ToAwaitingConfirmation => Pending
    case ToConfirmed => AwaitingConfirmation
    case ToCompleted => Confirmed
  }

  /** The status a step moves to. */
  function To(step: Step): PaymentStatus {
    match step
    case ToAwaitingConfirmation => AwaitingConfirmation
    case ToConfirmed => Confirmed
    case ToCompleted => Completed
  }

  /** Position along `pending → awaiting_confirmation → confirmed → completed`;
      the two statuses off the chain rank below it. */
  function Rank(s: PaymentStatus): int {
    match s
    case Pending => 0
    case AwaitingConfirmation => 1
    case Confirmed => 2
    case Completed => 3
    case Expired => -1
    case Failed => -1
  }

  /** A step's effect on one status: forward by one rung if the status is the
      one it expects, no change otherwise. */
  function StepStatus(s: PaymentStatus, step: Step): (r: PaymentStatus)
    ensures s == From(step) ==> r == To(step) && Rank(r) == Rank(s) + 1
    ensures s != From(step) ==> r == s
  {
    if s == From(step) then To(step) else s
  }

  /** The dictionary after a step for payment `id`: only that payment's
      status may change, and only from the expected status. */
  function Advanced(payments: map<string, PaymentRequest>, id: string, step: Step): (r: map<string, PaymentRequest>)
    ensures r.Keys == payments.Keys
    ensures forall k :: k in payments && k != id ==> r[k] == payments[k]
    ensures id in payments ==> r[id] == payments[id].(status := StepStatus(payments[id].status, step))
  {
    if id in payments && payments[id].status == From(step)
    then payments[id := payments[id].(status := To(step))]
    else payments
  }

  /** The status after a run of steps. */
  function StatusAfter(s: PaymentStatus, steps: seq<Step>): PaymentStatus
    decreases steps
  {
    if steps == [] then s else StatusAfter(StepStatus(s, steps[0]), steps[1..])
  }

  /** Whatever steps fire, in whatever order, the status never moves back
      along the chain. */
  lemma {:induction false} StepsOnlyMoveForward(s: PaymentStatus, steps: seq<Step>)
    ensures Rank(StatusAfter(s, steps)) >= Rank(s)
    ensures s == Completed ==> StatusAfter(s, steps) == Completed
    decreases steps
  {
    if steps != [] {
      StepsOnlyMoveForward(StepStatus(s, steps[0]), steps[1..]);
    }
  }

  /** Steps never lead to a failed or expired payment from one on the chain,
      and never leave such a payment. */
  lemma {:induction false} StepsStayOnChain(s: PaymentStatus, steps: seq<Step>)
    ensures Rank(s) >= 0 ==> Rank(StatusAfter(s, steps)) >= 0
    ensures Rank(s) < 0 ==> StatusAfter(s, steps) == s
    decreases steps
  {
    if steps != [] {
      StepsStayOnChain(StepStatus(s, steps[0]), steps[1..]);
    }
  }

  /** The scheduled order of the three timers takes a pending payment to
      completed. */
  lemma ScheduleCompletes()
    ensures StatusAfter(Pending, [ToAwaitingConfirmation, ToConfirmed, ToCompleted]) == Completed
  {
  }

  /** `PaymentService`, with the generated id and the clock as parameters. */
  class PaymentService {
    var payments: map<string, PaymentRequest>

    constructor ()
      ensures payments == map[]
    {
      payments := map[];
    }

    /** `createPayment(formData)`: on success the payment is stored under its
        own id; on failure nothing is stored. */
    method CreatePayment(form: PaymentFormData, paymentId: string, now: int) returns (r: Result<PaymentRequest, string>)
      modifies this
      ensures r == NewPayment(form, paymentId, now)
      ensures r.Ok? ==> payments == old(payments)[paymentId := r.value]
      ensures r.Err? ==> payments == old(payments)
    {
      r := NewPayment(form, paymentId, now);
      if r.Ok? {
        payments := payments[paymentId := r.value];
      }
    }

    /** `checkStatus(paymentId)`: the stored payment, or the error it throws. */
    method CheckStatus(paymentId: string) returns (r: Result<PaymentRequest, string>)
      ensures paymentId in payments ==> r == Ok(payments[paymentId])
      ensures paymentId !in payments ==> r == Err(NotFound)
    {
      if paymentId in payments {
        r := Ok(payments[paymentId]);
      } else {
        r := Err(NotFound);
      }
    }

    /** One timer of `simulatePaymentProgress` firing for `paymentId`. */
    method Advance(paymentId: string, step: Step)
      modifies this
      ensures payments == Advanced(old(payments), paymentId, step)
    {
      if paymentId in payments {
        var payment := payments[paymentId];
        if payment.status == From(step) {
          payments := payments[paymentId := payment.(status := To(step))];
        }
      }
    }
  }
}
