/** The helpers of the crypto payment status view
    (`apps/crypto-payment/src/components/PaymentStatus.tsx`): the poll guard,
    the status colour and text, the countdown text and the terminal-status
    flags. */
module CryptoPaymentStatus {
  import opened Decimal
  import opened CryptoPayments

  /** The status as the source spells it. */
  function StatusName(s: PaymentStatus): string {
    match s
    case Pending => "pending"
    case AwaitingConfirmation => "awaiting_confirmation"
    case Confirmed => "confirmed"
    case Completed => "completed"
    case Expired => "expired"
    case Failed => "failed"
  }

  /** `isCompleted`: `status === 'completed'`. */
  predicate IsCompleted(s: PaymentStatus)
    ensures IsCompleted(s) <==> StatusName(s) == "completed"
  {
    s == Completed
  }

  /** `isFailed`: `status === 'failed' || status === 'expired'`. */
  predicate IsFailed(s: PaymentStatus)
    ensures IsFailed(s) <==> StatusName(s) == "failed" || StatusName(s) == "expired"
  {
    s == Failed || s == Expired
  }

  /** The interval callback asks for a status update: the status is none of
      completed, failed and expired, which leaves exactly the three statuses
      before completion on the chain. */
  predicate ShouldPoll(s: PaymentStatus)
    ensures ShouldPoll(s) <==> s == Pending || s == AwaitingConfirmation || s == Confirmed
  {
    StatusName(s) != "completed" && StatusName(s) != "failed" && StatusName(s) != "expired"
  }

  /** Polling goes on exactly while the view shows neither the completed nor
      the failed state, and the two states never show together. */
  lemma PollUntilSettled(s: PaymentStatus)
    ensures ShouldPoll(s) <==> !IsCompleted(s) && !IsFailed(s)
    ensures !(IsCompleted(s) && IsFailed(s))
  {
  }

  /** A payment the service moves along its chain stops being polled only
      once it is completed. */
  lemma ChainPaymentsPollUntilCompleted(s: PaymentStatus)
    requires Rank(s) >= 0
    ensures ShouldPoll(s) <==> s != Completed
  {
  }

  const UnknownStatus: string := "Unknown status"

  /** `getStatusText(status)`. */
  function StatusText(status: string): (r: string)
    ensures status == "pending" ==> r == "Waiting for payment"
    ensures status == "awaiting_confirmation" ==> r == "Payment detected, awaiting confirmations"
    ensures status == "confirmed" ==> r == "Payment confirmed"
    ensures status == "completed" ==> r == "Payment completed successfully"
    ensures status == "failed" ==> r == "Payment failed"
    ensures status == "expired" ==> r == "Payment expired"
  {
    if status == "pending" then "Waiting for payment"
    else if status == "awaiting_confirmation" then "Payment detected, awaiting confirmations"
    else if status == "confirmed" then "Payment confirmed"
    else if status == "completed" then "Payment completed successfully"
    else if status == "failed" then "Payment failed"
    else if status == "expired" then "Payment expired"
    else UnknownStatus
  }

  /** The six statuses have six different texts, none of them the fallback;
      any other string gets the fallback. */
  lemma StatusTextDistinct(a: PaymentStatus, b: PaymentStatus, other: string)
    requires forall s: PaymentStatus :: other != StatusName(s)
    ensures StatusText(StatusName(a)) != UnknownStatus
    ensures StatusText(StatusName(a)) == StatusText(StatusName(b)) <==> a == b
    ensures StatusText(other) == UnknownStatus
  {
    assert other != StatusName(Pending) && other != StatusName(AwaitingConfirmation) && other != StatusName(Confirmed);
    assert other != StatusName(Completed) && other != StatusName(Failed) && other != StatusName(Expired);
  }

  /** `status` spells one of the six statuses. */
  predicate IsStatusName(status: string) {
    || status == "pending" || status == "awaiting_confirmation" || status == "confirmed"
    || status == "completed" || status == "failed" || status == "expired"
  }

  /** The Tailwind classes of one hue, as every branch of `getStatusColor`
      spells them: `text-<hue>-600 bg-<hue>-50 border-<hue>-200`. */
  function Palette(hue: string): string {
    "text-" + hue + "-600 bg-" + hue + "-50 border-" + hue + "-200"
  }

  /** The hue's first and third letters stand at positions 5 and 7, so
      palettes of hues that differ there differ. */
  lemma PaletteMark(hue: string)
    requires |hue| >= 3
    ensures Palette(hue)[5] == hue[0] && Palette(hue)[7] == hue[2]
  {
    assert Palette(hue) == "text-" + hue + ("-600 bg-" + hue + "-50 border-" + hue + "-200");
  }

  const FallbackColor: string := Palette("gray")

  /** `getStatusColor(status)`: the grey fallback exactly for a string that
      names no status. */
  function StatusColor(status: string): (r: string)
    ensures r == FallbackColor <==> !IsStatusName(status)
  {
    PaletteMark("yellow"); PaletteMark("blue"); PaletteMark("purple");
    PaletteMark("green"); PaletteMark("red"); PaletteMark("gray");
    if status == "pending" then Palette("yellow")
    else if status == "awaiting_confirmation" then Palette("blue")
    else if status == "confirmed" then Palette("purple")
    else if status == "completed" then Palette("green")
    else if status == "failed" || status == "expired" then Palette("red")
    else FallbackColor
  }

  /** The hue each status is shown in. */
  function Hue(s: PaymentStatus): (h: string)
    ensures |h| >= 3
  {
    match s
    case Pending => "yellow"
    case AwaitingConfirmation => "blue"
    case Confirmed => "purple"
    case Completed => "green"
    case Failed | Expired => "red"
  }

  lemma StatusColorIs(s: PaymentStatus)
    ensures StatusColor(StatusName(s)) == Palette(Hue(s))
  {
  }

  lemma HuesDistinct(a: PaymentStatus, b: PaymentStatus)
    ensures Palette(Hue(a)) == Palette(Hue(b)) <==> a == b || (IsFailed(a) && IsFailed(b))
  {
    PaletteMark(Hue(a));
    PaletteMark(Hue(b));
    if Palette(Hue(a)) == Palette(Hue(b)) {
      assert Hue(a)[0] == Hue(b)[0] && Hue(a)[2] == Hue(b)[2];
    }
  }

  /** Failed and expired share one colour; the colours of the four chain
      statuses differ from it and from each other. */
  lemma StatusColors(a: PaymentStatus, b: PaymentStatus)
    ensures StatusColor(StatusName(Failed)) == StatusColor(StatusName(Expired))
    ensures StatusColor(StatusName(a)) == StatusColor(StatusName(b)) <==> a == b || (IsFailed(a) && IsFailed(b))
  {
    StatusColorIs(a);
    StatusColorIs(b);
    StatusColorIs(Failed);
    StatusColorIs(Expired);
    HuesDistinct(a, b);
  }

  /** `formatTimeRemaining()` with the clock as a parameter. */
  function FormatTimeRemaining(expiresAt: int, now: int): (r: string)
    ensures expiresAt - now <= 0 <==> r == "Expired"
    ensures expiresAt - now > 0 ==> |r| >= 4 && r[|r| - 3] == ':'
    ensures expiresAt - now > 0 ==>
      (forall i :: 0 <= i < |r| - 3 ==> IsDigit(r[i])) && (|r| > 4 ==> r[0] != '0') &&
      IsDigit(r[|r| - 2]) && IsDigit(r[|r| - 1])
  {
    var remaining := expiresAt - now;
    if remaining <= 0 then "Expired"
    else
      var minutes := remaining / 60000;
      var seconds := (remaining % 60000) / 1000;
      var text := NatToString(minutes) + ":" + Pad2(seconds);
      assert text[|text| - 3] == ':' != "Expired"[4];
      assert forall i :: 0 <= i < |text| - 3 ==> text[i] == NatToString(minutes)[i];
      text
  }

  /** The countdown text reads back as minutes and seconds that account for
      the remaining time to within a second, with the seconds below 60 and
      always two digits. */
  lemma TimeRemainingReadsBack(expiresAt: int, now: int)
    requires expiresAt - now > 0
    ensures var r := FormatTimeRemaining(expiresAt, now);
      var m := DigitValue(r[..|r| - 3]);
      var s := DigitValue(r[|r| - 2..]);
      IsDigit(r[|r| - 2]) && IsDigit(r[|r| - 1]) &&
      s < 60 && m * 60000 + s * 1000 <= expiresAt - now < m * 60000 + s * 1000 + 1000
  {
    var remaining := expiresAt - now;
    var minutes := remaining / 60000;
    var seconds := (remaining % 60000) / 1000;
    var r := FormatTimeRemaining(expiresAt, now);
    assert r == NatToString(minutes) + ":" + Pad2(seconds);
    assert r[..|r| - 3] == NatToString(minutes);
    assert r[|r| - 2..] == Pad2(seconds);
    NatToStringValue(minutes);
    Pad2Value(seconds);
  }
}
