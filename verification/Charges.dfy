/** What may be charged and when: how calls open and end the charges of a booking, and what each call reports. */
module Charges {
  import opened Common
  import opened Runs
  import opened Payments
  import PT = PaymentTheorems

  /** The business exists and may take payments, and the booking has a client. */
  predicate Ready(m: Merchant) {
    m.hasBusiness && m.paymentReady && m.chargesEnabled && m.hasClient
  }

  predicate ConfirmedPaid(a: Account) {
    a.booking.status == Confirmed && a.booking.depositStatus == DepositPaid
  }

  predicate AwaitsDeposit(a: Account) {
    a.booking.status == Held && a.booking.depositStatus == DepositPending
  }

  /** The hold's time is not over, as a clock on the wall would say. */
  predicate BeforeExpiry(a: Account) {
    match a.booking.holdExpiresAt
    case None => true
    case Some(expiry) => a.clock < expiry
  }

  // ---------- Opening a charge ----------

  /** A new hold's deposit can be charged exactly while the hold lasts, if there is one to charge and everyone is ready. */
  lemma NewHoldChargesDepositIff(a: Account, m: Merchant)
    requires PT.Fresh(a) && AwaitsDeposit(a)
    ensures ChargeResult(a, Deposit, m).Ok? <==> BeforeExpiry(a) && a.booking.depositAmount > 0 && Ready(m)
    ensures ChargeResult(a, Deposit, m).Ok? ==> ChargeResult(a, Deposit, m).value == a.booking.depositAmount
  {
  }

  /** A stylist's confirmation leaves the booking confirmed and paid exactly for a confirmed booking and a hold that lasts. */
  lemma StylistConfirmsIff(a: Account)
    ensures
      ConfirmedPaid(PT.Apply(a, PT.StylistConfirm))
      <==> a.booking.status == Confirmed || (a.booking.status == Held && BeforeExpiry(a))
  {
  }

  /**
   * Whichever call confirms a booking (webhook, sync, stylist, or the repair of a confirmed one), the rest of the price
   * can be charged afterwards exactly if there is a rest, the stylist takes it online and everyone is ready.
   */
  lemma ConfirmationOpensBalanceIff(a: Account, e: PT.Event, m: Merchant)
    requires !ConfirmedPaid(a) && ConfirmedPaid(PT.Apply(a, e)) && Balance !in a.payments
    ensures
      var z := PT.Apply(a, e);
      && (ChargeResult(z, Balance, m).Ok? <==>
            a.booking.agreedPrice > a.booking.depositAmount && a.booking.balanceOnline && Ready(m))
      && (ChargeResult(z, Balance, m).Ok? ==> ChargeResult(z, Balance, m).value == a.booking.agreedPrice - a.booking.depositAmount)
  {
  }

  /** The booking is in a state that admits this charge. */
  predicate Admits(a: Account, kind: Kind) {
    match kind
    case Deposit => AwaitsDeposit(a) && BeforeExpiry(a)
    case Balance =>
      && (a.booking.status == Confirmed || a.booking.status == Completed)
      && a.booking.depositStatus == DepositPaid && a.booking.balanceStatus == Due
  }

  /** A refusal says why: the booking's state first, then what cannot be charged, then who is not ready. */
  lemma RefusalsSayWhy(a: Account, kind: Kind, m: Merchant)
    ensures
      var r := ChargeResult(a, kind, m);
      && (!Admits(a, kind) ==> r == Err(Conflict))
      && (r == Err(NotFound) ==> !m.hasBusiness)
      && (r == Err(Validation) ==>
            || (kind == Balance && (!a.booking.balanceOnline || a.booking.agreedPrice <= a.booking.depositAmount))
            || (kind == Deposit && a.booking.depositAmount == 0) || !m.hasClient)
      && (r == Err(Conflict) && Admits(a, kind) ==>
            !m.paymentReady || !m.chargesEnabled || (kind in a.payments && a.payments[kind].status != Pending))
  {
  }

  /** Charging again returns the charge that is pending, and changes nothing. */
  lemma ChargingAgainIsTheSame(a: Account, kind: Kind, m: Merchant)
    requires ChargeResult(a, kind, m).Ok?
    ensures
      var z := AfterCharge(a, kind, m);
      && kind in z.payments && z.payments[kind].amount == ChargeResult(a, kind, m).value && z.payments[kind].status == Pending
      && ChargeResult(z, kind, m) == ChargeResult(a, kind, m) && AfterCharge(z, kind, m) == z
  {
  }

  // ---------- Ending a charge ----------

  /** The refund finds something it may pay back or forfeit. */
  predicate RefundActs(a: Account, refund: RefundType) {
    match refund
    case Partial(pence) => HasCaptured(a, Deposit) && 0 < pence <= a.payments[Deposit].amount
    case _ => HasCaptured(a, Deposit) || HasCaptured(a, Balance)
  }

  /** A payment of the kind that is under way and that this call settles, one way or the other. */
  predicate Settles(a: Account, e: PT.Event, kind: Kind) {
    match e
    case Capture(k) => k == kind && kind in a.payments
    case Sync(k, succeeded) => k == kind && kind in a.payments && succeeded
    case MarkFailed(k) => k == kind && kind in a.payments
    case _ => false
  }

  /** With the rest of the price chargeable, exactly which calls end that; completing the appointment is not one. */
  lemma BalanceChargeEndsIff(a: Account, e: PT.Event, m: Merchant)
    requires ChargeResult(a, Balance, m).Ok?
    ensures
      ChargeResult(PT.Apply(a, e), Balance, m).Err? <==>
        || e == PT.PayInPerson || (e in {PT.Cancel, PT.MarkNoShow} && a.booking.status == Confirmed)
        || (e.Refund? && RefundActs(a, e.refund)) || Settles(a, e, Balance)
  {
  }

  /** With the deposit chargeable, exactly which calls end that: time, cancellation, confirmation, and payment. */
  lemma DepositChargeEndsIff(a: Account, e: PT.Event, m: Merchant)
    requires ChargeResult(a, Deposit, m).Ok?
    ensures
      ChargeResult(PT.Apply(a, e), Deposit, m).Err? <==>
        || e in {PT.Cancel, PT.StylistConfirm}
        || (e.Tick? && a.clock <= e.to && a.booking.holdExpiresAt.Some? && a.booking.holdExpiresAt.value <= e.to)
        || (e.Refund? && RefundActs(a, e.refund)) || Settles(a, e, Deposit)
  {
  }

  // ---------- A booking paid in full ----------

  /** Charging and capturing the rest of the price of a confirmed booking: it is paid, and nothing more can be charged. */
  lemma BalanceIsPaid(a: Account, m: Merchant)
    requires ConfirmedPaid(a) && ChargeResult(a, Balance, m).Ok? && Balance !in a.payments
    ensures
      var z := PT.Apply(PT.Apply(a, PT.Charge(Balance, m)), PT.Capture(Balance));
      && ConfirmedPaid(z) && z.booking.balanceStatus == PaidOnline && z.collected == a.collected + {Balance}
      && z.payments == a.payments[Balance := Payment(ChargeAmount(a.booking, Balance), Captured, None)] && z.requests == a.requests
  {
  }

  lemma PaidInFullIsNotCharged(a: Account)
    requires ConfirmedPaid(a) && a.booking.balanceStatus == PaidOnline
    ensures forall kind, m :: ChargeResult(a, kind, m).Err?
  {
  }

  /** From a new hold: charge and pay the deposit, then the rest. Together they are the price, and no more can be charged. */
  lemma DepositAndBalanceMakeThePrice(a: Account, m: Merchant)
    requires PT.Fresh(a) && AwaitsDeposit(a) && BeforeExpiry(a) && Ready(m)
    requires a.booking.balanceOnline && 0 < a.booking.depositAmount < a.booking.agreedPrice
    ensures
      var z := PT.Run(a, [PT.Charge(Deposit, m), PT.Capture(Deposit), PT.Charge(Balance, m), PT.Capture(Balance)]);
      && ConfirmedPaid(z) && z.booking.balanceStatus == PaidOnline && z.collected == {Deposit, Balance} && z.requests == []
      && PT.Taken(z, Deposit) + PT.Taken(z, Balance) == a.booking.agreedPrice
      && forall kind, other :: ChargeResult(z, kind, other).Err?
  {
    var confirmed := DepositPaidFor(a);
    FourSteps(PT.Run, PT.Apply, a, PT.Charge(Deposit, m), PT.Capture(Deposit), PT.Charge(Balance, m), PT.Capture(Balance));
    DepositIsPaid(a, m);
    BalanceIsPaid(confirmed, m);
    PaidInFullIsNotCharged(PT.Apply(PT.Apply(confirmed, PT.Charge(Balance, m)), PT.Capture(Balance)));
  }

  function DepositPaidFor(a: Account): Account {
    a.(payments := map[Deposit := Payment(a.booking.depositAmount, Captured, None)], collected := {Deposit},
       booking := a.booking.(status := Confirmed, depositStatus := DepositPaid, holdExpiresAt := None, balanceStatus := Due))
  }

  lemma DepositIsPaid(a: Account, m: Merchant)
    requires PT.Fresh(a) && AwaitsDeposit(a) && BeforeExpiry(a) && Ready(m)
    requires a.booking.balanceOnline && 0 < a.booking.depositAmount < a.booking.agreedPrice
    ensures PT.Apply(PT.Apply(a, PT.Charge(Deposit, m)), PT.Capture(Deposit)) == DepositPaidFor(a)
    ensures ChargeResult(DepositPaidFor(a), Balance, m).Ok?
  {
    var charged := PT.Apply(a, PT.Charge(Deposit, m));
    assert charged.payments == map[Deposit := Payment(a.booking.depositAmount, Pending, None)];
    var confirmed := PT.Apply(charged, PT.Capture(Deposit));
    assert confirmed.payments == map[Deposit := Payment(a.booking.depositAmount, Captured, None)] && confirmed.collected == {Deposit};
  }

  // ---------- What calls report ----------

  /** A capture or a sync says yes exactly if the booking is then confirmed, or, for a balance synced, the balance paid. */
  lemma ReportsWhatHappened(a: Account, kind: Kind, succeeded: bool)
    ensures
      CaptureResult(a, kind) == Ok(true)
      <==> kind == Deposit && kind in a.payments && AfterCapture(a, kind).booking.status == Confirmed
    ensures CaptureResult(a, kind) == Err(NotFound) <==> kind !in a.payments
    ensures CaptureResult(a, kind) == Err(Conflict) <==> kind == Deposit && kind in a.payments && PT.BookingEnded(a)
    ensures CaptureResult(a, kind) != Err(Validation)
    ensures
      SyncResult(a, kind, succeeded) == Ok(true) <==>
        && kind in a.payments && (a.payments[kind].status == Captured || (a.payments[kind].status == Pending && succeeded))
        && if kind == Deposit then AfterSync(a, kind, succeeded).booking.status == Confirmed
           else HasCaptured(AfterSync(a, kind, succeeded), Balance)
  {
  }

  /**
   * A refund reports the deposit as it is then written. Without a captured deposit only a full refund reports anything:
   * the balance, as it was before. It errs exactly for a part of the deposit that is none.
   */
  lemma RefundReports(a: Account, refund: RefundType)
    ensures RefundResult(a, refund) == Err(Validation) <==> refund.Partial? && HasCaptured(a, Deposit) && !RefundActs(a, refund)
    ensures AfterRefund(a, refund) != a <==> RefundActs(a, refund)
    ensures HasCaptured(a, Deposit) && RefundActs(a, refund) ==>
      RefundResult(a, refund) == Ok(Some(AfterRefund(a, refund).payments[Deposit]))
    ensures !HasCaptured(a, Deposit) ==>
      RefundResult(a, refund) == Ok(if refund == Full && HasCaptured(a, Balance) then Some(a.payments[Balance]) else None)
  {
    if HasCaptured(a, Deposit) && RefundActs(a, refund) {
      assert AfterRefund(a, refund).payments[Deposit].status != Captured;
    } else if RefundActs(a, refund) {
      assert AfterRefund(a, refund).payments[Balance].status != Captured;
    }
  }

  /** What a refund that acts shows in the booking: its deposit's fate, and a balance no longer due if one is paid back. */
  lemma RefundShowsInBooking(a: Account, refund: RefundType)
    requires RefundActs(a, refund)
    ensures
      var b := AfterRefund(a, refund).booking;
      && b.depositStatus == (if refund == Forfeit then DepositForfeited else DepositRefunded)
      && b.balanceStatus == (if HasCaptured(a, Balance) && !refund.Partial? then NotDue else a.booking.balanceStatus)
      && b == a.booking.(depositStatus := b.depositStatus, balanceStatus := b.balanceStatus)
    ensures forall kind, m :: ChargeResult(AfterRefund(a, refund), kind, m).Err?
  {
  }
}
