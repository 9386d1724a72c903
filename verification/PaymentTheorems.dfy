/** What each whole call of the payment service keeps, and what runs of whole calls keep. */
module PaymentTheorems {
  import opened Common
  import opened Runs
  import opened Payments

  /** Everything that can happen to one booking and its payments, each as one completed call. */
  datatype Event =
    | Tick(to: int)
    | Charge(kind: Kind, merchant: Merchant)
    | Capture(kind: Kind)
    | Sync(kind: Kind, succeeded: bool)
    | MarkFailed(kind: Kind)
    | Refund(refund: RefundType)
    | StylistConfirm
    | Cancel
    | Complete
    | MarkNoShow
    | PayInPerson

  function MoveBooking(a: Account, from: set<BookingStatus>, to: BookingStatus): Account {
    if a.booking.status in from then a.(booking := a.booking.(status := to, holdExpiresAt := None)) else a
  }

  function PaidInPersonIfDue(a: Account): Account {
    if a.booking.status !in {Confirmed, Completed} || a.booking.depositStatus != DepositPaid then a
    else if a.booking.balanceStatus in {PaidOnline, PaidInPerson} then a
    else a.(booking := a.booking.(balanceStatus := if BalanceAmount(a.booking) > 0 then PaidInPerson else NotDue))
  }

  function Apply(a: Account, e: Event): Account {
    match e
    case Tick(to) => if a.clock <= to then a.(clock := to) else a
    case Charge(kind, m) => AfterCharge(a, kind, m)
    case Capture(kind) => AfterCapture(a, kind)
    case Sync(kind, succeeded) => AfterSync(a, kind, succeeded)
    case MarkFailed(kind) => AfterFailed(a, kind)
    case Refund(refund) => AfterRefund(a, refund)
    case StylistConfirm => AfterConfirm(a)
    case Cancel => MoveBooking(a, {Held, Confirmed}, Cancelled)
    case Complete => MoveBooking(a, {Confirmed}, Completed)
    case MarkNoShow => MoveBooking(a, {Confirmed}, NoShow)
    case PayInPerson => PaidInPersonIfDue(a)
  }

  function Run(a: Account, events: seq<Event>): Account
    decreases |events|
  {
    if events == [] then a else Run(Apply(a, events[0]), events[1..])
  }

  // ---------- Two accounts of the same money ----------

  /** What the provider was asked to pay back for one charge. */
  function Requested(requests: seq<RefundRequest>, kind: Kind): nat {
    if requests == [] then 0
    else Requested(requests[..|requests| - 1], kind)
         + if requests[|requests| - 1].kind == kind then requests[|requests| - 1].pence else 0
  }

  /** One payment row tells the truth about the provider. */
  predicate RowReconciled(a: Account, kind: Kind) {
    var back := Requested(a.requests, kind);
    if kind !in a.payments then kind !in a.collected && back == 0
    else
      var p := a.payments[kind];
      && p.amount > 0
      && (kind in a.collected <==> p.status in {Captured, Refunded, Forfeited})
      && (p.status == Refunded ==> p.refundedAmount == Some(back) && 0 < back <= p.amount)
      && (p.status != Refunded ==> back == 0)
  }

  predicate Reconciled(a: Account) {
    RowReconciled(a, Deposit) && RowReconciled(a, Balance)
  }

  function Taken(a: Account, kind: Kind): nat {
    if kind in a.collected && kind in a.payments then a.payments[kind].amount else 0
  }

  /** What the payment rows say the stylist keeps. */
  function Kept(a: Account, kind: Kind): int {
    if kind !in a.payments then 0
    else match a.payments[kind].status
      case Captured => a.payments[kind].amount
      case Forfeited => a.payments[kind].amount
      case Refunded =>
        var back := a.payments[kind].refundedAmount;
        if back.Some? then a.payments[kind].amount - back.value else 0
      case _ => 0
  }

  /** An account as a booking starts out: a hold, nothing charged. */
  predicate Fresh(a: Account) {
    a.payments == map[] && a.collected == {} && a.requests == []
  }

  /** The one dangerous call: a webhook capture of a payment that was already paid back. */
  predicate Recaptures(a: Account, e: Event) {
    e.Capture? && e.kind in a.payments && a.payments[e.kind].status == Refunded
  }

  lemma RequestedOfOne(requests: seq<RefundRequest>, r: RefundRequest, kind: Kind)
    ensures Requested(requests + [r], kind) == Requested(requests, kind) + if r.kind == kind then r.pence else 0
  {
    assert (requests + [r])[..|requests|] == requests;
  }

  function OneRequest(a: Account, kind: Kind): seq<RefundRequest> {
    if HasCaptured(a, kind) then [RefundRequest(kind, a.payments[kind].amount)] else []
  }

  lemma FullRequestsUnfold(a: Account)
    ensures FullRequests(a, [Balance]) == OneRequest(a, Balance)
    ensures FullRequests(a, [Deposit, Balance]) == OneRequest(a, Deposit) + OneRequest(a, Balance)
  {
    assert [Balance][1..] == [] && [Deposit, Balance][1..] == [Balance];
    assert FullRequests(a, [Balance]) == OneRequest(a, Balance) + [];
  }

  lemma RequestedOfFull(a: Account, kind: Kind)
    ensures Requested(a.requests + FullRequests(a, [Balance]), kind)
         == Requested(a.requests, kind) + if kind == Balance && HasCaptured(a, kind) then a.payments[kind].amount else 0
    ensures Requested(a.requests + FullRequests(a, [Deposit, Balance]), kind)
         == Requested(a.requests, kind) + if HasCaptured(a, kind) then a.payments[kind].amount else 0
  {
    FullRequestsUnfold(a);
    var d, b := OneRequest(a, Deposit), OneRequest(a, Balance);
    if HasCaptured(a, Balance) {
      RequestedOfOne(a.requests, b[0], kind);
      RequestedOfOne(a.requests + d, b[0], kind);
    } else {
      assert a.requests + [] == a.requests && a.requests + d + [] == a.requests + d;
    }
    if HasCaptured(a, Deposit) {
      RequestedOfOne(a.requests, d[0], kind);
    } else {
      assert a.requests + [] == a.requests;
    }
    assert a.requests + (d + b) == a.requests + d + b;
  }

  lemma FullReconciles(a: Account)
    requires Reconciled(a)
    ensures Reconciled(AfterFull(a))
  {
    RequestedOfFull(a, Deposit);
    RequestedOfFull(a, Balance);
  }

  lemma ForfeitReconciles(a: Account)
    requires Reconciled(a)
    ensures Reconciled(AfterForfeit(a))
  {
    RequestedOfFull(a, Deposit);
    RequestedOfFull(a, Balance);
  }

  lemma PartialReconciles(a: Account, pence: int)
    requires Reconciled(a)
    ensures Reconciled(AfterPartial(a, pence))
  {
    if PartialAllowed(a, pence) {
      RequestedOfOne(a.requests, RefundRequest(Deposit, pence), Deposit);
      RequestedOfOne(a.requests, RefundRequest(Deposit, pence), Balance);
    }
  }

  lemma WithCapturedReconciles(a: Account, kind: Kind)
    requires Reconciled(a) && kind in a.payments && !HasCaptured(a, kind)
    ensures Reconciled(WithCaptured(a, kind)) <==> a.payments[kind].status != Refunded
    ensures a.payments[kind].status == Refunded ==> Requested(WithCaptured(a, kind).requests, kind) > 0
  {
  }

  lemma BookingIsImmaterial(a: Account, booking: Booking)
    ensures Reconciled(a.(booking := booking)) <==> Reconciled(a)
  {
  }

  /** Paying back in full what was already partly paid back cannot be recorded truthfully. */
  lemma FullStaysUnreconciled(c: Account)
    requires HasCaptured(c, Deposit) && Requested(c.requests, Deposit) > 0
    ensures !RowReconciled(AfterFull(c), Deposit)
  {
    RequestedOfFull(c, Deposit);
  }

  lemma CaptureReconciles(a: Account, kind: Kind)
    requires Reconciled(a)
    ensures Reconciled(AfterCapture(a, kind)) <==> !Recaptures(a, Capture(kind))
  {
    if kind in a.payments {
      if !HasCaptured(a, kind) { WithCapturedReconciles(a, kind); }
      match kind {
        case Balance =>
          if !HasCaptured(a, kind) {
            BookingIsImmaterial(WithCaptured(a, Balance), a.booking.(balanceStatus := PaidOnline));
          }
        case Deposit =>
          DepositCaptureReconciles(a);
      }
    }
  }

  lemma DepositCaptureReconciles(a: Account)
    requires Reconciled(a) && Deposit in a.payments
    ensures Reconciled(AfterCapture(a, Deposit)) <==> a.payments[Deposit].status != Refunded
  {
    var c := if HasCaptured(a, Deposit) then a else WithCaptured(a, Deposit);
    if !HasCaptured(a, Deposit) { WithCapturedReconciles(a, Deposit); }
    if ConfirmOutcome(c) == HoldExpired {
      if a.payments[Deposit].status == Refunded {
        FullStaysUnreconciled(c);
      } else {
        FullReconciles(c);
      }
    } else {
      BookingIsImmaterial(c, AfterConfirm(c).booking);
      assert AfterConfirm(c) == c.(booking := AfterConfirm(c).booking);
    }
  }

  /** Exactly when one call keeps the payment rows true: unless it is a webhook capture of a refunded payment. */
  lemma StepReconcilesIff(a: Account, e: Event)
    requires Reconciled(a)
    ensures Reconciled(Apply(a, e)) <==> !Recaptures(a, e)
  {
    match e {
      case Capture(kind) => CaptureReconciles(a, kind);
      case Sync(kind, _) => CaptureReconciles(a, kind);
      case Refund(Full) => FullReconciles(a);
      case Refund(Forfeit) => ForfeitReconciles(a);
      case Refund(Partial(pence)) => PartialReconciles(a, pence);
      case Charge(_, _) =>
      case MarkFailed(_) =>
      case _ => BookingIsImmaterial(a, Apply(a, e).booking);
    }
  }

  lemma FullRefundOfDeposit(a: Account)
    requires HasCaptured(a, Deposit)
    ensures var z := AfterFull(a);
            && Deposit in z.payments && z.payments[Deposit] == RefundedInFull(a.payments[Deposit])
            && Requested(z.requests, Deposit) == Requested(a.requests, Deposit) + a.payments[Deposit].amount
            && z.booking.status == a.booking.status && z.booking.depositStatus == DepositRefunded && z.collected == a.collected
  {
    RequestedOfFull(a, Deposit);
  }

  /** A capture whose hold has lapsed pays the deposit back, whatever was asked for it before. */
  lemma ExpiredCapturePaysBack(a: Account)
    requires Deposit in a.payments && a.booking.status == Held && HoldLapsed(a)
    requires a.payments[Deposit].status in {Pending, Refunded}
    ensures
      var z := AfterCapture(a, Deposit);
      && Deposit in z.payments && z.payments[Deposit] == RefundedInFull(a.payments[Deposit])
      && Requested(z.requests, Deposit) == Requested(a.requests, Deposit) + a.payments[Deposit].amount
      && z.collected == a.collected + {Deposit}
      && z.booking.status == Held && z.booking.holdExpiresAt == a.booking.holdExpiresAt && z.clock == a.clock
  {
    FullRefundOfDeposit(WithCaptured(a, Deposit));
  }

  /**
   * A deposit paid just as its hold runs out: the client's own sync captures it, finds the hold expired and pays it
   * back; the success webhook for the same payment then captures it again and pays it back again.
   */
  lemma SyncThenWebhookRefundsTwice(a: Account, m: Merchant)
    requires Fresh(a) && ChargeResult(a, Deposit, m).Ok? && a.booking.holdExpiresAt.Some?
    ensures
      var h := a.booking.holdExpiresAt.value;
      var z := Run(a, [Charge(Deposit, m), Tick(h), Sync(Deposit, true), Capture(Deposit)]);
      Taken(z, Deposit) == a.booking.depositAmount && Requested(z.requests, Deposit) == 2 * a.booking.depositAmount
  {
    var h := a.booking.holdExpiresAt.value;
    var charged := AfterCharge(a, Deposit, m);
    assert charged.payments == map[Deposit := Payment(a.booking.depositAmount, Pending, None)];
    var lapsed := charged.(clock := h);
    FourSteps(Run, Apply, a, Charge(Deposit, m), Tick(h), Sync(Deposit, true), Capture(Deposit));
    assert Apply(Apply(a, Charge(Deposit, m)), Tick(h)) == lapsed;
    assert Apply(lapsed, Sync(Deposit, true)) == AfterCapture(lapsed, Deposit);
    ExpiredCapturePaysBack(lapsed);
    ExpiredCapturePaysBack(AfterCapture(lapsed, Deposit));
  }

  // ---------- Settled refunds ----------

  predicate SettlesAll(refund: RefundType) {
    refund == Full || refund == Forfeit
  }

  predicate NothingCaptured(a: Account) {
    !HasCaptured(a, Deposit) && !HasCaptured(a, Balance)
  }

  lemma SettlingLeavesNothingCaptured(a: Account, refund: RefundType)
    requires SettlesAll(refund)
    ensures NothingCaptured(AfterRefund(a, refund))
  {
  }

  /** With nothing captured, only a capture can lead to a further request. */
  lemma {:induction false} NothingMoreIsAsked(a: Account, events: seq<Event>)
    requires NothingCaptured(a) && forall e :: e in events ==> !e.Capture? && !e.Sync?
    ensures Run(a, events).requests == a.requests && NothingCaptured(Run(a, events))
    decreases |events|
  {
    if events == [] {
    } else {
      assert events[0] in events;
      NothingMoreIsAsked(Apply(a, events[0]), events[1..]);
    }
  }

  /** After a full refund or a forfeit, no run of refunds of any type, or of anything but captures, asks for more. */
  lemma SettledRefundsAskNothingMore(a: Account, first: RefundType, events: seq<Event>)
    requires SettlesAll(first) && forall e :: e in events ==> !e.Capture? && !e.Sync?
    ensures Run(AfterRefund(a, first), events).requests == AfterRefund(a, first).requests
  {
    SettlingLeavesNothingCaptured(a, first);
    NothingMoreIsAsked(AfterRefund(a, first), events);
  }

  predicate DepositForfeit(a: Account) {
    Deposit in a.payments && a.payments[Deposit].status == Forfeited
  }

  /** A forfeited deposit stays forfeited through every call but one: a webhook capture of it. */
  lemma ForfeitIsKeptIff(a: Account, e: Event)
    requires DepositForfeit(a)
    ensures DepositForfeit(Apply(a, e)) <==> e != Capture(Deposit)
    ensures e != Capture(Deposit) ==> Requested(Apply(a, e).requests, Deposit) == Requested(a.requests, Deposit)
  {
    match e {
      case Refund(Full) => RequestedOfFull(a, Deposit);
      case Refund(Forfeit) => RequestedOfFull(a, Deposit);
      case Capture(_) =>
      case Sync(_, _) =>
      case _ =>
    }
  }

  lemma {:induction false} ForfeitedDepositIsNeverRefunded(a: Account, events: seq<Event>)
    requires DepositForfeit(a) && Capture(Deposit) !in events
    ensures var z := Run(a, events);
            DepositForfeit(z) && Requested(z.requests, Deposit) == Requested(a.requests, Deposit)
    decreases |events|
  {
    if events == [] {
    } else {
      assert events[0] in events;
      ForfeitIsKeptIff(a, events[0]);
      ForfeitedDepositIsNeverRefunded(Apply(a, events[0]), events[1..]);
    }
  }

  // ---------- Capture and confirmation together ----------

  /** Booking confirmed, deposit paid, nothing paid back. */
  predicate ConfirmedAndPaid(a: Account) {
    && a.booking.status == Confirmed && a.booking.depositStatus == DepositPaid
    && HasCaptured(a, Deposit) && Requested(a.requests, Deposit) == 0
  }

  /** Booking not confirmed, and the captured deposit paid back in full. */
  predicate RefusedAndRepaid(a: Account) {
    && a.booking.status != Confirmed && a.booking.depositStatus == DepositRefunded
    && Deposit in a.collected && Deposit in a.payments && a.payments[Deposit].status == Refunded
    && Requested(a.requests, Deposit) == a.payments[Deposit].amount
  }

  predicate BookingEnded(a: Account) {
    a.booking.status in {Completed, Cancelled, NoShow}
  }

  /**
   * An uninterrupted deposit capture ends in exactly one of the two joint states, as it reports; or it fails, exactly
   * when the booking has ended, and then the deposit is kept, the booking untouched and nothing paid back.
   */
  lemma CaptureEndsInOneJointState(a: Account)
    requires Reconciled(a) && Deposit in a.payments && a.payments[Deposit].status in {Pending, Failed, Captured}
    ensures CaptureResult(a, Deposit).Err? <==> BookingEnded(a)
    ensures
      var z := AfterCapture(a, Deposit);
      match CaptureResult(a, Deposit)
      case Ok(confirmed) => ConfirmedAndPaid(z) == confirmed && RefusedAndRepaid(z) == !confirmed
      case Err(_) => z.booking == a.booking && HasCaptured(z, Deposit) && Kept(z, Deposit) == z.payments[Deposit].amount
  {
    var c := if HasCaptured(a, Deposit) then a else WithCaptured(a, Deposit);
    FullRefundOfDeposit(c);
  }

  predicate Confirms(e: Event) {
    e == Capture(Deposit) || (e.Sync? && e.kind == Deposit) || e == StylistConfirm
  }

  /** While the booking is confirmed and paid, no run of repeated webhooks, syncs and confirmations changes anything. */
  lemma {:induction false} RepeatedCapturesChangeNothing(a: Account, events: seq<Event>)
    requires ConfirmedAndPaid(a) && forall e :: e in events ==> Confirms(e)
    ensures Run(a, events) == a
    decreases |events|
  {
    if events == [] {
    } else {
      assert Confirms(events[0]);
      assert Apply(a, events[0]) == a;
      RepeatedCapturesChangeNothing(a, events[1..]);
    }
  }

  /** The sync path never recaptures: it refuses every payment that is failed, refunded or forfeited. */
  lemma SyncRefusesSettledPayments(a: Account, kind: Kind, succeeded: bool)
    requires kind in a.payments && a.payments[kind].status in {Failed, Refunded, Forfeited}
    ensures SyncResult(a, kind, succeeded) == Err(Conflict) && AfterSync(a, kind, succeeded) == a
  {
  }

  // ---------- What the client is charged ----------

  /** Payment rows carry the amounts derived from the booking's own, unchanging price and deposit. */
  predicate ChargedAsAgreed(a: Account) {
    forall kind :: kind in a.payments ==> a.payments[kind].amount == ChargeAmount(a.booking, kind)
  }

  lemma StepKeepsTerms(a: Account, e: Event)
    ensures Apply(a, e).booking.agreedPrice == a.booking.agreedPrice && Apply(a, e).booking.depositAmount == a.booking.depositAmount
  {
  }

  lemma StepKeepsAmount(a: Account, e: Event, kind: Kind)
    ensures kind in Apply(a, e).payments ==>
              Apply(a, e).payments[kind].amount == if kind in a.payments then a.payments[kind].amount else ChargeAmount(a.booking, kind)
  {
  }

  lemma StepChargesAsAgreed(a: Account, e: Event)
    requires ChargedAsAgreed(a)
    ensures ChargedAsAgreed(Apply(a, e))
  {
    StepKeepsTerms(a, e);
    forall kind | kind in Apply(a, e).payments ensures Apply(a, e).payments[kind].amount == ChargeAmount(Apply(a, e).booking, kind) {
      StepKeepsAmount(a, e, kind);
    }
  }

  lemma {:induction false} RunChargesAsAgreed(a: Account, events: seq<Event>)
    requires ChargedAsAgreed(a)
    ensures ChargedAsAgreed(Run(a, events))
    ensures Run(a, events).booking.agreedPrice == a.booking.agreedPrice
    ensures Run(a, events).booking.depositAmount == a.booking.depositAmount
    decreases |events|
  {
    if events == [] {
    } else {
      StepKeepsTerms(a, events[0]);
      StepChargesAsAgreed(a, events[0]);
      RunChargesAsAgreed(Apply(a, events[0]), events[1..]);
    }
  }

  /** In every run, deposit and balance collected online never exceed the agreed price, and both together equal it. */
  lemma CollectedNeverExceedsAgreedPrice(a: Account, events: seq<Event>)
    requires Fresh(a) && a.booking.depositAmount <= a.booking.agreedPrice
    ensures var z := Run(a, events);
            && Taken(z, Deposit) + Taken(z, Balance) <= a.booking.agreedPrice
            && (Deposit in z.collected && Balance in z.collected && Deposit in z.payments && Balance in z.payments ==>
                  Taken(z, Deposit) + Taken(z, Balance) == a.booking.agreedPrice)
  {
    RunChargesAsAgreed(a, events);
  }
}
