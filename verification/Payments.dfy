/**
 * Deposit and balance payments of one booking: charging, capture by webhook or by client sync, refunds and
 * forfeiture, over the booking row they change. Money is in pence. The provider is modelled by what it has
 * collected and by every refund it has been asked to make.
 */
module Payments {
  import opened Common

  datatype Kind = Deposit | Balance

  datatype PaymentStatus = Pending | Captured | Refunded | Forfeited | Failed

  datatype Payment = Payment(amount: nat, status: PaymentStatus, refundedAmount: Option<nat>)

  datatype BalanceStatus = NotDue | Due | PaidOnline | PaidInPerson

  datatype Booking = Booking(
    status: BookingStatus,
    holdExpiresAt: Option<int>,
    depositStatus: DepositStatus,
    balanceStatus: BalanceStatus,
    agreedPrice: nat,
    depositAmount: nat,
    balanceOnline: bool)       // the agreed balance method admits an online card

  datatype RefundRequest = RefundRequest(kind: Kind, pence: nat)

  datatype RefundType = Full | Forfeit | Partial(pence: int)

  datatype Error = NotFound | Conflict | Validation

  /** What a charge finds out about the stylist's business and the client. */
  datatype Merchant = Merchant(hasBusiness: bool, paymentReady: bool, chargesEnabled: bool, hasClient: bool)

  datatype Outcome = NowConfirmed | HoldExpired | CannotConfirm

  datatype Account = Account(
    clock: int,
    booking: Booking,
    payments: map<Kind, Payment>,
    collected: set<Kind>,               // charges the provider has taken from the client
    requests: seq<RefundRequest>)       // refunds the provider has been asked for, in order

  // ---------- What each operation does, as a function on the account ----------

  function BalanceAmount(b: Booking): nat {
    if b.agreedPrice >= b.depositAmount then b.agreedPrice - b.depositAmount else 0
  }

  predicate HoldLapsed(a: Account) {
    a.booking.holdExpiresAt.Some? && a.booking.holdExpiresAt.value <= a.clock
  }

  predicate HasCaptured(a: Account, kind: Kind) {
    kind in a.payments && a.payments[kind].status == Captured
  }

  function MarkedPaid(b: Booking): Booking {
    b.(depositStatus := DepositPaid, holdExpiresAt := None, balanceStatus := if BalanceAmount(b) > 0 then Due else NotDue)
  }

  function ConfirmOutcome(a: Account): Outcome {
    if a.booking.status == Confirmed then NowConfirmed
    else if a.booking.status != Held then CannotConfirm
    else if HoldLapsed(a) then HoldExpired
    else NowConfirmed
  }

  function AfterConfirm(a: Account): Account {
    if ConfirmOutcome(a) != NowConfirmed then a
    else if a.booking.status == Confirmed && a.booking.depositStatus == DepositPaid then a
    else a.(booking := MarkedPaid(a.booking).(status := Confirmed))
  }

  function RefundedInFull(p: Payment): Payment {
    p.(status := Refunded, refundedAmount := Some(p.amount))
  }

  /** The full-amount refund requests for the captured payments among some kinds, in order. */
  function FullRequests(a: Account, kinds: seq<Kind>): seq<RefundRequest> {
    if kinds == [] then []
    else (if HasCaptured(a, kinds[0]) then [RefundRequest(kinds[0], a.payments[kinds[0]].amount)] else []) + FullRequests(a, kinds[1..])
  }

  function AfterFull(a: Account): Account {
    if !HasCaptured(a, Deposit) && !HasCaptured(a, Balance) then a
    else
      a.(payments := map k | k in a.payments ::
           if a.payments[k].status == Captured then RefundedInFull(a.payments[k]) else a.payments[k],
         requests := a.requests + FullRequests(a, [Deposit, Balance]),
         booking := a.booking.(
           depositStatus := DepositRefunded,
           balanceStatus := if HasCaptured(a, Balance) then NotDue else a.booking.balanceStatus))
  }

  function AfterForfeit(a: Account): Account {
    if !HasCaptured(a, Deposit) && !HasCaptured(a, Balance) then a
    else
      a.(payments := map k | k in a.payments ::
           if a.payments[k].status != Captured then a.payments[k]
           else if k == Deposit then a.payments[k].(status := Forfeited)
           else RefundedInFull(a.payments[k]),
         requests := a.requests + FullRequests(a, [Balance]),
         booking := a.booking.(
           depositStatus := DepositForfeited,
           balanceStatus := if HasCaptured(a, Balance) then NotDue else a.booking.balanceStatus))
  }

  predicate PartialAllowed(a: Account, pence: int) {
    HasCaptured(a, Deposit) && 0 < pence <= a.payments[Deposit].amount
  }

  function AfterPartial(a: Account, pence: int): Account {
    if !PartialAllowed(a, pence) then a
    else
      a.(payments := a.payments[Deposit := a.payments[Deposit].(status := Refunded, refundedAmount := Some(pence))],
         requests := a.requests + [RefundRequest(Deposit, pence)],
         booking := a.booking.(depositStatus := DepositRefunded))
  }

  function AfterRefund(a: Account, refund: RefundType): Account {
    match refund
    case Full => AfterFull(a)
    case Forfeit => AfterForfeit(a)
    case Partial(pence) => AfterPartial(a, pence)
  }

  /** The payment a refund reports: the deposit as written, nothing when there was nothing to refund. */
  function RefundResult(a: Account, refund: RefundType): Result<Option<Payment>, Error> {
    if !HasCaptured(a, Deposit) && !HasCaptured(a, Balance) then Ok(None)
    else match refund
      case Full =>
        Ok(Some(if HasCaptured(a, Deposit) then RefundedInFull(a.payments[Deposit]) else a.payments[Balance]))
      case Forfeit =>
        if HasCaptured(a, Deposit) then Ok(Some(a.payments[Deposit].(status := Forfeited))) else Ok(None)
      case Partial(pence) =>
        if !HasCaptured(a, Deposit) then Ok(None)
        else if !PartialAllowed(a, pence) then Err(Validation)
        else Ok(Some(a.payments[Deposit].(status := Refunded, refundedAmount := Some(pence))))
  }

  function WithCaptured(a: Account, kind: Kind): Account
    requires kind in a.payments
  {
    a.(payments := a.payments[kind := a.payments[kind].(status := Captured)], collected := a.collected + {kind})
  }

  /** Capture on a succeeded intent. The write to captured is unguarded: any other status is overwritten. */
  function AfterCapture(a: Account, kind: Kind): Account {
    if kind !in a.payments then a
    else match kind
    case Balance =>
      if HasCaptured(a, Balance) then a else WithCaptured(a, Balance).(booking := a.booking.(balanceStatus := PaidOnline))
    case Deposit =>
      var c := if HasCaptured(a, Deposit) then a else WithCaptured(a, Deposit);
      if ConfirmOutcome(c) == HoldExpired then AfterFull(c) else AfterConfirm(c)
  }

  /** Normal return of a capture: whether the booking is reported confirmed. */
  function CaptureResult(a: Account, kind: Kind): Result<bool, Error> {
    if kind !in a.payments then Err(NotFound)
    else if kind == Balance then Ok(false)
    else match ConfirmOutcome(a)
      case NowConfirmed => Ok(true)
      case HoldExpired => Ok(false)
      case CannotConfirm => Err(Conflict)
  }

  /** The client-side sync checks the payment's status before it captures; of a balance it reports that it is paid. */
  function SyncResult(a: Account, kind: Kind, succeeded: bool): Result<bool, Error> {
    if kind !in a.payments then Err(NotFound)
    else if a.payments[kind].status != Captured && (a.payments[kind].status != Pending || !succeeded) then Err(Conflict)
    else if kind == Balance then Ok(true)
    else CaptureResult(a, kind)
  }

  function AfterSync(a: Account, kind: Kind, succeeded: bool): Account {
    if kind in a.payments && (a.payments[kind].status == Captured || (a.payments[kind].status == Pending && succeeded))
    then AfterCapture(a, kind)
    else a
  }

  function ChargeAmount(b: Booking, kind: Kind): nat {
    match kind
    case Deposit => b.depositAmount
    case Balance => BalanceAmount(b)
  }

  /** Why the booking's state refuses a charge of this kind, if it does. */
  function BookingRefusal(a: Account, kind: Kind): Option<Error> {
    var b := a.booking;
    match kind
    case Deposit =>
      if b.status != Held || b.depositStatus != DepositPending || HoldLapsed(a) then Some(Conflict) else None
    case Balance =>
      if (b.status != Confirmed && b.status != Completed) || b.depositStatus != DepositPaid || b.balanceStatus != Due then Some(Conflict)
      else if !b.balanceOnline || BalanceAmount(b) == 0 then Some(Validation)
      else None
  }

  /** The amount charged, or the first refusal: booking, business, an earlier payment, the account, amount and client. */
  function ChargeResult(a: Account, kind: Kind, m: Merchant): Result<nat, Error> {
    if BookingRefusal(a, kind).Some? then Err(BookingRefusal(a, kind).value)
    else if !m.hasBusiness then Err(NotFound)
    else if !m.paymentReady then Err(Conflict)
    else if kind in a.payments then
      if a.payments[kind].status == Pending then Ok(a.payments[kind].amount) else Err(Conflict)
    else if !m.chargesEnabled then Err(Conflict)
    else if ChargeAmount(a.booking, kind) == 0 || !m.hasClient then Err(Validation)
    else Ok(ChargeAmount(a.booking, kind))
  }

  /** A payment row is created only where none of its kind exists. */
  function AfterCharge(a: Account, kind: Kind, m: Merchant): Account {
    if ChargeResult(a, kind, m).Err? || kind in a.payments then a
    else a.(payments := a.payments[kind := Payment(ChargeAmount(a.booking, kind), Pending, None)])
  }

  function AfterFailed(a: Account, kind: Kind): Account {
    if kind !in a.payments || a.payments[kind].status != Pending then a
    else a.(payments := a.payments[kind := a.payments[kind].(status := Failed)])
  }

  // ---------- The service ----------

  /** The payment service over one booking: each method is one call, run to completion. */
  class PaymentService {
    var clock: int
    var booking: Booking
    var payments: map<Kind, Payment>
    var collected: set<Kind>
    var requests: seq<RefundRequest>

    constructor (clock: int, booking: Booking)
      ensures State() == Account(clock, booking, map[], {}, [])
    {
      this.clock, this.booking := clock, booking;
      payments, collected, requests := map[], {}, [];
    }

    function State(): Account
      reads this
    {
      Account(clock, booking, payments, collected, requests)
    }

    method ConfirmBooking() returns (outcome: Outcome)
      modifies this`booking
      ensures State() == AfterConfirm(old(State())) && outcome == ConfirmOutcome(old(State()))
    {
      if booking.status == Confirmed {
        if booking.depositStatus != DepositPaid {
          booking := MarkedPaid(booking);
        }
        return NowConfirmed;
      }
      if booking.status != Held {
        return CannotConfirm;
      }
      if booking.holdExpiresAt.Some? && booking.holdExpiresAt.value <= clock {
        return HoldExpired;
      }
      booking := MarkedPaid(booking).(status := Confirmed);
      return NowConfirmed;
    }

    method CapturePaymentFromWebhook(kind: Kind) returns (r: Result<bool, Error>)
      modifies this
      ensures State() == AfterCapture(old(State()), kind) && r == CaptureResult(old(State()), kind)
    {
      if kind !in payments {
        return Err(NotFound);
      }
      if kind == Balance {
        if payments[Balance].status != Captured {
          payments := payments[Balance := payments[Balance].(status := Captured)];
          collected := collected + {Balance};
          booking := booking.(balanceStatus := PaidOnline);
        }
        return Ok(false);
      }
      if payments[Deposit].status != Captured {
        payments := payments[Deposit := payments[Deposit].(status := Captured)];
        collected := collected + {Deposit};
      }
      var outcome := ConfirmBooking();
      if outcome == HoldExpired {
        var _ := ProcessRefund(Full);
        return Ok(false);
      }
      if outcome == CannotConfirm {
        return Err(Conflict);
      }
      return Ok(true);
    }

    /** Refund requests go to the provider one at a time, oldest charge first; then the rows change together. */
    method RequestFullRefunds(kinds: seq<Kind>)
      modifies this`requests
      ensures requests == old(requests) + FullRequests(old(State()), kinds)
    {
      for i := 0 to |kinds|
        invariant requests + FullRequests(old(State()), kinds[i..]) == old(requests) + FullRequests(old(State()), kinds)
      {
        assert kinds[i..][1..] == kinds[i + 1..];
        if kinds[i] in payments && payments[kinds[i]].status == Captured {
          requests := requests + [RefundRequest(kinds[i], payments[kinds[i]].amount)];
        }
      }
      assert kinds[|kinds|..] == [];
    }

    method ProcessRefund(refund: RefundType) returns (r: Result<Option<Payment>, Error>)
      modifies this
      ensures State() == AfterRefund(old(State()), refund) && r == RefundResult(old(State()), refund)
    {
      var deposit := Deposit in payments && payments[Deposit].status == Captured;
      var balance := Balance in payments && payments[Balance].status == Captured;
      if !deposit && !balance {
        return Ok(None);
      }
      match refund {
        case Forfeit =>
          RequestFullRefunds([Balance]);
          payments := map k | k in payments ::
            if payments[k].status != Captured then payments[k]
            else if k == Deposit then payments[k].(status := Forfeited)
            else RefundedInFull(payments[k]);
          booking := booking.(depositStatus := DepositForfeited, balanceStatus := if balance then NotDue else booking.balanceStatus);
          return Ok(if deposit then Some(payments[Deposit]) else None);
        case Partial(pence) =>
          if !deposit {
            return Ok(None);
          }
          if pence <= 0 || pence > payments[Deposit].amount {
            return Err(Validation);
          }
          requests := requests + [RefundRequest(Deposit, pence)];
          payments := payments[Deposit := payments[Deposit].(status := Refunded, refundedAmount := Some(pence))];
          booking := booking.(depositStatus := DepositRefunded);
          return Ok(Some(payments[Deposit]));
        case Full =>
          var read := payments;
          RequestFullRefunds([Deposit, Balance]);
          payments := map k | k in payments ::
            if payments[k].status == Captured then RefundedInFull(payments[k]) else payments[k];
          booking := booking.(depositStatus := DepositRefunded, balanceStatus := if balance then NotDue else booking.balanceStatus);
          return Ok(Some(if deposit then payments[Deposit] else read[Balance]));
      }
    }

    method SyncAfterClientCheckout(kind: Kind, succeeded: bool) returns (r: Result<bool, Error>)
      modifies this
      ensures State() == AfterSync(old(State()), kind, succeeded) && r == SyncResult(old(State()), kind, succeeded)
    {
      if kind !in payments {
        return Err(NotFound);
      }
      if payments[kind].status != Captured {
        if payments[kind].status != Pending {
          return Err(Conflict);
        }
        if !succeeded {
          return Err(Conflict);
        }
      }
      r := CapturePaymentFromWebhook(kind);
      if kind == Balance {
        return Ok(true);
      }
    }

    method CreateCharge(kind: Kind, m: Merchant) returns (r: Result<nat, Error>)
      modifies this`payments
      ensures State() == AfterCharge(old(State()), kind, m) && r == ChargeResult(old(State()), kind, m)
      ensures r.Ok? ==> kind in payments && payments[kind].status == Pending && r.value == payments[kind].amount
    {
      if kind == Deposit {
        if booking.status != Held || booking.depositStatus != DepositPending {
          return Err(Conflict);
        }
        if booking.holdExpiresAt.Some? && booking.holdExpiresAt.value <= clock {
          return Err(Conflict);
        }
      } else {
        if (booking.status != Confirmed && booking.status != Completed) || booking.depositStatus != DepositPaid {
          return Err(Conflict);
        }
        if booking.balanceStatus != Due {
          return Err(Conflict);
        }
        if !booking.balanceOnline || BalanceAmount(booking) == 0 {
          return Err(Validation);
        }
      }
      if !m.hasBusiness {
        return Err(NotFound);
      }
      if !m.paymentReady {
        return Err(Conflict);
      }
      if kind in payments {
        if payments[kind].status == Pending {
          return Ok(payments[kind].amount);
        }
        return Err(Conflict);
      }
      if !m.chargesEnabled {
        return Err(Conflict);
      }
      if ChargeAmount(booking, kind) == 0 || !m.hasClient {
        return Err(Validation);
      }
      payments := payments[kind := Payment(ChargeAmount(booking, kind), Pending, None)];
      return Ok(payments[kind].amount);
    }

    /** A late failure webhook never takes back a capture or any other settled status. */
    method MarkPaymentFailed(kind: Kind)
      modifies this`payments
      ensures State() == AfterFailed(old(State()), kind) && payments.Keys == old(payments.Keys)
      ensures forall k :: k in payments && payments[k] != old(payments)[k] ==>
        k == kind && old(payments)[k].status == Pending && payments[k] == old(payments)[k].(status := Failed)
      ensures kind in payments ==> payments[kind].status != Pending
    {
      if kind !in payments || payments[kind].status != Pending {
        return;
      }
      payments := payments[kind := payments[kind].(status := Failed)];
    }
  }
}
