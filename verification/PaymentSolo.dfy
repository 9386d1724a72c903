/**
 * The step-by-step payment protocol refines the one-call service: an actor that nobody interrupts ends where the call
 * ends. And its confirmation is the booking ledger's: same reads, same guarded write, same repair.
 */
module PaymentSolo {
  import opened Common
  import opened Payments
  import opened PaymentProtocol
  import Bookings
  import BookingProtocol
  import PT = PaymentTheorems

  /** The one step an actor under way takes next. */
  function Next(w: World, x: nat): Event {
    match At(w, x)
    case ChargeWriting(_, _) => ChargeWrite(x)
    case FailWriting(_) => FailWrite(x)
    case CaptureWriting(_) => CaptureWrite(x)
    case ConfirmReading(_) => ConfirmRead(x)
    case ConfirmWriting(_) => ConfirmWrite(x)
    case RepairWriting(_) => RepairWrite(x)
    case ExpiryReading => ExpiryRead(x)
    case Refunding(_, _, _, _) => if NextAsk(At(w, x)).Some? then Ask(x) else RefundWrite(x)
    case SettleWriting => SettleWrite(x)
    case Idle => Tick(w.a.clock)
  }

  /** Up to n steps of one actor, and of nobody else. */
  function Finish(w: World, x: nat, n: nat): World
    decreases n
  {
    if n == 0 || At(w, x).Idle? then w else Finish(Apply(w, Next(w, x)), x, n - 1)
  }

  const ENOUGH: nat := 6

  function RequestsOf(p: Actor): seq<RefundRequest>
    requires p.Refunding?
  {
    (if Deposit in ToAsk(p.refund, p.read) then [RefundRequest(Deposit, Pence(p.refund, p.read, Deposit))] else [])
    + (if Balance in ToAsk(p.refund, p.read) then [RefundRequest(Balance, Pence(p.refund, p.read, Balance))] else [])
  }

  function Repaid(w: World, x: nat, p: Actor): World
    requires p.Refunding?
  {
    Becomes(w.(a := RefundWritten(w.a.(requests := w.a.requests + RequestsOf(p)), p)), x, Idle)
  }

  lemma LastWrite(w: World, x: nat, n: nat)
    requires At(w, x).Refunding? && NextAsk(At(w, x)).None? && n >= 1
    ensures Finish(w, x, n) == Becomes(w.(a := RefundWritten(w.a, At(w, x))), x, Idle)
  {
    var z := Apply(w, RefundWrite(x));
    assert Finish(w, x, n) == Finish(z, x, n - 1) && At(z, x).Idle?;
  }

  lemma OneAsk(w: World, x: nat, n: nat)
    requires At(w, x).Refunding? && NextAsk(At(w, x)).Some? && n >= 1
    ensures Finish(w, x, n) == Finish(Asked(w, x), x, n - 1)
  {
  }

  lemma AskingDoesNotChangeTheWrite(a: Account, p: Actor, asked: set<Kind>)
    requires p.Refunding?
    ensures RefundWritten(a, p.(asked := asked)) == RefundWritten(a, p)
  {
    forall k | k in a.payments ensures RefundedRow(p.(asked := asked), k, a.payments[k]) == RefundedRow(p, k, a.payments[k]) {
    }
  }

  lemma SameKinds(s: set<Kind>, t: set<Kind>)
    requires (Deposit in s <==> Deposit in t) && (Balance in s <==> Balance in t)
    ensures s == t
  {
    forall k: Kind ensures k in s <==> k in t {
      match k {
        case Deposit =>
        case Balance =>
      }
    }
  }

  /** One ask still to go. */
  lemma LastAsk(w: World, x: nat, kind: Kind, n: nat)
    requires At(w, x).Refunding? && NextAsk(At(w, x)) == Some(kind) && n >= 2
    requires ToAsk(At(w, x).refund, At(w, x).read) - At(w, x).asked == {kind}
    ensures
      var p := At(w, x);
      var r := RefundRequest(kind, Pence(p.refund, p.read, kind));
      Finish(w, x, n) == Becomes(w.(a := RefundWritten(w.a.(requests := w.a.requests + [r]), p)), x, Idle)
  {
    var p := At(w, x);
    var w1 := Asked(w, x);
    OneAsk(w, x, n);
    SameKinds(ToAsk(p.refund, p.read) - At(w1, x).asked, {});
    LastWrite(w1, x, n - 1);
    AskingDoesNotChangeTheWrite(w1.a, p, p.asked + {kind});
  }

  lemma TwoAsks(w: World, x: nat, p: Actor, n: nat)
    requires At(w, x) == p && p.Refunding? && p.asked == {} && n >= 3
    requires Deposit in ToAsk(p.refund, p.read) && Balance in ToAsk(p.refund, p.read)
    ensures Finish(w, x, n) == Repaid(w, x, p)
  {
    var w1 := Asked(w, x);
    OneAsk(w, x, n);
    SameKinds(ToAsk(p.refund, p.read) - {Deposit}, {Balance});
    LastAsk(w1, x, Balance, n - 1);
    AskingDoesNotChangeTheWrite(w.a.(requests := w.a.requests + RequestsOf(p)), p, {Deposit});
    assert w.a.requests + RequestsOf(p)
        == w1.a.requests + [RefundRequest(Balance, Pence(p.refund, p.read, Balance))];
  }

  lemma SingleAsk(w: World, x: nat, p: Actor, kind: Kind, n: nat)
    requires At(w, x) == p && p.Refunding? && p.asked == {} && n >= 2
    requires ToAsk(p.refund, p.read) == {kind}
    ensures Finish(w, x, n) == Repaid(w, x, p)
  {
    assert ToAsk(p.refund, p.read) - {} == {kind} && kind in ToAsk(p.refund, p.read);
    LastAsk(w, x, kind, n);
    assert RequestsOf(p) == [RefundRequest(kind, Pence(p.refund, p.read, kind))];
  }

  /** A refund left alone asks for its charges in order and writes them down. */
  lemma RefundFinishes(w: World, x: nat, p: Actor, n: nat)
    requires At(w, x) == p && p.Refunding? && p.asked == {} && n >= 3
    ensures Finish(w, x, n) == Repaid(w, x, p)
  {
    var all := ToAsk(p.refund, p.read);
    if Deposit in all && Balance in all {
      TwoAsks(w, x, p, n);
    } else if Deposit in all {
      SameKinds(all, {Deposit});
      SingleAsk(w, x, p, Deposit, n);
    } else if Balance in all {
      SameKinds(all, {Balance});
      SingleAsk(w, x, p, Balance, n);
    } else {
      LastWrite(w, x, n);
      assert RequestsOf(p) == [] && w.a.requests + [] == w.a.requests;
    }
  }

  lemma PlanIsTheCall(a: Account, refund: RefundType, p: Actor)
    requires p == AfterRefundRead(a, refund, p.Refunding? && p.capture) && p.Refunding?
    ensures RefundWritten(a.(requests := a.requests + RequestsOf(p)), p) == AfterRefund(a, refund)
  {
    PT.FullRequestsUnfold(a);
    assert Deposit in p.read <==> HasCaptured(a, Deposit);
    assert Balance in p.read <==> HasCaptured(a, Balance);
    if !HasCaptured(a, Deposit) && !HasCaptured(a, Balance) {
      SameKinds(p.read.Keys, {});
    }
    var z := RefundWritten(a.(requests := a.requests + RequestsOf(p)), p);
    assert z.payments == AfterRefund(a, refund).payments;
    assert z.requests == AfterRefund(a, refund).requests;
  }

  lemma NoPlanIsNoCall(a: Account, refund: RefundType, capture: bool)
    requires AfterRefundRead(a, refund, capture).Idle?
    ensures AfterRefund(a, refund) == a
  {
    assert Deposit in CapturedAmounts(a) <==> HasCaptured(a, Deposit);
    assert Balance in CapturedAmounts(a) <==> HasCaptured(a, Balance);
  }

  lemma PlanFinishes(w: World, x: nat, refund: RefundType, capture: bool, n: nat)
    requires At(w, x) == AfterRefundRead(w.a, refund, capture) && n >= 3
    ensures At(Finish(w, x, n), x).Idle? && Finish(w, x, n).a == AfterRefund(w.a, refund)
  {
    var p := At(w, x);
    if p.Idle? {
      NoPlanIsNoCall(w.a, refund, capture);
    } else {
      RefundFinishes(w, x, p, n);
      PlanIsTheCall(w.a, refund, p);
    }
  }

  /** A refund that nobody interrupts is the one-call refund. */
  lemma SoloRefundIsTheCall(w: World, x: nat, refund: RefundType)
    requires At(w, x).Idle?
    ensures
      var z := Finish(Apply(w, RefundRead(x, refund)), x, ENOUGH);
      At(z, x).Idle? && z.a == AfterRefund(w.a, refund)
  {
    PlanFinishes(Apply(w, RefundRead(x, refund)), x, refund, false, ENOUGH);
  }

  lemma BookingWriteFinishes(w: World, x: nat, n: nat)
    requires n >= 1 && (At(w, x).RepairWriting? || (At(w, x).ConfirmWriting? && w.a.booking.status == Held))
    ensures
      var marked := MarkedPaid(w.a.booking);
      Finish(w, x, n) ==
      Becomes(w.(a := w.a.(booking := if At(w, x).ConfirmWriting? then marked.(status := Confirmed) else marked)), x, Idle)
  {
    var z := Apply(w, Next(w, x));
    assert At(z, x).Idle? && Finish(w, x, n) == Finish(z, x, n - 1) == z;
  }

  lemma ConfirmationFinishes(w: World, x: nat, capture: bool, n: nat)
    requires At(w, x) == ConfirmReading(capture) && n >= 5
    ensures
      var z := Finish(w, x, n);
      && At(z, x).Idle?
      && z.a == if capture && ConfirmOutcome(w.a) == HoldExpired then AfterFull(w.a) else AfterConfirm(w.a)
  {
    var w1 := Becomes(w, x, AfterConfirmRead(w.a, capture));
    assert Finish(w, x, n) == Finish(w1, x, n - 1);
    match At(w1, x) {
      case Idle =>
      case ExpiryReading => ExpiryFinishes(w1, x, n - 1);
      case ConfirmWriting(_) => BookingWriteFinishes(w1, x, n - 1);
      case RepairWriting(_) => BookingWriteFinishes(w1, x, n - 1);
    }
  }

  lemma ExpiryStep(w: World, x: nat, n: nat)
    requires At(w, x) == ExpiryReading && n >= 1
    ensures Finish(w, x, n) == Finish(Becomes(w, x, AfterRefundRead(w.a, Full, true)), x, n - 1)
  {
    assert Next(w, x) == ExpiryRead(x);
  }

  lemma ExpiryFinishes(w: World, x: nat, n: nat)
    requires At(w, x) == ExpiryReading && n >= 4
    ensures At(Finish(w, x, n), x).Idle? && Finish(w, x, n).a == AfterFull(w.a)
  {
    var w1 := Becomes(w, x, AfterRefundRead(w.a, Full, true));
    ExpiryStep(w, x, n);
    PlanFinishes(w1, x, Full, true, n - 1);
  }

  /** A capture that nobody interrupts is the one-call capture. */
  lemma SoloCaptureIsTheCall(w: World, x: nat, kind: Kind)
    requires At(w, x).Idle?
    ensures
      var z := Finish(Apply(w, CaptureRead(x, kind)), x, ENOUGH);
      At(z, x).Idle? && z.a == AfterCapture(w.a, kind)
  {
    var w1 := Becomes(w, x, AfterCaptureRead(w.a, kind));
    match At(w1, x) {
      case Idle =>
      case ConfirmReading(_) => ConfirmationFinishes(w1, x, true, ENOUGH);
      case CaptureWriting(_) =>
        var w2 := CaptureWritten(w1, x, kind);
        assert Finish(w1, x, ENOUGH) == Finish(w2, x, ENOUGH - 1);
        if kind == Deposit {
          ConfirmationFinishes(w2, x, true, ENOUGH - 1);
        }
    }
  }

  /** So are a charge, the mark of a failed payment, a stylist's confirmation, and the mark of a balance paid in person. */
  lemma SoloChargeIsTheCall(w: World, x: nat, kind: Kind, m: Merchant)
    requires At(w, x).Idle?
    ensures
      var z := Finish(Apply(w, ChargeRead(x, kind, m)), x, ENOUGH);
      At(z, x).Idle? && z.a == AfterCharge(w.a, kind, m)
  {
    OneStepFinishes(Apply(w, ChargeRead(x, kind, m)), x);
  }

  lemma SoloFailIsTheCall(w: World, x: nat, kind: Kind)
    requires At(w, x).Idle?
    ensures
      var z := Finish(Apply(w, FailRead(x, kind)), x, ENOUGH);
      At(z, x).Idle? && z.a == AfterFailed(w.a, kind)
  {
    OneStepFinishes(Apply(w, FailRead(x, kind)), x);
  }

  lemma SoloSettleIsTheCall(w: World, x: nat)
    requires At(w, x).Idle?
    ensures
      var z := Finish(Apply(w, SettleRead(x)), x, ENOUGH);
      At(z, x).Idle? && z.a == PT.PaidInPersonIfDue(w.a)
  {
    OneStepFinishes(Apply(w, SettleRead(x)), x);
  }

  lemma SoloConfirmIsTheCall(w: World, x: nat)
    requires At(w, x).Idle?
    ensures
      var z := Finish(Apply(w, StylistConfirm(x)), x, ENOUGH);
      At(z, x).Idle? && z.a == AfterConfirm(w.a)
  {
    ConfirmationFinishes(Apply(w, StylistConfirm(x)), x, false, ENOUGH);
  }

  /** A change of the booking's status is one guarded write in both. */
  lemma CancellingIsTheCall(w: World)
    requires w.a.booking.status == Held || w.a.booking.status == Confirmed
    ensures Apply(w, MoveBooking(w.a.booking.status, Cancelled)).a == PT.Apply(w.a, PT.Cancel)
  {
  }

  lemma ClosingIsTheCall(w: World)
    requires w.a.booking.status == Confirmed && w.a.booking.holdExpiresAt == None
    ensures Apply(w, MoveBooking(Confirmed, Completed)).a == PT.Apply(w.a, PT.Complete)
    ensures Apply(w, MoveBooking(Confirmed, NoShow)).a == PT.Apply(w.a, PT.MarkNoShow)
  {
  }

  lemma OneStepFinishes(w: World, x: nat)
    requires At(w, x).Idle? || At(Apply(w, Next(w, x)), x).Idle?
    ensures Finish(w, x, ENOUGH) == if At(w, x).Idle? then w else Apply(w, Next(w, x))
  {
    var z := Apply(w, Next(w, x));
    assert !At(w, x).Idle? ==> Finish(w, x, ENOUGH) == Finish(z, x, ENOUGH - 1);
  }

  // ---------- The ledger's confirmation ----------

  /** The two modules' views of one booking row. */
  predicate SameBooking(row: Bookings.Booking, b: Booking) {
    row.status == b.status && row.holdExpiresAt == b.holdExpiresAt && row.deposit == b.depositStatus
  }

  /** Both protocols' confirming actors have read the same thing. */
  predicate SameIntent(p: Actor, q: BookingProtocol.Actor, id: Bookings.Id) {
    match p
    case ConfirmWriting(_) => q == BookingProtocol.Writing(id, Held, Confirmed, Bookings.CONFIRM_PATCH)
    case RepairWriting(_) => q == BookingProtocol.Repairing(id)
    case _ => q == BookingProtocol.Idle
  }

  /** Reading to confirm, the payment protocol goes on exactly when and as the booking ledger does. */
  lemma ConfirmReadIsTheLedgers(w: World, x: nat, s: BookingProtocol.State, y: nat, id: Bookings.Id)
    requires At(w, x).ConfirmReading? && BookingProtocol.At(s, y).Idle? && id in s.rows
    requires SameBooking(s.rows[id], w.a.booking) && s.clock == w.a.clock
    ensures SameIntent(At(Apply(w, ConfirmRead(x)), x), BookingProtocol.At(BookingProtocol.Apply(s, BookingProtocol.ConfirmRead(y, id)), y), id)
  {
  }

  /** Writing, however stale the reads: the same guarded write or repair, leaving the same row. */
  lemma ConfirmWriteIsTheLedgers(w: World, x: nat, s: BookingProtocol.State, y: nat, id: Bookings.Id)
    requires At(w, x).ConfirmWriting? || At(w, x).RepairWriting?
    requires SameIntent(At(w, x), BookingProtocol.At(s, y), id) && id in s.rows && SameBooking(s.rows[id], w.a.booking)
    ensures
      var z := Apply(w, Next(w, x));
      var step := if At(w, x).ConfirmWriting? then BookingProtocol.Write(y) else BookingProtocol.RepairWrite(y);
      var rows := BookingProtocol.Apply(s, step).rows;
      id in rows && SameBooking(rows[id], z.a.booking)
  {
  }
}
