/**
 * The payment service with every database read, every database write and every request to the provider as its own
 * step, over one booking and its payments. Any number of webhooks, client syncs, refunds and booking changes
 * interleave; an actor's value says what it will do next and all it remembers of its reads.
 */
module PaymentProtocol {
  import opened Common
  import opened Payments
  import Bookings
  import PT = PaymentTheorems

  datatype Actor =
    | Idle
    | ChargeWriting(kind: Kind, amount: nat)     // charge allowed and no row seen; the create is next
    | FailWriting(kind: Kind)                    // read as pending; the write to failed is next
    | CaptureWriting(kind: Kind)                 // read as not captured; the write to captured is next
    | ConfirmReading(capture: bool)              // the confirmation's read is next
    | ConfirmWriting(capture: bool)              // read as held and live; the compare-and-set is next
    | RepairWriting(capture: bool)               // read as confirmed but not paid; the repairing write is next
    | ExpiryReading                              // the capture found the hold expired; its refund's read is next
    | Refunding(refund: RefundType, read: map<Kind, nat>, asked: set<Kind>, capture: bool)
    | SettleWriting                              // balance read as payable in person; the write is next

  datatype World = World(a: Account, actors: map<nat, Actor>)

  datatype Event =
    | Tick(to: int)
    | ChargeRead(actor: nat, kind: Kind, merchant: Merchant)
    | ChargeWrite(actor: nat)
    | FailRead(actor: nat, kind: Kind)
    | FailWrite(actor: nat)
    | CaptureRead(actor: nat, kind: Kind)            // by a webhook, or by a client sync after its own check
    | CaptureWrite(actor: nat)
    | StylistConfirm(actor: nat)
    | ConfirmRead(actor: nat)
    | ConfirmWrite(actor: nat)
    | RepairWrite(actor: nat)
    | ExpiryRead(actor: nat)
    | RefundRead(actor: nat, refund: RefundType)
    | Ask(actor: nat)
    | RefundWrite(actor: nat)
    | SettleRead(actor: nat)
    | SettleWrite(actor: nat)
    | MoveBooking(from: BookingStatus, next: BookingStatus)   // cancel, complete, no-show, expiry: guarded by from

  function At(w: World, actor: nat): Actor {
    if actor in w.actors then w.actors[actor] else Idle
  }

  function Becomes(w: World, actor: nat, next: Actor): World {
    w.(actors := w.actors[actor := next])
  }

  // ---------- Refunds in steps ----------

  /** What the refund will ask the provider for, among the captured rows it read. */
  function ToAsk(refund: RefundType, read: map<Kind, nat>): set<Kind> {
    match refund
    case Full => read.Keys
    case Forfeit => read.Keys * {Balance}
    case Partial(_) => {Deposit}
  }

  function Pence(refund: RefundType, read: map<Kind, nat>, kind: Kind): nat {
    if refund.Partial? then (if refund.pence > 0 then refund.pence else 0)
    else if kind in read then read[kind] else 0
  }

  function CapturedAmounts(a: Account): map<Kind, nat> {
    map k | k in a.payments && a.payments[k].status == Captured :: a.payments[k].amount
  }

  function AfterRefundRead(a: Account, refund: RefundType, capture: bool): Actor {
    var read := CapturedAmounts(a);
    if read == map[] || (refund.Partial? && !PartialAllowed(a, refund.pence)) then Idle
    else Refunding(refund, read, {}, capture)
  }

  /** The next charge to ask for: the deposit before the balance. */
  function NextAsk(p: Actor): Option<Kind>
    requires p.Refunding?
  {
    var left := ToAsk(p.refund, p.read) - p.asked;
    if Deposit in left then Some(Deposit) else if Balance in left then Some(Balance) else None
  }

  function Asked(w: World, actor: nat): World
    requires At(w, actor).Refunding? && NextAsk(At(w, actor)).Some?
  {
    var p := At(w, actor);
    var kind := NextAsk(p).value;
    Becomes(w.(a := w.a.(requests := w.a.requests + [RefundRequest(kind, Pence(p.refund, p.read, kind))])),
            actor, p.(asked := p.asked + {kind}))
  }

  /** The rows a refund writes by id, whatever their status has become. */
  function RefundedRow(p: Actor, kind: Kind, row: Payment): Payment
    requires p.Refunding?
  {
    if kind !in p.read then row
    else if kind in ToAsk(p.refund, p.read) then row.(status := Refunded, refundedAmount := Some(Pence(p.refund, p.read, kind)))
    else if p.refund == Forfeit then row.(status := Forfeited)
    else row
  }

  function RefundedBooking(p: Actor, b: Booking): Booking
    requires p.Refunding?
  {
    b.(depositStatus := if p.refund == Forfeit then DepositForfeited else DepositRefunded,
       balanceStatus := if !p.refund.Partial? && Balance in p.read then NotDue else b.balanceStatus)
  }

  function RefundWritten(a: Account, p: Actor): Account
    requires p.Refunding?
  {
    a.(payments := map k | k in a.payments :: RefundedRow(p, k, a.payments[k]), booking := RefundedBooking(p, a.booking))
  }

  // ---------- Steps ----------

  function AfterConfirmRead(a: Account, capture: bool): Actor {
    match ConfirmOutcome(a)
    case CannotConfirm => Idle
    case HoldExpired => if capture then ExpiryReading else Idle
    case NowConfirmed =>
      if a.booking.status == Held then ConfirmWriting(capture)
      else if a.booking.depositStatus == DepositPaid then Idle
      else RepairWriting(capture)
  }

  function AfterCaptureRead(a: Account, kind: Kind): Actor {
    if kind !in a.payments then Idle
    else if a.payments[kind].status != Captured then CaptureWriting(kind)
    else if kind == Deposit then ConfirmReading(true)
    else Idle
  }

  function CaptureWritten(w: World, actor: nat, kind: Kind): World
    requires kind in w.a.payments
  {
    var c := WithCaptured(w.a, kind);
    if kind == Deposit then Becomes(w.(a := c), actor, ConfirmReading(true))
    else Becomes(w.(a := c.(booking := c.booking.(balanceStatus := PaidOnline))), actor, Idle)
  }

  function WithRow(a: Account, kind: Kind, row: Payment): Account {
    a.(payments := a.payments[kind := row])
  }

  predicate Payable(b: Booking) {
    && (b.status == Confirmed || b.status == Completed) && b.depositStatus == DepositPaid
    && b.balanceStatus != PaidOnline && b.balanceStatus != PaidInPerson
  }

  function Moved(b: Booking, next: BookingStatus): Booking {
    b.(status := next, holdExpiresAt := if next == Cancelled then None else b.holdExpiresAt)
  }

  function Apply(w: World, e: Event): World {
    match e
    case Tick(to) => if w.a.clock <= to then w.(a := w.a.(clock := to)) else w
    case MoveBooking(from, next) =>
      if w.a.booking.status == from && next in Bookings.AllowedTransitions(from) && next != Confirmed
      then w.(a := w.a.(booking := Moved(w.a.booking, next)))
      else w
    case ChargeRead(x, kind, m) =>
      if At(w, x).Idle? && ChargeResult(w.a, kind, m).Ok? && kind !in w.a.payments
      then Becomes(w, x, ChargeWriting(kind, ChargeAmount(w.a.booking, kind))) else w
    case FailRead(x, kind) =>
      if At(w, x).Idle? && kind in w.a.payments && w.a.payments[kind].status == Pending then Becomes(w, x, FailWriting(kind)) else w
    case CaptureRead(x, kind) => if At(w, x).Idle? then Becomes(w, x, AfterCaptureRead(w.a, kind)) else w
    case StylistConfirm(x) => if At(w, x).Idle? then Becomes(w, x, ConfirmReading(false)) else w
    case RefundRead(x, refund) => if At(w, x).Idle? then Becomes(w, x, AfterRefundRead(w.a, refund, false)) else w
    case SettleRead(x) => if At(w, x).Idle? && Payable(w.a.booking) then Becomes(w, x, SettleWriting) else w
    case _ => Continue(w, e.actor, e)
  }

  /** A step of an actor that is already under way; it happens only when it is that actor's next. */
  function Continue(w: World, x: nat, e: Event): World {
    match At(w, x)
    case ChargeWriting(kind, amount) =>
      if !e.ChargeWrite? then w
      else if kind in w.a.payments then Becomes(w, x, Idle)
      else Becomes(w.(a := WithRow(w.a, kind, Payment(amount, Pending, None))), x, Idle)
    case FailWriting(kind) =>
      if !e.FailWrite? || kind !in w.a.payments then w
      else Becomes(w.(a := WithRow(w.a, kind, w.a.payments[kind].(status := Failed))), x, Idle)
    case CaptureWriting(kind) => if e.CaptureWrite? && kind in w.a.payments then CaptureWritten(w, x, kind) else w
    case ConfirmReading(capture) => if e.ConfirmRead? then Becomes(w, x, AfterConfirmRead(w.a, capture)) else w
    case ConfirmWriting(_) =>
      if !e.ConfirmWrite? then w
      else if w.a.booking.status != Held then Becomes(w, x, Idle)
      else Becomes(w.(a := w.a.(booking := MarkedPaid(w.a.booking).(status := Confirmed))), x, Idle)
    case RepairWriting(_) => if e.RepairWrite? then Becomes(w.(a := w.a.(booking := MarkedPaid(w.a.booking))), x, Idle) else w
    case ExpiryReading => if e.ExpiryRead? then Becomes(w, x, AfterRefundRead(w.a, Full, true)) else w
    case Refunding(_, _, _, _) =>
      if NextAsk(At(w, x)).Some? then (if e.Ask? then Asked(w, x) else w)
      else if e.RefundWrite? then Becomes(w.(a := RefundWritten(w.a, At(w, x))), x, Idle)
      else w
    case SettleWriting =>
      if !e.SettleWrite? then w
      else
        var balance := if BalanceAmount(w.a.booking) > 0 then PaidInPerson else NotDue;
        Becomes(w.(a := w.a.(booking := w.a.booking.(balanceStatus := balance))), x, Idle)
    case Idle => w
  }

  function Run(w: World, events: seq<Event>): World
    decreases |events|
  {
    if events == [] then w else Run(Apply(w, events[0]), events[1..])
  }

  // ---------- The books ----------

  /** The actor has asked the provider to pay this charge back and has not yet written that down. */
  predicate Holds(w: World, actor: nat, kind: Kind) {
    At(w, actor).Refunding? && kind in At(w, actor).asked
  }

  function HeldPence(w: World, actor: nat, kind: Kind): nat {
    var p := At(w, actor);
    if p.Refunding? then Pence(p.refund, p.read, kind) else 0
  }

  ghost predicate NobodyHolds(w: World, kind: Kind) {
    forall x :: !Holds(w, x, kind)
  }

  ghost predicate OnlyHolder(w: World, actor: nat, kind: Kind) {
    forall x :: Holds(w, x, kind) ==> x == actor
  }

  /** A captured row with at most one unwritten refund: that refund is all the provider was asked for. */
  ghost predicate CapturedTrue(w: World, kind: Kind, amount: nat) {
    var back := PT.Requested(w.a.requests, kind);
    && (NobodyHolds(w, kind) ==> back == 0)
    && forall x :: Holds(w, x, kind) ==>
         OnlyHolder(w, x, kind) && back == HeldPence(w, x, kind) && 0 < back <= amount
  }

  predicate SettledTrue(p: Payment, back: nat) {
    if p.status == Refunded then p.refundedAmount == Some(back) && 0 < back <= p.amount else back == 0
  }

  /** One payment row and the unwritten refunds of it tell the truth about the provider. */
  ghost predicate RowTrue(w: World, kind: Kind) {
    var back := PT.Requested(w.a.requests, kind);
    if kind !in w.a.payments then kind !in w.a.collected && back == 0 && NobodyHolds(w, kind)
    else
      var p := w.a.payments[kind];
      && p.amount > 0
      && (kind in w.a.collected <==> p.status in {Captured, Refunded, Forfeited})
      && if p.status == Captured then CapturedTrue(w, kind, p.amount)
         else NobodyHolds(w, kind) && SettledTrue(p, back)
  }

  /** What an actor remembers of the rows still fits them: amounts never change. */
  predicate Sane(a: Account, p: Actor) {
    match p
    case ChargeWriting(_, amount) => amount > 0
    case FailWriting(kind) => kind in a.payments
    case CaptureWriting(kind) => kind in a.payments
    case Refunding(refund, read, asked, _) =>
      && (forall k :: k in read ==> k in a.payments && read[k] == a.payments[k].amount)
      && asked <= ToAsk(refund, read) && read != map[]
      && (refund.Partial? ==> Deposit in read && 0 < refund.pence <= read[Deposit])
    case _ => true
  }

  ghost predicate AllSane(w: World) {
    forall x :: Sane(w.a, At(w, x))
  }

  ghost predicate Books(w: World) {
    AllSane(w) && RowTrue(w, Deposit) && RowTrue(w, Balance)
  }

  /** The row is captured and no other actor holds an unwritten refund of it. */
  ghost predicate MayAsk(w: World, actor: nat, kind: Kind) {
    kind in w.a.payments && w.a.payments[kind].status == Captured && OnlyHolder(w, actor, kind)
  }

  /** The four unguarded writes, and the ask, at the moment they do harm. */
  ghost predicate Breaks(w: World, e: Event) {
    match e
    case Ask(x) => At(w, x).Refunding? && NextAsk(At(w, x)).Some? && !MayAsk(w, x, NextAsk(At(w, x)).value)
    case CaptureWrite(x) => At(w, x).CaptureWriting? && At(w, x).kind in w.a.payments && w.a.payments[At(w, x).kind].status == Refunded
    case FailWrite(x) => At(w, x).FailWriting? && At(w, x).kind in w.a.payments && w.a.payments[At(w, x).kind].status !in {Pending, Failed}
    case RefundWrite(x) =>
      && At(w, x).Refunding? && At(w, x).refund == Forfeit && NextAsk(At(w, x)).None? && Deposit in At(w, x).read
      && Deposit in w.a.payments && !(w.a.payments[Deposit].status in {Captured, Forfeited} && NobodyHolds(w, Deposit))
    case _ => false
  }

  // ---------- One step ----------

  lemma BooksOf(w: World, kind: Kind)
    requires Books(w)
    ensures RowTrue(w, kind)
  {
    match kind {
      case Deposit =>
      case Balance =>
    }
  }

  lemma RequestedGrows(requests: seq<RefundRequest>, r: RefundRequest, kind: Kind)
    ensures PT.Requested(requests + [r], kind) == PT.Requested(requests, kind) + if r.kind == kind then r.pence else 0
  {
    PT.RequestedOfOne(requests, r, kind);
  }

  /** A step that leaves the rows, the provider and the unwritten refunds of a kind alone leaves its books alone. */
  lemma SameRow(w: World, z: World, kind: Kind)
    requires kind in w.a.payments <==> kind in z.a.payments
    requires kind in w.a.payments ==> w.a.payments[kind] == z.a.payments[kind]
    requires kind in w.a.collected <==> kind in z.a.collected
    requires PT.Requested(w.a.requests, kind) == PT.Requested(z.a.requests, kind)
    requires forall x :: Holds(w, x, kind) <==> Holds(z, x, kind)
    requires forall x :: Holds(w, x, kind) ==> HeldPence(w, x, kind) == HeldPence(z, x, kind)
    ensures RowTrue(z, kind) <==> RowTrue(w, kind)
  {
    assert NobodyHolds(w, kind) <==> NobodyHolds(z, kind);
    forall x ensures OnlyHolder(w, x, kind) <==> OnlyHolder(z, x, kind) {
    }
    if kind in w.a.payments && w.a.payments[kind].status == Captured {
      assert CapturedTrue(w, kind, w.a.payments[kind].amount) <==> CapturedTrue(z, kind, w.a.payments[kind].amount);
    }
  }

  /** A step that only moves one actor, neither from nor to an asked refund, keeps the books. */
  lemma BecomesKeepsBooks(w: World, x: nat, next: Actor)
    requires Books(w) && Sane(w.a, next)
    requires At(w, x).Refunding? ==> At(w, x).asked == {}
    requires next.Refunding? ==> next.asked == {}
    ensures Books(Becomes(w, x, next))
  {
    var z := Becomes(w, x, next);
    BecomesKeepsRow(w, x, next, Deposit);
    BecomesKeepsRow(w, x, next, Balance);
    forall y ensures Sane(z.a, At(z, y)) {
      assert Sane(w.a, At(w, y));
    }
  }

  lemma BecomesKeepsRow(w: World, x: nat, next: Actor, kind: Kind)
    requires RowTrue(w, kind)
    requires At(w, x).Refunding? ==> At(w, x).asked == {}
    requires next.Refunding? ==> next.asked == {}
    ensures RowTrue(Becomes(w, x, next), kind)
  {
    SameRow(w, Becomes(w, x, next), kind);
  }

  /** The booking row and the clock play no part in the books. */
  lemma BookingKeepsBooks(w: World, b: Booking, clock: int)
    requires Books(w)
    ensures Books(w.(a := w.a.(booking := b, clock := clock)))
  {
    var z := w.(a := w.a.(booking := b, clock := clock));
    SameRow(w, z, Deposit);
    SameRow(w, z, Balance);
    forall y ensures Sane(z.a, At(z, y)) {
      assert Sane(w.a, At(w, y));
    }
  }

  lemma AskedPence(w: World, x: nat)
    requires Books(w) && At(w, x).Refunding? && NextAsk(At(w, x)).Some?
    ensures
      var kind := NextAsk(At(w, x)).value;
      kind in w.a.payments && 0 < HeldPence(w, x, kind) <= w.a.payments[kind].amount && !Holds(w, x, kind)
  {
    assert Sane(w.a, At(w, x));
    BooksOf(w, NextAsk(At(w, x)).value);
  }

  lemma AskEffect(w: World, x: nat, kind: Kind)
    requires Books(w) && At(w, x).Refunding? && NextAsk(At(w, x)) == Some(kind)
    ensures
      var z := Asked(w, x);
      && z.a.payments == w.a.payments && z.a.collected == w.a.collected
      && Holds(z, x, kind) && HeldPence(z, x, kind) == HeldPence(w, x, kind)
      && PT.Requested(z.a.requests, kind) == PT.Requested(w.a.requests, kind) + HeldPence(w, x, kind)
    ensures forall y :: y != x ==> At(Asked(w, x), y) == At(w, y)
  {
    RequestedGrows(w.a.requests, RefundRequest(kind, HeldPence(w, x, kind)), kind);
  }

  lemma GuardedAskKeepsRow(w: World, x: nat, kind: Kind)
    requires Books(w) && At(w, x).Refunding? && NextAsk(At(w, x)) == Some(kind) && MayAsk(w, x, kind)
    ensures RowTrue(Asked(w, x), kind)
  {
    var z := Asked(w, x);
    AskedPence(w, x);
    AskEffect(w, x, kind);
    BooksOf(w, kind);
    assert CapturedTrue(w, kind, w.a.payments[kind].amount);
    assert NobodyHolds(w, kind);
    forall y | Holds(z, y, kind) ensures y == x {
      assert y != x ==> Holds(w, y, kind);
    }
    assert CapturedTrue(z, kind, w.a.payments[kind].amount);
  }

  lemma UnguardedAskBreaksRow(w: World, x: nat, kind: Kind)
    requires Books(w) && At(w, x).Refunding? && NextAsk(At(w, x)) == Some(kind) && !MayAsk(w, x, kind)
    ensures !RowTrue(Asked(w, x), kind)
  {
    var z := Asked(w, x);
    AskedPence(w, x);
    AskEffect(w, x, kind);
    BooksOf(w, kind);
    assert !NobodyHolds(z, kind);
    if w.a.payments[kind].status == Captured {
      var y :| Holds(w, y, kind) && y != x;
      assert Holds(z, y, kind) && !OnlyHolder(z, x, kind);
    }
  }

  lemma AskKeepsSane(w: World, x: nat, kind: Kind)
    requires AllSane(w) && At(w, x).Refunding? && NextAsk(At(w, x)) == Some(kind)
    ensures AllSane(Asked(w, x))
  {
    var z := Asked(w, x);
    forall y ensures Sane(z.a, At(z, y)) {
      assert Sane(w.a, At(w, y));
    }
  }

  lemma AskKeepsOtherRow(w: World, x: nat, kind: Kind, other: Kind)
    requires Books(w) && At(w, x).Refunding? && NextAsk(At(w, x)) == Some(kind) && other != kind
    ensures RowTrue(Asked(w, x), other)
  {
    var z := Asked(w, x);
    AskEffect(w, x, kind);
    RequestedGrows(w.a.requests, RefundRequest(kind, HeldPence(w, x, kind)), other);
    BooksOf(w, other);
    SameRow(w, z, other);
  }

  /** An ask keeps the books exactly when the row is still captured and no other actor holds an unwritten refund of it. */
  lemma AskKeepsBooksIff(w: World, x: nat, kind: Kind)
    requires Books(w) && At(w, x).Refunding? && NextAsk(At(w, x)) == Some(kind)
    ensures Books(Asked(w, x)) <==> MayAsk(w, x, kind)
  {
    AskKeepsSane(w, x, kind);
    AskKeepsOtherRow(w, x, kind, if kind == Deposit then Balance else Deposit);
    if MayAsk(w, x, kind) {
      GuardedAskKeepsRow(w, x, kind);
    } else {
      UnguardedAskBreaksRow(w, x, kind);
    }
  }

  // ---------- Writes ----------

  /** A write of one row, by an actor that holds no asked refund, replaces that row only. */
  lemma RowWriteKeepsBooksIff(w: World, z: World, x: nat, kind: Kind, row: Payment)
    requires Books(w) && !At(w, x).Refunding? && !At(z, x).Refunding? && !At(z, x).CaptureWriting? && !At(z, x).FailWriting?
    requires z.a.payments == w.a.payments[kind := row] && z.a.requests == w.a.requests
    requires z.a.collected == w.a.collected || (z.a.collected == w.a.collected + {kind} && row.status == Captured)
    requires kind in w.a.payments ==> row.amount == w.a.payments[kind].amount
    requires forall y :: y != x ==> At(z, y) == At(w, y)
    requires Sane(z.a, At(z, x))
    ensures Books(z) <==> RowTrue(z, kind)
  {
    var other := if kind == Deposit then Balance else Deposit;
    SameRow(w, z, other);
    forall y ensures Sane(z.a, At(z, y)) {
      assert Sane(w.a, At(w, y));
    }
  }

  lemma CaptureWriteKeepsBooksIff(w: World, x: nat)
    requires Books(w) && At(w, x).CaptureWriting?
    ensures Books(Apply(w, CaptureWrite(x))) <==> !Breaks(w, CaptureWrite(x))
  {
    var kind := At(w, x).kind;
    assert Sane(w.a, At(w, x));
    var z := Apply(w, CaptureWrite(x));
    var row := w.a.payments[kind].(status := Captured);
    BooksOf(w, kind);
    RowWriteKeepsBooksIff(w, z, x, kind, row);
    CaptureKeepsRowIff(w, z, x, kind, row);
  }

  lemma CaptureKeepsRowIff(w: World, z: World, x: nat, kind: Kind, row: Payment)
    requires RowTrue(w, kind) && kind in w.a.payments && row == w.a.payments[kind].(status := Captured)
    requires !At(w, x).Refunding? && !At(z, x).Refunding? && forall y :: y != x ==> At(z, y) == At(w, y)
    requires z.a.payments == w.a.payments[kind := row] && z.a.requests == w.a.requests && z.a.collected == w.a.collected + {kind}
    ensures RowTrue(z, kind) <==> w.a.payments[kind].status != Refunded
  {
    assert forall y :: Holds(z, y, kind) <==> Holds(w, y, kind);
    assert forall y :: Holds(w, y, kind) ==> HeldPence(z, y, kind) == HeldPence(w, y, kind);
    if w.a.payments[kind].status == Captured {
      SameRow(w, z, kind);
    } else {
      assert NobodyHolds(z, kind);
    }
  }

  lemma FailWriteKeepsBooksIff(w: World, x: nat)
    requires Books(w) && At(w, x).FailWriting?
    ensures Books(Apply(w, FailWrite(x))) <==> !Breaks(w, FailWrite(x))
  {
    var kind := At(w, x).kind;
    assert Sane(w.a, At(w, x));
    var z := Apply(w, FailWrite(x));
    BooksOf(w, kind);
    RowWriteKeepsBooksIff(w, z, x, kind, w.a.payments[kind].(status := Failed));
    FailureKeepsRowIff(w, z, x, kind);
  }

  lemma FailureKeepsRowIff(w: World, z: World, x: nat, kind: Kind)
    requires RowTrue(w, kind) && kind in w.a.payments
    requires !At(w, x).Refunding? && z == Becomes(w.(a := WithRow(w.a, kind, w.a.payments[kind].(status := Failed))), x, Idle)
    ensures RowTrue(z, kind) <==> w.a.payments[kind].status in {Pending, Failed}
  {
    assert forall y :: Holds(z, y, kind) <==> Holds(w, y, kind);
    assert NobodyHolds(w, kind) <==> NobodyHolds(z, kind);
  }

  lemma ChargeWriteKeepsBooks(w: World, x: nat)
    requires Books(w) && At(w, x).ChargeWriting?
    ensures Books(Apply(w, ChargeWrite(x)))
  {
    var p := At(w, x);
    assert Sane(w.a, p);
    if p.kind in w.a.payments {
      BecomesKeepsBooks(w, x, Idle);
    } else {
      var z := Apply(w, ChargeWrite(x));
      BooksOf(w, p.kind);
      RowWriteKeepsBooksIff(w, z, x, p.kind, Payment(p.amount, Pending, None));
      assert forall y :: Holds(z, y, p.kind) <==> Holds(w, y, p.kind);
      assert NobodyHolds(z, p.kind);
    }
  }

  // ---------- The write that ends a refund ----------

  function AfterRefundWrite(w: World, x: nat): World
    requires At(w, x).Refunding?
  {
    Becomes(w.(a := RefundWritten(w.a, At(w, x))), x, Idle)
  }

  /** Writing down a refund that was asked for settles its row. */
  lemma WriteSettlesAskedRow(w: World, x: nat, kind: Kind)
    requires Books(w) && At(w, x).Refunding? && Holds(w, x, kind)
    ensures kind in w.a.payments && w.a.payments[kind].status == Captured
    ensures RowTrue(AfterRefundWrite(w, x), kind)
    ensures AfterRefundWrite(w, x).a.payments[kind].status == Refunded
  {
    var z := AfterRefundWrite(w, x);
    assert Sane(w.a, At(w, x));
    BooksOf(w, kind);
    assert !NobodyHolds(w, kind);
    assert CapturedTrue(w, kind, w.a.payments[kind].amount);
    assert OnlyHolder(w, x, kind);
    forall y ensures !Holds(z, y, kind) {
      assert y != x ==> !Holds(w, y, kind);
    }
  }

  lemma WriteKeepsOtherRow(w: World, x: nat, kind: Kind)
    requires Books(w) && At(w, x).Refunding? && !Holds(w, x, kind)
    requires kind in w.a.payments ==> RefundedRow(At(w, x), kind, w.a.payments[kind]) == w.a.payments[kind]
    ensures RowTrue(AfterRefundWrite(w, x), kind)
  {
    var z := AfterRefundWrite(w, x);
    BooksOf(w, kind);
    SameRow(w, z, kind);
  }

  lemma ForfeitKeepsRowIff(w: World, x: nat)
    requires Books(w) && At(w, x).Refunding? && At(w, x).refund == Forfeit && Deposit in At(w, x).read
    ensures Deposit in w.a.payments
    ensures RowTrue(AfterRefundWrite(w, x), Deposit)
       <==> w.a.payments[Deposit].status in {Captured, Forfeited} && NobodyHolds(w, Deposit)
  {
    var z := AfterRefundWrite(w, x);
    assert Sane(w.a, At(w, x)) && RowTrue(w, Deposit);
    assert !Holds(w, x, Deposit);
    assert forall y :: Holds(z, y, Deposit) <==> Holds(w, y, Deposit);
    assert NobodyHolds(w, Deposit) <==> NobodyHolds(z, Deposit);
    if w.a.payments[Deposit].status == Captured {
      assert CapturedTrue(w, Deposit, w.a.payments[Deposit].amount);
    }
  }

  lemma WriteKeepsSane(w: World, x: nat)
    requires AllSane(w) && At(w, x).Refunding?
    ensures AllSane(AfterRefundWrite(w, x))
  {
    var z := AfterRefundWrite(w, x);
    forall y ensures Sane(z.a, At(z, y)) {
      assert Sane(w.a, At(w, y));
    }
  }

  lemma RefundWriteKeepsBooksIff(w: World, x: nat)
    requires Books(w) && At(w, x).Refunding? && NextAsk(At(w, x)).None?
    ensures Books(AfterRefundWrite(w, x)) <==> !Breaks(w, RefundWrite(x))
  {
    var p := At(w, x);
    assert Sane(w.a, p);
    WriteKeepsSane(w, x);
    if Balance in p.asked {
      WriteSettlesAskedRow(w, x, Balance);
    } else {
      WriteKeepsOtherRow(w, x, Balance);
    }
    if Deposit in p.asked {
      WriteSettlesAskedRow(w, x, Deposit);
    } else if p.refund == Forfeit && Deposit in p.read {
      ForfeitKeepsRowIff(w, x);
    } else {
      WriteKeepsOtherRow(w, x, Deposit);
    }
  }

  // ---------- Every step ----------

  lemma ReadKeepsBooks(w: World, x: nat, next: Actor)
    requires Books(w) && !At(w, x).Refunding?
    requires next.Refunding? ==> next == AfterRefundRead(w.a, next.refund, next.capture)
    requires !next.Refunding? ==> Sane(w.a, next)
    ensures Books(Becomes(w, x, next))
  {
    BecomesKeepsBooks(w, x, next);
  }

  lemma BookingWriteKeepsBooks(w: World, x: nat, b: Booking)
    requires Books(w) && !At(w, x).Refunding?
    ensures Books(Becomes(w.(a := w.a.(booking := b)), x, Idle))
  {
    BecomesKeepsBooks(w, x, Idle);
    BookingKeepsBooks(Becomes(w, x, Idle), b, w.a.clock);
  }

  lemma RefundStepKeepsBooksIff(w: World, x: nat, e: Event)
    requires Books(w) && At(w, x).Refunding? && (e == Ask(x) || e == RefundWrite(x))
    ensures Books(Apply(w, e)) <==> !Breaks(w, e)
  {
    if NextAsk(At(w, x)).Some? {
      AskKeepsBooksIff(w, x, NextAsk(At(w, x)).value);
    } else {
      RefundWriteKeepsBooksIff(w, x);
    }
  }

  lemma ConfirmReadKeepsBooks(w: World, x: nat)
    requires Books(w)
    ensures Books(Apply(w, ConfirmRead(x)))
  {
    if At(w, x).ConfirmReading? {
      ReadKeepsBooks(w, x, AfterConfirmRead(w.a, At(w, x).capture));
    }
  }

  lemma ConfirmWriteKeepsBooks(w: World, x: nat)
    requires Books(w)
    ensures Books(Apply(w, ConfirmWrite(x)))
  {
    if At(w, x).ConfirmWriting? {
      BecomesKeepsBooks(w, x, Idle);
      BookingWriteKeepsBooks(w, x, MarkedPaid(w.a.booking).(status := Confirmed));
    }
  }

  lemma RepairWriteKeepsBooks(w: World, x: nat)
    requires Books(w)
    ensures Books(Apply(w, RepairWrite(x)))
  {
    if At(w, x).RepairWriting? {
      BookingWriteKeepsBooks(w, x, MarkedPaid(w.a.booking));
    }
  }

  lemma ExpiryReadKeepsBooks(w: World, x: nat)
    requires Books(w)
    ensures Books(Apply(w, ExpiryRead(x)))
  {
    if At(w, x).ExpiryReading? {
      ReadKeepsBooks(w, x, AfterRefundRead(w.a, Full, true));
    }
  }

  lemma SettleWriteKeepsBooks(w: World, x: nat)
    requires Books(w)
    ensures Books(Apply(w, SettleWrite(x)))
  {
    if At(w, x).SettleWriting? {
      BookingWriteKeepsBooks(w, x, w.a.booking.(balanceStatus := if BalanceAmount(w.a.booking) > 0 then PaidInPerson else NotDue));
    }
  }

  lemma FirstReadKeepsBooks(w: World, e: Event)
    requires Books(w)
    requires e.ChargeRead? || e.FailRead? || e.CaptureRead? || e.StylistConfirm? || e.RefundRead? || e.SettleRead?
    ensures Books(Apply(w, e)) && !Breaks(w, e)
  {
    if At(w, e.actor).Idle? {
      match e {
        case ChargeRead(x, kind, m) => ReadKeepsBooks(w, x, if Apply(w, e) == w then Idle else At(Apply(w, e), x));
        case FailRead(x, kind) => ReadKeepsBooks(w, x, if Apply(w, e) == w then Idle else At(Apply(w, e), x));
        case CaptureRead(x, kind) => ReadKeepsBooks(w, x, AfterCaptureRead(w.a, kind));
        case StylistConfirm(x) => ReadKeepsBooks(w, x, ConfirmReading(false));
        case RefundRead(x, refund) => ReadKeepsBooks(w, x, AfterRefundRead(w.a, refund, false));
        case SettleRead(x) => ReadKeepsBooks(w, x, SettleWriting);
      }
    }
  }

  /** Exactly which steps keep the books true, from any world whose books are true. */
  lemma StepKeepsBooksIff(w: World, e: Event)
    requires Books(w)
    ensures Books(Apply(w, e)) <==> !Breaks(w, e)
  {
    match e {
      case Tick(to) => BookingKeepsBooks(w, w.a.booking, to);
      case MoveBooking(_, next) => BookingKeepsBooks(w, Moved(w.a.booking, next), w.a.clock);
      case ChargeWrite(x) => if At(w, x).ChargeWriting? { ChargeWriteKeepsBooks(w, x); }
      case FailWrite(x) => if At(w, x).FailWriting? { FailWriteKeepsBooksIff(w, x); }
      case CaptureWrite(x) => if At(w, x).CaptureWriting? { CaptureWriteKeepsBooksIff(w, x); }
      case Ask(x) => if At(w, x).Refunding? { RefundStepKeepsBooksIff(w, x, e); }
      case RefundWrite(x) => if At(w, x).Refunding? { RefundStepKeepsBooksIff(w, x, e); }
      case ConfirmRead(x) => ConfirmReadKeepsBooks(w, x);
      case ConfirmWrite(x) => ConfirmWriteKeepsBooks(w, x);
      case RepairWrite(x) => RepairWriteKeepsBooks(w, x);
      case ExpiryRead(x) => ExpiryReadKeepsBooks(w, x);
      case SettleWrite(x) => SettleWriteKeepsBooks(w, x);
      case _ => FirstReadKeepsBooks(w, e);
    }
  }

  ghost predicate NeverBreaks(w: World, events: seq<Event>)
    decreases |events|
  {
    events == [] || (!Breaks(w, events[0]) && NeverBreaks(Apply(w, events[0]), events[1..]))
  }

  lemma {:induction false} RunKeepsBooks(w: World, events: seq<Event>)
    requires Books(w) && NeverBreaks(w, events)
    ensures Books(Run(w, events))
    decreases |events|
  {
    if events == [] {
    } else {
      StepKeepsBooksIff(w, events[0]);
      RunKeepsBooks(Apply(w, events[0]), events[1..]);
    }
  }

  function Start(a: Account): World {
    World(a, map[])
  }

  /**
   * Conservation over every interleaving in which no step breaks the books: nothing is paid back beyond its amount,
   * and what was taken is what was paid back plus what is recorded as kept, but for one refund under way.
   */
  lemma MoneyIsConserved(a: Account, events: seq<Event>, kind: Kind)
    requires PT.Fresh(a) && NeverBreaks(Start(a), events)
    ensures
      var z := Run(Start(a), events);
      var back := PT.Requested(z.a.requests, kind);
      && (kind in z.a.payments ==> back <= z.a.payments[kind].amount)
      && (NobodyHolds(z, kind) ==> PT.Taken(z.a, kind) == back + PT.Kept(z.a, kind))
      && (forall x :: Holds(z, x, kind) ==>
            OnlyHolder(z, x, kind) && PT.Taken(z.a, kind) == PT.Kept(z.a, kind) >= back == HeldPence(z, x, kind))
  {
    RunKeepsBooks(Start(a), events);
    BooksOf(Run(Start(a), events), kind);
  }
}
