/**
 * What interleaved captures and refunds end in: when every capture that returns leaves booking and money in one joint
 * state, the runs in which they do not, and that an actor left alone does what the one-call service does.
 */
module PaymentRaces {
  import opened Common
  import opened Runs
  import opened Payments
  import opened PaymentProtocol
  import Bookings
  import BookingProtocol
  import PT = PaymentTheorems

  // ---------- Joint states ----------

  function Back(w: World): nat {
    PT.Requested(w.a.requests, Deposit)
  }

  predicate DepositRepaid(a: Account) {
    Deposit in a.payments && a.payments[Deposit].status == Refunded
  }

  /** An actor of a capture has seen the deposit collected, and an expired capture pays it back unless it is repaid. */
  predicate CaptureActor(a: Account, p: Actor) {
    match p
    case ConfirmReading(capture) => capture ==> Deposit in a.collected
    case ConfirmWriting(capture) => capture ==> Deposit in a.collected
    case ExpiryReading => Deposit in a.collected
    case RepairWriting(_) => false
    case Refunding(refund, read, _, capture) =>
      capture ==> refund == Full && Deposit in a.collected && (Deposit !in read ==> DepositRepaid(a))
    case _ => true
  }

  /** The deposit row and the booking agree: confirmed means paid and not asked back, refunded means refunded in full. */
  predicate DepositAgrees(w: World) {
    && (w.a.booking.status == Confirmed ==> w.a.booking.depositStatus == DepositPaid && Back(w) == 0)
    && (Deposit in w.a.payments ==>
          && w.a.payments[Deposit].status != Forfeited
          && (w.a.payments[Deposit].status == Refunded ==>
                w.a.booking.depositStatus == DepositRefunded && Back(w) == w.a.payments[Deposit].amount))
  }

  ghost predicate AllCaptureActors(w: World) {
    forall x :: CaptureActor(w.a, At(w, x))
  }

  ghost predicate Joint(w: World) {
    Books(w) && DepositAgrees(w) && AllCaptureActors(w)
  }

  /** A refund that ends without paying the whole deposit back: part of it, or a forfeit of a captured or repaid one. */
  predicate Withholds(a: Account, p: Actor)
    requires p.Refunding?
  {
    match p.refund
    case Full => false
    case Partial(pence) => Deposit in p.read && pence != p.read[Deposit]
    case Forfeit => Deposit in a.payments && (Deposit in p.read || DepositRepaid(a))
  }

  /**
   * A refund pays a confirmed booking's deposit back or ends without paying the whole deposit back, or a confirmation
   * lands on a deposit asked back.
   */
  predicate Tears(w: World, e: Event) {
    match e
    case ConfirmWrite(x) => At(w, x).ConfirmWriting? && w.a.booking.status == Held && Back(w) > 0
    case Ask(x) => At(w, x).Refunding? && NextAsk(At(w, x)) == Some(Deposit) && w.a.booking.status == Confirmed
    case RefundWrite(x) =>
      && At(w, x).Refunding? && NextAsk(At(w, x)).None?
      && (w.a.booking.status == Confirmed || Withholds(w.a, At(w, x)))
    case _ => false
  }

  lemma TearsBreakJoint(w: World, e: Event)
    requires Joint(w) && Tears(w, e)
    ensures !Joint(Apply(w, e))
  {
    if e.Ask? && Books(Apply(w, e)) {
      AskedPence(w, e.actor);
      AskEffect(w, e.actor, Deposit);
    }
  }

  /** A step of one actor leaves what the others have seen true, if it keeps what was collected and what was repaid. */
  lemma OthersStay(w: World, z: World, x: nat)
    requires AllCaptureActors(w) && forall y :: y != x ==> At(z, y) == At(w, y)
    requires w.a.collected <= z.a.collected && (DepositRepaid(w.a) ==> DepositRepaid(z.a))
    requires CaptureActor(z.a, At(z, x))
    ensures AllCaptureActors(z)
  {
    forall y ensures CaptureActor(z.a, At(z, y)) {
      assert CaptureActor(w.a, At(w, y));
    }
  }

  lemma ReadKeepsJoint(w: World, x: nat, next: Actor)
    requires Joint(w) && CaptureActor(w.a, next)
    ensures DepositAgrees(Becomes(w, x, next)) && AllCaptureActors(Becomes(w, x, next))
  {
    OthersStay(w, Becomes(w, x, next), x);
  }

  /** Rows captured at the read of an expired capture: the deposit, or it was already repaid. */
  lemma ExpiryReadFindsDeposit(w: World)
    requires Joint(w) && Deposit in w.a.collected
    ensures Deposit in w.a.payments
    ensures Deposit in CapturedAmounts(w.a) <==> !DepositRepaid(w.a)
    ensures DepositRepaid(w.a) ==> Back(w) == w.a.payments[Deposit].amount > 0
  {
    BooksOf(w, Deposit);
  }

  lemma ConfirmReadKeepsJoint(w: World, x: nat)
    requires Joint(w)
    ensures DepositAgrees(Apply(w, ConfirmRead(x))) && AllCaptureActors(Apply(w, ConfirmRead(x)))
  {
    assert CaptureActor(w.a, At(w, x));
    if At(w, x).ConfirmReading? {
      ReadKeepsJoint(w, x, AfterConfirmRead(w.a, At(w, x).capture));
    }
  }

  lemma ConfirmWriteKeepsJoint(w: World, x: nat)
    requires Joint(w) && !Tears(w, ConfirmWrite(x))
    ensures DepositAgrees(Apply(w, ConfirmWrite(x))) && AllCaptureActors(Apply(w, ConfirmWrite(x)))
  {
    BooksOf(w, Deposit);
    if At(w, x).ConfirmWriting? {
      OthersStay(w, Apply(w, ConfirmWrite(x)), x);
    }
  }

  lemma RepairWriteKeepsJoint(w: World, x: nat)
    requires Joint(w)
    ensures Apply(w, RepairWrite(x)) == w
  {
    assert CaptureActor(w.a, At(w, x));
  }

  lemma ExpiryReadKeepsJoint(w: World, x: nat)
    requires Joint(w)
    ensures DepositAgrees(Apply(w, ExpiryRead(x))) && AllCaptureActors(Apply(w, ExpiryRead(x)))
  {
    assert CaptureActor(w.a, At(w, x));
    if At(w, x).ExpiryReading? {
      ExpiryReadFindsDeposit(w);
      ReadKeepsJoint(w, x, AfterRefundRead(w.a, Full, true));
    }
  }

  lemma RefundStepKeepsJoint(w: World, x: nat, e: Event)
    requires Joint(w) && !Breaks(w, e) && !Tears(w, e) && (e == Ask(x) || e == RefundWrite(x))
    ensures DepositAgrees(Apply(w, e)) && AllCaptureActors(Apply(w, e))
  {
    if At(w, x).Refunding? {
      assert CaptureActor(w.a, At(w, x)) && Sane(w.a, At(w, x));
      if NextAsk(At(w, x)).Some? {
        if e.Ask? {
          AskedPence(w, x);
          AskKeepsDeposit(w, x, NextAsk(At(w, x)).value);
          AskKeepsActors(w, x);
        }
      } else if e.RefundWrite? {
        WriteKeepsJoint(w, x);
      }
    }
  }

  lemma AskKeepsActors(w: World, x: nat)
    requires AllCaptureActors(w) && At(w, x).Refunding? && NextAsk(At(w, x)).Some?
    ensures AllCaptureActors(Asked(w, x))
  {
    assert CaptureActor(w.a, At(w, x));
    OthersStay(w, Asked(w, x), x);
  }

  lemma AskKeepsDeposit(w: World, x: nat, kind: Kind)
    requires DepositAgrees(w) && At(w, x).Refunding? && NextAsk(At(w, x)) == Some(kind) && HeldPence(w, x, kind) > 0
    requires kind in w.a.payments && w.a.payments[kind].status == Captured
    requires kind == Deposit ==> w.a.booking.status != Confirmed
    ensures DepositAgrees(Asked(w, x))
  {
    RequestedGrows(w.a.requests, RefundRequest(kind, HeldPence(w, x, kind)), Deposit);
  }

  lemma WriteKeepsJoint(w: World, x: nat)
    requires Joint(w) && At(w, x).Refunding? && NextAsk(At(w, x)).None? && w.a.booking.status != Confirmed
    requires !Withholds(w.a, At(w, x)) && CaptureActor(w.a, At(w, x)) && Sane(w.a, At(w, x))
    ensures DepositAgrees(AfterRefundWrite(w, x)) && AllCaptureActors(AfterRefundWrite(w, x))
    ensures At(w, x).capture ==> DepositRepaid(AfterRefundWrite(w, x).a)
  {
    var z := AfterRefundWrite(w, x);
    if Deposit in At(w, x).read {
      assert Holds(w, x, Deposit);
      BooksOf(w, Deposit);
      assert !NobodyHolds(w, Deposit);
      assert CapturedTrue(w, Deposit, w.a.payments[Deposit].amount);
    }
    OthersStay(w, z, x);
  }

  lemma RowStepKeepsJoint(w: World, x: nat, e: Event)
    requires Joint(w) && !Breaks(w, e) && (e == ChargeWrite(x) || e == FailWrite(x) || e == CaptureWrite(x))
    ensures DepositAgrees(Apply(w, e)) && AllCaptureActors(Apply(w, e))
  {
    BooksOf(w, Deposit);
    assert Sane(w.a, At(w, x));
    assert CaptureActor(w.a, At(w, x));
    OthersStay(w, Apply(w, e), x);
  }

  lemma FirstReadKeepsJoint(w: World, e: Event)
    requires Joint(w)
    requires e.ChargeRead? || e.FailRead? || e.CaptureRead? || e.StylistConfirm? || e.RefundRead? || e.SettleRead?
    ensures DepositAgrees(Apply(w, e)) && AllCaptureActors(Apply(w, e))
  {
    BooksOf(w, Deposit);
    var z := Apply(w, e);
    assert CaptureActor(w.a, At(w, e.actor));
    OthersStay(w, z, e.actor);
  }

  lemma BookingStepKeepsJoint(w: World, e: Event)
    requires Joint(w) && (e.Tick? || e.MoveBooking? || e.SettleWrite?)
    ensures DepositAgrees(Apply(w, e)) && AllCaptureActors(Apply(w, e))
  {
    var x := if e.SettleWrite? then e.actor else 0;
    assert CaptureActor(w.a, At(w, x));
    OthersStay(w, Apply(w, e), x);
  }

  /** Exactly which steps keep booking and deposit in agreement, whatever captures, refunds and changes interleave. */
  lemma StepKeepsJointIff(w: World, e: Event)
    requires Joint(w)
    ensures Joint(Apply(w, e)) <==> !Breaks(w, e) && !Tears(w, e)
  {
    StepKeepsBooksIff(w, e);
    if Tears(w, e) {
      TearsBreakJoint(w, e);
    } else if !Breaks(w, e) {
      match e {
        case Tick(_) => BookingStepKeepsJoint(w, e);
        case MoveBooking(_, _) => BookingStepKeepsJoint(w, e);
        case ChargeWrite(x) => RowStepKeepsJoint(w, x, e);
        case FailWrite(x) => RowStepKeepsJoint(w, x, e);
        case CaptureWrite(x) => RowStepKeepsJoint(w, x, e);
        case ConfirmRead(x) => ConfirmReadKeepsJoint(w, x);
        case ConfirmWrite(x) => ConfirmWriteKeepsJoint(w, x);
        case RepairWrite(x) => RepairWriteKeepsJoint(w, x);
        case ExpiryRead(x) => ExpiryReadKeepsJoint(w, x);
        case Ask(x) => RefundStepKeepsJoint(w, x, e);
        case RefundWrite(x) => RefundStepKeepsJoint(w, x, e);
        case SettleWrite(_) => BookingStepKeepsJoint(w, e);
        case _ => FirstReadKeepsJoint(w, e);
      }
    }
  }

  /** No step breaks the books or tears booking from deposit. */
  ghost predicate Untorn(w: World, events: seq<Event>)
    decreases |events|
  {
    events == [] || (!Breaks(w, events[0]) && !Tears(w, events[0]) && Untorn(Apply(w, events[0]), events[1..]))
  }

  lemma {:induction false} RunKeepsJoint(w: World, events: seq<Event>)
    requires Joint(w) && Untorn(w, events)
    ensures Joint(Run(w, events))
    decreases |events|
  {
    if events == [] {
    } else {
      StepKeepsJointIff(w, events[0]);
      RunKeepsJoint(Apply(w, events[0]), events[1..]);
    }
  }

  /** Whether a step is the normal return of a deposit capture, and whether that reports the booking confirmed. */
  function Returned(w: World, e: Event): Option<bool> {
    if e.Tick? || e.MoveBooking? then None
    else match At(w, e.actor)
      case ConfirmReading(capture) =>
        if capture && e.ConfirmRead? && w.a.booking.status == Confirmed && w.a.booking.depositStatus == DepositPaid then Some(true) else None
      case ConfirmWriting(capture) => if capture && e.ConfirmWrite? && w.a.booking.status == Held then Some(true) else None
      case RepairWriting(capture) => if capture && e.RepairWrite? then Some(w.a.booking.status == Confirmed) else None
      case ExpiryReading => if e.ExpiryRead? && CapturedAmounts(w.a) == map[] then Some(false) else None
      case Refunding(_, _, _, capture) =>
        if capture && e.RefundWrite? && NextAsk(At(w, e.actor)).None? then Some(false) else None
      case _ => None
  }

  /** Every deposit capture that returns normally, in any such run, returns in exactly the joint state it reports. */
  lemma CapturesReturnJointly(a: Account, events: seq<Event>, e: Event)
    requires PT.Fresh(a) && a.booking.status == Held && Untorn(Start(a), events)
    requires !Breaks(Run(Start(a), events), e) && !Tears(Run(Start(a), events), e)
    requires Returned(Run(Start(a), events), e).Some?
    ensures
      var z := Apply(Run(Start(a), events), e).a;
      var confirmed := Returned(Run(Start(a), events), e).value;
      PT.ConfirmedAndPaid(z) == confirmed && PT.RefusedAndRepaid(z) == !confirmed
  {
    assert Joint(Start(a));
    RunKeepsJoint(Start(a), events);
    ReturnIsJoint(Run(Start(a), events), e);
  }

  lemma ReturnIsJoint(w: World, e: Event)
    requires Joint(w) && !Breaks(w, e) && !Tears(w, e) && Returned(w, e).Some?
    ensures
      var z := Apply(w, e).a;
      PT.ConfirmedAndPaid(z) == Returned(w, e).value && PT.RefusedAndRepaid(z) == !Returned(w, e).value
  {
    assert CaptureActor(w.a, At(w, e.actor)) && Sane(w.a, At(w, e.actor));
    BooksOf(w, Deposit);
    ExpiryReadFindsDeposit(w);
    if At(w, e.actor).Refunding? {
      WriteKeepsJoint(w, e.actor);
    }
  }

  // ---------- Marked paid, and collected ----------

  /** An actor of a capture goes on only once the deposit is collected. */
  predicate SeenCollected(a: Account, p: Actor) {
    match p
    case ConfirmReading(capture) => capture ==> Deposit in a.collected
    case ConfirmWriting(capture) => capture ==> Deposit in a.collected
    case RepairWriting(capture) => capture ==> Deposit in a.collected
    case _ => true
  }

  ghost predicate PaidIsCollected(w: World) {
    && (w.a.booking.depositStatus == DepositPaid ==> Deposit in w.a.collected)
    && forall x :: SeenCollected(w.a, At(w, x))
  }

  /** A stylist's confirmation that goes through, or repairs, while nothing was collected. */
  predicate ConfirmsUncollected(w: World, e: Event) {
    match e
    case ConfirmWrite(x) => At(w, x) == ConfirmWriting(false) && w.a.booking.status == Held && Deposit !in w.a.collected
    case RepairWrite(x) => At(w, x) == RepairWriting(false) && Deposit !in w.a.collected
    case _ => false
  }

  lemma OthersHaveSeen(w: World, z: World, x: nat)
    requires PaidIsCollected(w) && w.a.collected <= z.a.collected
    requires (forall y :: y != x ==> At(z, y) == At(w, y)) && SeenCollected(z.a, At(z, x))
    ensures forall y :: SeenCollected(z.a, At(z, y))
  {
    forall y ensures SeenCollected(z.a, At(z, y)) {
      assert SeenCollected(w.a, At(w, y));
    }
  }

  /** The booking row as a step leaves it: marked paid only by a confirmation, and only by one that goes through. */
  lemma MarksPaid(w: World, e: Event)
    requires w.a.booking.depositStatus != DepositPaid && Apply(w, e).a.booking.depositStatus == DepositPaid
    ensures
      || (e.ConfirmWrite? && At(w, e.actor).ConfirmWriting? && w.a.booking.status == Held)
      || (e.RepairWrite? && At(w, e.actor).RepairWriting?)
  {
  }

  lemma StepSeesCollected(w: World, e: Event)
    requires Books(w) && PaidIsCollected(w)
    ensures w.a.collected <= Apply(w, e).a.collected && forall y :: SeenCollected(Apply(w, e).a, At(Apply(w, e), y))
  {
    var x := if e.Tick? || e.MoveBooking? then 0 else e.actor;
    assert SeenCollected(w.a, At(w, x)) && Sane(w.a, At(w, x));
    BooksOf(w, Deposit);
    OthersHaveSeen(w, Apply(w, e), x);
  }

  /** A step keeps "marked paid means collected" exactly unless it is such a stylist's confirmation. */
  lemma StepKeepsPaidIff(w: World, e: Event)
    requires Books(w) && PaidIsCollected(w)
    ensures PaidIsCollected(Apply(w, e)) <==> !ConfirmsUncollected(w, e)
  {
    StepSeesCollected(w, e);
    if e.ConfirmWrite? || e.RepairWrite? {
      assert SeenCollected(w.a, At(w, e.actor));
    } else if w.a.booking.depositStatus != DepositPaid && Apply(w, e).a.booking.depositStatus == DepositPaid {
      MarksPaid(w, e);
    }
  }

  ghost predicate OnlyPaidConfirms(w: World, events: seq<Event>)
    decreases |events|
  {
    events == []
    || (!Breaks(w, events[0]) && !ConfirmsUncollected(w, events[0]) && OnlyPaidConfirms(Apply(w, events[0]), events[1..]))
  }

  /** So over any run without one, a booking marked paid has its deposit collected. */
  lemma {:induction false} RunKeepsPaid(w: World, events: seq<Event>)
    requires Books(w) && PaidIsCollected(w) && OnlyPaidConfirms(w, events)
    ensures PaidIsCollected(Run(w, events))
    decreases |events|
  {
    if events == [] {
    } else {
      StepKeepsBooksIff(w, events[0]);
      StepKeepsPaidIff(w, events[0]);
      RunKeepsPaid(Apply(w, events[0]), events[1..]);
    }
  }

  // ---------- Runs that go wrong ----------

  /** The stylist confirms a live hold: it is marked paid, though nobody paid. */
  lemma StylistMarksUnpaidPaid(a: Account)
    requires PT.Fresh(a) && a.booking.status == Held && !HoldLapsed(a)
    ensures
      var z := Run(Start(a), [StylistConfirm(0), ConfirmRead(0)] + [ConfirmWrite(0)]).a;
      z.booking.status == Confirmed && z.booking.depositStatus == DepositPaid && z.collected == {}
  {
    var w1 := World(a, map[0 := ConfirmReading(false)]);
    var w2 := World(a, map[0 := ConfirmWriting(false)]);
    Append(Run, Apply, Start(a), [StylistConfirm(0), ConfirmRead(0)], [ConfirmWrite(0)]);
    TwoSteps(Run, Apply, Start(a), StylistConfirm(0), ConfirmRead(0));
    assert Apply(Start(a), StylistConfirm(0)) == w1 && Apply(w1, ConfirmRead(0)) == w2;
    OneStep(Run, Apply, w2, ConfirmWrite(0));
  }

  /** Actor 0 charges the deposit and captures it; its confirmation is still to come. */
  function Collecting(m: Merchant): seq<Event> {
    [ChargeRead(0, Deposit, m), ChargeWrite(0), CaptureRead(0, Deposit), CaptureWrite(0)]
  }

  function WithDeposit(a: Account): Account {
    a.(payments := map[Deposit := Payment(a.booking.depositAmount, Captured, None)], collected := {Deposit})
  }

  lemma CollectingRun(a: Account, m: Merchant)
    requires PT.Fresh(a) && ChargeResult(a, Deposit, m).Ok?
    ensures Run(Start(a), Collecting(m)) == World(WithDeposit(a), map[0 := ConfirmReading(true)])
  {
    var pending := a.(payments := map[Deposit := Payment(a.booking.depositAmount, Pending, None)]);
    var w1 := World(a, map[0 := ChargeWriting(Deposit, a.booking.depositAmount)]);
    var w2 := World(pending, map[0 := Idle]);
    var w3 := World(pending, map[0 := CaptureWriting(Deposit)]);
    assert Apply(Start(a), ChargeRead(0, Deposit, m)) == w1;
    assert Apply(w1, ChargeWrite(0)) == w2;
    assert Apply(w2, CaptureRead(0, Deposit)) == w3;
    assert Apply(w3, CaptureWrite(0)).a == WithDeposit(a);
    FourSteps(Run, Apply, Start(a), ChargeRead(0, Deposit, m), ChargeWrite(0), CaptureRead(0, Deposit), CaptureWrite(0));
  }

  /** Two partial refunds that both read the deposit as captured before either writes. */
  function Overlapping(p: nat): seq<Event> {
    [RefundRead(1, Partial(p)), RefundRead(2, Partial(p)), Ask(1), Ask(2)] + [RefundWrite(1), RefundWrite(2)]
  }

  /** Both ask the provider, and the row records one of the two: the client is paid twice what the books say. */
  lemma OverlappingPartialsPayTwice(a: Account, m: Merchant, p: nat)
    requires PT.Fresh(a) && ChargeResult(a, Deposit, m).Ok? && 0 < p <= a.booking.depositAmount
    ensures
      var z := Run(Start(a), Collecting(m) + Overlapping(p)).a;
      && PT.Requested(z.requests, Deposit) == 2 * p
      && Deposit in z.payments && z.payments[Deposit].refundedAmount == Some(p)
      && PT.Taken(z, Deposit) + p == PT.Requested(z.requests, Deposit) + PT.Kept(z, Deposit)
  {
    CollectingRun(a, m);
    Append(Run, Apply, Start(a), Collecting(m), Overlapping(p));
    OverlapFrom(World(WithDeposit(a), map[0 := ConfirmReading(true)]), p);
  }

  function Partway(p: nat, dep: nat, asked: set<Kind>): Actor {
    Refunding(Partial(p), map[Deposit := dep], asked, false)
  }

  /** The account of one captured deposit, and nothing asked back. */
  predicate OneDeposit(a: Account) {
    && Deposit in a.payments && a.payments == map[Deposit := Payment(a.payments[Deposit].amount, Captured, None)]
    && a.payments[Deposit].amount > 0 && a.collected == {Deposit} && a.requests == []
  }

  lemma OneDepositRead(a: Account)
    requires OneDeposit(a)
    ensures CapturedAmounts(a) == map[Deposit := a.payments[Deposit].amount] && CapturedAmounts(a) != map[]
  {
    assert Deposit in CapturedAmounts(a);
  }

  lemma ReadsInTurn(w: World, p: nat)
    requires OneDeposit(w.a) && 0 < p <= w.a.payments[Deposit].amount && At(w, 1).Idle? && At(w, 2).Idle?
    ensures
      var partway := Partway(p, w.a.payments[Deposit].amount, {});
      Apply(Apply(w, RefundRead(1, Partial(p))), RefundRead(2, Partial(p))) == Becomes(Becomes(w, 1, partway), 2, partway)
  {
    OneDepositRead(w.a);
  }

  lemma WritesInTurn(w: World, p: nat, dep: nat)
    requires At(w, 1) == Partway(p, dep, {Deposit}) && At(w, 2) == Partway(p, dep, {Deposit})
    requires w.a.payments == map[Deposit := Payment(dep, Captured, None)]
    ensures
      var z := Apply(Apply(w, RefundWrite(1)), RefundWrite(2)).a;
      z.payments == map[Deposit := Payment(dep, Refunded, Some(p))] && z.requests == w.a.requests && z.collected == w.a.collected
  {
    assert NextAsk(Partway(p, dep, {Deposit})).None?;
    var mid := Apply(w, RefundWrite(1));
    assert mid == AfterRefundWrite(w, 1) && mid.a.payments == map[Deposit := Payment(dep, Refunded, Some(p))];
    assert Apply(mid, RefundWrite(2)) == AfterRefundWrite(mid, 2);
  }

  lemma OverlapFrom(w: World, p: nat)
    requires OneDeposit(w.a) && 0 < p <= w.a.payments[Deposit].amount && At(w, 1).Idle? && At(w, 2).Idle?
    ensures
      var z := Run(w, Overlapping(p)).a;
      && PT.Requested(z.requests, Deposit) == 2 * p && z.collected == w.a.collected
      && Deposit in z.payments && z.payments[Deposit] == Payment(w.a.payments[Deposit].amount, Refunded, Some(p))
  {
    var dep, r := w.a.payments[Deposit].amount, RefundRequest(Deposit, p);
    var w2 := Becomes(Becomes(w, 1, Partway(p, dep, {})), 2, Partway(p, dep, {}));
    var w4 := World(w.a.(requests := [r, r]), w2.actors[1 := Partway(p, dep, {Deposit})][2 := Partway(p, dep, {Deposit})]);
    ReadsInTurn(w, p);
    AsksInTurn(w2, p, dep, w4);
    WritesInTurn(w4, p, dep);
    FourSteps(Run, Apply, w, RefundRead(1, Partial(p)), RefundRead(2, Partial(p)), Ask(1), Ask(2));
    Append(Run, Apply, w, [RefundRead(1, Partial(p)), RefundRead(2, Partial(p)), Ask(1), Ask(2)], [RefundWrite(1), RefundWrite(2)]);
    TwoSteps(Run, Apply, w4, RefundWrite(1), RefundWrite(2));
    TwiceRequested(r);
  }

  lemma TwiceRequested(r: RefundRequest)
    ensures PT.Requested([r], r.kind) == r.pence && PT.Requested([r, r], r.kind) == 2 * r.pence
    ensures forall k :: k != r.kind ==> PT.Requested([r], k) == 0
  {
    PT.RequestedOfOne([], r, r.kind);
    PT.RequestedOfOne([r], r, r.kind);
    assert [] + [r] == [r] && [r] + [r] == [r, r];
    forall k | k != r.kind ensures PT.Requested([r], k) == 0 {
      PT.RequestedOfOne([], r, k);
    }
  }

  lemma AsksInTurn(w: World, p: nat, dep: nat, z: World)
    requires At(w, 1) == Partway(p, dep, {}) && At(w, 2) == Partway(p, dep, {}) && w.a.requests == []
    requires z == World(w.a.(requests := [RefundRequest(Deposit, p), RefundRequest(Deposit, p)]),
                        w.actors[1 := Partway(p, dep, {Deposit})][2 := Partway(p, dep, {Deposit})])
    ensures Apply(Apply(w, Ask(1)), Ask(2)) == z
  {
    var mid := Apply(w, Ask(1));
    assert NextAsk(Partway(p, dep, {})) == Some(Deposit) && Pence(Partial(p), map[Deposit := dep], Deposit) == p;
    assert mid == Asked(w, 1) && mid.a.requests == [RefundRequest(Deposit, p)];
    assert Apply(mid, Ask(2)) == Asked(mid, 2);
    assert {} + {Deposit} == {Deposit};
  }

  /** A retry reads the hold as expired while the first capture, which read it live, has yet to write. */
  function LateConfirmation(expiry: int): seq<Event> {
    [ConfirmRead(0), CaptureRead(1, Deposit), Tick(expiry), ConfirmRead(1)]
    + [ExpiryRead(1), ConfirmWrite(0), Ask(1), RefundWrite(1)]
  }

  /** The books stay true, but the booking ends confirmed with its deposit paid back: neither joint state. */
  lemma LateConfirmationTears(a: Account, m: Merchant)
    requires PT.Fresh(a) && ChargeResult(a, Deposit, m).Ok? && a.booking.holdExpiresAt.Some?
    ensures
      var z := Run(Start(a), Collecting(m) + LateConfirmation(a.booking.holdExpiresAt.value)).a;
      && z.booking.status == Confirmed && z.booking.depositStatus == DepositRefunded
      && PT.Requested(z.requests, Deposit) == PT.Taken(z, Deposit) == a.booking.depositAmount && PT.Reconciled(z)
      && !PT.ConfirmedAndPaid(z) && !PT.RefusedAndRepaid(z)
  {
    var h := a.booking.holdExpiresAt.value;
    var w := World(WithDeposit(a), map[0 := ConfirmReading(true)]);
    CollectingRun(a, m);
    Append(Run, Apply, Start(a), Collecting(m), LateConfirmation(h));
    LateConfirmationRun(w, h);
    BothHaveRead(w, h);
    LateConfirmationEnd(World(w.a.(clock := h), map[0 := ConfirmWriting(true), 1 := ExpiryReading]));
  }

  lemma LateConfirmationRun(w: World, h: int)
    ensures
      var z := Apply(Apply(Apply(Apply(w, ConfirmRead(0)), CaptureRead(1, Deposit)), Tick(h)), ConfirmRead(1));
      Run(w, LateConfirmation(h)) == Apply(Apply(Apply(Apply(z, ExpiryRead(1)), ConfirmWrite(0)), Ask(1)), RefundWrite(1))
  {
    var first := [ConfirmRead(0), CaptureRead(1, Deposit), Tick(h), ConfirmRead(1)];
    Append(Run, Apply, w, first, [ExpiryRead(1), ConfirmWrite(0), Ask(1), RefundWrite(1)]);
    FourSteps(Run, Apply, w, ConfirmRead(0), CaptureRead(1, Deposit), Tick(h), ConfirmRead(1));
    FourSteps(Run, Apply, Run(w, first), ExpiryRead(1), ConfirmWrite(0), Ask(1), RefundWrite(1));
  }

  /** Actor 0 read the hold live, actor 1 read it expired. */
  lemma BothHaveRead(w: World, h: int)
    requires OneDeposit(w.a) && w.actors == map[0 := ConfirmReading(true)]
    requires w.a.booking.status == Held && w.a.booking.holdExpiresAt == Some(h) && !HoldLapsed(w.a)
    ensures
      Apply(Apply(Apply(Apply(w, ConfirmRead(0)), CaptureRead(1, Deposit)), Tick(h)), ConfirmRead(1))
      == World(w.a.(clock := h), map[0 := ConfirmWriting(true), 1 := ExpiryReading])
  {
    var w2 := World(w.a, map[0 := ConfirmWriting(true), 1 := ConfirmReading(true)]);
    assert Apply(Apply(w, ConfirmRead(0)), CaptureRead(1, Deposit)) == w2;
    assert Apply(Apply(w2, Tick(h)), ConfirmRead(1)).actors == map[0 := ConfirmWriting(true), 1 := ExpiryReading];
  }

  lemma LateConfirmationEnd(w: World)
    requires OneDeposit(w.a) && w.a.booking.status == Held
    requires w.actors == map[0 := ConfirmWriting(true), 1 := ExpiryReading]
    ensures
      var z := Apply(Apply(Apply(Apply(w, ExpiryRead(1)), ConfirmWrite(0)), Ask(1)), RefundWrite(1)).a;
      && z.booking.status == Confirmed && z.booking.depositStatus == DepositRefunded
      && PT.Requested(z.requests, Deposit) == PT.Taken(z, Deposit) == w.a.payments[Deposit].amount && PT.Reconciled(z)
  {
    var dep := w.a.payments[Deposit].amount;
    var p := Refunding(Full, map[Deposit := dep], {}, true);
    OneDepositRead(w.a);
    assert AfterRefundRead(w.a, Full, true) == p;
    var w1 := Becomes(w, 1, p);
    assert Apply(w, ExpiryRead(1)) == w1;
    var w2 := Becomes(w1.(a := w.a.(booking := MarkedPaid(w.a.booking).(status := Confirmed))), 0, Idle);
    assert Apply(w1, ConfirmWrite(0)) == w2;
    RefundOfOneDeposit(w2, p);
  }

  lemma AskOfOneDeposit(w: World, p: Actor)
    requires OneDeposit(w.a) && At(w, 1) == p == Refunding(Full, map[Deposit := w.a.payments[Deposit].amount], {}, true)
    ensures
      var r := RefundRequest(Deposit, w.a.payments[Deposit].amount);
      Apply(w, Ask(1)) == Becomes(w.(a := w.a.(requests := [r])), 1, p.(asked := {Deposit}))
  {
    assert NextAsk(p) == Some(Deposit) && Pence(Full, p.read, Deposit) == w.a.payments[Deposit].amount;
    assert w.a.requests + [RefundRequest(Deposit, w.a.payments[Deposit].amount)] == [RefundRequest(Deposit, w.a.payments[Deposit].amount)];
    assert {} + {Deposit} == {Deposit} && Apply(w, Ask(1)) == Asked(w, 1);
  }

  lemma WriteOfOneDeposit(w: World, dep: nat)
    requires At(w, 1) == Refunding(Full, map[Deposit := dep], {Deposit}, true)
    requires w.a.payments == map[Deposit := Payment(dep, Captured, None)]
    ensures
      var z := Apply(w, RefundWrite(1)).a;
      && z.payments == map[Deposit := Payment(dep, Refunded, Some(dep))] && z.requests == w.a.requests
      && z.collected == w.a.collected && z.booking.status == w.a.booking.status && z.booking.depositStatus == DepositRefunded
  {
    assert NextAsk(At(w, 1)).None?;
    assert Apply(w, RefundWrite(1)) == AfterRefundWrite(w, 1);
  }

  lemma RefundOfOneDeposit(w: World, p: Actor)
    requires OneDeposit(w.a) && At(w, 1) == p == Refunding(Full, map[Deposit := w.a.payments[Deposit].amount], {}, true)
    ensures
      var z := Apply(Apply(w, Ask(1)), RefundWrite(1)).a;
      && z.booking.status == w.a.booking.status && z.booking.depositStatus == DepositRefunded
      && PT.Requested(z.requests, Deposit) == PT.Taken(z, Deposit) == w.a.payments[Deposit].amount && PT.Reconciled(z)
  {
    var dep := w.a.payments[Deposit].amount;
    AskOfOneDeposit(w, p);
    WriteOfOneDeposit(Apply(w, Ask(1)), dep);
    TwiceRequested(RefundRequest(Deposit, dep));
  }

  /** The capture finds the hold expired; before its refund reads, the client cancels late and forfeits the deposit. */
  function ForfeitMeanwhile(expiry: int): seq<Event> {
    [Tick(expiry), ConfirmRead(0), MoveBooking(Held, Cancelled), RefundRead(1, Forfeit)] + [RefundWrite(1)]
  }

  /** The capture then returns normally, refusing the booking, and the deposit is kept: neither joint state. */
  lemma ForfeitedUnderACapture(a: Account, m: Merchant)
    requires PT.Fresh(a) && ChargeResult(a, Deposit, m).Ok? && a.booking.holdExpiresAt.Some?
    ensures
      var w := Run(Start(a), Collecting(m) + ForfeitMeanwhile(a.booking.holdExpiresAt.value));
      var z := Apply(w, ExpiryRead(0)).a;
      && Returned(w, ExpiryRead(0)) == Some(false) && !Breaks(w, ExpiryRead(0)) && !Tears(w, ExpiryRead(0))
      && z.booking.status == Cancelled && z.booking.depositStatus == DepositForfeited && PT.Reconciled(z)
      && PT.Kept(z, Deposit) == PT.Taken(z, Deposit) == a.booking.depositAmount > 0 == PT.Requested(z.requests, Deposit)
      && !PT.ConfirmedAndPaid(z) && !PT.RefusedAndRepaid(z)
  {
    var h := a.booking.holdExpiresAt.value;
    var w := World(WithDeposit(a), map[0 := ConfirmReading(true)]);
    var w2 := World(WithDeposit(a).(clock := h), map[0 := ExpiryReading]);
    CollectingRun(a, m);
    Append(Run, Apply, Start(a), Collecting(m), ForfeitMeanwhile(h));
    assert Apply(Apply(w, Tick(h)), ConfirmRead(0)) == w2;
    ForfeitMeanwhileRun(w, h);
    ForfeitedMeanwhile(w2);
    RefusedButKept(Run(w, ForfeitMeanwhile(h)));
  }

  lemma ForfeitMeanwhileRun(w: World, h: int)
    ensures
      var w2 := Apply(Apply(w, Tick(h)), ConfirmRead(0));
      Run(w, ForfeitMeanwhile(h)) == Apply(Apply(Apply(w2, MoveBooking(Held, Cancelled)), RefundRead(1, Forfeit)), RefundWrite(1))
  {
    Append(Run, Apply, w, [Tick(h), ConfirmRead(0), MoveBooking(Held, Cancelled), RefundRead(1, Forfeit)], [RefundWrite(1)]);
    FourSteps(Run, Apply, w, Tick(h), ConfirmRead(0), MoveBooking(Held, Cancelled), RefundRead(1, Forfeit));
    OneStep(Run, Apply, Run(w, [Tick(h), ConfirmRead(0), MoveBooking(Held, Cancelled), RefundRead(1, Forfeit)]), RefundWrite(1));
  }

  lemma RefusedButKept(w: World)
    requires At(w, 0) == ExpiryReading && w.a.collected == {Deposit} && w.a.requests == []
    requires Deposit in w.a.payments && w.a.payments == map[Deposit := Payment(w.a.payments[Deposit].amount, Forfeited, None)]
    requires w.a.payments[Deposit].amount > 0
    ensures Returned(w, ExpiryRead(0)) == Some(false) && Apply(w, ExpiryRead(0)).a == w.a
    ensures PT.Reconciled(w.a) && PT.Kept(w.a, Deposit) == PT.Taken(w.a, Deposit) == w.a.payments[Deposit].amount
  {
    assert CapturedAmounts(w.a) == map[];
  }

  lemma ForfeitIsRead(w: World)
    requires OneDeposit(w.a) && At(w, 1).Idle?
    ensures Apply(w, RefundRead(1, Forfeit)) == Becomes(w, 1, Refunding(Forfeit, map[Deposit := w.a.payments[Deposit].amount], {}, false))
  {
    OneDepositRead(w.a);
  }

  lemma ForfeitIsWritten(w: World, dep: nat)
    requires At(w, 1) == Refunding(Forfeit, map[Deposit := dep], {}, false) && w.a.payments == map[Deposit := Payment(dep, Captured, None)]
    ensures
      var z := Apply(w, RefundWrite(1));
      && At(z, 0) == At(w, 0) && z.a.booking.status == w.a.booking.status && z.a.booking.depositStatus == DepositForfeited
      && z.a.payments == map[Deposit := Payment(dep, Forfeited, None)]
      && z.a.collected == w.a.collected && z.a.requests == w.a.requests
  {
    assert NextAsk(At(w, 1)).None?;
    assert Apply(w, RefundWrite(1)) == AfterRefundWrite(w, 1);
  }

  lemma ForfeitedMeanwhile(w: World)
    requires OneDeposit(w.a) && w.a.booking.status == Held && w.actors == map[0 := ExpiryReading]
    ensures
      var dep := w.a.payments[Deposit].amount;
      var z := Apply(Apply(Apply(w, MoveBooking(Held, Cancelled)), RefundRead(1, Forfeit)), RefundWrite(1));
      && At(z, 0) == ExpiryReading && z.a.booking.status == Cancelled && z.a.booking.depositStatus == DepositForfeited
      && z.a.payments == map[Deposit := Payment(dep, Forfeited, None)] && z.a.collected == {Deposit} && z.a.requests == []
  {
    var dep := w.a.payments[Deposit].amount;
    var w1 := w.(a := w.a.(booking := Moved(w.a.booking, Cancelled)));
    assert Apply(w, MoveBooking(Held, Cancelled)) == w1;
    ForfeitIsRead(w1);
    ForfeitIsWritten(Becomes(w1, 1, Refunding(Forfeit, map[Deposit := dep], {}, false)), dep);
  }
}
