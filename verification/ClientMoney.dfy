/**
 * What the client has really paid, kept apart from what the service records: online through the provider, and in person
 * to the stylist. A success webhook comes only for a payment that was made, and a sync learns from the provider whether
 * it was. Each call of the service runs to completion.
 */
module ClientMoney {
  import opened Common
  import opened Runs
  import opened Payments
  import PT = PaymentTheorems

  datatype World = World(
    a: Account,
    paid: set<Kind>,     // charges the client has paid online
    cash: nat)           // what the client has handed over in person

  datatype Event = Pay(kind: Kind) | Call(call: PT.Event)

  /** What the client and the provider can do: pay a charge that exists, and tell the truth about it. */
  predicate Possible(w: World, e: Event) {
    match e
    case Pay(kind) => kind in w.a.payments
    case Call(Capture(kind)) => kind in w.paid
    case Call(Sync(kind, succeeded)) => succeeded <==> kind in w.paid
    case _ => true
  }

  /** The stylist takes the rest of the price in person: after the deposit is paid, and not when the rest is. */
  predicate TakesCash(w: World, e: Event) {
    && e == Call(PT.PayInPerson) && (w.a.booking.status == Confirmed || w.a.booking.status == Completed)
    && w.a.booking.depositStatus == DepositPaid
    && w.a.booking.balanceStatus != PaidOnline && w.a.booking.balanceStatus != PaidInPerson
    && w.a.booking.agreedPrice > w.a.booking.depositAmount
  }

  function Apply(w: World, e: Event): World {
    match e
    case Pay(kind) => w.(paid := w.paid + {kind})
    case Call(call) =>
      w.(a := PT.Apply(w.a, call),
         cash := if TakesCash(w, e) then w.cash + (w.a.booking.agreedPrice - w.a.booking.depositAmount) else w.cash)
  }

  function Run(w: World, events: seq<Event>): World
    decreases |events|
  {
    if events == [] then w else Run(Apply(w, events[0]), events[1..])
  }

  predicate PossibleRun(w: World, events: seq<Event>)
    decreases |events|
  {
    events == [] || (Possible(w, events[0]) && PossibleRun(Apply(w, events[0]), events[1..]))
  }

  function Start(a: Account): World {
    World(a, {}, 0)
  }

  // ---------- Online ----------

  /** The row says that the client's money came in, whatever became of it. */
  predicate SaysTaken(p: Payment) {
    p.status == Captured || p.status == Refunded || p.status == Forfeited
  }

  predicate RowsAreReal(w: World) {
    w.a.collected <= w.paid && forall kind :: kind in w.a.payments && SaysTaken(w.a.payments[kind]) ==> kind in w.paid
  }

  lemma StepKeepsRowReal(w: World, e: Event, kind: Kind)
    requires Possible(w, e) && RowsAreReal(w)
    ensures
      var z := Apply(w, e);
      (kind in z.a.collected ==> kind in z.paid) && (kind in z.a.payments && SaysTaken(z.a.payments[kind]) ==> kind in z.paid)
  {
  }

  lemma StepKeepsReal(w: World, e: Event)
    requires Possible(w, e) && RowsAreReal(w)
    ensures RowsAreReal(Apply(w, e))
  {
    forall kind: Kind
      ensures kind in Apply(w, e).a.collected ==> kind in Apply(w, e).paid
      ensures kind in Apply(w, e).a.payments && SaysTaken(Apply(w, e).a.payments[kind]) ==> kind in Apply(w, e).paid
    {
      StepKeepsRowReal(w, e, kind);
    }
  }

  lemma {:induction false} RunKeepsReal(w: World, events: seq<Event>)
    requires RowsAreReal(w) && PossibleRun(w, events)
    ensures RowsAreReal(Run(w, events))
    decreases |events|
  {
    if events == [] {
    } else {
      StepKeepsReal(w, events[0]);
      RunKeepsReal(Apply(w, events[0]), events[1..]);
    }
  }

  /** Over every run, a payment is recorded as captured, paid back or forfeited only if the client really made it. */
  lemma CapturedOnlyIfPaid(a: Account, events: seq<Event>, kind: Kind)
    requires PT.Fresh(a) && PossibleRun(Start(a), events)
    ensures
      var z := Run(Start(a), events);
      kind in z.a.payments && z.a.payments[kind].status in {Captured, Refunded, Forfeited} ==> kind in z.paid
  {
    RunKeepsReal(Start(a), events);
  }

  /** A sync of a pending payment changes the account exactly if the payment was made, and refuses otherwise. */
  lemma SyncActsIff(w: World, kind: Kind, succeeded: bool)
    requires Possible(w, Call(PT.Sync(kind, succeeded))) && kind in w.a.payments && w.a.payments[kind].status == Pending
    ensures
      var z := Apply(w, Call(PT.Sync(kind, succeeded))).a;
      && (z != w.a <==> kind in w.paid) && (kind in w.paid ==> kind in z.payments && SaysTaken(z.payments[kind]))
      && (kind !in w.paid ==> SyncResult(w.a, kind, succeeded) == Err(Conflict))
  {
    var z := Apply(w, Call(PT.Sync(kind, succeeded))).a;
    if kind in w.paid {
      assert kind in z.payments && z.payments[kind].status != Pending;
    }
  }

  /** Marked as confirmed and paid, and really paid. */
  predicate PaidIfMarked(w: World) {
    w.a.booking.depositStatus == DepositPaid ==> Deposit in w.paid
  }

  lemma StepKeepsPaidIfMarked(w: World, e: Event)
    requires Possible(w, e) && RowsAreReal(w) && PaidIfMarked(w) && e != Call(PT.StylistConfirm)
    ensures PaidIfMarked(Apply(w, e))
  {
  }

  /** Over every run without a stylist's confirmation, a booking is marked paid only if the client paid its deposit. */
  lemma {:induction false} MarkedOnlyIfPaid(w: World, events: seq<Event>)
    requires RowsAreReal(w) && PaidIfMarked(w) && PossibleRun(w, events) && Call(PT.StylistConfirm) !in events
    ensures PaidIfMarked(Run(w, events))
    decreases |events|
  {
    if events == [] {
    } else {
      assert events[0] in events;
      StepKeepsReal(w, events[0]);
      StepKeepsPaidIfMarked(w, events[0]);
      MarkedOnlyIfPaid(Apply(w, events[0]), events[1..]);
    }
  }

  // ---------- In person ----------

  /** The stylist's mark lands exactly when the money is taken, or was marked already. */
  lemma CashIsMarkedIff(w: World)
    ensures
      Apply(w, Call(PT.PayInPerson)).a.booking.balanceStatus == PaidInPerson
      <==> w.a.booking.balanceStatus == PaidInPerson || TakesCash(w, Call(PT.PayInPerson))
  {
  }

  /** While it is marked, the balance cannot be charged. */
  lemma MarkedBalanceIsNotCharged(a: Account, m: Merchant)
    requires a.booking.balanceStatus == PaidInPerson || a.booking.balanceStatus == PaidOnline
    ensures ChargeResult(a, Balance, m).Err? && AfterCharge(a, Balance, m) == a
  {
  }

  function HeldOnline(a: Account, kind: Kind): nat {
    if kind in a.payments && a.payments[kind].status == Captured then a.payments[kind].amount else 0
  }

  /** The rest of the price is held once at most, online or in person; rows carry the agreed amounts. */
  predicate RestIsPaidOnce(w: World) {
    && PT.ChargedAsAgreed(w.a) && w.a.booking.depositAmount <= w.a.booking.agreedPrice
    && (w.cash == 0 || (w.cash == w.a.booking.agreedPrice - w.a.booking.depositAmount && !HasCaptured(w.a, Balance)))
  }

  /** A capture of the balance after it was paid in person, or taking it in person while it is held already. */
  predicate TakesRestAgain(w: World, e: Event) {
    match e
    case Call(Capture(kind)) => kind == Balance && Balance in w.a.payments && w.cash > 0
    case Call(Sync(kind, succeeded)) =>
      kind == Balance && Balance in w.a.payments && w.a.payments[Balance].status == Pending && succeeded && w.cash > 0
    case _ => TakesCash(w, e) && (w.cash > 0 || HasCaptured(w.a, Balance))
  }

  lemma StepKeepsCaptured(a: Account, e: PT.Event)
    ensures
      HasCaptured(PT.Apply(a, e), Balance) ==>
        || HasCaptured(a, Balance) || (e == PT.Capture(Balance) && Balance in a.payments)
        || (e == PT.Sync(Balance, true) && Balance in a.payments && a.payments[Balance].status == Pending)
    ensures
      e == PT.Capture(Balance) && Balance in a.payments ==> HasCaptured(PT.Apply(a, e), Balance)
    ensures
      e == PT.Sync(Balance, true) && Balance in a.payments && a.payments[Balance].status == Pending ==> HasCaptured(PT.Apply(a, e), Balance)
    ensures e == PT.PayInPerson ==> PT.Apply(a, e).payments == a.payments
  {
  }

  /** Exactly which steps make the client pay the rest of the price twice. */
  lemma StepKeepsRestPaidOnceIff(w: World, e: Event)
    requires RestIsPaidOnce(w)
    ensures RestIsPaidOnce(Apply(w, e)) <==> !TakesRestAgain(w, e)
  {
    if e.Call? {
      PT.StepKeepsTerms(w.a, e.call);
      PT.StepChargesAsAgreed(w.a, e.call);
      StepKeepsCaptured(w.a, e.call);
    }
  }

  predicate NeverAgain(w: World, events: seq<Event>)
    decreases |events|
  {
    events == [] || (!TakesRestAgain(w, events[0]) && NeverAgain(Apply(w, events[0]), events[1..]))
  }

  lemma {:induction false} RunKeepsRestPaidOnce(w: World, events: seq<Event>)
    requires RestIsPaidOnce(w) && NeverAgain(w, events)
    ensures RestIsPaidOnce(Run(w, events)) && Run(w, events).a.booking.agreedPrice == w.a.booking.agreedPrice
    decreases |events|
  {
    if events == [] {
    } else {
      StepKeepsRestPaidOnceIff(w, events[0]);
      if events[0].Call? { PT.StepKeepsTerms(w.a, events[0].call); }
      RunKeepsRestPaidOnce(Apply(w, events[0]), events[1..]);
    }
  }

  /** So over every run without such a step, online and in person together the price is never exceeded. */
  lemma NeverAboveThePrice(a: Account, events: seq<Event>)
    requires PT.Fresh(a) && a.booking.depositAmount <= a.booking.agreedPrice && NeverAgain(Start(a), events)
    ensures
      var z := Run(Start(a), events);
      HeldOnline(z.a, Deposit) + HeldOnline(z.a, Balance) + z.cash <= a.booking.agreedPrice
  {
    RunKeepsRestPaidOnce(Start(a), events);
  }

  /** The balance is charged and still unpaid when the stylist takes it in person; the client pays it online as well. */
  function CashThenCard(): seq<Event> {
    [Call(PT.PayInPerson), Pay(Balance), Call(PT.Capture(Balance))]
  }

  /** A new hold's deposit is charged, paid and captured, and the rest charged. */
  function Opening(m: Merchant): seq<Event> {
    [Call(PT.Charge(Deposit, m)), Pay(Deposit), Call(PT.Capture(Deposit)), Call(PT.Charge(Balance, m))]
  }

  predicate ChargesBoth(a: Account, m: Merchant) {
    && PT.Fresh(a) && ChargeResult(a, Deposit, m).Ok? && a.booking.balanceOnline
    && a.booking.agreedPrice > a.booking.depositAmount
  }

  function Opened(a: Account, m: Merchant): World
    requires ChargesBoth(a, m)
  {
    var b := a.booking;
    var rest := b.agreedPrice - b.depositAmount;
    var rows := map[Deposit := Payment(b.depositAmount, Captured, None), Balance := Payment(rest, Pending, None)];
    var confirmed := b.(status := Confirmed, depositStatus := DepositPaid, holdExpiresAt := None, balanceStatus := Due);
    World(a.(payments := rows, collected := {Deposit}, booking := confirmed), {Deposit}, 0)
  }

  lemma OpeningRun(a: Account, m: Merchant)
    requires ChargesBoth(a, m)
    ensures Run(Start(a), Opening(m)) == Opened(a, m) && PossibleRun(Start(a), Opening(m))
  {
    var w1 := Apply(Start(a), Call(PT.Charge(Deposit, m)));
    assert w1.a == a.(payments := map[Deposit := Payment(a.booking.depositAmount, Pending, None)]);
    var w2 := Apply(w1, Pay(Deposit));
    var w3 := Apply(w2, Call(PT.Capture(Deposit)));
    assert w3.a.payments == map[Deposit := Payment(a.booking.depositAmount, Captured, None)] && w3.a.collected == {Deposit};
    FourSteps(Run, Apply, Start(a), Call(PT.Charge(Deposit, m)), Pay(Deposit), Call(PT.Capture(Deposit)), Call(PT.Charge(Balance, m)));
    assert Apply(w3, Call(PT.Charge(Balance, m))) == Opened(a, m);
    FourPossible(Start(a), Call(PT.Charge(Deposit, m)), Pay(Deposit), Call(PT.Capture(Deposit)), Call(PT.Charge(Balance, m)));
  }

  lemma FourPossible(w: World, e: Event, f: Event, g: Event, h: Event)
    requires Possible(w, e) && Possible(Apply(w, e), f) && Possible(Apply(Apply(w, e), f), g)
    requires Possible(Apply(Apply(Apply(w, e), f), g), h)
    ensures PossibleRun(w, [e, f, g, h])
  {
    assert [e, f, g, h][1..] == [f, g, h] && [f, g, h][1..] == [g, h] && [g, h][1..] == [h] && [h][1..] == [];
    assert PossibleRun(Apply(Apply(Apply(w, e), f), g), [h]);
    assert PossibleRun(Apply(Apply(w, e), f), [g, h]);
    assert PossibleRun(Apply(w, e), [f, g, h]);
  }

  lemma ThreePossible(w: World, e: Event, f: Event, g: Event)
    requires Possible(w, e) && Possible(Apply(w, e), f) && Possible(Apply(Apply(w, e), f), g)
    ensures PossibleRun(w, [e, f, g])
  {
    assert [e, f, g][1..] == [f, g] && [f, g][1..] == [g] && [g][1..] == [];
    assert PossibleRun(Apply(Apply(w, e), f), [g]);
    assert PossibleRun(Apply(w, e), [f, g]);
  }

  lemma {:induction false} PossibleAppend(w: World, first: seq<Event>, rest: seq<Event>)
    requires PossibleRun(w, first) && PossibleRun(Run(w, first), rest)
    ensures PossibleRun(w, first + rest)
    decreases |first|
  {
    if first == [] {
      assert first + rest == rest;
    } else {
      PossibleAppend(Apply(w, first[0]), first[1..], rest);
      assert (first + rest)[1..] == first[1..] + rest;
    }
  }

  lemma CashThenCardFrom(w: World, m: Merchant)
    requires ChargeResult(w.a, Balance, m).Ok? && Balance in w.a.payments && w.cash == 0
    ensures
      var z := Run(w, CashThenCard());
      && PossibleRun(w, CashThenCard()) && z.a.booking.balanceStatus == PaidOnline
      && z.cash == w.a.booking.agreedPrice - w.a.booking.depositAmount && HeldOnline(z.a, Deposit) == HeldOnline(w.a, Deposit)
      && HeldOnline(z.a, Balance) == w.a.payments[Balance].amount
  {
    ThreeSteps(Run, Apply, w, Call(PT.PayInPerson), Pay(Balance), Call(PT.Capture(Balance)));
    ThreePossible(w, Call(PT.PayInPerson), Pay(Balance), Call(PT.Capture(Balance)));
  }

  /** The capture goes through, and the client has paid the rest of the price twice. */
  lemma CashThenCardPaysTwice(a: Account, m: Merchant)
    requires ChargesBoth(a, m)
    ensures
      var z := Run(Start(a), Opening(m) + CashThenCard());
      && PossibleRun(Start(a), Opening(m) + CashThenCard())
      && HeldOnline(z.a, Deposit) + HeldOnline(z.a, Balance) == a.booking.agreedPrice
      && z.cash == a.booking.agreedPrice - a.booking.depositAmount > 0
  {
    OpeningRun(a, m);
    CashThenCardFrom(Opened(a, m), m);
    PossibleAppend(Start(a), Opening(m), CashThenCard());
    Append(Run, Apply, Start(a), Opening(m), CashThenCard());
  }
}
