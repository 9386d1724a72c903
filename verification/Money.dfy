/**
 * Deposit, balance and the money summary of a booking. Prices are pounds as exact numbers; the source's rounding to
 * the penny is modelled, its floating-point error is not. A price is whole pence: its column has two decimals.
 */
module Money {
  import opened Common
  import Payments

  datatype DepositPolicy = Flat(value: real) | Percent(value: real)

  type BalanceStatus = Payments.BalanceStatus

  datatype MoneySummary = MoneySummary(balanceAmount: real, remainingToPay: real, totalPaid: real, stylistExpectedTotal: real)

  /** Rounds half up, also for negative numbers. */
  function MathRound(x: real): int {
    (x + 0.5).Floor
  }

  function RoundToPenny(pounds: real): real {
    MathRound(pounds * 100.0) as real / 100.0
  }

  function ToPence(pounds: real): int {
    MathRound(pounds * 100.0)
  }

  function Pounds(pence: int): real {
    pence as real / 100.0
  }

  predicate WholePence(pounds: real) {
    pounds == Pounds(ToPence(pounds))
  }

  function AtLeastZero(x: real): real {
    if x < 0.0 then 0.0 else x
  }

  function CalculateBalanceAmount(agreedPrice: real, depositAmount: real): real {
    AtLeastZero(RoundToPenny(agreedPrice - depositAmount))
  }

  function Share(price: real, percent: real): real {
    price * percent / 100.0
  }

  function CalculateDepositAmount(basePrice: real, policy: Option<DepositPolicy>): real {
    match policy
    case None => 0.0
    case Some(Flat(value)) => if basePrice < value then basePrice else value
    case Some(Percent(value)) => RoundToPenny(Share(basePrice, value))
  }

  // ---------- Rounding ----------

  lemma PenceRoundTrip(pence: int)
    ensures ToPence(Pounds(pence)) == pence && WholePence(Pounds(pence))
  {
    assert Pounds(pence) * 100.0 == pence as real;
  }

  lemma MathRoundIsNearest(x: real)
    ensures -0.5 <= x - MathRound(x) as real < 0.5
  {
  }

  lemma RoundingIsNearest(x: real)
    ensures WholePence(RoundToPenny(x))
    ensures -0.005 <= x - RoundToPenny(x) < 0.005
  {
    PenceRoundTrip(MathRound(x * 100.0));
    MathRoundIsNearest(x * 100.0);
  }

  lemma MathRoundIsMonotone(x: real, y: real)
    requires x <= y
    ensures MathRound(x) <= MathRound(y)
  {
  }

  lemma RoundingIsMonotone(x: real, y: real)
    requires x <= y
    ensures RoundToPenny(x) <= RoundToPenny(y)
  {
    MathRoundIsMonotone(x * 100.0, y * 100.0);
  }

  lemma WholePenceIsKept(x: real)
    requires WholePence(x)
    ensures RoundToPenny(x) == x
  {
  }

  lemma WholePenceDifference(x: real, y: real)
    requires WholePence(x) && WholePence(y)
    ensures WholePence(x - y) && ToPence(x - y) == ToPence(x) - ToPence(y)
  {
    PenceRoundTrip(ToPence(x) - ToPence(y));
    assert x - y == Pounds(ToPence(x) - ToPence(y));
  }

  lemma ShareOfPrice(price: real, percent: real)
    requires price >= 0.0 && 0.0 <= percent <= 100.0
    ensures 0.0 <= Share(price, percent) <= price
  {
    assert price * (100.0 - percent) >= 0.0;
  }

  // ---------- Deposit and balance ----------

  /**
   * A percentage up to 100 gives a deposit of whole pence between zero and the price, within half a penny of the
   * exact share.
   */
  lemma PercentDepositIsTheShare(price: real, percent: real)
    requires WholePence(price) && price >= 0.0 && 0.0 <= percent <= 100.0
    ensures
      var d := CalculateDepositAmount(price, Some(Percent(percent)));
      0.0 <= d <= price && WholePence(d) && -0.005 <= Share(price, percent) - d < 0.005
  {
    ShareOfPrice(price, percent);
    DepositOfShare(price, Share(price, percent));
  }

  lemma DepositOfShare(price: real, share: real)
    requires WholePence(price) && 0.0 <= share <= price
    ensures 0.0 <= RoundToPenny(share) <= price && WholePence(RoundToPenny(share)) && -0.005 <= share - RoundToPenny(share) < 0.005
  {
    RoundingIsNearest(share);
    RoundingIsMonotone(share, price);
    RoundingIsMonotone(0.0, share);
    WholePenceIsKept(price);
  }

  lemma FlatDepositIsCapped(price: real, value: real)
    requires WholePence(price) && WholePence(value) && price >= 0.0 && value >= 0.0
    ensures
      var d := CalculateDepositAmount(price, Some(Flat(value)));
      0.0 <= d <= price && WholePence(d) && (d == value || d == price < value)
  {
  }

  /** The two charges in pence add up to the agreed price exactly when the deposit does not exceed it. */
  lemma ChargesAddUpIff(agreed: real, deposit: real)
    requires WholePence(agreed) && WholePence(deposit) && deposit >= 0.0
    ensures ToPence(deposit) + ToPence(CalculateBalanceAmount(agreed, deposit)) == ToPence(agreed) <==> deposit <= agreed
  {
    WholePenceDifference(agreed, deposit);
    WholePenceIsKept(agreed - deposit);
    assert ToPence(0.0) == 0;
  }

  /** In pence, the balance is the truncated difference that the payment model charges. */
  lemma BalanceInPence(b: Payments.Booking)
    ensures
      ToPence(CalculateBalanceAmount(Pounds(b.agreedPrice), Pounds(b.depositAmount))) == Payments.BalanceAmount(b)
  {
    PenceRoundTrip(b.agreedPrice);
    PenceRoundTrip(b.depositAmount);
    WholePenceDifference(Pounds(b.agreedPrice), Pounds(b.depositAmount));
    WholePenceIsKept(Pounds(b.agreedPrice) - Pounds(b.depositAmount));
    assert ToPence(0.0) == 0;
  }

  /** Whatever the policy (a percentage being at most 100), deposit charge plus balance charge is the agreed price. */
  lemma EveryPolicySplitsThePrice(price: real, policy: Option<DepositPolicy>)
    requires WholePence(price) && price >= 0.0
    requires policy.Some? ==> policy.value.value >= 0.0 && WholePence(policy.value.value)
    requires policy.Some? && policy.value.Percent? ==> policy.value.value <= 100.0
    ensures
      var d := CalculateDepositAmount(price, policy);
      0 <= ToPence(d) <= ToPence(price) && ToPence(d) + ToPence(CalculateBalanceAmount(price, d)) == ToPence(price)
      && (policy.None? ==> ToPence(d) == 0)
  {
    var d := CalculateDepositAmount(price, policy);
    match policy {
      case None => assert WholePence(0.0);
      case Some(Flat(value)) => FlatDepositIsCapped(price, value);
      case Some(Percent(value)) => PercentDepositIsTheShare(price, value);
    }
    ChargesAddUpIff(price, d);
    WholePenceDifference(price, d);
    assert ToPence(price - d) >= 0 && ToPence(d) >= 0;
  }

  // ---------- The money summary ----------

  predicate DepositCounted(d: DepositStatus) {
    d.DepositPaid? || d.DepositForfeited?
  }

  predicate BalanceCounted(b: BalanceStatus) {
    b.PaidOnline? || b.PaidInPerson?
  }

  predicate Ended(status: BookingStatus) {
    status.Cancelled? || status.NoShow?
  }

  /**
   * In every deposit and balance state the paid and remaining parts make up the agreed price, unless a deposit above
   * the agreed price counts as paid. The stylist expects the whole price once the deposit of a live booking counts.
   */
  method DeriveMoneySummary(
      status: BookingStatus, agreed: real, deposit: real, depositStatus: DepositStatus, balanceStatus: BalanceStatus)
    returns (m: MoneySummary)
    requires WholePence(agreed) && WholePence(deposit) && agreed >= 0.0 && deposit >= 0.0
    ensures m.balanceAmount == if deposit <= agreed then agreed - deposit else 0.0
    ensures m.totalPaid + m.remainingToPay == agreed <==> (DepositCounted(depositStatus) ==> deposit <= agreed)
    ensures m.totalPaid ==
            (if DepositCounted(depositStatus) then deposit else 0.0) + (if BalanceCounted(balanceStatus) then m.balanceAmount else 0.0)
    ensures !Ended(status) && DepositCounted(depositStatus) && deposit <= agreed ==> m.stylistExpectedTotal == agreed
    ensures !Ended(status) && !DepositCounted(depositStatus) ==> m.stylistExpectedTotal == m.totalPaid
    ensures Ended(status) && !depositStatus.DepositRefunded? ==> m.stylistExpectedTotal == m.totalPaid
    ensures Ended(status) && depositStatus.DepositRefunded? ==>
            m.stylistExpectedTotal == if balanceStatus.PaidInPerson? then m.balanceAmount else 0.0
  {
    WholePenceDifference(agreed, deposit);
    WholePenceIsKept(agreed - deposit);
    var balanceAmount := CalculateBalanceAmount(agreed, deposit);
    var paid := 0.0;
    if DepositCounted(depositStatus) {
      paid := paid + deposit;
    }
    if BalanceCounted(balanceStatus) {
      paid := paid + balanceAmount;
    }
    var remaining := AtLeastZero(RoundToPenny(agreed - paid));
    var stylistExpected := paid;
    if status.Cancelled? || status.NoShow? {
      if depositStatus.DepositRefunded? {
        stylistExpected := if BalanceCounted(balanceStatus) && balanceStatus.PaidInPerson? then balanceAmount else 0.0;
        if balanceStatus.PaidOnline? {
          stylistExpected := 0.0;
        }
      }
    } else if DepositCounted(depositStatus) && !BalanceCounted(balanceStatus) {
      stylistExpected := agreed;
    }
    m := MoneySummary(balanceAmount, remaining, paid, stylistExpected);
  }
}
