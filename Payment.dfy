/** The payment ledger: append-only entries and the sums derived from them. */
module PaymentModel {

  import opened Common

  datatype PaymentStatus = PaymentPending | Completed | Failed | Refunded

  datatype PaymentMethod = Cash | Upi | Card | NetBanking | Wallet

  /** The payment method named `s`; `None` outside the five-value enumeration. */
  function ParsePaymentMethod(s: string): (r: Option<PaymentMethod>)
    ensures r.Some? ==> s in {"cash", "upi", "card", "netbanking", "wallet"}
    ensures r.None? ==> s !in {"cash", "upi", "card", "netbanking", "wallet"}
  {
    if s == "cash" then Some(Cash)
    else if s == "upi" then Some(Upi)
    else if s == "card" then Some(Card)
    else if s == "netbanking" then Some(NetBanking)
    else if s == "wallet" then Some(Wallet)
    else None
  }

  /** One ledger entry, for an order, a subscription, or both (by index). */
  datatype Payment = Payment(
    customer: UserId,
    seller: UserId,
    order: Option<nat>,
    subscription: Option<nat>,
    amount: real,
    paymentMethod: PaymentMethod,
    paymentStatus: PaymentStatus,
    paidAt: int)

  /** Which entries a sum is taken over. */
  datatype LedgerKey = ForSubscription(subscription: nat) | ForOrder(order: nat) | ForSeller(seller: UserId)

  /** The entry is completed and references the key's subscription, order or seller. */
  predicate Counts(p: Payment, key: LedgerKey)
  {
    && p.paymentStatus == Completed
    && match key
       case ForSubscription(s) => p.subscription == Some(s)
       case ForOrder(o) => p.order == Some(o)
       case ForSeller(s) => p.seller == s
  }

  /** Sum of the amounts of the entries that count for `key`; 0 when there are none. */
  function SumCompleted(ledger: seq<Payment>, key: LedgerKey): real
  {
    if ledger == [] then 0.0
    else (if Counts(ledger[0], key) then ledger[0].amount else 0.0) + SumCompleted(ledger[1..], key)
  }

  /** `getTotalPaid`: completed payments of a subscription. */
  function TotalPaid(ledger: seq<Payment>, subscription: nat): real
  {
    SumCompleted(ledger, ForSubscription(subscription))
  }

  /** `getTotalPaidForOrder`: completed payments of an order. */
  function TotalPaidForOrder(ledger: seq<Payment>, order: nat): real
  {
    SumCompleted(ledger, ForOrder(order))
  }

  /** `getSellerEarnings`: completed payments to a seller. */
  function SellerEarnings(ledger: seq<Payment>, seller: UserId): real
  {
    SumCompleted(ledger, ForSeller(seller))
  }

  /** What is left to pay on a subscription of total `totalAmount`; negative
      once it is overpaid. */
  function RemainingAmount(totalAmount: real, ledger: seq<Payment>, subscription: nat): real
  {
    totalAmount - TotalPaid(ledger, subscription)
  }

  /** Every amount respects the schema minimum of 0. */
  ghost predicate AmountsValid(ledger: seq<Payment>)
  {
    forall i :: 0 <= i < |ledger| ==> ledger[i].amount >= 0.0
  }

  /** A sum over two stretches of the ledger is the sum of the two sums. */
  lemma {:induction false} SumConcat(a: seq<Payment>, b: seq<Payment>, key: LedgerKey)
    ensures SumCompleted(a + b, key) == SumCompleted(a, key) + SumCompleted(b, key)
  {
    if a != [] {
      assert (a + b)[1..] == a[1..] + b;
      SumConcat(a[1..], b, key);
    } else {
      assert a + b == b;
    }
  }

  /** Appending an entry raises each sum by its amount exactly when it counts. */
  lemma SumAppend(ledger: seq<Payment>, p: Payment, key: LedgerKey)
    ensures SumCompleted(ledger + [p], key)
         == SumCompleted(ledger, key) + (if Counts(p, key) then p.amount else 0.0)
  {
    SumConcat(ledger, [p], key);
    assert [p][1..] == [];
  }

  /** Entries that are pending, failed or refunded (or that reference something
      else) never contribute, wherever they stand in the ledger. */
  lemma SumIgnoresUncounted(a: seq<Payment>, p: Payment, b: seq<Payment>, key: LedgerKey)
    requires !Counts(p, key)
    ensures SumCompleted(a + [p] + b, key) == SumCompleted(a + b, key)
  {
    SumConcat(a + [p], b, key);
    SumAppend(a, p, key);
    SumConcat(a, b, key);
  }

  /** With the schema minimum respected, no sum is negative. */
  lemma {:induction false} SumNonNegative(ledger: seq<Payment>, key: LedgerKey)
    requires AmountsValid(ledger)
    ensures SumCompleted(ledger, key) >= 0.0
  {
    if ledger != [] {
      SumNonNegative(ledger[1..], key);
    }
  }

  /** With no counting entry the sum is 0. */
  lemma {:induction false} SumWithoutMatches(ledger: seq<Payment>, key: LedgerKey)
    requires forall i :: 0 <= i < |ledger| ==> !Counts(ledger[i], key)
    ensures SumCompleted(ledger, key) == 0.0
  {
    if ledger != [] {
      SumWithoutMatches(ledger[1..], key);
    }
  }

  /** With amounts respecting the schema minimum, the remaining amount never
      exceeds the total; recording a completed payment for the subscription
      lowers it by exactly that amount, and any other entry leaves it alone. */
  lemma RemainingAfterPayment(totalAmount: real, ledger: seq<Payment>, p: Payment, subscription: nat)
    requires AmountsValid(ledger)
    ensures RemainingAmount(totalAmount, ledger, subscription) <= totalAmount
    ensures RemainingAmount(totalAmount, ledger + [p], subscription)
            == RemainingAmount(totalAmount, ledger, subscription)
               - (if Counts(p, ForSubscription(subscription)) then p.amount else 0.0)
  {
    SumNonNegative(ledger, ForSubscription(subscription));
    SumAppend(ledger, p, ForSubscription(subscription));
  }

  /** The ledger collection: entries are appended and never changed. */
  class PaymentLedger {
    var payments: seq<Payment>

    constructor ()
      ensures payments == []
    {
      payments := [];
    }
  }
}
