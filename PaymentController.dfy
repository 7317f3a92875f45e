/** Payments: recording one, the subscription payment summary, and the
    seller's earnings summary (monthly buckets and the pending amount). */
module PaymentController {

  import opened Common
  import opened Clock
  import opened OrderModel
  import opened SubscriptionModel
  import opened PaymentModel

  const NEITHER_REFERENCE: string := "Please provide either order ID or subscription ID"
  const ORDER_NOT_FOUND: string := "Order not found"
  const SUBSCRIPTION_NOT_FOUND: string := "Subscription not found"
  const NOT_AUTHORIZED: string := "Not authorized"
  const CREATE_PAYMENT_ERROR: string := "Error creating payment"

  /** The body of a payment request; `None` means the field is absent. */
  datatype PaymentRequest = PaymentRequest(
    seller: Option<UserId>,
    orderId: Option<nat>,
    subscriptionId: Option<nat>,
    amount: Option<real>,
    paymentMethod: Option<string>)

  /** The referenced order exists and was placed by `caller`. */
  predicate OwnsOrder(orders: seq<Order>, o: nat, caller: UserId)
  {
    o < |orders| && orders[o].customer == caller
  }

  predicate OwnsSubscription(subs: seq<Subscription>, s: nat, caller: UserId)
  {
    s < |subs| && subs[s].customer == caller
  }

  /** `createPayment` before the insert.  The order reference is checked
      before the subscription reference; then the schema checks the seller
      (required), the amount (required, at least 0) and the method (default
      cash).  The seller is taken from the request as given. */
  function PlanPayment(orders: seq<Order>, subs: seq<Subscription>, caller: UserId,
                       req: PaymentRequest, now: int): (r: Outcome<Payment>)
    ensures req.orderId.None? && req.subscriptionId.None? ==> r == Fail(BadRequest(NEITHER_REFERENCE))
    ensures req.orderId.Some? && req.orderId.value >= |orders| ==> r == Fail(NotFound(ORDER_NOT_FOUND))
    ensures req.orderId.Some? && req.orderId.value < |orders| && !OwnsOrder(orders, req.orderId.value, caller)
            ==> r == Fail(Forbidden(NOT_AUTHORIZED))
    ensures (req.orderId.None? || OwnsOrder(orders, req.orderId.value, caller))
            && req.subscriptionId.Some? && req.subscriptionId.value >= |subs|
            ==> r == Fail(NotFound(SUBSCRIPTION_NOT_FOUND))
    ensures r.Success? <==>
              && (req.orderId.Some? || req.subscriptionId.Some?)
              && (req.orderId.Some? ==> OwnsOrder(orders, req.orderId.value, caller))
              && (req.subscriptionId.Some? ==> OwnsSubscription(subs, req.subscriptionId.value, caller))
              && req.seller.Some? && req.amount.Some? && req.amount.value >= 0.0
              && (req.paymentMethod.Some? ==> ParsePaymentMethod(req.paymentMethod.value).Some?)
    ensures r.Success? ==>
              && r.value.customer == caller && r.value.seller == req.seller.value
              && r.value.order == req.orderId && r.value.subscription == req.subscriptionId
              && r.value.amount == req.amount.value
              && r.value.paymentStatus == PaymentStatus.Completed && r.value.paidAt == now
              && (req.paymentMethod.None? ==> r.value.paymentMethod == Cash)
  {
    if req.orderId.None? && req.subscriptionId.None? then Fail(BadRequest(NEITHER_REFERENCE))
    else if req.orderId.Some? && req.orderId.value >= |orders| then Fail(NotFound(ORDER_NOT_FOUND))
    else if req.orderId.Some? && orders[req.orderId.value].customer != caller then
      Fail(Forbidden(NOT_AUTHORIZED))
    else if req.subscriptionId.Some? && req.subscriptionId.value >= |subs| then
      Fail(NotFound(SUBSCRIPTION_NOT_FOUND))
    else if req.subscriptionId.Some? && subs[req.subscriptionId.value].customer != caller then
      Fail(Forbidden(NOT_AUTHORIZED))
    else if req.seller.None? || req.amount.None? || req.amount.value < 0.0 then Fail(ServerError(CREATE_PAYMENT_ERROR))
    else
      var m := if req.paymentMethod.Some? then ParsePaymentMethod(req.paymentMethod.value) else Some(Cash);
      if m.None? then Fail(ServerError(CREATE_PAYMENT_ERROR))
      else Success(Payment(caller, req.seller.value, req.orderId, req.subscriptionId, req.amount.value,
                           m.value, PaymentStatus.Completed, now))
  }

  /** A recorded payment counts, in full, toward the balance of the order and
      of the subscription it names and toward its seller's earnings. */
  lemma RecordedPaymentCounts(orders: seq<Order>, subs: seq<Subscription>, caller: UserId,
                              req: PaymentRequest, now: int, ledger: seq<Payment>)
    requires PlanPayment(orders, subs, caller, req, now).Success?
    ensures var p := PlanPayment(orders, subs, caller, req, now).value;
            && AmountsValid(ledger + [p]) == AmountsValid(ledger)
            && SellerEarnings(ledger + [p], req.seller.value) == SellerEarnings(ledger, req.seller.value) + p.amount
            && (req.subscriptionId.Some? ==>
                  TotalPaid(ledger + [p], req.subscriptionId.value)
                  == TotalPaid(ledger, req.subscriptionId.value) + p.amount)
            && (req.orderId.Some? ==>
                  TotalPaidForOrder(ledger + [p], req.orderId.value)
                  == TotalPaidForOrder(ledger, req.orderId.value) + p.amount)
  {
    var p := PlanPayment(orders, subs, caller, req, now).value;
    SumAppend(ledger, p, ForSeller(req.seller.value));
    if req.subscriptionId.Some? {
      SumAppend(ledger, p, ForSubscription(req.subscriptionId.value));
    }
    if req.orderId.Some? {
      SumAppend(ledger, p, ForOrder(req.orderId.value));
    }
    assert (ledger + [p])[|ledger|] == p;
    assert forall i :: 0 <= i < |ledger| ==> (ledger + [p])[i] == ledger[i];
  }

  /** `createPayment`: append the planned entry, or change nothing. */
  method CreatePayment(ledger: PaymentLedger, orders: seq<Order>, subs: seq<Subscription>,
                       caller: UserId, req: PaymentRequest, now: int)
    returns (r: Outcome<Payment>)
    modifies ledger
    ensures r == PlanPayment(orders, subs, caller, req, now)
    ensures r.Success? ==> ledger.payments == old(ledger.payments) + [r.value]
    ensures r.Fail? ==> ledger.payments == old(ledger.payments)
  {
    r := PlanPayment(orders, subs, caller, req, now);
    if r.Success? {
      ledger.payments := ledger.payments + [r.value];
    }
  }

  /** The summary shown with a subscription's payments. */
  datatype PaymentSummary = PaymentSummary(totalAmount: real, totalPaid: real, remainingAmount: real)

  /** `getSubscriptionPayments`: the subscription's customer, its seller or an
      administrator may read its balance. */
  function SubscriptionPayments(subs: seq<Subscription>, ledger: seq<Payment>, id: nat,
                                caller: Principal): (r: Outcome<PaymentSummary>)
    ensures id >= |subs| ==> r == Fail(NotFound(SUBSCRIPTION_NOT_FOUND))
    ensures id < |subs| ==>
              (r.Success? <==> caller.id == subs[id].customer || caller.id == subs[id].seller
                               || caller.role == Admin)
    ensures id < |subs| && r.Fail? ==> r == Fail(Forbidden(NOT_AUTHORIZED))
    ensures r.Success? ==> && r.value.totalAmount == subs[id].totalAmount
                           && r.value.totalPaid == TotalPaid(ledger, id)
                           && r.value.totalPaid + r.value.remainingAmount == r.value.totalAmount
  {
    if id >= |subs| then Fail(NotFound(SUBSCRIPTION_NOT_FOUND))
    else
      var s := subs[id];
      if caller.id != s.customer && caller.id != s.seller && caller.role != Admin then
        Fail(Forbidden(NOT_AUTHORIZED))
      else Success(PaymentSummary(s.totalAmount, TotalPaid(ledger, id),
                                  RemainingAmount(s.totalAmount, ledger, id)))
  }

  /** An overpaid subscription shows a negative remaining amount: there is no
      clamping at zero. */
  lemma OverpaidIsNegative(subs: seq<Subscription>, ledger: seq<Payment>, id: nat, caller: Principal)
    requires SubscriptionPayments(subs, ledger, id, caller).Success?
    requires TotalPaid(ledger, id) > subs[id].totalAmount
    ensures SubscriptionPayments(subs, ledger, id, caller).value.remainingAmount < 0.0
  {
  }

  // ---- pendingAmount: outstanding balance of the seller's active subscriptions ----

  /** The balance subscription `i` adds to its seller's pending amount. */
  function Outstanding(subs: seq<Subscription>, ledger: seq<Payment>, seller: UserId, i: nat): real
    requires i < |subs|
    reads subs
  {
    if subs[i].seller == seller && subs[i].status == Active
    then RemainingAmount(subs[i].totalAmount, ledger, i) else 0.0
  }

  /** Sum of the balances of the first `n` subscriptions. */
  function PendingAmount(subs: seq<Subscription>, ledger: seq<Payment>, seller: UserId, n: nat): real
    requires n <= |subs|
    reads subs
  {
    if n == 0 then 0.0 else PendingAmount(subs, ledger, seller, n - 1) + Outstanding(subs, ledger, seller, n - 1)
  }

  /** The accumulation loop of `getSellerEarningsSummary`. */
  method SellerPendingAmount(subs: seq<Subscription>, ledger: seq<Payment>, seller: UserId)
    returns (pending: real)
    ensures pending == PendingAmount(subs, ledger, seller, |subs|)
  {
    pending := 0.0;
    var i := 0;
    while i < |subs|
      invariant 0 <= i <= |subs|
      invariant pending == PendingAmount(subs, ledger, seller, i)
    {
      if subs[i].seller == seller && subs[i].status == Active {
        var paid := TotalPaid(ledger, i);
        pending := pending + (subs[i].totalAmount - paid);
      }
      i := i + 1;
    }
  }

  /** A completed payment toward one of the seller's active subscriptions
      lowers the pending amount by exactly its amount; an entry toward no
      active subscription of the seller leaves it unchanged. */
  lemma {:induction false} PendingAfterPayment(subs: seq<Subscription>, ledger: seq<Payment>,
                                               seller: UserId, p: Payment, n: nat)
    requires n <= |subs|
    ensures PendingAmount(subs, ledger + [p], seller, n)
            == PendingAmount(subs, ledger, seller, n)
               - (if p.paymentStatus == PaymentStatus.Completed && p.subscription.Some? && p.subscription.value < n
                     && subs[p.subscription.value].seller == seller
                     && subs[p.subscription.value].status == Active
                  then p.amount else 0.0)
  {
    if n > 0 {
      PendingAfterPayment(subs, ledger, seller, p, n - 1);
      SumAppend(ledger, p, ForSubscription(n - 1));
    }
  }

  /** With every active subscription of the seller paid in full there is
      nothing pending. */
  lemma {:induction false} NothingPendingWhenPaid(subs: seq<Subscription>, ledger: seq<Payment>,
                                                  seller: UserId, n: nat)
    requires n <= |subs|
    requires forall i :: 0 <= i < n && subs[i].seller == seller && subs[i].status == Active
               ==> TotalPaid(ledger, i) == subs[i].totalAmount
    ensures PendingAmount(subs, ledger, seller, n) == 0.0
  {
    if n > 0 {
      NothingPendingWhenPaid(subs, ledger, seller, n - 1);
    }
  }

  // ---- monthlyEarnings: completed payments of the seller by calendar month ----

  /** One month of earnings. */
  datatype MonthBucket = MonthBucket(year: int, month: int, total: real, count: nat)

  function Key(b: MonthBucket): (int, int)
  {
    (b.year, b.month)
  }

  /** Month `a` comes after month `b`. */
  predicate Later(a: (int, int), b: (int, int))
  {
    a.0 > b.0 || (a.0 == b.0 && a.1 > b.1)
  }

  /** Newest month first, one bucket per month. */
  ghost predicate NewestFirst(g: seq<MonthBucket>)
  {
    forall i, j :: 0 <= i < j < |g| ==> Later(Key(g[i]), Key(g[j]))
  }

  ghost predicate AllBefore(g: seq<MonthBucket>, k: (int, int))
  {
    forall i :: 0 <= i < |g| ==> Later(k, Key(g[i]))
  }

  /** Add one payment of `amount` in month `ym`: into its bucket, or into a new
      bucket at its place in newest-first order. */
  function AddToMonth(g: seq<MonthBucket>, ym: (int, int), amount: real): seq<MonthBucket>
  {
    if g == [] then [MonthBucket(ym.0, ym.1, amount, 1)]
    else if Key(g[0]) == ym then
      [g[0].(total := g[0].total + amount, count := g[0].count + 1)] + g[1..]
    else if Later(ym, Key(g[0])) then [MonthBucket(ym.0, ym.1, amount, 1)] + g
    else [g[0]] + AddToMonth(g[1..], ym, amount)
  }

  /** Every month in which the seller received a completed payment, newest first. */
  function MonthBuckets(ledger: seq<Payment>, seller: UserId): seq<MonthBucket>
  {
    if ledger == [] then []
    else
      var rest := MonthBuckets(ledger[1..], seller);
      if Counts(ledger[0], ForSeller(seller))
      then AddToMonth(rest, YearMonth(ledger[0].paidAt), ledger[0].amount) else rest
  }

  /** The grouping, sorting and limiting pipeline: the twelve newest months. */
  function MonthlyEarnings(ledger: seq<Payment>, seller: UserId): seq<MonthBucket>
  {
    var all := MonthBuckets(ledger, seller);
    if |all| <= 12 then all else all[..12]
  }

  /** Completed payments to the seller in month `ym`: their summed amount and number. */
  function PaidInMonth(ledger: seq<Payment>, seller: UserId, ym: (int, int)): real
  {
    if ledger == [] then 0.0
    else (if Counts(ledger[0], ForSeller(seller)) && YearMonth(ledger[0].paidAt) == ym
          then ledger[0].amount else 0.0) + PaidInMonth(ledger[1..], seller, ym)
  }

  function PaymentsInMonth(ledger: seq<Payment>, seller: UserId, ym: (int, int)): nat
  {
    if ledger == [] then 0
    else (if Counts(ledger[0], ForSeller(seller)) && YearMonth(ledger[0].paidAt) == ym then 1 else 0)
         + PaymentsInMonth(ledger[1..], seller, ym)
  }

  /** Summed totals and counts of the buckets of month `ym`, and of all buckets. */
  function TotalOf(g: seq<MonthBucket>, ym: (int, int)): real
  {
    if g == [] then 0.0 else (if Key(g[0]) == ym then g[0].total else 0.0) + TotalOf(g[1..], ym)
  }

  function CountOf(g: seq<MonthBucket>, ym: (int, int)): nat
  {
    if g == [] then 0 else (if Key(g[0]) == ym then g[0].count else 0) + CountOf(g[1..], ym)
  }

  function GrandTotal(g: seq<MonthBucket>): real
  {
    if g == [] then 0.0 else g[0].total + GrandTotal(g[1..])
  }

  lemma {:induction false} AddToMonthBefore(g: seq<MonthBucket>, ym: (int, int), amount: real, k: (int, int))
    requires AllBefore(g, k) && Later(k, ym)
    ensures AllBefore(AddToMonth(g, ym, amount), k)
  {
    if g != [] && Key(g[0]) != ym && !Later(ym, Key(g[0])) {
      AddToMonthBefore(g[1..], ym, amount, k);
    }
  }

  lemma {:induction false} AddToMonthSorted(g: seq<MonthBucket>, ym: (int, int), amount: real)
    requires NewestFirst(g)
    ensures NewestFirst(AddToMonth(g, ym, amount))
  {
    if g != [] && Key(g[0]) != ym && !Later(ym, Key(g[0])) {
      AddToMonthSorted(g[1..], ym, amount);
      AddToMonthBefore(g[1..], ym, amount, Key(g[0]));
    }
  }

  lemma {:induction false} AddToMonthSums(g: seq<MonthBucket>, ym: (int, int), amount: real, k: (int, int))
    ensures TotalOf(AddToMonth(g, ym, amount), k) == TotalOf(g, k) + (if k == ym then amount else 0.0)
    ensures CountOf(AddToMonth(g, ym, amount), k) == CountOf(g, k) + (if k == ym then 1 else 0)
    ensures GrandTotal(AddToMonth(g, ym, amount)) == GrandTotal(g) + amount
  {
    if g == [] {
    } else if Key(g[0]) == ym {
      assert AddToMonth(g, ym, amount)[1..] == g[1..];
    } else if Later(ym, Key(g[0])) {
      assert AddToMonth(g, ym, amount)[1..] == g;
    } else {
      assert AddToMonth(g, ym, amount)[1..] == AddToMonth(g[1..], ym, amount);
      AddToMonthSums(g[1..], ym, amount, k);
    }
  }

  lemma {:induction false} AddToMonthPositive(g: seq<MonthBucket>, ym: (int, int), amount: real)
    requires forall i :: 0 <= i < |g| ==> g[i].count > 0
    ensures forall i :: 0 <= i < |AddToMonth(g, ym, amount)| ==> AddToMonth(g, ym, amount)[i].count > 0
  {
    if g != [] && Key(g[0]) != ym && !Later(ym, Key(g[0])) {
      AddToMonthPositive(g[1..], ym, amount);
    }
  }

  lemma {:induction false} BucketFacts(ledger: seq<Payment>, seller: UserId, k: (int, int))
    ensures NewestFirst(MonthBuckets(ledger, seller))
    ensures forall i :: 0 <= i < |MonthBuckets(ledger, seller)| ==> MonthBuckets(ledger, seller)[i].count > 0
    ensures TotalOf(MonthBuckets(ledger, seller), k) == PaidInMonth(ledger, seller, k)
    ensures CountOf(MonthBuckets(ledger, seller), k) == PaymentsInMonth(ledger, seller, k)
    ensures GrandTotal(MonthBuckets(ledger, seller)) == SellerEarnings(ledger, seller)
  {
    if ledger != [] {
      var rest := MonthBuckets(ledger[1..], seller);
      BucketFacts(ledger[1..], seller, k);
      if Counts(ledger[0], ForSeller(seller)) {
        var ym := YearMonth(ledger[0].paidAt);
        AddToMonthSorted(rest, ym, ledger[0].amount);
        AddToMonthPositive(rest, ym, ledger[0].amount);
        AddToMonthSums(rest, ym, ledger[0].amount, k);
      }
    }
  }

  lemma {:induction false} BucketOfAbsent(g: seq<MonthBucket>, k: (int, int))
    requires forall i :: 0 <= i < |g| ==> Key(g[i]) != k
    ensures TotalOf(g, k) == 0.0 && CountOf(g, k) == 0
  {
    if g != [] {
      BucketOfAbsent(g[1..], k);
    }
  }

  /** In a newest-first list, a bucket holds the whole total and count of its month. */
  lemma {:induction false} BucketOfRow(g: seq<MonthBucket>, i: nat)
    requires NewestFirst(g) && i < |g|
    ensures TotalOf(g, Key(g[i])) == g[i].total && CountOf(g, Key(g[i])) == g[i].count
  {
    if i == 0 {
      BucketOfAbsent(g[1..], Key(g[0]));
    } else {
      BucketOfRow(g[1..], i - 1);
    }
  }

  /** Before the limit: one bucket per month with payments, newest first, each
      holding exactly that month's completed payments to the seller. */
  lemma MonthBucketsExact(ledger: seq<Payment>, seller: UserId)
    ensures var g := MonthBuckets(ledger, seller);
            && NewestFirst(g)
            && (forall i :: 0 <= i < |g| ==>
                  && g[i].total == PaidInMonth(ledger, seller, Key(g[i]))
                  && g[i].count == PaymentsInMonth(ledger, seller, Key(g[i])) > 0)
            && (forall k :: PaymentsInMonth(ledger, seller, k) > 0 ==>
                  exists i :: 0 <= i < |g| && Key(g[i]) == k)
            && GrandTotal(g) == SellerEarnings(ledger, seller)
  {
    var g := MonthBuckets(ledger, seller);
    BucketFacts(ledger, seller, (0, 0));
    forall i | 0 <= i < |g|
      ensures g[i].total == PaidInMonth(ledger, seller, Key(g[i]))
      ensures g[i].count == PaymentsInMonth(ledger, seller, Key(g[i]))
    {
      BucketFacts(ledger, seller, Key(g[i]));
      BucketOfRow(g, i);
    }
    forall k | PaymentsInMonth(ledger, seller, k) > 0
      ensures exists i :: 0 <= i < |g| && Key(g[i]) == k
    {
      BucketFacts(ledger, seller, k);
      if forall i :: 0 <= i < |g| ==> Key(g[i]) != k {
        BucketOfAbsent(g, k);
      }
    }
  }

  /** `monthlyEarnings`: at most twelve buckets, newest month first; each
      bucket's total and count are exactly those of the seller's completed
      payments of its month; and a month with payments is missing only when
      twelve newer months are shown. */
  lemma MonthlyEarningsFacts(ledger: seq<Payment>, seller: UserId)
    ensures var r := MonthlyEarnings(ledger, seller);
            && |r| <= 12
            && NewestFirst(r)
            && (forall i :: 0 <= i < |r| ==>
                  && r[i].total == PaidInMonth(ledger, seller, Key(r[i]))
                  && r[i].count == PaymentsInMonth(ledger, seller, Key(r[i])) > 0)
            && (forall k :: PaymentsInMonth(ledger, seller, k) > 0
                  && (forall i :: 0 <= i < |r| ==> Key(r[i]) != k)
                  ==> |r| == 12 && forall i :: 0 <= i < |r| ==> Later(Key(r[i]), k))
  {
    var g := MonthBuckets(ledger, seller);
    var r := MonthlyEarnings(ledger, seller);
    MonthBucketsExact(ledger, seller);
    assert forall i :: 0 <= i < |r| ==> r[i] == g[i];
    forall k | PaymentsInMonth(ledger, seller, k) > 0 && (forall i :: 0 <= i < |r| ==> Key(r[i]) != k)
      ensures |r| == 12 && forall i :: 0 <= i < |r| ==> Later(Key(r[i]), k)
    {
      var j :| 0 <= j < |g| && Key(g[j]) == k;
      assert j >= |r|;
    }
  }
}
