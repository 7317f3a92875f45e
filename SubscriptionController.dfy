/** Subscriptions: creation with its per-day orders, pausing one day, and
    cancellation with its cascade over the remaining orders. */
module SubscriptionController {

  import opened Common
  import opened Clock
  import opened MilkModel
  import opened OrderModel
  import opened SubscriptionModel
  import PaymentModel

  const START_IN_PAST: string := "Start date cannot be in the past"
  const CREATE_SUBSCRIPTION_ERROR: string := "Error creating subscription"
  const SUBSCRIPTION_NOT_FOUND: string := "Subscription not found"
  const PAUSE_DATE_MISSING: string := "Please provide pause date"
  const NOT_AUTHORIZED_PAUSE: string := "Not authorized to pause this subscription"
  const ONLY_ACTIVE: string := "Can only pause active subscriptions"
  const NOT_AUTHORIZED_CANCEL: string := "Not authorized to cancel this subscription"
  const PAUSED_REASON: string := "Paused by customer"
  const CANCELLED_REASON: string := "Subscription cancelled"

  function CannotCancel(s: SubscriptionStatus): string
  {
    "Cannot cancel subscription with status: " + SubscriptionStatusName(s)
  }

  /** The checks of `createSubscription` before anything is stored: the start
      is today or later, the listing exists and is available, then the schema
      minimums of the subscription (one day, half a liter). */
  function SubscriptionRequest(listings: seq<Milk>, milkId: nat, startDate: int, numberOfDays: int,
                               quantityPerDay: real, now: int): (r: Outcome<Milk>)
    ensures startDate < Midnight(now) ==> r == Fail(BadRequest(START_IN_PAST))
    ensures startDate >= Midnight(now) ==>
              match IndexOfListing(listings, milkId)
              case None => r == Fail(NotFound(MILK_NOT_FOUND))
              case Some(i) =>
                && (!listings[i].isAvailable ==> r == Fail(BadRequest(UNAVAILABLE_MESSAGE)))
                && (listings[i].isAvailable && (numberOfDays < 1 || quantityPerDay < MIN_QUANTITY)
                    ==> r == Fail(ServerError(CREATE_SUBSCRIPTION_ERROR)))
                && (r.Success? <==> listings[i].isAvailable && numberOfDays >= 1
                                    && quantityPerDay >= MIN_QUANTITY)
                && (r.Success? ==> r.value == listings[i])
  {
    if startDate < Midnight(now) then Fail(BadRequest(START_IN_PAST))
    else match IndexOfListing(listings, milkId)
      case None => Fail(NotFound(MILK_NOT_FOUND))
      case Some(i) =>
        if !listings[i].isAvailable then Fail(BadRequest(UNAVAILABLE_MESSAGE))
        else if numberOfDays < 1 || quantityPerDay < MIN_QUANTITY then
          Fail(ServerError(CREATE_SUBSCRIPTION_ERROR))
        else Success(listings[i])
  }

  /** What every generated order of one subscription shares. */
  datatype SchedulePlan = SchedulePlan(
    customer: UserId,
    seller: UserId,
    milk: nat,
    startDate: int,
    quantityPerDay: real,
    pricePerLiter: real,
    subscription: nat)

  /** The order generated for day `i` of the schedule (day 0 is the start). */
  function ScheduledOrder(p: SchedulePlan, i: nat): Order
  {
    NewOrder(p.customer, p.seller, p.milk, FromSubscription, p.startDate + i * DAY_MS,
             p.quantityPerDay, p.pricePerLiter, p.quantityPerDay * p.pricePerLiter,
             Some(p.subscription))
  }

  /** The orders generated for the first `n` days, in delivery order. */
  function Schedule(p: SchedulePlan, n: nat): seq<Order>
  {
    seq(n, i requires 0 <= i < n => ScheduledOrder(p, i))
  }

  lemma ScheduleStep(p: SchedulePlan, n: nat)
    ensures Schedule(p, n + 1) == Schedule(p, n) + [ScheduledOrder(p, n)]
  {
    assert Schedule(p, n + 1)[..n] == Schedule(p, n);
  }

  /** The schedule has one pending order per consecutive calendar day from the
      start day, each for the daily quantity at the snapshot price and linked
      to the subscription; the last one falls on the end instant. */
  lemma ScheduleShape(p: SchedulePlan, n: nat)
    ensures |Schedule(p, n)| == n
    ensures forall i :: 0 <= i < n ==>
              && Day(Schedule(p, n)[i].deliveryDate) == Day(p.startDate) + i
              && Hour(Schedule(p, n)[i].deliveryDate) == Hour(p.startDate)
              && Schedule(p, n)[i].status == Pending
              && Schedule(p, n)[i].orderType == FromSubscription
              && Schedule(p, n)[i].subscription == Some(p.subscription)
              && Schedule(p, n)[i].quantity == p.quantityPerDay
              && Schedule(p, n)[i].totalAmount == p.quantityPerDay * p.pricePerLiter
    ensures n >= 1 ==> Schedule(p, n)[n - 1].deliveryDate == p.startDate + (n - 1) * DAY_MS
  {
    forall i | 0 <= i < n
      ensures Day(Schedule(p, n)[i].deliveryDate) == Day(p.startDate) + i
      ensures Hour(Schedule(p, n)[i].deliveryDate) == Hour(p.startDate)
    {
      ShiftDays(p.startDate, i);
    }
  }

  /** Sum of the order totals. */
  function OrderTotals(orders: seq<Order>): real
  {
    if orders == [] then 0.0 else orders[0].totalAmount + OrderTotals(orders[1..])
  }

  lemma {:induction false} OrderTotalsUniform(orders: seq<Order>, amount: real)
    requires forall i :: 0 <= i < |orders| ==> orders[i].totalAmount == amount
    ensures OrderTotals(orders) == (|orders| as real) * amount
  {
    if orders != [] {
      OrderTotalsUniform(orders[1..], amount);
    }
  }

  /** The generated orders add up to the subscription's total amount. */
  lemma ScheduleTotal(p: SchedulePlan, n: nat)
    ensures OrderTotals(Schedule(p, n)) == (n as real) * p.quantityPerDay * p.pricePerLiter
  {
    ScheduleShape(p, n);
    OrderTotalsUniform(Schedule(p, n), p.quantityPerDay * p.pricePerLiter);
  }

  /** The answer of a successful creation. */
  datatype Created = Created(subscription: nat, ordersCreated: nat)

  /** `createSubscription`: refused requests store nothing; an accepted one
      stores one active subscription (identifier: its position) and then its
      `numberOfDays` pending orders. */
  method CreateSubscription(subs: SubscriptionCollection, orders: OrderCollection, listings: seq<Milk>,
                            customer: UserId, milkId: nat, startDate: int, numberOfDays: int,
                            quantityPerDay: real, now: int)
    returns (r: Outcome<Created>)
    requires subs.Valid()
    modifies subs, orders
    ensures subs.Valid()
    ensures var check := SubscriptionRequest(listings, milkId, startDate, numberOfDays, quantityPerDay, now);
            check.Fail? ==> r == Fail(check.failure) && subs.docs == old(subs.docs)
                            && orders.orders == old(orders.orders)
    ensures var check := SubscriptionRequest(listings, milkId, startDate, numberOfDays, quantityPerDay, now);
            check.Success? ==>
              var m := check.value;
              var id := |old(subs.docs)|;
              && r == Success(Created(id, numberOfDays))
              && |subs.docs| == id + 1 && subs.docs[..id] == old(subs.docs) && fresh(subs.docs[id])
              && subs.docs[id].customer == customer && subs.docs[id].seller == m.seller
              && subs.docs[id].milk == milkId && subs.docs[id].startDate == startDate
              && subs.docs[id].originalDays == numberOfDays && subs.docs[id].totalDays == numberOfDays
              && subs.docs[id].extendedDays == 0
              && subs.docs[id].endDate == startDate + (numberOfDays - 1) * DAY_MS
              && subs.docs[id].quantityPerDay == quantityPerDay
              && subs.docs[id].pricePerLiter == m.pricePerLiter
              && subs.docs[id].totalAmount == (numberOfDays as real) * quantityPerDay * m.pricePerLiter
              && subs.docs[id].status == Active && subs.docs[id].pausedDates == []
              && orders.orders == old(orders.orders)
                 + Schedule(SchedulePlan(customer, m.seller, milkId, startDate, quantityPerDay,
                                         m.pricePerLiter, id), numberOfDays)
  {
    var check := SubscriptionRequest(listings, milkId, startDate, numberOfDays, quantityPerDay, now);
    if check.Fail? {
      return Fail(check.failure);
    }
    var m := check.value;
    var id := |subs.docs|;
    var n: nat := numberOfDays;
    var s := new Subscription(customer, m.seller, milkId, startDate, n, quantityPerDay,
                              m.pricePerLiter, (n as real) * quantityPerDay * m.pricePerLiter);
    subs.docs := subs.docs + [s];
    var plan := SchedulePlan(customer, m.seller, milkId, startDate, quantityPerDay, m.pricePerLiter, id);
    ghost var before := orders.orders;
    var i := 0;
    while i < n
      invariant 0 <= i <= n
      invariant orders.orders == before + Schedule(plan, i)
      modifies orders
    {
      orders.orders := orders.orders + [ScheduledOrder(plan, i)];
      ScheduleStep(plan, i);
      i := i + 1;
    }
    r := Success(Created(id, i));
  }

  /** Position of the first order of subscription `sub` delivered on calendar
      day `day` — the query for the paused day's order. */
  function FirstOrderOn(orders: seq<Order>, sub: nat, day: int): (r: Option<nat>)
    ensures r.Some? ==> && r.value < |orders| && orders[r.value].subscription == Some(sub)
                        && Day(orders[r.value].deliveryDate) == day
    ensures r.Some? ==> forall i :: 0 <= i < r.value ==>
                          !(orders[i].subscription == Some(sub) && Day(orders[i].deliveryDate) == day)
    ensures r.None? ==> forall i :: 0 <= i < |orders| ==>
                          !(orders[i].subscription == Some(sub) && Day(orders[i].deliveryDate) == day)
  {
    if orders == [] then None
    else if orders[0].subscription == Some(sub) && Day(orders[0].deliveryDate) == day then Some(0)
    else match FirstOrderOn(orders[1..], sub, day)
      case None => None
      case Some(k) => Some(k + 1)
  }

  /** The orders after an accepted pause: the paused day's order is cancelled
      if it is still pending; nothing else changes and nothing is added. */
  function AfterPause(orders: seq<Order>, sub: nat, pause: int, now: int): seq<Order>
  {
    match FirstOrderOn(orders, sub, Day(pause))
    case Some(i) =>
      if orders[i].status == Pending then
        orders[i := orders[i].(status := OrderStatus.Cancelled, cancelReason := Some(PAUSED_REASON),
                               cancelledAt := Some(now))]
      else orders
    case None => orders
  }

  /** A pause changes at most one order: a pending order of this subscription
      on the paused day, which becomes cancelled with the pause reason. */
  lemma AfterPauseChangesOneOrder(orders: seq<Order>, sub: nat, pause: int, now: int)
    ensures |AfterPause(orders, sub, pause, now)| == |orders|
    ensures forall i :: 0 <= i < |orders| && AfterPause(orders, sub, pause, now)[i] != orders[i] ==>
              && orders[i].subscription == Some(sub) && Day(orders[i].deliveryDate) == Day(pause)
              && orders[i].status == Pending
              && AfterPause(orders, sub, pause, now)[i].status == OrderStatus.Cancelled
              && AfterPause(orders, sub, pause, now)[i].cancelReason == Some(PAUSED_REASON)
    ensures forall i, j :: 0 <= i < j < |orders| ==>
              AfterPause(orders, sub, pause, now)[i] == orders[i]
              || AfterPause(orders, sub, pause, now)[j] == orders[j]
  {
  }

  /** On a freshly generated schedule, pausing a day inside it cancels the
      order of exactly that day. */
  lemma PauseCancelsScheduledDay(p: SchedulePlan, n: nat, k: nat, now: int)
    requires k < n
    ensures var after := AfterPause(Schedule(p, n), p.subscription, p.startDate + k * DAY_MS, now);
            && after[k].status == OrderStatus.Cancelled
            && forall i :: 0 <= i < n && i != k ==> after[i] == Schedule(p, n)[i]
  {
    ScheduleShape(p, n);
    ShiftDays(p.startDate, k);
    var first := FirstOrderOn(Schedule(p, n), p.subscription, Day(p.startDate + k * DAY_MS));
    assert Schedule(p, n)[k].subscription == Some(p.subscription);
    assert first.Some? && first.value == k;
  }

  /** `pauseSubscription`: the request guards, then the subscription's own
      pause checks; an accepted pause records the day, slides the end and
      cancels that day's pending order; a refused one changes nothing. */
  method PauseSubscription(subs: SubscriptionCollection, orders: OrderCollection, id: nat, caller: UserId,
                           pauseDate: Option<int>, now: int)
    returns (r: Outcome<()>)
    requires subs.Valid()
    modifies subs.docs, orders
    ensures subs.Valid()
    ensures pauseDate.None? ==> r == Fail(BadRequest(PAUSE_DATE_MISSING))
    ensures pauseDate.Some? && id >= |subs.docs| ==> r == Fail(NotFound(SUBSCRIPTION_NOT_FOUND))
    ensures pauseDate.Some? && id < |subs.docs| && subs.docs[id].customer != caller
            ==> r == Fail(Forbidden(NOT_AUTHORIZED_PAUSE))
    ensures pauseDate.Some? && id < |subs.docs| && subs.docs[id].customer == caller
            && old(subs.docs[id].status) != Active
            ==> r == Fail(BadRequest(ONLY_ACTIVE))
    ensures pauseDate.Some? && id < |subs.docs| && subs.docs[id].customer == caller
            && old(subs.docs[id].status) == Active
            ==> var s := subs.docs[id];
                var v := PauseCheck(pauseDate.value, now, s.startDate, old(s.endDate), old(s.pausedDates));
                && (v.Reject? ==> r == Fail(BadRequest(v.message)))
                && (v.Accept? ==>
                      && r == Success(())
                      && s.pausedDates == old(s.pausedDates) + [PausedDate(pauseDate.value, now)]
                      && s.endDate == old(s.endDate) + DAY_MS
                      && s.extendedDays == old(s.extendedDays) + 1
                      && s.totalDays == old(s.totalDays) + 1
                      && orders.orders == AfterPause(old(orders.orders), id, pauseDate.value, now))
    ensures r.Fail? ==> orders.orders == old(orders.orders)
                        && forall j :: 0 <= j < |subs.docs| ==> unchanged(subs.docs[j])
    ensures forall j :: 0 <= j < |subs.docs| && j != id ==> unchanged(subs.docs[j])
    ensures forall j :: 0 <= j < |subs.docs| ==> subs.docs[j].status == old(subs.docs[j].status)
  {
    if pauseDate.None? {
      return Fail(BadRequest(PAUSE_DATE_MISSING));
    }
    if id >= |subs.docs| {
      return Fail(NotFound(SUBSCRIPTION_NOT_FOUND));
    }
    var s := subs.docs[id];
    if s.customer != caller {
      return Fail(Forbidden(NOT_AUTHORIZED_PAUSE));
    }
    if s.status != Active {
      return Fail(BadRequest(ONLY_ACTIVE));
    }
    var v := s.PauseDate(pauseDate.value, now);
    if v.Reject? {
      return Fail(BadRequest(v.message));
    }
    orders.orders := AfterPause(orders.orders, id, pauseDate.value, now);
    r := Success(());
  }

  /** A pending order of subscription `sub` due at `now` or later. */
  predicate DueForCancel(o: Order, sub: nat, now: int)
  {
    o.subscription == Some(sub) && o.status == Pending && o.deliveryDate >= now
  }

  /** The cascade of a cancellation: every due order becomes cancelled with the
      cancellation reason and instant. */
  function Cascade(orders: seq<Order>, sub: nat, now: int): seq<Order>
  {
    seq(|orders|, i requires 0 <= i < |orders| =>
      if DueForCancel(orders[i], sub, now)
      then orders[i].(status := OrderStatus.Cancelled, cancelReason := Some(CANCELLED_REASON),
                      cancelledAt := Some(now))
      else orders[i])
  }

  /** Exactly the due orders change; afterwards no pending order of the
      subscription is left at or after `now`; a second cascade changes nothing. */
  lemma CascadeFacts(orders: seq<Order>, sub: nat, now: int)
    ensures |Cascade(orders, sub, now)| == |orders|
    ensures forall i :: 0 <= i < |orders| ==>
              (Cascade(orders, sub, now)[i] != orders[i] <==> DueForCancel(orders[i], sub, now))
    ensures forall i :: 0 <= i < |orders| && DueForCancel(orders[i], sub, now) ==>
              && Cascade(orders, sub, now)[i].status == OrderStatus.Cancelled
              && Cascade(orders, sub, now)[i].cancelReason == Some(CANCELLED_REASON)
              && Cascade(orders, sub, now)[i].cancelledAt == Some(now)
    ensures forall i :: 0 <= i < |orders| ==> !DueForCancel(Cascade(orders, sub, now)[i], sub, now)
    ensures Cascade(Cascade(orders, sub, now), sub, now) == Cascade(orders, sub, now)
  {
  }

  /** A cascade never touches orders of other subscriptions or past orders. */
  lemma CascadeKeepsOthers(orders: seq<Order>, sub: nat, now: int, i: nat)
    requires i < |orders|
    requires orders[i].subscription != Some(sub) || orders[i].deliveryDate < now
             || orders[i].status != Pending
    ensures Cascade(orders, sub, now)[i] == orders[i]
  {
  }

  /** `cancelSubscription`: only the owner, only while neither cancelled nor
      completed; the status becomes cancelled and the due orders cascade. */
  method CancelSubscription(subs: SubscriptionCollection, orders: OrderCollection, id: nat,
                            caller: UserId, now: int)
    returns (r: Outcome<()>)
    requires subs.Valid()
    modifies subs.docs, orders
    ensures subs.Valid()
    ensures id >= |subs.docs| ==> r == Fail(NotFound(SUBSCRIPTION_NOT_FOUND))
    ensures id < |subs.docs| && subs.docs[id].customer != caller ==> r == Fail(Forbidden(NOT_AUTHORIZED_CANCEL))
    ensures id < |subs.docs| && subs.docs[id].customer == caller
            && old(subs.docs[id].status) in {SubscriptionStatus.Cancelled, Completed}
            ==> r == Fail(BadRequest(CannotCancel(old(subs.docs[id].status))))
    ensures r.Success? <==> id < |subs.docs| && subs.docs[id].customer == caller
                            && old(subs.docs[id].status) in {Active, Paused}
    ensures r.Success? ==> subs.docs[id].status == SubscriptionStatus.Cancelled
                           && orders.orders == Cascade(old(orders.orders), id, now)
    ensures r.Fail? ==> orders.orders == old(orders.orders)
                        && forall j :: 0 <= j < |subs.docs| ==> unchanged(subs.docs[j])
    ensures forall j :: 0 <= j < |subs.docs| && j != id ==> unchanged(subs.docs[j])
    ensures forall j :: 0 <= j < |subs.docs| ==>
              subs.docs[j].endDate == old(subs.docs[j].endDate)
              && subs.docs[j].pausedDates == old(subs.docs[j].pausedDates)
  {
    if id >= |subs.docs| {
      return Fail(NotFound(SUBSCRIPTION_NOT_FOUND));
    }
    var s := subs.docs[id];
    if s.customer != caller {
      return Fail(Forbidden(NOT_AUTHORIZED_CANCEL));
    }
    match s.status {
      case Cancelled =>
        return Fail(BadRequest(CannotCancel(s.status)));
      case Completed =>
        return Fail(BadRequest(CannotCancel(s.status)));
      case _ =>
    }
    s.status := SubscriptionStatus.Cancelled;
    orders.orders := Cascade(orders.orders, id, now);
    r := Success(());
  }

  /** The derived amounts and day counts shown with a subscription. */
  datatype Account = Account(totalPaid: real, remainingAmount: real, remainingDays: nat, completedDays: nat)

  /** The account shown for subscription `id` at instant `now`. */
  function AccountOf(s: Subscription, id: nat, ledger: seq<PaymentModel.Payment>, now: int): (a: Account)
    reads s
    ensures a.totalPaid + a.remainingAmount == s.totalAmount
    ensures a.completedDays <= s.totalDays
  {
    Account(PaymentModel.TotalPaid(ledger, id), PaymentModel.RemainingAmount(s.totalAmount, ledger, id),
            RemainingDays(s.endDate, now), CompletedDays(s.startDate, s.totalDays, now))
  }

  /** For a valid subscription between its start and end instants the two day
      counts shown with it add up to one less than its total days. */
  lemma AccountDays(s: Subscription, id: nat, ledger: seq<PaymentModel.Payment>, now: int)
    requires s.Valid()
    requires s.startDate <= now <= s.endDate
    ensures AccountOf(s, id, ledger, now).remainingDays + AccountOf(s, id, ledger, now).completedDays
            == s.totalDays - 1
  {
    RemainingPlusCompleted(s.startDate, s.totalDays, now);
  }
}
