/** A single delivery, the same-day ordering window, and the order collection. */
module OrderModel {

  import opened Common
  import opened Clock

  datatype OrderStatus = Pending | Confirmed | Delivered | Cancelled

  function OrderStatusName(s: OrderStatus): string
  {
    match s
    case Pending => "pending"
    case Confirmed => "confirmed"
    case Delivered => "delivered"
    case Cancelled => "cancelled"
  }

  /** The status named `s`; `None` for a name outside the four-value enumeration. */
  function ParseOrderStatus(s: string): (r: Option<OrderStatus>)
    ensures r.Some? ==> OrderStatusName(r.value) == s
    ensures r.None? ==> forall st: OrderStatus :: OrderStatusName(st) != s
  {
    if s == "pending" then Some(Pending)
    else if s == "confirmed" then Some(Confirmed)
    else if s == "delivered" then Some(Delivered)
    else if s == "cancelled" then Some(Cancelled)
    else None
  }

  /** 'daily' (placed on its own) or 'subscription' (generated by a subscription). */
  datatype OrderType = Daily | FromSubscription

  /** Smallest quantity, in liters, the schema accepts. */
  const MIN_QUANTITY: real := 0.5

  /** One delivery.  `pricePerLiter` is a copy of the listing's price when the
      order was placed; `subscription` is the index of the generating subscription. */
  datatype Order = Order(
    customer: UserId,
    seller: UserId,
    milk: nat,
    orderType: OrderType,
    deliveryDate: int,
    quantity: real,
    pricePerLiter: real,
    totalAmount: real,
    status: OrderStatus,
    subscription: Option<nat>,
    cancelledAt: Option<int>,
    cancelReason: Option<string>)

  /** A newly created order: status takes its default, pending, and nothing is cancelled. */
  function NewOrder(customer: UserId, seller: UserId, milk: nat, orderType: OrderType,
                    deliveryDate: int, quantity: real, pricePerLiter: real, totalAmount: real,
                    subscription: Option<nat>): (o: Order)
    ensures o.status == Pending && o.cancelledAt == None && o.cancelReason == None
  {
    Order(customer, seller, milk, orderType, deliveryDate, quantity, pricePerLiter, totalAmount,
          Pending, subscription, None, None)
  }

  const SAME_DAY_MESSAGE: string := "Same-day orders are only allowed between 5:00 AM and 10:00 AM"
  const PAST_DATE_MESSAGE: string := "Cannot place orders for past dates"

  /** The answer of the ordering-window check: `valid`, or a reason. */
  datatype TimeCheck = TimeCheck(valid: bool, message: Option<string>)

  /** May an order be placed at instant `now` for delivery at instant
      `deliveryDate`?  Only the calendar days of the two instants and the
      hour of `now` matter. */
  function ValidateOrderTime(deliveryDate: int, now: int): (r: TimeCheck)
    ensures Day(deliveryDate) == Day(now) ==> (r.valid <==> 5 <= Hour(now) < 10)
    ensures Day(deliveryDate) == Day(now) && !r.valid ==> r.message == Some(SAME_DAY_MESSAGE)
    ensures Day(deliveryDate) < Day(now) ==> r == TimeCheck(false, Some(PAST_DATE_MESSAGE))
    ensures Day(deliveryDate) > Day(now) ==> r.valid
    ensures r.valid <==> r.message == None
  {
    var today := Midnight(now);
    var deliveryDay := Midnight(deliveryDate);
    if deliveryDay == today then
      var currentHour := Hour(now);
      if currentHour < 5 || currentHour >= 10 then TimeCheck(false, Some(SAME_DAY_MESSAGE))
      else TimeCheck(true, None)
    else if deliveryDay < today then
      TimeCheck(false, Some(PAST_DATE_MESSAGE))
    else
      TimeCheck(true, None)
  }

  /** The time of day of the delivery instant never changes the answer. */
  lemma OrderTimeIgnoresDeliveryTime(d1: int, d2: int, now: int)
    requires Day(d1) == Day(d2)
    ensures ValidateOrderTime(d1, now) == ValidateOrderTime(d2, now)
  {
  }

  /** Every later day is open for ordering at every hour; today only from 5:00 to 9:59. */
  lemma OrderWindowByHour(deliveryDate: int, now: int)
    ensures ValidateOrderTime(deliveryDate, now).valid
        <==> Day(deliveryDate) > Day(now) || (Day(deliveryDate) == Day(now) && 5 <= Hour(now) < 10)
  {
  }

  /** The order collection, in insertion order.  Orders are never removed, so an
      order's identifier is its position. */
  class OrderCollection {
    var orders: seq<Order>

    constructor ()
      ensures orders == []
    {
      orders := [];
    }
  }
}
