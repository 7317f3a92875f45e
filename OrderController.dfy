/** Daily orders: the placement chain, the seller's status update and the
    customer's cancellation. */
module OrderController {

  import opened Common
  import opened Clock
  import opened MilkModel
  import opened OrderModel

  const ORDER_NOT_FOUND: string := "Order not found"
  const NOT_AUTHORIZED_STATUS: string := "Not authorized to update this order"
  const NOT_AUTHORIZED_CANCEL: string := "Not authorized to cancel this order"
  const CREATE_ORDER_ERROR: string := "Error creating order"
  const STATUS_ERROR: string := "Error updating order status"

  function NotAvailableOn(w: Weekday): string
  {
    "Milk is not available on " + WeekdayName(w)
  }

  function CannotCancel(s: OrderStatus): string
  {
    "Cannot cancel order with status: " + OrderStatusName(s)
  }

  /** The listing delivers on weekday `w`: its day list is empty (every day)
      or names `w`. */
  predicate DeliversOn(m: Milk, w: Weekday)
  {
    |m.availabilityDays| == 0 || w in m.availabilityDays
  }

  /** `createDailyOrder` before the insert: the ordering window, the listing's
      existence and availability, its weekdays, then the schema's quantity
      minimum, the first failure winning; on success the order snapshots the
      listing's price. */
  function PlanDailyOrder(listings: seq<Milk>, customer: UserId, milkId: nat,
                          deliveryDate: int, quantity: real, now: int): (r: Outcome<Order>)
    ensures !ValidateOrderTime(deliveryDate, now).valid
            ==> r == Fail(BadRequest(ValidateOrderTime(deliveryDate, now).message.value))
    ensures ValidateOrderTime(deliveryDate, now).valid && IndexOfListing(listings, milkId).None?
            ==> r == Fail(NotFound(MILK_NOT_FOUND))
    ensures ValidateOrderTime(deliveryDate, now).valid && IndexOfListing(listings, milkId).Some?
            ==> var m := listings[IndexOfListing(listings, milkId).value];
                && (!m.isAvailable ==> r == Fail(BadRequest(UNAVAILABLE_MESSAGE)))
                && (m.isAvailable && !DeliversOn(m, WeekdayOf(deliveryDate))
                    ==> r == Fail(BadRequest(NotAvailableOn(WeekdayOf(deliveryDate)))))
                && (m.isAvailable && DeliversOn(m, WeekdayOf(deliveryDate)) && quantity < MIN_QUANTITY
                    ==> r == Fail(ServerError(CREATE_ORDER_ERROR)))
                && (r.Success? <==> m.isAvailable && DeliversOn(m, WeekdayOf(deliveryDate))
                                    && quantity >= MIN_QUANTITY)
                && (r.Success? ==>
                      && r.value.customer == customer && r.value.seller == m.seller
                      && r.value.milk == milkId && r.value.orderType == Daily
                      && r.value.deliveryDate == deliveryDate && r.value.quantity == quantity
                      && r.value.pricePerLiter == m.pricePerLiter
                      && r.value.totalAmount == quantity * m.pricePerLiter
                      && r.value.status == Pending && r.value.subscription == None
                      && r.value.cancelledAt == None && r.value.cancelReason == None)
  {
    var time := ValidateOrderTime(deliveryDate, now);
    if !time.valid then Fail(BadRequest(time.message.value))
    else match IndexOfListing(listings, milkId)
      case None => Fail(NotFound(MILK_NOT_FOUND))
      case Some(i) =>
        var m := listings[i];
        var day := WeekdayOf(deliveryDate);
        if !m.isAvailable then Fail(BadRequest(UNAVAILABLE_MESSAGE))
        else if |m.availabilityDays| > 0 && day !in m.availabilityDays then
          Fail(BadRequest(NotAvailableOn(day)))
        else if quantity < MIN_QUANTITY then Fail(ServerError(CREATE_ORDER_ERROR))
        else Success(NewOrder(customer, m.seller, milkId, Daily, deliveryDate, quantity,
                              m.pricePerLiter, quantity * m.pricePerLiter, None))
  }

  /** An accepted daily order is for today inside the morning window or for a
      later day, on a day its listing delivers. */
  lemma AcceptedDailyOrder(listings: seq<Milk>, customer: UserId, milkId: nat,
                           deliveryDate: int, quantity: real, now: int)
    requires PlanDailyOrder(listings, customer, milkId, deliveryDate, quantity, now).Success?
    ensures Day(deliveryDate) > Day(now) || (Day(deliveryDate) == Day(now) && 5 <= Hour(now) < 10)
    ensures exists i :: 0 <= i < |listings| && listings[i].id == milkId && listings[i].isAvailable
                        && DeliversOn(listings[i], WeekdayOf(deliveryDate))
  {
    OrderWindowByHour(deliveryDate, now);
    var i := IndexOfListing(listings, milkId).value;
    assert listings[i].id == milkId;
  }

  /** An order for a day already past is refused whatever else holds. */
  lemma PastDailyOrderRefused(listings: seq<Milk>, customer: UserId, milkId: nat,
                              deliveryDate: int, quantity: real, now: int)
    requires Day(deliveryDate) < Day(now)
    ensures PlanDailyOrder(listings, customer, milkId, deliveryDate, quantity, now)
            == Fail(BadRequest(PAST_DATE_MESSAGE))
  {
  }

  /** `createDailyOrder`: append the planned order, or change nothing. */
  method CreateDailyOrder(orders: OrderCollection, listings: seq<Milk>, customer: UserId,
                          milkId: nat, deliveryDate: int, quantity: real, now: int)
    returns (r: Outcome<Order>)
    modifies orders
    ensures r == PlanDailyOrder(listings, customer, milkId, deliveryDate, quantity, now)
    ensures r.Success? ==> orders.orders == old(orders.orders) + [r.value]
    ensures r.Fail? ==> orders.orders == old(orders.orders)
  {
    r := PlanDailyOrder(listings, customer, milkId, deliveryDate, quantity, now);
    if r.Success? {
      orders.orders := orders.orders + [r.value];
    }
  }

  /** `updateOrderStatus`: ownership and the status enumeration are checked,
      and nothing else — any status may follow any other. */
  function StatusUpdate(orders: seq<Order>, id: nat, caller: UserId, status: string): (r: Outcome<Order>)
    ensures id >= |orders| ==> r == Fail(NotFound(ORDER_NOT_FOUND))
    ensures id < |orders| && orders[id].seller != caller ==> r == Fail(Forbidden(NOT_AUTHORIZED_STATUS))
    ensures id < |orders| && orders[id].seller == caller ==>
              match ParseOrderStatus(status)
              case None => r == Fail(ServerError(STATUS_ERROR))
              case Some(s) => r == Success(orders[id].(status := s))
  {
    if id >= |orders| then Fail(NotFound(ORDER_NOT_FOUND))
    else if orders[id].seller != caller then Fail(Forbidden(NOT_AUTHORIZED_STATUS))
    else match ParseOrderStatus(status)
      case None => Fail(ServerError(STATUS_ERROR))
      case Some(s) => Success(orders[id].(status := s))
  }

  /** No transition check: the owning seller can move an order from any status
      to any status, even out of cancelled or delivered. */
  lemma StatusUpdateUnrestricted(orders: seq<Order>, id: nat, s: OrderStatus)
    requires id < |orders|
    ensures StatusUpdate(orders, id, orders[id].seller, OrderStatusName(s)).Success?
    ensures StatusUpdate(orders, id, orders[id].seller, OrderStatusName(s)).value.status == s
  {
    match s
    case Pending =>
    case Confirmed =>
    case Delivered =>
    case Cancelled =>
  }

  method UpdateOrderStatus(orders: OrderCollection, id: nat, caller: UserId, status: string)
    returns (r: Outcome<Order>)
    modifies orders
    ensures r == StatusUpdate(old(orders.orders), id, caller, status)
    ensures r.Success? ==> orders.orders == old(orders.orders)[id := r.value]
    ensures r.Fail? ==> orders.orders == old(orders.orders)
  {
    r := StatusUpdate(orders.orders, id, caller, status);
    if r.Success? {
      orders.orders := orders.orders[id := r.value];
    }
  }

  /** `cancelOrder`: only the ordering customer, only while neither delivered
      nor cancelled; the cancellation records the instant and the reason. */
  function Cancellation(orders: seq<Order>, id: nat, caller: UserId, reason: Option<string>,
                        now: int): (r: Outcome<Order>)
    ensures id >= |orders| ==> r == Fail(NotFound(ORDER_NOT_FOUND))
    ensures id < |orders| && orders[id].customer != caller ==> r == Fail(Forbidden(NOT_AUTHORIZED_CANCEL))
    ensures id < |orders| && orders[id].customer == caller && (orders[id].status == Delivered || orders[id].status == OrderStatus.Cancelled)
            ==> r == Fail(BadRequest(CannotCancel(orders[id].status)))
    ensures r.Success? <==> id < |orders| && orders[id].customer == caller
                            && (orders[id].status == Pending || orders[id].status == Confirmed)
    ensures r.Success? ==> r.value == orders[id].(status := OrderStatus.Cancelled,
                                                  cancelledAt := Some(now), cancelReason := reason)
  {
    if id >= |orders| then Fail(NotFound(ORDER_NOT_FOUND))
    else
      var o := orders[id];
      if o.customer != caller then Fail(Forbidden(NOT_AUTHORIZED_CANCEL))
      else match o.status
        case Delivered => Fail(BadRequest(CannotCancel(o.status)))
        case Cancelled => Fail(BadRequest(CannotCancel(o.status)))
        case _ => Success(o.(status := Cancelled, cancelledAt := Some(now), cancelReason := reason))
  }

  /** A cancelled order stays cancelled: a second cancellation request is refused. */
  lemma CancelTwiceRefused(orders: seq<Order>, id: nat, caller: UserId, reason: Option<string>,
                           now: int, reason2: Option<string>, later: int)
    requires Cancellation(orders, id, caller, reason, now).Success?
    ensures var after := orders[id := Cancellation(orders, id, caller, reason, now).value];
            Cancellation(after, id, caller, reason2, later)
              == Fail(BadRequest("Cannot cancel order with status: cancelled"))
  {
    assert CannotCancel(OrderStatus.Cancelled) == "Cannot cancel order with status: cancelled";
  }

  method CancelOrder(orders: OrderCollection, id: nat, caller: UserId, reason: Option<string>, now: int)
    returns (r: Outcome<Order>)
    modifies orders
    ensures r == Cancellation(old(orders.orders), id, caller, reason, now)
    ensures r.Success? ==> orders.orders == old(orders.orders)[id := r.value]
    ensures r.Fail? ==> orders.orders == old(orders.orders)
  {
    r := Cancellation(orders.orders, id, caller, reason, now);
    if r.Success? {
      orders.orders := orders.orders[id := r.value];
    }
  }
}
