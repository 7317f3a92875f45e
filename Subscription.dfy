/** A subscription: a contiguous run of daily deliveries from a start day,
    whose single days can be paused, each pause sliding the end by one day. */
module SubscriptionModel {

  import opened Common
  import opened Clock

  datatype SubscriptionStatus = Active | Paused | Completed | Cancelled

  function SubscriptionStatusName(s: SubscriptionStatus): string
  {
    match s
    case Active => "active"
    case Paused => "paused"
    case Completed => "completed"
    case Cancelled => "cancelled"
  }

  /** A paused day: the instant the customer named and when the pause was recorded. */
  datatype PausedDate = PausedDate(date: int, pausedAt: int)

  /** Some paused entry falls on the calendar day of `check`. */
  predicate DayPaused(paused: seq<PausedDate>, check: int)
  {
    exists i :: 0 <= i < |paused| && Day(paused[i].date) == Day(check)
  }

  /** Days from `now` to the end instant, rounded up; 0 once the end has passed. */
  function RemainingDays(endDate: int, now: int): (r: nat)
    ensures endDate < now ==> r == 0
    ensures now <= endDate ==> (r - 1) * DAY_MS < endDate - now <= r * DAY_MS
  {
    if endDate < now then 0 else (endDate - now + 86400000 - 1) / 86400000
  }

  /** Whole days elapsed since the start instant, never more than `totalDays`;
      0 before the start. */
  function CompletedDays(startDate: int, totalDays: nat, now: int): (r: nat)
    ensures r <= totalDays
    ensures now < startDate ==> r == 0
    ensures startDate <= now ==> r * DAY_MS <= now - startDate
    ensures startDate <= now && r < totalDays ==> now - startDate < (r + 1) * DAY_MS
  {
    if startDate > now then 0
    else
      var diffDays := (now - startDate) / 86400000;
      if diffDays < totalDays then diffDays else totalDays
  }

  /** Remaining days never grow as time passes, and are 0 from the end instant on. */
  lemma RemainingDaysNonIncreasing(endDate: int, now1: int, now2: int)
    requires now1 <= now2
    ensures RemainingDays(endDate, now2) <= RemainingDays(endDate, now1)
    ensures endDate <= now2 ==> RemainingDays(endDate, now2) == 0
  {
  }

  /** Completed days never shrink as time passes. */
  lemma CompletedDaysNonDecreasing(startDate: int, totalDays: nat, now1: int, now2: int)
    requires now1 <= now2
    ensures CompletedDays(startDate, totalDays, now1) <= CompletedDays(startDate, totalDays, now2)
  {
  }

  /** Between the start and the end instant of a schedule of `totalDays` days the
      two derived counts always add up to `totalDays - 1`: the day in progress is
      counted in neither. */
  lemma RemainingPlusCompleted(startDate: int, totalDays: nat, now: int)
    requires totalDays >= 1
    requires startDate <= now <= startDate + (totalDays - 1) * DAY_MS
    ensures RemainingDays(startDate + (totalDays - 1) * DAY_MS, now)
          + CompletedDays(startDate, totalDays, now) == totalDays - 1
  {
    var r := RemainingDays(startDate + (totalDays - 1) * DAY_MS, now);
    var c := CompletedDays(startDate, totalDays, now);
    assert (totalDays - 1 - r) * DAY_MS <= now - startDate < (totalDays - r) * DAY_MS;
  }

  const ADVANCE_MESSAGE: string := "Pause must be requested at least 1 day in advance"
  const OUTSIDE_MESSAGE: string := "Date is outside subscription period"
  const ALREADY_PAUSED_MESSAGE: string := "This date is already paused"

  /** The three checks a pause request passes, in order, the first failure
      winning: the day is tomorrow or later, the instant lies within
      [startDate, endDate], and the day is not paused yet. */
  function PauseCheck(pause: int, now: int, startDate: int, endDate: int,
                      paused: seq<PausedDate>): (v: Verdict)
    ensures Day(pause) <= Day(now) ==> v == Reject(ADVANCE_MESSAGE)
    ensures Day(pause) > Day(now) && (pause < startDate || endDate < pause)
            ==> v == Reject(OUTSIDE_MESSAGE)
    ensures Day(pause) > Day(now) && startDate <= pause <= endDate && DayPaused(paused, pause)
            ==> v == Reject(ALREADY_PAUSED_MESSAGE)
    ensures v == Accept
            <==> Day(pause) > Day(now) && startDate <= pause <= endDate && !DayPaused(paused, pause)
  {
    var tomorrow := Midnight(now) + 86400000;
    if pause < tomorrow then Reject(ADVANCE_MESSAGE)
    else if pause < startDate || pause > endDate then Reject(OUTSIDE_MESSAGE)
    else if DayPaused(paused, pause) then Reject(ALREADY_PAUSED_MESSAGE)
    else Accept
  }

  /** Once a day is among the paused dates, no request can pause it again. */
  lemma {:induction false} PauseTwiceRejected(pause: int, again: int, now: int, later: int,
                                              startDate: int, endDate: int, paused: seq<PausedDate>)
    requires Day(again) == Day(pause)
    ensures PauseCheck(again, later, startDate, endDate, paused + [PausedDate(pause, now)]) != Accept
  {
    var after := paused + [PausedDate(pause, now)];
    assert Day(after[|paused|].date) == Day(again);
  }

  /** A subscription document.  The fields declared `const` are written once, at
      creation; the pause engine and cancellation change the others. */
  class Subscription {
    const customer: UserId
    const seller: UserId
    const milk: nat
    const startDate: int
    const originalDays: nat
    const quantityPerDay: real
    const pricePerLiter: real
    const totalAmount: real
    var extendedDays: nat
    var totalDays: nat
    var endDate: int
    var status: SubscriptionStatus
    var pausedDates: seq<PausedDate>

    /** The schema bounds, and the schedule: `totalDays` is the requested days
        plus one per pause, the end lies `totalDays - 1` days after the start,
        and the paused days are distinct days of the period. */
    ghost predicate Valid()
      reads this
    {
      && originalDays >= 1
      && quantityPerDay >= 0.5
      && totalDays == originalDays + extendedDays
      && endDate == startDate + (totalDays - 1) * DAY_MS
      && extendedDays == |pausedDates|
      && (forall i, j :: 0 <= i < j < |pausedDates| ==> Day(pausedDates[i].date) != Day(pausedDates[j].date))
      && (forall i :: 0 <= i < |pausedDates| ==> startDate <= pausedDates[i].date <= endDate)
    }

    constructor (customer: UserId, seller: UserId, milk: nat, startDate: int,
                 numberOfDays: nat, quantityPerDay: real, pricePerLiter: real, totalAmount: real)
      requires numberOfDays >= 1 && quantityPerDay >= 0.5
      ensures Valid()
      ensures this.customer == customer && this.seller == seller && this.milk == milk
      ensures this.startDate == startDate && this.quantityPerDay == quantityPerDay
      ensures this.pricePerLiter == pricePerLiter && this.totalAmount == totalAmount
      ensures originalDays == numberOfDays && totalDays == numberOfDays && extendedDays == 0
      ensures endDate == startDate + (numberOfDays - 1) * DAY_MS
      ensures status == Active && pausedDates == []
    {
      this.customer := customer;
      this.seller := seller;
      this.milk := milk;
      this.startDate := startDate;
      this.originalDays := numberOfDays;
      this.quantityPerDay := quantityPerDay;
      this.pricePerLiter := pricePerLiter;
      this.totalAmount := totalAmount;
      extendedDays := 0;
      totalDays := numberOfDays;
      endDate := startDate + (numberOfDays - 1) * 86400000;
      status := Active;
      pausedDates := [];
    }

    /** Is the calendar day of `check` paused? */
    predicate IsDatePaused(check: int)
      reads this
    {
      DayPaused(pausedDates, check)
    }

    /** Pause the delivery day of instant `pause`, asked at instant `now`.  All
        checks come before any change: a rejected request changes nothing; an
        accepted one records the day and slides the end by exactly one day. */
    method PauseDate(pause: int, now: int) returns (v: Verdict)
      requires Valid()
      modifies this`pausedDates, this`endDate, this`extendedDays, this`totalDays
      ensures Valid()
      ensures v == PauseCheck(pause, now, startDate, old(endDate), old(pausedDates))
      ensures v.Accept? ==> && pausedDates == old(pausedDates) + [PausedDate(pause, now)]
                            && endDate == old(endDate) + DAY_MS
                            && extendedDays == old(extendedDays) + 1
                            && totalDays == old(totalDays) + 1
                            && IsDatePaused(pause)
      ensures v.Reject? ==> && pausedDates == old(pausedDates) && endDate == old(endDate)
                            && extendedDays == old(extendedDays) && totalDays == old(totalDays)
    {
      v := PauseCheck(pause, now, startDate, endDate, pausedDates);
      if v.Accept? {
        pausedDates := pausedDates + [PausedDate(pause, now)];
        endDate := endDate + 86400000;
        extendedDays := extendedDays + 1;
        totalDays := totalDays + 1;
        assert Day(pausedDates[|pausedDates| - 1].date) == Day(pause);
      }
    }
  }

  /** The subscription collection, in creation order.  Subscriptions are never
      removed, so a subscription's identifier is its position. */
  class SubscriptionCollection {
    var docs: seq<Subscription>

    ghost predicate Valid()
      reads this, docs
    {
      && (forall i, j :: 0 <= i < j < |docs| ==> docs[i] != docs[j])
      && (forall i :: 0 <= i < |docs| ==> docs[i].Valid())
    }

    constructor ()
      ensures Valid() && docs == []
    {
      docs := [];
    }
  }
}
