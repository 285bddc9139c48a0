/** What a session goes through when everything succeeds, and what it means to break off. */
module Itinerary {
  import opened Outcomes
  import opened Messages
  import opened Times
  import opened Bookings
  import opened CleaningService
  import opened Clock
  import opened FrameAccounting
  import opened Journal
  import Reception

  /** The entry is of something whose failure is the end. After a check-in by document has failed, the number is asked
      for. */
  predicate CanFail(e: Entry) {
    e.Said? || e.Came? || e.Ordered? || e.Looked? || (e.Admitted? && !e.call.CheckInByDocument?) || e.Done?
  }

  /** A beginning of the plan was done, and the attempt at what comes next in it failed. */
  ghost predicate BrokeOff(before: seq<Entry>, after: seq<Entry>, plan: seq<Entry>) {
    var n := |after| - |before| - 1;
    0 <= n < |plan| && CanFail(plan[n]) && after == before + plan[..n] + [Failing(plan[n])]
  }

  /** The plan was followed: to its end, or until it broke off. */
  ghost predicate Followed(before: seq<Entry>, after: seq<Entry>, plan: seq<Entry>, ok: bool) {
    if ok then after == before + plan else BrokeOff(before, after, plan)
  }

  lemma BrokeOffLater(before: seq<Entry>, done: seq<Entry>, after: seq<Entry>, plan: seq<Entry>)
    requires BrokeOff(before + done, after, plan)
    ensures BrokeOff(before, after, done + plan)
  {
    var n := |after| - |before| - 1;
    assert (done + plan)[..n] == done + plan[..n - |done|];
  }

  lemma BrokeOffEarlier(before: seq<Entry>, after: seq<Entry>, plan: seq<Entry>, more: seq<Entry>)
    requires BrokeOff(before, after, plan)
    ensures BrokeOff(before, after, plan + more)
  {
    var n := |after| - |before| - 1;
    assert (plan + more)[..n] == plan[..n];
  }

  /** Two plans, the second followed only when the first was followed to its end. */
  lemma FollowedOn(before: seq<Entry>, mid: seq<Entry>, after: seq<Entry>, plan: seq<Entry>, more: seq<Entry>,
                   first: bool, ok: bool)
    requires Followed(before, mid, plan, first)
    requires if first then Followed(mid, after, more, ok) else after == mid && !ok
    ensures Followed(before, after, plan + more, ok)
  {
    if !first {
      BrokeOffEarlier(before, after, plan, more);
    } else if ok {
      assert before + plan + more == before + (plan + more);
    } else {
      BrokeOffLater(before, plan, after, more);
    }
  }

  lemma FollowedThrough(e0: seq<Entry>, e1: seq<Entry>, e2: seq<Entry>, e3: seq<Entry>,
                        p1: seq<Entry>, p2: seq<Entry>, p3: seq<Entry>, ok1: bool, ok2: bool, ok: bool)
    requires Followed(e0, e1, p1, ok1)
    requires if ok1 then Followed(e1, e2, p2, ok2) else e2 == e1 && !ok2
    requires if ok2 then Followed(e2, e3, p3, ok) else e3 == e2 && !ok
    ensures Followed(e0, e3, p1 + p2 + p3, ok)
  {
    FollowedOn(e0, e1, e2, p1, p2, ok1, ok2);
    FollowedOn(e0, e2, e3, p1 + p2, p3, ok2, ok);
  }

  // ---------- the stay ----------

  function Meal(hour: int, notification: SystemNotification): seq<Entry> {
    [Came(hour), Said(Told(notification))]
  }

  /** The guest announces something, and then the cottage is ordered to be cleaned. */
  function Cleaning(action: GuestAction, room: string, requestType: RequestType): seq<Entry> {
    [Said(Heard(action)), Ordered(CleaningOrder(room, requestType))]
  }

  function Breakfast(): seq<Entry> {
    [Said(Heard(Wakeup))] + Meal(6, BreakfastReady) + [Said(Heard(GoForBreakfast))]
  }

  /** Dinner is waited for and announced once more before the guest may go there. */
  function SleepPreparation(room: string): seq<Entry> {
    Meal(18, DinnerReady) + Cleaning(GoForDinner, room, PrepareForSleep)
  }

  function BathAndDinner(): seq<Entry> {
    [Said(Heard(GoForABath))] + Meal(18, DinnerReady)
  }

  function Morning(room: string): seq<Entry> {
    Breakfast() + Cleaning(LeaveCleanupNotification, room, DailyCleaning) + [Said(Heard(EnjoyResort))]
  }

  function Evening(room: string): seq<Entry> {
    BathAndDinner() + SleepPreparation(room) + [Said(Heard(GoToSleep))]
  }

  function FirstEvening(room: string): seq<Entry> {
    [Said(Heard(EnterCottage))] + Evening(room)
  }

  function FullDay(room: string): seq<Entry> {
    Morning(room) + Evening(room)
  }

  function Departure(): seq<Entry> {
    [Said(Heard(Wakeup)), Said(Heard(LeaveCottage))]
  }

  // ---------- check-in and check-out ----------

  /** The clock is read before anything is asked. */
  function Greeting(reading: Reading, document: string): seq<Entry> {
    [Said(Heard(ShowForCheckin)), Looked(reading)]
    + [Said(Asked(RequestDocument, document)), Said(Told(BookingChecking))]
  }

  function ByNumber(document: string, today: Time, number: string, b: Booking): seq<Entry> {
    [Said(Asked(RequestBookingNumber, number))] + [Admitted(Reception.CheckInByNumber(document, number, today), b)]
  }

  /** The booking number is not given, or it does not lead to a check-in either. */
  function NotByNumber(document: string, today: Time, number: Option<string>): seq<Entry> {
    match number {
      case None => [Unsaid(Ask(RequestBookingNumber))]
      case Some(n) =>
        [Said(Asked(RequestBookingNumber, n))] + [NotDone(Reception.CheckInByNumber(document, n, today))]
    }
  }

  /** The booking number is asked for only when the document alone does not lead to a check-in. */
  function Finding(document: string, today: Time, number: Option<string>, b: Booking): seq<Entry> {
    match number {
      case None => [Admitted(Reception.CheckInByDocument(document, today), b)]
      case Some(n) => [NotDone(Reception.CheckInByDocument(document, today))] + ByNumber(document, today, n, b)
    }
  }

  function Handover(room: string, keyNumber: string): seq<Entry> {
    [Said(Told(CheckInComplete)), Said(Asked(GiveCottageKey, keyNumber))]
    + ([Said(Heard(TakeCottageKey))] + [Done(Reception.ReceiveKey(room, keyNumber))])
  }

  /** How a guest moved in: with which document, and booking number if one was needed; on which day, on which booking
      and with which key. */
  datatype Arrival = Arrival(document: string, number: Option<string>, today: Time, b: Booking, keyNumber: string)

  function Admission(a: Arrival): seq<Entry> {
    Finding(a.document, a.today, a.number, a.b) + Handover(a.b.cottageName, a.keyNumber)
  }

  function MovingIn(a: Arrival): seq<Entry> {
    Greeting(At(a.today), a.document) + Admission(a)
  }

  /** Without a time the check-in ends after the greeting. */
  ghost predicate MovingInBrokeOff(before: seq<Entry>, after: seq<Entry>, a: Arrival) {
    || BrokeOff(before, after, MovingIn(a))
    || BrokeOff(before, after, Greeting(NoTime, a.document)) || after == before + Greeting(NoTime, a.document)
  }

  /** The clock is read before the guest is waited for. */
  function ReturningKey(reading: Reading, keyNumber: string): seq<Entry> {
    [Looked(reading), Said(Heard(ProceedToCheckout))]
    + [Said(Asked(RequestCottageKey, keyNumber)), Said(Heard(GuestAction.ReturnCottageKey))]
  }

  function KeyBack(room: string, keyNumber: string): seq<Entry> {
    [Done(Reception.ReturnKey(room, keyNumber))]
  }

  function Settling(b: Booking, today: Time): seq<Entry> {
    [Done(Reception.CheckOut(b, today))]
  }

  /** The key is back before anything else is done. */
  function MovingOut(b: Booking, today: Time, keyNumber: string): seq<Entry> {
    ReturningKey(At(today), keyNumber) + KeyBack(b.cottageName, keyNumber)
    + (Settling(b, today) + [Said(Told(CheckOutComplete))])
  }

  /** Without a time the check-out ends once the key is back. */
  ghost predicate MovingOutBrokeOff(before: seq<Entry>, after: seq<Entry>, b: Booking, today: Time, keyNumber: string) {
    var undated := ReturningKey(NoTime, keyNumber) + KeyBack(b.cottageName, keyNumber);
    || BrokeOff(before, after, MovingOut(b, today, keyNumber))
    || BrokeOff(before, after, undated) || after == before + undated
  }
}
