/** The stay: from the first evening through the full days to the morning of departure. */
module StayHandler {
  import opened Outcomes
  import opened Messages
  import opened FrameAccounting
  import opened Journal
  import Itinerary
  import StayRecord
  import StayTransition
  import Bookings
  import CleaningService
  import Handlers
  import Clock
  import Times

  class StayHandler {
    /** The connection, the clock, the two streams and the cleaning service, and the record of their use. */
    const journal: Journal

    constructor (journal: Journal)
      ensures this.journal == journal
    {
      this.journal := journal;
    }

    ghost predicate Valid()
      reads journal, journal.reader, journal.reader.chat, journal.clock, journal.dayChanges
      reads journal.notificationService, journal.receptionService.Parts()
    {
      journal.Valid()
    }

    method WaitForAction(action: GuestAction) returns (r: Result<Unit>)
      requires Valid() && action != Unspecified
      modifies journal, journal.reader, journal.reader.chat
      ensures Valid()
      ensures Itinerary.Followed(old(journal.entries), journal.entries, [Said(Heard(action))], r.Success?)
    {
      r := Handlers.Hear(journal, action);
    }

    /** A meal is announced when an hour change of that hour has come, and only then. */
    method NotifyMeal(hour: int, notification: SystemNotification) returns (r: Result<Unit>)
      requires Valid()
      modifies journal, journal.notificationService, journal.reader, journal.reader.chat
      ensures Valid()
      ensures Itinerary.Followed(old(journal.entries), journal.entries, Itinerary.Meal(hour, notification), r.Success?)
    {
      var _ :- AwaitHour(hour);
      r := Handlers.Tell(journal, notification);
    }

    method AwaitHour(hour: int) returns (r: Result<Unit>)
      requires Valid()
      modifies journal, journal.notificationService
      ensures Valid()
      ensures journal.entries == old(journal.entries) + [Handlers.Attempted(Came(hour), r.Success?)]
    {
      ghost var before := journal.Now();
      var event := journal.notificationService.HourNotification(hour);
      r := if event.Some? then Success(Unit) else Failure(Canceled);
      journal.Note(Handlers.Attempted(Came(hour), r.Success?), before);
    }

    method NotifyDinner() returns (r: Result<Unit>)
      requires Valid()
      modifies journal, journal.notificationService, journal.reader, journal.reader.chat
      ensures Valid()
      ensures Itinerary.Followed(old(journal.entries), journal.entries, Itinerary.Meal(18, DinnerReady), r.Success?)
    {
      r := NotifyMeal(18, DinnerReady);
    }

    method NotifyBreakfast() returns (r: Result<Unit>)
      requires Valid()
      modifies journal, journal.notificationService, journal.reader, journal.reader.chat
      ensures Valid()
      ensures Itinerary.Followed(old(journal.entries), journal.entries, Itinerary.Meal(6, BreakfastReady), r.Success?)
    {
      r := NotifyMeal(6, BreakfastReady);
    }

    method Order(room: string, requestType: CleaningService.RequestType) returns (r: Result<Unit>)
      requires Valid()
      modifies journal, journal.cleaningService
      ensures Valid()
      ensures Itinerary.Followed(old(journal.entries), journal.entries,
                       [Ordered(CleaningService.CleaningOrder(room, requestType))], r.Success?)
    {
      ghost var before := journal.Now();
      var order := CleaningService.NewCleaningOrder(room, requestType);
      if order.Failure? {
        r := Failure(order.error);
      } else {
        r := journal.cleaningService.CleanRoom(order.value);
      }
      journal.Note(Handlers.Attempted(Ordered(CleaningService.CleaningOrder(room, requestType)), r.Success?), before);
    }

    /** Waits for the guest's word, and then has the cottage cleaned. */
    method CleanAfter(action: GuestAction, room: string, requestType: CleaningService.RequestType)
      returns (r: Result<Unit>)
      requires Valid() && action != Unspecified
      modifies journal, journal.reader, journal.reader.chat, journal.cleaningService
      ensures Valid()
      ensures Itinerary.Followed(old(journal.entries), journal.entries,
                                 Itinerary.Cleaning(action, room, requestType), r.Success?)
    {
      var _ :- WaitForAction(action);
      r := Order(room, requestType);
    }

    method CleanCottage(room: string) returns (r: Result<Unit>)
      requires Valid()
      modifies journal, journal.reader, journal.reader.chat, journal.cleaningService
      ensures Valid()
      ensures Itinerary.Followed(old(journal.entries), journal.entries,
                       Itinerary.Cleaning(LeaveCleanupNotification, room, CleaningService.DailyCleaning), r.Success?)
    {
      r := CleanAfter(LeaveCleanupNotification, room, CleaningService.DailyCleaning);
    }

    /** Waits for dinner once more before the guest may go there. */
    method PrepareCottageForSleep(room: string) returns (r: Result<Unit>)
      requires Valid()
      modifies journal, journal.reader, journal.reader.chat, journal.cleaningService, journal.notificationService
      ensures Valid()
      ensures Itinerary.Followed(old(journal.entries), journal.entries, Itinerary.SleepPreparation(room), r.Success?)
    {
      r := NotifyDinner();
      ghost var told, ok := journal.entries, r.Success?;
      if r.Success? {
        r := CleanAfter(GoForDinner, room, CleaningService.PrepareForSleep);
      }
      Itinerary.FollowedOn(old(journal.entries), told, journal.entries, Itinerary.Meal(18, DinnerReady),
                           Itinerary.Cleaning(GoForDinner, room, CleaningService.PrepareForSleep), ok, r.Success?);
    }

    method Breakfast() returns (r: Result<Unit>)
      requires Valid()
      modifies journal, journal.reader, journal.reader.chat, journal.notificationService
      ensures Valid()
      ensures Itinerary.Followed(old(journal.entries), journal.entries, Itinerary.Breakfast(), r.Success?)
    {
      r := WaitForAction(Wakeup);
      ghost var awake, ok1 := journal.entries, r.Success?;
      if r.Success? {
        r := NotifyBreakfast();
      }
      ghost var told, ok2 := journal.entries, r.Success?;
      if r.Success? {
        r := WaitForAction(GoForBreakfast);
      }
      Itinerary.FollowedThrough(old(journal.entries), awake, told, journal.entries, [Said(Heard(Wakeup))],
        Itinerary.Meal(6, BreakfastReady), [Said(Heard(GoForBreakfast))], ok1, ok2, r.Success?);
    }

    method BathAndDinner() returns (r: Result<Unit>)
      requires Valid()
      modifies journal, journal.reader, journal.reader.chat, journal.notificationService
      ensures Valid()
      ensures Itinerary.Followed(old(journal.entries), journal.entries, Itinerary.BathAndDinner(), r.Success?)
    {
      r := WaitForAction(GoForABath);
      ghost var bathing, ok := journal.entries, r.Success?;
      if r.Success? {
        r := NotifyDinner();
      }
      Itinerary.FollowedOn(old(journal.entries), bathing, journal.entries, [Said(Heard(GoForABath))],
                           Itinerary.Meal(18, DinnerReady), ok, r.Success?);
    }

    /** From the bath to bed, the part that the first day and every full day have in common. */
    method Evening(room: string) returns (r: Result<Unit>)
      requires Valid()
      modifies journal, journal.reader, journal.reader.chat, journal.cleaningService, journal.notificationService
      ensures Valid()
      ensures Itinerary.Followed(old(journal.entries), journal.entries, Itinerary.Evening(room), r.Success?)
    {
      r := BathAndDinner();
      ghost var told, ok1 := journal.entries, r.Success?;
      if r.Success? {
        r := PrepareCottageForSleep(room);
      }
      ghost var ordered, ok2 := journal.entries, r.Success?;
      if r.Success? {
        r := WaitForAction(GoToSleep);
      }
      Itinerary.FollowedThrough(old(journal.entries), told, ordered, journal.entries, Itinerary.BathAndDinner(),
        Itinerary.SleepPreparation(room), [Said(Heard(GoToSleep))], ok1, ok2, r.Success?);
    }

    /** The morning of a full day, up to the cleaning and what follows it. */
    method Morning(room: string) returns (r: Result<Unit>)
      requires Valid()
      modifies journal, journal.reader, journal.reader.chat, journal.cleaningService, journal.notificationService
      ensures Valid()
      ensures Itinerary.Followed(old(journal.entries), journal.entries, Itinerary.Morning(room), r.Success?)
    {
      r := Breakfast();
      ghost var fed, ok1 := journal.entries, r.Success?;
      if r.Success? {
        r := CleanCottage(room);
      }
      ghost var ordered, ok2 := journal.entries, r.Success?;
      if r.Success? {
        r := WaitForAction(EnjoyResort);
      }
      Itinerary.FollowedThrough(old(journal.entries), fed, ordered, journal.entries, Itinerary.Breakfast(),
        Itinerary.Cleaning(LeaveCleanupNotification, room, CleaningService.DailyCleaning), [Said(Heard(EnjoyResort))],
        ok1, ok2, r.Success?);
    }

    method CheckInDayRoutine(b: Bookings.Booking) returns (r: Result<Unit>)
      requires Valid()
      modifies journal, journal.reader, journal.reader.chat, journal.cleaningService, journal.notificationService
      ensures Valid()
      ensures Itinerary.Followed(old(journal.entries), journal.entries,
                                 Itinerary.FirstEvening(b.cottageName), r.Success?)
    {
      r := WaitForAction(EnterCottage);
      ghost var inside, ok := journal.entries, r.Success?;
      if r.Success? {
        r := Evening(b.cottageName);
      }
      Itinerary.FollowedOn(old(journal.entries), inside, journal.entries, [Said(Heard(EnterCottage))],
                           Itinerary.Evening(b.cottageName), ok, r.Success?);
    }

    method StayRoutine(b: Bookings.Booking) returns (r: Result<Unit>)
      requires Valid()
      modifies journal, journal.reader, journal.reader.chat, journal.cleaningService, journal.notificationService
      ensures Valid()
      ensures Itinerary.Followed(old(journal.entries), journal.entries, Itinerary.FullDay(b.cottageName), r.Success?)
    {
      r := Morning(b.cottageName);
      ghost var noon, ok := journal.entries, r.Success?;
      if r.Success? {
        r := Evening(b.cottageName);
      }
      Itinerary.FollowedOn(old(journal.entries), noon, journal.entries, Itinerary.Morning(b.cottageName),
                           Itinerary.Evening(b.cottageName), ok, r.Success?);
    }

    method CheckoutDayRoutine() returns (r: Result<Unit>)
      requires Valid()
      modifies journal, journal.reader, journal.reader.chat
      ensures Valid()
      ensures Itinerary.Followed(old(journal.entries), journal.entries, Itinerary.Departure(), r.Success?)
    {
      var _ :- WaitForAction(Wakeup);
      r := WaitForAction(LeaveCottage);
    }

    // ---------- the wait for the next day ----------

    ghost function Now(): StayTransition.World
      reads journal, journal.clock, journal.dayChanges
    {
      StayTransition.World(if journal.clock == null then None else Some(journal.clock.readings),
                           journal.dayChanges.wakes, journal.entries)
    }

    method IsCheckoutReachedNow(b: Bookings.Booking) returns (r: Result<bool>)
      requires Valid()
      modifies journal, journal.clock
      ensures Valid() && StayTransition.Decision(r, Now()) == StayTransition.Glance(old(Now()), b)
      ensures r == Success(true) <==>
        && journal.clock != null
        && old(journal.clock.readings) != [] && old(journal.clock.readings)[0].At?
        && Times.Day(old(journal.clock.readings)[0].t) >= Times.Day(b.stayPeriod.checkOut)
      ensures r.Failure? <==>
        && journal.clock != null
        && (old(journal.clock.readings) == [] || old(journal.clock.readings)[0] == Clock.Unavailable)
    {
      if journal.clock == null {
        return Success(false);
      }
      ghost var before := journal.Now();
      var now := journal.clock.Now();
      journal.Note(Looked(Clock.NextReading(before.readings)), before);
      if now.Failure? {
        return Failure(now.error);
      }
      if now.value.None? {
        return Success(false);
      }
      return Success(StayTransition.CheckoutReached(b, now.value.value));
    }

    method Select() returns (wake: Clock.Wake)
      requires Valid()
      modifies journal, journal.dayChanges
      ensures Valid() && wake == Clock.NextWake(old(journal.dayChanges.wakes))
      ensures Now() == old(Now()).(wakes := Clock.LaterWakes(old(journal.dayChanges.wakes)),
                                   entries := old(journal.entries) + [Woke(wake)])
    {
      ghost var before := journal.Now();
      wake := journal.dayChanges.Select();
      journal.Note(Woke(wake), before);
    }

    /** Without a clock. The ticker does not run then; were it to, it would decide nothing. */
    method WaitDayChangeEvent(ghost b: Bookings.Booking) returns (r: Result<Times.Time>)
      requires Valid() && journal.clock == null
      modifies journal, journal.dayChanges
      ensures Valid()
      ensures StayTransition.AwaitDay(old(Now()), b)
           == StayTransition.Decision(if r.Success? then Success(StayTransition.CheckoutReached(b, r.value))
                                      else Failure(r.error), Now())
      ensures r.Success? ==>
        journal.entries != [] && journal.entries[|journal.entries| - 1] == Woke(Clock.DayChange(r.value))
    {
      while true
        invariant Valid() && StayTransition.AwaitDay(Now(), b) == StayTransition.AwaitDay(old(Now()), b)
        decreases |journal.dayChanges.wakes|
      {
        var w := Select();
        match w {
          case ContextDone => return Failure(Canceled);
          case StreamClosed => return Failure(DayStreamClosed);
          case DayChange(t) => return Success(t);
          case Ticker =>
        }
      }
    }

    /** True once a clock reading or a day event has reached the check-out day, false after an earlier day event. */
    method WaitForStayTransition(b: Bookings.Booking) returns (r: Result<bool>)
      requires Valid()
      modifies journal, journal.dayChanges, journal.clock
      ensures Valid() && StayTransition.Decision(r, Now()) == StayTransition.Transition(old(Now()), b)
      ensures r.Success? ==> StayTransition.DecidedBy(journal.entries, b, r.value)
    {
      StayTransition.TransitionDecides(Now(), b);
      var first := IsCheckoutReachedNow(b);
      if first == Success(true) {
        return first;
      }
      if journal.clock == null {
        var timeEvent :- WaitDayChangeEvent(b);
        return Success(StayTransition.CheckoutReached(b, timeEvent));
      }
      while true
        invariant Valid() && StayTransition.AwaitDay(Now(), b) == StayTransition.Transition(old(Now()), b)
        decreases |journal.dayChanges.wakes|
      {
        var w := Select();
        match w {
          case ContextDone => return Failure(Canceled);
          case StreamClosed => return Failure(DayStreamClosed);
          case DayChange(t) => return Success(StayTransition.CheckoutReached(b, t));
          case Ticker =>
            r := IsCheckoutReachedNow(b);
            if r == Success(true) {
              return;
            }
        }
      }
    }

    /** Waits for the next day, and says what the wait looks like on the record. */
    method NextDay(b: Bookings.Booking) returns (r: Result<bool>, ghost wait: seq<Entry>)
      requires Valid()
      modifies journal, journal.dayChanges, journal.clock
      ensures Valid() && StayTransition.Decision(r, Now()) == StayTransition.Transition(old(Now()), b)
      ensures journal.entries == old(journal.entries) + wait
      ensures StayRecord.IsWholeWait(wait, b, journal.clock != null, StayTransition.VerdictOf(r))
      ensures r == Success(false) ==> |journal.dayChanges.wakes| < |old(journal.dayChanges.wakes)|
    {
      ghost var start := |journal.entries|;
      r := WaitForStayTransition(b);
      StayTransition.TransitionIsAWait(old(Now()), b, start);
      StayRecord.WaitAlone(journal.entries, start, b, journal.clock != null, StayTransition.VerdictOf(r));
      wait := journal.entries[start..];
    }

    // ---------- the whole stay ----------

    /** One evening, then a full day after each wait that ends before the check-out day, and the morning of departure
        after the one that reaches it; or a beginning of that, up to what failed. */
    method Handle(b: Bookings.Booking) returns (r: Result<Unit>, ghost log: StayRecord.StayLog)
      requires Valid()
      modifies journal, journal.reader, journal.reader.chat, journal.cleaningService, journal.notificationService
      modifies journal.dayChanges, journal.clock
      ensures Valid()
      ensures StayRecord.Went(old(journal.entries), journal.entries, b, journal.clock != null, log, r.Success?)
    {
      log := StayRecord.StayLog([], []);
      r := CheckInDayRoutine(b);
      if r.Failure? {
        return;
      }
      r, log := FullDays(b, old(journal.entries));
      if r.Success? {
        r := CheckoutDayRoutine();
      }
    }

    /** Full days until the check-out day is reached. */
    method FullDays(b: Bookings.Booking, ghost before: seq<Entry>)
      returns (r: Result<Unit>, ghost log: StayRecord.StayLog)
      requires Valid() && journal.entries == before + Itinerary.FirstEvening(b.cottageName)
      modifies journal, journal.reader, journal.reader.chat, journal.cleaningService, journal.notificationService
      modifies journal.dayChanges, journal.clock
      ensures Valid()
      ensures r.Success? ==> StayRecord.WaitedOn(before, journal.entries, b, journal.clock != null, log, Some(true))
      ensures r.Failure? ==> StayRecord.StayBrokeOff(before, journal.entries, b, journal.clock != null, log)
    {
      ghost var clocked := journal.clock != null;
      var checkoutReached;
      ghost var wait;
      checkoutReached, wait := NextDay(b);
      log := StayRecord.StayLog([], wait);
      StayRecord.FirstWait(before, old(journal.entries), wait, b, clocked, StayTransition.VerdictOf(checkoutReached));
      while checkoutReached == Success(false)
        invariant Valid()
        invariant StayRecord.WaitedOn(before, journal.entries, b, clocked, log,
                                      StayTransition.VerdictOf(checkoutReached))
        decreases checkoutReached == Success(false), |journal.dayChanges.wakes|
      {
        r, checkoutReached, log := FullDay(b, before, log);
        if r.Failure? {
          return;
        }
      }
      StayRecord.NoMoreDays(before, journal.entries, b, clocked, log, checkoutReached);
      r := if checkoutReached.Failure? then Failure(checkoutReached.error) else Success(Unit);
    }

    /** One full day and the wait after it. */
    method FullDay(b: Bookings.Booking, ghost before: seq<Entry>, ghost log: StayRecord.StayLog)
      returns (r: Result<Unit>, checkoutReached: Result<bool>, ghost log': StayRecord.StayLog)
      requires Valid()
      requires StayRecord.WaitedOn(before, journal.entries, b, journal.clock != null, log, Some(false))
      modifies journal, journal.reader, journal.reader.chat, journal.cleaningService, journal.notificationService
      modifies journal.dayChanges, journal.clock
      ensures Valid()
      ensures r.Success? ==>
        && StayRecord.WaitedOn(before, journal.entries, b, journal.clock != null, log',
                               StayTransition.VerdictOf(checkoutReached))
        && (checkoutReached == Success(false) ==> |journal.dayChanges.wakes| < |old(journal.dayChanges.wakes)|)
      ensures r.Failure? ==> StayRecord.StayBrokeOff(before, journal.entries, b, journal.clock != null, log')
    {
      log', checkoutReached := log, Success(false);
      r := StayRoutine(b);
      if r.Failure? {
        StayRecord.BrokeOffInADay(before, old(journal.entries), journal.entries, b, journal.clock != null, log);
        return;
      }
      ghost var night, wait := journal.entries, [];
      checkoutReached, wait := NextDay(b);
      StayRecord.AnotherDay(before, old(journal.entries), night, wait, b, journal.clock != null, log,
                            StayTransition.VerdictOf(checkoutReached));
      log' := StayRecord.StayLog(log.waits + [log.last], wait);
    }
  }
}
