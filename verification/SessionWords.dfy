/** What a session spells: its orders, the hours it waits for, and its conversation. */
module SessionWords {
  import opened Outcomes
  import opened Sequences
  import opened Messages
  import opened Times
  import opened CleaningService
  import opened Clock
  import opened FrameAccounting

  // ---------- orders and hours ----------

  /** The orders of `k` full days in a cottage. */
  function DayOrders(room: string, k: nat): seq<CleaningOrder> {
    if k == 0 then []
    else DayOrders(room, k - 1) + [CleaningOrder(room, DailyCleaning), CleaningOrder(room, PrepareForSleep)]
  }

  function StayOrders(room: string, k: nat): seq<CleaningOrder> {
    [CleaningOrder(room, PrepareForSleep)] + DayOrders(room, k)
  }

  function Prepared(room: string): seq<CleaningOrder> {
    [CleaningOrder(room, PrepareForGuest)]
  }

  /** All orders of a session with `k` full days. */
  function SessionOrders(room: string, k: nat): seq<CleaningOrder> {
    Prepared(room) + StayOrders(room, k) + [CleaningOrder(room, FullCleaning)]
  }

  /** The hours of the events that let a stay go on: dinner waits for two of them. */
  function DayMeals(k: nat): seq<int> {
    if k == 0 then [] else DayMeals(k - 1) + [6, 18, 18]
  }

  function StayMeals(k: nat): seq<int> {
    [18, 18] + DayMeals(k)
  }

  /** Dinner takes two events of 18:00 an evening, breakfast one of 6:00 a full day. */
  lemma {:induction false} MealsOfDays(k: nat)
    ensures multiset(DayMeals(k))[18] == 2 * k && multiset(DayMeals(k))[6] == k
  {
    if k > 0 {
      var before, more := DayMeals(k - 1), [6, 18, 18];
      MealsOfDays(k - 1);
      assert multiset(more)[18] == 2 && multiset(more)[6] == 1;
      assert multiset(before + more) == multiset(before) + multiset(more);
    }
  }

  lemma MealsOfAStay(k: nat)
    ensures multiset(StayMeals(k))[18] == 2 * (k + 1) && multiset(StayMeals(k))[6] == k
  {
    MealsOfDays(k);
    assert multiset([18, 18])[18] == 2 && multiset([18, 18])[6] == 0;
    assert multiset([18, 18] + DayMeals(k)) == multiset([18, 18]) + multiset(DayMeals(k));
  }

  /** A stay with `k` full days uses up at least two hour changes of 18:00 an evening, each in its turn. */
  lemma DinnerTakesTwoEventsAnEvening(before: seq<Time>, after: seq<Time>, k: nat) returns (used: seq<Time>)
    requires Serves(before, after, StayMeals(k))
    ensures before == used + after && Subsequence(StayMeals(k), HoursOf(used))
    ensures multiset(HoursOf(used))[18] >= 2 * (k + 1) && multiset(HoursOf(used))[6] >= k
  {
    used := ServedHoursWereEvents(before, after, StayMeals(k));
    MealsOfAStay(k);
    ServingTakesEvents(before, after, StayMeals(k), 18);
    ServingTakesEvents(before, after, StayMeals(k), 6);
    assert HoursOf(before) == HoursOf(used) + HoursOf(after);
  }

  // ---------- conversation ----------

  /** The booking number is asked for only when the document alone does not lead to a check-in. */
  function CheckInTalk(document: string, number: Option<string>, key: string): seq<Talk> {
    [Heard(ShowForCheckin), Asked(RequestDocument, document), Told(BookingChecking)]
    + NumberTalk(number)
    + KeyTalk(key)
  }

  function NumberTalk(number: Option<string>): seq<Talk> {
    if number.Some? then [Asked(RequestBookingNumber, number.value)] else []
  }

  function KeyTalk(key: string): seq<Talk> {
    [Told(CheckInComplete), Asked(GiveCottageKey, key), Heard(TakeCottageKey)]
  }

  /** Dinner is announced twice before the guest goes there. */
  const EVENING := [Heard(GoForABath), Told(DinnerReady), Told(DinnerReady), Heard(GoForDinner), Heard(GoToSleep)]

  const MORNING := [Heard(Wakeup), Told(BreakfastReady), Heard(GoForBreakfast), Heard(LeaveCleanupNotification),
                    Heard(EnjoyResort)]

  const DEPARTURE := [Heard(Wakeup), Heard(LeaveCottage)]

  /** The first evening and `k` full days. */
  function StayTalk(k: nat): seq<Talk> {
    if k == 0 then [Heard(EnterCottage)] + EVENING else StayTalk(k - 1) + (MORNING + EVENING)
  }

  function CheckOutTalk(key: string): seq<Talk> {
    [Heard(ProceedToCheckout), Asked(RequestCottageKey, key), Heard(ReturnCottageKey), Told(CheckOutComplete)]
  }

  function TalkOfSession(document: string, number: Option<string>, given: string, k: nat, returned: string): seq<Talk> {
    CheckInTalk(document, number, given) + StayTalk(k) + DEPARTURE + CheckOutTalk(returned)
  }
}
