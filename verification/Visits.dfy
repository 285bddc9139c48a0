/** A whole session on the journal: check-in, stay and check-out, and what follows from it. */
module Visits {
  import opened Outcomes
  import opened Sequences
  import opened Messages
  import opened Times
  import opened Bookings
  import opened CleaningService
  import opened Clock
  import opened FrameAccounting
  import opened Journal
  import opened Itinerary
  import opened StayTransition
  import opened StayRecord
  import opened SessionWords
  import opened Totals
  import Reception

  /** How a session went: the arrival, the stay, and day and key of the check-out. */
  datatype Visit = Visit(arrival: Arrival, log: StayLog, today: Time, returned: string)

  /** A stay that went to its end, after what came before. */
  function Leaving(before: seq<Entry>, b: Booking, log: StayLog): seq<Entry> {
    before + AllDays(b.cottageName, log.waits) + log.last + Departure()
  }

  /** Everything up to the departure. */
  function UntilDeparture(b: Booking, v: Visit): seq<Entry> {
    Leaving(MovingIn(v.arrival), b, v.log)
  }

  ghost predicate EndedInTime(b: Booking, log: StayLog) {
    EndedEarly(log.waits, b, true) && IsWholeWait(log.last, b, true, Some(true))
  }

  /** Check-in, stay and check-out, one after the other. */
  ghost predicate Completed(entries: seq<Entry>, b: Booking, v: Visit) {
    && v.arrival.b == b && EndedInTime(b, v.log)
    && entries == UntilDeparture(b, v) + MovingOut(b, v.today, v.returned)
  }

  /** A beginning of that: it broke off in the check-in, before there was a booking, in the stay or in the check-out. */
  ghost predicate BrokenOff(entries: seq<Entry>, booking: Option<Booking>, v: Visit) {
    match booking {
      case None => MovingInBrokeOff([], entries, v.arrival)
      case Some(b) =>
        && v.arrival.b == b
        && (|| StayBrokeOff(MovingIn(v.arrival), entries, b, true, v.log)
            || (EndedInTime(b, v.log) && MovingOutBrokeOff(UntilDeparture(b, v), entries, b, v.today, v.returned)))
    }
  }

  /** The stay and the check-out after what came before: to the end, or to where one of them broke off. */
  ghost predicate StayedAndLeft(before: seq<Entry>, after: seq<Entry>, b: Booking, log: StayLog, today: Time,
                                returned: string, ok: bool)
  {
    if ok then EndedInTime(b, log) && after == Leaving(before, b, log) + MovingOut(b, today, returned)
    else
      || StayBrokeOff(before, after, b, true, log)
      || (EndedInTime(b, log) && MovingOutBrokeOff(Leaving(before, b, log), after, b, today, returned))
  }

  lemma StayedThenLeft(before: seq<Entry>, stayed: seq<Entry>, after: seq<Entry>, b: Booking, log: StayLog,
                       today: Time, returned: string, okStay: bool, ok: bool)
    requires Went(before, stayed, b, true, log, okStay)
    requires if !okStay then after == stayed && !ok
             else if ok then after == stayed + MovingOut(b, today, returned)
             else MovingOutBrokeOff(stayed, after, b, today, returned)
    ensures StayedAndLeft(before, after, b, log, today, returned, ok)
  {
  }

  /** A session, completed or not. A completed one has a booking, and so has one that broke off after the check-in. */
  ghost predicate IsSession(entries: seq<Entry>, booking: Option<Booking>, v: Visit) {
    (booking.Some? && Completed(entries, booking.value, v)) || BrokenOff(entries, booking, v)
  }

  // ---------- what the plans add up to ----------

  lemma TotalOfOne(e: Entry)
    ensures TotalOf([e]) == NOTHING.With(e)
  {
    assert TotalTo([e], 0) == NOTHING;
  }

  lemma TotalOfTwo(a: Entry, b: Entry)
    ensures TotalOf([a, b]) == NOTHING.With(a).With(b)
  {
    assert TotalTo([a, b], 1) == NOTHING.With(a);
  }

  lemma EveningTotal(room: string)
    ensures TotalOf(Evening(room)) == Total([CleaningOrder(room, PrepareForSleep)], EVENING, [18, 18], [], [])
  {
    BathTotal();
    SleepPreparationTotal(room);
    TotalOfOne(Said(Heard(GoToSleep)));
    TotalOfBoth(BathAndDinner(), SleepPreparation(room));
    TotalOfBoth(BathAndDinner() + SleepPreparation(room), [Said(Heard(GoToSleep))]);
  }

  lemma BathTotal()
    ensures TotalOf(BathAndDinner()) == Total([], [Heard(GoForABath), Told(DinnerReady)], [18], [], [])
  {
    TotalOfOne(Said(Heard(GoForABath)));
    TotalOfTwo(Came(18), Said(Told(DinnerReady)));
    TotalOfBoth([Said(Heard(GoForABath))], Meal(18, DinnerReady));
  }

  lemma SleepPreparationTotal(room: string)
    ensures TotalOf(SleepPreparation(room))
         == Total([CleaningOrder(room, PrepareForSleep)], [Told(DinnerReady), Heard(GoForDinner)], [18], [], [])
  {
    var prepared := Cleaning(GoForDinner, room, PrepareForSleep);
    TotalOfTwo(Came(18), Said(Told(DinnerReady)));
    TotalOfTwo(prepared[0], prepared[1]);
    TotalOfBoth(Meal(18, DinnerReady), prepared);
  }

  lemma MorningTotal(room: string)
    ensures TotalOf(Morning(room)) == Total([CleaningOrder(room, DailyCleaning)], MORNING, [6], [], [])
  {
    var cleaned := Cleaning(LeaveCleanupNotification, room, DailyCleaning);
    BreakfastTotal();
    TotalOfTwo(cleaned[0], cleaned[1]);
    TotalOfOne(Said(Heard(EnjoyResort)));
    TotalOfBoth(Breakfast(), cleaned);
    TotalOfBoth(Breakfast() + cleaned, [Said(Heard(EnjoyResort))]);
  }

  lemma BreakfastTotal()
    ensures TotalOf(Breakfast())
         == Total([], [Heard(Wakeup), Told(BreakfastReady), Heard(GoForBreakfast)], [6], [], [])
  {
    TotalOfOne(Said(Heard(Wakeup)));
    TotalOfTwo(Came(6), Said(Told(BreakfastReady)));
    TotalOfOne(Said(Heard(GoForBreakfast)));
    TotalOfBoth([Said(Heard(Wakeup))], Meal(6, BreakfastReady));
    TotalOfBoth([Said(Heard(Wakeup))] + Meal(6, BreakfastReady), [Said(Heard(GoForBreakfast))]);
  }

  lemma FirstEveningTotal(room: string)
    ensures TotalOf(FirstEvening(room))
         == Total([CleaningOrder(room, PrepareForSleep)], [Heard(EnterCottage)] + EVENING, [18, 18], [], [])
  {
    TotalOfOne(Said(Heard(EnterCottage)));
    EveningTotal(room);
    TotalOfBoth([Said(Heard(EnterCottage))], Evening(room));
  }

  lemma FullDayTotal(room: string)
    ensures TotalOf(FullDay(room))
         == Total([CleaningOrder(room, DailyCleaning), CleaningOrder(room, PrepareForSleep)],
                          MORNING + EVENING, [6, 18, 18], [], [])
  {
    MorningTotal(room);
    EveningTotal(room);
    TotalOfBoth(Morning(room), Evening(room));
  }

  lemma DepartureTotal()
    ensures TotalOf(Departure()) == Total([], DEPARTURE, [], [], [])
  {
    TotalOfTwo(Said(Heard(Wakeup)), Said(Heard(LeaveCottage)));
  }

  /** Orders, conversation and hours. */
  predicate Spells(t: Total, orders: seq<CleaningOrder>, talk: seq<Talk>, hours: seq<int>) {
    t.orders == orders && t.talk == talk && t.hours == hours
  }

  lemma SpellsBoth(a: seq<Entry>, b: seq<Entry>, o: seq<CleaningOrder>, t: seq<Talk>, h: seq<int>,
                   o': seq<CleaningOrder>, t': seq<Talk>, h': seq<int>)
    requires Spells(TotalOf(a), o, t, h) && Spells(TotalOf(b), o', t', h')
    ensures Spells(TotalOf(a + b), o + o', t + t', h + h')
  {
    TotalOfBoth(a, b);
  }

  lemma SpellsOn(a: seq<Entry>, b: seq<Entry>, o: seq<CleaningOrder>, t: seq<Talk>, h: seq<int>)
    requires Spells(TotalOf(a), o, t, h) && Spells(TotalOf(b), [], [], [])
    ensures Spells(TotalOf(a + b), o, t, h)
  {
    TotalOfBoth(a, b);
  }

  predicate IsSeen(e: Entry) {
    e.Looked? || e.Woke?
  }

  /** Waiting for the next day orders nothing, says nothing and waits for no hour. */
  lemma {:induction false} WaitSpellsNothing(wait: seq<Entry>, k: nat)
    requires k <= |wait| && forall i :: 0 <= i < |wait| ==> IsSeen(wait[i])
    ensures Spells(TotalTo(wait, k), [], [], [])
  {
    if k > 0 {
      WaitSpellsNothing(wait, k - 1);
    }
  }

  lemma WaitIsSeen(wait: seq<Entry>, b: Booking, clocked: bool, verdict: Option<bool>)
    requires IsWholeWait(wait, b, clocked, verdict)
    ensures forall i :: 0 <= i < |wait| ==> IsSeen(wait[i])
    ensures Spells(TotalOf(wait), [], [], [])
  {
    forall i | 0 <= i < |wait| ensures IsSeen(wait[i]) {
      assert i < |wait| - 1 ==> Idle(wait[i], b);
    }
    WaitSpellsNothing(wait, |wait|);
  }

  lemma OneMoreDaySpells(room: string, k: nat)
    ensures StayOrders(room, k + 1)
         == StayOrders(room, k) + [CleaningOrder(room, DailyCleaning), CleaningOrder(room, PrepareForSleep)]
    ensures StayMeals(k + 1) == StayMeals(k) + [6, 18, 18]
    ensures StayTalk(k + 1) == StayTalk(k) + (MORNING + EVENING)
  {
  }

  lemma DayAfterSpells(before: seq<Entry>, wait: seq<Entry>, b: Booking, clocked: bool, k: nat)
    requires Spells(TotalOf(before), StayOrders(b.cottageName, k), StayTalk(k), StayMeals(k))
    requires IsWholeWait(wait, b, clocked, Some(false))
    ensures Spells(TotalOf(before + wait + FullDay(b.cottageName)),
                   StayOrders(b.cottageName, k + 1), StayTalk(k + 1), StayMeals(k + 1))
  {
    var room := b.cottageName;
    WaitIsSeen(wait, b, clocked, Some(false));
    SpellsOn(before, wait, StayOrders(room, k), StayTalk(k), StayMeals(k));
    FullDayTotal(room);
    OneMoreDaySpells(room, k);
    SpellsBoth(before + wait, FullDay(room), StayOrders(room, k), StayTalk(k), StayMeals(k),
               [CleaningOrder(room, DailyCleaning), CleaningOrder(room, PrepareForSleep)], MORNING + EVENING,
               [6, 18, 18]);
  }

  lemma {:induction false} DaysSpell(b: Booking, waits: seq<seq<Entry>>, clocked: bool, k: nat)
    requires k <= |waits| && EndedEarly(waits, b, clocked)
    ensures Spells(TotalOf(Days(b.cottageName, waits, k)), StayOrders(b.cottageName, k), StayTalk(k), StayMeals(k))
  {
    if k == 0 {
      FirstEveningTotal(b.cottageName);
      assert DayOrders(b.cottageName, 0) == [] && DayMeals(0) == [];
    } else {
      DaysSpell(b, waits, clocked, k - 1);
      DayAfterSpells(Days(b.cottageName, waits, k - 1), waits[k - 1], b, clocked, k - 1);
    }
  }

  lemma GreetingSpells(reading: Reading, document: string)
    ensures Spells(TotalOf(Greeting(reading, document)), [],
                   [Heard(ShowForCheckin), Asked(RequestDocument, document), Told(BookingChecking)], [])
  {
    var greeting := Greeting(reading, document);
    TotalOfTwo(greeting[0], greeting[1]);
    TotalOfTwo(greeting[2], greeting[3]);
    TotalOfBoth([greeting[0], greeting[1]], [greeting[2], greeting[3]]);
  }

  lemma HandoverSpells(room: string, keyNumber: string)
    ensures Spells(TotalOf(Handover(room, keyNumber)), [], KeyTalk(keyNumber), [])
  {
    var handover := Handover(room, keyNumber);
    TotalOfTwo(handover[0], handover[1]);
    TotalOfOne(handover[2]);
    TotalOfOne(handover[3]);
    TotalOfBoth([handover[2]], [handover[3]]);
    TotalOfBoth([handover[0], handover[1]], [handover[2]] + [handover[3]]);
  }

  lemma MovingInSpells(a: Arrival)
    ensures Spells(TotalOf(MovingIn(a)), Prepared(a.b.cottageName), CheckInTalk(a.document, a.number, a.keyNumber), [])
  {
    var hello := [Heard(ShowForCheckin), Asked(RequestDocument, a.document), Told(BookingChecking)];
    var room, number, key := a.b.cottageName, NumberTalk(a.number), KeyTalk(a.keyNumber);
    GreetingSpells(At(a.today), a.document);
    FindingSpells(a.document, a.today, a.number, a.b);
    HandoverSpells(room, a.keyNumber);
    SpellsBoth(Finding(a.document, a.today, a.number, a.b), Handover(room, a.keyNumber), Prepared(room), number,
               [], [], key, []);
    SpellsBoth(Greeting(At(a.today), a.document), Admission(a), [], hello, [], Prepared(room) + [], number + key, []);
    Regroup(hello, number, key);
    assert [] + (Prepared(room) + []) == Prepared(room);
  }

  lemma FindingSpells(document: string, today: Time, number: Option<string>, b: Booking)
    ensures Spells(TotalOf(Finding(document, today, number, b)), Prepared(b.cottageName), NumberTalk(number), [])
  {
    match number {
      case None => TotalOfOne(Admitted(Reception.CheckInByDocument(document, today), b));
      case Some(n) =>
        var asked := ByNumber(document, today, n, b);
        TotalOfOne(NotDone(Reception.CheckInByDocument(document, today)));
        TotalOfOne(asked[0]);
        TotalOfOne(asked[1]);
        TotalOfBoth([asked[0]], [asked[1]]);
        TotalOfBoth([NotDone(Reception.CheckInByDocument(document, today))], asked);
    }
  }

  lemma KeyTotal(reading: Reading, b: Booking, keyNumber: string)
    ensures Spells(TotalOf(ReturningKey(reading, keyNumber) + KeyBack(b.cottageName, keyNumber)), [],
                   [Heard(ProceedToCheckout), Asked(RequestCottageKey, keyNumber),
                    Heard(GuestAction.ReturnCottageKey)], [])
  {
    var key, back := ReturningKey(reading, keyNumber), KeyBack(b.cottageName, keyNumber);
    TotalOfTwo(key[0], key[1]);
    TotalOfTwo(key[2], key[3]);
    TotalOfBoth([key[0], key[1]], [key[2], key[3]]);
    TotalOfOne(back[0]);
    TotalOfBoth(key, back);
  }

  lemma MovingOutSpells(b: Booking, today: Time, keyNumber: string)
    ensures Spells(TotalOf(MovingOut(b, today, keyNumber)), [CleaningOrder(b.cottageName, FullCleaning)],
                   CheckOutTalk(keyNumber), [])
  {
    var settling, told := Settling(b, today), [Said(Told(CheckOutComplete))];
    KeyTotal(At(today), b, keyNumber);
    TotalOfOne(settling[0]);
    TotalOfOne(told[0]);
    TotalOfBoth(settling, told);
    TotalOfBoth(ReturningKey(At(today), keyNumber) + KeyBack(b.cottageName, keyNumber), settling + told);
  }

  lemma StaySpells(b: Booking, v: Visit)
    requires v.arrival.b == b && EndedInTime(b, v.log)
    ensures var k := |v.log.waits|;
            Spells(TotalOf(UntilDeparture(b, v)), Prepared(b.cottageName) + StayOrders(b.cottageName, k),
                   CheckInTalk(v.arrival.document, v.arrival.number, v.arrival.keyNumber) + StayTalk(k) + DEPARTURE,
                   StayMeals(k))
  {
    var room, k, a := b.cottageName, |v.log.waits|, v.arrival;
    var days, checkIn := AllDays(room, v.log.waits), CheckInTalk(a.document, a.number, a.keyNumber);
    var arrived, stayed := Prepared(room), Prepared(room) + StayOrders(room, k);
    MovingInSpells(a);
    DaysSpell(b, v.log.waits, true, k);
    SpellsBoth(MovingIn(a), days, arrived, checkIn, [], StayOrders(room, k), StayTalk(k), StayMeals(k));
    assert [] + StayMeals(k) == StayMeals(k);
    WaitIsSeen(v.log.last, b, true, Some(true));
    SpellsOn(MovingIn(a) + days, v.log.last, stayed, checkIn + StayTalk(k), StayMeals(k));
    DepartureTotal();
    SpellsBoth(MovingIn(a) + days + v.log.last, Departure(), stayed, checkIn + StayTalk(k), StayMeals(k),
               [], DEPARTURE, []);
    assert stayed + [] == stayed && StayMeals(k) + [] == StayMeals(k);
  }

  /** A completed session spells a session's orders, conversation and hours. */
  lemma CompletedSpells(entries: seq<Entry>, b: Booking, v: Visit)
    requires Completed(entries, b, v)
    ensures var a, k := v.arrival, |v.log.waits|;
            Spells(TotalOf(entries), SessionOrders(b.cottageName, k),
                   TalkOfSession(a.document, a.number, a.keyNumber, k, v.returned), StayMeals(k))
  {
    StaySpells(b, v);
    MovingOutSpells(b, v.today, v.returned);
    TotalOfBoth(UntilDeparture(b, v), MovingOut(b, v.today, v.returned));
  }

  // ---------- broken-off sessions ----------

  lemma BrokeOffOrders(before: seq<Entry>, after: seq<Entry>, plan: seq<Entry>)
    requires BrokeOff(before, after, plan)
    ensures TotalOf(after).orders <= TotalOf(before + plan).orders
  {
    var n := |after| - |before| - 1;
    var done := before + plan[..n];
    TotalOfOne(Failing(plan[n]));
    TotalOfBoth(done, [Failing(plan[n])]);
    TotalOfBoth(done, plan[n..]);
    assert plan[..n] + plan[n..] == plan;
    Regroup(before, plan[..n], plan[n..]);
  }

  /** The orders of any session are a beginning of a session's orders, for the booked cottage if there is one. */
  lemma BrokenOffBeginsToSpell(entries: seq<Entry>, booking: Option<Booking>, v: Visit)
    requires BrokenOff(entries, booking, v)
    ensures exists k :: TotalOf(entries).orders <= SessionOrders(v.arrival.b.cottageName, k)
  {
    match booking {
      case None => ArrivalBeginsToSpell(entries, v.arrival);
      case Some(b) =>
        if StayBrokeOff(MovingIn(v.arrival), entries, b, true, v.log) {
          StayBeginsToSpell(entries, b, v);
        } else {
          DepartureBeginsToSpell(entries, b, v);
        }
    }
  }

  lemma ArrivalBeginsToSpell(entries: seq<Entry>, a: Arrival)
    requires MovingInBrokeOff([], entries, a)
    ensures TotalOf(entries).orders <= SessionOrders(a.b.cottageName, 0)
  {
    var undated := Greeting(NoTime, a.document);
    GreetingSpells(NoTime, a.document);
    MovingInSpells(a);
    assert [] + MovingIn(a) == MovingIn(a) && [] + undated == undated;
    if BrokeOff([], entries, MovingIn(a)) {
      BrokeOffOrders([], entries, MovingIn(a));
    } else if BrokeOff([], entries, undated) {
      BrokeOffOrders([], entries, undated);
    }
  }

  /** The orders up to the last of the full days. */
  lemma DaysBeginToSpell(a: Arrival, waits: seq<seq<Entry>>, b: Booking)
    requires a.b == b && EndedEarly(waits, b, true)
    ensures TotalOf(MovingIn(a) + AllDays(b.cottageName, waits)).orders
         == Prepared(b.cottageName) + StayOrders(b.cottageName, |waits|)
  {
    MovingInSpells(a);
    DaysSpell(b, waits, true, |waits|);
    TotalOfBoth(MovingIn(a), AllDays(b.cottageName, waits));
  }

  /** Breaking off after the wait that follows them. */
  lemma DayBeginsToSpell(days: seq<Entry>, wait: seq<Entry>, entries: seq<Entry>, b: Booking, verdict: Option<bool>,
                         plan: seq<Entry>)
    requires IsWholeWait(wait, b, true, verdict) && BrokeOff(days + wait, entries, plan)
    requires plan == FullDay(b.cottageName) || plan == Departure()
    ensures TotalOf(entries).orders <= TotalOf(days).orders + TotalOf(FullDay(b.cottageName)).orders
  {
    WaitIsSeen(wait, b, true, verdict);
    DepartureTotal();
    TotalOfBoth(days, wait);
    TotalOfBoth(days + wait, plan);
    BrokeOffOrders(days + wait, entries, plan);
  }

  /** Up to the day that is begun. */
  lemma DaysAndOneMore(a: Arrival, waits: seq<seq<Entry>>, b: Booking)
    requires a.b == b && EndedEarly(waits, b, true)
    ensures TotalOf(MovingIn(a) + AllDays(b.cottageName, waits)).orders + TotalOf(FullDay(b.cottageName)).orders
         <= SessionOrders(b.cottageName, |waits| + 1)
  {
    var room := b.cottageName;
    DaysBeginToSpell(a, waits, b);
    OneMoreDaySpells(room, |waits|);
    FullDayTotal(room);
    Regroup(Prepared(room), StayOrders(room, |waits|), TotalOf(FullDay(room)).orders);
  }

  lemma StayBeginsToSpell(entries: seq<Entry>, b: Booking, v: Visit)
    requires v.arrival.b == b && StayBrokeOff(MovingIn(v.arrival), entries, b, true, v.log)
    ensures TotalOf(entries).orders <= SessionOrders(b.cottageName, |v.log.waits| + 1)
  {
    DaysAndOneMore(v.arrival, v.log.waits, b);
    BeginsWithOneMoreDay(entries, b, v);
  }

  lemma BeginsWithOneMoreDay(entries: seq<Entry>, b: Booking, v: Visit)
    requires v.arrival.b == b && StayBrokeOff(MovingIn(v.arrival), entries, b, true, v.log)
    ensures TotalOf(entries).orders
         <= TotalOf(MovingIn(v.arrival) + AllDays(b.cottageName, v.log.waits)).orders
            + TotalOf(FullDay(b.cottageName)).orders
  {
    var room, wait := b.cottageName, v.log.last;
    var days := MovingIn(v.arrival) + AllDays(room, v.log.waits);
    if v.log == StayLog([], []) && BrokeOff(MovingIn(v.arrival), entries, FirstEvening(room)) {
      EveningBeginsToSpell(entries, v.arrival, room);
    } else if IsWholeWait(wait, b, true, None) && entries == days + wait {
      WaitBeginsToSpell(days, wait, b);
    } else if IsWholeWait(wait, b, true, Some(false)) && BrokeOff(days + wait, entries, FullDay(room)) {
      DayBeginsToSpell(days, wait, entries, b, Some(false), FullDay(room));
    } else {
      DayBeginsToSpell(days, wait, entries, b, Some(true), Departure());
    }
  }

  lemma EveningBeginsToSpell(entries: seq<Entry>, a: Arrival, room: string)
    requires BrokeOff(MovingIn(a), entries, FirstEvening(room))
    ensures TotalOf(entries).orders <= TotalOf(MovingIn(a) + AllDays(room, [])).orders
  {
    BrokeOffOrders(MovingIn(a), entries, FirstEvening(room));
  }

  lemma WaitBeginsToSpell(days: seq<Entry>, wait: seq<Entry>, b: Booking)
    requires IsWholeWait(wait, b, true, None)
    ensures TotalOf(days + wait).orders == TotalOf(days).orders
  {
    WaitIsSeen(wait, b, true, None);
    TotalOfBoth(days, wait);
  }

  lemma DepartureBeginsToSpell(entries: seq<Entry>, b: Booking, v: Visit)
    requires v.arrival.b == b && EndedInTime(b, v.log)
    requires MovingOutBrokeOff(UntilDeparture(b, v), entries, b, v.today, v.returned)
    ensures TotalOf(entries).orders <= SessionOrders(b.cottageName, |v.log.waits|)
  {
    var before, whole := UntilDeparture(b, v), MovingOut(b, v.today, v.returned);
    var undated := ReturningKey(NoTime, v.returned) + KeyBack(b.cottageName, v.returned);
    StaySpells(b, v);
    if BrokeOff(before, entries, whole) {
      MovingOutSpells(b, v.today, v.returned);
      TotalOfBoth(before, whole);
      BrokeOffOrders(before, entries, whole);
    } else {
      KeyTotal(NoTime, b, v.returned);
      TotalOfBoth(before, undated);
      if BrokeOff(before, entries, undated) {
        BrokeOffOrders(before, entries, undated);
      }
    }
  }
}
