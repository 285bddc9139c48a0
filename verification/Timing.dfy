/** When the parts of a stay begin, and how many there are. */
module Timing {
  import opened Outcomes
  import opened Sequences
  import opened Messages
  import opened Times
  import opened Bookings
  import opened CleaningService
  import opened Clock
  import opened FrameAccounting
  import opened Journal
  import opened Itinerary
  import opened StayTransition
  import opened StayRecord
  import opened Totals
  import opened Visits
  import Delivery

  // ---------- nothing is early ----------

  /** What was attempted on the connection, with success or not. */
  function Tried(e: Entry): Option<Operation> {
    match e {
      case Said(talk) => Some(OpOf(talk))
      case Unsaid(op) => Some(op)
      case _ => None
    }
  }

  /** The guest leaves the cottage, or was waited for to leave it. */
  predicate OfDeparture(e: Entry) {
    Tried(e) == Some(Wait(LeaveCottage))
  }

  /** The morning of a full day or of the departure. */
  predicate OfWaking(e: Entry) {
    Tried(e) == Some(Wait(Wakeup))
  }

  /** The evening of a full day or of the first. */
  predicate OfAnEvening(e: Entry) {
    || Tried(e) == Some(Wait(GoForABath)) || Tried(e) == Some(Tell(DinnerReady))
    || Tried(e) == Some(Wait(GoForDinner)) || Tried(e) == Some(Wait(GoToSleep))
    || e == Came(18) || e == NeverCame(18)
    || (e.Ordered? && e.order.requestType == PrepareForSleep)
    || (e.NotOrdered? && e.order.requestType == PrepareForSleep)
  }

  /** A part of a full day that no other day has. */
  predicate OfADay(e: Entry) {
    || Tried(e) == Some(Wait(GoForBreakfast)) || Tried(e) == Some(Wait(LeaveCleanupNotification))
    || Tried(e) == Some(Wait(EnjoyResort)) || Tried(e) == Some(Tell(BreakfastReady))
    || e == Came(6) || e == NeverCame(6)
    || (e.Ordered? && e.order.requestType == DailyCleaning)
    || (e.NotOrdered? && e.order.requestType == DailyCleaning)
  }

  /** The last thing seen before position `i` was a time of the clock, or a day event, on or after the check-out day. */
  ghost predicate ReachedAt(entries: seq<Entry>, j: int, i: int, b: Booking)
    requires i <= |entries|
  {
    && 0 <= j < i
    && (match entries[j] {
          case Looked(At(t)) => Day(t) >= Day(b.stayPeriod.checkOut)
          case Woke(DayChange(t)) => Day(t) >= Day(b.stayPeriod.checkOut)
          case _ => false
        })
    && forall l :: j < l < i ==> !entries[l].Looked? && !entries[l].Woke?
  }

  /** The last thing seen before position `i` was a day event before the check-out day. */
  ghost predicate EarlyAt(entries: seq<Entry>, j: int, i: int, b: Booking)
    requires i <= |entries|
  {
    && 0 <= j < i
    && entries[j].Woke? && entries[j].wake.DayChange? && Day(entries[j].wake.t) < Day(b.stayPeriod.checkOut)
    && forall l :: j < l < i ==> !entries[l].Looked? && !entries[l].Woke?
  }

  /** The guest was waited for to enter the cottage, and nothing has been seen since. */
  ghost predicate EnteredAt(entries: seq<Entry>, j: int, i: int)
    requires i <= |entries|
  {
    && 0 <= j < i && Tried(entries[j]) == Some(Wait(EnterCottage))
    && forall l :: j < l < i ==> !IsSeen(entries[l])
  }

  /** The departure only begins when the last thing seen had reached the check-out day, and a full day only when it was
      an earlier day event; no morning begins otherwise, and no evening but the first. */
  ghost predicate TimelyAt(entries: seq<Entry>, i: nat, b: Booking)
    requires i < |entries|
  {
    && (OfDeparture(entries[i]) ==> exists j :: ReachedAt(entries, j, i, b))
    && (OfADay(entries[i]) ==> exists j :: EarlyAt(entries, j, i, b))
    && (OfWaking(entries[i]) ==>
          (exists j :: ReachedAt(entries, j, i, b)) || exists j :: EarlyAt(entries, j, i, b))
    && (OfAnEvening(entries[i]) ==>
          (exists j :: EnteredAt(entries, j, i)) || exists j :: EarlyAt(entries, j, i, b))
  }

  ghost predicate Timely(entries: seq<Entry>, b: Booking) {
    forall i :: 0 <= i < |entries| ==> TimelyAt(entries, i, b)
  }

  /** The plan has parts of a full day only if the verdict is for one, and of the departure only if it is for that. */
  ghost predicate Fits(plan: seq<Entry>, verdict: Option<bool>) {
    forall i :: 0 <= i < |plan| ==> FitsAt(plan, i, verdict)
  }

  ghost predicate FitsAt(plan: seq<Entry>, i: nat, verdict: Option<bool>)
    requires i < |plan|
  {
    && (OfADay(plan[i]) ==> verdict == Some(false)) && (OfDeparture(plan[i]) ==> verdict == Some(true))
    && (OfWaking(plan[i]) ==> verdict.Some?)
    && (OfAnEvening(plan[i]) ==> verdict == Some(false) || EnteredAt(plan, 0, i))
  }

  ghost predicate Unseeing(plan: seq<Entry>) {
    forall i :: 0 <= i < |plan| ==> !IsSeen(plan[i])
  }

  /** Whether an entry is timely is decided by its kind and by what comes before it. */
  lemma TimelyAlike(entries: seq<Entry>, entries': seq<Entry>, i: nat, b: Booking)
    requires i < |entries| && i < |entries'| && entries[..i] == entries'[..i] && TimelyAt(entries, i, b)
    requires entries'[i] == entries[i] || entries'[i] == Failing(entries[i])
    ensures TimelyAt(entries', i, b)
  {
    assert forall l :: 0 <= l < i ==> entries'[l] == entries[..i][l] == entries[l];
    assert forall j :: ReachedAt(entries, j, i, b) ==> ReachedAt(entries', j, i, b);
    assert forall j :: EarlyAt(entries, j, i, b) ==> EarlyAt(entries', j, i, b);
    assert forall j :: EnteredAt(entries, j, i) ==> EnteredAt(entries', j, i);
  }

  lemma TimelyOn(before: seq<Entry>, part: seq<Entry>, b: Booking)
    requires Timely(before, b) && Fits(part, None)
    ensures Timely(before + part, b)
  {
    var all := before + part;
    forall i | 0 <= i < |all| ensures TimelyAt(all, i, b) {
      if i < |before| {
        TimelyAlike(before, all, i, b);
      } else {
        assert FitsAt(part, i - |before|, None) && all[i] == part[i - |before|];
        if EnteredAt(part, 0, i - |before|) {
          assert forall l :: |before| <= l < i ==> all[l] == part[l - |before|];
          assert EnteredAt(all, |before|, i);
        }
      }
    }
  }

  /** After a wait, what its verdict is for is in time. */
  lemma TimelyAfterWait(before: seq<Entry>, wait: seq<Entry>, plan: seq<Entry>, b: Booking, verdict: bool)
    requires Timely(before, b) && IsWholeWait(wait, b, true, Some(verdict))
    requires Fits(plan, Some(verdict)) && Unseeing(plan)
    ensures Timely(before + wait + plan, b)
  {
    var waited, all := before + wait, before + wait + plan;
    WaitFits(wait, b, Some(verdict));
    TimelyOn(before, wait, b);
    forall i | 0 <= i < |all| ensures TimelyAt(all, i, b) {
      if i < |waited| {
        TimelyAlike(waited, all, i, b);
      } else {
        assert FitsAt(plan, i - |waited|, Some(verdict)) && all[i] == plan[i - |waited|];
        forall l | |waited| <= l < i ensures !IsSeen(all[l]) {
          assert all[l] == plan[l - |waited|];
        }
        if EnteredAt(plan, 0, i - |waited|) {
          assert EnteredAt(all, |waited|, i);
        }
        assert all[|waited| - 1] == wait[|wait| - 1];
        assert if verdict then ReachedAt(all, |waited| - 1, i, b) else EarlyAt(all, |waited| - 1, i, b);
      }
    }
  }

  lemma WaitFits(wait: seq<Entry>, b: Booking, verdict: Option<bool>)
    requires IsWholeWait(wait, b, true, verdict)
    ensures Fits(wait, None)
  {
    WaitIsSeen(wait, b, true, verdict);
  }

  /** What is timely to its end is timely where it breaks off. */
  lemma TimelyWhereItBreaksOff(before: seq<Entry>, after: seq<Entry>, plan: seq<Entry>, b: Booking)
    requires Timely(before + plan, b) && BrokeOff(before, after, plan)
    ensures Timely(after, b)
  {
    var all := before + plan;
    forall i | 0 <= i < |after| ensures TimelyAt(after, i, b) {
      assert TimelyAt(all, i, b);
      TimelyAlike(all, after, i, b);
    }
  }

  lemma FullDayFits(room: string)
    ensures Fits(FullDay(room), Some(false)) && Unseeing(FullDay(room))
  {
  }

  lemma FirstEveningFits(room: string)
    ensures Fits(FirstEvening(room), None)
  {
    var plan := FirstEvening(room);
    assert Tried(plan[0]) == Some(Wait(EnterCottage)) && Unseeing(plan);
  }

  lemma DepartureFits()
    ensures Fits(Departure(), Some(true)) && Unseeing(Departure())
  {
  }

  lemma MovingInFits(a: Arrival)
    ensures Fits(MovingIn(a), None) && Fits(Greeting(NoTime, a.document), None)
  {
  }

  lemma MovingOutFits(b: Booking, today: Time, keyNumber: string, reading: Reading)
    ensures Fits(MovingOut(b, today, keyNumber), None)
    ensures Fits(ReturningKey(reading, keyNumber) + KeyBack(b.cottageName, keyNumber), None)
  {
  }

  lemma ArrivalIsTimely(a: Arrival, b: Booking)
    ensures Timely(MovingIn(a), b) && Timely(Greeting(NoTime, a.document), b)
  {
    MovingInFits(a);
    TimelyOn([], MovingIn(a), b);
    TimelyOn([], Greeting(NoTime, a.document), b);
    assert [] + MovingIn(a) == MovingIn(a) && [] + Greeting(NoTime, a.document) == Greeting(NoTime, a.document);
  }

  lemma {:induction false} DaysAreTimely(before: seq<Entry>, b: Booking, waits: seq<seq<Entry>>, k: nat)
    requires Timely(before, b) && EndedEarly(waits, b, true) && k <= |waits|
    ensures Timely(before + Days(b.cottageName, waits, k), b)
  {
    var room := b.cottageName;
    if k == 0 {
      FirstEveningFits(room);
      TimelyOn(before, FirstEvening(room), b);
    } else {
      var days := Days(room, waits, k - 1);
      DaysAreTimely(before, b, waits, k - 1);
      FullDayFits(room);
      TimelyAfterWait(before + days, waits[k - 1], FullDay(room), b, false);
      Regroup(before, days, waits[k - 1]);
      Regroup(before, days + waits[k - 1], FullDay(room));
    }
  }

  lemma DepartureIsTimely(b: Booking, v: Visit)
    requires EndedInTime(b, v.log)
    ensures Timely(UntilDeparture(b, v), b)
  {
    ArrivalIsTimely(v.arrival, b);
    DaysAreTimely(MovingIn(v.arrival), b, v.log.waits, |v.log.waits|);
    DepartureFits();
    TimelyAfterWait(MovingIn(v.arrival) + AllDays(b.cottageName, v.log.waits), v.log.last, Departure(), b, true);
  }

  lemma StayIsTimely(entries: seq<Entry>, b: Booking, v: Visit)
    requires StayBrokeOff(MovingIn(v.arrival), entries, b, true, v.log)
    ensures Timely(entries, b)
  {
    var arrived, room, wait := MovingIn(v.arrival), b.cottageName, v.log.last;
    var days := arrived + AllDays(room, v.log.waits);
    ArrivalIsTimely(v.arrival, b);
    DaysAreTimely(arrived, b, v.log.waits, |v.log.waits|);
    if v.log == StayLog([], []) && BrokeOff(arrived, entries, FirstEvening(room)) {
      FirstEveningFits(room);
      TimelyOn(arrived, FirstEvening(room), b);
      TimelyWhereItBreaksOff(arrived, entries, FirstEvening(room), b);
    } else if IsWholeWait(wait, b, true, None) && entries == days + wait {
      WaitFits(wait, b, None);
      TimelyOn(days, wait, b);
    } else if IsWholeWait(wait, b, true, Some(false)) && BrokeOff(days + wait, entries, FullDay(room)) {
      FullDayFits(room);
      TimelyAfterWait(days, wait, FullDay(room), b, false);
      TimelyWhereItBreaksOff(days + wait, entries, FullDay(room), b);
    } else {
      DepartureFits();
      TimelyAfterWait(days, wait, Departure(), b, true);
      TimelyWhereItBreaksOff(days + wait, entries, Departure(), b);
    }
  }

  /** The session with this booking, as far as it went. */
  ghost predicate Went(entries: seq<Entry>, b: Booking, v: Visit) {
    IsSession(entries, Some(b), v)
  }

  /** In every session, completed or not, no part of a full day and no departure comes before its time. */
  lemma NothingIsEarly(entries: seq<Entry>, b: Booking, v: Visit)
    requires Went(entries, b, v)
    ensures Timely(entries, b)
  {
    if StayBrokeOff(MovingIn(v.arrival), entries, b, true, v.log) {
      StayIsTimely(entries, b, v);
    } else {
      var before, whole := UntilDeparture(b, v), MovingOut(b, v.today, v.returned);
      var undated := ReturningKey(NoTime, v.returned) + KeyBack(b.cottageName, v.returned);
      DepartureIsTimely(b, v);
      MovingOutFits(b, v.today, v.returned, NoTime);
      TimelyOn(before, whole, b);
      TimelyOn(before, undated, b);
      if BrokeOff(before, entries, whole) {
        TimelyWhereItBreaksOff(before, entries, whole, b);
      } else if BrokeOff(before, entries, undated) {
        TimelyWhereItBreaksOff(before, entries, undated, b);
      }
    }
  }

  lemma BeginsBefore(before: seq<Entry>, after: seq<Entry>, plan: seq<Entry>)
    requires BrokeOff(before, after, plan)
    ensures before <= after
  {
  }

  lemma DepartureComesFirst(entries: seq<Entry>, b: Booking, v: Visit)
    requires Completed(entries, b, v) || MovingOutBrokeOff(UntilDeparture(b, v), entries, b, v.today, v.returned)
    ensures UntilDeparture(b, v) <= entries
  {
    var before := UntilDeparture(b, v);
    var undated := ReturningKey(NoTime, v.returned) + KeyBack(b.cottageName, v.returned);
    if BrokeOff(before, entries, MovingOut(b, v.today, v.returned)) {
      BeginsBefore(before, entries, MovingOut(b, v.today, v.returned));
    } else if BrokeOff(before, entries, undated) {
      BeginsBefore(before, entries, undated);
    }
  }

  /** The full days were spent, after the arrival, unless the stay broke off in its first evening. */
  lemma DaysComeFirst(entries: seq<Entry>, b: Booking, v: Visit)
    requires Went(entries, b, v)
    ensures MovingIn(v.arrival) + AllDays(b.cottageName, v.log.waits) <= entries
         || (v.log.waits == [] && MovingIn(v.arrival) <= entries)
  {
    var arrived, wait := MovingIn(v.arrival), v.log.last;
    var days := arrived + AllDays(b.cottageName, v.log.waits);
    if StayBrokeOff(arrived, entries, b, true, v.log) {
      if v.log == StayLog([], []) && BrokeOff(arrived, entries, FirstEvening(b.cottageName)) {
        BeginsBefore(arrived, entries, FirstEvening(b.cottageName));
      } else if BrokeOff(days + wait, entries, FullDay(b.cottageName)) {
        BeginsBefore(days + wait, entries, FullDay(b.cottageName));
      } else if BrokeOff(days + wait, entries, Departure()) {
        BeginsBefore(days + wait, entries, Departure());
      }
    } else {
      DepartureComesFirst(entries, b, v);
    }
  }

  /** The guest of every session with a booking was checked in for the day that the clock gave when the session
      opened. */
  lemma CheckedInForTheDay(o: Oracles, opening: Scene, history: seq<Scene>, entries: seq<Entry>, b: Booking, v: Visit)
    requires IsRecord(o, opening, history, entries) && Went(entries, b, v)
    ensures NextReading(opening.readings) == At(v.arrival.today)
  {
    DaysComeFirst(entries, b, v);
    var plan := MovingIn(v.arrival);
    assert entries[0] == plan[0] == Said(Heard(ShowForCheckin)) && entries[1] == plan[1] == Looked(At(v.arrival.today));
    assert FollowsFrom(o, history, entries, 0) && FollowsFrom(o, history, entries, 1);
  }

  // ---------- as many full days as early day events ----------

  /** The day events that end the first `k` of the waits. */
  function DaysOf(waits: seq<seq<Entry>>, b: Booking, k: nat): (days: seq<Time>)
    requires k <= |waits| && EndedEarly(waits, b, true)
    ensures |days| == k && forall i :: 0 <= i < k ==> Day(days[i]) < Day(b.stayPeriod.checkOut)
  {
    if k == 0 then []
    else
      assert IsWholeWait(waits[k - 1], b, true, Some(false));
      DaysOf(waits, b, k - 1) + [waits[k - 1][|waits[k - 1]| - 1].wake.t]
  }

  lemma {:induction false} IdleHasNoDays(wait: seq<Entry>, b: Booking, k: nat)
    requires k <= |wait| && forall i :: 0 <= i < k ==> Idle(wait[i], b)
    ensures TotalTo(wait, k).days == []
  {
    if k > 0 {
      IdleHasNoDays(wait, b, k - 1);
    }
  }

  /** A wait sees at most one day event, the one that decides. */
  lemma WaitDays(wait: seq<Entry>, b: Booking, verdict: Option<bool>)
    requires IsWholeWait(wait, b, true, verdict)
    ensures TotalOf(wait).days == match wait[|wait| - 1] { case Woke(DayChange(t)) => [t] case _ => [] }
  {
    IdleHasNoDays(wait, b, |wait| - 1);
  }

  ghost predicate Dayless(plan: seq<Entry>) {
    forall i :: 0 <= i < |plan| ==> !plan[i].Woke?
  }

  lemma {:induction false} DaylessHasNoDays(plan: seq<Entry>, k: nat)
    requires k <= |plan| && Dayless(plan)
    ensures TotalTo(plan, k).days == []
  {
    if k > 0 {
      DaylessHasNoDays(plan, k - 1);
    }
  }

  lemma {:induction false} DaysHaveTheirEvents(b: Booking, waits: seq<seq<Entry>>, k: nat)
    requires EndedEarly(waits, b, true) && k <= |waits|
    ensures TotalOf(Days(b.cottageName, waits, k)).days == DaysOf(waits, b, k)
  {
    if k == 0 {
      FirstEveningTotal(b.cottageName);
    } else {
      DaysHaveTheirEvents(b, waits, k - 1);
      WaitDays(waits[k - 1], b, Some(false));
      FullDayTotal(b.cottageName);
      TotalOfBoth(Days(b.cottageName, waits, k - 1), waits[k - 1]);
      TotalOfBoth(Days(b.cottageName, waits, k - 1) + waits[k - 1], FullDay(b.cottageName));
    }
  }

  lemma ArrivalIsDayless(a: Arrival)
    ensures TotalOf(MovingIn(a)).days == []
  {
    assert Dayless(MovingIn(a));
    DaylessHasNoDays(MovingIn(a), |MovingIn(a)|);
  }

  lemma DepartureIsDayless(b: Booking, today: Time, keyNumber: string)
    ensures TotalOf(MovingOut(b, today, keyNumber)).days == []
  {
    var plan := MovingOut(b, today, keyNumber);
    assert Dayless(plan);
    DaylessHasNoDays(plan, |plan|);
  }

  lemma DaysUntilDeparture(b: Booking, v: Visit)
    requires EndedInTime(b, v.log)
    ensures TotalOf(UntilDeparture(b, v)).days
         == DaysOf(v.log.waits, b, |v.log.waits|) + TotalOf(v.log.last).days
  {
    var days := AllDays(b.cottageName, v.log.waits);
    ArrivalIsDayless(v.arrival);
    DaysHaveTheirEvents(b, v.log.waits, |v.log.waits|);
    DepartureTotal();
    TotalOfBoth(MovingIn(v.arrival), days);
    TotalOfBoth(MovingIn(v.arrival) + days, v.log.last);
    TotalOfBoth(MovingIn(v.arrival) + days + v.log.last, Departure());
  }

  /** In a completed session there is exactly one full day for each day event before the check-out day; at most one more
      day event is seen, and that one has reached it. */
  lemma FullDaysAreTheEarlyDays(entries: seq<Entry>, b: Booking, v: Visit)
    requires Completed(entries, b, v)
    ensures var days, k := TotalOf(entries).days, |v.log.waits|;
            && k <= |days| <= k + 1
            && (forall i :: 0 <= i < k ==> Day(days[i]) < Day(b.stayPeriod.checkOut))
            && (k < |days| ==> Day(days[k]) >= Day(b.stayPeriod.checkOut))
  {
    DaysUntilDeparture(b, v);
    WaitDays(v.log.last, b, Some(true));
    DepartureIsDayless(b, v.today, v.returned);
    TotalOfBoth(UntilDeparture(b, v), MovingOut(b, v.today, v.returned));
  }

  lemma TotalDaysGrow(entries: seq<Entry>, more: seq<Entry>)
    ensures TotalOf(entries).days <= TotalOf(entries + more).days
  {
    TotalOfBoth(entries, more);
  }

  /** In every session, completed or not, each full day that was spent had a day event of its own before the check-out
      day, in the order received. */
  lemma FullDaysHadTheirDays(entries: seq<Entry>, b: Booking, v: Visit)
    requires Went(entries, b, v)
    ensures var days := TotalOf(entries).days;
            |v.log.waits| <= |days| && forall i :: 0 <= i < |v.log.waits| ==> Day(days[i]) < Day(b.stayPeriod.checkOut)
  {
    var waits := v.log.waits;
    if waits != [] {
      var spent := MovingIn(v.arrival) + AllDays(b.cottageName, waits);
      DaysComeFirst(entries, b, v);
      ArrivalIsDayless(v.arrival);
      DaysHaveTheirEvents(b, waits, |waits|);
      TotalOfBoth(MovingIn(v.arrival), AllDays(b.cottageName, waits));
      assert TotalOf(spent).days == DaysOf(waits, b, |waits|);
      TotalDaysGrow(spent, entries[|spent|..]);
      assert spent + entries[|spent|..] == entries;
    }
  }

  // ---------- the length of a stay ----------

  lemma {:induction false} IncreasingIsSpread(s: seq<int>, i: nat)
    requires Delivery.StrictlyIncreasing(s) && i < |s|
    ensures s[0] + i <= s[i]
  {
    if i > 0 {
      IncreasingIsSpread(s, i - 1);
    }
  }

  lemma MidnightsIncreaseByDays(t: Time, u: Time)
    requires IsMidnightUtc(t) && IsMidnightUtc(u) && t < u
    ensures Day(t) < Day(u)
  {
  }

  /** Midnights after the check-in day and before the check-out day, in increasing order: fewer than nights. */
  lemma EarlyDaysAreFew(days: seq<Time>, k: nat, b: Booking)
    requires k <= |days| && Delivery.StrictlyIncreasing(days)
    requires forall i :: 0 <= i < k ==>
      IsMidnightUtc(days[i]) && Day(days[i]) > Day(b.stayPeriod.checkIn) && Day(days[i]) < Day(b.stayPeriod.checkOut)
    ensures k <= if Nights(b) > 1 then Nights(b) - 1 else 0
  {
    var numbers := seq(k, i requires 0 <= i < k => Day(days[i]));
    forall i, j | 0 <= i < j < k ensures numbers[i] < numbers[j] {
      MidnightsIncreaseByDays(days[i], days[j]);
    }
    if k > 0 {
      IncreasingIsSpread(numbers, k - 1);
    }
  }

  /** Stay length: when the day events that come are strictly increasing midnights after the check-in day, at most
      nights - 1 full days are spent. */
  lemma StayLengthIsBounded(o: Oracles, opening: Scene, history: seq<Scene>, entries: seq<Entry>, b: Booking, v: Visit)
    requires IsRecord(o, opening, history, entries) && Went(entries, b, v)
    requires Delivery.StrictlyIncreasing(EventsOf(opening.wakes))
    requires forall t :: t in EventsOf(opening.wakes) ==> IsMidnightUtc(t) && Day(t) > Day(b.stayPeriod.checkIn)
    ensures |v.log.waits| <= if Nights(b) > 1 then Nights(b) - 1 else 0
  {
    var events, days := EventsOf(opening.wakes), TotalOf(entries).days;
    RecordAddsUp(o, opening, history, entries, |entries|);
    assert forall i :: 0 <= i < |days| ==> days[i] == events[i] && events[i] in events;
    FullDaysHadTheirDays(entries, b, v);
    EarlyDaysAreFew(days, |v.log.waits|, b);
  }

  /** The same from the broker's side: the day events that come are what a replace-stale channel of capacity one
      delivered, under any interleaving, from a strictly increasing publication of day changes. */
  lemma StayLengthIsBoundedByThePublishedDays(o: Oracles, opening: Scene, history: seq<Scene>, entries: seq<Entry>,
                                              b: Booking, v: Visit, steps: seq<Delivery.Step>)
    requires IsRecord(o, opening, history, entries) && Went(entries, b, v)
    requires Delivery.CanRun(Delivery.Fresh(1), steps) && forall step :: step in steps ==> Delivery.Replacing(step)
    requires Delivery.StrictlyIncreasing(Delivery.Run(Delivery.Fresh(1), steps).published)
    requires EventsOf(opening.wakes) <= Delivery.Run(Delivery.Fresh(1), steps).received
    requires forall t :: t in EventsOf(opening.wakes) ==> Day(t) > Day(b.stayPeriod.checkIn)
    ensures |v.log.waits| <= if Nights(b) > 1 then Nights(b) - 1 else 0
  {
    ReceivedDays(steps);
    StayLengthIsBounded(o, opening, history, entries, b, v);
  }

  lemma ReceivedDays(steps: seq<Delivery.Step>)
    requires Delivery.CanRun(Delivery.Fresh(1), steps) && forall step :: step in steps ==> Delivery.Replacing(step)
    requires Delivery.StrictlyIncreasing(Delivery.Run(Delivery.Fresh(1), steps).published)
    ensures var received := Delivery.Run(Delivery.Fresh(1), steps).received;
            && Delivery.StrictlyIncreasing(received)
            && forall i :: 0 <= i < |received| ==> IsMidnightUtc(received[i])
  {
    var s := Delivery.Run(Delivery.Fresh(1), steps);
    Delivery.IncreasingStreamStaysIncreasing(1, steps);
    Delivery.DeliveredStreamIsOrdered(1, steps);
    Delivery.FreshIsInOrder(1);
    Delivery.RunKeepsUpToDate(Delivery.Fresh(1), steps);
    var all := s.received + s.buffer;
    var at: seq<nat> :| EmbedsAt(all, s.published, at);
    forall i | 0 <= i < |s.received| ensures IsMidnightUtc(s.received[i]) {
      assert s.received[i] == all[i] == s.published[at[i]];
    }
    forall i, j | 0 <= i < j < |s.received| ensures s.received[i] < s.received[j] {
      assert all[i] < all[j];
    }
  }
}
