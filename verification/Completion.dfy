/** When a session completes: what has to be there for it, as things stand when it opens. */
module Completion {
  import opened Outcomes
  import opened Messages
  import opened Times
  import opened Bookings
  import opened CottageRepo
  import opened CleaningService
  import opened Clock
  import opened FrameAccounting
  import opened Journal
  import opened Itinerary
  import opened StayRecord
  import opened SessionWords
  import opened Totals
  import opened Visits
  import opened BreakingOff
  import opened SessionStores
  import opened Reception
  import opened Supplies
  import Causes
  import Timing

  /** What the guest has to say, on which day, and for which booking. */
  datatype Hopes = Hopes(document: string, number: Option<string>, keyNumber: string, returned: string, today: Time,
                         b: Booking)
  {
    function ByDocument(): Call {
      CheckInByDocument(document, today)
    }

    function Call(): Call {
      if number.None? then ByDocument() else CheckInByNumber(document, number.value, today)
    }

    function Talk(k: nat): seq<Talk> {
      TalkOfSession(document, number, keyNumber, k, returned)
    }
  }

  /** The reception finds the booking, by the document or else by the number, and it is ready; neither key number is
      blank, and the stores know the booking. */
  ghost predicate WillServe(o: Rules, d: Desk, h: Hopes) {
    && !Blank(h.keyNumber) && !Blank(h.returned) && CanCheckOut(d.bookings, d.cottages, h.b)
    && match h.number {
         case None => !Refuses(o, d, h.ByDocument()) && Found(o, d, h.ByDocument()) == Success(h.b)
         case Some(n) =>
           var byNumber := CheckInByNumber(h.document, n, h.today);
           Refuses(o, d, h.ByDocument()) && !Refuses(o, d, byNumber) && Found(o, d, byNumber) == Success(h.b)
       }
  }

  /** How many full days there will be. */
  function DaysAhead(opening: Scene, b: Booking): nat {
    AheadAtOpening(opening, b).0
  }

  /** The services are up, and the clock gives times and goes on giving them. */
  ghost predicate AllIsUp(o: Oracles, opening: Scene) {
    && NothingIsDown(o.rules, opening.desk.calls)
    && AllTimes(opening.readings) && |opening.wakes| + 4 <= |opening.readings|
  }

  /** The rest is there for the guest: the reception will serve, the check-out day will be reached, the hour changes
      suffice for the days until then, and the connection carries the conversation of as many. */
  ghost predicate IsAwaited(o: Oracles, opening: Scene, h: Hopes) {
    var k := DaysAhead(opening, h.b);
    && WillServe(o.rules, opening.desk, h)
    && NextReading(opening.readings) == At(h.today) && AheadAtOpening(opening, h.b).1
    && Serve(opening.hours, StayMeals(k)).Some? && Says(o.env, opening.chat, h.Talk(k))
  }

  ghost predicate Favourable(o: Oracles, opening: Scene, h: Hopes) {
    AllIsUp(o, opening) && IsAwaited(o, opening, h)
  }

  // ---------- what the arrival was ----------

  function Hello(document: string): seq<Talk> {
    [Heard(ShowForCheckin), Asked(RequestDocument, document), Told(BookingChecking)]
  }

  lemma StartsWithHello(h: Hopes, k: nat)
    ensures Hello(h.document) + NumberTalk(h.number) + KeyTalk(h.keyNumber) <= h.Talk(k)
  {
  }

  lemma GreetingEntries(entries: seq<Entry>, a: Arrival)
    requires 4 <= |entries| && entries[..4] == Greeting(At(a.today), a.document)
    ensures entries[0] == Said(Heard(ShowForCheckin)) && entries[1] == Looked(At(a.today))
    ensures entries[2] == Said(Asked(RequestDocument, a.document)) && entries[3] == Said(Told(BookingChecking))
  {
    assert forall i :: 0 <= i < 4 ==> entries[i] == entries[..4][i] == Greeting(At(a.today), a.document)[i];
  }

  lemma TotalOfGreeting(entries: seq<Entry>, a: Arrival)
    requires 4 <= |entries| && entries[..4] == Greeting(At(a.today), a.document)
    ensures TotalTo(entries, 4).talk == Hello(a.document)
  {
    GreetingEntries(entries, a);
    GreetingTalk(entries, a.document, At(a.today));
  }

  lemma GreetingIsQuiet(entries: seq<Entry>, a: Arrival)
    requires 4 <= |entries| && entries[..4] == Greeting(At(a.today), a.document)
    ensures NothingUnsaid(entries, 4) && forall i :: 0 <= i < 4 ==> Quiet(entries[i])
  {
    GreetingEntries(entries, a);
  }

  lemma GreetingTalk(entries: seq<Entry>, document: string, reading: Reading)
    requires 4 <= |entries| && entries[0] == Said(Heard(ShowForCheckin)) && entries[1] == Looked(reading)
    requires entries[2] == Said(Asked(RequestDocument, document)) && entries[3] == Said(Told(BookingChecking))
    ensures TotalTo(entries, 4).talk == Hello(document)
  {
    assert TotalTo(entries, 0).talk == [];
    assert TotalTo(entries, 1).talk == TotalTo(entries, 2).talk == [Heard(ShowForCheckin)];
    assert TotalTo(entries, 3).talk == [Heard(ShowForCheckin), Asked(RequestDocument, document)];
  }

  lemma DayAsHoped(o: Oracles, opening: Scene, history: seq<Scene>, entries: seq<Entry>, today: Time)
    requires IsRecord(o, opening, history, entries) && 2 <= |entries|
    requires entries[0].Said? && entries[1] == Looked(At(today))
    ensures NextReading(opening.readings) == At(today)
  {
    assert FollowsFrom(o, history, entries, 0) && FollowsFrom(o, history, entries, 1);
  }

  lemma DocumentAsHoped(o: Oracles, opening: Scene, history: seq<Scene>, entries: seq<Entry>, a: Arrival,
                        hoped: seq<Talk>, document: string)
    requires IsRecord(o, opening, history, entries) && Says(o.env, opening.chat, hoped) && Hello(document) <= hoped
    requires 4 <= |entries| && entries[..4] == Greeting(At(a.today), a.document)
    ensures a.document == document
  {
    TotalOfGreeting(entries, a);
    GreetingIsQuiet(entries, a);
    TalkIsAsHoped(o, opening, history, entries, 4, hoped);
    assert TotalTo(entries, 4).talk[1] == hoped[1];
  }

  /** As far as the guest was greeted, it was on the day and with the document hoped for. */
  lemma GreetedAsHoped(o: Oracles, opening: Scene, history: seq<Scene>, entries: seq<Entry>, a: Arrival, h: Hopes)
    requires IsRecord(o, opening, history, entries) && Favourable(o, opening, h)
    requires 4 <= |entries| && entries[..4] == Greeting(At(a.today), a.document)
    ensures a.document == h.document && a.today == h.today
  {
    StartsWithHello(h, DaysAhead(opening, h.b));
    GreetingEntries(entries, a);
    DayAsHoped(o, opening, history, entries, a.today);
    DocumentAsHoped(o, opening, history, entries, a, h.Talk(DaysAhead(opening, h.b)), h.document);
  }

  /** The document alone leads to a check-in exactly when the reception need not refuse it. */
  lemma TriedAsDue(o: Oracles, opening: Scene, history: seq<Scene>, entries: seq<Entry>, call: Call)
    requires IsRecord(o, opening, history, entries) && NothingIsDown(o.rules, opening.desk.calls)
    requires 5 <= |entries| && forall k :: 0 <= k < 4 ==> Quiet(entries[k])
    requires call.CheckInByDocument? && (entries[4] == NotDone(call) || exists b :: entries[4] == Admitted(call, b))
    ensures entries[4] == NotDone(call) <==> Refuses(o.rules, opening.desk, call)
  {
    QuietKeepsBooks(o, opening, history, entries, 0, 4);
    BooksStay(o, opening, history, entries, 4);
    assert FollowsFrom(o, history, entries, 4);
    RefusedAsBefore(o.rules, opening.desk, history[4].desk, call);
    AnsweredAsDue(o, opening.desk.calls, history[4], entries[4], history[5], call);
  }

  lemma AnsweredAsDue(o: Oracles, first: Calls, s: Scene, e: Entry, s': Scene, call: Call)
    requires NothingIsDown(o.rules, first) && LaterCalls(first, s.desk.calls) && Leads(o, s, e, s')
    requires call.IsCheckIn() && (e == NotDone(call) || exists b :: e == Admitted(call, b))
    ensures e == NotDone(call) <==> Refuses(o.rules, s.desk, call)
  {
    NothingIsMissed(o.rules, first, s.desk.calls, s'.desk.calls);
  }

  lemma RefusedAsBefore(o: Rules, d: Desk, d': Desk, call: Call)
    requires SameBooks(d, d')
    ensures Refuses(o, d', call) <==> Refuses(o, d, call)
  {
  }

  lemma TriedAsHoped(o: Oracles, opening: Scene, history: seq<Scene>, entries: seq<Entry>, a: Arrival, h: Hopes)
    requires IsRecord(o, opening, history, entries) && a.document == h.document && a.today == h.today
    requires NothingIsDown(o.rules, opening.desk.calls) && WillServe(o.rules, opening.desk, h)
    requires 5 <= |entries| && entries[..4] == Greeting(At(a.today), a.document)
    requires entries[4] == if a.number.None? then Admitted(CheckInByDocument(a.document, a.today), a.b)
                           else NotDone(CheckInByDocument(a.document, a.today))
    ensures a.number.Some? == h.number.Some?
  {
    GreetingIsQuiet(entries, a);
    NumberIsNeeded(o.rules, opening.desk, h);
    TriedAsDue(o, opening, history, entries, h.ByDocument());
  }

  lemma NumberIsNeeded(o: Rules, d: Desk, h: Hopes)
    requires WillServe(o, d, h)
    ensures h.number.Some? <==> Refuses(o, d, h.ByDocument())
    ensures Found(o, d, h.Call()) == Success(h.b) && !Refuses(o, d, h.Call())
  {
  }

  /** The number, if one was needed, is the one hoped for. */
  lemma NumberAsHoped(o: Oracles, opening: Scene, history: seq<Scene>, entries: seq<Entry>, a: Arrival,
                      hoped: seq<Talk>, document: string, number: string)
    requires IsRecord(o, opening, history, entries) && Says(o.env, opening.chat, hoped)
    requires Hello(document) + [Asked(RequestBookingNumber, number)] <= hoped
    requires 6 <= |entries| && entries[..4] == Greeting(At(a.today), a.document) && entries[4].NotDone?
    requires a.number.Some? && entries[5] == Said(Asked(RequestBookingNumber, a.number.value))
    ensures a.number.value == number
  {
    TotalOfGreeting(entries, a);
    GreetingIsQuiet(entries, a);
    assert TotalTo(entries, 5).talk == Hello(a.document);
    assert TotalTo(entries, 6).talk == Hello(a.document) + [Asked(RequestBookingNumber, a.number.value)];
    TalkIsAsHoped(o, opening, history, entries, 6, hoped);
    assert TotalTo(entries, 6).talk[3] == hoped[3];
  }

  /** How the arrival began. */
  lemma FirstFive(entries: seq<Entry>, a: Arrival)
    requires 5 <= |entries| && entries[..5] == MovingIn(a)[..5]
    ensures entries[..4] == Greeting(At(a.today), a.document)
    ensures entries[4] == if a.number.None? then Admitted(CheckInByDocument(a.document, a.today), a.b)
                          else NotDone(CheckInByDocument(a.document, a.today))
  {
    assert forall i :: 0 <= i < 5 ==> entries[i] == entries[..5][i] == MovingIn(a)[i];
  }

  /** With the document and on the day hoped for, and with a number if one was to be needed. */
  lemma ArrivedAsHoped(o: Oracles, opening: Scene, history: seq<Scene>, entries: seq<Entry>, a: Arrival, h: Hopes)
    requires IsRecord(o, opening, history, entries) && Favourable(o, opening, h)
    requires 5 <= |entries| && entries[..5] == MovingIn(a)[..5]
    ensures a.document == h.document && a.today == h.today && a.number.Some? == h.number.Some?
  {
    FirstFive(entries, a);
    GreetedAsHoped(o, opening, history, entries, a, h);
    TriedAsHoped(o, opening, history, entries, a, h);
  }

  /** The guest's booking was looked for as hoped. */
  lemma CalledAsHoped(o: Oracles, opening: Scene, history: seq<Scene>, entries: seq<Entry>, a: Arrival, h: Hopes)
    requires IsRecord(o, opening, history, entries) && Favourable(o, opening, h)
    requires 5 <= |entries| && entries[..5] == MovingIn(a)[..5]
    requires a.number.Some? ==> 6 <= |entries| && entries[5] == Said(Asked(RequestBookingNumber, a.number.value))
    ensures CallOf(a) == h.Call()
  {
    ArrivedAsHoped(o, opening, history, entries, a, h);
    if a.number.Some? {
      FirstFive(entries, a);
      StartsWithHello(h, DaysAhead(opening, h.b));
      NumberAsHoped(o, opening, history, entries, a, h.Talk(DaysAhead(opening, h.b)), h.document, h.number.value);
    }
  }

  lemma BookingAsHoped(o: Oracles, opening: Scene, history: seq<Scene>, entries: seq<Entry>, a: Arrival, h: Hopes)
    requires IsRecord(o, opening, history, entries) && Favourable(o, opening, h) && MovingIn(a) <= entries
    ensures CallOf(a) == h.Call() && a.b == h.b
  {
    ArrivedInFull(entries, a);
    CalledAsHoped(o, opening, history, entries, a, h);
    TheBookingIsFound(o, opening, history, entries, a);
    NumberIsNeeded(o.rules, opening.desk, h);
  }

  lemma ArrivedInFull(entries: seq<Entry>, a: Arrival)
    requires MovingIn(a) <= entries
    ensures 6 <= |entries| && entries[..5] == MovingIn(a)[..5]
    ensures a.number.Some? ==> entries[5] == Said(Asked(RequestBookingNumber, a.number.value))
  {
    ArrivalAt(entries, a);
    assert |MovingIn(a)| >= 6 && entries[5] == MovingIn(a)[5];
  }

  // ---------- where the reception is asked ----------

  /** Where the key is returned, and the booking checked out next. */
  function KeyReturnedAt(v: Visit): nat {
    |UntilDeparture(v.arrival.b, v)| + 4
  }

  lemma WholeStays(v: Visit)
    requires EndedInTime(v.arrival.b, v.log)
    ensures var stay := AllDays(v.arrival.b.cottageName, v.log.waits) + v.log.last + Departure();
            && AllQuiet(stay) && OnlyOrdersFor(stay, v.arrival.b.cottageName)
            && UntilDeparture(v.arrival.b, v) == MovingIn(v.arrival) + stay
  {
    var b := v.arrival.b;
    DaysAreQuiet(b, v.log.waits, |v.log.waits|);
    DaysOrder(b, v.log.waits, |v.log.waits|);
    WaitIsQuiet(v.log.last, b, true, Some(true));
    WaitIsSeen(v.log.last, b, true, Some(true));
    PlansAreQuiet(b.cottageName);
  }

  ghost predicate OnlyOrdersFor(plan: seq<Entry>, room: string) {
    forall i :: 0 <= i < |plan| ==> plan[i].Ordered? ==> plan[i].order.roomName == room
  }

  lemma {:induction false} DaysOrder(b: Booking, waits: seq<seq<Entry>>, k: nat)
    requires k <= |waits| && EndedEarly(waits, b, true)
    ensures OnlyOrdersFor(Days(b.cottageName, waits, k), b.cottageName)
  {
    if k > 0 {
      DaysOrder(b, waits, k - 1);
      WaitIsSeen(waits[k - 1], b, true, Some(false));
    }
  }

  /** Only these five entries of a whole session are the reception's, and the orders come between them. */
  lemma WholeAt(v: Visit, n: nat)
    requires EndedInTime(v.arrival.b, v.log) && n < |Whole(v)|
    ensures var p, r, e := AdmittedAt(v.arrival), KeyReturnedAt(v), Whole(v)[n];
            && p + 5 == |MovingIn(v.arrival)| <= r - 4
            && (e.Admitted? ==> n == p) && (e.NotDone? ==> n == 4)
            && (e.Done? ==> n == p + 4 || n == r || n == r + 1)
            && (e.Ordered? ==> p + 5 <= n < r && e.order.roomName == v.arrival.b.cottageName)
  {
    var b, m, u := v.arrival.b, |MovingIn(v.arrival)|, |UntilDeparture(v.arrival.b, v)|;
    WholeStays(v);
    ArrivalAt(Whole(v), v.arrival);
    var stay, left := UntilDeparture(b, v)[m..], MovingOut(b, v.today, v.returned);
    if n < m {
      assert Whole(v)[n] == MovingIn(v.arrival)[n];
    } else if n < u {
      assert Whole(v)[n] == stay[n - m];
    } else {
      assert Whole(v)[n] == left[n - u];
    }
  }

  lemma NoCheckOutBefore(entries: seq<Entry>, v: Visit, n: nat)
    requires BrokeOffIn(entries, v) && n < |entries| && n <= KeyReturnedAt(v) + 1
    ensures forall i :: 0 <= i < n ==> !IsCheckOut(entries[i])
  {
    BrokeOffAt(entries, Whole(v));
    forall i | 0 <= i < n ensures !IsCheckOut(entries[i]) {
      assert entries[i] == entries[..|entries| - 1][i] == Whole(v)[i];
      WholeAt(v, i);
      WholeDoneAt(v);
    }
  }

  /** What these entries are. */
  lemma WholeDoneAt(v: Visit)
    requires EndedInTime(v.arrival.b, v.log)
    ensures var a, p, r := v.arrival, AdmittedAt(v.arrival), KeyReturnedAt(v);
            && p + 5 <= r - 4 && r + 1 < |Whole(v)|
            && Whole(v)[p] == Admitted(CallOf(a), a.b)
            && Whole(v)[p + 4] == Done(ReceiveKey(a.b.cottageName, a.keyNumber))
            && Whole(v)[r] == Done(ReturnKey(a.b.cottageName, v.returned))
            && Whole(v)[r + 1] == Done(CheckOut(a.b, v.today))
            && (a.number.Some? ==> Whole(v)[4] == NotDone(CheckInByDocument(a.document, a.today)))
  {
    var b, u := v.arrival.b, |UntilDeparture(v.arrival.b, v)|;
    WholeStays(v);
    ArrivalAt(Whole(v), v.arrival);
    var left := MovingOut(b, v.today, v.returned);
    assert Whole(v)[u + 4] == left[4] && Whole(v)[u + 5] == left[5];
  }

  // ---------- nothing stops the session ----------

  lemma GoneOn(entries: seq<Entry>, v: Visit)
    requires BrokeOffIn(entries, v)
    ensures forall i :: 0 <= i < |entries| - 1 ==> GoesOn(entries[i])
  {
    BrokeOffAt(entries, Whole(v));
    WholeGoesOn(v);
    forall i | 0 <= i < |entries| - 1 ensures GoesOn(entries[i]) {
      assert entries[i] == entries[..|entries| - 1][i] == Whole(v)[i];
    }
  }

  lemma NotSilenced(o: Oracles, opening: Scene, history: seq<Scene>, entries: seq<Entry>, v: Visit, h: Hopes)
    requires IsRecord(o, opening, history, entries) && BrokeOffIn(entries, v)
    requires Says(o.env, opening.chat, h.Talk(|v.log.waits|)) && v.arrival.number.Some? == h.number.Some?
    ensures |entries| - 1 < |Whole(v)| && !Whole(v)[|entries| - 1].Said?
  {
    var n, k, a := |entries| - 1, |v.log.waits|, v.arrival;
    AheadInWhole(entries, v);
    GoneOn(entries, v);
    if Whole(v)[n].Said? {
      var t, x := TotalTo(entries, n).talk, Whole(v)[n].talk;
      OpsOfSession(a.document, a.number, a.keyNumber, v.returned, h.document, h.number, h.keyNumber, h.returned, k);
      assert SameOps(t + [x], h.Talk(k)) && (t + [x])[|t|] == x;
      assert SameOps(t, h.Talk(k));
      NotUnsaid(o, opening, history, entries, n, h.Talk(k), OpOf(x));
    }
  }

  lemma NoHourMissing(o: Oracles, opening: Scene, history: seq<Scene>, entries: seq<Entry>, v: Visit)
    requires IsRecord(o, opening, history, entries) && BrokeOffIn(entries, v)
    requires Serve(opening.hours, StayMeals(|v.log.waits|)).Some?
    ensures |entries| - 1 < |Whole(v)| && !Whole(v)[|entries| - 1].Came?
  {
    var n := |entries| - 1;
    AheadInWhole(entries, v);
    GoneOn(entries, v);
    if Whole(v)[n].Came? {
      Causes.FailureIsACause(o, opening, history, entries, n);
      HourIsThere(opening.hours, TotalTo(entries, n).hours + [Whole(v)[n].hour], StayMeals(|v.log.waits|));
    }
  }

  lemma HourIsThere(events: seq<Time>, hours: seq<int>, all: seq<int>)
    requires Serve(events, all).Some? && hours <= all
    ensures Serve(events, hours).Some?
  {
    assert all == hours + all[|hours|..];
    ServedSoFar(events, hours, all[|hours|..]);
  }

  lemma ClockGoesOn(o: Oracles, opening: Scene, history: seq<Scene>, entries: seq<Entry>, v: Visit)
    requires IsRecord(o, opening, history, entries) && BrokeOffIn(entries, v)
    requires AllTimes(opening.readings) && |opening.wakes| + 4 <= |opening.readings|
    ensures |entries| - 1 < |Whole(v)| && !Whole(v)[|entries| - 1].Looked?
  {
    var n := |entries| - 1;
    BrokeOffAt(entries, Whole(v));
    GoneOn(entries, v);
    WholeUnder(v);
    BalanceAlike(entries, Whole(v), n);
    ReadingsLeft(o, opening, history, entries, n);
    assert FollowsFrom(o, history, entries, n);
  }

  lemma BalanceAlike(entries: seq<Entry>, entries': seq<Entry>, n: nat)
    requires n <= |entries| && n <= |entries'| && entries[..n] == entries'[..n]
    ensures Balance(entries, n) == Balance(entries', n)
  {
    BalanceOfPrefix(entries[..n], entries[n..], n);
    BalanceOfPrefix(entries'[..n], entries'[n..], n);
    assert entries[..n] + entries[n..] == entries && entries'[..n] + entries'[n..] == entries';
  }

  lemma ArrivedBefore(entries: seq<Entry>, v: Visit)
    requires BrokeOffIn(entries, v) && |MovingIn(v.arrival)| < |entries|
    ensures MovingIn(v.arrival) <= entries
  {
    var m, n := |MovingIn(v.arrival)|, |entries| - 1;
    BrokeOffAt(entries, Whole(v));
    WholeStays(v);
    assert entries[..m] == entries[..n][..m] == Whole(v)[..m];
  }

  lemma OnlyBlankOrdersFail(o: Oracles, first: Calls, s: Scene, order: CleaningOrder, s': Scene)
    requires NothingIsDown(o.rules, first) && LaterCalls(first, s.desk.calls) && Leads(o, s, NotOrdered(order), s')
    ensures Blank(order.roomName)
  {
  }

  /** The failing step, as it is on record. */
  lemma FailedStep(o: Oracles, opening: Scene, history: seq<Scene>, entries: seq<Entry>, v: Visit)
    requires IsRecord(o, opening, history, entries) && BrokeOffIn(entries, v)
    ensures var n := |entries| - 1;
            0 <= n < |Whole(v)| && CanFail(Whole(v)[n])
            && Leads(o, history[n], Failing(Whole(v)[n]), history[n + 1])
  {
    BrokeOffAt(entries, Whole(v));
    assert FollowsFrom(o, history, entries, |entries| - 1);
  }

  lemma BooksAtTheEnd(o: Oracles, opening: Scene, history: seq<Scene>, entries: seq<Entry>, v: Visit)
    requires IsRecord(o, opening, history, entries) && BrokeOffIn(entries, v)
    requires NothingIsDown(o.rules, opening.desk.calls) && |entries| - 1 <= KeyReturnedAt(v) + 1
    ensures entries != [] && BooksKept(opening.desk, history[|entries| - 1].desk)
  {
    BrokeOffAt(entries, Whole(v));
    NoCheckOutBefore(entries, v, |entries| - 1);
    BooksStay(o, opening, history, entries, |entries| - 1);
  }

  lemma OrdersGoOut(o: Oracles, opening: Scene, history: seq<Scene>, entries: seq<Entry>, v: Visit)
    requires IsRecord(o, opening, history, entries) && BrokeOffIn(entries, v)
    requires NothingIsDown(o.rules, opening.desk.calls)
    ensures |entries| - 1 < |Whole(v)| && !Whole(v)[|entries| - 1].Ordered?
  {
    FailedStep(o, opening, history, entries, v);
    if Whole(v)[|entries| - 1].Ordered? {
      OrderComesBetween(entries, v);
      OrderGoesOut(o, opening, history, entries, v, Whole(v)[|entries| - 1].order);
    }
  }

  lemma OrderComesBetween(entries: seq<Entry>, v: Visit)
    requires BrokeOffIn(entries, v) && |entries| - 1 < |Whole(v)| && Whole(v)[|entries| - 1].Ordered?
    ensures AdmittedAt(v.arrival) < |entries| - 1 < KeyReturnedAt(v)
    ensures Whole(v)[|entries| - 1].order.roomName == v.arrival.b.cottageName
  {
    BrokeOffAt(entries, Whole(v));
    WholeAt(v, |entries| - 1);
  }

  lemma OrderGoesOut(o: Oracles, opening: Scene, history: seq<Scene>, entries: seq<Entry>, v: Visit,
                     order: CleaningOrder)
    requires IsRecord(o, opening, history, entries) && BrokeOffIn(entries, v)
    requires NothingIsDown(o.rules, opening.desk.calls) && order.roomName == v.arrival.b.cottageName
    requires AdmittedAt(v.arrival) < |entries| - 1 < KeyReturnedAt(v)
    ensures !Leads(o, history[|entries| - 1], NotOrdered(order), history[|entries|])
  {
    RoomIsThere(o, opening, history, entries, v);
    BooksAtTheEnd(o, opening, history, entries, v);
    if Leads(o, history[|entries| - 1], NotOrdered(order), history[|entries|]) {
      OnlyBlankOrdersFail(o, opening.desk.calls, history[|entries| - 1], order, history[|entries|]);
    }
  }

  // ---------- the reception serves ----------

  lemma NothingAnsweredBefore(entries: seq<Entry>, v: Visit)
    requires BrokeOffIn(entries, v) && |entries| - 1 == AdmittedAt(v.arrival)
    ensures forall i :: 0 <= i < |entries| - 1 ==> !IsCheckOut(entries[i]) && !entries[i].Admitted? && !entries[i].Done?
  {
    var n := |entries| - 1;
    BrokeOffAt(entries, Whole(v));
    WholeDoneAt(v);
    forall i | 0 <= i < n ensures !IsCheckOut(entries[i]) && !entries[i].Admitted? && !entries[i].Done? {
      assert entries[i] == entries[..n][i] == Whole(v)[i];
      WholeAt(v, i);
    }
  }

  /** What need not be refused is not refused, while nothing is down. */
  lemma NotRefused(o: Oracles, first: Calls, s: Scene, call: Call, s': Scene)
    requires !Refuses(o.rules, s.desk, call) && NothingIsDown(o.rules, first) && LaterCalls(first, s.desk.calls)
    ensures !Leads(o, s, NotDone(call), s')
  {
    NothingIsMissed(o.rules, first, s.desk.calls, s'.desk.calls);
  }

  lemma CottagesAtAdmission(o: Oracles, opening: Scene, history: seq<Scene>, entries: seq<Entry>, v: Visit)
    requires IsRecord(o, opening, history, entries) && BrokeOffIn(entries, v)
    requires NothingIsDown(o.rules, opening.desk.calls) && |entries| - 1 == AdmittedAt(v.arrival)
    ensures history[|entries| - 1].desk.cottages == opening.desk.cottages
  {
    NothingAnsweredBefore(entries, v);
    CottagesStay(o, opening, history, entries, |entries| - 1);
  }

  /** A check-in by number that need not be refused is not. */
  lemma NumberLeads(o: Oracles, opening: Scene, history: seq<Scene>, entries: seq<Entry>, v: Visit, h: Hopes)
    requires IsRecord(o, opening, history, entries) && BrokeOffIn(entries, v)
    requires NothingIsDown(o.rules, opening.desk.calls) && WillServe(o.rules, opening.desk, h)
    requires |entries| - 1 == AdmittedAt(v.arrival) ==> CallOf(v.arrival) == h.Call()
    ensures |entries| - 1 != AdmittedAt(v.arrival)
  {
    if |entries| - 1 == AdmittedAt(v.arrival) {
      AdmissionCanFail(entries, v);
      NumberIsNeeded(o.rules, opening.desk, h);
      FailedStep(o, opening, history, entries, v);
      NumberIsServed(o, opening, history, entries, v);
    }
  }

  lemma AdmissionCanFail(entries: seq<Entry>, v: Visit)
    requires BrokeOffIn(entries, v) && |entries| - 1 == AdmittedAt(v.arrival)
    ensures CallOf(v.arrival).CheckInByNumber? && AdmittedAt(v.arrival) < |Whole(v)|
    ensures Failing(Whole(v)[AdmittedAt(v.arrival)]) == NotDone(CallOf(v.arrival))
  {
    BrokeOffAt(entries, Whole(v));
    WholeDoneAt(v);
  }

  lemma NumberIsServed(o: Oracles, opening: Scene, history: seq<Scene>, entries: seq<Entry>, v: Visit)
    requires IsRecord(o, opening, history, entries) && BrokeOffIn(entries, v)
    requires NothingIsDown(o.rules, opening.desk.calls) && |entries| - 1 == AdmittedAt(v.arrival)
    requires CallOf(v.arrival).CheckInByNumber? && !Refuses(o.rules, opening.desk, CallOf(v.arrival))
    ensures !Leads(o, history[|entries| - 1], NotDone(CallOf(v.arrival)), history[|entries|])
  {
    var n, call := |entries| - 1, CallOf(v.arrival);
    WholeDoneAt(v);
    BooksAtTheEnd(o, opening, history, entries, v);
    CottagesAtAdmission(o, opening, history, entries, v);
    RefusedByNumberAsBefore(o.rules, opening.desk, history[n].desk, call);
    NotRefused(o, opening.desk.calls, history[n], call, history[n + 1]);
  }

  lemma RefusedByNumberAsBefore(o: Rules, d: Desk, d': Desk, call: Call)
    requires call.CheckInByNumber? && BooksKept(d, d') && d'.cottages == d.cottages
    ensures Refuses(o, d', call) <==> Refuses(o, d, call)
  {
  }


  /** A key with a number is not refused, for a cottage that is there. */
  lemma KeyIsNotRefused(o: Rules, d: Desk, d': Desk, call: Call, b: Booking)
    requires (call.ReceiveKey? || call.ReturnKey?) && !Blank(call.keyNumber) && call.room == b.cottageName
    requires !Blank(b.cottageName) && Named(d.cottages, b.cottageName) < |d.cottages| && BooksKept(d, d')
    ensures !Refuses(o, d', call)
  {
    ListsDecide(d.bookings, d.cottages, d'.cottages, b);
  }

  lemma CheckOutIsNotRefused(o: Rules, d: Desk, d': Desk, b: Booking, today: Time)
    requires CanCheckOut(d.bookings, d.cottages, b) && BooksKept(d, d')
    ensures !Refuses(o, d', CheckOut(b, today))
  {
    ListsDecide(d.bookings, d.cottages, d'.cottages, b);
  }

  /** The booking of a check-in that succeeded has its cottage, as things were at the opening. */
  lemma RoomIsThere(o: Oracles, opening: Scene, history: seq<Scene>, entries: seq<Entry>, v: Visit)
    requires IsRecord(o, opening, history, entries) && BrokeOffIn(entries, v)
    requires NothingIsDown(o.rules, opening.desk.calls) && AdmittedAt(v.arrival) < |entries| - 1
    ensures var b := v.arrival.b;
            !Blank(b.cottageName) && Named(opening.desk.cottages, b.cottageName) < |opening.desk.cottages|
  {
    var p, n := AdmittedAt(v.arrival), |entries| - 1;
    BrokeOffAt(entries, Whole(v));
    WholeDoneAt(v);
    assert entries[p] == entries[..n][p] == Whole(v)[p];
    NoCheckOutBefore(entries, v, p);
    BooksStay(o, opening, history, entries, p);
    assert FollowsFrom(o, history, entries, p);
    ListsDecide(opening.desk.bookings, opening.desk.cottages, history[p].desk.cottages, v.arrival.b);
  }

  // ---------- the keys ----------

  /** All that was said before the session broke off was hoped for. */
  lemma SaidAsHoped(o: Oracles, opening: Scene, history: seq<Scene>, entries: seq<Entry>, v: Visit, h: Hopes)
    requires IsRecord(o, opening, history, entries) && BrokeOffIn(entries, v)
    requires Says(o.env, opening.chat, h.Talk(|v.log.waits|)) && v.arrival.number.Some? == h.number.Some?
    ensures entries != [] && TotalTo(entries, |entries| - 1).talk <= h.Talk(|v.log.waits|)
  {
    var n, k, a, hoped := |entries| - 1, |v.log.waits|, v.arrival, h.Talk(|v.log.waits|);
    SaidSoFar(entries, v);
    OpsOfSession(a.document, a.number, a.keyNumber, v.returned, h.document, h.number, h.keyNumber, h.returned, k);
    PrefixOps(TotalTo(entries, n).talk, TalkOfSession(a.document, a.number, a.keyNumber, k, v.returned), hoped);
    TalkIsAsHoped(o, opening, history, entries, n, hoped);
  }

  lemma SaidSoFar(entries: seq<Entry>, v: Visit)
    requires BrokeOffIn(entries, v)
    ensures var n, a := |entries| - 1, v.arrival;
            && 0 <= n && NothingUnsaid(entries, n)
            && TotalTo(entries, n).talk
               <= TalkOfSession(a.document, a.number, a.keyNumber, |v.log.waits|, v.returned)
  {
    AheadInWhole(entries, v);
    TotalWith(TotalTo(entries, |entries| - 1), Whole(v)[|entries| - 1]);
    NothingUnsaidBefore(entries, v);
  }

  lemma NothingUnsaidBefore(entries: seq<Entry>, v: Visit)
    requires BrokeOffIn(entries, v) && entries != []
    ensures NothingUnsaid(entries, |entries| - 1)
  {
    GoneOn(entries, v);
  }

  lemma TotalWith(t: Total, e: Entry)
    ensures t.talk <= t.With(e).talk
  {
  }

  lemma PrefixOps(t: seq<Talk>, all: seq<Talk>, hoped: seq<Talk>)
    requires t <= all && SameOps(all, hoped)
    ensures SameOps(t, hoped)
  {
  }

  /** The keys given and returned have the numbers hoped for. */
  lemma KeysAsHoped(o: Oracles, opening: Scene, history: seq<Scene>, entries: seq<Entry>, v: Visit, h: Hopes)
    requires IsRecord(o, opening, history, entries) && BrokeOffIn(entries, v)
    requires Says(o.env, opening.chat, h.Talk(|v.log.waits|)) && v.arrival.number.Some? == h.number.Some?
    ensures AdmittedAt(v.arrival) + 4 <= |entries| - 1 ==> v.arrival.keyNumber == h.keyNumber
    ensures KeyReturnedAt(v) <= |entries| - 1 ==> v.returned == h.returned
  {
    SaidAsHoped(o, opening, history, entries, v, h);
    if AdmittedAt(v.arrival) + 4 <= |entries| - 1 {
      SaidByArrival(entries, v);
      KeyIsInTalk(v.arrival, h, |v.log.waits|);
    }
    if KeyReturnedAt(v) <= |entries| - 1 {
      SaidByReturn(entries, v);
      ReturnIsInTalk(v.arrival, v.returned, h, |v.log.waits|);
    }
  }

  /** As far as the session went, it went along the whole, and so along each beginning of it. */
  lemma AlongBeginning(entries: seq<Entry>, v: Visit, part: seq<Entry>, m: nat)
    requires BrokeOffIn(entries, v) && part <= Whole(v) && m <= |part| && m <= |entries| - 1
    ensures TotalTo(part, m).talk <= TotalTo(entries, |entries| - 1).talk
  {
    var n := |entries| - 1;
    BrokeOffAt(entries, Whole(v));
    assert entries[..m] == entries[..n][..m] == Whole(v)[..m] == part[..m];
    TotalAlike(entries, part, m);
    TotalGrows(entries, m, n);
  }

  lemma SaidByArrival(entries: seq<Entry>, v: Visit)
    requires BrokeOffIn(entries, v) && AdmittedAt(v.arrival) + 4 <= |entries| - 1
    ensures CheckInTalk(v.arrival.document, v.arrival.number, v.arrival.keyNumber)
            <= TotalTo(entries, |entries| - 1).talk
  {
    WholeStays(v);
    TotalToKey(v.arrival);
    AlongBeginning(entries, v, MovingIn(v.arrival), AdmittedAt(v.arrival) + 4);
  }

  lemma TotalToKey(a: Arrival)
    ensures AdmittedAt(a) + 4 < |MovingIn(a)|
    ensures TotalTo(MovingIn(a), AdmittedAt(a) + 4).talk == CheckInTalk(a.document, a.number, a.keyNumber)
  {
    ArrivalAt(MovingIn(a), a);
    MovingInSpells(a);
  }

  lemma KeyIsInTalk(a: Arrival, h: Hopes, k: nat)
    requires a.number.Some? == h.number.Some?
    requires CheckInTalk(a.document, a.number, a.keyNumber) <= h.Talk(k)
    ensures a.keyNumber == h.keyNumber
  {
    var i := if a.number.Some? then 5 else 4;
    assert CheckInTalk(a.document, a.number, a.keyNumber)[i] == Asked(GiveCottageKey, a.keyNumber);
    assert CheckInTalk(h.document, h.number, h.keyNumber)[i] == Asked(GiveCottageKey, h.keyNumber);
    assert CheckInTalk(h.document, h.number, h.keyNumber) <= h.Talk(k);
  }

  /** All that is said until the key is back. */
  function TalkToReturn(a: Arrival, k: nat, returned: string): seq<Talk> {
    CheckInTalk(a.document, a.number, a.keyNumber) + StayTalk(k) + DEPARTURE
    + [Heard(ProceedToCheckout), Asked(RequestCottageKey, returned), Heard(GuestAction.ReturnCottageKey)]
  }

  lemma SaidByReturn(entries: seq<Entry>, v: Visit)
    requires BrokeOffIn(entries, v) && KeyReturnedAt(v) <= |entries| - 1
    ensures TalkToReturn(v.arrival, |v.log.waits|, v.returned) <= TotalTo(entries, |entries| - 1).talk
  {
    TotalToReturn(v);
    ReturnIsAhead(v);
    AlongBeginning(entries, v, UntilReturn(v), KeyReturnedAt(v));
  }

  function UntilReturn(v: Visit): seq<Entry> {
    UntilDeparture(v.arrival.b, v) + ReturningKey(At(v.today), v.returned)
  }

  lemma TotalToReturn(v: Visit)
    requires EndedInTime(v.arrival.b, v.log)
    ensures |UntilReturn(v)| == KeyReturnedAt(v)
    ensures TotalTo(UntilReturn(v), KeyReturnedAt(v)).talk == TalkToReturn(v.arrival, |v.log.waits|, v.returned)
  {
    StaySpells(v.arrival.b, v);
    ReturnSpells(v);
    TotalOfBoth(UntilDeparture(v.arrival.b, v), ReturningKey(At(v.today), v.returned));
  }

  lemma ReturnIsAhead(v: Visit)
    ensures UntilReturn(v) <= Whole(v)
  {
    var left := MovingOut(v.arrival.b, v.today, v.returned);
    assert left[..4] == ReturningKey(At(v.today), v.returned);
    assert Whole(v) == UntilDeparture(v.arrival.b, v) + left[..4] + left[4..];
  }

  lemma ReturnSpells(v: Visit)
    ensures TotalOf(ReturningKey(At(v.today), v.returned)).talk
         == [Heard(ProceedToCheckout), Asked(RequestCottageKey, v.returned), Heard(GuestAction.ReturnCottageKey)]
  {
    var key := ReturningKey(At(v.today), v.returned);
    TotalOfTwo(key[0], key[1]);
    TotalOfTwo(key[2], key[3]);
    TotalOfBoth([key[0], key[1]], [key[2], key[3]]);
  }

  lemma ReturnIsInTalk(a: Arrival, returned: string, h: Hopes, k: nat)
    requires a.number.Some? == h.number.Some? && TalkToReturn(a, k, returned) <= h.Talk(k)
    ensures returned == h.returned
  {
    var i := |CheckInTalk(a.document, a.number, a.keyNumber) + StayTalk(k) + DEPARTURE| + 1;
    assert TalkToReturn(a, k, returned)[i] == Asked(RequestCottageKey, returned);
    assert |CheckInTalk(h.document, h.number, h.keyNumber) + StayTalk(k) + DEPARTURE| + 1 == i;
    assert h.Talk(k)[i] == CheckOutTalk(h.returned)[1];
  }

  lemma KeyIsServed(o: Oracles, opening: Scene, history: seq<Scene>, entries: seq<Entry>, v: Visit, call: Call)
    requires IsRecord(o, opening, history, entries) && BrokeOffIn(entries, v)
    requires NothingIsDown(o.rules, opening.desk.calls) && AdmittedAt(v.arrival) < |entries| - 1 <= KeyReturnedAt(v)
    requires (call.ReceiveKey? || call.ReturnKey?) && !Blank(call.keyNumber) && call.room == v.arrival.b.cottageName
    ensures !Leads(o, history[|entries| - 1], NotDone(call), history[|entries|])
  {
    var n := |entries| - 1;
    RoomIsThere(o, opening, history, entries, v);
    BooksAtTheEnd(o, opening, history, entries, v);
    KeyIsNotRefused(o.rules, opening.desk, history[n].desk, call, v.arrival.b);
    NotRefused(o, opening.desk.calls, history[n], call, history[n + 1]);
  }

  lemma KeysAreServed(o: Oracles, opening: Scene, history: seq<Scene>, entries: seq<Entry>, v: Visit, h: Hopes)
    requires IsRecord(o, opening, history, entries) && BrokeOffIn(entries, v)
    requires NothingIsDown(o.rules, opening.desk.calls) && !Blank(h.keyNumber) && !Blank(h.returned)
    requires Says(o.env, opening.chat, h.Talk(|v.log.waits|)) && v.arrival.number.Some? == h.number.Some?
    ensures |entries| - 1 != AdmittedAt(v.arrival) + 4 && |entries| - 1 != KeyReturnedAt(v)
  {
    var n := |entries| - 1;
    WholeDoneAt(v);
    if n == AdmittedAt(v.arrival) + 4 || n == KeyReturnedAt(v) {
      FailedStep(o, opening, history, entries, v);
      KeysAsHoped(o, opening, history, entries, v, h);
      KeyIsServed(o, opening, history, entries, v, Whole(v)[n].call);
    }
  }

  lemma CheckOutIsServed(o: Oracles, opening: Scene, history: seq<Scene>, entries: seq<Entry>, v: Visit)
    requires IsRecord(o, opening, history, entries) && BrokeOffIn(entries, v)
    requires NothingIsDown(o.rules, opening.desk.calls) && |entries| - 1 == KeyReturnedAt(v) + 1
    requires CanCheckOut(opening.desk.bookings, opening.desk.cottages, v.arrival.b)
    ensures !Leads(o, history[|entries| - 1], NotDone(CheckOut(v.arrival.b, v.today)), history[|entries|])
  {
    var n := |entries| - 1;
    BooksAtTheEnd(o, opening, history, entries, v);
    CheckOutIsNotRefused(o.rules, opening.desk, history[n].desk, v.arrival.b, v.today);
    NotRefused(o, opening.desk.calls, history[n], CheckOut(v.arrival.b, v.today), history[n + 1]);
  }

  lemma CheckOutSucceeds(o: Oracles, opening: Scene, history: seq<Scene>, entries: seq<Entry>, v: Visit)
    requires IsRecord(o, opening, history, entries) && BrokeOffIn(entries, v)
    requires NothingIsDown(o.rules, opening.desk.calls)
    requires CanCheckOut(opening.desk.bookings, opening.desk.cottages, v.arrival.b)
    ensures |entries| - 1 != KeyReturnedAt(v) + 1
  {
    if |entries| - 1 == KeyReturnedAt(v) + 1 {
      WholeDoneAt(v);
      FailedStep(o, opening, history, entries, v);
      CheckOutIsServed(o, opening, history, entries, v);
    }
  }

  // ---------- the result ----------

  /** What breaks off in the greeting breaks off so whether or not a number will be needed. */
  lemma Realigned(entries: seq<Entry>, v: Visit, number: Option<string>)
    requires BrokeOffIn(entries, v) && |entries| <= 4
    ensures BrokeOffIn(entries, v.(arrival := v.arrival.(number := number)))
  {
    var v', n := v.(arrival := v.arrival.(number := number)), |entries| - 1;
    BrokeOffAt(entries, Whole(v));
    assert forall i :: 0 <= i < 4 ==> Whole(v)[i] == Greeting(At(v.arrival.today), v.arrival.document)[i];
    assert forall i :: 0 <= i < 4 ==> Whole(v')[i] == Whole(v)[i];
    assert Whole(v)[..n] == Whole(v')[..n];
  }

  /** With a number exactly if one was to be needed, what comes next in the session does not fail. */
  lemma NothingStops(o: Oracles, opening: Scene, history: seq<Scene>, entries: seq<Entry>, v: Visit, h: Hopes)
    requires IsRecord(o, opening, history, entries) && Favourable(o, opening, h)
    requires v.arrival.number.Some? == h.number.Some? && |v.log.waits| == DaysAhead(opening, h.b)
    ensures !BrokeOffIn(entries, v)
  {
    if BrokeOffIn(entries, v) {
      var n := |entries| - 1;
      BrokeOffAt(entries, Whole(v));
      NotSilenced(o, opening, history, entries, v, h);
      NoHourMissing(o, opening, history, entries, v);
      ClockGoesOn(o, opening, history, entries, v);
      OrdersGoOut(o, opening, history, entries, v);
      ReceptionServes(o, opening, history, entries, v, h);
    }
  }

  lemma ReceptionServes(o: Oracles, opening: Scene, history: seq<Scene>, entries: seq<Entry>, v: Visit, h: Hopes)
    requires IsRecord(o, opening, history, entries) && Favourable(o, opening, h) && BrokeOffIn(entries, v)
    requires v.arrival.number.Some? == h.number.Some? && |v.log.waits| == DaysAhead(opening, h.b)
    ensures |entries| - 1 < |Whole(v)|
    ensures !Whole(v)[|entries| - 1].Admitted? && !Whole(v)[|entries| - 1].Done?
  {
    KeysAreServed(o, opening, history, entries, v, h);
    AdmissionSucceeds(o, opening, history, entries, v, h);
    LeavingSucceeds(o, opening, history, entries, v, h);
    AnswersComeThere(entries, v);
  }

  lemma AnswersComeThere(entries: seq<Entry>, v: Visit)
    requires BrokeOffIn(entries, v)
    ensures var n := |entries| - 1;
            && 0 <= n < |Whole(v)| && (Whole(v)[n].Admitted? ==> n == AdmittedAt(v.arrival))
            && (Whole(v)[n].Done? ==>
                  n == AdmittedAt(v.arrival) + 4 || n == KeyReturnedAt(v) || n == KeyReturnedAt(v) + 1)
  {
    BrokeOffAt(entries, Whole(v));
    WholeAt(v, |entries| - 1);
  }

  lemma AdmissionSucceeds(o: Oracles, opening: Scene, history: seq<Scene>, entries: seq<Entry>, v: Visit, h: Hopes)
    requires IsRecord(o, opening, history, entries) && Favourable(o, opening, h) && BrokeOffIn(entries, v)
    ensures |entries| - 1 != AdmittedAt(v.arrival)
  {
    if |entries| - 1 == AdmittedAt(v.arrival) {
      AdmissionCalled(o, opening, history, entries, v, h);
      NumberLeads(o, opening, history, entries, v, h);
    }
  }

  lemma LeavingSucceeds(o: Oracles, opening: Scene, history: seq<Scene>, entries: seq<Entry>, v: Visit, h: Hopes)
    requires IsRecord(o, opening, history, entries) && Favourable(o, opening, h) && BrokeOffIn(entries, v)
    ensures |entries| - 1 != KeyReturnedAt(v) + 1
  {
    if |entries| - 1 == KeyReturnedAt(v) + 1 {
      WholeDoneAt(v);
      ArrivedBefore(entries, v);
      BookingAsHoped(o, opening, history, entries, v.arrival, h);
      CheckOutSucceeds(o, opening, history, entries, v);
    }
  }

  lemma AdmissionCalled(o: Oracles, opening: Scene, history: seq<Scene>, entries: seq<Entry>, v: Visit, h: Hopes)
    requires IsRecord(o, opening, history, entries) && Favourable(o, opening, h) && BrokeOffIn(entries, v)
    requires |entries| - 1 == AdmittedAt(v.arrival)
    ensures CallOf(v.arrival) == h.Call()
  {
    AdmissionCanFail(entries, v);
    ArrivedToTheNumber(entries, v);
    CalledAsHoped(o, opening, history, entries, v.arrival, h);
  }

  lemma ArrivedToTheNumber(entries: seq<Entry>, v: Visit)
    requires BrokeOffIn(entries, v) && |entries| - 1 == AdmittedAt(v.arrival) && v.arrival.number.Some?
    ensures 6 <= |entries| && 5 <= |MovingIn(v.arrival)| && entries[..5] == MovingIn(v.arrival)[..5]
    ensures entries[5] == Said(Asked(RequestBookingNumber, v.arrival.number.value))
  {
    WholeDoneAt(v);
    ArrivalAt(MovingIn(v.arrival), v.arrival);
    BeginsAsArrival(entries, v, 6);
    assert entries[..5] == entries[..6][..5] == MovingIn(v.arrival)[..5];
  }

  lemma BeginsAsArrival(entries: seq<Entry>, v: Visit, k: nat)
    requires BrokeOffIn(entries, v) && k <= |entries| - 1 && k <= |MovingIn(v.arrival)|
    ensures entries[..k] == MovingIn(v.arrival)[..k]
    ensures forall i :: 0 <= i < k ==> entries[i] == MovingIn(v.arrival)[i]
  {
    BrokeOffAt(entries, Whole(v));
    WholeStays(v);
    assert entries[..k] == entries[..|entries| - 1][..k] == Whole(v)[..k] == MovingIn(v.arrival)[..k];
    assert forall i :: 0 <= i < k ==> entries[i] == entries[..k][i];
  }

  /** A session that broke off before its last full day was over had no more waits than there are days ahead. */
  lemma NoMoreDaysThanAhead(o: Oracles, opening: Scene, history: seq<Scene>, entries: seq<Entry>, v: Visit)
    requires IsRecord(o, opening, history, entries) && EndedEarly(v.log.waits, v.arrival.b, true)
    requires WaitsCame(entries, v)
    ensures |v.log.waits| <= DaysAhead(opening, v.arrival.b)
  {
    if v.log.waits != [] {
      var n, b, a := |v.log.waits| - 1, v.arrival.b, v.arrival;
      var before := MovingIn(a) + AllDays(b.cottageName, v.log.waits[..n]);
      LengthAfterDays(o, opening, history, entries, a, b, v.log.waits[..n], n);
      WaitCounts(o, opening, history, entries, before, v.log.waits[n], b, Some(false));
    }
  }

  /** One that broke off after its last wait had as many. */
  lemma AsManyDaysAsAhead(o: Oracles, opening: Scene, history: seq<Scene>, entries: seq<Entry>, v: Visit)
    requires IsRecord(o, opening, history, entries) && EndedInTime(v.arrival.b, v.log)
    requires Daily(v) + v.log.last <= entries
    ensures |v.log.waits| == DaysAhead(opening, v.arrival.b)
  {
    LengthAfterDays(o, opening, history, entries, v.arrival, v.arrival.b, v.log.waits, |v.log.waits|);
    WaitCounts(o, opening, history, entries, Daily(v), v.log.last, v.arrival.b, Some(true));
  }

  /** So it broke off on the way along a session with exactly as many. */
  lemma AsLongAsAhead(o: Oracles, opening: Scene, history: seq<Scene>, entries: seq<Entry>, v: Visit, b: Booking)
    returns (v': Visit)
    requires IsRecord(o, opening, history, entries) && BrokeOffAfterWaits(entries, v)
    requires |MovingIn(v.arrival)| < |entries| ==> v.arrival.b == b
    ensures BrokeOffIn(entries, v') && v'.arrival == v.arrival && |v'.log.waits| == DaysAhead(opening, b)
  {
    if |entries| <= |MovingIn(v.arrival)| {
      assert v.log.waits == [];
      v' := CouldBeAsLongAs(entries, v, DaysAhead(opening, b));
    } else if |entries| <= |Daily(v)| {
      NoMoreDaysThanAhead(o, opening, history, entries, v);
      v' := CouldBeAsLongAs(entries, v, DaysAhead(opening, b));
    } else {
      AsManyDaysAsAhead(o, opening, history, entries, v);
      v' := v;
    }
  }

  /** When everything is there for the guest, no session breaks off on the way. */
  lemma NeverBreaksOff(o: Oracles, opening: Scene, history: seq<Scene>, entries: seq<Entry>, v: Visit, h: Hopes)
    requires IsRecord(o, opening, history, entries) && Favourable(o, opening, h)
    ensures !BrokeOffAfterWaits(entries, v)
  {
    if BrokeOffAfterWaits(entries, v) {
      if |MovingIn(v.arrival)| < |entries| {
        ArrivedBefore(entries, v);
        BookingAsHoped(o, opening, history, entries, v.arrival, h);
      }
      var v' := AsLongAsAhead(o, opening, history, entries, v, h.b);
      NotOnTheWay(o, opening, history, entries, v', h);
    }
  }

  lemma NotOnTheWay(o: Oracles, opening: Scene, history: seq<Scene>, entries: seq<Entry>, v: Visit, h: Hopes)
    requires IsRecord(o, opening, history, entries) && Favourable(o, opening, h)
    requires |v.log.waits| == DaysAhead(opening, h.b)
    ensures !BrokeOffIn(entries, v)
  {
    if BrokeOffIn(entries, v) {
      BrokeOffAt(entries, Whole(v));
      if |entries| <= 4 {
        Realigned(entries, v, h.number);
        NothingStops(o, opening, history, entries, v.(arrival := v.arrival.(number := h.number)), h);
      } else {
        PastTheDocument(entries, v);
        BeginsAsArrival(entries, v, 5);
        ArrivedAsHoped(o, opening, history, entries, v.arrival, h);
        NothingStops(o, opening, history, entries, v, h);
      }
    }
  }

  /** A session does not end with the document being refused. */
  lemma PastTheDocument(entries: seq<Entry>, v: Visit)
    requires BrokeOffIn(entries, v) && 5 <= |entries|
    ensures 6 <= |entries| && 5 <= |MovingIn(v.arrival)|
  {
    BrokeOffAt(entries, Whole(v));
    WholeDoneAt(v);
  }

  lemma {:induction false} TimesStay(o: Oracles, opening: Scene, history: seq<Scene>, entries: seq<Entry>, n: nat)
    requires IsRecord(o, opening, history, entries) && n <= |entries| && AllTimes(opening.readings)
    ensures AllTimes(history[n].readings)
  {
    if n > 0 {
      TimesStay(o, opening, history, entries, n - 1);
      assert FollowsFrom(o, history, entries, n - 1);
    }
  }

  lemma AlwaysATime(o: Oracles, opening: Scene, history: seq<Scene>, entries: seq<Entry>)
    requires IsRecord(o, opening, history, entries) && AllTimes(opening.readings)
    ensures !SawNoTime(entries)
  {
    forall k | 0 <= k < |entries| ensures entries[k] != Looked(NoTime) {
      TimesStay(o, opening, history, entries, k);
      assert FollowsFrom(o, history, entries, k);
    }
  }

  /** No session ends in a wait when the check-out day will be reached. */
  lemma NoWaitIsTheLast(o: Oracles, opening: Scene, history: seq<Scene>, entries: seq<Entry>, b: Booking, v: Visit)
    requires IsRecord(o, opening, history, entries) && EndedWaiting(entries, b, v)
    ensures !AheadAtOpening(opening, b).1
  {
    LengthAfterDays(o, opening, history, entries, v.arrival, b, v.log.waits, |v.log.waits|);
    WaitCounts(o, opening, history, entries, Daily(v), v.log.last, b, None);
  }

  lemma NeverBrokenOff(o: Oracles, opening: Scene, history: seq<Scene>, entries: seq<Entry>, booking: Option<Booking>,
                       v: Visit, h: Hopes)
    requires IsRecord(o, opening, history, entries) && Favourable(o, opening, h)
    ensures !BrokenOff(entries, booking, v)
  {
    if BrokenOff(entries, booking, v) {
      AlwaysATime(o, opening, history, entries);
      BreaksOffIn(entries, booking, v);
      if booking.Some? && EndedWaiting(entries, booking.value, v) {
        BookingAsHoped(o, opening, history, entries, v.arrival, h);
        NoWaitIsTheLast(o, opening, history, entries, booking.value, v);
      } else {
        var v' :| BrokeOffAfterWaits(entries, v');
        NeverBreaksOff(o, opening, history, entries, v', h);
      }
    }
  }

  /** When everything is there for the guest as the session opens, the session is completed, on the booking hoped
      for. */
  lemma FavourableSessionsComplete(o: Oracles, opening: Scene, history: seq<Scene>, entries: seq<Entry>,
                                   booking: Option<Booking>, v: Visit, h: Hopes)
    requires IsRecord(o, opening, history, entries) && IsSession(entries, booking, v)
    requires Favourable(o, opening, h)
    ensures booking == Some(h.b) && Completed(entries, h.b, v)
  {
    NeverBrokenOff(o, opening, history, entries, booking, v, h);
    BeginsWithArrival(entries, booking.value, v);
    BookingAsHoped(o, opening, history, entries, v.arrival, h);
  }

  // ---------- and only then ----------

  /** The guest whose session this was. */
  function HopesOf(v: Visit): Hopes {
    Hopes(v.arrival.document, v.arrival.number, v.arrival.keyNumber, v.returned, v.arrival.today, v.arrival.b)
  }

  lemma KeysWereServed(o: Oracles, opening: Scene, history: seq<Scene>, v: Visit)
    requires IsRecord(o, opening, history, Whole(v)) && EndedInTime(v.arrival.b, v.log)
    ensures !Blank(v.arrival.keyNumber) && !Blank(v.returned)
  {
    WholeDoneAt(v);
    assert FollowsFrom(o, history, Whole(v), AdmittedAt(v.arrival) + 4);
    assert FollowsFrom(o, history, Whole(v), KeyReturnedAt(v));
  }

  lemma CheckOutWasServed(o: Oracles, opening: Scene, history: seq<Scene>, v: Visit)
    requires IsRecord(o, opening, history, Whole(v)) && EndedInTime(v.arrival.b, v.log)
    requires NothingIsDown(o.rules, opening.desk.calls)
    ensures CanCheckOut(opening.desk.bookings, opening.desk.cottages, v.arrival.b)
  {
    var n := KeyReturnedAt(v) + 1;
    WholeDoneAt(v);
    forall i | 0 <= i < n ensures !IsCheckOut(Whole(v)[i]) {
      WholeAt(v, i);
    }
    BooksStay(o, opening, history, Whole(v), n);
    assert FollowsFrom(o, history, Whole(v), n);
    ListsDecide(opening.desk.bookings, history[n].desk.cottages, opening.desk.cottages, v.arrival.b);
  }

  /** The number was needed, and led to the booking. */
  lemma NumberWasServed(o: Oracles, opening: Scene, history: seq<Scene>, v: Visit)
    requires IsRecord(o, opening, history, Whole(v)) && EndedInTime(v.arrival.b, v.log)
    requires NothingIsDown(o.rules, opening.desk.calls) && v.arrival.number.Some?
    ensures !Refuses(o.rules, opening.desk, CallOf(v.arrival))
  {
    WholeDoneAt(v);
    forall i | 0 <= i < 6 ensures !IsCheckOut(Whole(v)[i]) && !Whole(v)[i].Admitted? && !Whole(v)[i].Done? {
      WholeAt(v, i);
    }
    BooksStay(o, opening, history, Whole(v), 6);
    CottagesStay(o, opening, history, Whole(v), 6);
    assert FollowsFrom(o, history, Whole(v), 6);
    RefusedByNumberAsBefore(o.rules, opening.desk, history[6].desk, CallOf(v.arrival));
  }

  lemma DocumentWasTried(o: Oracles, opening: Scene, history: seq<Scene>, v: Visit)
    requires IsRecord(o, opening, history, Whole(v)) && EndedInTime(v.arrival.b, v.log)
    requires NothingIsDown(o.rules, opening.desk.calls)
    ensures v.arrival.number.Some? <==> Refuses(o.rules, opening.desk, HopesOf(v).ByDocument())
  {
    WholeDoneAt(v);
    forall i | 0 <= i < 4 ensures Quiet(Whole(v)[i]) {
      WholeAt(v, i);
    }
    TriedAsDue(o, opening, history, Whole(v), HopesOf(v).ByDocument());
  }

  /** What a completed session was served, the reception had to serve. */
  lemma CompletedWasServed(o: Oracles, opening: Scene, history: seq<Scene>, v: Visit)
    requires IsRecord(o, opening, history, Whole(v)) && EndedInTime(v.arrival.b, v.log)
    requires NothingIsDown(o.rules, opening.desk.calls)
    ensures WillServe(o.rules, opening.desk, HopesOf(v))
  {
    KeysWereServed(o, opening, history, v);
    CheckOutWasServed(o, opening, history, v);
    DocumentWasTried(o, opening, history, v);
    WholeStays(v);
    TheBookingIsFound(o, opening, history, Whole(v), v.arrival);
    if v.arrival.number.Some? {
      NumberWasServed(o, opening, history, v);
    }
  }

  lemma CompletedWasSaid(o: Oracles, opening: Scene, history: seq<Scene>, v: Visit)
    requires IsRecord(o, opening, history, Whole(v)) && EndedInTime(v.arrival.b, v.log)
    ensures Says(o.env, opening.chat, HopesOf(v).Talk(|v.log.waits|))
    ensures Serve(opening.hours, StayMeals(|v.log.waits|)).Some?
  {
    WholeGoesOn(v);
    CompletedSpells(Whole(v), v.arrival.b, v);
    RecordSays(o, opening, history, Whole(v), |Whole(v)|);
    RecordServes(o, opening, history, Whole(v), |Whole(v)|);
  }

  lemma CompletedWasInTime(o: Oracles, opening: Scene, history: seq<Scene>, v: Visit)
    requires IsRecord(o, opening, history, Whole(v)) && EndedInTime(v.arrival.b, v.log)
    ensures AheadAtOpening(opening, v.arrival.b) == (|v.log.waits|, true)
  {
    WholeFrom(v);
    LengthAfterDays(o, opening, history, Whole(v), v.arrival, v.arrival.b, v.log.waits, |v.log.waits|);
    WaitCounts(o, opening, history, Whole(v), Daily(v), v.log.last, v.arrival.b, Some(true));
  }

  lemma CompletedWasAwaited(o: Oracles, opening: Scene, history: seq<Scene>, entries: seq<Entry>, b: Booking, v: Visit)
    requires IsRecord(o, opening, history, entries) && Completed(entries, b, v)
    requires NothingIsDown(o.rules, opening.desk.calls)
    ensures IsAwaited(o, opening, HopesOf(v))
  {
    assert entries == Whole(v);
    CompletedWasServed(o, opening, history, v);
    CompletedWasSaid(o, opening, history, v);
    CompletedWasInTime(o, opening, history, v);
    Timing.CheckedInForTheDay(o, opening, history, entries, b, v);
  }

  /** The session of some guest is awaited. */
  ghost predicate Promising(o: Oracles, opening: Scene) {
    exists h :: IsAwaited(o, opening, h)
  }

  /** With the services and the clock up, a session is completed exactly when, as it opens, the reception will serve
      some guest, the check-out day will be reached, the hour changes suffice until then, and the connection carries
      that guest's conversation. */
  lemma SessionCompletesExactlyWhenAwaited(o: Oracles, opening: Scene, history: seq<Scene>, entries: seq<Entry>,
                                           booking: Option<Booking>, v: Visit)
    requires IsRecord(o, opening, history, entries) && IsSession(entries, booking, v) && AllIsUp(o, opening)
    ensures Promising(o, opening) <==> !BrokenOff(entries, booking, v)
    ensures Promising(o, opening) <==> booking.Some? && Completed(entries, booking.value, v)
  {
    if Promising(o, opening) {
      var h :| IsAwaited(o, opening, h);
      FavourableSessionsComplete(o, opening, history, entries, booking, v, h);
      NeverBrokenOff(o, opening, history, entries, booking, v, h);
    }
    if booking.Some? && Completed(entries, booking.value, v) {
      CompletedWasAwaited(o, opening, history, entries, booking.value, v);
    }
  }
}
