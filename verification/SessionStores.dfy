/** What a session does to the reception's stores. */
module SessionStores {
  import opened Outcomes
  import opened Times
  import opened Bookings
  import opened CottageRepo
  import opened Journal
  import opened Itinerary
  import opened StayRecord
  import opened Visits
  import opened Reception
  import BookingLookup
  import CheckInCache
  import BookingRepo

  /** The guest occupies the booking's cottage and holds its key. */
  function AfterMoveIn(cs: seq<Cottage>, b: Booking, keyNumber: string): seq<Cottage> {
    WithKey(WithGuest(cs, b.cottageName, b.mainGuest), b.cottageName, Key(keyNumber, HeldByGuest))
  }

  /** The key is back, the booking off its cottage's list, and the booking's cottage empty. */
  function AfterCheckOut(cs: seq<Cottage>, b: Booking, keyNumber: string): seq<Cottage> {
    WithGuest(WithoutBooking(WithKey(cs, b.cottageName, Key(keyNumber, HeldByCottage)), b.id), b.cottageName, NIL_ID)
  }

  /** From the cottages the booking was checked in on, through the whole session. */
  function AfterSession(cs: seq<Cottage>, b: Booking, given: string, returned: string): seq<Cottage> {
    AfterCheckOut(AfterMoveIn(cs, b, given), b, returned)
  }

  /** The check-in that succeeded. */
  function CallOf(a: Arrival): Call {
    match a.number {
      case None => CheckInByDocument(a.document, a.today)
      case Some(n) => CheckInByNumber(a.document, n, a.today)
    }
  }

  // ---------- entries that the reception has no part in ----------

  predicate Quiet(e: Entry) {
    !e.Admitted? && !e.Done? && !e.NotDone?
  }

  ghost predicate AllQuiet(plan: seq<Entry>) {
    forall i :: 0 <= i < |plan| ==> Quiet(plan[i])
  }

  /** Nothing at the desk has changed but the orders. */
  predicate SameBooks(d: Desk, d': Desk) {
    d' == d.(orders := d'.orders, calls := d.calls.(orders := d'.calls.orders))
  }

  lemma {:induction false} QuietKeepsBooks(o: Oracles, opening: Scene, history: seq<Scene>, entries: seq<Entry>,
                                           i: nat, j: nat)
    requires IsRecord(o, opening, history, entries) && i <= j <= |entries|
    requires forall k :: i <= k < j ==> Quiet(entries[k])
    ensures SameBooks(history[i].desk, history[j].desk)
  {
    if i < j {
      QuietKeepsBooks(o, opening, history, entries, i, j - 1);
      assert FollowsFrom(o, history, entries, j - 1);
    }
  }

  lemma WaitIsQuiet(wait: seq<Entry>, b: Booking, clocked: bool, verdict: Option<bool>)
    requires IsWholeWait(wait, b, clocked, verdict)
    ensures AllQuiet(wait)
  {
  }

  lemma PlansAreQuiet(room: string)
    ensures AllQuiet(FirstEvening(room)) && AllQuiet(FullDay(room)) && AllQuiet(Departure())
  {
  }

  lemma {:induction false} DaysAreQuiet(b: Booking, waits: seq<seq<Entry>>, k: nat)
    requires k <= |waits| && EndedEarly(waits, b, true)
    ensures AllQuiet(Days(b.cottageName, waits, k))
  {
    PlansAreQuiet(b.cottageName);
    if k > 0 {
      DaysAreQuiet(b, waits, k - 1);
      WaitIsQuiet(waits[k - 1], b, true, Some(false));
    }
  }

  // ---------- moving in ----------

  /** Where in its plan the check-in succeeds. */
  function AdmittedAt(a: Arrival): nat {
    if a.number.None? then 4 else 6
  }

  lemma ArrivalAt(entries: seq<Entry>, a: Arrival)
    requires MovingIn(a) <= entries
    ensures var p := AdmittedAt(a);
            && |MovingIn(a)| == p + 5 <= |entries|
            && entries[p] == Admitted(CallOf(a), a.b)
            && entries[p + 4] == Done(ReceiveKey(a.b.cottageName, a.keyNumber))
            && (a.number.Some? ==> entries[4] == NotDone(CheckInByDocument(a.document, a.today)))
            && forall k :: 0 <= k < p + 4 && k != p && k != 4 ==> Quiet(entries[k])
  {
    var plan := MovingIn(a);
    assert forall k :: 0 <= k < |plan| ==> entries[k] == plan[k];
  }

  /** At most one failed check-in led to the cottages `found`; then the booking was checked in, on its day, and the key
      of its cottage handed out. */
  ghost predicate MovedIn(d: Desk, d': Desk, found: seq<Cottage>, a: Arrival) {
    && a.b.mainGuest != NIL_ID && Ready(found, a.b, a.today)
    && Stranding(d.cottages, found, d.stranded, d'.stranded)
    && (a.number.None? ==> found == d.cottages && d'.stranded == d.stranded)
    && d' == d.(cottages := AfterMoveIn(found, a.b, a.keyNumber), stranded := d'.stranded, orders := d'.orders,
                calls := d'.calls)
  }

  /** What comes before the check-in that succeeds: at most one that failed. */
  ghost predicate TurnedAway(d: Desk, d': Desk, a: Arrival) {
    && Stranding(d.cottages, d'.cottages, d.stranded, d'.stranded)
    && d' == d.(cottages := d'.cottages, stranded := d'.stranded, orders := d'.orders, calls := d'.calls)
    && (a.number.None? ==>
          d'.cottages == d.cottages && d'.stranded == d.stranded && d'.calls.cache == d.calls.cache)
  }

  lemma BeforeAdmission(o: Oracles, opening: Scene, history: seq<Scene>, entries: seq<Entry>, a: Arrival)
    requires IsRecord(o, opening, history, entries) && MovingIn(a) <= entries && AdmittedAt(a) < |history|
    ensures TurnedAway(opening.desk, history[AdmittedAt(a)].desk, a)
  {
    ArrivalAt(entries, a);
    QuietKeepsBooks(o, opening, history, entries, 0, 4);
    if a.number.Some? {
      assert FollowsFrom(o, history, entries, 4);
      QuietKeepsBooks(o, opening, history, entries, 5, 6);
    }
  }

  /** Every guest who moved in did so on the booking that the reception finds, as things were at the opening, for the
      document and the number given; the guest of that booking is registered under the document, and while the cached
      lists are what the store would give, it is a stored booking of that guest for that day. */
  lemma TheBookingIsFound(o: Oracles, opening: Scene, history: seq<Scene>, entries: seq<Entry>, a: Arrival)
    requires IsRecord(o, opening, history, entries) && MovingIn(a) <= entries
    ensures Found(o.rules, opening.desk, CallOf(a)) == Success(a.b)
    ensures IsGuestOf(o.rules, opening.desk, a.document, a.b)
    ensures CheckInCache.Current(opening.desk.lists, opening.desk.bookings) ==>
              BookingLookup.IsStoredAs(opening.desk.bookings, a.b.mainGuest, Day(a.today), a.b)
  {
    var p := AdmittedAt(a);
    ArrivalAt(entries, a);
    BeforeAdmission(o, opening, history, entries, a);
    assert FollowsFrom(o, history, entries, p);
    FoundIsTheGuests(o.rules, opening.desk, CallOf(a));
    if CheckInCache.Current(opening.desk.lists, opening.desk.bookings) {
      FoundIsStored(o.rules, opening.desk, CallOf(a));
    }
  }

  lemma ArrivalMovesIn(o: Oracles, opening: Scene, history: seq<Scene>, entries: seq<Entry>, a: Arrival)
    requires IsRecord(o, opening, history, entries) && MovingIn(a) <= entries
    ensures AdmittedAt(a) + 5 == |MovingIn(a)| < |history|
    ensures MovedIn(opening.desk, history[|MovingIn(a)|].desk, history[AdmittedAt(a)].desk.cottages, a)
  {
    var p := AdmittedAt(a);
    ArrivalAt(entries, a);
    BeforeAdmission(o, opening, history, entries, a);
    assert FollowsFrom(o, history, entries, p);
    QuietKeepsBooks(o, opening, history, entries, p + 1, p + 4);
    assert FollowsFrom(o, history, entries, p + 4);
    InWithTheKey(o, opening.desk, history[p].desk, history[p + 1].desk, history[p + 4].desk, history[p + 5].desk, a);
  }

  lemma InWithTheKey(o: Oracles, d: Desk, before: Desk, admitted: Desk, waiting: Desk, d': Desk, a: Arrival)
    requires TurnedAway(d, before, a) && CheckedIn(o.rules, before, admitted, CallOf(a), a.b)
    requires SameBooks(admitted, waiting)
    requires Served(o.rules, waiting, d', ReceiveKey(a.b.cottageName, a.keyNumber))
    ensures MovedIn(d, d', before.cottages, a)
  {
  }

  // ---------- moving out ----------

  /** The key is back, the booking past and off its list, and its cottage empty. */
  ghost predicate MovedOut(d: Desk, d': Desk, b: Booking, keyNumber: string) {
    && BookingRepo.WithId(d.bookings, b.id) < |d.bookings| && Listing(d.cottages, b.id) < |d.cottages|
    && d' == d.(bookings := BookingRepo.WithStatus(d.bookings, b.id, PAST),
                cottages := AfterCheckOut(d.cottages, b, keyNumber), orders := d'.orders, calls := d'.calls)
  }

  lemma KeysKeepLists(cs: seq<Cottage>, name: string, key: Key, id: ObjectId)
    ensures Listing(WithKey(cs, name, key), id) == Listing(cs, id) && |WithKey(cs, name, key)| == |cs|
  {
    var cs' := WithKey(cs, name, key);
    var i, j := Listing(cs', id), Listing(cs, id);
    assert forall k :: 0 <= k < |cs| ==> cs'[k].bookings == cs[k].bookings;
    assert i < |cs| ==> id in cs[i].bookings;
    assert j < |cs| ==> id in cs'[j].bookings;
  }

  lemma DepartureMovesOut(o: Oracles, opening: Scene, history: seq<Scene>, entries: seq<Entry>, u: nat, b: Booking,
                          today: Time, keyNumber: string)
    requires IsRecord(o, opening, history, entries)
    requires u + |MovingOut(b, today, keyNumber)| == |entries| && entries[u..] == MovingOut(b, today, keyNumber)
    ensures MovedOut(history[u].desk, history[|entries|].desk, b, keyNumber)
  {
    var plan := MovingOut(b, today, keyNumber);
    assert forall k :: 0 <= k < |plan| ==> entries[u + k] == entries[u..][k] == plan[k];
    QuietKeepsBooks(o, opening, history, entries, u, u + 4);
    assert FollowsFrom(o, history, entries, u + 4) && FollowsFrom(o, history, entries, u + 5);
    QuietKeepsBooks(o, opening, history, entries, u + 6, u + 7);
    OutWithTheBooking(o, history[u].desk, history[u + 4].desk, history[u + 5].desk, history[u + 6].desk,
                      history[u + 7].desk, b, today, keyNumber);
  }

  lemma OutWithTheBooking(o: Oracles, d: Desk, waiting: Desk, back: Desk, out: Desk, d': Desk, b: Booking, today: Time,
                          keyNumber: string)
    requires SameBooks(d, waiting) && Served(o.rules, waiting, back, ReturnKey(b.cottageName, keyNumber))
    requires Served(o.rules, back, out, Call.CheckOut(b, today)) && SameBooks(out, d')
    ensures MovedOut(d, d', b, keyNumber)
  {
    KeysKeepLists(d.cottages, b.cottageName, Key(keyNumber, HeldByCottage), b.id);
  }

  // ---------- the whole session ----------

  /** After at most one failed check-in, which led to the cottages `found`, the guest moved in, on the day of the
      booking, and out again; the booking is past. */
  ghost predicate MovedInAndOut(d: Desk, d': Desk, found: seq<Cottage>, b: Booking, v: Visit) {
    && Day(b.stayPeriod.checkIn) == Day(v.arrival.today) && b.status == "confirmed"
    && (var i := Named(found, b.cottageName);
        i < |found| && found[i].currentGuest == NIL_ID && found[i].cleaningStatus == FullyCleaned)
    && Stranding(d.cottages, found, d.stranded, d'.stranded)
    && BookingRepo.WithId(d.bookings, b.id) < |d.bookings|
    && Listing(AfterMoveIn(found, b, v.arrival.keyNumber), b.id) < |found|
    && d' == d.(bookings := BookingRepo.WithStatus(d.bookings, b.id, PAST),
                cottages := AfterSession(found, b, v.arrival.keyNumber, v.returned),
                stranded := d'.stranded, orders := d'.orders, calls := d'.calls)
  }

  lemma StayKeepsBooks(o: Oracles, opening: Scene, history: seq<Scene>, entries: seq<Entry>, b: Booking, v: Visit)
    requires IsRecord(o, opening, history, entries) && EndedInTime(b, v.log) && UntilDeparture(b, v) <= entries
    ensures var m, u := |MovingIn(v.arrival)|, |UntilDeparture(b, v)|;
            m <= u < |history| && SameBooks(history[m].desk, history[u].desk)
  {
    var m, days := |MovingIn(v.arrival)|, AllDays(b.cottageName, v.log.waits);
    var stay, all := days + v.log.last + Departure(), UntilDeparture(b, v);
    DaysAreQuiet(b, v.log.waits, |v.log.waits|);
    WaitIsQuiet(v.log.last, b, true, Some(true));
    PlansAreQuiet(b.cottageName);
    assert all == MovingIn(v.arrival) + stay && AllQuiet(stay);
    assert forall k :: m <= k < |all| ==> entries[k] == all[k] == stay[k - m];
    QuietKeepsBooks(o, opening, history, entries, m, |all|);
  }

  lemma BeginsWithArrival(entries: seq<Entry>, b: Booking, v: Visit)
    requires Completed(entries, b, v)
    ensures MovingIn(v.arrival) <= UntilDeparture(b, v) <= entries
  {
    var stay := AllDays(b.cottageName, v.log.waits) + v.log.last + Departure();
    assert UntilDeparture(b, v) == MovingIn(v.arrival) + stay;
  }

  lemma InAndOut(d: Desk, arrived: Desk, leaving: Desk, d': Desk, found: seq<Cottage>, b: Booking, v: Visit)
    requires v.arrival.b == b && MovedIn(d, arrived, found, v.arrival) && SameBooks(arrived, leaving)
    requires MovedOut(leaving, d', b, v.returned)
    ensures MovedInAndOut(d, d', found, b, v)
  {
  }

  /** What a completed session has done to the stores. */
  lemma CompletedMovesInAndOut(o: Oracles, opening: Scene, history: seq<Scene>, entries: seq<Entry>, b: Booking,
                               v: Visit)
    requires IsRecord(o, opening, history, entries) && Completed(entries, b, v)
    ensures AdmittedAt(v.arrival) < |history|
    ensures MovedInAndOut(opening.desk, history[|entries|].desk, history[AdmittedAt(v.arrival)].desk.cottages, b, v)
  {
    var m, u := |MovingIn(v.arrival)|, |UntilDeparture(b, v)|;
    BeginsWithArrival(entries, b, v);
    ArrivalMovesIn(o, opening, history, entries, v.arrival);
    StayKeepsBooks(o, opening, history, entries, b, v);
    DepartureMovesOut(o, opening, history, entries, u, b, v.today, v.returned);
    InAndOut(opening.desk, history[m].desk, history[u].desk, history[|entries|].desk,
             history[AdmittedAt(v.arrival)].desk.cottages, b, v);
  }
}
