/** What a whole session has come to, in the scene in which it ends. */
module Conclusions {
  import opened Outcomes
  import opened Bookings
  import opened CottageRepo
  import opened Clock
  import opened Journal
  import opened SessionWords
  import opened Totals
  import opened Visits
  import opened SessionStores
  import Causes
  import Reception
  import Timing

  /** The orders placed, the conversation held, the hour changes used up and the stores as a session with `k` full days
      leaves them. */
  ghost predicate Concluded(opening: Scene, now: Scene, found: seq<Cottage>, b: Booking, v: Visit) {
    var a, k := v.arrival, |v.log.waits|;
    && now.desk.orders == opening.desk.orders + SessionOrders(b.cottageName, k)
    && now.chat.talk == opening.chat.talk + TalkOfSession(a.document, a.number, a.keyNumber, k, v.returned)
    && Serves(opening.hours, now.hours, StayMeals(k))
    && MovedInAndOut(opening.desk, now.desk, found, b, v)
  }

  lemma CompletedIsUnmissed(entries: seq<Entry>, b: Booking, v: Visit)
    requires Completed(entries, b, v)
    ensures AllCame(entries, |entries|)
  {
    Causes.DepartureIsUnmissed(b, v);
    Causes.PlansAreUnmissed(b, v);
  }

  /** Every completed session concludes so. */
  lemma SessionConcludes(o: Oracles, opening: Scene, history: seq<Scene>, entries: seq<Entry>, b: Booking,
                         v: Visit)
    requires IsRecord(o, opening, history, entries) && Completed(entries, b, v)
    ensures AdmittedAt(v.arrival) < |history|
    ensures Concluded(opening, history[|entries|], history[AdmittedAt(v.arrival)].desk.cottages, b, v)
  {
    CompletedMovesInAndOut(o, opening, history, entries, b, v);
    RecordAddsUp(o, opening, history, entries, |entries|);
    CompletedSpells(entries, b, v);
    CompletedIsUnmissed(entries, b, v);
    RecordServes(o, opening, history, entries, |entries|);
  }

  /** In every session with a booking, that booking is the one that the reception finds, as things were at the opening,
      for the document and the number given, on the day that the clock gave. */
  ghost predicate OnTheBookingFound(o: Oracles, opening: Scene, b: Booking, v: Visit) {
    && v.arrival.b == b && NextReading(opening.readings) == At(v.arrival.today)
    && Reception.Found(o.rules, opening.desk, CallOf(v.arrival)) == Success(b)
  }

  lemma SessionIsOnTheBookingFound(o: Oracles, opening: Scene, history: seq<Scene>, entries: seq<Entry>,
                                   b: Booking, v: Visit)
    requires IsRecord(o, opening, history, entries) && IsSession(entries, Some(b), v)
    ensures OnTheBookingFound(o, opening, b, v)
  {
    Timing.CheckedInForTheDay(o, opening, history, entries, b, v);
    Timing.DaysComeFirst(entries, b, v);
    TheBookingIsFound(o, opening, history, entries, v.arrival);
  }

  /** A session that broke off has ordered a beginning of what a session orders. */
  ghost predicate OrdersBegin(opening: Scene, now: Scene, room: string) {
    exists k :: BeginsOrders(opening, now, room, k)
  }

  ghost predicate BeginsOrders(opening: Scene, now: Scene, room: string, k: nat) {
    opening.desk.orders <= now.desk.orders <= opening.desk.orders + SessionOrders(room, k)
  }

  lemma SessionBreaksOff(o: Oracles, opening: Scene, history: seq<Scene>, entries: seq<Entry>,
                         booking: Option<Booking>, v: Visit)
    requires IsRecord(o, opening, history, entries) && BrokenOff(entries, booking, v)
    ensures OrdersBegin(opening, history[|entries|], v.arrival.b.cottageName)
  {
    RecordAddsUp(o, opening, history, entries, |entries|);
    BrokenOffBeginsToSpell(entries, booking, v);
    var room := v.arrival.b.cottageName;
    var k :| TotalOf(entries).orders <= SessionOrders(room, k);
    assert BeginsOrders(opening, history[|entries|], room, k);
  }
}
