/** A whole session: check-in, stay and check-out on one connection, and the end state it leaves. */
module Websocket {
  import opened Outcomes
  import opened Bookings
  import opened CottageRepo
  import opened Journal
  import opened Visits
  import opened SessionStores
  import opened Conclusions
  import opened Completion
  import BookingRepo
  import ChatConnection
  import ChatReader
  import ChatWriter
  import CheckInHandler
  import CheckOutHandler
  import CleaningService
  import Clock
  import Conversation
  import FrameAccounting
  import Itinerary
  import Prompts
  import Reception
  import SessionWords
  import StayHandler
  import StayRecord
  import Times
  import Timing

  // ---------- the end state ----------

  /** The booking's cottage is empty, has its key and no longer lists the booking; it is otherwise as before,
      and every other cottage is untouched. */
  ghost predicate Settled(cs: seq<Cottage>, cs': seq<Cottage>, b: Booking, keyNumber: string) {
    && |cs'| == |cs|
    && var i := Named(cs, b.cottageName);
       && i < |cs|
       && cs'[i] == cs[i].(currentGuest := NIL_ID, key := Key(keyNumber, HeldByCottage),
                           bookings := Pull(cs[i].bookings, b.id))
       && forall j :: 0 <= j < |cs| && j != i ==> cs'[j] == cs[j]
  }

  /** Each update of the booking's cottage, standing at `i`, replaces it in place. */
  lemma UpdatesInPlace(cs: seq<Cottage>, i: nat, c: Cottage, b: Booking, guest: ObjectId,
                       key: Key)
    requires i == Named(cs, b.cottageName) < |cs| && c.name == cs[i].name
    ensures WithGuest(cs[i := c], b.cottageName, guest) == cs[i := c.(currentGuest := guest)]
    ensures WithKey(cs[i := c], b.cottageName, key) == cs[i := c.(key := key)]
  {
    NamedInPlace(cs, i, c, b.cottageName);
    UpdatedTwice(cs, i, c, c.(currentGuest := guest));
    UpdatedTwice(cs, i, c, c.(key := key));
  }

  lemma UpdatedTwice(cs: seq<Cottage>, i: nat, c: Cottage, d: Cottage)
    requires i < |cs|
    ensures cs[i := c][i := d] == cs[i := d] && cs[i := c][i] == c
  {
  }

  lemma RemovalInPlace(cs: seq<Cottage>, i: nat, c: Cottage, id: ObjectId)
    requires i == Listing(cs, id) < |cs| && c.bookings == cs[i].bookings
    ensures WithoutBooking(cs[i := c], id) ==
            cs[i := c.(bookings := Pull(c.bookings, id), currentGuest := NIL_ID)]
  {
    ListingInPlace(cs, i, c, id);
    UpdatedTwice(cs, i, c, c.(bookings := Pull(c.bookings, id), currentGuest := NIL_ID));
  }

  lemma NamedInPlace(cs: seq<Cottage>, i: nat, c: Cottage, name: string)
    requires i < |cs| && c.name == cs[i].name
    ensures Named(cs[i := c], name) == Named(cs, name)
  {
    var k, k' := Named(cs, name), Named(cs[i := c], name);
    assert k < |cs| ==> cs[i := c][k].name == name;
    assert k' < |cs| ==> cs[k'].name == name;
  }

  lemma ListingInPlace(cs: seq<Cottage>, i: nat, c: Cottage, id: ObjectId)
    requires i < |cs| && c.bookings == cs[i].bookings
    ensures Listing(cs[i := c], id) == Listing(cs, id)
  {
    var k, k' := Listing(cs, id), Listing(cs[i := c], id);
    assert k < |cs| ==> id in cs[i := c][k].bookings;
    assert k' < |cs| ==> id in cs[k'].bookings;
  }

  lemma MoveInInPlace(cs: seq<Cottage>, i: nat, b: Booking, given: string)
    requires i == Named(cs, b.cottageName) < |cs|
    ensures AfterMoveIn(cs, b, given) ==
            cs[i := cs[i].(currentGuest := b.mainGuest, key := Key(given, HeldByGuest))]
  {
    assert cs[i := cs[i]] == cs;
    UpdatesInPlace(cs, i, cs[i], b, b.mainGuest, cs[i].key);
    UpdatesInPlace(cs, i, cs[i].(currentGuest := b.mainGuest), b, b.mainGuest,
                   Key(given, HeldByGuest));
  }

  lemma SessionSettles(cs: seq<Cottage>, b: Booking, given: string, returned: string)
    requires Named(cs, b.cottageName) < |cs| && ListedOnlyBy(cs, b.id, b.cottageName)
    requires UniqueNames(cs)
    requires Listing(AfterMoveIn(cs, b, given), b.id) < |cs|
    ensures Settled(cs, AfterSession(cs, b, given, returned), b, returned)
  {
    var i := Named(cs, b.cottageName);
    var x2 := cs[i].(currentGuest := b.mainGuest, key := Key(given, HeldByGuest));
    MoveInInPlace(cs, i, b, given);
    ListingInPlace(cs, i, x2, b.id);
    NamedIsUnique(cs, Listing(cs, b.id));
    CheckOutSettles(cs, i, x2, b, returned);
  }

  lemma CheckOutSettles(cs: seq<Cottage>, i: nat, x2: Cottage, b: Booking, returned: string)
    requires i == Named(cs, b.cottageName) == Listing(cs, b.id) < |cs|
    requires x2.name == cs[i].name && x2.bookings == cs[i].bookings
    ensures AfterCheckOut(cs[i := x2], b, returned) ==
            cs[i := x2.(key := Key(returned, HeldByCottage),
                        bookings := Pull(cs[i].bookings, b.id), currentGuest := NIL_ID)]
  {
    var x3 := x2.(key := Key(returned, HeldByCottage));
    var x4 := x3.(bookings := Pull(x3.bookings, b.id), currentGuest := NIL_ID);
    UpdatesInPlace(cs, i, x2, b, NIL_ID, x3.key);
    RemovalInPlace(cs, i, x3, b.id);
    UpdatesInPlace(cs, i, x4, b, NIL_ID, x3.key);
  }

  /** The end state of a completed session, when names are unique, the booking is listed by its own cottage only,
      and no check-in of this session failed after occupying a cottage. */
  lemma CompletedSessionSettles(d: Reception.Desk, d': Reception.Desk, found: seq<Cottage>, b: Booking, v: Visit)
    requires MovedInAndOut(d, d', found, b, v)
    requires UniqueNames(d.cottages) && ListedOnlyBy(d.cottages, b.id, b.cottageName)
    requires d'.stranded == d.stranded
    ensures Settled(d.cottages, d'.cottages, b, v.returned)
    ensures BookingRepo.WithId(d.bookings, b.id) < |d.bookings|
    ensures var i := BookingRepo.WithId(d.bookings, b.id);
            && |d'.bookings| == |d.bookings| && d'.bookings[i] == d.bookings[i].(status := "past")
            && forall j :: 0 <= j < |d.bookings| && j != i ==> d'.bookings[j] == d.bookings[j]
  {
    SessionSettles(d.cottages, b, v.arrival.keyNumber, v.returned);
  }

  // ---------- the session ----------

  class Ws {
    const receptionService: Reception.ReceptionService
    const cleaningService: CleaningService.CleaningService
    const clock: Clock.Clock
    const notificationService: Clock.NotificationService
    const dayChanges: Clock.DayStream

    constructor (receptionService: Reception.ReceptionService, cleaningService: CleaningService.CleaningService,
                 clock: Clock.Clock, notificationService: Clock.NotificationService, dayChanges: Clock.DayStream)
      ensures this.receptionService == receptionService && this.cleaningService == cleaningService
      ensures this.clock == clock && this.notificationService == notificationService
      ensures this.dayChanges == dayChanges
    {
      this.receptionService, this.cleaningService, this.clock := receptionService, cleaningService, clock;
      this.notificationService, this.dayChanges := notificationService, dayChanges;
    }

    /** The reception orders its cleaning from the same service as the stay. */
    predicate Valid() {
      receptionService.Valid() && receptionService.cleaningService == cleaningService
    }

    /** The scene in which a session on this script opens. */
    ghost function Opening(script: seq<ChatConnection.Inbound>): Scene
      reads clock, dayChanges, notificationService, receptionService.Parts()
    {
      Scene(FrameAccounting.Opening(script), clock.readings, dayChanges.wakes, notificationService.hourChanges,
            receptionService.State())
    }

    predicate IsWired(journal: Journal) {
      && journal.clock == clock && journal.dayChanges == dayChanges
      && journal.notificationService == notificationService && journal.receptionService == receptionService
    }

    /** A connection of its own, and the record of the session. */
    method Open(env: ChatConnection.Env, script: seq<ChatConnection.Inbound>) returns (journal: Journal)
      requires Valid()
      ensures fresh(journal) && fresh(journal.reader) && fresh(journal.reader.chat)
      ensures journal.reader.chat.script == script && journal.reader.chat.env == env
      ensures journal.Valid() && journal.entries == [] && journal.opening == old(Opening(script)) && IsWired(journal)
    {
      var chat := new ChatConnection.Chat(env, script);
      var reader := new ChatReader.Reader(chat);
      var writer := new ChatWriter.Writer(chat, reader);
      journal := new Journal(reader, writer, clock, dayChanges, notificationService, receptionService);
    }

    /** The stay and the check-out, for a guest who has moved in. */
    method StayAndLeave(journal: Journal, b: Booking)
      returns (r: Result<Unit>, ghost log: StayRecord.StayLog, ghost today: Times.Time, ghost returned: string)
      requires Valid() && journal.Valid() && IsWired(journal)
      modifies journal, journal.reader, journal.reader.chat, cleaningService, notificationService, dayChanges, clock
      modifies receptionService.bookingRepo, receptionService.cottageRepo
      ensures journal.Valid()
      ensures StayedAndLeft(old(journal.entries), journal.entries, b, log, today, returned, r.Success?)
    {
      today, returned := 0, "";
      var stay := new StayHandler.StayHandler(journal);
      r, log := stay.Handle(b);
      ghost var stayed, ok := journal.entries, r.Success?;
      if r.Success? {
        var checkOut := new CheckOutHandler.CheckOutHandler(receptionService, journal);
        r, today, returned := checkOut.Handle(b);
      }
      StayedThenLeft(old(journal.entries), stayed, journal.entries, b, log, today, returned, ok, r.Success?);
    }

    /** Check-in, stay and check-out, each only after the one before succeeded. `booking` is the one checked in. */
    method Session(journal: Journal) returns (r: Result<Unit>, booking: Option<Booking>, ghost v: Visit)
      requires Valid() && journal.Valid() && IsWired(journal) && journal.entries == []
      modifies journal, journal.reader, journal.reader.chat
      modifies receptionService.guestService.guestRepo`calls, receptionService.bookingRepo,
               receptionService.cache`calls, receptionService.cottageRepo, cleaningService,
               receptionService`stranded, clock, notificationService, dayChanges
      ensures journal.Valid()
      ensures r.Success? ==> booking.Some? && Completed(journal.entries, booking.value, v)
      ensures r.Failure? ==> BrokenOff(journal.entries, booking, v)
    {
      booking := None;
      var checkIn := new CheckInHandler.CheckInHandler(receptionService, journal);
      var checkedIn;
      ghost var arrival;
      checkedIn, arrival := checkIn.Handle();
      v := Visit(arrival, StayRecord.StayLog([], []), 0, "");
      if checkedIn.Failure? {
        r := Failure(checkedIn.error);
        return;
      }
      booking := Some(checkedIn.value);
      assert [] + Itinerary.MovingIn(arrival) == Itinerary.MovingIn(arrival);
      ghost var log, today, returned;
      r, log, today, returned := StayAndLeave(journal, checkedIn.value);
      v := Visit(arrival, log, today, returned);
    }

    /** The whole session, on a connection and a record of its own. Whatever comes, the record leads from the opening to
        the end, the connection's books balance and the conversation is backed by it; and the session went as a session
        goes, on the booking that the reception finds, to its end or to where it broke off. */
    method Handle(env: ChatConnection.Env, script: seq<ChatConnection.Inbound>)
      returns (r: Result<Unit>, booking: Option<Booking>, journal: Journal, ghost v: Visit, ghost found: seq<Cottage>)
      requires Valid()
      modifies receptionService.guestService.guestRepo`calls, receptionService.bookingRepo,
               receptionService.cache`calls, receptionService.cottageRepo, cleaningService,
               receptionService`stranded, clock, notificationService, dayChanges
      ensures fresh(journal) && journal.Valid() && IsWired(journal) && journal.reader.chat.env == env
      ensures journal.opening == old(Opening(script))
      ensures FrameAccounting.Accounted(script, journal.reader.State()) && Conversation.Backed(journal.reader.State())
      ensures Prompts.Prompted(journal.entries)
      ensures booking.Some? ==>
        && Timing.Timely(journal.entries, booking.value)
        && OnTheBookingFound(journal.Laws(), old(Opening(script)), booking.value, v)
      ensures r.Success? ==>
        && booking.Some? && Completed(journal.entries, booking.value, v)
        && Concluded(old(Opening(script)), journal.Now(), found, booking.value, v)
        && cleaningService.accepted
           == old(cleaningService.accepted)
              + SessionWords.SessionOrders(booking.value.cottageName, |v.log.waits|)
      ensures r.Failure? ==>
        && BrokenOff(journal.entries, booking, v)
        && OrdersBegin(old(Opening(script)), journal.Now(), v.arrival.b.cottageName)
      ensures AllIsUp(journal.Laws(), old(Opening(script))) ==>
        (r.Success? <==> Promising(journal.Laws(), old(Opening(script))))
    {
      journal := Open(env, script);
      r, booking, v := Session(journal);
      journal.reader.ValidIsAccounted();
      found := Conclude(journal, r.Success?, booking, v);
    }

    /** What the record means. */
    ghost method Conclude(journal: Journal, ok: bool, booking: Option<Booking>, v: Visit) returns (found: seq<Cottage>)
      requires journal.Valid()
      requires if ok then booking.Some? && Completed(journal.entries, booking.value, v)
               else BrokenOff(journal.entries, booking, v)
      ensures Prompts.Prompted(journal.entries)
      ensures booking.Some? ==>
        && Timing.Timely(journal.entries, booking.value)
        && OnTheBookingFound(journal.Laws(), journal.opening, booking.value, v)
      ensures if ok then Concluded(journal.opening, journal.Now(), found, booking.value, v)
              else OrdersBegin(journal.opening, journal.Now(), v.arrival.b.cottageName)
      ensures AllIsUp(journal.Laws(), journal.opening) ==> (ok <==> Promising(journal.Laws(), journal.opening))
    {
      found := [];
      Prompts.NothingIsUnprompted(journal.entries, booking, v);
      if booking.Some? {
        Timing.NothingIsEarly(journal.entries, booking.value, v);
        SessionIsOnTheBookingFound(journal.Laws(), journal.opening, journal.history, journal.entries, booking.value, v);
      }
      if ok {
        SessionConcludes(journal.Laws(), journal.opening, journal.history, journal.entries, booking.value, v);
        found := journal.history[AdmittedAt(v.arrival)].desk.cottages;
      } else {
        SessionBreaksOff(journal.Laws(), journal.opening, journal.history, journal.entries, booking, v);
      }
      if AllIsUp(journal.Laws(), journal.opening) {
        SessionCompletesExactlyWhenAwaited(journal.Laws(), journal.opening, journal.history, journal.entries, booking,
                                           v);
      }
    }
  }
}
