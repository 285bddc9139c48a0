/** The check-in conversation. */
module CheckInHandler {
  import opened Outcomes
  import opened Messages
  import opened FrameAccounting
  import opened Journal
  import opened Itinerary
  import opened Bookings
  import Clock
  import Handlers
  import Reception
  import Sequences
  import Times

  /** The plan of an arrival that breaks off because no booking is found. */
  function Turned(document: string, today: Times.Time, number: Option<string>): Arrival {
    Arrival(document, if number.None? then Some("") else number, today, Reception.NO_BOOKING, "")
  }

  lemma NotFoundIsBrokenOff(before: seq<Entry>, after: seq<Entry>, document: string, today: Times.Time,
                            number: Option<string>)
    requires after
          == before + ([NotDone(Reception.CheckInByDocument(document, today))] + NotByNumber(document, today, number))
    ensures BrokeOff(before, after, Admission(Turned(document, today, number)))
  {
    var a := Turned(document, today, number);
    var plan := Finding(document, today, a.number, a.b);
    if number.None? {
      assert plan[..1] == [NotDone(Reception.CheckInByDocument(document, today))];
    } else {
      assert plan[..2] == [NotDone(Reception.CheckInByDocument(document, today)),
                           Said(Asked(RequestBookingNumber, number.value))];
    }
    BrokeOffEarlier(before, after, plan, Handover(a.b.cottageName, ""));
  }

  lemma ThenByNumber(before: seq<Entry>, refused: seq<Entry>, after: seq<Entry>, document: string, today: Times.Time,
                     number: Option<string>, r: Result<Booking>)
    requires refused == before + [NotDone(Reception.CheckInByDocument(document, today))]
    requires if r.Success? then number.Some? && after == refused + ByNumber(document, today, number.value, r.value)
             else after == refused + NotByNumber(document, today, number)
    ensures if r.Success? then after == before + Finding(document, today, number, r.value)
            else after == before + ([NotDone(Reception.CheckInByDocument(document, today))]
                                    + NotByNumber(document, today, number))
  {
    Sequences.Regroup(before, [NotDone(Reception.CheckInByDocument(document, today))],
                      if r.Success? then ByNumber(document, today, number.value, r.value)
                      else NotByNumber(document, today, number));
  }

  class CheckInHandler {
    const receptionService: Reception.ReceptionService
    /** The connection, the clock and the reception, and the record of their use. */
    const journal: Journal

    constructor (receptionService: Reception.ReceptionService, journal: Journal)
      ensures this.receptionService == receptionService && this.journal == journal
    {
      this.receptionService, this.journal := receptionService, journal;
    }

    ghost predicate Valid()
      reads journal, journal.reader, journal.reader.chat, journal.clock, journal.dayChanges
      reads journal.notificationService, journal.receptionService.Parts()
    {
      journal.Valid() && journal.clock != null && journal.receptionService == receptionService
    }

    /** The guest shows up, and the clock is read. */
    method Welcome() returns (r: Result<Option<Times.Time>>)
      requires Valid()
      modifies journal, journal.reader, journal.reader.chat, journal.clock
      ensures Valid()
      ensures r.Success? ==>
        var reading := if r.value.Some? then Clock.At(r.value.value) else Clock.NoTime;
        && Clock.NextReading(old(journal.clock.readings)) == reading
        && journal.entries == old(journal.entries) + [Said(Heard(ShowForCheckin)), Looked(reading)]
      ensures r.Failure? ==>
        forall reading ::
          BrokeOff(old(journal.entries), journal.entries, [Said(Heard(ShowForCheckin)), Looked(reading)])
    {
      var _ :- Handlers.Hear(journal, ShowForCheckin);
      r := Handlers.ReadClock(journal);
    }

    method Identify() returns (r: Result<string>, ghost document: string)
      requires Valid()
      modifies journal, journal.reader, journal.reader.chat
      ensures Valid() && (r.Success? ==> r.value == document)
      ensures Followed(old(journal.entries), journal.entries,
                       [Said(Asked(RequestDocument, document)), Said(Told(BookingChecking))], r.Success?)
    {
      document := "";
      r := Handlers.Request(journal, RequestDocument);
      if r.Success? {
        document := r.value;
        var told := Handlers.Tell(journal, BookingChecking);
        if told.Failure? {
          r := Failure(told.error);
        }
      }
    }

    /** Everything up to the document number. Without a time nothing more is done. */
    method Greet() returns (r: Result<(string, Times.Time)>, ghost document: string, ghost today: Times.Time)
      requires Valid()
      modifies journal, journal.reader, journal.reader.chat, journal.clock
      ensures Valid()
      ensures r.Success? ==>
        && r.value == (document, today)
        && Clock.NextReading(old(journal.clock.readings)) == Clock.At(today)
        && journal.entries == old(journal.entries) + Greeting(Clock.At(today), document)
      ensures r.Failure? ==>
        || BrokeOff(old(journal.entries), journal.entries, Greeting(Clock.At(today), document))
        || BrokeOff(old(journal.entries), journal.entries, Greeting(Clock.NoTime, document))
        || journal.entries == old(journal.entries) + Greeting(Clock.NoTime, document)
    {
      document, today := "", 0;
      var now := Welcome();
      ghost var shown := journal.entries;
      if now.Failure? {
        BrokeOffEarlier(old(journal.entries), shown, [Said(Heard(ShowForCheckin)), Looked(Clock.At(today))],
                        [Said(Asked(RequestDocument, document)), Said(Told(BookingChecking))]);
        return Failure(now.error), document, today;
      }
      today := if now.value.Some? then now.value.value else 0;
      var documentId;
      documentId, document := Identify();
      FollowedOn(old(journal.entries), shown, journal.entries,
                 [Said(Heard(ShowForCheckin)), Looked(if now.value.Some? then Clock.At(today) else Clock.NoTime)],
                 [Said(Asked(RequestDocument, document)), Said(Told(BookingChecking))], true, documentId.Success?);
      if documentId.Failure? {
        return Failure(documentId.error), document, today;
      }
      r := if now.value.None? then Failure(NilTime) else Success((documentId.value, now.value.value));
    }

    /** The reception is asked to check in the guest of the document, and the answer is noted. */
    method CheckIn(documentId: string, now: Times.Time) returns (r: Result<Booking>)
      requires Valid()
      modifies journal, receptionService.guestService.guestRepo`calls, receptionService.bookingRepo`calls,
               receptionService.cache`calls, receptionService.cottageRepo, receptionService.cleaningService,
               receptionService`stranded
      ensures Valid()
      ensures var call := Reception.CheckInByDocument(documentId, now);
              journal.entries
              == old(journal.entries) + [if r.Success? then Admitted(call, r.value) else NotDone(call)]
    {
      ghost var before := journal.Now();
      r := receptionService.CheckIn(documentId, now);
      journal.Note(if r.Success? then Admitted(Reception.CheckInByDocument(documentId, now), r.value)
                   else NotDone(Reception.CheckInByDocument(documentId, now)), before);
    }

    method CheckinFallback(documentId: string, bookingNumber: string, now: Times.Time) returns (r: Result<Booking>)
      requires Valid()
      modifies journal, receptionService.guestService.guestRepo`calls, receptionService.bookingRepo`calls,
               receptionService.cottageRepo, receptionService.cleaningService, receptionService`stranded
      ensures Valid()
      ensures var call := Reception.CheckInByNumber(documentId, bookingNumber, now);
              journal.entries
              == old(journal.entries) + [if r.Success? then Admitted(call, r.value) else NotDone(call)]
    {
      ghost var before := journal.Now();
      r := receptionService.CheckinFallback(documentId, bookingNumber, now);
      journal.Note(if r.Success? then Admitted(Reception.CheckInByNumber(documentId, bookingNumber, now), r.value)
                   else NotDone(Reception.CheckInByNumber(documentId, bookingNumber, now)), before);
    }

    /** The booking number is asked for and, once it is known, tried. */
    method AskForNumber(documentId: string, now: Times.Time) returns (r: Result<Booking>, ghost number: Option<string>)
      requires Valid()
      modifies journal, journal.reader, journal.reader.chat
      modifies receptionService.guestService.guestRepo`calls, receptionService.bookingRepo`calls,
               receptionService.cottageRepo, receptionService.cleaningService, receptionService`stranded
      ensures Valid()
      ensures r.Success? ==>
        && number.Some?
        && journal.entries == old(journal.entries) + ByNumber(documentId, now, number.value, r.value)
      ensures r.Failure? ==> journal.entries == old(journal.entries) + NotByNumber(documentId, now, number)
    {
      number := None;
      var bookingId := Handlers.Request(journal, RequestBookingNumber);
      if bookingId.Failure? {
        return Failure(bookingId.error), number;
      }
      number := Some(bookingId.value);
      r := CheckinFallback(documentId, bookingId.value, now);
      ghost var call := Reception.CheckInByNumber(documentId, bookingId.value, now);
      Sequences.Regroup(old(journal.entries), [Said(Asked(RequestBookingNumber, bookingId.value))],
                        [if r.Success? then Admitted(call, r.value) else NotDone(call)]);
    }

    /** First with the document alone; when that fails, with the booking number as well. */
    method Find(documentId: string, now: Times.Time) returns (r: Result<Booking>, ghost number: Option<string>)
      requires Valid()
      modifies journal, journal.reader, journal.reader.chat
      modifies receptionService.guestService.guestRepo`calls, receptionService.bookingRepo`calls,
               receptionService.cache`calls, receptionService.cottageRepo, receptionService.cleaningService,
               receptionService`stranded
      ensures Valid()
      ensures r.Success? ==> journal.entries == old(journal.entries) + Finding(documentId, now, number, r.value)
      ensures r.Failure? ==>
        journal.entries == old(journal.entries)
          + ([NotDone(Reception.CheckInByDocument(documentId, now))] + NotByNumber(documentId, now, number))
    {
      number := None;
      r := CheckIn(documentId, now);
      if r.Failure? {
        ghost var refused := journal.entries;
        r, number := AskForNumber(documentId, now);
        ThenByNumber(old(journal.entries), refused, journal.entries, documentId, now, number, r);
      }
    }

    /** The guest hears that the check-in is complete, and names the key. */
    method OfferKey() returns (r: Result<string>, ghost keyNumber: string)
      requires Valid()
      modifies journal, journal.reader, journal.reader.chat
      ensures Valid() && (r.Success? ==> r.value == keyNumber)
      ensures Followed(old(journal.entries), journal.entries,
                       [Said(Told(CheckInComplete)), Said(Asked(SystemRequest.GiveCottageKey, keyNumber))], r.Success?)
    {
      keyNumber := "";
      var _ :- Handlers.Tell(journal, CheckInComplete);
      r := Handlers.Request(journal, SystemRequest.GiveCottageKey);
      keyNumber := if r.Success? then r.value else "";
    }

    /** The key goes with the guest in the store. */
    method ReceiveCottageKey(room: string, keyNumber: string) returns (r: Result<Unit>)
      requires Valid()
      modifies journal, receptionService.cottageRepo
      ensures Valid()
      ensures Followed(old(journal.entries), journal.entries, [Done(Reception.ReceiveKey(room, keyNumber))], r.Success?)
    {
      ghost var before := journal.Now();
      r := receptionService.ReceiveCottageKey(room, keyNumber);
      journal.Note(Handlers.Attempted(Done(Reception.ReceiveKey(room, keyNumber)), r.Success?), before);
    }

    /** The guest takes the key, and then it goes with the guest in the store. */
    method LetTakeKey(room: string, keyNumber: string) returns (r: Result<Unit>)
      requires Valid()
      modifies journal, journal.reader, journal.reader.chat, receptionService.cottageRepo
      ensures Valid()
      ensures Followed(old(journal.entries), journal.entries,
                       [Said(Heard(TakeCottageKey))] + [Done(Reception.ReceiveKey(room, keyNumber))], r.Success?)
    {
      r := Handlers.Hear(journal, TakeCottageKey);
      ghost var heard, ok := journal.entries, r.Success?;
      if r.Success? {
        r := ReceiveCottageKey(room, keyNumber);
      }
      FollowedOn(old(journal.entries), heard, journal.entries, [Said(Heard(TakeCottageKey))],
                 [Done(Reception.ReceiveKey(room, keyNumber))], ok, r.Success?);
    }

    /** After the check-in: the key is handed over and goes with the guest. */
    method GiveCottageKey(b: Booking) returns (r: Result<string>, ghost keyNumber: string)
      requires Valid()
      modifies journal, journal.reader, journal.reader.chat, receptionService.cottageRepo
      ensures Valid() && (r.Success? ==> r.value == keyNumber)
      ensures Followed(old(journal.entries), journal.entries, Handover(b.cottageName, keyNumber), r.Success?)
    {
      r, keyNumber := OfferKey();
      ghost var offered, ok := journal.entries, r.Success?;
      if r.Success? {
        var taken := LetTakeKey(b.cottageName, r.value);
        r := if taken.Success? then r else Failure(taken.error);
      }
      FollowedOn(old(journal.entries), offered, journal.entries,
                 [Said(Told(CheckInComplete)), Said(Asked(SystemRequest.GiveCottageKey, keyNumber))],
                 [Said(Heard(TakeCottageKey))] + [Done(Reception.ReceiveKey(b.cottageName, keyNumber))], ok,
                 r.Success?);
    }

    /** From the document to the key. The booking returned is the one on record. */
    method Admit(documentId: string, now: Times.Time) returns (r: Result<Booking>, ghost arrival: Arrival)
      requires Valid()
      modifies journal, journal.reader, journal.reader.chat
      modifies receptionService.guestService.guestRepo`calls, receptionService.bookingRepo`calls,
               receptionService.cache`calls, receptionService.cottageRepo, receptionService.cleaningService,
               receptionService`stranded
      ensures Valid() && arrival.document == documentId && arrival.today == now
      ensures r.Success? ==> r.value == arrival.b
      ensures Followed(old(journal.entries), journal.entries, Admission(arrival), r.Success?)
    {
      ghost var number, keyNumber;
      r, number := Find(documentId, now);
      if r.Failure? {
        arrival := Turned(documentId, now, number);
        NotFoundIsBrokenOff(old(journal.entries), journal.entries, documentId, now, number);
        return;
      }
      var b := r.value;
      ghost var checkedIn := journal.entries;
      var given;
      given, keyNumber := GiveCottageKey(b);
      arrival := Arrival(documentId, number, now, b, keyNumber);
      FollowedOn(old(journal.entries), checkedIn, journal.entries, Finding(documentId, now, number, b),
                 Handover(b.cottageName, keyNumber), true, given.Success?);
      if given.Failure? {
        r := Failure(given.error);
      }
    }

    /** A check-in as planned, on the booking returned; or it broke off, or there was no time. */
    method Handle() returns (r: Result<Booking>, ghost arrival: Arrival)
      requires Valid()
      modifies journal, journal.reader, journal.reader.chat, journal.clock
      modifies receptionService.guestService.guestRepo`calls, receptionService.bookingRepo`calls,
               receptionService.cache`calls, receptionService.cottageRepo, receptionService.cleaningService,
               receptionService`stranded
      ensures Valid()
      ensures r.Success? ==>
        r.value == arrival.b && journal.entries == old(journal.entries) + MovingIn(arrival)
      ensures r.Failure? ==> MovingInBrokeOff(old(journal.entries), journal.entries, arrival)
    {
      ghost var document, today;
      var greeted;
      greeted, document, today := Greet();
      arrival := Arrival(document, None, today, Reception.NO_BOOKING, "");
      if greeted.Failure? {
        if BrokeOff(old(journal.entries), journal.entries, Greeting(Clock.At(today), document)) {
          BrokeOffEarlier(old(journal.entries), journal.entries, Greeting(Clock.At(today), document),
                          Admission(arrival));
        }
        return Failure(greeted.error), arrival;
      }
      ghost var known := journal.entries;
      r, arrival := Admit(greeted.value.0, greeted.value.1);
      FollowedOn(old(journal.entries), known, journal.entries, Greeting(Clock.At(today), document), Admission(arrival),
                 true, r.Success?);
    }
  }
}
