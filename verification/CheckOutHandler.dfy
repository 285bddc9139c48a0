/** The check-out conversation. */
module CheckOutHandler {
  import opened Outcomes
  import opened Messages
  import opened FrameAccounting
  import opened Journal
  import opened Itinerary
  import opened Bookings
  import Clock
  import Handlers
  import Reception
  import Times

  /** What comes after the key is back. */
  function Dismissal(b: Booking, today: Times.Time): seq<Entry> {
    Settling(b, today) + [Said(Told(CheckOutComplete))]
  }

  /** The key is back, then the booking checked out and the guest told; or one of these failed; or there is no time. */
  ghost predicate Settled(before: seq<Entry>, after: seq<Entry>, b: Booking, keyNumber: string, reading: Clock.Reading,
                          ok: bool)
  {
    var back := KeyBack(b.cottageName, keyNumber);
    if ok then reading.At? && after == before + back + Dismissal(b, reading.t)
    else
      || BrokeOff(before, after, back)
      || (if reading.At? then BrokeOff(before + back, after, Dismissal(b, reading.t)) else after == before + back)
  }

  class CheckOutHandler {
    const receptionService: Reception.ReceptionService
    /** The connection and the clock, and the record of their use. */
    const journal: Journal

    constructor (receptionService: Reception.ReceptionService, journal: Journal)
      ensures this.receptionService == receptionService && this.journal == journal
    {
      this.receptionService, this.journal := receptionService, journal;
    }

    ghost predicate Valid()
      reads journal, journal.reader, journal.reader.chat, journal.clock, journal.dayChanges
      reads journal.notificationService, journal.receptionService.Parts()
    {
      journal.Valid() && journal.clock != null && journal.receptionService == receptionService
    }

    /** The clock is read, and then the guest is waited for. */
    method Await() returns (r: Result<Unit>, reading: Clock.Reading)
      requires Valid()
      modifies journal, journal.reader, journal.reader.chat, journal.clock
      ensures Valid() && reading != Clock.Unavailable
      ensures Followed(old(journal.entries), journal.entries, [Looked(reading), Said(Heard(ProceedToCheckout))],
                       r.Success?)
    {
      reading := Clock.NoTime;
      var now :- Handlers.ReadClock(journal);
      reading := if now.Some? then Clock.At(now.value) else Clock.NoTime;
      r := Handlers.Hear(journal, ProceedToCheckout);
    }

    method AskForKey() returns (r: Result<string>, ghost keyNumber: string)
      requires Valid()
      modifies journal, journal.reader, journal.reader.chat
      ensures Valid() && (r.Success? ==> r.value == keyNumber)
      ensures Followed(old(journal.entries), journal.entries,
                       [Said(Asked(RequestCottageKey, keyNumber)), Said(Heard(GuestAction.ReturnCottageKey))],
                       r.Success?)
    {
      keyNumber := "";
      r := Handlers.Request(journal, RequestCottageKey);
      if r.Success? {
        keyNumber := r.value;
        var heard := Handlers.Hear(journal, GuestAction.ReturnCottageKey);
        r := if heard.Success? then r else Failure(heard.error);
      }
    }

    /** The clock is read first. The key is asked for and taken back before anything is written to the stores. */
    method TakeKeyBack() returns (r: Result<string>, reading: Clock.Reading, ghost keyNumber: string)
      requires Valid()
      modifies journal, journal.reader, journal.reader.chat, journal.clock
      ensures Valid() && reading != Clock.Unavailable && (r.Success? ==> r.value == keyNumber)
      ensures Followed(old(journal.entries), journal.entries, ReturningKey(reading, keyNumber), r.Success?)
    {
      keyNumber := "";
      var waited;
      waited, reading := Await();
      ghost var heard, ok := journal.entries, waited.Success?;
      if waited.Success? {
        r, keyNumber := AskForKey();
      } else {
        r := Failure(waited.error);
      }
      FollowedOn(old(journal.entries), heard, journal.entries, [Looked(reading), Said(Heard(ProceedToCheckout))],
                 [Said(Asked(RequestCottageKey, keyNumber)), Said(Heard(GuestAction.ReturnCottageKey))], ok,
                 r.Success?);
    }

    method ReturnCottageKey(b: Booking, keyNumber: string) returns (r: Result<Unit>)
      requires Valid()
      modifies journal, receptionService.cottageRepo
      ensures Valid()
      ensures Followed(old(journal.entries), journal.entries, KeyBack(b.cottageName, keyNumber), r.Success?)
    {
      ghost var before := journal.Now();
      r := receptionService.ReturnCottageKey(b.cottageName, keyNumber);
      journal.Note(Handlers.Attempted(Done(Reception.ReturnKey(b.cottageName, keyNumber)), r.Success?), before);
    }

    method CheckOut(b: Booking, today: Times.Time) returns (r: Result<Unit>)
      requires Valid()
      modifies journal, receptionService.bookingRepo, receptionService.cottageRepo, receptionService.cleaningService
      ensures Valid()
      ensures Followed(old(journal.entries), journal.entries, Settling(b, today), r.Success?)
    {
      ghost var before := journal.Now();
      r := receptionService.CheckOut(b, today);
      journal.Note(Handlers.Attempted(Done(Reception.CheckOut(b, today)), r.Success?), before);
    }

    /** The booking is checked out, and the guest told. */
    method Dismiss(b: Booking, today: Times.Time) returns (r: Result<Unit>)
      requires Valid()
      modifies journal, journal.reader, journal.reader.chat
      modifies receptionService.bookingRepo, receptionService.cottageRepo, receptionService.cleaningService
      ensures Valid()
      ensures Followed(old(journal.entries), journal.entries, Dismissal(b, today), r.Success?)
    {
      r := CheckOut(b, today);
      ghost var settled, ok := journal.entries, r.Success?;
      if r.Success? {
        r := Handlers.Tell(journal, CheckOutComplete);
      }
      FollowedOn(old(journal.entries), settled, journal.entries, Settling(b, today),
                 [Said(Told(CheckOutComplete))], ok, r.Success?);
    }

    /** The key goes back and the booking is checked out, in the stores. Without a time there is no check-out. */
    method Settle(b: Booking, keyNumber: string, reading: Clock.Reading) returns (r: Result<Unit>)
      requires Valid()
      modifies journal, journal.reader, journal.reader.chat
      modifies receptionService.bookingRepo, receptionService.cottageRepo, receptionService.cleaningService
      ensures Valid()
      ensures Settled(old(journal.entries), journal.entries, b, keyNumber, reading, r.Success?)
    {
      r := ReturnCottageKey(b, keyNumber);
      if r.Failure? {
        return;
      }
      if !reading.At? {
        return Failure(NilTime);
      }
      r := Dismiss(b, reading.t);
    }

    /** A check-out as planned; or it broke off, or there was no time. */
    method Handle(b: Booking) returns (r: Result<Unit>, ghost today: Times.Time, ghost keyNumber: string)
      requires Valid()
      modifies journal, journal.reader, journal.reader.chat, journal.clock,
               receptionService.bookingRepo, receptionService.cottageRepo, receptionService.cleaningService
      ensures Valid()
      ensures r.Success? ==> journal.entries == old(journal.entries) + MovingOut(b, today, keyNumber)
      ensures r.Failure? ==> MovingOutBrokeOff(old(journal.entries), journal.entries, b, today, keyNumber)
    {
      var reading, key;
      key, reading, keyNumber := TakeKeyBack();
      today := if reading.At? then reading.t else 0;
      ghost var returned := journal.entries;
      if key.Failure? {
        r := Failure(key.error);
      } else {
        r := Settle(b, key.value, reading);
      }
      OutOnTheWay(old(journal.entries), returned, journal.entries, b, reading, keyNumber, key.Success?, r.Success?);
    }
  }

  lemma OutOnTheWay(before: seq<Entry>, returned: seq<Entry>, after: seq<Entry>, b: Booking, reading: Clock.Reading,
                    keyNumber: string, ok1: bool, ok: bool)
    requires reading != Clock.Unavailable && Followed(before, returned, ReturningKey(reading, keyNumber), ok1)
    requires if ok1 then Settled(returned, after, b, keyNumber, reading, ok) else after == returned && !ok
    ensures var today := if reading.At? then reading.t else 0;
            if ok then after == before + MovingOut(b, today, keyNumber)
            else MovingOutBrokeOff(before, after, b, today, keyNumber)
  {
    var p1, p2 := ReturningKey(reading, keyNumber), KeyBack(b.cottageName, keyNumber);
    var p3 := Dismissal(b, if reading.At? then reading.t else 0);
    if !ok1 {
      BrokeOffEarlier(before, after, p1, p2);
      BrokeOffEarlier(before, after, p1 + p2, p3);
    } else if BrokeOff(returned, after, p2) && !ok {
      BrokeOffLater(before, p1, after, p2);
      BrokeOffEarlier(before, after, p1 + p2, p3);
    } else if reading.At? {
      FollowedThrough(before, returned, returned + p2, after, p1, p2, p3, true, true, ok);
    } else {
      assert before + p1 + p2 == before + (p1 + p2);
    }
  }
}
