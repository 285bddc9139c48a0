/** The booking collection, its three look-ups and its status update. */
module BookingRepo {
  import opened Outcomes
  import opened Times
  import opened Sequences
  import opened Bookings

  /** The documents of one guest, in collection order. */
  function OfGuest(docs: seq<Booking>, guest: ObjectId): seq<Booking> {
    if docs == [] then []
    else if docs[0].mainGuest == guest then [docs[0]] + OfGuest(docs[1..], guest)
    else OfGuest(docs[1..], guest)
  }

  lemma {:induction false} OfGuestOfBoth(docs: seq<Booking>, more: seq<Booking>, guest: ObjectId)
    ensures OfGuest(docs + more, guest) == OfGuest(docs, guest) + OfGuest(more, guest)
  {
    if docs == [] {
      assert docs + more == more;
    } else {
      OfGuestOfBoth(docs[1..], more, guest);
      assert (docs + more)[1..] == docs[1..] + more;
    }
  }

  /** Each document of the collection is among the guest's, in its place, when it is the guest's. */
  lemma OfGuestExactly(before: seq<Booking>, doc: Booking, after: seq<Booking>, guest: ObjectId)
    ensures OfGuest(before + [doc] + after, guest)
         == OfGuest(before, guest) + (if doc.mainGuest == guest then [doc] else []) + OfGuest(after, guest)
    ensures OfGuest([], guest) == []
  {
    OfGuestOfBoth(before + [doc], after, guest);
    OfGuestOfBoth(before, [doc], guest);
    assert [doc][1..] == [];
  }

  /** The documents whose check-in lies in the half-open window, in collection order. */
  function InWindow(docs: seq<Booking>, from: Time, to: Time): seq<Booking> {
    if docs == [] then []
    else if from <= docs[0].stayPeriod.checkIn < to then [docs[0]] + InWindow(docs[1..], from, to)
    else InWindow(docs[1..], from, to)
  }

  /** The position of the first document with that id, or the length when there is none. */
  function WithId(docs: seq<Booking>, id: ObjectId): (i: nat)
    ensures i <= |docs|
    ensures i < |docs| ==> docs[i].id == id
    ensures forall j :: 0 <= j < i ==> docs[j].id != id
  {
    First(docs, (b: Booking) => b.id == id)
  }

  /** The position of the first document with that id and main guest, or the length. */
  function OwnedBy(docs: seq<Booking>, id: ObjectId, guest: ObjectId): (i: nat)
    ensures i <= |docs|
    ensures i < |docs| ==> docs[i].id == id && docs[i].mainGuest == guest
    ensures forall j :: 0 <= j < i ==> !(docs[j].id == id && docs[j].mainGuest == guest)
  {
    First(docs, (b: Booking) => b.id == id && b.mainGuest == guest)
  }

  function WithStatus(docs: seq<Booking>, id: ObjectId, status: string): seq<Booking> {
    var i := WithId(docs, id);
    if i < |docs| then docs[i := docs[i].(status := status)] else docs
  }

  class Repo {
    const down: nat -> bool
    /** Reading a booking number as an object id; not every string is one. */
    const parseId: string -> Option<ObjectId>
    var calls: nat
    var bookings: seq<Booking>

    constructor (down: nat -> bool, parseId: string -> Option<ObjectId>, bookings: seq<Booking>)
      ensures this.down == down && this.parseId == parseId && calls == 0 && this.bookings == bookings
    {
      this.down, this.parseId, this.calls, this.bookings := down, parseId, 0, bookings;
    }

    method FindByGuestId(guest: ObjectId) returns (r: Result<seq<Booking>>)
      modifies this`calls
      ensures calls == old(calls) + if guest == NIL_ID then 0 else 1
      ensures r == if guest == NIL_ID then Failure(Invalid)
                   else if down(old(calls)) then Failure(StoreFailed)
                   else Success(OfGuest(bookings, guest))
    {
      if guest == NIL_ID {
        return Failure(Invalid);
      }
      calls := calls + 1;
      return if down(calls - 1) then Failure(StoreFailed) else Success(OfGuest(bookings, guest));
    }

    method FindByCheckInDate(date: Time) returns (r: Result<seq<Booking>>)
      modifies this`calls
      ensures calls == old(calls) + if date == 0 then 0 else 1
      ensures r == if date == 0 then Failure(Invalid)
                   else if down(old(calls)) then Failure(StoreFailed)
                   else Success(InWindow(bookings, StartOfDay(date), StartOfDay(date) + DAY))
    {
      if date == 0 {
        return Failure(Invalid);
      }
      var startOfDay := StartOfDay(date);
      var nextDay := startOfDay + 24 * HOUR;
      calls := calls + 1;
      return if down(calls - 1) then Failure(StoreFailed) else Success(InWindow(bookings, startOfDay, nextDay));
    }

    method FindByGuestIdAndBookingNumber(guest: ObjectId, number: string) returns (r: Result<Booking>)
      modifies this`calls
      ensures var ok := guest != NIL_ID && !Blank(number) && parseId(number).Some?;
              && calls == old(calls) + (if ok then 1 else 0)
              && r == if !ok then Failure(Invalid)
                      else if down(old(calls)) then Failure(StoreFailed)
                      else
                        var i := OwnedBy(bookings, parseId(number).value, guest);
                        if i < |bookings| then Success(bookings[i]) else Failure(NotFound)
    {
      if guest == NIL_ID || Blank(number) || parseId(number).None? {
        return Failure(Invalid);
      }
      calls := calls + 1;
      if down(calls - 1) {
        return Failure(StoreFailed);
      }
      var i := OwnedBy(bookings, parseId(number).value, guest);
      return if i < |bookings| then Success(bookings[i]) else Failure(NotFound);
    }

    method UpdateStatus(id: ObjectId, status: string) returns (r: Result<Unit>)
      modifies this`calls, this`bookings
      ensures calls == old(calls) + if id == NIL_ID || Blank(status) then 0 else 1
      ensures r == if id == NIL_ID || Blank(status) then Failure(Invalid)
                   else if down(old(calls)) then Failure(StoreFailed)
                   else if WithId(old(bookings), id) == |old(bookings)| then Failure(NotFound)
                   else Success(Unit)
      ensures bookings == if r.Success? then WithStatus(old(bookings), id, status) else old(bookings)
      ensures r.Success? ==>
        var i := WithId(old(bookings), id);
        && i < |old(bookings)| == |bookings|
        && bookings[i] == old(bookings)[i].(status := status)
        && forall j :: 0 <= j < |bookings| && j != i ==> bookings[j] == old(bookings)[j]
    {
      if id == NIL_ID || Blank(status) {
        return Failure(Invalid);
      }
      calls := calls + 1;
      if down(calls - 1) {
        return Failure(StoreFailed);
      }
      var i := WithId(bookings, id);
      if i == |bookings| {
        return Failure(NotFound);
      }
      bookings := bookings[i := bookings[i].(status := status)];
      return Success(Unit);
    }
  }
}
