/** Guests and their bookings, validated. */
module GuestService {
  import opened Outcomes
  import opened Times
  import opened Bookings
  import opened BookingLookup
  import BookingRepo
  import GuestRepo

  /** All documents validated, or the first failure. */
  function AllToDomain(docs: seq<Booking>): Result<seq<Booking>> {
    if docs == [] then Success([])
    else
      var first := ToDomain(docs[0]);
      if first.Failure? then Failure(first.error)
      else Prepended([first.value], AllToDomain(docs[1..]))
  }

  function Prepended(bookings: seq<Booking>, rest: Result<seq<Booking>>): Result<seq<Booking>> {
    if rest.Failure? then rest else Success(bookings + rest.value)
  }

  lemma PrependOne(bookings: seq<Booking>, b: Booking, rest: Result<seq<Booking>>)
    ensures Prepended(bookings, Prepended([b], rest)) == Prepended(bookings + [b], rest)
    ensures Prepended([], rest) == rest
  {
    if rest.Success? {
      assert bookings + ([b] + rest.value) == bookings + [b] + rest.value;
      assert [] + rest.value == rest.value;
    }
  }

  predicate IsValidGuest(g: GuestRepo.Guest, emailFits: string -> bool) {
    && g.id != NIL_ID && !Blank(g.documentId) && !Blank(g.givenNames) && !Blank(g.surname)
    && emailFits(g.email) && !Blank(g.billingAddress) && g.createdAt.Some?
  }

  /** The first stored guest with the document, if there is one and it validates. */
  function RegisteredIn(guests: seq<GuestRepo.Guest>, emailFits: string -> bool, documentId: string)
    : Option<GuestRepo.Guest>
  {
    var i := GuestRepo.WithDocument(guests, documentId);
    if !Blank(documentId) && i < |guests| && IsValidGuest(guests[i], emailFits) then Some(guests[i]) else None
  }

  /** The position of the first stored guest with the document. */
  ghost predicate IsFirstWith(guests: seq<GuestRepo.Guest>, documentId: string, i: int) {
    && 0 <= i < |guests| && guests[i].documentId == documentId
    && forall j :: 0 <= j < i ==> guests[j].documentId != documentId
  }

  /** Who is registered under a document: the first stored guest with it, and nobody when that guest lacks an id, a name,
      an address or the time of creation, or has an email that is none. */
  lemma RegisteredExactly(guests: seq<GuestRepo.Guest>, emailFits: string -> bool, documentId: string,
                          g: GuestRepo.Guest)
    ensures RegisteredIn(guests, emailFits, documentId) == Some(g) <==>
            && (exists i :: IsFirstWith(guests, documentId, i) && guests[i] == g)
            && g.id != 0 && g.createdAt != None && emailFits(g.email)
            && !Blank(documentId) && !Blank(g.givenNames) && !Blank(g.surname) && !Blank(g.billingAddress)
  {
    var i := GuestRepo.WithDocument(guests, documentId);
    if i < |guests| {
      assert IsFirstWith(guests, documentId, i);
      assert forall j :: IsFirstWith(guests, documentId, j) ==> j == i;
    }
  }

  /** All documents validate, each to its own booking, or one does not. */
  lemma {:induction false} AllToDomainExactly(docs: seq<Booking>)
    ensures AllToDomain(docs).Success? <==> forall doc :: doc in docs ==> IsValid(doc)
    ensures AllToDomain(docs).Success? ==>
              && |AllToDomain(docs).value| == |docs|
              && forall i :: 0 <= i < |docs| ==> ToDomain(docs[i]) == Success(AllToDomain(docs).value[i])
    ensures AllToDomain(docs).Failure? ==> exists doc :: doc in docs && ToDomain(doc) == Failure(AllToDomain(docs).error)
  {
    if docs != [] {
      AllToDomainExactly(docs[1..]);
      assert forall doc :: doc in docs <==> doc == docs[0] || doc in docs[1..];
      assert AllToDomain(docs).Success? <==> IsValid(docs[0]) && AllToDomain(docs[1..]).Success?;
    }
  }

  class GuestService {
    const guestRepo: GuestRepo.Repo
    const bookingRepo: BookingRepo.Repo
    const emailFits: string -> bool

    constructor (guestRepo: GuestRepo.Repo, bookingRepo: BookingRepo.Repo, emailFits: string -> bool)
      ensures this.guestRepo == guestRepo && this.bookingRepo == bookingRepo && this.emailFits == emailFits
    {
      this.guestRepo, this.bookingRepo, this.emailFits := guestRepo, bookingRepo, emailFits;
    }

    function Registered(documentId: string): Option<GuestRepo.Guest>
      reads guestRepo`guests
    {
      RegisteredIn(guestRepo.guests, emailFits, documentId)
    }

    method GetByDocument(documentId: string) returns (r: Result<GuestRepo.Guest>)
      modifies guestRepo`calls
      ensures r.Success? ==> Registered(documentId) == Some(r.value)
      ensures r.Success? ==>
        && r.value in guestRepo.guests && r.value.documentId == documentId
        && r.value.id != NIL_ID && r.value.createdAt.Some? && emailFits(r.value.email)
        && !Blank(r.value.givenNames) && !Blank(r.value.surname) && !Blank(r.value.billingAddress)
      ensures r.Failure? ==>
        Registered(documentId).None? || Fails(guestRepo.down, old(guestRepo.calls), guestRepo.calls)
      ensures guestRepo.calls == old(guestRepo.calls) + if Blank(documentId) then 0 else 1
    {
      var doc :- guestRepo.GetByDocument(documentId);
      return if IsValidGuest(doc, emailFits) then Success(doc) else Failure(Invalid);
    }

    /** One invalid booking fails the whole list. */
    method GetBookings(guestId: ObjectId) returns (r: Result<seq<Booking>>)
      modifies bookingRepo`calls
      ensures r == if guestId == NIL_ID then Failure(Invalid)
                   else if bookingRepo.down(old(bookingRepo.calls)) then Failure(StoreFailed)
                   else AllToDomain(BookingRepo.OfGuest(bookingRepo.bookings, guestId))
    {
      var docs :- bookingRepo.FindByGuestId(guestId);
      if |docs| == 0 {
        return Success([]);
      }
      var bookings: seq<Booking> := [];
      PrependOne([], docs[0], AllToDomain(docs));
      assert docs[0..] == docs;
      for i := 0 to |docs|
        invariant AllToDomain(docs) == Prepended(bookings, AllToDomain(docs[i..]))
      {
        assert docs[i..][1..] == docs[i + 1..];
        var booking :- ToDomain(docs[i]);
        PrependOne(bookings, booking, AllToDomain(docs[i + 1..]));
        bookings := bookings + [booking];
      }
      assert docs[|docs|..] == [] && bookings + [] == bookings;
      return Success(bookings);
    }

    /** The position of the first booking of the day, or -1. */
    method IndexByDate(allBookings: seq<Booking>, date: Time) returns (bookingIdx: int)
      ensures var i := FirstStarting(allBookings, Day(date));
              bookingIdx == if i < |allBookings| then i else -1
    {
      var todayStart := StartOfDay(date);
      for i := 0 to |allBookings|
        invariant forall j :: 0 <= j < i ==> Day(allBookings[j].stayPeriod.checkIn) != Day(date)
      {
        SameDayIff(allBookings[i].stayPeriod.checkIn, date);
        if StartOfDay(allBookings[i].stayPeriod.checkIn) == todayStart {
          return i;
        }
      }
      return -1;
    }

    /** The direct look-up. The guest is looked up anew, and found again while the guest store rests. */
    method GetBookingByDate(document: string, date: Time) returns (r: Result<Booking>)
      modifies guestRepo`calls, bookingRepo`calls
      ensures old(guestRepo.calls) <= guestRepo.calls <= old(guestRepo.calls) + 1
      ensures old(bookingRepo.calls) <= bookingRepo.calls <= old(bookingRepo.calls) + 1
      ensures r.Success? ==>
        && Registered(document).Some?
        && r == Direct(bookingRepo.bookings, Registered(document).value.id, Day(date))
        && r.value.mainGuest == Registered(document).value.id
      ensures r.Failure? ==>
        || Registered(document).None?
        || Fails(guestRepo.down, old(guestRepo.calls), guestRepo.calls)
        || Fails(bookingRepo.down, old(bookingRepo.calls), bookingRepo.calls)
        || r == Direct(bookingRepo.bookings, Registered(document).value.id, Day(date))
    {
      var guest :- GetByDocument(document);
      var allBookings :- bookingRepo.FindByGuestId(guest.id);
      var bookingIdx := IndexByDate(allBookings, date);
      if bookingIdx == -1 {
        return Failure(NoBookingToday);
      }
      OfGuestIsOfGuest(bookingRepo.bookings, guest.id);
      var selected := allBookings[bookingIdx];
      r := ToDomain(selected);
      if r.Success? {
        ToDomainKeepsDays(selected);
      }
    }
  }

  lemma OfGuestIsOfGuest(docs: seq<Booking>, guest: ObjectId)
    ensures forall b :: b in BookingRepo.OfGuest(docs, guest) ==> b in docs && b.mainGuest == guest
  {
  }
}
