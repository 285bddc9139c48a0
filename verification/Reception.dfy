/** Check-in and check-out at the reception, over the cottage and booking stores. */
module Reception {
  import opened Outcomes
  import opened Times
  import opened Bookings
  import opened CottageRepo
  import opened CleaningService
  import opened CheckInCache
  import opened BookingLookup
  import BookingRepo
  import GuestRepo
  import GuestService

  /** The booking is confirmed for today and its cottage stands empty and fully cleaned. */
  predicate Ready(cs: seq<Cottage>, b: Booking, today: Time) {
    && Day(b.stayPeriod.checkIn) == Day(today)
    && b.status == CONFIRMED
    && !Blank(b.cottageName)
    && Named(cs, b.cottageName) < |cs| && IsAvailable(cs[Named(cs, b.cottageName)])
  }

  predicate IsAvailable(c: Cottage) {
    c.currentGuest == NIL_ID && c.cleaningStatus == FullyCleaned
  }

  /** The booking is confirmed for today; its cottage stood empty and fully cleaned, and has the guest now, and no other
      cottage is touched. */
  ghost predicate OccupiedBy(cs: seq<Cottage>, cs': seq<Cottage>, b: Booking, guest: ObjectId, today: Time) {
    var i := Named(cs, b.cottageName);
    && Day(b.stayPeriod.checkIn) == Day(today) && b.status == "confirmed"
    && i < |cs| && cs[i].currentGuest == NIL_ID && cs[i].cleaningStatus == FullyCleaned
    && cs' == cs[i := cs[i].(currentGuest := guest)]
  }

  /** All that a check-in can do to the cottages. It may fail after it has occupied the cottage. */
  ghost predicate CheckInStep(cs: seq<Cottage>, cs': seq<Cottage>, b: Booking, guest: ObjectId, today: Time, ok: bool) {
    var occupied := WithGuest(cs, b.cottageName, guest);
    if ok then Ready(cs, b, today) && cs' == occupied
    else cs' == cs || (Ready(cs, b, today) && cs' == occupied)
  }

  /** All that a check-out can do to the cottages: its two updates in order, as far as it got. */
  ghost predicate CheckOutStep(cs: seq<Cottage>, cs': seq<Cottage>, b: Booking, ok: bool) {
    var removed := WithoutBooking(cs, b.id);
    var cleared := WithGuest(removed, b.cottageName, NIL_ID);
    if ok then cs' == cleared else cs' == cs || cs' == removed || cs' == cleared
  }

  /** The stores know the booking and its cottage. */
  predicate CanCheckOut(docs: seq<Booking>, cs: seq<Cottage>, b: Booking) {
    BookingRepo.WithId(docs, b.id) < |docs| && Leaves(cs, b)
  }

  /** Some cottage lists the booking, and the cottage that the booking names exists. */
  predicate Leaves(cs: seq<Cottage>, b: Booking) {
    && b.id != NIL_ID && !Blank(b.cottageName)
    && Listing(cs, b.id) < |cs|
    && Named(WithoutBooking(cs, b.id), b.cottageName) < |cs|
  }

  /** There is no such cottage, or no such key. */
  predicate KeyStays(cs: seq<Cottage>, room: string, keyNumber: string) {
    Blank(room) || Blank(keyNumber) || Named(cs, room) == |cs|
  }

  /** A check-in that was on its way for a guest on a day. */
  datatype Attempt = Attempt(b: Booking, guest: ObjectId, today: Time)

  /** A failed check-in changed nothing, or it occupied an available cottage and left an entry. */
  ghost predicate Stranding(cs: seq<Cottage>, cs': seq<Cottage>, stranded: seq<Attempt>, stranded': seq<Attempt>) {
    if stranded' == stranded then cs' == cs
    else
      && |stranded'| == |stranded| + 1 && stranded == stranded'[..|stranded|]
      && var a := stranded'[|stranded|];
         Ready(cs, a.b, a.today) && cs' == WithGuest(cs, a.b.cottageName, a.guest)
  }

  // ---------- the desk ----------

  /** What the reception is asked to do. */
  datatype Call =
    | CheckInByDocument(document: string, today: Time)
    | CheckInByNumber(document: string, number: string, today: Time)
    | ReceiveKey(room: string, keyNumber: string)
    | ReturnKey(room: string, keyNumber: string)
    | CheckOut(b: Booking, today: Time)
  {
    predicate IsCheckIn() {
      CheckInByDocument? || CheckInByNumber?
    }
  }

  /** How often each store, the cache and the publisher were called. */
  datatype Calls = Calls(guests: nat, bookings: nat, cache: nat, cottages: nat, orders: nat)

  /** All that the reception works on, and the check-ins that failed half-way. */
  datatype Desk = Desk(
    guests: seq<GuestRepo.Guest>, bookings: seq<Booking>, lists: map<CacheKey, seq<Booking>>, cottages: seq<Cottage>,
    stranded: seq<Attempt>, orders: seq<CleaningOrder>, calls: Calls)
  {
    /** After one more attempt to have something cleaned. */
    function Tried(): Desk {
      this.(calls := calls.(orders := calls.orders + 1))
    }
  }

  /** What is given: how emails and booking numbers are read, and which calls fail. */
  datatype Rules = Given(
    emailFits: string -> bool, parseId: string -> Option<ObjectId>, guestsDown: nat -> bool, bookingsDown: nat -> bool,
    cacheDown: nat -> bool, cottagesDown: nat -> bool, publishFails: nat -> bool)

  function Registered(o: Rules, d: Desk, document: string): Option<GuestRepo.Guest> {
    GuestService.RegisteredIn(d.guests, o.emailFits, document)
  }

  /** The booking's main guest is registered under the document. */
  predicate IsGuestOf(o: Rules, d: Desk, document: string, b: Booking) {
    Registered(o, d, document).Some? && Registered(o, d, document).value.id == b.mainGuest
  }

  /** What the cache has for the day, if its next call succeeds. */
  function Hit(o: Rules, d: Desk, today: Time): Option<seq<Booking>> {
    var key := CheckInOn(Day(today));
    if key in d.lists && !o.cacheDown(d.calls.cache) then Some(d.lists[key]) else None
  }

  /** The booking that a check-in by document finds, whatever state the cache is in. */
  function FoundByDocument(o: Rules, d: Desk, document: string, today: Time): Result<Booking> {
    var guest := Registered(o, d, document);
    if guest.None? then Failure(NotFound) else Looked(Hit(o, d, today), d.bookings, guest.value.id, Day(today))
  }

  /** The guest's own booking of that number, if it starts today and validates. */
  function FoundByNumber(o: Rules, d: Desk, document: string, number: string, today: Time): Result<Booking> {
    var guest := Registered(o, d, document);
    if guest.None? || Blank(number) || o.parseId(number).None? then Failure(NotFound)
    else
      var i := BookingRepo.OwnedBy(d.bookings, o.parseId(number).value, guest.value.id);
      if i == |d.bookings| then Failure(NotFound)
      else if Day(d.bookings[i].stayPeriod.checkIn) != Day(today) then Failure(CheckInNotToday)
      else ToDomain(d.bookings[i])
  }

  function Found(o: Rules, d: Desk, call: Call): Result<Booking> {
    match call {
      case CheckInByDocument(document, today) => FoundByDocument(o, d, document, today)
      case CheckInByNumber(document, number, today) => FoundByNumber(o, d, document, number, today)
      case _ => Failure(NotFound)
    }
  }

  /** What the reception must refuse, as things are on the desk. */
  predicate Refuses(o: Rules, d: Desk, call: Call) {
    match call {
      case CheckInByDocument(_, today) => !IsReady(d.cottages, Found(o, d, call), today)
      case CheckInByNumber(_, _, today) => !IsReady(d.cottages, Found(o, d, call), today)
      case ReceiveKey(room, keyNumber) => KeyStays(d.cottages, room, keyNumber)
      case ReturnKey(room, keyNumber) => KeyStays(d.cottages, room, keyNumber)
      case CheckOut(b, _) => !CanCheckOut(d.bookings, d.cottages, b)
    }
  }

  predicate IsReady(cs: seq<Cottage>, found: Result<Booking>, today: Time) {
    found.Success? && Ready(cs, found.value, today)
  }

  /** A call to a store or to the publisher did not get through. A miss of the cache is no failure. */
  ghost predicate Missed(o: Rules, c: Calls, c': Calls) {
    || Fails(o.guestsDown, c.guests, c'.guests) || Fails(o.bookingsDown, c.bookings, c'.bookings)
    || Fails(o.cottagesDown, c.cottages, c'.cottages) || Fails(o.publishFails, c.orders, c'.orders)
  }

  /** No answer makes more than two calls to a store, or one to the publisher. */
  predicate CallsGrow(c: Calls, c': Calls) {
    && c.guests <= c'.guests <= c.guests + 2 && c.bookings <= c'.bookings <= c.bookings + 1
    && c.cache <= c'.cache <= c.cache + 1
    && c.cottages <= c'.cottages <= c.cottages + 2 && c.orders <= c'.orders <= c.orders + 1
  }

  /** The booking found was ready; its main guest occupies the cottage, which is ordered to be prepared. */
  ghost predicate CheckedIn(o: Rules, d: Desk, d': Desk, call: Call, b: Booking) {
    && call.IsCheckIn() && Found(o, d, call) == Success(b)
    && b.mainGuest != NIL_ID && Ready(d.cottages, b, call.today)
    && d' == d.(cottages := WithGuest(d.cottages, b.cottageName, b.mainGuest),
                orders := d.orders + [CleaningOrder(b.cottageName, PrepareForGuest)], calls := d'.calls)
    && CallsGrow(d.calls, d'.calls)
  }

  /** A key or a check-out was dealt with. */
  ghost predicate Served(o: Rules, d: Desk, d': Desk, call: Call) {
    && !call.IsCheckIn() && !Refuses(o, d, call) && CallsGrow(d.calls, d'.calls)
    && match call {
         case ReceiveKey(room, keyNumber) =>
           d' == d.(cottages := WithKey(d.cottages, room, Key(keyNumber, HeldByGuest)), calls := d'.calls)
         case ReturnKey(room, keyNumber) =>
           d' == d.(cottages := WithKey(d.cottages, room, Key(keyNumber, HeldByCottage)), calls := d'.calls)
         case CheckOut(b, _) =>
           d' == d.(bookings := BookingRepo.WithStatus(d.bookings, b.id, PAST),
                    cottages := WithGuest(WithoutBooking(d.cottages, b.id), b.cottageName, NIL_ID),
                    orders := d.orders + [CleaningOrder(b.cottageName, FullCleaning)], calls := d'.calls)
         case _ => false
       }
  }

  /** The call was refused, or one of the calls that it takes did not get through. Nothing was ordered; a check-out
      may have been stopped half-way, and a check-in, when a call did not get through, may have occupied a cottage, on
      record. */
  ghost predicate NotServed(o: Rules, d: Desk, d': Desk, call: Call) {
    && (Refuses(o, d, call) || Missed(o, d.calls, d'.calls)) && CallsGrow(d.calls, d'.calls)
    && match call {
         case ReceiveKey(_, _) => d' == d.(calls := d'.calls)
         case ReturnKey(_, _) => d' == d.(calls := d'.calls)
         case CheckOut(b, _) =>
           && CheckOutStep(d.cottages, d'.cottages, b, false)
           && (d'.bookings == BookingRepo.WithStatus(d.bookings, b.id, PAST)
               || (d'.bookings == d.bookings && d'.cottages == d.cottages))
           && d' == d.(bookings := d'.bookings, cottages := d'.cottages, calls := d'.calls)
         case _ =>
           && Stranding(d.cottages, d'.cottages, d.stranded, d'.stranded)
           && (d'.stranded != d.stranded ==> Missed(o, d.calls, d'.calls))
           && d' == d.(cottages := d'.cottages, stranded := d'.stranded, calls := d'.calls)
       }
  }

  ghost predicate Answered(o: Rules, d: Desk, d': Desk, call: Call, ok: bool) {
    if ok then Served(o, d, d', call) else NotServed(o, d, d', call)
  }

  /** The guest and the booking were found, with no more than calls; or there is no such booking, or a call did not get
      through. */
  ghost predicate LookedUp(o: Rules, d: Desk, d': Desk, call: Call, guest: GuestRepo.Guest, r: Result<Booking>) {
    && call.IsCheckIn()
    && d' == d.(calls := d'.calls) && CallsGrow(d.calls, d'.calls)
    && d'.calls.cottages == d.calls.cottages && d'.calls.orders == d.calls.orders
    && if r.Success? then r == Found(o, d, call) && Registered(o, d, call.document) == Some(guest)
       else Found(o, d, call).Failure? || Missed(o, d.calls, d'.calls)
  }

  /** The cottage of a booking that is ready was occupied and ordered to be prepared; or the booking is not ready, or a
      call did not get through. */
  ghost predicate Processed(o: Rules, d: Desk, d': Desk, b: Booking, guest: ObjectId, today: Time, ok: bool) {
    && CallsGrow(d.calls, d'.calls)
    && d'.calls == d.calls.(cottages := d'.calls.cottages, orders := d'.calls.orders)
    && if ok then
         && Ready(d.cottages, b, today)
         && d' == d.(cottages := WithGuest(d.cottages, b.cottageName, guest),
                     orders := d.orders + [CleaningOrder(b.cottageName, PrepareForGuest)], calls := d'.calls)
       else
         && (!Ready(d.cottages, b, today) || Missed(o, d.calls, d'.calls))
         && Stranding(d.cottages, d'.cottages, d.stranded, d'.stranded)
         && (d'.stranded != d.stranded ==> Missed(o, d.calls, d'.calls))
         && d' == d.(cottages := d'.cottages, stranded := d'.stranded, calls := d'.calls)
  }

  lemma LookedFirst(o: Rules, d: Desk, looked: Desk, d': Desk, b: Booking, guest: ObjectId, today: Time, ok: bool)
    requires looked == d.(calls := d.calls.(cottages := d.calls.cottages + 1))
    requires Processed(o, looked, d', b, guest, today, ok) && d'.calls.cottages <= looked.calls.cottages + 1
    ensures Processed(o, d, d', b, guest, today, ok)
  {
  }

  /** A booking is found, with no more than calls, and then processed. */
  lemma ProcessedIsAnswered(o: Rules, d: Desk, known: Desk, d': Desk, call: Call, b: Booking,
                            guest: GuestRepo.Guest, ok: bool)
    requires LookedUp(o, d, known, call, guest, Success(b)) && Processed(o, known, d', b, guest.id, call.today, ok)
    ensures if ok then CheckedIn(o, d, d', call, b) else NotServed(o, d, d', call)
  {
    FoundIsTheGuests(o, d, call);
  }

  /** Only a booking of the guest registered under the document is ever found. */
  lemma FoundIsTheGuests(o: Rules, d: Desk, call: Call)
    requires call.IsCheckIn() && Found(o, d, call).Success?
    ensures IsGuestOf(o, d, call.document, Found(o, d, call).value)
  {
    var guest := Registered(o, d, call.document).value;
    if call.CheckInByDocument? {
      if Hit(o, d, call.today).Some? {
        CachedIsTheGuests(Hit(o, d, call.today).value, guest.id);
      }
      DirectIsTheGuests(d.bookings, guest.id, Day(call.today));
    }
  }

  /** While the cached lists are what the booking store would give, what is found is a stored booking of that guest for
      that day. */
  lemma FoundIsStored(o: Rules, d: Desk, call: Call)
    requires call.IsCheckIn() && Found(o, d, call).Success? && Current(d.lists, d.bookings)
    ensures Registered(o, d, call.document).Some?
    ensures IsStoredAs(d.bookings, Registered(o, d, call.document).value.id, Day(call.today), Found(o, d, call).value)
  {
    if call.CheckInByDocument? {
      LookedIsStored(Hit(o, d, call.today), d.bookings, Registered(o, d, call.document).value.id, Day(call.today));
    }
  }

  lemma DirectIsTheGuests(docs: seq<Booking>, guest: ObjectId, day: int)
    ensures Direct(docs, guest, day).Success? ==> Direct(docs, guest, day).value.mainGuest == guest
  {
    GuestService.OfGuestIsOfGuest(docs, guest);
  }

  const NO_BOOKING := Booking(NIL_ID, NIL_ID, 0, Period(0, 0), "", "")

  class ReceptionService {
    const guestService: GuestService.GuestService
    const cleaningService: CleaningService
    const cottageRepo: Repo
    const bookingRepo: BookingRepo.Repo
    const cache: Cache
    /** The check-ins that failed after they had occupied the cottage. */
    ghost var stranded: seq<Attempt>

    constructor (guestService: GuestService.GuestService, cleaningService: CleaningService,
                 cottageRepo: Repo, bookingRepo: BookingRepo.Repo, cache: Cache)
      ensures this.guestService == guestService && this.cleaningService == cleaningService
      ensures this.cottageRepo == cottageRepo && this.bookingRepo == bookingRepo && this.cache == cache
      ensures stranded == []
    {
      this.guestService, this.cleaningService := guestService, cleaningService;
      this.cottageRepo, this.bookingRepo, this.cache := cottageRepo, bookingRepo, cache;
      stranded := [];
    }

    ghost function Rules(): Rules {
      Given(guestService.emailFits, bookingRepo.parseId, guestService.guestRepo.down, bookingRepo.down, cache.down,
            cottageRepo.down, cleaningService.publishFails)
    }

    ghost function Parts(): set<object> {
      {this, guestService.guestRepo, bookingRepo, cache, cottageRepo, cleaningService}
    }

    ghost function State(): Desk
      reads Parts()
    {
      Desk(guestService.guestRepo.guests, bookingRepo.bookings, cache.entries, cottageRepo.cottages, stranded,
           cleaningService.accepted,
           Calls(guestService.guestRepo.calls, bookingRepo.calls, cache.calls, cottageRepo.calls,
                 cleaningService.attempts))
    }

    /** The guest service looks in the same booking store. */
    predicate Valid() {
      guestService.bookingRepo == bookingRepo
    }

    /** The guest's booking in the day's cached list; any failure of the cache reads as no booking. */
    method GetFromCache(today: Time, guest: GuestRepo.Guest) returns (found: Option<Booking>)
      modifies cache`calls
      ensures var key := CheckInOn(Day(today));
              found == if key in cache.entries && !cache.down(old(cache.calls))
                       then Cached(cache.entries[key], guest.id) else None
      ensures cache.calls == old(cache.calls) + 1
    {
      var list := cache.GetBytes(CheckInOn(Day(today)));
      if list.None? {
        return None;
      }
      var cachedBookings := list.value;
      for i := 0 to |cachedBookings|
        invariant Cached(cachedBookings[i..], guest.id) == Cached(cachedBookings, guest.id)
        invariant cache.calls == old(cache.calls) + 1
      {
        assert cachedBookings[i..][1..] == cachedBookings[i + 1..];
        if cachedBookings[i].mainGuest != guest.id {
          continue;
        }
        return Some(cachedBookings[i]);
      }
      return None;
    }

    /** Occupies the cottage and orders its preparation, if the booking is ready to be checked in. */
    method ProcessCheckIn(b: Booking, guest: GuestRepo.Guest, today: Time) returns (r: Result<Unit>)
      modifies cottageRepo, cleaningService, this`stranded
      ensures Processed(Rules(), old(State()), State(), b, guest.id, today, r.Success?)
      ensures Day(b.stayPeriod.checkIn) != Day(today) ==> r == Failure(CheckInNotToday)
      ensures Day(b.stayPeriod.checkIn) == Day(today) && b.status != "confirmed" ==> r == Failure(NotConfirmed)
      ensures r.Success? ==>
        && OccupiedBy(old(cottageRepo.cottages), cottageRepo.cottages, b, guest.id, today)
        && cleaningService.accepted == old(cleaningService.accepted) + [CleaningOrder(b.cottageName, PrepareForGuest)]
      ensures
        var cs, i := old(cottageRepo.cottages), Named(old(cottageRepo.cottages), b.cottageName);
        i < |cs| && (cs[i].currentGuest != NIL_ID || cs[i].cleaningStatus != FullyCleaned) ==>
          r.Failure? && cottageRepo.cottages == cs
      ensures
        var cs, i := old(cottageRepo.cottages), Named(old(cottageRepo.cottages), b.cottageName);
        Day(b.stayPeriod.checkIn) == Day(today) && b.status == "confirmed" && !Blank(b.cottageName) && i < |cs| ==>
          if cottageRepo.down(old(cottageRepo.calls)) then r == Failure(StoreFailed)
          else if cs[i].currentGuest != NIL_ID || cs[i].cleaningStatus != FullyCleaned
          then r == Failure(CottageNotAvailable)
          else r.Success? <==> !cottageRepo.down(old(cottageRepo.calls) + 1)
                               && !cleaningService.publishFails(old(cleaningService.attempts))
    {
      if Day(b.stayPeriod.checkIn) != Day(today) {
        return Failure(CheckInNotToday);
      }
      if b.status != CONFIRMED {
        return Failure(NotConfirmed);
      }
      var cottage :- cottageRepo.GetByName(b.cottageName);
      if cottage.currentGuest != NIL_ID || cottage.cleaningStatus != FullyCleaned {
        return Failure(CottageNotAvailable);
      }
      ghost var looked := State();
      r := Occupy(b, guest, today);
      LookedFirst(Rules(), old(State()), looked, State(), b, guest.id, today, r.Success?);
    }

    method Occupy(b: Booking, guest: GuestRepo.Guest, today: Time) returns (r: Result<Unit>)
      requires Ready(cottageRepo.cottages, b, today)
      modifies cottageRepo, cleaningService, this`stranded
      ensures Processed(Rules(), old(State()), State(), b, guest.id, today, r.Success?)
      ensures State().calls.cottages <= old(State()).calls.cottages + 1
      ensures r.Success? <==>
        !cottageRepo.down(old(cottageRepo.calls)) && !cleaningService.publishFails(old(cleaningService.attempts))
    {
      var _ :- cottageRepo.UpdateCurrentGuest(b.cottageName, guest.id);
      // The order cannot be malformed: a cottage of that name was just updated.
      var order := NewCleaningOrder(b.cottageName, PrepareForGuest).value;
      r := cleaningService.CleanRoom(order);
      if r.Failure? {
        stranded := stranded + [Attempt(b, guest.id, today)];
      }
    }

    /** Checks in what is found, if it is ready; and then it fails only when a store or the publisher does. */
    method CheckIn(document: string, today: Time) returns (r: Result<Booking>)
      requires Valid()
      modifies guestService.guestRepo`calls, bookingRepo`calls, cache`calls, cottageRepo, cleaningService, this`stranded
      ensures r.Success? ==> CheckedIn(Rules(), old(State()), State(), CheckInByDocument(document, today), r.value)
      ensures r.Failure? ==> NotServed(Rules(), old(State()), State(), CheckInByDocument(document, today))
      ensures r.Success? ==>
        OccupiedBy(old(cottageRepo.cottages), cottageRepo.cottages, r.value, r.value.mainGuest, today)
    {
      var guest, booking;
      guest, booking := LookUp(document, today);
      if booking.Failure? {
        return Failure(booking.error);
      }
      ghost var known := State();
      var processed := ProcessCheckIn(booking.value, guest, today);
      ProcessedIsAnswered(Rules(), old(State()), known, State(), CheckInByDocument(document, today), booking.value,
                          guest, processed.Success?);
      return if processed.Failure? then Failure(processed.error) else booking;
    }

    method LookUp(document: string, today: Time) returns (guest: GuestRepo.Guest, r: Result<Booking>)
      requires Valid()
      modifies guestService.guestRepo`calls, bookingRepo`calls, cache`calls
      ensures LookedUp(Rules(), old(State()), State(), CheckInByDocument(document, today), guest, r)
    {
      guest := GuestRepo.NO_GUEST;
      var found := guestService.GetByDocument(document);
      if found.Failure? {
        return guest, Failure(found.error);
      }
      guest := found.value;
      r := FindBooking(document, guest, today);
    }

    /** The cache first, then the store. */
    method FindBooking(document: string, guest: GuestRepo.Guest, today: Time) returns (r: Result<Booking>)
      requires Valid() && Registered(Rules(), State(), document) == Some(guest)
      modifies guestService.guestRepo`calls, bookingRepo`calls, cache`calls
      ensures r.Success? ==> r == FoundByDocument(Rules(), old(State()), document, today)
      ensures r.Failure? ==>
        || FoundByDocument(Rules(), old(State()), document, today).Failure?
        || Missed(Rules(), old(State()).calls, State().calls)
      ensures CallsGrow(old(State()).calls, State().calls)
      ensures State().calls.guests <= old(State()).calls.guests + 1
    {
      var found := GetFromCache(today, guest);
      if found.Some? {
        return Success(found.value);
      }
      r := guestService.GetBookingByDate(document, today);
    }

    /** Check-in by booking number, when the guest's booking of the day could not be found or checked in. */
    method CheckinFallback(document: string, bookingNumber: string, today: Time) returns (r: Result<Booking>)
      requires Valid()
      modifies guestService.guestRepo`calls, bookingRepo`calls, cottageRepo, cleaningService, this`stranded
      ensures var call := CheckInByNumber(document, bookingNumber, today);
              if r.Success? then CheckedIn(Rules(), old(State()), State(), call, r.value)
              else NotServed(Rules(), old(State()), State(), call)
      ensures r.Success? ==>
        OccupiedBy(old(cottageRepo.cottages), cottageRepo.cottages, r.value, r.value.mainGuest, today)
    {
      var guest, booking;
      guest, booking := LookUpNumber(document, bookingNumber, today);
      if booking.Failure? {
        return Failure(booking.error);
      }
      ghost var known := State();
      var processed := ProcessCheckIn(booking.value, guest, today);
      ProcessedIsAnswered(Rules(), old(State()), known, State(), CheckInByNumber(document, bookingNumber, today),
                          booking.value, guest, processed.Success?);
      return if processed.Failure? then Failure(processed.error) else booking;
    }

    method LookUpNumber(document: string, bookingNumber: string, today: Time)
      returns (guest: GuestRepo.Guest, r: Result<Booking>)
      requires Valid()
      modifies guestService.guestRepo`calls, bookingRepo`calls
      ensures LookedUp(Rules(), old(State()), State(), CheckInByNumber(document, bookingNumber, today), guest, r)
    {
      guest := GuestRepo.NO_GUEST;
      var found := guestService.GetByDocument(document);
      if found.Failure? {
        return guest, Failure(found.error);
      }
      guest := found.value;
      r := FindByNumber(document, guest, bookingNumber, today);
    }

    method FindByNumber(document: string, guest: GuestRepo.Guest, bookingNumber: string, today: Time)
      returns (r: Result<Booking>)
      requires Registered(Rules(), State(), document) == Some(guest)
      modifies bookingRepo`calls
      ensures r.Success? ==> r == FoundByNumber(Rules(), old(State()), document, bookingNumber, today)
      ensures r.Failure? ==>
        || FoundByNumber(Rules(), old(State()), document, bookingNumber, today).Failure?
        || Missed(Rules(), old(State()).calls, State().calls)
      ensures CallsGrow(old(State()).calls, State().calls)
    {
      var doc :- bookingRepo.FindByGuestIdAndBookingNumber(guest.id, bookingNumber);
      if doc == NO_BOOKING {
        return Failure(NoBookingToday);
      }
      SameDayIff(doc.stayPeriod.checkIn, today);
      if StartOfDay(doc.stayPeriod.checkIn) != StartOfDay(today) {
        return Failure(CheckInNotToday);
      }
      r := ToDomain(doc);
      if r.Success? {
        ToDomainKeepsDays(doc);
      }
    }

    /** The booking leaves its cottage's list, and then the cottage is emptied. */
    method EmptyCottage(b: Booking) returns (r: Result<Unit>)
      modifies cottageRepo
      ensures CheckOutStep(old(cottageRepo.cottages), cottageRepo.cottages, b, r.Success?)
      ensures r.Success? ==> Leaves(old(cottageRepo.cottages), b)
      ensures r.Failure? ==>
        || Fails(cottageRepo.down, old(cottageRepo.calls), cottageRepo.calls)
        || !Leaves(old(cottageRepo.cottages), b)
      ensures old(cottageRepo.calls) <= cottageRepo.calls <= old(cottageRepo.calls) + 2
    {
      var _ :- cottageRepo.RemovePastBooking(b.id);
      r := cottageRepo.UpdateCurrentGuest(b.cottageName, NIL_ID);
    }

    /** The three store updates of a check-out. */
    method Vacate(b: Booking) returns (r: Result<Unit>)
      modifies bookingRepo, cottageRepo
      ensures CheckOutStep(old(cottageRepo.cottages), cottageRepo.cottages, b, r.Success?)
      ensures r.Success? ==> CanCheckOut(old(bookingRepo.bookings), old(cottageRepo.cottages), b)
      ensures r.Failure? ==>
        || Fails(bookingRepo.down, old(bookingRepo.calls), bookingRepo.calls)
        || Fails(cottageRepo.down, old(cottageRepo.calls), cottageRepo.calls)
        || !CanCheckOut(old(bookingRepo.bookings), old(cottageRepo.cottages), b)
      ensures bookingRepo.bookings == BookingRepo.WithStatus(old(bookingRepo.bookings), b.id, PAST)
        || (r.Failure? && bookingRepo.bookings == old(bookingRepo.bookings)
            && cottageRepo.cottages == old(cottageRepo.cottages))
      ensures old(bookingRepo.calls) <= bookingRepo.calls <= old(bookingRepo.calls) + 1
      ensures old(cottageRepo.calls) <= cottageRepo.calls <= old(cottageRepo.calls) + 2
    {
      assert 'p' in PAST && !IsSpace('p');
      var _ :- bookingRepo.UpdateStatus(b.id, PAST);
      r := EmptyCottage(b);
    }

    /** The booking becomes past, leaves its cottage's list, the cottage is emptied and fully cleaned, in that
        order. The day is not checked. A failing step leaves the steps before it done. */
    method CheckOut(b: Booking, today: Time) returns (r: Result<Unit>)
      modifies bookingRepo, cottageRepo, cleaningService
      ensures Answered(Rules(), old(State()), State(), Call.CheckOut(b, today), r.Success?)
      ensures r.Success? ==>
        && (var docs, i := old(bookingRepo.bookings), BookingRepo.WithId(old(bookingRepo.bookings), b.id);
            i < |docs| && bookingRepo.bookings == docs[i := docs[i].(status := "past")])
        && (var cs, i := cottageRepo.cottages, Named(cottageRepo.cottages, b.cottageName);
            i < |cs| && cs[i].currentGuest == NIL_ID)
        && cleaningService.accepted == old(cleaningService.accepted) + [CleaningOrder(b.cottageName, FullCleaning)]
    {
      var _ :- Vacate(b);
      GuestIsIn(WithoutBooking(old(cottageRepo.cottages), b.id), b.cottageName, NIL_ID);
      var order := NewCleaningOrder(b.cottageName, FullCleaning).value;
      r := cleaningService.CleanRoom(order);
    }

    method ReceiveCottageKey(cottageName: string, keyNumber: string) returns (r: Result<Unit>)
      modifies cottageRepo
      ensures Answered(Rules(), old(State()), State(), ReceiveKey(cottageName, keyNumber), r.Success?)
      ensures r.Success? ==>
        var cs, i := old(cottageRepo.cottages), Named(old(cottageRepo.cottages), cottageName);
        i < |cs| && cottageRepo.cottages == cs[i := cs[i].(key := Key(keyNumber, HeldByGuest))]
    {
      r := cottageRepo.UpdateKeyHolder(cottageName, keyNumber, HeldByGuest);
    }

    method ReturnCottageKey(cottageName: string, keyNumber: string) returns (r: Result<Unit>)
      modifies cottageRepo
      ensures Answered(Rules(), old(State()), State(), ReturnKey(cottageName, keyNumber), r.Success?)
      ensures r.Success? ==>
        var cs, i := old(cottageRepo.cottages), Named(old(cottageRepo.cottages), cottageName);
        i < |cs| && cottageRepo.cottages == cs[i := cs[i].(key := Key(keyNumber, HeldByCottage))]
    {
      r := cottageRepo.UpdateKeyHolder(cottageName, keyNumber, HeldByCottage);
    }
  }

  lemma {:induction false} CachedIsTheGuests(list: seq<Booking>, guest: ObjectId)
    ensures Cached(list, guest).Some? ==>
              Cached(list, guest).value in list && Cached(list, guest).value.mainGuest == guest
  {
    if list != [] {
      CachedIsTheGuests(list[1..], guest);
    }
  }
}
