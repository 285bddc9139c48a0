/** What the reception finds and refuses, in terms of what is stored and of nothing else. */
module DeskRules {
  import opened Outcomes
  import opened Times
  import opened Bookings
  import opened CottageRepo
  import opened CheckInCache
  import opened BookingLookup
  import opened Reception
  import BookingRepo
  import GuestRepo

  // ---------- finding ----------

  /** The cache has a list for the day, and its next call succeeds. */
  ghost predicate CanRead(o: Rules, d: Desk, today: Time) {
    CheckInOn(Day(today)) in d.lists && !o.cacheDown(d.calls.cache)
  }

  /** That list has the booking as the guest's first. */
  ghost predicate Lists(o: Rules, d: Desk, today: Time, guest: ObjectId, b: Booking) {
    && CanRead(o, d, today)
    && exists i :: IsFirstOf(d.lists[CheckInOn(Day(today))], guest, i) && d.lists[CheckInOn(Day(today))][i] == b
  }

  ghost predicate ListsNone(o: Rules, d: Desk, today: Time, guest: ObjectId) {
    CanRead(o, d, today) ==> forall c :: c in d.lists[CheckInOn(Day(today))] ==> c.mainGuest != guest
  }

  /** The guest's first document for the day validates to the booking. */
  ghost predicate Holds(docs: seq<Booking>, guest: ObjectId, day: int, b: Booking) {
    exists i :: IsFirstCandidate(docs, guest, day, i) && ToDomain(docs[i]) == Success(b)
  }

  lemma LookedExactly(o: Rules, d: Desk, today: Time, guest: ObjectId, b: Booking)
    ensures Looked(Hit(o, d, today), d.bookings, guest, Day(today)) == Success(b) <==>
            Lists(o, d, today, guest, b) || (ListsNone(o, d, today, guest) && Holds(d.bookings, guest, Day(today), b))
  {
    DirectExactly(d.bookings, guest, Day(today), b);
    if CanRead(o, d, today) {
      var list := d.lists[CheckInOn(Day(today))];
      var k := CachedExactly(list, guest);
      assert forall i :: IsFirstOf(list, guest, i) && IsFirstOf(list, guest, k) ==> i == k;
    }
  }

  /** By document, the reception finds what the day's cached list, if it can be read, has first for the registered guest;
      and when it has nothing for the guest, what the store has first for that day, if that validates. */
  lemma FoundByDocumentExactly(o: Rules, d: Desk, document: string, today: Time, b: Booking)
    ensures FoundByDocument(o, d, document, today) == Success(b) <==>
            exists g :: Registered(o, d, document) == Some(g)
              && (Lists(o, d, today, g.id, b)
                  || (ListsNone(o, d, today, g.id) && Holds(d.bookings, g.id, Day(today), b)))
  {
    if Registered(o, d, document).Some? {
      LookedExactly(o, d, today, Registered(o, d, document).value.id, b);
    }
  }

  /** The position of the first document of that number and guest. */
  ghost predicate IsNumbered(docs: seq<Booking>, id: ObjectId, guest: ObjectId, i: int) {
    && 0 <= i < |docs| && docs[i].id == id && docs[i].mainGuest == guest
    && forall j :: 0 <= j < i ==> !(docs[j].id == id && docs[j].mainGuest == guest)
  }

  /** By number, it finds the registered guest's document of that number, when it starts today and validates. */
  lemma FoundByNumberExactly(o: Rules, d: Desk, document: string, number: string, today: Time, b: Booking)
    ensures FoundByNumber(o, d, document, number, today) == Success(b) <==>
            exists g, i ::
              && Registered(o, d, document) == Some(g) && !Blank(number) && o.parseId(number).Some?
              && IsNumbered(d.bookings, o.parseId(number).value, g.id, i)
              && Day(d.bookings[i].stayPeriod.checkIn) == Day(today) && ToDomain(d.bookings[i]) == Success(b)
  {
    var guest := Registered(o, d, document);
    if guest.Some? && o.parseId(number).Some? {
      var id, g := o.parseId(number).value, guest.value;
      var k := BookingRepo.OwnedBy(d.bookings, id, g.id);
      assert k < |d.bookings| ==> IsNumbered(d.bookings, id, g.id, k);
      assert forall i :: IsNumbered(d.bookings, id, g.id, i) ==> i == k;
    }
  }

  // ---------- refusing ----------

  /** The first cottage of that name. */
  ghost predicate IsRoom(cs: seq<Cottage>, name: string, i: int) {
    0 <= i < |cs| && cs[i].name == name && forall j :: 0 <= j < i ==> cs[j].name != name
  }

  /** A booking is ready when it is confirmed for today and the first cottage of its name stands empty and fully
      cleaned. */
  lemma ReadyExactly(cs: seq<Cottage>, b: Booking, today: Time)
    ensures Ready(cs, b, today) <==>
            && Day(b.stayPeriod.checkIn) == Day(today) && b.status == "confirmed" && !Blank(b.cottageName)
            && exists i :: IsRoom(cs, b.cottageName, i)
                           && cs[i].currentGuest == 0 && cs[i].cleaningStatus == FullyCleaned
  {
    var k := Named(cs, b.cottageName);
    assert k < |cs| ==> IsRoom(cs, b.cottageName, k);
    assert forall i :: IsRoom(cs, b.cottageName, i) ==> i == k;
  }

  /** A check-in has to be refused exactly when no booking is found or the one found is not ready. */
  lemma CheckInRefusedExactly(o: Rules, d: Desk, call: Call)
    requires call.IsCheckIn()
    ensures Refuses(o, d, call) <==>
            forall b :: Found(o, d, call) == Success(b) ==>
              || Day(b.stayPeriod.checkIn) != Day(call.today) || b.status != "confirmed" || Blank(b.cottageName)
              || forall i :: IsRoom(d.cottages, b.cottageName, i) ==>
                   d.cottages[i].currentGuest != 0 || d.cottages[i].cleaningStatus != FullyCleaned
  {
    if Found(o, d, call).Success? {
      ReadyExactly(d.cottages, Found(o, d, call).value, call.today);
    }
  }

  /** A key exactly when it has no number or its cottage is not there. */
  lemma KeyRefusedExactly(o: Rules, d: Desk, call: Call)
    requires call.ReceiveKey? || call.ReturnKey?
    ensures Refuses(o, d, call) <==>
            Blank(call.room) || Blank(call.keyNumber) || forall c :: c in d.cottages ==> c.name != call.room
  {
    assert forall c :: c in d.cottages ==> exists i :: 0 <= i < |d.cottages| && d.cottages[i] == c;
  }

  lemma RemovalKeepsNames(cs: seq<Cottage>, id: ObjectId, name: string)
    ensures Named(WithoutBooking(cs, id), name) < |cs| <==> exists c :: c in cs && c.name == name
    ensures |WithoutBooking(cs, id)| == |cs|
  {
    var cs' := WithoutBooking(cs, id);
    assert forall i :: 0 <= i < |cs| ==> cs'[i].name == cs[i].name;
    var k := Named(cs', name);
    if k < |cs| {
      assert cs[k] in cs && cs[k].name == name;
    }
  }

  /** A check-out exactly when the booking or its listing is not in the stores, or its cottage is not there; the day plays
      no part. */
  lemma CheckOutRefusedExactly(o: Rules, d: Desk, b: Booking, today: Time)
    ensures Refuses(o, d, CheckOut(b, today)) <==>
            || b.id == 0 || Blank(b.cottageName)
            || (forall doc :: doc in d.bookings ==> doc.id != b.id)
            || (forall c :: c in d.cottages ==> b.id !in c.bookings)
            || (forall c :: c in d.cottages ==> c.name != b.cottageName)
  {
    RemovalKeepsNames(d.cottages, b.id, b.cottageName);
    var i, j := BookingRepo.WithId(d.bookings, b.id), Listing(d.cottages, b.id);
    assert i < |d.bookings| ==> d.bookings[i] in d.bookings;
    assert j < |d.cottages| ==> d.cottages[j] in d.cottages;
  }

  // ---------- a past booking ----------

  ghost predicate UniqueIds(docs: seq<Booking>) {
    forall i, j :: 0 <= i < j < |docs| ==> docs[i].id != docs[j].id
  }

  /** The booking comes from a list in the cache, not from the store. */
  ghost predicate FromTheList(o: Rules, d: Desk, call: Call, b: Booking) {
    && call.CheckInByDocument?
    && exists g :: Registered(o, d, call.document) == Some(g) && Lists(o, d, call.today, g.id, b)
  }

  lemma StoredIsPast(docs: seq<Booking>, id: ObjectId, i: int, b: Booking)
    requires UniqueIds(docs) && BookingRepo.WithId(docs, id) < |docs|
    requires var docs' := BookingRepo.WithStatus(docs, id, "past");
             0 <= i < |docs'| && ToDomain(docs'[i]) == Success(b) && b.id == id
    ensures b.status == "past"
  {
    var k := BookingRepo.WithId(docs, id);
    ToDomainKeepsDays(BookingRepo.WithStatus(docs, id, "past")[i]);
    assert i == k;
  }

  /** After its check-out a booking is past: it is not checked in again, by document or by number, unless a list in the
      cache still has it as it was; and then exactly when it would be ready. */
  lemma PastIsRefusedExactlyOutsideTheList(o: Rules, d: Desk, d': Desk, b: Booking, day: Time, again: Call, b': Booking)
    requires Served(o, d, d', CheckOut(b, day)) && UniqueIds(d.bookings)
    requires again.IsCheckIn() && Found(o, d', again) == Success(b') && b'.id == b.id
    ensures !FromTheList(o, d', again, b') ==> b'.status == "past" && Refuses(o, d', again)
    ensures Refuses(o, d', again) <==> !(FromTheList(o, d', again, b') && Ready(d'.cottages, b', again.today))
  {
    var docs' := d'.bookings;
    if !FromTheList(o, d', again, b') {
      if again.CheckInByDocument? {
        FoundByDocumentExactly(o, d', again.document, again.today, b');
        var g :| Registered(o, d', again.document) == Some(g) && Holds(docs', g.id, Day(again.today), b');
        var i :| IsFirstCandidate(docs', g.id, Day(again.today), i) && ToDomain(docs'[i]) == Success(b');
        StoredIsPast(d.bookings, b.id, i, b');
      } else {
        FoundByNumberExactly(o, d', again.document, again.number, again.today, b');
        var g, i :| && Registered(o, d', again.document) == Some(g)
                    && IsNumbered(docs', o.parseId(again.number).value, g.id, i) && ToDomain(docs'[i]) == Success(b');
        StoredIsPast(d.bookings, b.id, i, b');
      }
      ReadyExactly(d'.cottages, b', again.today);
    }
  }
}
