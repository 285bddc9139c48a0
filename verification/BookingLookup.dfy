/** Two ways to find a guest's booking for the day, and when they agree. */
module BookingLookup {
  import opened Outcomes
  import opened Times
  import opened Bookings
  import opened BookingRepo
  import opened CheckInCache

  /** The position of the first booking that starts on the day, or the length when there is none. */
  function FirstStarting(docs: seq<Booking>, day: int): (i: nat)
    ensures i <= |docs|
    ensures i < |docs| ==> Day(docs[i].stayPeriod.checkIn) == day
    ensures forall j :: 0 <= j < i ==> Day(docs[j].stayPeriod.checkIn) != day
  {
    if docs == [] || Day(docs[0].stayPeriod.checkIn) == day then 0 else 1 + FirstStarting(docs[1..], day)
  }

  /** Straight from the store: the guest's first booking starting on the day, if it validates. */
  function Direct(docs: seq<Booking>, guest: ObjectId, day: int): Result<Booking> {
    var mine := OfGuest(docs, guest);
    var i := FirstStarting(mine, day);
    if i < |mine| then ToDomain(mine[i]) else Failure(NoBookingToday)
  }

  /** From a day's cached list: the guest's first booking in it. */
  function Cached(list: seq<Booking>, guest: ObjectId): Option<Booking> {
    if list == [] then None
    else if list[0].mainGuest == guest then Some(list[0])
    else Cached(list[1..], guest)
  }

  /** The guest's documents starting on the day, in collection order. */
  function Candidates(docs: seq<Booking>, guest: ObjectId, day: int): seq<Booking> {
    if docs == [] then []
    else if docs[0].mainGuest == guest && Day(docs[0].stayPeriod.checkIn) == day
    then [docs[0]] + Candidates(docs[1..], guest, day)
    else Candidates(docs[1..], guest, day)
  }

  lemma {:induction false} DirectTakesTheFirstCandidate(docs: seq<Booking>, guest: ObjectId, day: int)
    ensures var candidates := Candidates(docs, guest, day);
            Direct(docs, guest, day) ==
            if candidates == [] then Failure(NoBookingToday) else ToDomain(candidates[0])
  {
    if docs != [] {
      DirectTakesTheFirstCandidate(docs[1..], guest, day);
      var mine := OfGuest(docs, guest);
      if docs[0].mainGuest == guest {
        assert mine[1..] == OfGuest(docs[1..], guest);
      }
    }
  }

  lemma DayWindow(t: Time, day: int)
    ensures day * DAY <= t < day * DAY + DAY <==> Day(t) == day
  {
  }

  lemma {:induction false} CacheHoldsTheFirstValidCandidate(docs: seq<Booking>, guest: ObjectId, day: int)
    ensures var valid := ValidOnes(Candidates(docs, guest, day));
            Cached(ArrivingOn(docs, day), guest) == if valid == [] then None else Some(valid[0])
  {
    if docs != [] {
      var doc := docs[0];
      CacheHoldsTheFirstValidCandidate(docs[1..], guest, day);
      DayWindow(doc.stayPeriod.checkIn, day);
      if Day(doc.stayPeriod.checkIn) == day {
        var window := InWindow(docs, day * DAY, day * DAY + DAY);
        assert window[0] == doc && window[1..] == InWindow(docs[1..], day * DAY, day * DAY + DAY);
        if IsValid(doc) {
          assert ArrivingOn(docs, day)[1..] == ArrivingOn(docs[1..], day);
        }
        if doc.mainGuest == guest {
          assert Candidates(docs, guest, day)[1..] == Candidates(docs[1..], guest, day);
        }
      }
    }
  }

  /** A cached list that matches the store gives the booking the direct look-up finds. The two part ways exactly
      when the guest's first booking of the day does not validate and a later one does. */
  lemma CacheAgreesWithDirectLookup(docs: seq<Booking>, guest: ObjectId, day: int)
    ensures var direct, cached := Direct(docs, guest, day), Cached(ArrivingOn(docs, day), guest);
            direct.Success? ==> cached == Some(direct.value)
    ensures var direct, cached := Direct(docs, guest, day), Cached(ArrivingOn(docs, day), guest);
            var candidates := Candidates(docs, guest, day);
            cached.Some? != direct.Success? <==>
            candidates != [] && !IsValid(candidates[0]) && ValidOnes(candidates) != []
  {
    DirectTakesTheFirstCandidate(docs, guest, day);
    CacheHoldsTheFirstValidCandidate(docs, guest, day);
  }

  lemma NobodysBookingIsInvalid(b: Booking)
    requires b == Booking(11, 1, 2, Period(DAY, 2 * DAY), "Lake", CONFIRMED)
    ensures ToDomain(b) == Success(b) && !IsValid(b.(id := 10, numberOfGuests := 0))
  {
    assert CONFIRMED[0] == 'c' && "Lake"[0] == 'L' && !IsSpace('c') && !IsSpace('L');
  }

  /** The failing input: a booking for zero guests stands before a valid one for the same day. The cached list leads to
      the valid one, the store to no booking at all. */
  lemma CacheCanFindWhatTheStoreDoesNot()
    ensures var good := Booking(11, 1, 2, Period(DAY, 2 * DAY), "Lake", CONFIRMED);
            var docs := [good.(id := 10, numberOfGuests := 0), good];
            Direct(docs, 1, 1).Failure? && Cached(ArrivingOn(docs, 1), 1) == Some(good)
  {
    var good := Booking(11, 1, 2, Period(DAY, 2 * DAY), "Lake", CONFIRMED);
    var docs := [good.(id := 10, numberOfGuests := 0), good];
    NobodysBookingIsInvalid(good);
    assert docs[1..] == [good];
    assert Candidates(docs, 1, 1) == [docs[0]] + Candidates(docs[1..], 1, 1);
    assert ValidOnes(Candidates(docs[1..], 1, 1)) == [good];
    CacheAgreesWithDirectLookup(docs, 1, 1);
    CacheHoldsTheFirstValidCandidate(docs, 1, 1);
  }

  /** One of the stored documents, of that guest and for that day, validates to the booking. */
  ghost predicate IsStoredAs(docs: seq<Booking>, guest: ObjectId, day: int, b: Booking) {
    exists doc :: doc in docs && doc.mainGuest == guest && Day(doc.stayPeriod.checkIn) == day
                  && ToDomain(doc) == Success(b)
  }

  lemma {:induction false} CandidatesAreStored(docs: seq<Booking>, guest: ObjectId, day: int)
    ensures forall doc :: doc in Candidates(docs, guest, day) ==>
              doc in docs && doc.mainGuest == guest && Day(doc.stayPeriod.checkIn) == day
  {
    if docs != [] {
      CandidatesAreStored(docs[1..], guest, day);
    }
  }

  lemma {:induction false} ValidOnesAreStored(docs: seq<Booking>)
    ensures forall b :: b in ValidOnes(docs) ==> exists doc :: doc in docs && ToDomain(doc) == Success(b)
  {
    if docs != [] {
      ValidOnesAreStored(docs[1..]);
      forall b | b in ValidOnes(docs) ensures exists doc :: doc in docs && ToDomain(doc) == Success(b) {
        if IsValid(docs[0]) && b == ToDomain(docs[0]).value {
          assert docs[0] in docs && ToDomain(docs[0]) == Success(b);
        }
      }
    }
  }

  /** The position of the guest's first document starting on the day. */
  ghost predicate IsFirstCandidate(docs: seq<Booking>, guest: ObjectId, day: int, i: int) {
    && 0 <= i < |docs| && docs[i].mainGuest == guest && Day(docs[i].stayPeriod.checkIn) == day
    && forall j :: 0 <= j < i ==> !(docs[j].mainGuest == guest && Day(docs[j].stayPeriod.checkIn) == day)
  }

  lemma {:induction false} CandidatesBegin(docs: seq<Booking>, guest: ObjectId, day: int)
    returns (i: nat)
    ensures if Candidates(docs, guest, day) == []
            then forall doc :: doc in docs ==> !(doc.mainGuest == guest && Day(doc.stayPeriod.checkIn) == day)
            else IsFirstCandidate(docs, guest, day, i) && Candidates(docs, guest, day)[0] == docs[i]
  {
    i := 0;
    if docs != [] && !(docs[0].mainGuest == guest && Day(docs[0].stayPeriod.checkIn) == day) {
      var later := CandidatesBegin(docs[1..], guest, day);
      i := later + 1;
      if Candidates(docs[1..], guest, day) == [] {
        assert docs == [docs[0]] + docs[1..];
      }
    }
  }

  /** What the store alone gives: the guest's first document for the day, when it validates. */
  lemma DirectExactly(docs: seq<Booking>, guest: ObjectId, day: int, b: Booking)
    ensures Direct(docs, guest, day) == Success(b) <==>
            exists i :: IsFirstCandidate(docs, guest, day, i) && ToDomain(docs[i]) == Success(b)
  {
    DirectTakesTheFirstCandidate(docs, guest, day);
    var k := CandidatesBegin(docs, guest, day);
    assert forall i :: IsFirstCandidate(docs, guest, day, i) && IsFirstCandidate(docs, guest, day, k) ==> i == k;
  }

  /** The position of the guest's first booking in a list. */
  ghost predicate IsFirstOf(list: seq<Booking>, guest: ObjectId, i: int) {
    && 0 <= i < |list| && list[i].mainGuest == guest
    && forall j :: 0 <= j < i ==> list[j].mainGuest != guest
  }

  lemma {:induction false} CachedExactly(list: seq<Booking>, guest: ObjectId) returns (i: nat)
    ensures if Cached(list, guest).None? then forall b :: b in list ==> b.mainGuest != guest
            else IsFirstOf(list, guest, i) && Cached(list, guest) == Some(list[i])
  {
    i := 0;
    if list != [] && list[0].mainGuest != guest {
      var later := CachedExactly(list[1..], guest);
      i := later + 1;
      assert list == [list[0]] + list[1..];
    }
  }

  lemma {:induction false} InWindowOfBoth(docs: seq<Booking>, more: seq<Booking>, from: Time, to: Time)
    ensures InWindow(docs + more, from, to) == InWindow(docs, from, to) + InWindow(more, from, to)
  {
    if docs == [] {
      assert docs + more == more;
    } else {
      InWindowOfBoth(docs[1..], more, from, to);
      assert (docs + more)[1..] == docs[1..] + more;
    }
  }

  lemma {:induction false} ValidOnesOfBoth(docs: seq<Booking>, more: seq<Booking>)
    ensures ValidOnes(docs + more) == ValidOnes(docs) + ValidOnes(more)
  {
    if docs == [] {
      assert docs + more == more;
    } else {
      ValidOnesOfBoth(docs[1..], more);
      assert (docs + more)[1..] == docs[1..] + more;
    }
  }

  lemma ArrivingOnBoth(docs: seq<Booking>, more: seq<Booking>, day: int)
    ensures ArrivingOn(docs + more, day) == ArrivingOn(docs, day) + ArrivingOn(more, day)
  {
    InWindowOfBoth(docs, more, day * DAY, day * DAY + DAY);
    ValidOnesOfBoth(InWindow(docs, day * DAY, day * DAY + DAY), InWindow(more, day * DAY, day * DAY + DAY));
  }

  lemma ArrivingAlone(doc: Booking, day: int)
    ensures ArrivingOn([doc], day)
         == if Day(doc.stayPeriod.checkIn) == day && IsValid(doc) then [ToDomain(doc).value] else []
  {
    DayWindow(doc.stayPeriod.checkIn, day);
    assert [doc][1..] == [];
    assert InWindow([doc], day * DAY, day * DAY + DAY) == if Day(doc.stayPeriod.checkIn) == day then [doc] else [];
    assert ValidOnes([doc]) == if IsValid(doc) then [ToDomain(doc).value] else [];
  }

  /** The check-in list of a day: each document of the store adds its booking, in its place, when it starts on the day and
      validates, and otherwise nothing. */
  lemma ArrivingExactly(before: seq<Booking>, doc: Booking, after: seq<Booking>, day: int)
    ensures ArrivingOn(before + [doc] + after, day)
         == ArrivingOn(before, day)
            + (if Day(doc.stayPeriod.checkIn) == day && IsValid(doc) then [ToDomain(doc).value] else [])
            + ArrivingOn(after, day)
    ensures ArrivingOn([], day) == []
  {
    ArrivingOnBoth(before + [doc], after, day);
    ArrivingOnBoth(before, [doc], day);
    ArrivingAlone(doc, day);
  }

  /** The look-up at check-in: the cache if it has an answer, otherwise the store. */
  function Looked(hit: Option<seq<Booking>>, docs: seq<Booking>, guest: ObjectId, day: int): Result<Booking> {
    if hit.Some? && Cached(hit.value, guest).Some? then Success(Cached(hit.value, guest).value)
    else Direct(docs, guest, day)
  }

  /** As long as the cached lists are what the store would give, a look-up gives a stored booking, whichever of the two
      answers. */
  lemma LookedIsStored(hit: Option<seq<Booking>>, docs: seq<Booking>, guest: ObjectId, day: int)
    requires hit.Some? ==> hit.value == ArrivingOn(docs, day)
    requires Looked(hit, docs, guest, day).Success?
    ensures IsStoredAs(docs, guest, day, Looked(hit, docs, guest, day).value)
  {
    var candidates := Candidates(docs, guest, day);
    DirectTakesTheFirstCandidate(docs, guest, day);
    CacheHoldsTheFirstValidCandidate(docs, guest, day);
    CandidatesAreStored(docs, guest, day);
    ValidOnesAreStored(candidates);
  }

  /** A hit, a miss and an expired entry all give the booking that the direct look-up finds. */
  lemma CachingIsTransparent(hit: Option<seq<Booking>>, docs: seq<Booking>, guest: ObjectId, day: int)
    requires hit.Some? ==> hit.value == ArrivingOn(docs, day)
    ensures Direct(docs, guest, day).Success? ==> Looked(hit, docs, guest, day) == Direct(docs, guest, day)
    ensures Looked(hit, docs, guest, day) == Direct(docs, guest, day) <==>
            !(hit.Some? && Candidates(docs, guest, day) != [] && !IsValid(Candidates(docs, guest, day)[0])
              && ValidOnes(Candidates(docs, guest, day)) != [])
  {
    CacheAgreesWithDirectLookup(docs, guest, day);
  }
}
