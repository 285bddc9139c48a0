/** Breaking off in one form: on the way along a whole session. */
module BreakingOff {
  import opened Outcomes
  import opened Times
  import opened Bookings
  import opened Clock
  import opened Journal
  import opened Itinerary
  import opened StayRecord
  import opened Visits
  import Sequences
  import Timing

  /** A whole session, of which others are beginnings. */
  function Whole(v: Visit): seq<Entry> {
    UntilDeparture(v.arrival.b, v) + MovingOut(v.arrival.b, v.today, v.returned)
  }

  /** The session broke off on its way along this one. */
  ghost predicate BrokeOffIn(entries: seq<Entry>, v: Visit) {
    EndedInTime(v.arrival.b, v.log) && BrokeOff([], entries, Whole(v))
  }

  /** The session ended in the wait for the next day. */
  ghost predicate EndedWaiting(entries: seq<Entry>, b: Booking, v: Visit) {
    && v.arrival.b == b && EndedEarly(v.log.waits, b, true) && IsWholeWait(v.log.last, b, true, None)
    && entries == MovingIn(v.arrival) + AllDays(b.cottageName, v.log.waits) + v.log.last
  }

  /** The clock was looked at and gave no time. */
  predicate SawNoTime(entries: seq<Entry>) {
    exists k :: 0 <= k < |entries| && entries[k] == Looked(NoTime)
  }

  /** A look at the clock that lets the guest go. */
  function GoAhead(b: Booking): seq<Entry> {
    [Looked(At(b.stayPeriod.checkOut))]
  }

  /** A wait that another day follows. */
  function StayOn(b: Booking): seq<Entry> {
    [Looked(At(b.stayPeriod.checkOut - DAY))] + [Woke(DayChange(b.stayPeriod.checkOut - DAY))]
  }

  lemma TheseAreWaits(b: Booking)
    ensures IsWholeWait(GoAhead(b), b, true, Some(true)) && IsWholeWait(StayOn(b), b, true, Some(false))
  {
    assert Day(b.stayPeriod.checkOut - DAY) < Day(b.stayPeriod.checkOut);
  }

  /** The full days of the session, after the arrival. */
  function Daily(v: Visit): seq<Entry> {
    MovingIn(v.arrival) + AllDays(v.arrival.b.cottageName, v.log.waits)
  }

  /** All the waits before full days came to their end. */
  ghost predicate WaitsCame(entries: seq<Entry>, v: Visit) {
    v.log.waits == []
    || (var n := |v.log.waits| - 1;
        MovingIn(v.arrival) + AllDays(v.arrival.b.cottageName, v.log.waits[..n]) + v.log.waits[n] <= entries)
  }

  /** It broke off before the last full day was over, if there was one; or after the last of its waits. */
  ghost predicate BrokeOffAfterWaits(entries: seq<Entry>, v: Visit) {
    && BrokeOffIn(entries, v)
    && if |entries| <= |Daily(v)| then WaitsCame(entries, v) else Daily(v) + v.log.last <= entries
  }

  lemma BrokeOffSooner(before: seq<Entry>, entries: seq<Entry>, plan: seq<Entry>, more: seq<Entry>)
    requires BrokeOff(before, entries, plan)
    ensures BrokeOff([], entries, before + plan + more)
  {
    assert [] + before == before;
    BrokeOffLater([], before, entries, plan);
    BrokeOffEarlier([], entries, before + plan, more);
  }

  /** Where a session could break off in its arrival. */
  lemma ArrivalBreaksOffIn(entries: seq<Entry>, v: Visit)
    requires MovingInBrokeOff([], entries, v.arrival)
    ensures SawNoTime(entries) || BrokeOffAfterWaits(entries, v.(log := StayLog([], GoAhead(v.arrival.b))))
  {
    var b, v' := v.arrival.b, v.(log := StayLog([], GoAhead(v.arrival.b)));
    var undated := Greeting(NoTime, v.arrival.document);
    if |entries| <= 2 && BrokeOff([], entries, undated) {
      AlsoDated([], entries, undated, MovingIn(v.arrival));
    }
    if BrokeOff([], entries, MovingIn(v.arrival)) {
      var rest := AllDays(b.cottageName, []) + GoAhead(b) + Departure() + MovingOut(b, v.today, v.returned);
      TheseAreWaits(b);
      BrokeOffEarlier([], entries, MovingIn(v.arrival), rest);
      assert MovingIn(v.arrival) + rest == Whole(v');
    } else {
      assert entries[1] == undated[1] == Looked(NoTime);
    }
  }

  /** Up to the look at the clock it makes no difference whether it was to give a time. */
  lemma AlsoDated(before: seq<Entry>, entries: seq<Entry>, undated: seq<Entry>, dated: seq<Entry>)
    requires BrokeOff(before, entries, undated)
    requires var n := |entries| - |before| - 1;
             n < |dated| && undated[..n] == dated[..n]
             && (undated[n] == dated[n] || (undated[n].Looked? && dated[n].Looked?))
    ensures BrokeOff(before, entries, dated)
  {
  }

  lemma EveningBreaksOffIn(entries: seq<Entry>, v: Visit)
    requires BrokeOff(MovingIn(v.arrival), entries, FirstEvening(v.arrival.b.cottageName))
    ensures BrokeOffAfterWaits(entries, v.(log := StayLog([], GoAhead(v.arrival.b))))
  {
    var b, v' := v.arrival.b, v.(log := StayLog([], GoAhead(v.arrival.b)));
    var rest := GoAhead(b) + Departure() + MovingOut(b, v.today, v.returned);
    TheseAreWaits(b);
    BrokeOffSooner(MovingIn(v.arrival), entries, FirstEvening(b.cottageName), rest);
    assert MovingIn(v.arrival) + FirstEvening(b.cottageName) + rest == Whole(v');
  }

  lemma FullDayBreaksOffIn(entries: seq<Entry>, v: Visit)
    requires EndedEarly(v.log.waits, v.arrival.b, true) && IsWholeWait(v.log.last, v.arrival.b, true, Some(false))
    requires BrokeOff(MovingIn(v.arrival) + AllDays(v.arrival.b.cottageName, v.log.waits) + v.log.last, entries,
                      FullDay(v.arrival.b.cottageName))
    ensures BrokeOffAfterWaits(entries, v.(log := StayLog(v.log.waits + [v.log.last], GoAhead(v.arrival.b))))
  {
    var b, room, wait := v.arrival.b, v.arrival.b.cottageName, v.log.last;
    var v' := v.(log := StayLog(v.log.waits + [wait], GoAhead(b)));
    var days := MovingIn(v.arrival) + AllDays(room, v.log.waits);
    var rest := GoAhead(b) + Departure() + MovingOut(b, v.today, v.returned);
    TheseAreWaits(b);
    OneMoreDay(room, v.log.waits, wait);
    BrokeOffSooner(days + wait, entries, FullDay(room), rest);
    Sequences.Regroup(MovingIn(v.arrival), AllDays(room, v.log.waits), wait);
    Sequences.Regroup(MovingIn(v.arrival), AllDays(room, v.log.waits) + wait, FullDay(room));
    assert days + wait + FullDay(room) == MovingIn(v.arrival) + AllDays(room, v.log.waits + [wait]);
    WholeFrom(v');
    assert v'.log.waits[..|v.log.waits|] == v.log.waits;
    Timing.BeginsBefore(days + wait, entries, FullDay(room));
    ShorterThan(days + wait, entries, FullDay(room));
  }

  lemma WholeFrom(v: Visit)
    ensures var b := v.arrival.b;
            Whole(v) == MovingIn(v.arrival) + AllDays(b.cottageName, v.log.waits)
                        + (v.log.last + Departure() + MovingOut(b, v.today, v.returned))
  {
  }

  lemma ShorterThan(before: seq<Entry>, entries: seq<Entry>, plan: seq<Entry>)
    requires BrokeOff(before, entries, plan)
    ensures |entries| <= |before + plan|
  {
  }

  lemma LeavingBreaksOffIn(entries: seq<Entry>, v: Visit)
    requires EndedInTime(v.arrival.b, v.log)
    requires BrokeOff(MovingIn(v.arrival) + AllDays(v.arrival.b.cottageName, v.log.waits) + v.log.last, entries,
                      Departure())
    ensures BrokeOffAfterWaits(entries, v)
  {
    var before := MovingIn(v.arrival) + AllDays(v.arrival.b.cottageName, v.log.waits) + v.log.last;
    BrokeOffSooner(before, entries, Departure(), MovingOut(v.arrival.b, v.today, v.returned));
    Timing.BeginsBefore(before, entries, Departure());
  }

  lemma StayBreaksOffIn(entries: seq<Entry>, b: Booking, v: Visit)
    requires v.arrival.b == b && StayBrokeOff(MovingIn(v.arrival), entries, b, true, v.log)
    ensures EndedWaiting(entries, b, v) || (exists v' :: BrokeOffAfterWaits(entries, v'))
  {
    var days := MovingIn(v.arrival) + AllDays(b.cottageName, v.log.waits);
    if v.log == StayLog([], []) && BrokeOff(MovingIn(v.arrival), entries, FirstEvening(b.cottageName)) {
      EveningBreaksOffIn(entries, v);
    } else if IsWholeWait(v.log.last, b, true, None) && entries == days + v.log.last {
    } else if IsWholeWait(v.log.last, b, true, Some(false))
              && BrokeOff(days + v.log.last, entries, FullDay(b.cottageName)) {
      FullDayBreaksOffIn(entries, v);
    } else {
      LeavingBreaksOffIn(entries, v);
    }
  }

  lemma OutBreaksOffIn(entries: seq<Entry>, v: Visit)
    requires EndedInTime(v.arrival.b, v.log)
    requires BrokeOff(UntilDeparture(v.arrival.b, v), entries, MovingOut(v.arrival.b, v.today, v.returned))
    ensures BrokeOffAfterWaits(entries, v)
  {
    var before, out := UntilDeparture(v.arrival.b, v), MovingOut(v.arrival.b, v.today, v.returned);
    BrokeOffSooner(before, entries, out, []);
    assert before + out + [] == Whole(v);
    Timing.BeginsBefore(before, entries, out);
    assert before == Daily(v) + v.log.last + Departure();
  }

  lemma DepartureBreaksOffIn(entries: seq<Entry>, b: Booking, v: Visit)
    requires v.arrival.b == b && EndedInTime(b, v.log)
    requires MovingOutBrokeOff(UntilDeparture(b, v), entries, b, v.today, v.returned)
    ensures SawNoTime(entries) || BrokeOffAfterWaits(entries, v)
  {
    var before, out := UntilDeparture(b, v), MovingOut(b, v.today, v.returned);
    var undated := ReturningKey(NoTime, v.returned) + KeyBack(b.cottageName, v.returned);
    if |entries| == |before| + 1 && BrokeOff(before, entries, undated) {
      AlsoDated(before, entries, undated, out);
    }
    if BrokeOff(before, entries, out) {
      OutBreaksOffIn(entries, v);
    } else {
      assert entries[|before|] == undated[0] == Looked(NoTime);
    }
  }

  /** A session that broke off saw no time, ended in a wait, or broke off on the way along a whole session whose waits,
      as far as they come before that, are its own. */
  lemma BreaksOffIn(entries: seq<Entry>, booking: Option<Booking>, v: Visit)
    requires BrokenOff(entries, booking, v)
    ensures SawNoTime(entries) || (booking.Some? && EndedWaiting(entries, booking.value, v))
         || (exists v' :: BrokeOffAfterWaits(entries, v'))
  {
    match booking {
      case None => ArrivalBreaksOffIn(entries, v);
      case Some(b) =>
        if StayBrokeOff(MovingIn(v.arrival), entries, b, true, v.log) {
          StayBreaksOffIn(entries, b, v);
        } else {
          DepartureBreaksOffIn(entries, b, v);
        }
    }
  }

  // ---------- sessions that would have been longer ----------

  function Longer(v: Visit): Visit {
    v.(log := v.log.(waits := v.log.waits + [StayOn(v.arrival.b)]))
  }

  /** What broke off before its last full day was over could have had another. */
  lemma CouldBeLonger(entries: seq<Entry>, v: Visit)
    requires BrokeOffIn(entries, v) && |entries| <= |Daily(v)|
    ensures BrokeOffIn(entries, Longer(v)) && |entries| <= |Daily(Longer(v))|
  {
    var b := v.arrival.b;
    TheseAreWaits(b);
    OneMoreDay(b.cottageName, v.log.waits, StayOn(b));
    WholeFrom(v);
    WholeFrom(Longer(v));
    assert Daily(v) <= Daily(Longer(v));
    BrokeOffAlike(entries, Daily(v), Whole(v), Whole(Longer(v)));
  }

  lemma BrokeOffAlike(entries: seq<Entry>, part: seq<Entry>, whole: seq<Entry>, whole': seq<Entry>)
    requires BrokeOff([], entries, whole) && part <= whole && part <= whole' && |entries| <= |part|
    ensures BrokeOff([], entries, whole')
  {
    var n := |entries| - 1;
    assert entries == [] + whole[..n] + [Failing(whole[n])];
    assert whole[..n] == part[..n] == whole'[..n] && whole[n] == part[n] == whole'[n];
  }

  lemma {:induction false} CouldBeAsLongAs(entries: seq<Entry>, v: Visit, k: nat) returns (v': Visit)
    requires BrokeOffIn(entries, v) && |entries| <= |Daily(v)| && |v.log.waits| <= k
    ensures BrokeOffIn(entries, v') && v'.arrival == v.arrival && |v'.log.waits| == k
    decreases k - |v.log.waits|
  {
    if |v.log.waits| == k {
      v' := v;
    } else {
      CouldBeLonger(entries, v);
      v' := CouldBeAsLongAs(entries, Longer(v), k);
    }
  }
}
