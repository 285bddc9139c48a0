/** Why a session breaks off. */
module Causes {
  import opened Outcomes
  import opened Bookings
  import opened Clock
  import opened FrameAccounting
  import opened Journal
  import opened Itinerary
  import opened StayRecord
  import opened Totals
  import opened Visits
  import Reception

  /** Something kept the session from going on: a conversation that said nothing, an hour that did not come after those
      that had, an order that could not be placed, a clock without an answer, the end of the days, or a reception that
      had to refuse. */
  ghost predicate IsCause(o: Oracles, opening: Scene, s: Scene, before: Total, e: Entry, s': Scene) {
    match e {
      case Unsaid(op) => After(o.env, s.chat, op).talk == s.chat.talk
      case NeverCame(hour) => Serve(opening.hours, before.hours + [hour]).None?
      case NotOrdered(order) => Blank(order.roomName) || o.rules.publishFails(s.desk.calls.orders)
      case Looked(reading) => reading == Unavailable == NextReading(s.readings)
      case Woke(wake) => wake == NextWake(s.wakes) && (wake == StreamClosed || wake == ContextDone)
      case NotDone(call) =>
        Reception.Refuses(o.rules, s.desk, call) || Reception.Missed(o.rules, s.desk.calls, s'.desk.calls)
      case _ => false
    }
  }

  /** The last entry failed. */
  predicate IsFailure(e: Entry) {
    e.Unsaid? || e.NeverCame? || e.NotOrdered? || e.NotDone? || e == Looked(Unavailable)
    || e == Woke(StreamClosed) || e == Woke(ContextDone)
  }

  /** The check-in ended with the document, or the check-out with the key back, because the clock had given no time. */
  ghost predicate WithoutTime(entries: seq<Entry>, v: Visit) {
    || entries == Greeting(NoTime, v.arrival.document)
    || EndsWith(entries, ReturningKey(NoTime, v.returned) + KeyBack(v.arrival.b.cottageName, v.returned))
  }

  predicate EndsWith(entries: seq<Entry>, part: seq<Entry>) {
    |part| <= |entries| && entries[|entries| - |part|..] == part
  }

  /** No hour was waited for in vain. */
  ghost predicate Unmissed(entries: seq<Entry>) {
    forall i :: 0 <= i < |entries| ==> !entries[i].NeverCame?
  }

  /** The last entry failed, and none before it was an hour that did not come. */
  ghost predicate EndsInFailure(entries: seq<Entry>) {
    entries != [] && IsFailure(entries[|entries| - 1]) && Unmissed(entries[..|entries| - 1])
  }

  lemma BrokeOffFails(before: seq<Entry>, after: seq<Entry>, plan: seq<Entry>)
    requires BrokeOff(before, after, plan) && Unmissed(before) && Unmissed(plan)
    ensures EndsInFailure(after)
  {
    assert after[..|after| - 1] == before + plan[..|after| - |before| - 1];
  }

  lemma PlansAreUnmissed(b: Booking, v: Visit)
    ensures Unmissed(FirstEvening(b.cottageName)) && Unmissed(FullDay(b.cottageName)) && Unmissed(Departure())
    ensures Unmissed(ReturningKey(NoTime, v.returned) + KeyBack(b.cottageName, v.returned))
    ensures Unmissed(MovingOut(b, v.today, v.returned))
  {
  }

  lemma ArrivalIsUnmissed(a: Arrival)
    ensures Unmissed(MovingIn(a)) && Unmissed(Greeting(NoTime, a.document))
  {
  }

  lemma {:induction false} DaysAreUnmissed(b: Booking, waits: seq<seq<Entry>>, k: nat, v: Visit)
    requires k <= |waits| && EndedEarly(waits, b, true)
    ensures Unmissed(Days(b.cottageName, waits, k))
  {
    PlansAreUnmissed(b, v);
    if k > 0 {
      DaysAreUnmissed(b, waits, k - 1, v);
      WaitIsSeen(waits[k - 1], b, true, Some(false));
    }
  }

  lemma ArrivalEndsInFailure(entries: seq<Entry>, v: Visit)
    requires MovingInBrokeOff([], entries, v.arrival)
    ensures EndsInFailure(entries) || WithoutTime(entries, v)
  {
    var undated := Greeting(NoTime, v.arrival.document);
    ArrivalIsUnmissed(v.arrival);
    if BrokeOff([], entries, MovingIn(v.arrival)) {
      BrokeOffFails([], entries, MovingIn(v.arrival));
    } else if BrokeOff([], entries, undated) {
      BrokeOffFails([], entries, undated);
    } else {
      assert [] + undated == undated;
    }
  }

  lemma StayEndsInFailure(entries: seq<Entry>, b: Booking, v: Visit)
    requires StayBrokeOff(MovingIn(v.arrival), entries, b, true, v.log)
    ensures EndsInFailure(entries)
  {
    var arrived, room, wait := MovingIn(v.arrival), b.cottageName, v.log.last;
    var days := arrived + AllDays(room, v.log.waits);
    ArrivalIsUnmissed(v.arrival);
    PlansAreUnmissed(b, v);
    DaysAreUnmissed(b, v.log.waits, |v.log.waits|, v);
    if v.log == StayLog([], []) && BrokeOff(arrived, entries, FirstEvening(room)) {
      BrokeOffFails(arrived, entries, FirstEvening(room));
    } else if IsWholeWait(wait, b, true, None) && entries == days + wait {
      WaitIsSeen(wait, b, true, None);
      assert entries[|entries| - 1] == wait[|wait| - 1];
    } else if IsWholeWait(wait, b, true, Some(false)) && BrokeOff(days + wait, entries, FullDay(room)) {
      WaitIsSeen(wait, b, true, Some(false));
      BrokeOffFails(days + wait, entries, FullDay(room));
    } else {
      WaitIsSeen(wait, b, true, Some(true));
      BrokeOffFails(days + wait, entries, Departure());
    }
  }

  lemma DepartureIsUnmissed(b: Booking, v: Visit)
    requires EndedInTime(b, v.log)
    ensures Unmissed(UntilDeparture(b, v))
  {
    ArrivalIsUnmissed(v.arrival);
    DaysAreUnmissed(b, v.log.waits, |v.log.waits|, v);
    WaitIsSeen(v.log.last, b, true, Some(true));
    PlansAreUnmissed(b, v);
  }

  lemma DepartureEndsInFailure(entries: seq<Entry>, b: Booking, v: Visit)
    requires v.arrival.b == b && EndedInTime(b, v.log)
    requires MovingOutBrokeOff(UntilDeparture(b, v), entries, b, v.today, v.returned)
    ensures EndsInFailure(entries) || WithoutTime(entries, v)
  {
    var before := UntilDeparture(b, v);
    var undated := ReturningKey(NoTime, v.returned) + KeyBack(b.cottageName, v.returned);
    DepartureIsUnmissed(b, v);
    PlansAreUnmissed(b, v);
    if BrokeOff(before, entries, MovingOut(b, v.today, v.returned)) {
      BrokeOffFails(before, entries, MovingOut(b, v.today, v.returned));
    } else if BrokeOff(before, entries, undated) {
      BrokeOffFails(before, entries, undated);
    } else {
      assert entries[|entries| - |undated|..] == undated;
    }
  }

  lemma FailureIsACause(o: Oracles, opening: Scene, history: seq<Scene>, entries: seq<Entry>, n: nat)
    requires IsRecord(o, opening, history, entries) && n < |entries| && IsFailure(entries[n])
    requires AllCame(entries, n)
    ensures IsCause(o, opening, history[n], TotalTo(entries, n), entries[n], history[n + 1])
  {
    assert FollowsFrom(o, history, entries, n);
    if entries[n].NeverCame? {
      RecordServes(o, opening, history, entries, n);
      NotServed(opening.hours, history[n].hours, TotalTo(entries, n).hours, entries[n].hour);
    }
  }

  lemma SessionEndsInFailure(entries: seq<Entry>, booking: Option<Booking>, v: Visit)
    requires BrokenOff(entries, booking, v)
    ensures EndsInFailure(entries) || WithoutTime(entries, v)
  {
    match booking {
      case None => ArrivalEndsInFailure(entries, v);
      case Some(b) =>
        if StayBrokeOff(MovingIn(v.arrival), entries, b, true, v.log) {
          StayEndsInFailure(entries, b, v);
        } else {
          DepartureEndsInFailure(entries, b, v);
        }
    }
  }

  lemma LastFailureIsACause(o: Oracles, opening: Scene, history: seq<Scene>, entries: seq<Entry>)
    requires IsRecord(o, opening, history, entries) && EndsInFailure(entries)
    ensures var n := |entries| - 1;
            IsCause(o, opening, history[n], TotalTo(entries, n), entries[n], history[n + 1])
  {
    var n := |entries| - 1;
    assert forall i :: 0 <= i < n ==> entries[..n][i] == entries[i];
    FailureIsACause(o, opening, history, entries, n);
  }

  /** A session that breaks off ends with an entry of something that kept it from going on, or lacked a time. */
  lemma SessionsBreakOffForACause(o: Oracles, opening: Scene, history: seq<Scene>, entries: seq<Entry>,
                                  booking: Option<Booking>, v: Visit)
    requires IsRecord(o, opening, history, entries) && BrokenOff(entries, booking, v)
    ensures var n := |entries| - 1;
            && 0 <= n
            && (WithoutTime(entries, v)
                || IsCause(o, opening, history[n], TotalTo(entries, n), entries[n], history[n + 1]))
  {
    SessionEndsInFailure(entries, booking, v);
    if EndsInFailure(entries) {
      LastFailureIsACause(o, opening, history, entries);
    }
  }
}
