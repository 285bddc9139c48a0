/** What prompts what: nothing in a session is done out of turn, whichever way the session goes. */
module Prompts {
  import opened Outcomes
  import opened Sequences
  import opened Messages
  import opened Times
  import opened Bookings
  import opened CleaningService
  import opened Clock
  import opened FrameAccounting
  import opened Journal
  import opened Itinerary
  import opened StayTransition
  import opened StayRecord
  import opened Visits
  import opened Reception

  /** `k` entries before position `i` stands `e`. */
  predicate Stood(entries: seq<Entry>, i: nat, k: nat, e: Entry)
    requires i < |entries|
  {
    k <= i && entries[i - k] == e
  }

  /** What comes before the guest is waited for. */
  predicate WaitPrompted(entries: seq<Entry>, i: nat, action: GuestAction)
    requires i < |entries|
  {
    if i == 0 then action == ShowForCheckin
    else
      var last := entries[i - 1];
      match action {
        case TakeCottageKey => last.Said? && last.talk.Asked? && last.talk.request == GiveCottageKey
        case EnterCottage => last.Done? && last.call.ReceiveKey?
        case GoForABath => last == Said(Heard(EnterCottage)) || last == Said(Heard(EnjoyResort))
        case GoForDinner => last == Said(Told(DinnerReady))
        case GoToSleep => last.Ordered? && last.order.requestType == PrepareForSleep
        case Wakeup => last.Looked? || last.Woke?
        case GoForBreakfast => last == Said(Told(BreakfastReady))
        case LeaveCleanupNotification => last == Said(Heard(GoForBreakfast))
        case EnjoyResort => last.Ordered? && last.order.requestType == DailyCleaning
        case LeaveCottage => last == Said(Heard(Wakeup))
        case ProceedToCheckout => last.Looked?
        case ReturnCottageKey => last.Said? && last.talk.Asked? && last.talk.request == RequestCottageKey
        case _ => false
      }
  }

  predicate AskPrompted(entries: seq<Entry>, i: nat, request: SystemRequest)
    requires i < |entries|
  {
    && 0 < i
    && match request {
         case RequestDocument => entries[i - 1].Looked? && Stood(entries, i, 2, Said(Heard(ShowForCheckin)))
         case RequestBookingNumber => entries[i - 1].NotDone? && entries[i - 1].call.CheckInByDocument?
         case GiveCottageKey => entries[i - 1] == Said(Told(CheckInComplete))
         case RequestCottageKey => entries[i - 1] == Said(Heard(ProceedToCheckout))
       }
  }

  predicate TellPrompted(entries: seq<Entry>, i: nat, notification: SystemNotification)
    requires i < |entries|
  {
    && 0 < i
    && var last := entries[i - 1];
       match notification {
         case BookingChecking => last.Said? && last.talk.Asked? && last.talk.request == RequestDocument
         case CheckInComplete => last.Admitted?
         case DinnerReady => last == Came(18)
         case BreakfastReady => last == Came(6)
         case CheckOutComplete => last.Done? && last.call.CheckOut?
       }
  }

  predicate OpPrompted(entries: seq<Entry>, i: nat, op: Operation)
    requires i < |entries|
  {
    match op {
      case Wait(action) => WaitPrompted(entries, i, action)
      case Ask(request) => AskPrompted(entries, i, request)
      case Tell(notification) => TellPrompted(entries, i, notification)
    }
  }

  /** Breakfast is waited for when the guest is awake, dinner when the guest takes a bath, and once more when it has been
      announced. */
  predicate HourPrompted(entries: seq<Entry>, i: nat, hour: int)
    requires i < |entries|
  {
    || (hour == 6 && Stood(entries, i, 1, Said(Heard(Wakeup))))
    || (hour == 18 && Stood(entries, i, 1, Said(Heard(GoForABath))))
    || (hour == 18 && Stood(entries, i, 1, Said(Told(DinnerReady))))
  }

  /** A cottage is cleaned when its guest has left for it. */
  predicate OrderPrompted(entries: seq<Entry>, i: nat, order: CleaningOrder)
    requires i < |entries|
  {
    || (order.requestType == DailyCleaning && Stood(entries, i, 1, Said(Heard(LeaveCleanupNotification))))
    || (order.requestType == PrepareForSleep && Stood(entries, i, 1, Said(Heard(GoForDinner))))
  }

  /** The clock is looked at when the guest shows up or has left, at the end of a day, and on a tick. */
  predicate LookPrompted(entries: seq<Entry>, i: nat)
    requires i < |entries|
  {
    || Stood(entries, i, 1, Said(Heard(ShowForCheckin))) || Stood(entries, i, 1, Said(Heard(LeaveCottage)))
    || Stood(entries, i, 1, Said(Heard(GoToSleep))) || Stood(entries, i, 1, Woke(Ticker))
  }

  /** The reception is asked with what the guest has said, for the day that the clock gave, and for the cottage of the
      booking. */
  predicate CallPrompted(entries: seq<Entry>, i: nat, call: Call)
    requires i < |entries|
  {
    match call {
      case CheckInByDocument(document, today) =>
        && Stood(entries, i, 1, Said(Told(BookingChecking))) && Stood(entries, i, 2, Said(Asked(RequestDocument, document)))
        && Stood(entries, i, 3, Looked(At(today)))
      case CheckInByNumber(document, number, today) =>
        && Stood(entries, i, 1, Said(Asked(RequestBookingNumber, number)))
        && Stood(entries, i, 2, NotDone(CheckInByDocument(document, today)))
      case ReceiveKey(room, keyNumber) =>
        && Stood(entries, i, 1, Said(Heard(TakeCottageKey))) && Stood(entries, i, 2, Said(Asked(GiveCottageKey, keyNumber)))
        && 4 <= i && entries[i - 4].Admitted? && entries[i - 4].b.cottageName == room
      case ReturnKey(room, keyNumber) =>
        && Stood(entries, i, 1, Said(Heard(GuestAction.ReturnCottageKey)))
        && Stood(entries, i, 2, Said(Asked(RequestCottageKey, keyNumber)))
        && 5 <= i && entries[i - 4].Looked? && entries[i - 5] == Said(Heard(LeaveCottage))
      case CheckOut(b, today) =>
        && 0 < i && entries[i - 1].Done? && entries[i - 1].call.ReturnKey? && entries[i - 1].call.room == b.cottageName
        && Stood(entries, i, 5, Looked(At(today)))
    }
  }

  /** What stands at position `i`, done or attempted in vain, is prompted by what stands before it. */
  predicate PromptedAt(entries: seq<Entry>, i: nat)
    requires i < |entries|
  {
    match entries[i] {
      case Said(talk) => OpPrompted(entries, i, OpOf(talk))
      case Unsaid(op) => OpPrompted(entries, i, op)
      case Came(hour) => HourPrompted(entries, i, hour)
      case NeverCame(hour) => HourPrompted(entries, i, hour)
      case Ordered(order) => OrderPrompted(entries, i, order)
      case NotOrdered(order) => OrderPrompted(entries, i, order)
      case Looked(_) => LookPrompted(entries, i)
      case Woke(_) => 0 < i && entries[i - 1].Looked?
      case Admitted(call, _) => CallPrompted(entries, i, call)
      case Done(call) => CallPrompted(entries, i, call)
      case NotDone(call) => CallPrompted(entries, i, call)
    }
  }

  ghost predicate Prompted(entries: seq<Entry>) {
    forall i :: 0 <= i < |entries| ==> PromptedAt(entries, i)
  }

  /** The plan is prompted when it comes after this entry. */
  ghost predicate Follows(last: Entry, plan: seq<Entry>) {
    forall j :: 1 <= j <= |plan| ==> PromptedAt([last] + plan, j)
  }

  // ---------- composing ----------

  lemma PromptedLater(before: seq<Entry>, part: seq<Entry>, i: nat)
    requires 0 < i < |part| && PromptedAt(part, i)
    ensures PromptedAt(before + part, |before| + i)
  {
    var all, n := before + part, |before|;
    assert forall j :: 0 <= j <= i ==> all[n + j] == part[j];
  }

  lemma PromptedAlike(entries: seq<Entry>, entries': seq<Entry>, i: nat)
    requires i < |entries| && i < |entries'| && entries[..i] == entries'[..i] && PromptedAt(entries, i)
    requires entries'[i] == entries[i] || entries'[i] == Failing(entries[i])
    ensures PromptedAt(entries', i)
  {
    assert forall k :: 0 <= k < i ==> entries'[k] == entries[..i][k] == entries[k];
    assert forall k: nat, e :: 0 < k && Stood(entries, i, k, e) ==> Stood(entries', i, k, e);
  }

  lemma PromptedNext(before: seq<Entry>, plan: seq<Entry>, j: nat)
    requires before != [] && Follows(before[|before| - 1], plan) && 1 <= j <= |plan|
    ensures PromptedAt(before + plan, |before| - 1 + j)
  {
    var n, part := |before| - 1, [before[|before| - 1]] + plan;
    assert before + plan == before[..n] + part;
    PromptedLater(before[..n], part, j);
  }

  lemma PromptedOn(before: seq<Entry>, plan: seq<Entry>)
    requires Prompted(before) && before != [] && Follows(before[|before| - 1], plan)
    ensures Prompted(before + plan)
  {
    forall i | 0 <= i < |before + plan| ensures PromptedAt(before + plan, i) {
      if i < |before| {
        PromptedAlike(before, before + plan, i);
      } else {
        PromptedNext(before, plan, i - |before| + 1);
      }
    }
  }

  /** What is prompted to its end is prompted where it breaks off. */
  lemma PromptedWhereItBreaksOff(before: seq<Entry>, after: seq<Entry>, plan: seq<Entry>)
    requires Prompted(before + plan) && BrokeOff(before, after, plan)
    ensures Prompted(after)
  {
    var all := before + plan;
    forall i | 0 <= i < |after| ensures PromptedAt(after, i) {
      assert PromptedAt(all, i);
      PromptedAlike(all, after, i);
    }
  }

  // ---------- the parts ----------

  lemma ArrivalPrompted(a: Arrival)
    ensures Prompted(MovingIn(a)) && Prompted(Greeting(NoTime, a.document))
    ensures var last := MovingIn(a)[|MovingIn(a)| - 1]; last.Done? && last.call.ReceiveKey?
  {
  }

  lemma EveningFollows(last: Entry, room: string)
    requires last == Said(Heard(EnterCottage)) || last == Said(Heard(EnjoyResort))
    ensures Follows(last, Evening(room))
  {
    assert [last] + Evening(room)
        == [last, Said(Heard(GoForABath)), Came(18), Said(Told(DinnerReady)), Came(18), Said(Told(DinnerReady)),
            Said(Heard(GoForDinner)), Ordered(CleaningOrder(room, PrepareForSleep)), Said(Heard(GoToSleep))];
  }

  lemma MorningFollows(last: Entry, room: string)
    requires last.Looked? || last.Woke?
    ensures Follows(last, Morning(room))
  {
    assert [last] + Morning(room)
        == [last, Said(Heard(Wakeup)), Came(6), Said(Told(BreakfastReady)), Said(Heard(GoForBreakfast)),
            Said(Heard(LeaveCleanupNotification)), Ordered(CleaningOrder(room, DailyCleaning)),
            Said(Heard(EnjoyResort))];
  }

  lemma DepartureFollows(last: Entry)
    requires last.Looked? || last.Woke?
    ensures Follows(last, Departure())
  {
  }

  lemma MovingOutFollows(last: Entry, b: Booking, today: Time, keyNumber: string)
    requires last == Said(Heard(LeaveCottage))
    ensures Follows(last, MovingOut(b, today, keyNumber))
    ensures Follows(last, ReturningKey(NoTime, keyNumber) + KeyBack(b.cottageName, keyNumber))
  {
    var back := [Said(Heard(ProceedToCheckout)), Said(Asked(RequestCottageKey, keyNumber)),
                 Said(Heard(GuestAction.ReturnCottageKey)), Done(ReturnKey(b.cottageName, keyNumber))];
    assert [last] + MovingOut(b, today, keyNumber)
        == [last, Looked(At(today))] + back + [Done(CheckOut(b, today)), Said(Told(CheckOutComplete))];
    assert [last] + (ReturningKey(NoTime, keyNumber) + KeyBack(b.cottageName, keyNumber))
        == [last, Looked(NoTime)] + back;
  }

  lemma WaitFollows(last: Entry, wait: seq<Entry>, b: Booking, verdict: Option<bool>)
    requires last == Said(Heard(GoToSleep)) && IsWholeWait(wait, b, true, verdict)
    ensures Follows(last, wait)
  {
    WaitIsSeen(wait, b, true, verdict);
    forall j | 1 <= j <= |wait| ensures PromptedAt([last] + wait, j) {
      assert InTurn(wait, 0, j - 1, true);
      if j > 1 {
        assert Idle(wait[j - 2], b);
      }
    }
  }

  // ---------- the whole session ----------

  /** The arrival and the first evening, and a full day after each of the first `k` waits. */
  lemma {:induction false} DaysPrompted(arrived: seq<Entry>, b: Booking, waits: seq<seq<Entry>>, k: nat)
    requires EndedEarly(waits, b, true) && k <= |waits| && Prompted(arrived) && arrived != []
    requires arrived[|arrived| - 1].Done? && arrived[|arrived| - 1].call.ReceiveKey?
    ensures var days := arrived + Days(b.cottageName, waits, k);
            Prompted(days) && days[|days| - 1] == Said(Heard(GoToSleep))
  {
    if k == 0 {
      FirstEveningPrompted(arrived, b.cottageName);
    } else {
      DaysPrompted(arrived, b, waits, k - 1);
      OneMoreDayPrompted(arrived, Days(b.cottageName, waits, k - 1), waits[k - 1], b);
    }
  }

  lemma OneMoreDayPrompted(arrived: seq<Entry>, days: seq<Entry>, wait: seq<Entry>, b: Booking)
    requires Prompted(arrived + days) && arrived + days != []
    requires (arrived + days)[|arrived + days| - 1] == Said(Heard(GoToSleep)) && IsWholeWait(wait, b, true, Some(false))
    ensures var more := arrived + (days + wait + FullDay(b.cottageName));
            Prompted(more) && more[|more| - 1] == Said(Heard(GoToSleep))
  {
    AfterWaiting(arrived + days, wait, b, Some(false));
    FullDayPrompted(arrived + days + wait, b.cottageName);
    Regroup(arrived, days, wait);
    Regroup(arrived, days + wait, FullDay(b.cottageName));
  }

  lemma FirstEveningPrompted(before: seq<Entry>, room: string)
    requires Prompted(before) && before != []
    requires before[|before| - 1].Done? && before[|before| - 1].call.ReceiveKey?
    ensures Prompted(before + FirstEvening(room))
    ensures (before + FirstEvening(room))[|before + FirstEvening(room)| - 1] == Said(Heard(GoToSleep))
  {
    var entering := [Said(Heard(EnterCottage))];
    PromptedOn(before, entering);
    EveningFollows(entering[0], room);
    PromptedOn(before + entering, Evening(room));
    assert before + entering + Evening(room) == before + FirstEvening(room);
  }

  lemma FullDayPrompted(before: seq<Entry>, room: string)
    requires Prompted(before) && before != [] && IsSeen(before[|before| - 1])
    ensures Prompted(before + FullDay(room))
    ensures (before + FullDay(room))[|before + FullDay(room)| - 1] == Said(Heard(GoToSleep))
  {
    MorningFollows(before[|before| - 1], room);
    PromptedOn(before, Morning(room));
    EveningFollows(Said(Heard(EnjoyResort)), room);
    PromptedOn(before + Morning(room), Evening(room));
    assert before + Morning(room) + Evening(room) == before + FullDay(room);
  }

  lemma AfterWaiting(days: seq<Entry>, wait: seq<Entry>, b: Booking, verdict: Option<bool>)
    requires Prompted(days) && days != [] && days[|days| - 1] == Said(Heard(GoToSleep))
    requires IsWholeWait(wait, b, true, verdict)
    ensures Prompted(days + wait) && IsSeen((days + wait)[|days + wait| - 1])
  {
    WaitFollows(days[|days| - 1], wait, b, verdict);
    PromptedOn(days, wait);
    WaitIsSeen(wait, b, true, verdict);
  }

  lemma DeparturePrompted(before: seq<Entry>)
    requires Prompted(before) && before != [] && IsSeen(before[|before| - 1])
    ensures Prompted(before + Departure())
    ensures (before + Departure())[|before + Departure()| - 1] == Said(Heard(LeaveCottage))
  {
    DepartureFollows(before[|before| - 1]);
    PromptedOn(before, Departure());
  }

  lemma ArrivalIsPrompted(entries: seq<Entry>, a: Arrival)
    requires MovingInBrokeOff([], entries, a)
    ensures Prompted(entries)
  {
    ArrivalPrompted(a);
    assert [] + MovingIn(a) == MovingIn(a) && [] + Greeting(NoTime, a.document) == Greeting(NoTime, a.document);
    if BrokeOff([], entries, MovingIn(a)) {
      PromptedWhereItBreaksOff([], entries, MovingIn(a));
    } else if BrokeOff([], entries, Greeting(NoTime, a.document)) {
      PromptedWhereItBreaksOff([], entries, Greeting(NoTime, a.document));
    }
  }

  lemma StayIsPrompted(entries: seq<Entry>, v: Visit)
    requires StayBrokeOff(MovingIn(v.arrival), entries, v.arrival.b, true, v.log)
    ensures Prompted(entries)
  {
    var arrived, b, wait := MovingIn(v.arrival), v.arrival.b, v.log.last;
    var room := b.cottageName;
    var days := arrived + AllDays(room, v.log.waits);
    ArrivalPrompted(v.arrival);
    DaysPrompted(arrived, b, v.log.waits, |v.log.waits|);
    if v.log == StayLog([], []) && BrokeOff(arrived, entries, FirstEvening(room)) {
      FirstEveningPrompted(arrived, room);
      PromptedWhereItBreaksOff(arrived, entries, FirstEvening(room));
    } else if IsWholeWait(wait, b, true, None) && entries == days + wait {
      AfterWaiting(days, wait, b, None);
    } else if IsWholeWait(wait, b, true, Some(false)) && BrokeOff(days + wait, entries, FullDay(room)) {
      AfterWaiting(days, wait, b, Some(false));
      FullDayPrompted(days + wait, room);
      PromptedWhereItBreaksOff(days + wait, entries, FullDay(room));
    } else {
      AfterWaiting(days, wait, b, Some(true));
      DeparturePrompted(days + wait);
      PromptedWhereItBreaksOff(days + wait, entries, Departure());
    }
  }

  lemma LeavingIsPrompted(v: Visit)
    requires EndedInTime(v.arrival.b, v.log)
    ensures var before, b := UntilDeparture(v.arrival.b, v), v.arrival.b;
            && Prompted(before + MovingOut(b, v.today, v.returned))
            && Prompted(before + (ReturningKey(NoTime, v.returned) + KeyBack(b.cottageName, v.returned)))
  {
    var b, days := v.arrival.b, MovingIn(v.arrival) + AllDays(v.arrival.b.cottageName, v.log.waits);
    ArrivalPrompted(v.arrival);
    DaysPrompted(MovingIn(v.arrival), b, v.log.waits, |v.log.waits|);
    AfterWaiting(days, v.log.last, b, Some(true));
    DeparturePrompted(days + v.log.last);
    var before := UntilDeparture(b, v);
    MovingOutFollows(before[|before| - 1], b, v.today, v.returned);
    PromptedOn(before, MovingOut(b, v.today, v.returned));
    PromptedOn(before, ReturningKey(NoTime, v.returned) + KeyBack(b.cottageName, v.returned));
  }

  /** In every session, completed or not, whatever is done or attempted is prompted by what came before: no order without
      the guest's word, no announcement without the hour, no key moved but the one named, no call at the reception but
      with what the guest has shown and for the day of the clock. */
  lemma NothingIsUnprompted(entries: seq<Entry>, booking: Option<Booking>, v: Visit)
    requires IsSession(entries, booking, v)
    ensures Prompted(entries)
  {
    if booking.None? {
      ArrivalIsPrompted(entries, v.arrival);
    } else if StayBrokeOff(MovingIn(v.arrival), entries, v.arrival.b, true, v.log) {
      StayIsPrompted(entries, v);
    } else {
      var before, b := UntilDeparture(v.arrival.b, v), v.arrival.b;
      var whole, undated := MovingOut(b, v.today, v.returned),
                            ReturningKey(NoTime, v.returned) + KeyBack(b.cottageName, v.returned);
      LeavingIsPrompted(v);
      if BrokeOff(before, entries, whole) {
        PromptedWhereItBreaksOff(before, entries, whole);
      } else if BrokeOff(before, entries, undated) {
        PromptedWhereItBreaksOff(before, entries, undated);
      }
    }
  }
}
