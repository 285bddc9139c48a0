/** A session seen from the resort: what it does there is a run of check-ins, key moves and a check-out. */
module SessionOccupancy {
  import opened Outcomes
  import opened Messages
  import opened Times
  import opened Bookings
  import opened CottageRepo
  import opened Clock
  import opened FrameAccounting
  import opened Journal
  import opened Itinerary
  import opened StayRecord
  import opened Visits
  import opened Reception
  import Occupancy
  import SessionStores

  /** The booking on which the session lodges after this entry. */
  function LodgerAfter(lodger: Option<Booking>, e: Entry): Option<Booking> {
    match e {
      case Admitted(_, b) => Some(b)
      case Done(call) => if call.CheckOut? then None else lodger
      case NotDone(call) => if call.CheckOut? then None else lodger
      case _ => lodger
    }
  }

  function Lodger(entries: seq<Entry>, k: nat): Option<Booking>
    requires k <= |entries|
  {
    if k == 0 then None else LodgerAfter(Lodger(entries, k - 1), entries[k - 1])
  }

  /** A check-in is tried only before the session lodges, and a check-out only on the booking it lodges on. */
  predicate InItsTurn(lodger: Option<Booking>, e: Entry) {
    match e {
      case Admitted(call, _) => call.IsCheckIn() && lodger.None?
      case Done(call) => !call.IsCheckIn() && (call.CheckOut? ==> lodger == Some(call.b))
      case NotDone(call) => (call.CheckOut? ==> lodger == Some(call.b)) && (call.IsCheckIn() ==> lodger.None?)
      case _ => true
    }
  }

  ghost predicate TurnAt(entries: seq<Entry>, k: nat)
    requires k < |entries|
  {
    InItsTurn(Lodger(entries, k), entries[k])
  }

  ghost predicate AllInTurn(entries: seq<Entry>) {
    forall k :: 0 <= k < |entries| ==> TurnAt(entries, k)
  }

  // ---------- every session takes its turns ----------

  /** The entry neither brings the session into a cottage nor out of it. */
  predicate Neutral(e: Entry) {
    && !e.Admitted? && (e.Done? ==> !e.call.CheckOut? && !e.call.IsCheckIn())
    && (e.NotDone? ==> !e.call.CheckOut? && !e.call.IsCheckIn())
  }

  ghost predicate AllNeutral(plan: seq<Entry>) {
    forall i :: 0 <= i < |plan| ==> Neutral(plan[i])
  }

  lemma {:induction false} LodgerOfPrefix(entries: seq<Entry>, more: seq<Entry>, k: nat)
    requires k <= |entries|
    ensures Lodger(entries + more, k) == Lodger(entries, k)
  {
    if k > 0 {
      LodgerOfPrefix(entries, more, k - 1);
    }
  }

  lemma OneMoreInTurn(entries: seq<Entry>, e: Entry)
    requires AllInTurn(entries) && InItsTurn(Lodger(entries, |entries|), e)
    ensures AllInTurn(entries + [e])
    ensures Lodger(entries + [e], |entries| + 1) == LodgerAfter(Lodger(entries, |entries|), e)
  {
    LodgerOfPrefix(entries, [e], |entries|);
    forall k | 0 <= k < |entries + [e]| ensures TurnAt(entries + [e], k) {
      if k < |entries| {
        assert TurnAt(entries, k);
        LodgerOfPrefix(entries, [e], k);
      }
    }
  }

  lemma {:induction false} NeutralInTurn(entries: seq<Entry>, plan: seq<Entry>)
    requires AllInTurn(entries) && AllNeutral(plan)
    ensures AllInTurn(entries + plan)
    ensures Lodger(entries + plan, |entries + plan|) == Lodger(entries, |entries|)
  {
    if plan == [] {
      assert entries + plan == entries;
    } else {
      var n := |plan| - 1;
      NeutralInTurn(entries, plan[..n]);
      OneMoreInTurn(entries + plan[..n], plan[n]);
      assert entries + plan[..n] + [plan[n]] == entries + plan;
    }
  }

  /** What is in turn to its end is in turn where it breaks off. */
  lemma BrokenOffInTurn(before: seq<Entry>, after: seq<Entry>, plan: seq<Entry>)
    requires AllInTurn(before + plan) && BrokeOff(before, after, plan)
    ensures AllInTurn(after)
  {
    var all, n := before + plan, |after| - |before| - 1;
    var done := before + plan[..n];
    assert done + plan[n..] == all && done + [Failing(plan[n])] == after;
    forall k | 0 <= k < |after| ensures TurnAt(after, k) {
      LodgerOfPrefix(done, [Failing(plan[n])], k);
      LodgerOfPrefix(done, plan[n..], k);
      assert TurnAt(all, k);
      assert if k < |done| then after[k] == all[k] else after[k] == Failing(all[k]);
    }
  }

  lemma QuietIsNeutral(plan: seq<Entry>)
    requires SessionStores.AllQuiet(plan)
    ensures AllNeutral(plan)
  {
  }

  lemma FindingInTurn(entries: seq<Entry>, a: Arrival)
    requires AllInTurn(entries) && Lodger(entries, |entries|).None?
    ensures var plan := Finding(a.document, a.today, a.number, a.b);
            AllInTurn(entries + plan) && Lodger(entries + plan, |entries + plan|) == Some(a.b)
  {
    var plan := Finding(a.document, a.today, a.number, a.b);
    if a.number.None? {
      OneMoreInTurn(entries, plan[0]);
    } else {
      OneMoreInTurn(entries, plan[0]);
      OneMoreInTurn(entries + [plan[0]], plan[1]);
      OneMoreInTurn(entries + [plan[0]] + [plan[1]], plan[2]);
      assert entries + [plan[0]] + [plan[1]] + [plan[2]] == entries + plan;
    }
  }

  lemma ArrivalInTurn(a: Arrival)
    ensures AllInTurn(MovingIn(a)) && Lodger(MovingIn(a), |MovingIn(a)|) == Some(a.b)
    ensures AllInTurn(Greeting(NoTime, a.document))
  {
    var greeting, handover := Greeting(At(a.today), a.document), Handover(a.b.cottageName, a.keyNumber);
    NeutralInTurn([], greeting);
    NeutralInTurn([], Greeting(NoTime, a.document));
    assert [] + greeting == greeting && [] + Greeting(NoTime, a.document) == Greeting(NoTime, a.document);
    FindingInTurn(greeting, a);
    NeutralInTurn(greeting + Finding(a.document, a.today, a.number, a.b), handover);
    assert greeting + Finding(a.document, a.today, a.number, a.b) + handover == MovingIn(a);
  }

  /** After the arrival the session lodges, through all the days of the stay. */
  lemma DaysInTurn(a: Arrival, b: Booking, waits: seq<seq<Entry>>)
    requires a.b == b && EndedEarly(waits, b, true)
    ensures var days := MovingIn(a) + AllDays(b.cottageName, waits);
            AllInTurn(days) && Lodger(days, |days|) == Some(b)
  {
    ArrivalInTurn(a);
    SessionStores.DaysAreQuiet(b, waits, |waits|);
    QuietIsNeutral(AllDays(b.cottageName, waits));
    NeutralInTurn(MovingIn(a), AllDays(b.cottageName, waits));
  }

  /** And so it does through one more wait, and what comes after it. */
  lemma WaitInTurn(days: seq<Entry>, wait: seq<Entry>, b: Booking, verdict: Option<bool>, plan: seq<Entry>)
    requires AllInTurn(days) && IsWholeWait(wait, b, true, verdict) && SessionStores.AllQuiet(plan)
    ensures AllInTurn(days + wait) && AllInTurn(days + wait + plan)
    ensures Lodger(days + wait + plan, |days + wait + plan|) == Lodger(days, |days|)
  {
    SessionStores.WaitIsQuiet(wait, b, true, verdict);
    QuietIsNeutral(wait);
    QuietIsNeutral(plan);
    NeutralInTurn(days, wait);
    NeutralInTurn(days + wait, plan);
  }

  lemma LeavingInTurn(b: Booking, v: Visit)
    requires v.arrival.b == b && EndedInTime(b, v.log)
    ensures var before := UntilDeparture(b, v);
            && AllInTurn(before + MovingOut(b, v.today, v.returned))
            && AllInTurn(before + (ReturningKey(NoTime, v.returned) + KeyBack(b.cottageName, v.returned)))
  {
    DaysInTurn(v.arrival, b, v.log.waits);
    SessionStores.PlansAreQuiet(b.cottageName);
    WaitInTurn(MovingIn(v.arrival) + AllDays(b.cottageName, v.log.waits), v.log.last, b, Some(true), Departure());
    MovingOutInTurn(UntilDeparture(b, v), b, v.today, v.returned);
  }

  lemma MovingOutInTurn(before: seq<Entry>, b: Booking, today: Time, keyNumber: string)
    requires AllInTurn(before) && Lodger(before, |before|) == Some(b)
    ensures AllInTurn(before + MovingOut(b, today, keyNumber))
    ensures AllInTurn(before + (ReturningKey(NoTime, keyNumber) + KeyBack(b.cottageName, keyNumber)))
  {
    var dated := ReturningKey(At(today), keyNumber) + KeyBack(b.cottageName, keyNumber);
    var settling, told := Settling(b, today), [Said(Told(CheckOutComplete))];
    NeutralInTurn(before, ReturningKey(NoTime, keyNumber) + KeyBack(b.cottageName, keyNumber));
    NeutralInTurn(before, dated);
    OneMoreInTurn(before + dated, settling[0]);
    NeutralInTurn(before + dated + settling, told);
    assert before + dated + settling + told == before + MovingOut(b, today, keyNumber);
  }

  lemma StayInTurn(entries: seq<Entry>, b: Booking, v: Visit)
    requires v.arrival.b == b && StayBrokeOff(MovingIn(v.arrival), entries, b, true, v.log)
    ensures AllInTurn(entries)
  {
    var room, wait := b.cottageName, v.log.last;
    var days := MovingIn(v.arrival) + AllDays(room, v.log.waits);
    DaysInTurn(v.arrival, b, v.log.waits);
    SessionStores.PlansAreQuiet(room);
    if v.log == StayLog([], []) && BrokeOff(MovingIn(v.arrival), entries, FirstEvening(room)) {
      BrokenOffInTurn(MovingIn(v.arrival), entries, FirstEvening(room));
    } else if IsWholeWait(wait, b, true, None) && entries == days + wait {
      WaitInTurn(days, wait, b, None, []);
    } else if IsWholeWait(wait, b, true, Some(false)) && BrokeOff(days + wait, entries, FullDay(room)) {
      WaitInTurn(days, wait, b, Some(false), FullDay(room));
      BrokenOffInTurn(days + wait, entries, FullDay(room));
    } else {
      WaitInTurn(days, wait, b, Some(true), Departure());
      BrokenOffInTurn(days + wait, entries, Departure());
    }
  }

  /** Every session, completed or not, checks in at most once, and checks out on the booking it checked in on. */
  lemma SessionsTakeTurns(entries: seq<Entry>, booking: Option<Booking>, v: Visit)
    requires IsSession(entries, booking, v)
    ensures AllInTurn(entries)
  {
    ArrivalInTurn(v.arrival);
    if booking.None? {
      assert [] + MovingIn(v.arrival) == MovingIn(v.arrival);
      assert [] + Greeting(NoTime, v.arrival.document) == Greeting(NoTime, v.arrival.document);
      if BrokeOff([], entries, MovingIn(v.arrival)) {
        BrokenOffInTurn([], entries, MovingIn(v.arrival));
      } else if BrokeOff([], entries, Greeting(NoTime, v.arrival.document)) {
        BrokenOffInTurn([], entries, Greeting(NoTime, v.arrival.document));
      }
    } else if StayBrokeOff(MovingIn(v.arrival), entries, booking.value, true, v.log) {
      StayInTurn(entries, booking.value, v);
    } else {
      DepartureInTurn(entries, booking.value, v);
    }
  }

  lemma DepartureInTurn(entries: seq<Entry>, b: Booking, v: Visit)
    requires v.arrival.b == b && EndedInTime(b, v.log)
    requires Completed(entries, b, v) || MovingOutBrokeOff(UntilDeparture(b, v), entries, b, v.today, v.returned)
    ensures AllInTurn(entries)
  {
    var before, whole := UntilDeparture(b, v), MovingOut(b, v.today, v.returned);
    var undated := ReturningKey(NoTime, v.returned) + KeyBack(b.cottageName, v.returned);
    LeavingInTurn(b, v);
    if BrokeOff(before, entries, whole) {
      BrokenOffInTurn(before, entries, whole);
    } else if BrokeOff(before, entries, undated) {
      BrokenOffInTurn(before, entries, undated);
    }
  }

  // ---------- the resort ----------

  /** The resort with the other sessions in it, and this one as far as it lodges. */
  function ResortWith(cs: seq<Cottage>, others: map<nat, Booking>, session: nat, lodger: Option<Booking>)
    : Occupancy.Resort
  {
    Occupancy.Resort(cs, if lodger.Some? then others[session := lodger.value] else others)
  }

  /** What the entry is to the resort. */
  function StepOf(session: nat, s: Scene, e: Entry, s': Scene): Occupancy.Step {
    match e {
      case Admitted(call, b) =>
        if call.IsCheckIn() then Occupancy.CheckIn(session, b, b.mainGuest, call.today, true) else Occupancy.Elsewhere
      case Done(ReceiveKey(room, keyNumber)) => Occupancy.MoveKey(room, Key(keyNumber, HeldByGuest))
      case Done(ReturnKey(room, keyNumber)) => Occupancy.MoveKey(room, Key(keyNumber, HeldByCottage))
      case Done(CheckOut(_, _)) => Occupancy.CheckOut(session, true)
      case NotDone(CheckOut(_, _)) => Occupancy.CheckOut(session, false)
      case NotDone(call) =>
        if call.IsCheckIn() && |s.desk.stranded| < |s'.desk.stranded| then
          var a := s'.desk.stranded[|s.desk.stranded|];
          Occupancy.CheckIn(session, a.b, a.guest, a.today, false)
        else Occupancy.Elsewhere
      case _ => Occupancy.Elsewhere
    }
  }

  lemma EntryIsAStep(o: Oracles, s: Scene, e: Entry, s': Scene, home: Occupancy.Home, session: nat,
                     others: map<nat, Booking>, lodger: Option<Booking>)
    requires Leads(o, s, e, s') && InItsTurn(lodger, e) && session !in others
    requires IsAtHome(home, e)
    requires Occupancy.Safe(home, ResortWith(s.desk.cottages, others, session, lodger))
    ensures Occupancy.Next(home, ResortWith(s.desk.cottages, others, session, lodger),
                           ResortWith(s'.desk.cottages, others, session, LodgerAfter(lodger, e)),
                           StepOf(session, s, e, s'))
  {
    match e {
      case Done(_) => AnswerIsAStep(o, s, e, s', home, session, others, lodger);
      case NotDone(_) => FailureIsAStep(o, s, e, s', home, session, others, lodger);
      case Admitted(_, _) =>
      case _ => NothingIsAStep(s.desk.cottages, home, session, others, lodger);
    }
  }

  lemma AnswerIsAStep(o: Oracles, s: Scene, e: Entry, s': Scene, home: Occupancy.Home, session: nat,
                      others: map<nat, Booking>, lodger: Option<Booking>)
    requires Leads(o, s, e, s') && InItsTurn(lodger, e) && session !in others && e.Done?
    ensures Occupancy.Next(home, ResortWith(s.desk.cottages, others, session, lodger),
                           ResortWith(s'.desk.cottages, others, session, LodgerAfter(lodger, e)),
                           StepOf(session, s, e, s'))
  {
    if e.call.CheckOut? {
      CheckOutIsAStep(s.desk, s'.desk, e.call.b, home, session, others, true);
    } else {
      var holder := if e.call.ReceiveKey? then HeldByGuest else HeldByCottage;
      KeyIsAStep(s.desk, s'.desk, e.call.room, Key(e.call.keyNumber, holder), home, session, others, lodger);
    }
  }

  lemma FailureIsAStep(o: Oracles, s: Scene, e: Entry, s': Scene, home: Occupancy.Home, session: nat,
                       others: map<nat, Booking>, lodger: Option<Booking>)
    requires Leads(o, s, e, s') && InItsTurn(lodger, e) && session !in others && e.NotDone?
    requires Occupancy.Safe(home, ResortWith(s.desk.cottages, others, session, lodger))
    ensures Occupancy.Next(home, ResortWith(s.desk.cottages, others, session, lodger),
                           ResortWith(s'.desk.cottages, others, session, LodgerAfter(lodger, e)),
                           StepOf(session, s, e, s'))
  {
    if e.call.CheckOut? {
      CheckOutIsAStep(s.desk, s'.desk, e.call.b, home, session, others, false);
    } else if e.call.IsCheckIn() {
      RefusalIsAStep(s.desk, s'.desk, home, session, others);
    } else {
      NothingIsAStep(s.desk.cottages, home, session, others, lodger);
    }
  }

  lemma NothingIsAStep(cs: seq<Cottage>, home: Occupancy.Home, session: nat, others: map<nat, Booking>,
                       lodger: Option<Booking>)
    requires Occupancy.Safe(home, ResortWith(cs, others, session, lodger))
    ensures Occupancy.Next(home, ResortWith(cs, others, session, lodger), ResortWith(cs, others, session, lodger),
                           Occupancy.Elsewhere)
  {
  }

  lemma KeyIsAStep(d: Desk, d': Desk, room: string, key: Key, home: Occupancy.Home, session: nat,
                   others: map<nat, Booking>, lodger: Option<Booking>)
    requires d'.cottages == WithKey(d.cottages, room, key)
    ensures Occupancy.Next(home, ResortWith(d.cottages, others, session, lodger),
                           ResortWith(d'.cottages, others, session, lodger), Occupancy.MoveKey(room, key))
  {
  }

  lemma CheckOutIsAStep(d: Desk, d': Desk, b: Booking, home: Occupancy.Home, session: nat, others: map<nat, Booking>,
                        ok: bool)
    requires CheckOutStep(d.cottages, d'.cottages, b, ok) && session !in others
    ensures Occupancy.Next(home, ResortWith(d.cottages, others, session, Some(b)),
                           ResortWith(d'.cottages, others, session, None), Occupancy.CheckOut(session, ok))
  {
    assert others[session := b] - {session} == others;
  }

  /** A check-in that failed changed nothing, or it is one that occupied a cottage. */
  lemma RefusalIsAStep(d: Desk, d': Desk, home: Occupancy.Home, session: nat, others: map<nat, Booking>)
    requires Stranding(d.cottages, d'.cottages, d.stranded, d'.stranded) && session !in others
    requires Occupancy.Safe(home, ResortWith(d.cottages, others, session, None))
    ensures |d.stranded| < |d'.stranded| ==>
              var a := d'.stranded[|d.stranded|];
              Occupancy.Next(home, ResortWith(d.cottages, others, session, None),
                             ResortWith(d'.cottages, others, session, None),
                             Occupancy.CheckIn(session, a.b, a.guest, a.today, false))
    ensures |d.stranded| >= |d'.stranded| ==>
              Occupancy.Next(home, ResortWith(d.cottages, others, session, None),
                             ResortWith(d'.cottages, others, session, None), Occupancy.Elsewhere)
  {
  }

  /** A booking that is checked in belongs to its cottage. */
  predicate IsAtHome(home: Occupancy.Home, e: Entry) {
    e.Admitted? ==> home(e.b.id) == e.b.cottageName
  }

  lemma EntryKeepsTheResortSafe(o: Oracles, s: Scene, e: Entry, s': Scene, home: Occupancy.Home, session: nat,
                                others: map<nat, Booking>, lodger: Option<Booking>)
    requires Leads(o, s, e, s') && InItsTurn(lodger, e) && session !in others
    requires IsAtHome(home, e)
    requires Occupancy.Safe(home, ResortWith(s.desk.cottages, others, session, lodger))
    ensures Occupancy.Safe(home, ResortWith(s'.desk.cottages, others, session, LodgerAfter(lodger, e)))
  {
    EntryIsAStep(o, s, e, s', home, session, others, lodger);
    Occupancy.StepIsSafe(home, ResortWith(s.desk.cottages, others, session, lodger),
                         ResortWith(s'.desk.cottages, others, session, LodgerAfter(lodger, e)),
                         StepOf(session, s, e, s'));
  }

  /** The resort in each scene of the session. */
  function ResortAt(history: seq<Scene>, entries: seq<Entry>, session: nat, others: map<nat, Booking>, k: nat)
    : Occupancy.Resort
    requires k <= |entries| && |history| == |entries| + 1
  {
    ResortWith(history[k].desk.cottages, others, session, Lodger(entries, k))
  }

  ghost predicate StepsAt(history: seq<Scene>, entries: seq<Entry>, home: Occupancy.Home, session: nat,
                          others: map<nat, Booking>, k: nat)
    requires k < |entries| && |history| == |entries| + 1
  {
    Occupancy.Next(home, ResortAt(history, entries, session, others, k),
                   ResortAt(history, entries, session, others, k + 1),
                   StepOf(session, history[k], entries[k], history[k + 1]))
  }

  lemma {:induction false} RecordIsARun(o: Oracles, opening: Scene, history: seq<Scene>, entries: seq<Entry>,
                                         home: Occupancy.Home, session: nat, others: map<nat, Booking>, n: nat)
    requires IsRecord(o, opening, history, entries) && AllInTurn(entries) && session !in others && n <= |entries|
    requires forall k :: 0 <= k < |entries| ==> IsAtHome(home, entries[k])
    requires Occupancy.Safe(home, Occupancy.Resort(opening.desk.cottages, others))
    ensures Occupancy.Safe(home, ResortAt(history, entries, session, others, n))
    ensures forall k :: 0 <= k < n ==> StepsAt(history, entries, home, session, others, k)
  {
    if n > 0 {
      RecordIsARun(o, opening, history, entries, home, session, others, n - 1);
      OneMoreStep(o, opening, history, entries, home, session, others, n - 1);
    }
  }

  /** What a session leaves on record, completed or broken off, is a run of check-ins, key moves and a check-out of the
      resort; so from a safe resort it disturbs no other session, whatever fails, and no two of them ever share a
      cottage. */
  lemma SessionIsARun(o: Oracles, opening: Scene, history: seq<Scene>, entries: seq<Entry>, booking: Option<Booking>,
                      v: Visit, home: Occupancy.Home, session: nat, others: map<nat, Booking>)
    requires IsRecord(o, opening, history, entries) && IsSession(entries, booking, v) && session !in others
    requires forall k :: 0 <= k < |entries| ==> IsAtHome(home, entries[k])
    requires Occupancy.Safe(home, Occupancy.Resort(opening.desk.cottages, others))
    ensures forall k :: 0 <= k < |entries| ==> StepsAt(history, entries, home, session, others, k)
    ensures forall k :: 0 <= k <= |entries| ==> Occupancy.Safe(home, ResortAt(history, entries, session, others, k))
  {
    SessionsTakeTurns(entries, booking, v);
    forall k | 0 <= k <= |entries| ensures Occupancy.Safe(home, ResortAt(history, entries, session, others, k)) {
      RecordIsARun(o, opening, history, entries, home, session, others, k);
    }
    RecordIsARun(o, opening, history, entries, home, session, others, |entries|);
  }

  lemma OneMoreStep(o: Oracles, opening: Scene, history: seq<Scene>, entries: seq<Entry>, home: Occupancy.Home,
                    session: nat, others: map<nat, Booking>, k: nat)
    requires IsRecord(o, opening, history, entries) && session !in others && k < |entries| && TurnAt(entries, k)
    requires IsAtHome(home, entries[k])
    requires Occupancy.Safe(home, ResortAt(history, entries, session, others, k))
    ensures Occupancy.Safe(home, ResortAt(history, entries, session, others, k + 1))
    ensures StepsAt(history, entries, home, session, others, k)
  {
    assert FollowsFrom(o, history, entries, k);
    assert Leads(o, history[k], entries[k], history[k + 1]);
    EntryIsAStep(o, history[k], entries[k], history[k + 1], home, session, others, Lodger(entries, k));
    EntryKeepsTheResortSafe(o, history[k], entries[k], history[k + 1], home, session, others, Lodger(entries, k));
  }
}
