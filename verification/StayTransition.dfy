/** Waiting for the next day of a stay: what the clock readings and the day-change events lead to. */
module StayTransition {
  import opened Outcomes
  import opened Times
  import opened Bookings
  import opened Clock
  import opened Journal

  predicate CheckoutReached(b: Booking, t: Time) {
    Day(t) >= Day(b.stayPeriod.checkOut)
  }

  /** What a wait can look at, and the record it keeps. There may be no clock. */
  datatype World = World(clock: Option<seq<Reading>>, wakes: seq<Wake>, entries: seq<Entry>)

  datatype Decision = Decision(result: Result<bool>, world: World)

  /** One look at the clock. A reading that is no time, and a missing clock, say no. */
  function Glance(w: World, b: Booking): Decision {
    if w.clock.None? then Decision(Success(false), w)
    else
      var reading := NextReading(w.clock.value);
      var w1 := w.(clock := Some(Later(w.clock.value)), entries := w.entries + [Looked(reading)]);
      match reading {
        case At(t) => Decision(Success(CheckoutReached(b, t)), w1)
        case NoTime => Decision(Success(false), w1)
        case Unavailable => Decision(Failure(ClockFailed), w1)
      }
  }

  /** The first day event decides, or a glance at the clock, on a tick of the ticker, that says yes. */
  function AwaitDay(w: World, b: Booking): Decision
    decreases |w.wakes|, 0
  {
    var wake := NextWake(w.wakes);
    var w1 := w.(wakes := LaterWakes(w.wakes), entries := w.entries + [Woke(wake)]);
    match wake {
      case ContextDone => Decision(Failure(Canceled), w1)
      case StreamClosed => Decision(Failure(DayStreamClosed), w1)
      case DayChange(t) => Decision(Success(CheckoutReached(b, t)), w1)
      case Ticker => Transition(w1, b)
    }
  }

  /** A glance first; unless it says yes, wait. A glance that fails is ignored. */
  function Transition(w: World, b: Booking): Decision
    decreases |w.wakes|, 1
  {
    var g := Glance(w, b);
    if g.result == Success(true) then g else AwaitDay(g.world, b)
  }

  // ---------- what a wait leaves on record ----------

  /** The entry decides nothing: a tick, or a reading that has not reached the check-out day. */
  predicate Idle(e: Entry, b: Booking) {
    || e == Woke(Ticker)
    || (e.Looked? && !(e.reading.At? && Day(e.reading.t) >= Day(b.stayPeriod.checkOut)))
  }

  /** A reading or a day event that reached the check-out day decides for the departure, an earlier day event for
      another day, and the end of the stream or of the context for nothing. */
  predicate Decides(e: Entry, b: Booking, verdict: Option<bool>) {
    match e {
      case Looked(At(t)) => Day(t) >= Day(b.stayPeriod.checkOut) && verdict == Some(true)
      case Woke(DayChange(t)) => verdict == Some(Day(t) >= Day(b.stayPeriod.checkOut))
      case Woke(StreamClosed) => verdict == None
      case Woke(ContextDone) => verdict == None
      case _ => false
    }
  }

  /** With a clock, there is a look at it at the start and after each tick, and at no other time; without, there is
      none. */
  predicate InTurn(entries: seq<Entry>, start: nat, i: nat, clocked: bool)
    requires start <= i < |entries|
  {
    entries[i].Looked? <==> clocked && (i == start || entries[i - 1] == Woke(Ticker))
  }

  /** From `start` on there is one whole wait: idle entries and then one that decides. */
  ghost predicate IsWait(entries: seq<Entry>, start: nat, b: Booking, clocked: bool, verdict: Option<bool>) {
    && start < |entries|
    && (forall i :: start <= i < |entries| - 1 ==> Idle(entries[i], b))
    && (forall i :: start <= i < |entries| ==> InTurn(entries, start, i, clocked))
    && Decides(entries[|entries| - 1], b, verdict)
  }

  /** From `start` on there is the beginning of a wait, with a look at the clock due next, or not. */
  ghost predicate IsWaiting(entries: seq<Entry>, start: nat, b: Booking, clocked: bool, lookDue: bool) {
    && start <= |entries|
    && (forall i :: start <= i < |entries| ==> Idle(entries[i], b))
    && (forall i :: start <= i < |entries| ==> InTurn(entries, start, i, clocked))
    && (lookDue <==> clocked && (start == |entries| || entries[|entries| - 1] == Woke(Ticker)))
  }

  function VerdictOf(r: Result<bool>): Option<bool> {
    if r.Success? then Some(r.value) else None
  }

  /** The last entry is a time of the clock on or after the check-out day, which means yes; or it is a day event, which
      means yes exactly when it is on or after the check-out day. */
  predicate DecidedBy(entries: seq<Entry>, b: Booking, reached: bool) {
    && entries != []
    && match entries[|entries| - 1] {
         case Looked(At(t)) => reached && Day(t) >= Day(b.stayPeriod.checkOut)
         case Woke(DayChange(t)) => reached <==> Day(t) >= Day(b.stayPeriod.checkOut)
         case _ => false
       }
  }

  lemma TransitionDecides(w: World, b: Booking)
    ensures var d := Transition(w, b);
            d.result.Success? ==> DecidedBy(d.world.entries, b, d.result.value)
  {
    TransitionIsAWait(w, b, |w.entries|);
  }

  lemma WaitGoesOn(entries: seq<Entry>, e: Entry, start: nat, b: Booking, clocked: bool, lookDue: bool)
    requires IsWaiting(entries, start, b, clocked, lookDue) && (e.Looked? <==> lookDue)
    ensures Idle(e, b) ==> IsWaiting(entries + [e], start, b, clocked, clocked && e == Woke(Ticker))
    ensures forall verdict :: Decides(e, b, verdict) ==> IsWait(entries + [e], start, b, clocked, verdict)
  {
    forall i | start <= i < |entries + [e]| ensures InTurn(entries + [e], start, i, clocked) {
      assert i < |entries| ==> InTurn(entries, start, i, clocked);
    }
  }

  lemma {:induction false} AwaitDayIsAWait(w: World, b: Booking, start: nat)
    requires IsWaiting(w.entries, start, b, w.clock.Some?, false)
    ensures var d := AwaitDay(w, b);
            && w.entries <= d.world.entries && |d.world.wakes| <= |w.wakes|
            && IsWait(d.world.entries, start, b, w.clock.Some?, VerdictOf(d.result))
            && (d.result == Success(false) ==> |d.world.wakes| < |w.wakes|)
    decreases |w.wakes|, 0
  {
    var wake := NextWake(w.wakes);
    WaitGoesOn(w.entries, Woke(wake), start, b, w.clock.Some?, false);
    if wake == Ticker {
      TransitionIsAWait(w.(wakes := LaterWakes(w.wakes), entries := w.entries + [Woke(wake)]), b, start);
    }
  }

  /** Every wait for the next day is one: it ends with the first thing seen that decides, and it decides as that
      says. */
  lemma {:induction false} TransitionIsAWait(w: World, b: Booking, start: nat)
    requires IsWaiting(w.entries, start, b, w.clock.Some?, w.clock.Some?)
    ensures var d := Transition(w, b);
            && w.entries <= d.world.entries && |d.world.wakes| <= |w.wakes|
            && IsWait(d.world.entries, start, b, w.clock.Some?, VerdictOf(d.result))
            && (d.result == Success(false) ==> |d.world.wakes| < |w.wakes|)
    decreases |w.wakes|, 1
  {
    var g := Glance(w, b);
    if w.clock.Some? {
      WaitGoesOn(w.entries, Looked(NextReading(w.clock.value)), start, b, true, true);
    }
    if g.result != Success(true) {
      AwaitDayIsAWait(g.world, b, start);
    }
  }
}
