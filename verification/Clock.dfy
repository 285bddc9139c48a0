/** The simulated clock and the notifications driven by it. */
module Clock {
  import opened Outcomes
  import opened Sequences
  import opened Times

  /** What the clock service has to say; after the last reading it is unavailable. */
  datatype Reading = At(t: Time) | NoTime | Unavailable

  class Clock {
    var readings: seq<Reading>

    constructor (readings: seq<Reading>)
      ensures this.readings == readings
    {
      this.readings := readings;
    }

    method Now() returns (r: Result<Option<Time>>)
      modifies this
      ensures r == NowFrom(old(readings)) && readings == Later(old(readings))
      ensures old(readings) != [] ==>
        && (forall t :: r == Success(Some(t)) <==> old(readings)[0] == At(t))
        && (r == Success(None) <==> old(readings)[0] == NoTime)
        && readings == old(readings)[1..]
      ensures old(readings) == [] || old(readings)[0] == Unavailable ==> r == Failure(ClockFailed)
    {
      if readings == [] {
        return Failure(ClockFailed);
      }
      r := Answer(readings[0]);
      readings := readings[1..];
    }
  }

  function Answer(reading: Reading): Result<Option<Time>> {
    match reading {
      case At(t) => Success(Some(t))
      case NoTime => Success(None)
      case Unavailable => Failure(ClockFailed)
    }
  }

  function NextReading(readings: seq<Reading>): Reading {
    if readings == [] then Unavailable else readings[0]
  }

  function NowFrom(readings: seq<Reading>): Result<Option<Time>> {
    Answer(NextReading(readings))
  }

  function Later(readings: seq<Reading>): seq<Reading> {
    if readings == [] then [] else readings[1..]
  }

  /** The position of the first event at that hour, or the length when there is none. */
  function FirstAtHour(events: seq<Time>, hour: int): (i: nat)
    ensures i <= |events|
    ensures i < |events| ==> HourOf(events[i]) == hour
    ensures forall j :: 0 <= j < i ==> HourOf(events[j]) != hour
  {
    First(events, (t: Time) => HourOf(t) == hour)
  }

  /** It is the first that comes within the hour after so many hours of its day. */
  lemma FirstWithinTheHour(events: seq<Time>, hour: int)
    ensures var i := FirstAtHour(events, hour);
            && (i < |events| ==> hour * HOUR <= events[i] % DAY < (hour + 1) * HOUR)
            && forall j :: 0 <= j < i ==> !(hour * HOUR <= events[j] % DAY < (hour + 1) * HOUR)
  {
    var i := FirstAtHour(events, hour);
    forall j | 0 <= j < |events|
      ensures HourOf(events[j]) == hour <==> hour * HOUR <= events[j] % DAY < (hour + 1) * HOUR
    {
      DaysAndHours(events[j], 0, hour);
    }
  }

  class NotificationService {
    /** The hour changes that will still reach this session, each at most once. */
    var hourChanges: seq<Time>

    constructor (hourChanges: seq<Time>)
      ensures this.hourChanges == hourChanges
    {
      this.hourChanges := hourChanges;
    }

    /** Drops hour changes until one falls in the hour, and passes that one on. */
    method HourNotification(hour: int) returns (r: Option<Time>)
      modifies this
      ensures var i := FirstAtHour(old(hourChanges), hour);
              if i < |old(hourChanges)| then
                r == Some(old(hourChanges)[i]) && hourChanges == old(hourChanges)[i + 1..]
              else r == None && hourChanges == []
      ensures r.Some? ==> hour * HOUR <= r.value % DAY < (hour + 1) * HOUR
      ensures forall j :: 0 <= j < |old(hourChanges)| - |hourChanges| - (if r.Some? then 1 else 0) ==>
                !(hour * HOUR <= old(hourChanges)[j] % DAY < (hour + 1) * HOUR)
    {
      FirstWithinTheHour(hourChanges, hour);
      var dropped := 0;
      while hourChanges != []
        invariant dropped <= |old(hourChanges)| && hourChanges == old(hourChanges)[dropped..]
        invariant forall j :: 0 <= j < dropped ==> HourOf(old(hourChanges)[j]) != hour
        decreases |hourChanges|
      {
        var eventTime := hourChanges[0];
        hourChanges := hourChanges[1..];
        if HourOf(eventTime) == hour {
          return Some(eventTime);
        }
        dropped := dropped + 1;
      }
      return None;
    }
  }

  // ---------- one wait after another ----------

  /** The hour changes left when the hours were waited for one after the other; none if one did not come. */
  function Serve(events: seq<Time>, hours: seq<int>): Option<seq<Time>>
    decreases |hours|
  {
    if hours == [] then Some(events)
    else
      var i := FirstAtHour(events, hours[0]);
      if i == |events| then None else Serve(events[i + 1..], hours[1..])
  }

  predicate Serves(before: seq<Time>, after: seq<Time>, hours: seq<int>) {
    Serve(before, hours) == Some(after)
  }

  lemma {:induction false} ServesThen(before: seq<Time>, mid: seq<Time>, after: seq<Time>,
                                      hours: seq<int>, more: seq<int>)
    requires Serves(before, mid, hours) && Serves(mid, after, more)
    ensures Serves(before, after, hours + more)
    decreases |hours|
  {
    if hours == [] {
      assert hours + more == more;
    } else {
      var all := hours + more;
      assert all[0] == hours[0] && all[1..] == hours[1..] + more;
      var rest := before[FirstAtHour(before, hours[0]) + 1..];
      assert Serve(before, all) == Serve(rest, all[1..]);
      ServesThen(rest, mid, after, hours[1..], more);
    }
  }

  /** An hour that does not come any more is not served. */
  lemma {:induction false} NotServed(before: seq<Time>, mid: seq<Time>, hours: seq<int>, hour: int)
    requires Serves(before, mid, hours) && FirstAtHour(mid, hour) == |mid|
    ensures Serve(before, hours + [hour]).None?
    decreases |hours|
  {
    if hours == [] {
      assert hours + [hour] == [hour];
    } else {
      var all := hours + [hour];
      assert all[0] == hours[0] && all[1..] == hours[1..] + [hour];
      NotServed(before[FirstAtHour(before, hours[0]) + 1..], mid, hours[1..], hour);
    }
  }

  function HoursOf(events: seq<Time>): seq<int> {
    seq(|events|, i requires 0 <= i < |events| => HourOf(events[i]))
  }

  /** The hours served are hours of events used up, in order: one event of its own for each. */
  lemma {:induction false} ServedHoursWereEvents(before: seq<Time>, after: seq<Time>, hours: seq<int>)
    returns (used: seq<Time>)
    requires Serves(before, after, hours)
    ensures before == used + after && Subsequence(hours, HoursOf(used))
    decreases |hours|
  {
    if hours == [] {
      used := [];
      EmptySubsequence(HoursOf(used));
    } else {
      var i := FirstAtHour(before, hours[0]);
      var later := ServedHoursWereEvents(before[i + 1..], after, hours[1..]);
      OneMoreServed(before, i, later, after, hours);
      used := before[..i] + [before[i]] + later;
    }
  }

  lemma OneMoreServed(before: seq<Time>, i: nat, later: seq<Time>, after: seq<Time>, hours: seq<int>)
    requires i < |before| && before[i + 1..] == later + after
    requires hours != [] && HourOf(before[i]) == hours[0] && Subsequence(hours[1..], HoursOf(later))
    ensures var used := before[..i] + [before[i]] + later;
            before == used + after && Subsequence(hours, HoursOf(used))
  {
    var used := before[..i] + [before[i]] + later;
    assert before == before[..i] + [before[i]] + before[i + 1..];
    assert before[..i] + [before[i]] + (later + after) == used + after;
    HoursOfUsed(before[..i], before[i], later);
    SubsequencePrepend(HoursOf(before[..i]), hours[0], hours[1..], HoursOf(later));
    assert [hours[0]] + hours[1..] == hours;
  }

  lemma HoursOfUsed(skipped: seq<Time>, t: Time, later: seq<Time>)
    ensures HoursOf(skipped + [t] + later) == HoursOf(skipped) + [HourOf(t)] + HoursOf(later)
  {
  }

  lemma HoursAround(events: seq<Time>, i: nat)
    requires i < |events|
    ensures HoursOf(events) == HoursOf(events[..i]) + [HoursOf(events)[i]] + HoursOf(events[i + 1..])
  {
  }

  /** How many events an hour needs. */
  lemma {:induction false} ServingTakesEvents(before: seq<Time>, after: seq<Time>, hours: seq<int>, hour: int)
    requires Serves(before, after, hours)
    ensures multiset(HoursOf(before))[hour] >= multiset(hours)[hour] + multiset(HoursOf(after))[hour]
    decreases |hours|
  {
    if hours != [] {
      var i := FirstAtHour(before, hours[0]);
      var rest := before[i + 1..];
      ServingTakesEvents(rest, after, hours[1..], hour);
      HoursAround(before, i);
      assert hours == [hours[0]] + hours[1..];
    }
  }

  /** What the stay's wait for the next day wakes up for. */
  datatype Wake = DayChange(t: Time) | StreamClosed | Ticker | ContextDone

  /** The times among clock readings. */
  function TimesOf(readings: seq<Reading>): seq<Time> {
    if readings == [] then []
    else (if readings[0].At? then [readings[0].t] else []) + TimesOf(readings[1..])
  }

  /** The day-change events among wake-ups. */
  function EventsOf(wakes: seq<Wake>): seq<Time> {
    if wakes == [] then []
    else (if wakes[0].DayChange? then [wakes[0].t] else []) + EventsOf(wakes[1..])
  }

  function NextWake(wakes: seq<Wake>): Wake {
    if wakes == [] then ContextDone else wakes[0]
  }

  function LaterWakes(wakes: seq<Wake>): seq<Wake> {
    if wakes == [] then [] else wakes[1..]
  }

  class DayStream {
    var wakes: seq<Wake>

    constructor (wakes: seq<Wake>)
      ensures this.wakes == wakes
    {
      this.wakes := wakes;
    }

    /** After the last entry the context is done. */
    method Select() returns (w: Wake)
      modifies this
      ensures w == NextWake(old(wakes)) && wakes == LaterWakes(old(wakes))
      ensures if old(wakes) == [] then w == ContextDone else old(wakes) == [w] + wakes
    {
      w := NextWake(wakes);
      wakes := LaterWakes(wakes);
    }
  }
}
