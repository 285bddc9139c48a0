/** What a stay leaves on record, from the first evening to the departure. */
module StayRecord {
  import opened Outcomes
  import opened Sequences
  import opened Bookings
  import opened Journal
  import opened Itinerary
  import opened StayTransition

  /** How a stay went: the waits that each were followed by a full day, and the one after them, if it came to that. */
  datatype StayLog = StayLog(waits: seq<seq<Entry>>, last: seq<Entry>)

  ghost predicate IsWholeWait(wait: seq<Entry>, b: Booking, clocked: bool, verdict: Option<bool>) {
    IsWait(wait, 0, b, clocked, verdict)
  }

  lemma WaitAlone(entries: seq<Entry>, start: nat, b: Booking, clocked: bool, verdict: Option<bool>)
    requires IsWait(entries, start, b, clocked, verdict)
    ensures IsWholeWait(entries[start..], b, clocked, verdict)
  {
    var wait := entries[start..];
    forall i | 0 <= i < |wait| ensures InTurn(wait, 0, i, clocked) {
      assert InTurn(entries, start, start + i, clocked);
    }
  }

  /** Each of the waits ended with a day event before the check-out day. */
  ghost predicate EndedEarly(waits: seq<seq<Entry>>, b: Booking, clocked: bool) {
    forall i :: 0 <= i < |waits| ==> IsWholeWait(waits[i], b, clocked, Some(false))
  }

  /** The first evening, and after each of the first `k` waits a full day. */
  function Days(room: string, waits: seq<seq<Entry>>, k: nat): seq<Entry>
    requires k <= |waits|
  {
    if k == 0 then FirstEvening(room) else Days(room, waits, k - 1) + waits[k - 1] + FullDay(room)
  }

  lemma {:induction false} DaysOfPrefix(room: string, waits: seq<seq<Entry>>, more: seq<seq<Entry>>, k: nat)
    requires k <= |waits|
    ensures Days(room, waits + more, k) == Days(room, waits, k)
  {
    if k > 0 {
      DaysOfPrefix(room, waits, more, k - 1);
    }
  }

  function AllDays(room: string, waits: seq<seq<Entry>>): seq<Entry> {
    Days(room, waits, |waits|)
  }

  lemma OneMoreDay(room: string, waits: seq<seq<Entry>>, wait: seq<Entry>)
    ensures AllDays(room, waits + [wait]) == AllDays(room, waits) + wait + FullDay(room)
  {
    DaysOfPrefix(room, waits, [wait], |waits|);
  }

  /** The first evening, full days as long as the waits end early, and then a wait that ended as `verdict` says. */
  ghost predicate WaitedOn(before: seq<Entry>, after: seq<Entry>, b: Booking, clocked: bool, log: StayLog,
                           verdict: Option<bool>)
  {
    && EndedEarly(log.waits, b, clocked) && IsWholeWait(log.last, b, clocked, verdict)
    && after == before + AllDays(b.cottageName, log.waits) + log.last
  }

  /** One after the other: the first evening, full days as long as the waits end early, and the departure as soon as one
      ends with the check-out day reached. */
  ghost predicate Stayed(before: seq<Entry>, after: seq<Entry>, b: Booking, clocked: bool, log: StayLog) {
    && EndedEarly(log.waits, b, clocked) && IsWholeWait(log.last, b, clocked, Some(true))
    && after == before + AllDays(b.cottageName, log.waits) + log.last + Departure()
  }

  /** The same, up to where something failed: in the first evening, in a wait, in a full day or in the departure. */
  ghost predicate StayBrokeOff(before: seq<Entry>, after: seq<Entry>, b: Booking, clocked: bool, log: StayLog) {
    var days := before + AllDays(b.cottageName, log.waits);
    && EndedEarly(log.waits, b, clocked)
    && (|| (log == StayLog([], []) && BrokeOff(before, after, FirstEvening(b.cottageName)))
        || (IsWholeWait(log.last, b, clocked, None) && after == days + log.last)
        || (IsWholeWait(log.last, b, clocked, Some(false)) && BrokeOff(days + log.last, after, FullDay(b.cottageName)))
        || (IsWholeWait(log.last, b, clocked, Some(true)) && BrokeOff(days + log.last, after, Departure())))
  }

  ghost predicate Went(before: seq<Entry>, after: seq<Entry>, b: Booking, clocked: bool, log: StayLog, ok: bool) {
    if ok then Stayed(before, after, b, clocked, log) else StayBrokeOff(before, after, b, clocked, log)
  }

  lemma FirstWait(before: seq<Entry>, evening: seq<Entry>, wait: seq<Entry>, b: Booking, clocked: bool,
                  verdict: Option<bool>)
    requires evening == before + FirstEvening(b.cottageName) && IsWholeWait(wait, b, clocked, verdict)
    ensures WaitedOn(before, evening + wait, b, clocked, StayLog([], wait), verdict)
  {
  }

  lemma AnotherDay(before: seq<Entry>, morning: seq<Entry>, night: seq<Entry>, wait: seq<Entry>, b: Booking,
                   clocked: bool, log: StayLog, verdict: Option<bool>)
    requires WaitedOn(before, morning, b, clocked, log, Some(false)) && night == morning + FullDay(b.cottageName)
    requires IsWholeWait(wait, b, clocked, verdict)
    ensures WaitedOn(before, night + wait, b, clocked, StayLog(log.waits + [log.last], wait), verdict)
  {
    OneMoreDay(b.cottageName, log.waits, log.last);
    var days := AllDays(b.cottageName, log.waits);
    Regroup(before, days, log.last);
    Regroup(before, days + log.last, FullDay(b.cottageName));
  }

  lemma BrokeOffInADay(before: seq<Entry>, morning: seq<Entry>, after: seq<Entry>, b: Booking, clocked: bool,
                       log: StayLog)
    requires WaitedOn(before, morning, b, clocked, log, Some(false))
    requires BrokeOff(morning, after, FullDay(b.cottageName))
    ensures StayBrokeOff(before, after, b, clocked, log)
  {
  }

  lemma NoMoreDays(before: seq<Entry>, after: seq<Entry>, b: Booking, clocked: bool, log: StayLog,
                   checkoutReached: Result<bool>)
    requires WaitedOn(before, after, b, clocked, log, VerdictOf(checkoutReached))
    requires checkoutReached != Success(false)
    ensures if checkoutReached.Success? then WaitedOn(before, after, b, clocked, log, Some(true))
            else StayBrokeOff(before, after, b, clocked, log)
  {
  }
}
