/** What the connection, the clock, the days and the reception decide about a session, as things stand when it opens. */
module Supplies {
  import opened Outcomes
  import opened Messages
  import opened Times
  import opened Bookings
  import opened CottageRepo
  import opened Clock
  import opened FrameAccounting
  import opened Journal
  import opened Itinerary
  import opened StayTransition
  import opened StayRecord
  import opened SessionWords
  import opened Totals
  import opened Visits
  import opened BreakingOff
  import opened Reception
  import ChatConnection
  import Timing

  // ---------- the conversation ----------

  function AfterTalk(env: ChatConnection.Env, chat: ChatState, talk: seq<Talk>): ChatState {
    if talk == [] then chat
    else After(env, AfterTalk(env, chat, talk[..|talk| - 1]), OpOf(talk[|talk| - 1]))
  }

  ghost predicate SaysAt(env: ChatConnection.Env, chat: ChatState, talk: seq<Talk>, i: nat)
    requires i < |talk|
  {
    var st := AfterTalk(env, chat, talk[..i]);
    After(env, st, OpOf(talk[i])).talk == st.talk + [talk[i]]
  }

  /** The conversation is held on this connection when its operations are tried one after the other. */
  ghost predicate Says(env: ChatConnection.Env, chat: ChatState, talk: seq<Talk>) {
    forall i :: 0 <= i < |talk| ==> SaysAt(env, chat, talk, i)
  }

  /** The same operations, as far as the first goes. */
  predicate SameOps(t: seq<Talk>, t': seq<Talk>) {
    |t| <= |t'| && forall i :: 0 <= i < |t| ==> OpOf(t[i]) == OpOf(t'[i])
  }

  lemma SameOpsBoth(a: seq<Talk>, b: seq<Talk>, a': seq<Talk>, b': seq<Talk>)
    requires SameOps(a, a') && |a| == |a'| && SameOps(b, b')
    ensures SameOps(a + b, a' + b')
  {
  }

  ghost predicate NothingUnsaid(entries: seq<Entry>, n: nat)
    requires n <= |entries|
  {
    forall i :: 0 <= i < n ==> !entries[i].Unsaid?
  }

  /** The connection decides what is said: what has been said so far is what it was hoped to be. */
  lemma {:induction false} TalkIsAsHoped(o: Oracles, opening: Scene, history: seq<Scene>, entries: seq<Entry>, n: nat,
                                         hoped: seq<Talk>)
    requires IsRecord(o, opening, history, entries) && n <= |entries| && NothingUnsaid(entries, n)
    requires Says(o.env, opening.chat, hoped) && SameOps(TotalTo(entries, n).talk, hoped)
    ensures TotalTo(entries, n).talk <= hoped
    ensures history[n].chat == AfterTalk(o.env, opening.chat, TotalTo(entries, n).talk)
  {
    if n > 0 {
      var t, e := TotalTo(entries, n - 1).talk, entries[n - 1];
      assert SameOps(t, hoped);
      TalkIsAsHoped(o, opening, history, entries, n - 1, hoped);
      assert FollowsFrom(o, history, entries, n - 1);
      assert Leads(o, history[n - 1], e, history[n]);
      if e.Said? {
        OneMoreSaid(o.env, opening.chat, history[n - 1].chat, history[n].chat, t, e.talk, hoped);
      }
    }
  }

  lemma OneMoreSaid(env: ChatConnection.Env, chat: ChatState, before: ChatState, after: ChatState, t: seq<Talk>,
                    x: Talk, hoped: seq<Talk>)
    requires Says(env, chat, hoped) && t <= hoped && SameOps(t + [x], hoped) && before == AfterTalk(env, chat, t)
    requires after == After(env, before, OpOf(x)) && after.talk == before.talk + [x]
    ensures t + [x] <= hoped && after == AfterTalk(env, chat, t + [x])
  {
    assert (t + [x])[..|t|] == t && (t + [x])[|t|] == x;
    assert SaysAt(env, chat, hoped, |t|) && hoped[..|t|] == t;
    assert after.talk[|before.talk|] == x == hoped[|t|];
  }

  /** What was said is what the connection carries. */
  lemma {:induction false} RecordSays(o: Oracles, opening: Scene, history: seq<Scene>, entries: seq<Entry>, n: nat)
    requires IsRecord(o, opening, history, entries) && n <= |entries| && NothingUnsaid(entries, n)
    ensures Says(o.env, opening.chat, TotalTo(entries, n).talk)
    ensures history[n].chat == AfterTalk(o.env, opening.chat, TotalTo(entries, n).talk)
  {
    if n > 0 {
      var t, e := TotalTo(entries, n - 1).talk, entries[n - 1];
      RecordSays(o, opening, history, entries, n - 1);
      assert FollowsFrom(o, history, entries, n - 1);
      EntrySays(o, opening.chat, history[n - 1], e, history[n], t);
      TalkWith(TotalTo(entries, n - 1), e);
    }
  }

  lemma EntrySays(o: Oracles, chat: ChatState, s: Scene, e: Entry, s': Scene, t: seq<Talk>)
    requires Leads(o, s, e, s') && !e.Unsaid? && Says(o.env, chat, t) && s.chat == AfterTalk(o.env, chat, t)
    ensures var more := if e.Said? then t + [e.talk] else t;
            Says(o.env, chat, more) && s'.chat == AfterTalk(o.env, chat, more)
  {
    if e.Said? {
      SaysMore(o.env, chat, s.chat, s'.chat, t, e.talk);
    }
  }

  lemma SaysMore(env: ChatConnection.Env, chat: ChatState, before: ChatState, after: ChatState, t: seq<Talk>, x: Talk)
    requires Says(env, chat, t) && before == AfterTalk(env, chat, t)
    requires after == After(env, before, OpOf(x)) && after.talk == before.talk + [x]
    ensures Says(env, chat, t + [x]) && after == AfterTalk(env, chat, t + [x])
  {
    var more := t + [x];
    assert more[..|t|] == t && more[|t|] == x;
    forall i | 0 <= i < |more| ensures SaysAt(env, chat, more, i) {
      if i < |t| {
        assert SaysAt(env, chat, t, i) && more[..i] == t[..i];
      }
    }
  }

  /** What was hoped to be said next does not stay unsaid. */
  lemma NotUnsaid(o: Oracles, opening: Scene, history: seq<Scene>, entries: seq<Entry>, n: nat, hoped: seq<Talk>,
                  op: Operation)
    requires IsRecord(o, opening, history, entries) && n < |entries| && NothingUnsaid(entries, n)
    requires Says(o.env, opening.chat, hoped) && SameOps(TotalTo(entries, n).talk, hoped)
    requires |TotalTo(entries, n).talk| < |hoped| && OpOf(hoped[|TotalTo(entries, n).talk|]) == op
    ensures entries[n] != Unsaid(op)
  {
    var t := TotalTo(entries, n).talk;
    TalkIsAsHoped(o, opening, history, entries, n, hoped);
    assert FollowsFrom(o, history, entries, n);
    assert SaysAt(o.env, opening.chat, hoped, |t|) && hoped[..|t|] == t;
  }

  lemma OpsOfSession(d: string, n: Option<string>, g: string, r: string, d': string, n': Option<string>, g': string,
                     r': string, k: nat)
    requires n.Some? == n'.Some?
    ensures SameOps(TalkOfSession(d, n, g, k, r), TalkOfSession(d', n', g', k, r'))
  {
    var stay := StayTalk(k) + DEPARTURE;
    SameOpsBoth(CheckInTalk(d, n, g), stay, CheckInTalk(d', n', g'), stay);
    SameOpsBoth(CheckInTalk(d, n, g) + stay, CheckOutTalk(r), CheckInTalk(d', n', g') + stay, CheckOutTalk(r'));
    assert CheckInTalk(d, n, g) + stay + CheckOutTalk(r) == TalkOfSession(d, n, g, k, r);
    assert CheckInTalk(d', n', g') + stay + CheckOutTalk(r') == TalkOfSession(d', n', g', k, r');
  }

  // ---------- what was done, and what comes next ----------

  /** Where a session broke off, what it did adds up to a beginning of the whole, also with what comes next. */
  lemma AheadInWhole(entries: seq<Entry>, v: Visit)
    requires BrokeOffIn(entries, v)
    ensures var n, k := |entries| - 1, |v.log.waits|;
            && n < |Whole(v)| && entries[..n] == Whole(v)[..n] && CanFail(Whole(v)[n])
            && entries[n] == Failing(Whole(v)[n])
            && var ahead := TotalTo(entries, n).With(Whole(v)[n]);
               && ahead.talk <= TalkOfSession(v.arrival.document, v.arrival.number, v.arrival.keyNumber, k, v.returned)
               && ahead.hours <= StayMeals(k)
  {
    var n, whole := |entries| - 1, Whole(v);
    BrokeOffAt(entries, whole);
    TotalAlike(entries, whole, n);
    TotalGrows(whole, n + 1, |whole|);
    CompletedSpells(whole, v.arrival.b, v);
  }

  lemma BrokeOffAt(entries: seq<Entry>, whole: seq<Entry>)
    requires BrokeOff([], entries, whole)
    ensures var n := |entries| - 1;
            && 0 <= n < |whole| && entries[..n] == whole[..n] && CanFail(whole[n])
            && entries[n] == Failing(whole[n])
  {
    assert entries == [] + whole[..|entries| - 1] + [Failing(whole[|entries| - 1])];
  }

  lemma {:induction false} ServedSoFar(events: seq<Time>, hours: seq<int>, more: seq<int>)
    requires Serve(events, hours + more).Some?
    ensures Serve(events, hours).Some?
    decreases |hours|
  {
    if hours != [] {
      assert (hours + more)[1..] == hours[1..] + more && (hours + more)[0] == hours[0];
      ServedSoFar(events[FirstAtHour(events, hours[0]) + 1..], hours[1..], more);
    }
  }

  // ---------- entries of a session that goes on ----------

  /** After this entry a session goes on. */
  predicate GoesOn(e: Entry) {
    match e {
      case Unsaid(_) => false
      case NeverCame(_) => false
      case NotOrdered(_) => false
      case NotDone(call) => call.CheckInByDocument?
      case Woke(wake) => wake == Ticker || wake.DayChange?
      case _ => true
    }
  }

  ghost predicate AllGoOn(plan: seq<Entry>) {
    forall i :: 0 <= i < |plan| ==> GoesOn(plan[i])
  }

  lemma WaitGoesOnToItsEnd(wait: seq<Entry>, b: Booking, verdict: bool)
    requires IsWholeWait(wait, b, true, Some(verdict))
    ensures AllGoOn(wait)
  {
    forall i | 0 <= i < |wait| ensures GoesOn(wait[i]) {
      assert i < |wait| - 1 ==> Idle(wait[i], b);
    }
  }

  lemma {:induction false} DaysGoOn(b: Booking, waits: seq<seq<Entry>>, k: nat)
    requires k <= |waits| && EndedEarly(waits, b, true)
    ensures AllGoOn(Days(b.cottageName, waits, k))
  {
    if k > 0 {
      DaysGoOn(b, waits, k - 1);
      WaitGoesOnToItsEnd(waits[k - 1], b, false);
    }
  }

  lemma ArrivalGoesOn(a: Arrival)
    ensures AllGoOn(MovingIn(a))
  {
  }

  lemma WholeGoesOn(v: Visit)
    requires EndedInTime(v.arrival.b, v.log)
    ensures AllGoOn(Whole(v))
  {
    var b := v.arrival.b;
    ArrivalGoesOn(v.arrival);
    DaysGoOn(b, v.log.waits, |v.log.waits|);
    WaitGoesOnToItsEnd(v.log.last, b, true);
    assert AllGoOn(MovingOut(b, v.today, v.returned)) && AllGoOn(Departure());
  }

  // ---------- the clock ----------

  /** How many more looks at the clock than wake-ups there were. */
  function Balance(entries: seq<Entry>, k: nat): int
    requires k <= |entries|
  {
    if k == 0 then 0
    else Balance(entries, k - 1) + if entries[k - 1].Looked? then 1 else if entries[k - 1].Woke? then -1 else 0
  }

  lemma {:induction false} BalanceOfPrefix(entries: seq<Entry>, more: seq<Entry>, k: nat)
    requires k <= |entries|
    ensures Balance(entries + more, k) == Balance(entries, k)
  {
    if k > 0 {
      BalanceOfPrefix(entries, more, k - 1);
    }
  }

  lemma {:induction false} BalanceFrom(entries: seq<Entry>, more: seq<Entry>, k: nat)
    requires k <= |more|
    ensures Balance(entries + more, |entries| + k) == Balance(entries, |entries|) + Balance(more, k)
  {
    if k == 0 {
      BalanceOfPrefix(entries, more, |entries|);
    } else {
      BalanceFrom(entries, more, k - 1);
    }
  }

  lemma {:induction false} UnseeingBalance(plan: seq<Entry>, k: nat)
    requires k <= |plan| && Timing.Unseeing(plan)
    ensures Balance(plan, k) == 0
  {
    if k > 0 {
      UnseeingBalance(plan, k - 1);
    }
  }

  /** A wait looks at the clock once, and once more after each tick. */
  lemma {:induction false} WaitBalance(wait: seq<Entry>, b: Booking, verdict: bool, k: nat)
    requires IsWholeWait(wait, b, true, Some(verdict)) && 0 < k <= |wait|
    ensures Balance(wait, k) <= if wait[k - 1].Woke? then 0 else 1
  {
    WaitIsSeen(wait, b, true, Some(verdict));
    assert InTurn(wait, 0, k - 1, true);
    if k > 1 {
      WaitBalance(wait, b, verdict, k - 1);
    }
  }

  /** At no point are there more than `c` looks at the clock too many. */
  ghost predicate Under(entries: seq<Entry>, c: int) {
    forall k :: 0 <= k <= |entries| ==> Balance(entries, k) <= c
  }

  lemma UnderBoth(a: seq<Entry>, b: seq<Entry>, c: int, end: int)
    requires Under(a, c) && Balance(a, |a|) <= end && Under(b, c - end)
    ensures Under(a + b, c) && Balance(a + b, |a + b|) <= end + Balance(b, |b|)
  {
    forall k | 0 <= k <= |a + b| ensures Balance(a + b, k) <= c {
      if k <= |a| {
        BalanceOfPrefix(a, b, k);
      } else {
        BalanceFrom(a, b, k - |a|);
      }
    }
    BalanceFrom(a, b, |b|);
  }

  lemma UnseeingUnder(plan: seq<Entry>)
    requires Timing.Unseeing(plan)
    ensures Under(plan, 0) && Balance(plan, |plan|) == 0
  {
    forall k | 0 <= k <= |plan| ensures Balance(plan, k) == 0 {
      UnseeingBalance(plan, k);
    }
  }

  lemma WaitUnder(wait: seq<Entry>, b: Booking, verdict: bool)
    requires IsWholeWait(wait, b, true, Some(verdict))
    ensures Under(wait, 1) && Balance(wait, |wait|) <= if verdict then 1 else 0
  {
    forall k | 0 <= k <= |wait| ensures Balance(wait, k) <= 1 {
      if k > 0 {
        WaitBalance(wait, b, verdict, k);
      }
    }
    WaitBalance(wait, b, verdict, |wait|);
  }

  lemma {:induction false} DaysUnder(b: Booking, waits: seq<seq<Entry>>, k: nat)
    requires k <= |waits| && EndedEarly(waits, b, true)
    ensures var days := Days(b.cottageName, waits, k); Under(days, 1) && Balance(days, |days|) <= 0
  {
    var room := b.cottageName;
    if k == 0 {
      UnseeingUnder(FirstEvening(room));
    } else {
      var days := Days(room, waits, k - 1);
      DaysUnder(b, waits, k - 1);
      WaitUnder(waits[k - 1], b, false);
      UnseeingUnder(FullDay(room));
      UnderBoth(days, waits[k - 1], 1, 0);
      UnderBoth(days + waits[k - 1], FullDay(room), 1, 0);
    }
  }

  lemma OneLookUnder(plan: seq<Entry>, rest: seq<Entry>)
    requires |plan| <= 2 && (forall i, j :: 0 <= i < j < |plan| ==> !plan[i].Looked? || !plan[j].Looked?)
    requires Timing.Unseeing(rest) && forall i :: 0 <= i < |plan| ==> !plan[i].Woke?
    ensures Under(plan + rest, 1) && Balance(plan + rest, |plan + rest|) <= 1
  {
    assert Balance(plan, 0) == 0;
    assert |plan| > 0 ==> Balance(plan, 1) == Balance(plan, 0) + if plan[0].Looked? then 1 else 0;
    UnseeingUnder(rest);
    UnderBoth(plan, rest, 1, 1);
  }

  /** In a whole session there are at most three looks at the clock more than wake-ups. */
  lemma WholeUnder(v: Visit)
    requires EndedInTime(v.arrival.b, v.log)
    ensures Under(Whole(v), 3)
  {
    var b, a, days := v.arrival.b, v.arrival, AllDays(v.arrival.b.cottageName, v.log.waits);
    var arrived, left := MovingIn(a), MovingOut(b, v.today, v.returned);
    assert arrived == arrived[..2] + arrived[2..] && left == left[..1] + left[1..];
    OneLookUnder(arrived[..2], arrived[2..]);
    DaysUnder(b, v.log.waits, |v.log.waits|);
    WaitUnder(v.log.last, b, true);
    UnseeingUnder(Departure());
    OneLookUnder(left[..1], left[1..]);
    UnderMore(arrived, 1, 3);
    UnderBoth(arrived, days, 3, 1);
    UnderBoth(arrived + days, v.log.last, 3, 1);
    UnderBoth(arrived + days + v.log.last, Departure(), 3, 2);
    UnderBoth(UntilDeparture(b, v), left, 3, 2);
  }

  lemma UnderMore(entries: seq<Entry>, c: int, d: int)
    requires Under(entries, c) && c <= d
    ensures Under(entries, d)
  {
  }

  predicate AllTimes(readings: seq<Reading>) {
    forall i :: 0 <= i < |readings| ==> readings[i].At?
  }

  /** As many readings are left as there were, less the looks, and so for the wake-ups. */
  lemma {:induction false} ReadingsLeft(o: Oracles, opening: Scene, history: seq<Scene>, entries: seq<Entry>, n: nat)
    requires IsRecord(o, opening, history, entries) && n <= |entries| && AllTimes(opening.readings)
    requires forall i :: 0 <= i < n ==> GoesOn(entries[i])
    ensures AllTimes(history[n].readings)
    ensures |history[n].readings| - |history[n].wakes|
            >= |opening.readings| - |opening.wakes| - Balance(entries, n)
  {
    if n > 0 {
      ReadingsLeft(o, opening, history, entries, n - 1);
      assert FollowsFrom(o, history, entries, n - 1);
    }
  }

  // ---------- the length of the stay ----------

  /** How many waits for the next day end before the check-out day is reached, with these readings and wake-ups. */
  function StayLength(readings: seq<Reading>, wakes: seq<Wake>, b: Booking): nat
    decreases |wakes|
  {
    var w := World(Some(readings), wakes, []);
    TransitionIsAWait(w, b, 0);
    var d := Transition(w, b);
    if d.result == Success(false) && d.world.clock.Some? then 1 + StayLength(d.world.clock.value, d.world.wakes, b)
    else 0
  }

  /** Whether the waits go on until the check-out day is reached. */
  predicate StayEnds(readings: seq<Reading>, wakes: seq<Wake>, b: Booking)
    decreases |wakes|
  {
    var w := World(Some(readings), wakes, []);
    TransitionIsAWait(w, b, 0);
    var d := Transition(w, b);
    if d.result == Success(false) && d.world.clock.Some? then StayEnds(d.world.clock.value, d.world.wakes, b)
    else d.result == Success(true)
  }

  /** What the wait that is on record up to `j` comes to from `i` on. */
  ghost predicate Sees(history: seq<Scene>, j: nat, d: Decision, verdict: Option<bool>)
    requires j < |history|
  {
    && VerdictOf(d.result) == verdict && d.world.clock == Some(history[j].readings)
    && d.world.wakes == history[j].wakes
  }

  lemma {:induction false} RestOfWait(o: Oracles, opening: Scene, history: seq<Scene>, entries: seq<Entry>, start: nat,
                                      i: nat, b: Booking, verdict: Option<bool>, es: seq<Entry>)
    requires IsRecord(o, opening, history, entries) && start <= i < |entries|
    requires IsWait(entries, start, b, true, verdict)
    ensures var w := World(Some(history[i].readings), history[i].wakes, es);
            var due := i == start || entries[i - 1] == Woke(Ticker);
            Sees(history, |entries|, if due then Transition(w, b) else AwaitDay(w, b), verdict)
    decreases |entries| - i
  {
    assert FollowsFrom(o, history, entries, i);
    assert InTurn(entries, start, i, true);
    if i < |entries| - 1 {
      assert Idle(entries[i], b);
      RestOfWait(o, opening, history, entries, start, i + 1, b, verdict, es + [entries[i]]);
    }
  }

  lemma RecordPrefix(o: Oracles, opening: Scene, history: seq<Scene>, entries: seq<Entry>, n: nat)
    requires IsRecord(o, opening, history, entries) && n <= |entries|
    ensures IsRecord(o, opening, history[..n + 1], entries[..n])
  {
    var history', entries' := history[..n + 1], entries[..n];
    forall k | 0 <= k < n ensures FollowsFrom(o, history', entries', k) {
      assert FollowsFrom(o, history, entries, k);
    }
  }

  lemma WaitInPlace(entries: seq<Entry>, before: seq<Entry>, wait: seq<Entry>, b: Booking, verdict: Option<bool>)
    requires entries == before + wait && IsWholeWait(wait, b, true, verdict)
    ensures IsWait(entries, |before|, b, true, verdict)
  {
    var start := |before|;
    forall i | start <= i < |entries| ensures InTurn(entries, start, i, true) {
      assert InTurn(wait, 0, i - start, true);
    }
    forall i | start <= i < |entries| && i < |entries| - 1 ensures Idle(entries[i], b) {
      assert Idle(wait[i - start], b);
    }
  }

  /** A wait on record is the wait that the readings and wake-ups before it lead to, and it leaves those after it. */
  lemma WaitIsTransition(o: Oracles, opening: Scene, history: seq<Scene>, entries: seq<Entry>, before: seq<Entry>,
                         wait: seq<Entry>, b: Booking, verdict: Option<bool>)
    requires IsRecord(o, opening, history, entries) && before + wait <= entries
    requires IsWholeWait(wait, b, true, verdict)
    ensures var i, j := |before|, |before + wait|;
            Sees(history, j, Transition(World(Some(history[i].readings), history[i].wakes, []), b), verdict)
  {
    var i, j := |before|, |before + wait|;
    assert entries[..j] == before + wait;
    WaitInPlace(entries[..j], before, wait, b, verdict);
    RecordPrefix(o, opening, history, entries, j);
    RestOfWait(o, opening, history[..j + 1], entries[..j], i, i, b, verdict, []);
  }

  lemma {:induction false} SightKept(o: Oracles, opening: Scene, history: seq<Scene>, entries: seq<Entry>, i: nat,
                                     j: nat)
    requires IsRecord(o, opening, history, entries) && i <= j <= |entries|
    requires forall k :: i <= k < j ==> !IsSeen(entries[k])
    ensures history[j].readings == history[i].readings && history[j].wakes == history[i].wakes
  {
    if i < j {
      SightKept(o, opening, history, entries, i, j - 1);
      assert FollowsFrom(o, history, entries, j - 1);
    }
  }

  /** The length of the stay from there on, and whether it ends. */
  function Ahead(s: Scene, b: Booking): (nat, bool) {
    (StayLength(s.readings, s.wakes, b), StayEnds(s.readings, s.wakes, b))
  }

  /** A wait that ends early counts one day; one that reaches the check-out day ends the count, and so does the end of
      the stream, but not the stay. */
  lemma WaitCounts(o: Oracles, opening: Scene, history: seq<Scene>, entries: seq<Entry>, before: seq<Entry>,
                   wait: seq<Entry>, b: Booking, verdict: Option<bool>)
    requires IsRecord(o, opening, history, entries) && before + wait <= entries
    requires IsWholeWait(wait, b, true, verdict)
    ensures var rest := Ahead(history[|before + wait|], b);
            Ahead(history[|before|], b) == if verdict == Some(false) then (1 + rest.0, rest.1)
                                           else (0, verdict == Some(true))
  {
    WaitIsTransition(o, opening, history, entries, before, wait, b, verdict);
  }

  /** The same when the session opens, after the look at the clock at the check-in. */
  function AheadAtOpening(opening: Scene, b: Booking): (nat, bool) {
    Ahead(opening.(readings := Later(opening.readings)), b)
  }

  lemma LengthAtArrival(o: Oracles, opening: Scene, history: seq<Scene>, entries: seq<Entry>, a: Arrival, room: string)
    requires IsRecord(o, opening, history, entries) && MovingIn(a) + FirstEvening(room) <= entries
    ensures var s := history[|MovingIn(a) + FirstEvening(room)|];
            s.readings == Later(opening.readings) && s.wakes == opening.wakes
  {
    var plan := MovingIn(a) + FirstEvening(room);
    OneLookAtArrival(a, room);
    assert forall i :: 0 <= i < |plan| ==> entries[i] == plan[i];
    assert FollowsFrom(o, history, entries, 0) && FollowsFrom(o, history, entries, 1);
    SightKept(o, opening, history, entries, 2, |plan|);
  }

  lemma OneLookAtArrival(a: Arrival, room: string)
    ensures var plan := MovingIn(a) + FirstEvening(room);
            && 2 <= |plan| && plan[0] == Said(Heard(ShowForCheckin)) && plan[1] == Looked(At(a.today))
            && forall i :: 2 <= i < |plan| ==> !IsSeen(plan[i])
  {
    assert Timing.Unseeing(MovingIn(a)[2..]) && Timing.Unseeing(FirstEvening(room));
    assert MovingIn(a) == MovingIn(a)[..2] + MovingIn(a)[2..];
  }

  /** The stay is as long as its early waits and what is still to come. */
  lemma {:induction false} LengthAfterDays(o: Oracles, opening: Scene, history: seq<Scene>, entries: seq<Entry>,
                                           a: Arrival, b: Booking, waits: seq<seq<Entry>>, k: nat)
    requires IsRecord(o, opening, history, entries) && EndedEarly(waits, b, true) && k <= |waits|
    requires MovingIn(a) + Days(b.cottageName, waits, k) <= entries
    ensures var rest := Ahead(history[|MovingIn(a) + Days(b.cottageName, waits, k)|], b);
            AheadAtOpening(opening, b) == (k + rest.0, rest.1)
  {
    var room := b.cottageName;
    if k == 0 {
      LengthAtArrival(o, opening, history, entries, a, room);
    } else {
      var before := MovingIn(a) + Days(room, waits, k - 1);
      assert MovingIn(a) + Days(room, waits, k) == before + waits[k - 1] + FullDay(room);
      LengthAfterDays(o, opening, history, entries, a, b, waits, k - 1);
      DayCounts(o, opening, history, entries, before, waits[k - 1], b);
    }
  }

  lemma DayCounts(o: Oracles, opening: Scene, history: seq<Scene>, entries: seq<Entry>, before: seq<Entry>,
                  wait: seq<Entry>, b: Booking)
    requires IsRecord(o, opening, history, entries) && before + wait + FullDay(b.cottageName) <= entries
    requires IsWholeWait(wait, b, true, Some(false))
    ensures var rest := Ahead(history[|before + wait + FullDay(b.cottageName)|], b);
            Ahead(history[|before|], b) == (1 + rest.0, rest.1)
  {
    WaitCounts(o, opening, history, entries, before, wait, b, Some(false));
    DayKeepsSight(o, opening, history, entries, before + wait, b.cottageName);
  }

  lemma DayKeepsSight(o: Oracles, opening: Scene, history: seq<Scene>, entries: seq<Entry>, before: seq<Entry>,
                      room: string)
    requires IsRecord(o, opening, history, entries) && before + FullDay(room) <= entries
    ensures var s, s' := history[|before|], history[|before + FullDay(room)|];
            s'.readings == s.readings && s'.wakes == s.wakes
  {
    var day := FullDay(room);
    assert Timing.Unseeing(day);
    assert forall i :: |before| <= i < |before + day| ==> entries[i] == day[i - |before|];
    SightKept(o, opening, history, entries, |before|, |before + day|);
  }

  // ---------- the reception ----------

  /** No store and no publisher fails from now on. */
  ghost predicate NothingIsDown(o: Rules, c: Calls) {
    && (forall n :: c.guests <= n ==> !o.guestsDown(n)) && (forall n :: c.bookings <= n ==> !o.bookingsDown(n))
    && (forall n :: c.cottages <= n ==> !o.cottagesDown(n)) && (forall n :: c.orders <= n ==> !o.publishFails(n))
  }

  predicate LaterCalls(c: Calls, c': Calls) {
    c.guests <= c'.guests && c.bookings <= c'.bookings && c.cottages <= c'.cottages && c.orders <= c'.orders
  }

  lemma NothingIsMissed(o: Rules, first: Calls, c: Calls, c': Calls)
    requires NothingIsDown(o, first) && LaterCalls(first, c)
    ensures !Missed(o, c, c')
  {
  }

  /** The same cottages with the same lists; guests and keys may differ. */
  predicate SameLists(cs: seq<Cottage>, cs': seq<Cottage>) {
    && |cs'| == |cs|
    && forall i :: 0 <= i < |cs| ==> cs'[i].name == cs[i].name && cs'[i].bookings == cs[i].bookings
  }

  lemma ListsDecide(docs: seq<Booking>, cs: seq<Cottage>, cs': seq<Cottage>, b: Booking)
    requires SameLists(cs, cs')
    ensures Named(cs', b.cottageName) == Named(cs, b.cottageName)
    ensures CanCheckOut(docs, cs, b) ==> CanCheckOut(docs, cs', b)
  {
    var i, j := Named(cs, b.cottageName), Named(cs', b.cottageName);
    assert i < |cs| ==> cs'[i].name == b.cottageName;
    assert j < |cs| ==> cs[j].name == b.cottageName;
    if CanCheckOut(docs, cs, b) {
      var l := Listing(cs, b.id);
      assert b.id in cs'[l].bookings;
      var k := Named(WithoutBooking(cs, b.id), b.cottageName);
      assert WithoutBooking(cs', b.id)[k].name == b.cottageName;
    }
  }

  /** Nothing about guests, bookings and lists has changed. */
  ghost predicate BooksKept(d: Desk, d': Desk) {
    && d'.guests == d.guests && d'.bookings == d.bookings && d'.lists == d.lists && SameLists(d.cottages, d'.cottages)
    && LaterCalls(d.calls, d'.calls)
  }

  /** Before the check-out, whatever was refused or done, as long as nothing is down. */
  lemma {:induction false} BooksStay(o: Oracles, opening: Scene, history: seq<Scene>, entries: seq<Entry>, n: nat)
    requires IsRecord(o, opening, history, entries) && n <= |entries|
    requires NothingIsDown(o.rules, opening.desk.calls)
    requires forall i :: 0 <= i < n ==> !IsCheckOut(entries[i])
    ensures BooksKept(opening.desk, history[n].desk)
  {
    if n > 0 {
      BooksStay(o, opening, history, entries, n - 1);
      assert FollowsFrom(o, history, entries, n - 1);
      assert Leads(o, history[n - 1], entries[n - 1], history[n]);
      OneMoreStays(o, opening, history[n - 1], entries[n - 1], history[n]);
    }
  }

  predicate IsCheckOut(e: Entry) {
    (e.Done? && e.call.CheckOut?) || (e.NotDone? && e.call.CheckOut?)
  }

  lemma OneMoreStays(o: Oracles, opening: Scene, s: Scene, e: Entry, s': Scene)
    requires Leads(o, s, e, s') && !IsCheckOut(e) && NothingIsDown(o.rules, opening.desk.calls)
    requires BooksKept(opening.desk, s.desk)
    ensures BooksKept(opening.desk, s'.desk)
    ensures !e.Admitted? && !e.Done? ==> s'.desk.cottages == s.desk.cottages
  {
    if e.NotDone? {
      NothingIsMissed(o.rules, opening.desk.calls, s.desk.calls, s'.desk.calls);
    }
  }

  lemma {:induction false} CottagesStay(o: Oracles, opening: Scene, history: seq<Scene>, entries: seq<Entry>, n: nat)
    requires IsRecord(o, opening, history, entries) && n <= |entries|
    requires NothingIsDown(o.rules, opening.desk.calls)
    requires forall i :: 0 <= i < n ==> !IsCheckOut(entries[i]) && !entries[i].Admitted? && !entries[i].Done?
    ensures history[n].desk.cottages == opening.desk.cottages
  {
    if n > 0 {
      CottagesStay(o, opening, history, entries, n - 1);
      BooksStay(o, opening, history, entries, n - 1);
      assert FollowsFrom(o, history, entries, n - 1);
      assert Leads(o, history[n - 1], entries[n - 1], history[n]);
      OneMoreStays(o, opening, history[n - 1], entries[n - 1], history[n]);
    }
  }
}
