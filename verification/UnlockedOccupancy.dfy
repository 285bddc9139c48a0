/** The same sessions without a lock: a check-in looks at the cottage and occupies it later, a check-out takes the
    booking off the list and clears the cottage later, and other sessions may act in between. */
module UnlockedOccupancy {
  import opened Times
  import opened Bookings
  import opened CottageRepo
  import opened Reception
  import Occupancy

  /** Where a session stands: it has found the cottage of its booking ready, lives in it, or is moving out of it. */
  datatype Standing = Away | Looking(b: Booking) | Lodging(b: Booking) | Leaving(b: Booking)

  datatype State = State(cottages: seq<Cottage>, sessions: map<nat, Standing>)

  datatype Step =
    | Look(session: nat, b: Booking, today: Time)
    | Occupy(session: nat, b: Booking, ok: bool)  // `ok` says whether the rest of the check-in succeeds
    | Remove(session: nat, b: Booking)
    | Clear(session: nat, b: Booking)
    | Drop(session: nat)                          // the session ends in any other way
    | MoveKey(name: string, key: Key)
    | Elsewhere                                   // other services: cleaning states and new bookings

  predicate BySession(step: Step) {
    !step.MoveKey? && !step.Elsewhere?
  }

  function Stands(st: State, session: nat): Standing {
    if session in st.sessions then st.sessions[session] else Away
  }

  /** Where a step leaves its session. */
  function After(step: Step): Standing
    requires BySession(step)
  {
    match step {
      case Look(_, b, _) => Looking(b)
      case Occupy(_, b, ok) => if ok then Lodging(b) else Away
      case Remove(_, b) => Leaving(b)
      case Clear(_, _) => Away
      case Drop(_) => Away
    }
  }

  ghost predicate Proper(home: Occupancy.Home, b: Booking) {
    b.mainGuest != NIL_ID && home(b.id) == b.cottageName
  }

  ghost predicate Next(home: Occupancy.Home, st: State, st': State, step: Step) {
    && st'.sessions == (if BySession(step) then st.sessions[step.session := After(step)] else st.sessions)
    && match step {
         case Look(session, b, today) =>
           && Stands(st, session).Away? && Proper(home, b)
           && Ready(st.cottages, b, today) && st'.cottages == st.cottages
         case Occupy(session, b, _) =>
           && Stands(st, session) == Looking(b) && Proper(home, b) && Named(st.cottages, b.cottageName) < |st.cottages|
           && st'.cottages == WithGuest(st.cottages, b.cottageName, b.mainGuest)
         case Remove(session, b) =>
           Stands(st, session) == Lodging(b) && st'.cottages == WithoutBooking(st.cottages, b.id)
         case Clear(session, b) =>
           && Stands(st, session) == Leaving(b) && Named(st.cottages, b.cottageName) < |st.cottages|
           && st'.cottages == WithGuest(st.cottages, b.cottageName, NIL_ID)
         case Drop(_) => st'.cottages == st.cottages
         case MoveKey(name, key) => st'.cottages == WithKey(st.cottages, name, key)
         case Elsewhere =>
           Occupancy.SameGuests(st.cottages, st'.cottages) && Occupancy.ListedAtHome(home, st'.cottages)
       }
  }

  /** The bookings of the sessions that lodge. */
  function Lodged(sessions: map<nat, Standing>): map<nat, Booking> {
    map s | s in sessions && sessions[s].Lodging? :: sessions[s].b
  }

  function ResortOf(st: State): Occupancy.Resort {
    Occupancy.Resort(st.cottages, Lodged(st.sessions))
  }

  ghost predicate Safe(home: Occupancy.Home, st: State) {
    Occupancy.Safe(home, ResortOf(st))
  }

  // ---------- one step ----------

  /** The step takes the cottage away from a session that lodges there on booking `b`. */
  predicate Evicts(step: Step, b: Booking) {
    match step {
      case Occupy(_, mine, ok) => mine.cottageName == b.cottageName && (ok || mine.mainGuest != b.mainGuest)
      case Clear(_, mine) => mine.cottageName == b.cottageName
      case _ => false
    }
  }

  ghost predicate Collides(st: State, step: Step) {
    exists s :: s in st.sessions && st.sessions[s].Lodging? && Evicts(step, st.sessions[s].b)
  }

  lemma LodgedAfter(sessions: map<nat, Standing>, step: Step)
    requires BySession(step)
    ensures var lodged, after := Lodged(sessions), After(step);
            Lodged(sessions[step.session := after])
            == if after.Lodging? then lodged[step.session := after.b] else lodged - {step.session}
  {
  }

  lemma FewerSessionsAreSafe(home: Occupancy.Home, cs: seq<Cottage>, lodged: map<nat, Booking>, session: nat)
    requires Occupancy.Safe(home, Occupancy.Resort(cs, lodged))
    ensures Occupancy.Safe(home, Occupancy.Resort(cs, lodged - {session}))
  {
  }

  lemma LodgedIn(st: State, home: Occupancy.Home, s: nat)
    requires Safe(home, st) && s in st.sessions && st.sessions[s].Lodging?
    ensures s in Lodged(st.sessions) && Occupancy.IsLodged(home, st.cottages, st.sessions[s].b)
  {
  }

  /** The same guest occupies the cottage once more. */
  lemma OccupyAgainIsSafe(home: Occupancy.Home, st: State, st': State, step: Step, s: nat)
    requires Safe(home, st) && Next(home, st, st', step) && step.Occupy? && !Collides(st, step)
    requires s in st.sessions && st.sessions[s].Lodging? && st.sessions[s].b.cottageName == step.b.cottageName
    ensures Safe(home, st')
  {
    var r, r' := ResortOf(st), Occupancy.Resort(st'.cottages, Lodged(st.sessions));
    assert !Evicts(step, st.sessions[s].b);
    LodgedIn(st, home, s);
    LodgedAfter(st.sessions, step);
    Occupancy.WithGuestChangesOnly(st.cottages, step.b.cottageName, step.b.mainGuest);
    Occupancy.ConfinedChangeKeepsTheBooks(home, r.cottages, r'.cottages, step.b.cottageName);
    Occupancy.OtherStepIsSafe(home, r, r');
    FewerSessionsAreSafe(home, r'.cottages, r'.lodged, step.session);
  }

  /** A guest occupies a cottage where nobody lodges, or where the same guest does. */
  lemma OccupyIsSafe(home: Occupancy.Home, st: State, st': State, step: Step)
    requires Safe(home, st) && Next(home, st, st', step) && step.Occupy? && !Collides(st, step)
    ensures Safe(home, st')
  {
    var r, r' := ResortOf(st), Occupancy.Resort(st'.cottages, Lodged(st.sessions));
    if s :| s in st.sessions && st.sessions[s].Lodging? && st.sessions[s].b.cottageName == step.b.cottageName {
      OccupyAgainIsSafe(home, st, st', step, s);
    } else {
      LodgedAfter(st.sessions, step);
      Occupancy.WithGuestChangesOnly(st.cottages, step.b.cottageName, step.b.mainGuest);
      Occupancy.ConfinedChangeIsSafe(home, r, r', step.b.cottageName);
      if step.ok {
        Occupancy.NewcomerLodges(st.cottages, step.b, step.b.mainGuest);
        Occupancy.OneMoreSessionIsSafe(home, r', step.session, step.b);
      } else {
        FewerSessionsAreSafe(home, r'.cottages, r'.lodged, step.session);
      }
    }
  }

  lemma RemoveIsSafe(home: Occupancy.Home, st: State, st': State, step: Step)
    requires Safe(home, st) && Next(home, st, st', step) && step.Remove?
    ensures Safe(home, st')
  {
    LodgedAfter(st.sessions, step);
    assert step.session in Lodged(st.sessions);
    assert Occupancy.IsLodged(home, st.cottages, Lodged(st.sessions)[step.session]);
    Occupancy.WithoutBookingChangesOnly(home, st.cottages, step.b.id);
    Occupancy.ConfinedChangeIsSafe(home, ResortOf(st), ResortOf(st'), step.b.cottageName);
  }

  lemma ClearIsSafe(home: Occupancy.Home, st: State, st': State, step: Step)
    requires Safe(home, st) && Next(home, st, st', step) && step.Clear? && !Collides(st, step)
    ensures Safe(home, st')
  {
    LodgedAfter(st.sessions, step);
    Occupancy.WithGuestChangesOnly(st.cottages, step.b.cottageName, NIL_ID);
    forall s | s in Lodged(st.sessions) ensures st.sessions[s].b.cottageName != step.b.cottageName {
      assert !Evicts(step, st.sessions[s].b);
    }
    Occupancy.ConfinedChangeIsSafe(home, ResortOf(st), ResortOf(st'), step.b.cottageName);
  }

  /** Whoever is not the occupant does not lodge. */
  lemma ReplacedIsNotLodged(home: Occupancy.Home, cs: seq<Cottage>, b: Booking, guest: ObjectId)
    requires Named(cs, b.cottageName) < |cs| && guest != b.mainGuest
    ensures !Occupancy.IsLodged(home, WithGuest(cs, b.cottageName, guest), b)
  {
    Occupancy.NamesDecideNamed(cs, WithGuest(cs, b.cottageName, guest), b.cottageName);
  }

  lemma NotLodgedIsUnsafe(home: Occupancy.Home, cs: seq<Cottage>, lodged: map<nat, Booking>, s: nat)
    requires s in lodged && !Occupancy.IsLodged(home, cs, lodged[s])
    ensures !Occupancy.Safe(home, Occupancy.Resort(cs, lodged))
  {
  }

  lemma SharingIsUnsafe(home: Occupancy.Home, cs: seq<Cottage>, lodged: map<nat, Booking>, s: nat, s': nat)
    requires s in lodged && s' in lodged && s != s' && lodged[s].cottageName == lodged[s'].cottageName
    ensures !Occupancy.Safe(home, Occupancy.Resort(cs, lodged))
  {
  }

  lemma LodgesInACottage(home: Occupancy.Home, cs: seq<Cottage>, lodged: map<nat, Booking>, s: nat)
    requires Occupancy.Safe(home, Occupancy.Resort(cs, lodged)) && s in lodged
    ensures Occupancy.IsLodged(home, cs, lodged[s])
  {
  }

  lemma CollisionIsUnsafe(home: Occupancy.Home, st: State, st': State, step: Step)
    requires Safe(home, st) && Next(home, st, st', step) && Collides(st, step)
    ensures !Safe(home, st')
  {
    var s :| s in st.sessions && st.sessions[s].Lodging? && Evicts(step, st.sessions[s].b);
    var b, lodged, lodged' := st.sessions[s].b, Lodged(st.sessions), Lodged(st'.sessions);
    LodgedAfter(st.sessions, step);
    LodgesInACottage(home, st.cottages, lodged, s);
    if step.Occupy? && step.ok {
      SharingIsUnsafe(home, st'.cottages, lodged', s, step.session);
    } else {
      ReplacedIsNotLodged(home, st.cottages, b, if step.Clear? then NIL_ID else step.b.mainGuest);
      NotLodgedIsUnsafe(home, st'.cottages, lodged', s);
    }
  }

  /** One step on its own is safe exactly when it takes no cottage from a session that lodges there. */
  lemma StepIsSafeExactlyWithoutCollision(home: Occupancy.Home, st: State, st': State, step: Step)
    requires Safe(home, st) && Next(home, st, st', step)
    ensures Safe(home, st') <==> !Collides(st, step)
  {
    if Collides(st, step) {
      CollisionIsUnsafe(home, st, st', step);
    } else {
      if BySession(step) {
        LodgedAfter(st.sessions, step);
      }
      match step {
        case Occupy(_, _, _) => OccupyIsSafe(home, st, st', step);
        case Remove(_, _) => RemoveIsSafe(home, st, st', step);
        case Clear(_, _) => ClearIsSafe(home, st, st', step);
        case Look(session, _, _) => FewerSessionsAreSafe(home, st.cottages, Lodged(st.sessions), session);
        case Drop(session) => FewerSessionsAreSafe(home, st.cottages, Lodged(st.sessions), session);
        case MoveKey(_, _) => Occupancy.OtherStepIsSafe(home, ResortOf(st), ResortOf(st'));
        case Elsewhere => Occupancy.OtherStepIsSafe(home, ResortOf(st), ResortOf(st'));
      }
    }
  }

  // ---------- whole runs ----------

  ghost predicate IsRun(home: Occupancy.Home, states: seq<State>, steps: seq<Step>) {
    && |states| == |steps| + 1
    && forall k :: 0 <= k < |steps| ==> Next(home, states[k], states[k + 1], steps[k])
  }

  /** The last step of the session among the first `n`, or -1. */
  function Last(steps: seq<Step>, session: nat, n: nat): (k: int)
    requires n <= |steps|
    ensures -1 <= k < n
    ensures 0 <= k ==> BySession(steps[k]) && steps[k].session == session
    ensures forall j :: k < j < n ==> !(BySession(steps[j]) && steps[j].session == session)
  {
    if n == 0 then -1
    else if BySession(steps[n - 1]) && steps[n - 1].session == session then n - 1
    else Last(steps, session, n - 1)
  }

  /** Step `j` has brought its session into a cottage, and up to step `i` it did nothing else. */
  predicate LivesThere(steps: seq<Step>, j: nat, i: nat)
    requires j < i <= |steps|
  {
    steps[j].Occupy? && steps[j].ok && Last(steps, steps[j].session, i) == j
  }

  /** Step `i` is the second half of a check-in or of a check-out, and between its first half and it another session
      has moved into the same cottage and still lodges there. */
  ghost predicate Interrupted(steps: seq<Step>, i: nat)
    requires i < |steps|
  {
    && BySession(steps[i])
    && exists j: nat ::
         Last(steps, steps[i].session, i) < j < i && LivesThere(steps, j, i) && Evicts(steps[i], steps[j].b)
  }

  ghost predicate UninterruptedUpTo(steps: seq<Step>, n: nat)
    requires n <= |steps|
  {
    forall i :: 0 <= i < n ==> !Interrupted(steps, i)
  }

  /** Where a session stands is decided by its last step. */
  lemma {:induction false} LastStepDecides(
    home: Occupancy.Home, states: seq<State>, steps: seq<Step>, session: nat, n: nat)
    requires IsRun(home, states, steps) && n <= |steps|
    ensures var k := Last(steps, session, n);
            Stands(states[n], session) == if k < 0 then Stands(states[0], session) else After(steps[k])
  {
    if n != 0 {
      LastStepDecides(home, states, steps, session, n - 1);
      assert Next(home, states[n - 1], states[n - 1 + 1], steps[n - 1]);
    }
  }

  /** When a session takes its first half in a safe state, no other session lodges in its cottage. */
  lemma FirstHalfIsAlone(home: Occupancy.Home, st: State, st': State, step: Step, other: nat)
    requires Safe(home, st) && Next(home, st, st', step) && (step.Look? || step.Remove?)
    requires other != step.session && Stands(st, other).Lodging?
    ensures Stands(st, other).b.cottageName != step.b.cottageName
  {
    var r := ResortOf(st);
    assert other in r.lodged && Occupancy.IsLodged(home, r.cottages, r.lodged[other]);
    if step.Remove? {
      assert step.session in r.lodged;
    }
  }

  ghost predicate NobodyHalfway(st: State) {
    forall s :: !Stands(st, s).Looking? && !Stands(st, s).Leaving?
  }

  ghost predicate SafeUpTo(home: Occupancy.Home, states: seq<State>, n: nat) {
    forall k :: 0 <= k <= n && k < |states| ==> Safe(home, states[k])
  }

  /** After a safe past, a step collides exactly when it was interrupted. */
  lemma CollidesExactlyWhenInterrupted(home: Occupancy.Home, states: seq<State>, steps: seq<Step>, i: nat)
    requires IsRun(home, states, steps) && NobodyHalfway(states[0]) && i < |steps| && SafeUpTo(home, states, i)
    ensures Collides(states[i], steps[i]) <==> Interrupted(steps, i)
  {
    var step := steps[i];
    assert Next(home, states[i], states[i + 1], step);
    if Collides(states[i], step) {
      var s :| s in states[i].sessions && states[i].sessions[s].Lodging? && Evicts(step, states[i].sessions[s].b);
      MovedInSince(home, states, steps, i, s);
    }
    if Interrupted(steps, i) {
      var j: nat :|
        Last(steps, step.session, i) < j < i && LivesThere(steps, j, i) && Evicts(step, steps[j].b);
      LastStepDecides(home, states, steps, steps[j].session, i);
    }
  }

  /** Every second half comes after its first half, for the same booking. */
  lemma HadFirstHalf(home: Occupancy.Home, states: seq<State>, steps: seq<Step>, i: nat)
    requires IsRun(home, states, steps) && NobodyHalfway(states[0]) && i < |steps|
    requires steps[i].Occupy? || steps[i].Clear?
    ensures var l := Last(steps, steps[i].session, i);
            0 <= l && (steps[l].Look? || steps[l].Remove?) && steps[l].b == steps[i].b
  {
    assert Next(home, states[i], states[i + 1], steps[i]);
    LastStepDecides(home, states, steps, steps[i].session, i);
  }

  /** A session that lodges, with nobody half-way at first, moved in with its last step or lodged from the start. */
  lemma LastMovedIn(home: Occupancy.Home, states: seq<State>, steps: seq<Step>, i: nat, other: nat)
    requires IsRun(home, states, steps) && i <= |steps| && Stands(states[i], other).Lodging?
    ensures var j := Last(steps, other, i);
            0 <= j ==> LivesThere(steps, j, i) && steps[j].b == Stands(states[i], other).b
  {
    LastStepDecides(home, states, steps, other, i);
  }

  lemma MovedInSince(home: Occupancy.Home, states: seq<State>, steps: seq<Step>, i: nat, other: nat)
    requires IsRun(home, states, steps) && NobodyHalfway(states[0]) && i < |steps| && SafeUpTo(home, states, i)
    requires Stands(states[i], other).Lodging? && Evicts(steps[i], Stands(states[i], other).b)
    ensures Interrupted(steps, i)
  {
    var l, j := Last(steps, steps[i].session, i), Last(steps, other, i);
    HadFirstHalf(home, states, steps, i);
    LastMovedIn(home, states, steps, i, other);
    if j < l {
      AloneSinceFirstHalf(home, states, steps, l, i, other);
    }
    assert l < j < i && LivesThere(steps, j, i);
  }

  /** Who lodges at `i`, and has not moved since some session's first half, does not lodge in its cottage. */
  lemma AloneSinceFirstHalf(home: Occupancy.Home, states: seq<State>, steps: seq<Step>, l: nat, i: nat, other: nat)
    requires IsRun(home, states, steps) && l < i <= |steps| && Safe(home, states[l])
    requires steps[l].Look? || steps[l].Remove?
    requires Stands(states[i], other).Lodging? && Last(steps, other, i) < l
    ensures Stands(states[i], other).b.cottageName != steps[l].b.cottageName
  {
    LastIsStable(steps, other, l, i);
    LastStepDecides(home, states, steps, other, i);
    LastStepDecides(home, states, steps, other, l);
    assert Next(home, states[l], states[l + 1], steps[l]);
    LastIsStable(steps, other, l + 1, i);
    FirstHalfIsAlone(home, states[l], states[l + 1], steps[l], other);
  }

  lemma {:induction false} LastIsStable(steps: seq<Step>, session: nat, from: nat, to: nat)
    requires from <= to <= |steps| && Last(steps, session, to) < from
    ensures Last(steps, session, from) == Last(steps, session, to)
  {
    if from < to {
      LastIsStable(steps, session, from, to - 1);
    }
  }

  /** After a safe past, the next state is safe exactly when the step was not interrupted. */
  lemma NextIsSafeExactlyWhenUninterrupted(home: Occupancy.Home, states: seq<State>, steps: seq<Step>, i: nat)
    requires IsRun(home, states, steps) && NobodyHalfway(states[0]) && i < |steps| && SafeUpTo(home, states, i)
    ensures Safe(home, states[i + 1]) <==> !Interrupted(steps, i)
    ensures !Interrupted(steps, i) ==> SafeUpTo(home, states, i + 1)
  {
    CollidesExactlyWhenInterrupted(home, states, steps, i);
    StepIsSafeExactlyWithoutCollision(home, states[i], states[i + 1], steps[i]);
    if !Interrupted(steps, i) {
      OneMoreIsSafe(home, states, i);
    }
  }

  lemma OneMoreIsSafe(home: Occupancy.Home, states: seq<State>, n: nat)
    requires n + 1 < |states| && SafeUpTo(home, states, n) && Safe(home, states[n + 1])
    ensures SafeUpTo(home, states, n + 1)
  {
  }

  /** Every state of a run is safe exactly when no step of it was interrupted. */
  lemma SafeExactlyWhenUninterrupted(home: Occupancy.Home, states: seq<State>, steps: seq<Step>)
    requires IsRun(home, states, steps) && Safe(home, states[0]) && NobodyHalfway(states[0])
    ensures (forall k :: 0 <= k < |states| ==> Safe(home, states[k]))
            <==> (forall i :: 0 <= i < |steps| ==> !Interrupted(steps, i))
  {
    if forall k :: 0 <= k < |states| ==> Safe(home, states[k]) {
      forall i | 0 <= i < |steps| ensures !Interrupted(steps, i) {
        NextIsSafeExactlyWhenUninterrupted(home, states, steps, i);
      }
    }
    if forall i :: 0 <= i < |steps| ==> !Interrupted(steps, i) {
      UninterruptedIsSafe(home, states, steps, |steps|);
    }
  }

  lemma {:induction false} UninterruptedIsSafe(home: Occupancy.Home, states: seq<State>, steps: seq<Step>, n: nat)
    requires IsRun(home, states, steps) && Safe(home, states[0]) && NobodyHalfway(states[0])
    requires n <= |steps| && UninterruptedUpTo(steps, n)
    ensures SafeUpTo(home, states, n)
    decreases n
  {
    if n != 0 {
      UninterruptedIsSafe(home, states, steps, n - 1);
      NextIsSafeExactlyWhenUninterrupted(home, states, steps, n - 1);
    }
  }

  // ---------- two check-ins, and a check-out with a check-in ----------

  /** Two sessions that look before either occupies: safety is lost exactly when they name the same cottage, also for
      one guest connected twice, and the first guest is replaced exactly when the two guests differ as well. */
  lemma UnlockedCheckInsCollideExactlyOnTheSameCottage(
    home: Occupancy.Home, r: Occupancy.Resort, s1: nat, b1: Booking, s2: nat, b2: Booking, today: Time)
    requires Occupancy.Safe(home, r) && s1 !in r.lodged && s2 !in r.lodged && s1 != s2
    requires Ready(r.cottages, b1, today) && Proper(home, b1)
    requires Ready(r.cottages, b2, today) && Proper(home, b2)
    ensures var first := WithGuest(r.cottages, b1.cottageName, b1.mainGuest);
            var both := WithGuest(first, b2.cottageName, b2.mainGuest);
            && (Occupancy.Safe(home, Occupancy.Resort(both, r.lodged[s1 := b1][s2 := b2]))
                <==> b1.cottageName != b2.cottageName)
            && (!Occupancy.Lodges(both, b1) <==> b1.cottageName == b2.cottageName && b1.mainGuest != b2.mainGuest)
  {
    var first := WithGuest(r.cottages, b1.cottageName, b1.mainGuest);
    var both := WithGuest(first, b2.cottageName, b2.mainGuest);
    Occupancy.OccupyingIsSafe(home, r, b1, b1.mainGuest, today);
    Occupancy.OneMoreSessionIsSafe(home, Occupancy.Resort(first, r.lodged), s1, b1);
    var one := Occupancy.Resort(first, r.lodged[s1 := b1]);
    Occupancy.NamesDecideNamed(r.cottages, first, b1.cottageName);
    Occupancy.NamesDecideNamed(r.cottages, first, b2.cottageName);
    Occupancy.NamesDecideNamed(first, both, b1.cottageName);
    if b1.cottageName != b2.cottageName {
      Occupancy.OccupyingIsSafe(home, one, b2, b2.mainGuest, today);
      Occupancy.OneMoreSessionIsSafe(home, Occupancy.Resort(both, one.lodged), s2, b2);
    } else {
      var lodged := r.lodged[s1 := b1][s2 := b2];
      assert s1 in lodged && s2 in lodged && lodged[s1] == b1 && lodged[s2] == b2;
    }
  }

  const LAKE := Cottage("Lake", [10, 11], NIL_ID, FullyCleaned, Key("1", HeldByCottage))

  lemma LakeIsReady(b: Booking, cs: seq<Cottage>, today: Time)
    requires b.cottageName == "Lake" && b.status == CONFIRMED && b.stayPeriod.checkIn == today
    requires |cs| == 1 && cs[0].name == "Lake" && cs[0].currentGuest == NIL_ID && cs[0].cleaningStatus == FullyCleaned
    ensures Ready(cs, b, today) && Named(cs, "Lake") == 0
  {
    assert "Lake"[0] == 'L' && !IsSpace('L');
  }

  lemma RunOfFour(home: Occupancy.Home, a: State, b: State, c: State, d: State, e: State, steps: seq<Step>)
    requires |steps| == 4
    requires Next(home, a, b, steps[0]) && Next(home, b, c, steps[1])
    requires Next(home, c, d, steps[2]) && Next(home, d, e, steps[3])
    ensures IsRun(home, [a, b, c, d, e], steps)
  {
  }

  /** It happens: one cottage booked twice for the same day. */
  lemma UnlockedCheckInsCanCollide()
    ensures exists cs, b1, b2, today ::
      && UniqueNames(cs) && Ready(cs, b1, today) && Ready(cs, b2, today)
      && b1.mainGuest != b2.mainGuest
      && !Occupancy.Lodges(WithGuest(WithGuest(cs, b1.cottageName, b1.mainGuest), b2.cottageName, b2.mainGuest), b1)
  {
    var b1 := Booking(10, 1, 1, Period(DAY, 2 * DAY), "Lake", CONFIRMED);
    var b2 := Booking(11, 2, 1, Period(DAY, 2 * DAY), "Lake", CONFIRMED);
    LakeIsReady(b1, [LAKE], DAY);
    LakeIsReady(b2, [LAKE], DAY);
    UnlockedCheckInsCollideExactlyOnTheSameCottage(_ => "Lake", Occupancy.Resort([LAKE], map[]), 1, b1, 2, b2, DAY);
    assert UniqueNames([LAKE]);
  }

  /** It happens: one guest, connected twice, checks in twice on one booking. */
  lemma OneGuestMovesInTwice() returns (home: Occupancy.Home, states: seq<State>, b: Booking)
    ensures IsRun(home, states, [Look(1, b, DAY), Look(2, b, DAY), Occupy(1, b, true), Occupy(2, b, true)])
    ensures Safe(home, states[0]) && NobodyHalfway(states[0]) && !Safe(home, states[4])
  {
    home := _ => "Lake";
    b := Booking(10, 1, 1, Period(DAY, 2 * DAY), "Lake", CONFIRMED);
    var free, taken := [LAKE], [LAKE.(currentGuest := 1)];
    LakeIsReady(b, free, DAY);
    var empty, one := State(free, map[]), State(free, map[1 := Looking(b)]);
    var two := State(free, one.sessions[2 := Looking(b)]);
    var in1 := State(taken, two.sessions[1 := Lodging(b)]);
    var in2 := State(taken, in1.sessions[2 := Lodging(b)]);
    assert Named(taken, "Lake") == 0;
    RunOfFour(home, empty, one, two, in1, in2,
              [Look(1, b, DAY), Look(2, b, DAY), Occupy(1, b, true), Occupy(2, b, true)]);
    SharingIsUnsafe(home, taken, Lodged(in2.sessions), 1, 2);
    states := [empty, one, two, in1, in2];
  }

  /** It happens: a check-out has taken its booking off the list, the next guest moves in, and then the check-out
      clears the cottage. */
  lemma CheckOutTurnsOutTheNextGuest() returns (home: Occupancy.Home, states: seq<State>, b: Booking, b': Booking)
    ensures IsRun(home, states, [Remove(1, b), Look(2, b', 2 * DAY), Occupy(2, b', true), Clear(1, b)])
    ensures b.mainGuest != b'.mainGuest
    ensures Safe(home, states[0]) && NobodyHalfway(states[0]) && !Safe(home, states[4])
  {
    home := _ => "Lake";
    b := Booking(10, 1, 1, Period(DAY, 2 * DAY), "Lake", CONFIRMED);
    b' := Booking(11, 2, 1, Period(2 * DAY, 3 * DAY), "Lake", CONFIRMED);
    var before, free := [LAKE.(currentGuest := 1)], [LAKE.(bookings := [11])];
    var taken := [LAKE.(bookings := [11], currentGuest := 2)];
    assert Pull([10, 11], 10) == [11];
    assert WithoutBooking(before, 10) == free;
    LakeIsReady(b', free, 2 * DAY);
    assert Named(taken, "Lake") == 0;
    var lodging, leaving := State(before, map[1 := Lodging(b)]), State(free, map[1 := Leaving(b)]);
    var looking := State(free, leaving.sessions[2 := Looking(b')]);
    var both := State(taken, looking.sessions[2 := Lodging(b')]);
    var cleared := State(free, both.sessions[1 := Away]);
    RunOfFour(home, lodging, leaving, looking, both, cleared,
              [Remove(1, b), Look(2, b', 2 * DAY), Occupy(2, b', true), Clear(1, b)]);
    assert Lodged(cleared.sessions)[2] == b';
    NotLodgedIsUnsafe(home, free, Lodged(cleared.sessions), 2);
    states := [lodging, leaving, looking, both, cleared];
  }
}
