/** Many sessions at one reception: who lodges where. Each check-in and each check-out is one atomic step. */
module Occupancy {
  import opened Times
  import opened Bookings
  import opened CottageRepo
  import opened Reception

  /** The cottages, and the booking of every live session that is past check-in. */
  datatype Resort = Resort(cottages: seq<Cottage>, lodged: map<nat, Booking>)

  /** Which cottage a booking belongs to. */
  type Home = ObjectId -> string

  datatype Step =
    | CheckIn(session: nat, b: Booking, guest: ObjectId, today: Time, ok: bool)
    | CheckOut(session: nat, ok: bool)
    | Drop(session: nat)                  // the session ends in any other way
    | MoveKey(name: string, key: Key)
    | Elsewhere                           // other services: cleaning states and new bookings

  /** Every cottage lists only its own bookings. */
  ghost predicate ListedAtHome(home: Home, cs: seq<Cottage>) {
    forall i, id :: 0 <= i < |cs| && id in cs[i].bookings ==> home(id) == cs[i].name
  }

  ghost predicate SameGuests(cs: seq<Cottage>, cs': seq<Cottage>) {
    && |cs'| == |cs|
    && forall i :: 0 <= i < |cs| ==> cs'[i].name == cs[i].name && cs'[i].currentGuest == cs[i].currentGuest
  }

  ghost predicate Next(home: Home, r: Resort, r': Resort, step: Step) {
    match step {
      case CheckIn(session, b, guest, today, ok) =>
        && session !in r.lodged
        && (ok ==> b.mainGuest == guest != NIL_ID && home(b.id) == b.cottageName)
        && CheckInStep(r.cottages, r'.cottages, b, guest, today, ok)
        && r'.lodged == if ok then r.lodged[session := b] else r.lodged
      case CheckOut(session, ok) =>
        && session in r.lodged
        && CheckOutStep(r.cottages, r'.cottages, r.lodged[session], ok)
        && r'.lodged == r.lodged - {session}
      case Drop(session) =>
        r' == r.(lodged := r.lodged - {session})
      case MoveKey(name, key) =>
        r' == r.(cottages := WithKey(r.cottages, name, key))
      case Elsewhere =>
        SameGuests(r.cottages, r'.cottages) && ListedAtHome(home, r'.cottages) && r'.lodged == r.lodged
    }
  }

  /** The session's main guest is the occupant of the session's cottage. */
  predicate Lodges(cs: seq<Cottage>, b: Booking) {
    var i := Named(cs, b.cottageName);
    i < |cs| && cs[i].currentGuest == b.mainGuest != NIL_ID
  }

  ghost predicate Safe(home: Home, r: Resort) {
    && UniqueNames(r.cottages)
    && ListedAtHome(home, r.cottages)
    && (forall s :: s in r.lodged ==> IsLodged(home, r.cottages, r.lodged[s]))
    && (forall s, s' :: s in r.lodged && s' in r.lodged && s != s' ==>
          r.lodged[s].cottageName != r.lodged[s'].cottageName)
  }

  ghost predicate IsLodged(home: Home, cs: seq<Cottage>, b: Booking) {
    Lodges(cs, b) && home(b.id) == b.cottageName
  }

  /** Occupied cottages keep their occupants. */
  ghost predicate NobodyIsReplaced(cs: seq<Cottage>, cs': seq<Cottage>) {
    && |cs'| == |cs|
    && forall i :: 0 <= i < |cs| && cs[i].currentGuest != NIL_ID ==> cs'[i].currentGuest == cs[i].currentGuest
  }

  // ---------- what the updates leave alone ----------

  /** The cottages of all other names are untouched, no cottage is renamed, and no list grows. */
  ghost predicate ChangesOnly(cs: seq<Cottage>, cs': seq<Cottage>, name: string) {
    && SameExcept(cs, cs', {name})
    && forall i :: 0 <= i < |cs| ==> forall id :: id in cs'[i].bookings ==> id in cs[i].bookings
  }

  lemma NamesDecideNamed(cs: seq<Cottage>, cs': seq<Cottage>, name: string)
    requires |cs'| == |cs| && forall i :: 0 <= i < |cs| ==> cs'[i].name == cs[i].name
    ensures Named(cs', name) == Named(cs, name)
  {
  }

  lemma ChangesOnlyComposes(cs: seq<Cottage>, mid: seq<Cottage>, cs': seq<Cottage>, name: string)
    requires ChangesOnly(cs, mid, name) && ChangesOnly(mid, cs', name)
    ensures ChangesOnly(cs, cs', name)
  {
  }

  lemma WithGuestChangesOnly(cs: seq<Cottage>, name: string, guest: ObjectId)
    ensures ChangesOnly(cs, WithGuest(cs, name, guest), name)
  {
  }

  lemma WithoutBookingChangesOnly(home: Home, cs: seq<Cottage>, id: ObjectId)
    requires ListedAtHome(home, cs)
    ensures ChangesOnly(cs, WithoutBooking(cs, id), home(id))
  {
  }

  lemma ConfinedChangeKeepsTheBooks(home: Home, cs: seq<Cottage>, cs': seq<Cottage>, name: string)
    requires UniqueNames(cs) && ListedAtHome(home, cs) && ChangesOnly(cs, cs', name)
    ensures UniqueNames(cs') && ListedAtHome(home, cs')
  {
    forall i, j | 0 <= i < j < |cs'| ensures cs'[i].name != cs'[j].name {
      assert cs'[i].name == cs[i].name && cs'[j].name == cs[j].name;
    }
    forall i, id | 0 <= i < |cs'| && id in cs'[i].bookings ensures home(id) == cs'[i].name {
      assert id in cs[i].bookings && cs'[i].name == cs[i].name;
    }
  }

  lemma ConfinedChangeKeepsOthers(cs: seq<Cottage>, cs': seq<Cottage>, name: string, b: Booking)
    requires Lodges(cs, b) && b.cottageName != name && ChangesOnly(cs, cs', name)
    ensures Lodges(cs', b)
  {
    NamesDecideNamed(cs, cs', b.cottageName);
    var i := Named(cs, b.cottageName);
    assert cs[i].name !in {name} && cs'[i] == cs[i];
  }

  /** A change confined to one cottage preserves safety, once no session lodges there any more. */
  lemma ConfinedChangeIsSafe(home: Home, r: Resort, r': Resort, name: string)
    requires Safe(home, r) && ChangesOnly(r.cottages, r'.cottages, name)
    requires forall s :: s in r'.lodged ==>
               s in r.lodged && r'.lodged[s] == r.lodged[s] && r.lodged[s].cottageName != name
    ensures Safe(home, r')
  {
    ConfinedChangeKeepsTheBooks(home, r.cottages, r'.cottages, name);
    forall s | s in r'.lodged ensures IsLodged(home, r'.cottages, r'.lodged[s]) {
      assert IsLodged(home, r.cottages, r.lodged[s]);
      ConfinedChangeKeepsOthers(r.cottages, r'.cottages, name, r.lodged[s]);
    }
  }

  /** Nobody lodges in a cottage that is ready for a check-in. */
  lemma ReadyIsVacant(home: Home, r: Resort, b: Booking, today: Time)
    requires Safe(home, r) && Ready(r.cottages, b, today)
    ensures forall s :: s in r.lodged ==> r.lodged[s].cottageName != b.cottageName
  {
    forall s | s in r.lodged ensures r.lodged[s].cottageName != b.cottageName {
      assert IsLodged(home, r.cottages, r.lodged[s]);
    }
  }

  lemma NewcomerLodges(cs: seq<Cottage>, b: Booking, guest: ObjectId)
    requires Named(cs, b.cottageName) < |cs|
    ensures b.mainGuest == guest != NIL_ID ==> Lodges(WithGuest(cs, b.cottageName, guest), b)
    ensures cs[Named(cs, b.cottageName)].currentGuest == NIL_ID ==>
              NobodyIsReplaced(cs, WithGuest(cs, b.cottageName, guest))
  {
    WithGuestChangesOnly(cs, b.cottageName, guest);
    NamesDecideNamed(cs, WithGuest(cs, b.cottageName, guest), b.cottageName);
  }

  /** Occupying a vacant cottage is safe, whether or not the check-in succeeds afterwards. */
  lemma OccupyingIsSafe(home: Home, r: Resort, b: Booking, guest: ObjectId, today: Time)
    requires Safe(home, r) && Ready(r.cottages, b, today)
    ensures var occupied := WithGuest(r.cottages, b.cottageName, guest);
            && Safe(home, Resort(occupied, r.lodged))
            && NobodyIsReplaced(r.cottages, occupied)
            && (b.mainGuest == guest != NIL_ID ==> Lodges(occupied, b))
    ensures forall s :: s in r.lodged ==> r.lodged[s].cottageName != b.cottageName
  {
    ReadyIsVacant(home, r, b, today);
    WithGuestChangesOnly(r.cottages, b.cottageName, guest);
    ConfinedChangeIsSafe(home, r, Resort(WithGuest(r.cottages, b.cottageName, guest), r.lodged), b.cottageName);
    NewcomerLodges(r.cottages, b, guest);
  }

  lemma OneMoreSessionIsSafe(home: Home, r: Resort, session: nat, b: Booking)
    requires Safe(home, r) && IsLodged(home, r.cottages, b)
    requires forall s :: s in r.lodged ==> r.lodged[s].cottageName != b.cottageName
    ensures Safe(home, Resort(r.cottages, r.lodged[session := b]))
  {
  }

  lemma CheckInIsSafe(home: Home, r: Resort, r': Resort, step: Step)
    requires Safe(home, r) && step.CheckIn? && Next(home, r, r', step)
    ensures Safe(home, r') && NobodyIsReplaced(r.cottages, r'.cottages)
  {
    if r'.cottages != r.cottages || step.ok {
      OccupyingIsSafe(home, r, step.b, step.guest, step.today);
      if step.ok {
        OneMoreSessionIsSafe(home, Resort(r'.cottages, r.lodged), step.session, step.b);
      }
    }
  }

  lemma CheckOutIsSafe(home: Home, r: Resort, r': Resort, step: Step)
    requires Safe(home, r) && step.CheckOut? && Next(home, r, r', step)
    ensures Safe(home, r')
  {
    var b := r.lodged[step.session];
    assert IsLodged(home, r.cottages, b);
    CheckOutChangesOnly(home, r.cottages, r'.cottages, b, step.ok);
    ConfinedChangeIsSafe(home, r, r', b.cottageName);
  }

  lemma CheckOutChangesOnly(home: Home, cs: seq<Cottage>, cs': seq<Cottage>, b: Booking, ok: bool)
    requires ListedAtHome(home, cs) && home(b.id) == b.cottageName && CheckOutStep(cs, cs', b, ok)
    ensures ChangesOnly(cs, cs', b.cottageName)
  {
    var removed := WithoutBooking(cs, b.id);
    WithoutBookingChangesOnly(home, cs, b.id);
    WithGuestChangesOnly(removed, b.cottageName, NIL_ID);
    ChangesOnlyComposes(cs, removed, WithGuest(removed, b.cottageName, NIL_ID), b.cottageName);
  }

  lemma StepIsSafe(home: Home, r: Resort, r': Resort, step: Step)
    requires Safe(home, r) && Next(home, r, r', step)
    ensures Safe(home, r')
    ensures step.CheckIn? ==> NobodyIsReplaced(r.cottages, r'.cottages)
  {
    match step {
      case CheckIn(_, _, _, _, _) => CheckInIsSafe(home, r, r', step);
      case CheckOut(_, _) => CheckOutIsSafe(home, r, r', step);
      case Drop(_) =>
      case MoveKey(_, _) => OtherStepIsSafe(home, r, r');
      case Elsewhere => OtherStepIsSafe(home, r, r');
    }
  }

  lemma OtherStepIsSafe(home: Home, r: Resort, r': Resort)
    requires Safe(home, r)
    requires SameGuests(r.cottages, r'.cottages) && ListedAtHome(home, r'.cottages) && r'.lodged == r.lodged
    ensures Safe(home, r')
  {
    forall s | s in r.lodged ensures IsLodged(home, r'.cottages, r.lodged[s]) {
      assert IsLodged(home, r.cottages, r.lodged[s]);
      NamesDecideNamed(r.cottages, r'.cottages, r.lodged[s].cottageName);
    }
  }

  // ---------- runs ----------

  ghost predicate IsRun(home: Home, states: seq<Resort>, steps: seq<Step>) {
    && |states| == |steps| + 1
    && forall k :: 0 <= k < |steps| ==> Next(home, states[k], states[k + 1], steps[k])
  }

  /** No two live sessions lodge in the same cottage: in every state of every interleaving, each session past
      check-in has its booking's main guest as occupant of its cottage, those cottages are pairwise distinct,
      and no check-in replaces an occupant. */
  lemma NoTwoSessionsShareACottage(home: Home, states: seq<Resort>, steps: seq<Step>)
    requires IsRun(home, states, steps) && Safe(home, states[0])
    ensures forall k :: 0 <= k < |states| ==> Safe(home, states[k])
    ensures forall k :: 0 <= k < |steps| && steps[k].CheckIn? ==>
              NobodyIsReplaced(states[k].cottages, states[k + 1].cottages)
  {
    forall k | 0 <= k < |states| ensures Safe(home, states[k]) {
      RunIsSafe(home, states, steps, k);
    }
    forall k | 0 <= k < |steps| && steps[k].CheckIn?
      ensures NobodyIsReplaced(states[k].cottages, states[k + 1].cottages)
    {
      StepIsSafe(home, states[k], states[k + 1], steps[k]);
    }
  }

  lemma {:induction false} RunIsSafe(home: Home, states: seq<Resort>, steps: seq<Step>, n: nat)
    requires IsRun(home, states, steps) && Safe(home, states[0]) && n < |states|
    ensures Safe(home, states[n])
  {
    if n != 0 {
      RunIsSafe(home, states, steps, n - 1);
      StepIsSafe(home, states[n - 1], states[n - 1 + 1], steps[n - 1]);
    }
  }
}
