/** The cottage collection and its update operations. */
module CottageRepo {
  import opened Outcomes
  import opened Sequences
  import opened Bookings

  datatype KeyHolder = HeldByGuest | HeldByCottage
  datatype Key = Key(number: string, holder: KeyHolder)
  datatype CleaningStatus = FullyCleaned | OtherStatus(text: string)

  datatype Cottage = Cottage(
    name: string, bookings: seq<ObjectId>, currentGuest: ObjectId,
    cleaningStatus: CleaningStatus, key: Key)

  /** The position of the first cottage of that name, or the length when there is none. */
  function Named(cs: seq<Cottage>, name: string): (i: nat)
    ensures i <= |cs|
    ensures i < |cs| ==> cs[i].name == name
    ensures forall j :: 0 <= j < i ==> cs[j].name != name
  {
    First(cs, (c: Cottage) => c.name == name)
  }

  /** The position of the first cottage listing the booking, or the length when there is none. */
  function Listing(cs: seq<Cottage>, id: ObjectId): (i: nat)
    ensures i <= |cs|
    ensures i < |cs| ==> id in cs[i].bookings
    ensures forall j :: 0 <= j < i ==> id !in cs[j].bookings
  {
    First(cs, (c: Cottage) => id in c.bookings)
  }

  /** All of the list but the id, as often and in the same order as before. */
  function Pull(ids: seq<ObjectId>, id: ObjectId): (rest: seq<ObjectId>)
    ensures id !in rest
    ensures forall other :: other != id ==> (other in rest <==> other in ids)
  {
    if ids == [] then []
    else if ids[0] == id then Pull(ids[1..], id)
    else [ids[0]] + Pull(ids[1..], id)
  }

  lemma {:induction false} PullTakesOnlyTheId(ids: seq<ObjectId>, id: ObjectId)
    ensures multiset(Pull(ids, id)) == multiset(ids)[id := 0] && Subsequence(Pull(ids, id), ids)
  {
    if ids == [] {
      EmptySubsequence(ids);
    } else {
      var rest := ids[1..];
      PullTakesOnlyTheId(rest, id);
      assert ids == [ids[0]] + rest && [] + [ids[0]] + rest == ids;
      if ids[0] == id {
        SubsequenceAfter(id, Pull(rest, id), rest);
      } else {
        SubsequencePrepend([], ids[0], Pull(rest, id), rest);
      }
    }
  }

  function WithGuest(cs: seq<Cottage>, name: string, guest: ObjectId): seq<Cottage> {
    var i := Named(cs, name);
    if i < |cs| then cs[i := cs[i].(currentGuest := guest)] else cs
  }

  lemma GuestIsIn(cs: seq<Cottage>, name: string, guest: ObjectId)
    requires Named(cs, name) < |cs|
    ensures var cs', i := WithGuest(cs, name, guest), Named(WithGuest(cs, name, guest), name);
            i == Named(cs, name) < |cs'| && cs'[i].currentGuest == guest
  {
    var i, cs' := Named(cs, name), WithGuest(cs, name, guest);
    assert cs'[i].name == name;
    assert forall j :: 0 <= j < i ==> cs'[j] == cs[j];
  }

  function WithKey(cs: seq<Cottage>, name: string, key: Key): seq<Cottage> {
    var i := Named(cs, name);
    if i < |cs| then cs[i := cs[i].(key := key)] else cs
  }

  function WithoutBooking(cs: seq<Cottage>, id: ObjectId): seq<Cottage> {
    var i := Listing(cs, id);
    if i < |cs| then cs[i := cs[i].(bookings := Pull(cs[i].bookings, id), currentGuest := NIL_ID)] else cs
  }

  class Repo {
    /** Whether the n-th call that reaches the store fails. A failing update changes nothing. */
    const down: nat -> bool
    var calls: nat
    var cottages: seq<Cottage>

    constructor (down: nat -> bool, cottages: seq<Cottage>)
      ensures this.down == down && calls == 0 && this.cottages == cottages
    {
      this.down := down;
      this.calls := 0;
      this.cottages := cottages;
    }

    method GetByName(name: string) returns (r: Result<Cottage>)
      modifies this`calls
      ensures calls == old(calls) + if Blank(name) then 0 else 1
      ensures var i := Named(cottages, name);
              r == if Blank(name) then Failure(Invalid)
                   else if down(old(calls)) then Failure(StoreFailed)
                   else if i == |cottages| then Failure(NotFound)
                   else Success(cottages[i])
    {
      if Blank(name) {
        return Failure(Invalid);
      }
      calls := calls + 1;
      if down(calls - 1) {
        return Failure(StoreFailed);
      }
      var i := Named(cottages, name);
      return if i < |cottages| then Success(cottages[i]) else Failure(NotFound);
    }

    method UpdateCurrentGuest(name: string, guest: ObjectId) returns (r: Result<Unit>)
      modifies this`calls, this`cottages
      ensures calls == old(calls) + if Blank(name) then 0 else 1
      ensures r == if Blank(name) then Failure(Invalid)
                   else if down(old(calls)) then Failure(StoreFailed)
                   else if Named(old(cottages), name) == |old(cottages)| then Failure(NotFound)
                   else Success(Unit)
      ensures cottages == if r.Success? then WithGuest(old(cottages), name, guest) else old(cottages)
      ensures r.Success? ==>
        var i := Named(old(cottages), name);
        && i < |old(cottages)| == |cottages|
        && cottages[i] == old(cottages)[i].(currentGuest := guest)
        && forall j :: 0 <= j < |cottages| && j != i ==> cottages[j] == old(cottages)[j]
    {
      if Blank(name) {
        return Failure(Invalid);
      }
      calls := calls + 1;
      if down(calls - 1) {
        return Failure(StoreFailed);
      }
      var i := Named(cottages, name);
      if i == |cottages| {
        return Failure(NotFound);
      }
      cottages := cottages[i := cottages[i].(currentGuest := guest)];
      return Success(Unit);
    }

    method UpdateKeyHolder(name: string, keyNumber: string, holder: KeyHolder) returns (r: Result<Unit>)
      modifies this`calls, this`cottages
      ensures calls == old(calls) + if Blank(name) || Blank(keyNumber) then 0 else 1
      ensures r == if Blank(name) || Blank(keyNumber) then Failure(Invalid)
                   else if down(old(calls)) then Failure(StoreFailed)
                   else if Named(old(cottages), name) == |old(cottages)| then Failure(NotFound)
                   else Success(Unit)
      ensures cottages == if r.Success? then WithKey(old(cottages), name, Key(keyNumber, holder)) else old(cottages)
      ensures r.Success? ==>
        var i := Named(old(cottages), name);
        && i < |old(cottages)| == |cottages|
        && cottages[i] == old(cottages)[i].(key := Key(keyNumber, holder))
        && forall j :: 0 <= j < |cottages| && j != i ==> cottages[j] == old(cottages)[j]
    {
      if Blank(name) || Blank(keyNumber) {
        return Failure(Invalid);
      }
      calls := calls + 1;
      if down(calls - 1) {
        return Failure(StoreFailed);
      }
      var i := Named(cottages, name);
      if i == |cottages| {
        return Failure(NotFound);
      }
      cottages := cottages[i := cottages[i].(key := Key(keyNumber, holder))];
      return Success(Unit);
    }

    /** Also clears the current guest of the cottage that lists the booking. */
    method RemovePastBooking(id: ObjectId) returns (r: Result<Unit>)
      modifies this`calls, this`cottages
      ensures calls == old(calls) + if id == NIL_ID then 0 else 1
      ensures r == if id == NIL_ID then Failure(Invalid)
                   else if down(old(calls)) then Failure(StoreFailed)
                   else if Listing(old(cottages), id) == |old(cottages)| then Failure(NotFound)
                   else Success(Unit)
      ensures cottages == if r.Success? then WithoutBooking(old(cottages), id) else old(cottages)
      ensures r.Success? ==>
        var i := Listing(old(cottages), id);
        && i < |old(cottages)| == |cottages|
        && cottages[i] == old(cottages)[i].(bookings := Pull(old(cottages)[i].bookings, id), currentGuest := NIL_ID)
        && forall j :: 0 <= j < |cottages| && j != i ==> cottages[j] == old(cottages)[j]
    {
      if id == NIL_ID {
        return Failure(Invalid);
      }
      calls := calls + 1;
      if down(calls - 1) {
        return Failure(StoreFailed);
      }
      var i := Listing(cottages, id);
      if i == |cottages| {
        return Failure(NotFound);
      }
      cottages := cottages[i := cottages[i].(bookings := Pull(cottages[i].bookings, id), currentGuest := NIL_ID)];
      return Success(Unit);
    }
  }

  // ---------- assumptions on the collection, and what updates leave alone ----------

  ghost predicate UniqueNames(cs: seq<Cottage>) {
    forall i, j :: 0 <= i < j < |cs| ==> cs[i].name != cs[j].name
  }

  /** The booking is listed by no cottage but the one of that name. */
  ghost predicate ListedOnlyBy(cs: seq<Cottage>, id: ObjectId, name: string) {
    forall i :: 0 <= i < |cs| && id in cs[i].bookings ==> cs[i].name == name
  }

  /** The same cottages in the same order, and all but those named are identical. */
  ghost predicate SameExcept(cs: seq<Cottage>, cs': seq<Cottage>, names: set<string>) {
    && |cs'| == |cs|
    && (forall i :: 0 <= i < |cs| ==> cs'[i].name == cs[i].name)
    && (forall i :: 0 <= i < |cs| && cs[i].name !in names ==> cs'[i] == cs[i])
  }

  lemma NamedIsUnique(cs: seq<Cottage>, i: nat)
    requires UniqueNames(cs) && i < |cs|
    ensures Named(cs, cs[i].name) == i
  {
  }
}
