/** The guest collection: look-up by document, and the update that writes only what changed. */
module GuestRepo {
  import opened Outcomes
  import opened Times
  import opened Sequences
  import opened Bookings

  datatype Guest = Guest(
    id: ObjectId, documentId: string, givenNames: string, surname: string, email: string,
    billingAddress: string, createdAt: Option<Time>, lastUpdate: Option<Time>)

  const NO_GUEST := Guest(NIL_ID, "", "", "", "", "", None, None)

  datatype Field = DocumentId | GivenNames | Surname | Email | BillingAddress | CreatedAt | LastUpdate
  datatype FieldValue = Text(text: string) | Instant(instant: Option<Time>)
  type UpdateFields = map<Field, FieldValue>

  /** What the store does with `$set`. */
  function Apply(g: Guest, fields: UpdateFields): Guest {
    g.(documentId := TextOr(fields, DocumentId, g.documentId),
       givenNames := TextOr(fields, GivenNames, g.givenNames),
       surname := TextOr(fields, Surname, g.surname),
       email := TextOr(fields, Email, g.email),
       billingAddress := TextOr(fields, BillingAddress, g.billingAddress),
       createdAt := InstantOr(fields, CreatedAt, g.createdAt),
       lastUpdate := InstantOr(fields, LastUpdate, g.lastUpdate))
  }

  function TextOr(fields: UpdateFields, field: Field, current: string): string {
    if field in fields && fields[field].Text? then fields[field].text else current
  }

  function InstantOr(fields: UpdateFields, field: Field, current: Option<Time>): Option<Time> {
    if field in fields && fields[field].Instant? then fields[field].instant else current
  }

  function WithText(fields: UpdateFields, field: Field, current: string, newVal: string): UpdateFields {
    if newVal != "" && newVal != current then fields[field := Text(newVal)] else fields
  }

  function WithInstant(fields: UpdateFields, field: Field, current: Option<Time>, newVal: Option<Time>): UpdateFields {
    if newVal != current then fields[field := Instant(newVal)] else fields
  }

  /** The fields in which the stored guest must change, the texts first. */
  function Diff(stored: Guest, updated: Guest): UpdateFields {
    var f6 := WithInstant(DiffTexts(stored, updated), CreatedAt, stored.createdAt, updated.createdAt);
    WithInstant(f6, LastUpdate, stored.lastUpdate, updated.lastUpdate)
  }

  function DiffTexts(stored: Guest, updated: Guest): UpdateFields {
    var f1 := WithText(map[], DocumentId, stored.documentId, updated.documentId);
    var f2 := WithText(f1, GivenNames, stored.givenNames, updated.givenNames);
    var f3 := WithText(f2, Surname, stored.surname, updated.surname);
    var f4 := WithText(f3, Email, stored.email, updated.email);
    WithText(f4, BillingAddress, stored.billingAddress, updated.billingAddress)
  }

  /** The reference: an empty text leaves the stored one, everything else is overwritten. */
  function Merged(stored: Guest, updated: Guest): Guest {
    Guest(stored.id,
          if updated.documentId == "" then stored.documentId else updated.documentId,
          if updated.givenNames == "" then stored.givenNames else updated.givenNames,
          if updated.surname == "" then stored.surname else updated.surname,
          if updated.email == "" then stored.email else updated.email,
          if updated.billingAddress == "" then stored.billingAddress else updated.billingAddress,
          updated.createdAt, updated.lastUpdate)
  }

  /** The update leaves no text empty that the stored guest has. */
  predicate Complete(stored: Guest, updated: Guest) {
    && (updated.documentId == "" ==> stored.documentId == "")
    && (updated.givenNames == "" ==> stored.givenNames == "")
    && (updated.surname == "" ==> stored.surname == "")
    && (updated.email == "" ==> stored.email == "")
    && (updated.billingAddress == "" ==> stored.billingAddress == "")
  }

  /** Two guests agree on the seven fields an update covers. */
  predicate Agree(g: Guest, h: Guest) {
    g.(id := h.id) == h
  }

  /** What `Update` returns when the store is up. */
  function Returned(stored: Guest, updated: Guest): Guest {
    if Merged(stored, updated) == stored then stored else updated
  }

  lemma DiffKeys(stored: Guest, updated: Guest)
    ensures var d := Diff(stored, updated);
            && (DocumentId in d <==> updated.documentId !in {"", stored.documentId})
            && (GivenNames in d <==> updated.givenNames !in {"", stored.givenNames})
            && (Surname in d <==> updated.surname !in {"", stored.surname})
            && (Email in d <==> updated.email !in {"", stored.email})
            && (BillingAddress in d <==> updated.billingAddress !in {"", stored.billingAddress})
            && (CreatedAt in d <==> updated.createdAt != stored.createdAt)
            && (LastUpdate in d <==> updated.lastUpdate != stored.lastUpdate)
    ensures Diff(stored, updated) == map[] <==>
            forall f: Field :: f !in Diff(stored, updated)
  {
  }

  lemma TextsGiven(stored: Guest, updated: Guest)
    ensures var f5, merged := DiffTexts(stored, updated), Merged(stored, updated);
            && CreatedAt !in f5 && LastUpdate !in f5
            && TextOr(f5, DocumentId, stored.documentId) == merged.documentId
            && TextOr(f5, GivenNames, stored.givenNames) == merged.givenNames
            && TextOr(f5, Surname, stored.surname) == merged.surname
            && TextOr(f5, Email, stored.email) == merged.email
            && TextOr(f5, BillingAddress, stored.billingAddress) == merged.billingAddress
  {
  }

  lemma TextsThenApply(stored: Guest, updated: Guest)
    ensures var f5 := DiffTexts(stored, updated);
            && CreatedAt !in f5 && LastUpdate !in f5
            && Apply(stored, f5)
               == Merged(stored, updated).(createdAt := stored.createdAt, lastUpdate := stored.lastUpdate)
  {
    TextsGiven(stored, updated);
  }

  /** Applying the diff gives the reference result. */
  lemma DiffThenApplyIsExact(stored: Guest, updated: Guest)
    ensures Apply(stored, Diff(stored, updated)) == Merged(stored, updated)
  {
    TextsThenApply(stored, updated);
  }

  /** The diff is empty exactly when the update has nothing to change. */
  lemma EmptyDiffChangesNothing(stored: Guest, updated: Guest)
    ensures Diff(stored, updated) == map[] <==> Merged(stored, updated) == stored
  {
    DiffKeys(stored, updated);
    if Merged(stored, updated) == stored {
      forall f: Field ensures f !in Diff(stored, updated) {
        match f {
          case DocumentId =>
          case GivenNames =>
          case Surname =>
          case Email =>
          case BillingAddress =>
          case CreatedAt =>
          case LastUpdate =>
        }
      }
    }
  }

  /** The same update a second time has nothing left to do. */
  lemma UpdatingTwiceChangesNothing(stored: Guest, updated: Guest)
    ensures Diff(Merged(stored, updated), updated) == map[]
  {
    EmptyDiffChangesNothing(Merged(stored, updated), updated);
  }

  /** The returned guest tells the truth about the stored one, and the stored one is the update on all seven
      fields, exactly when the update leaves no stored text empty, or, for the returned guest alone,
      when there was nothing to write. */
  lemma ReturnedGuestAgreesExactlyWhenComplete(stored: Guest, updated: Guest)
    ensures Agree(Merged(stored, updated), updated) <==> Complete(stored, updated)
    ensures Agree(Returned(stored, updated), Merged(stored, updated)) <==>
            Complete(stored, updated) || Diff(stored, updated) == map[]
  {
    EmptyDiffChangesNothing(stored, updated);
  }

  /** The failing input: a new surname with an empty email reports an empty email that the store does not have. */
  lemma EmptyEmailIsReportedButNotStored(stored: Guest)
    requires stored.email != "" && stored.surname !in {"", "King"}
    ensures var updated := stored.(surname := "King", email := "");
            && Apply(stored, Diff(stored, updated)) == stored.(surname := "King")
            && Returned(stored, updated) == updated
            && !Agree(Returned(stored, updated), Merged(stored, updated))
  {
    var updated := stored.(surname := "King", email := "");
    DiffThenApplyIsExact(stored, updated);
    ReturnedGuestAgreesExactlyWhenComplete(stored, updated);
  }

  /** The position of the first guest with that id, or the length when there is none. */
  function WithGuestId(gs: seq<Guest>, id: ObjectId): (i: nat)
    ensures i <= |gs|
    ensures i < |gs| ==> gs[i].id == id
    ensures forall j :: 0 <= j < i ==> gs[j].id != id
  {
    First(gs, (g: Guest) => g.id == id)
  }

  function WithDocument(gs: seq<Guest>, documentId: string): (i: nat)
    ensures i <= |gs|
    ensures i < |gs| ==> gs[i].documentId == documentId
    ensures forall j :: 0 <= j < i ==> gs[j].documentId != documentId
  {
    First(gs, (g: Guest) => g.documentId == documentId)
  }

  class Repo {
    const down: nat -> bool
    var calls: nat
    var guests: seq<Guest>

    constructor (down: nat -> bool, guests: seq<Guest>)
      ensures this.down == down && calls == 0 && this.guests == guests
    {
      this.down, this.calls, this.guests := down, 0, guests;
    }

    method GetByDocument(documentId: string) returns (r: Result<Guest>)
      modifies this`calls
      ensures calls == old(calls) + if Blank(documentId) then 0 else 1
      ensures r == (var i := WithDocument(guests, documentId);
                    if Blank(documentId) then Failure(Invalid)
                    else if down(old(calls)) then Failure(StoreFailed)
                    else if i < |guests| then Success(guests[i]) else Failure(NotFound))
    {
      if Blank(documentId) {
        return Failure(Invalid);
      }
      calls := calls + 1;
      if down(calls - 1) {
        return Failure(StoreFailed);
      }
      var i := WithDocument(guests, documentId);
      return if i < |guests| then Success(guests[i]) else Failure(NotFound);
    }

    method SetStringIfChanged(fields: UpdateFields, field: Field, current: string, newVal: string)
      returns (fields': UpdateFields, current': string)
      ensures fields' == WithText(fields, field, current, newVal)
      ensures current' == if newVal == "" then current else newVal
    {
      fields', current' := fields, current;
      if newVal != "" && newVal != current {
        fields' := fields'[field := Text(newVal)];
        current' := newVal;
      }
    }

    method SetTimePointerIfChanged(fields: UpdateFields, field: Field, current: Option<Time>, newVal: Option<Time>)
      returns (fields': UpdateFields, current': Option<Time>)
      ensures fields' == WithInstant(fields, field, current, newVal)
      ensures current' == newVal
    {
      fields', current' := fields, current;
      if newVal == None && current != None {
        fields' := fields'[field := Instant(None)];
        current' := None;
      } else if newVal != None && (current == None || newVal != current) {
        fields' := fields'[field := Instant(newVal)];
        current' := newVal;
      }
    }

    /** The fields to write, and the stored guest brought up to date in memory. */
    method CollectChanges(stored: Guest, updated: Guest) returns (fields: UpdateFields, existing: Guest)
      ensures fields == Diff(stored, updated) && existing == Merged(stored, updated)
      ensures Apply(stored, fields) == Merged(stored, updated)
      ensures fields == map[] <==> Merged(stored, updated) == stored
    {
      DiffThenApplyIsExact(stored, updated);
      EmptyDiffChangesNothing(stored, updated);
      existing := stored;
      fields := map[];
      var text: string;
      var instant: Option<Time>;
      fields, text := SetStringIfChanged(fields, DocumentId, existing.documentId, updated.documentId);
      existing := existing.(documentId := text);
      fields, text := SetStringIfChanged(fields, GivenNames, existing.givenNames, updated.givenNames);
      existing := existing.(givenNames := text);
      fields, text := SetStringIfChanged(fields, Surname, existing.surname, updated.surname);
      existing := existing.(surname := text);
      fields, text := SetStringIfChanged(fields, Email, existing.email, updated.email);
      existing := existing.(email := text);
      fields, text := SetStringIfChanged(fields, BillingAddress, existing.billingAddress, updated.billingAddress);
      existing := existing.(billingAddress := text);
      fields, instant := SetTimePointerIfChanged(fields, CreatedAt, existing.createdAt, updated.createdAt);
      existing := existing.(createdAt := instant);
      fields, instant := SetTimePointerIfChanged(fields, LastUpdate, existing.lastUpdate, updated.lastUpdate);
      existing := existing.(lastUpdate := instant);
    }

    /** On success the stored guest is the reference result, and no other guest is touched. */
    method Update(id: ObjectId, updated: Guest) returns (r: Result<Guest>)
      modifies this`calls, this`guests
      ensures r.Failure? ==> guests == old(guests)
      ensures r.Success? ==>
        var i := WithGuestId(old(guests), id);
        && i < |old(guests)|
        && guests == old(guests)[i := Merged(old(guests)[i], updated)]
        && r.value == Returned(old(guests)[i], updated)
      ensures r.Failure? ==>
        || (r.error == Invalid && (id == NIL_ID || updated == NO_GUEST))
        || (r.error == NotFound && WithGuestId(guests, id) == |guests|)
        || (r.error == StoreFailed && (down(old(calls)) || down(old(calls) + 1)))
    {
      if id == NIL_ID || updated == NO_GUEST {
        return Failure(Invalid);
      }
      calls := calls + 1;
      if down(calls - 1) {
        return Failure(StoreFailed);
      }
      var i := WithGuestId(guests, id);
      if i == |guests| {
        return Failure(NotFound);
      }
      var fields, existing := CollectChanges(guests[i], updated);
      if |fields| == 0 {
        return Success(existing);
      }
      calls := calls + 1;
      if down(calls - 1) {
        return Failure(StoreFailed);
      }
      guests := guests[i := Apply(guests[i], fields)];
      return Success(updated);
    }
  }
}
