/** Bookings, stay periods and the conversions between stored and validated bookings. */
module Bookings {
  import opened Outcomes
  import opened Times

  type ObjectId = nat
  const NIL_ID: ObjectId := 0

  const CONFIRMED := "confirmed"
  const PAST := "past"

  /** The white space that trimming removes. */
  predicate IsSpace(c: char) {
    || c == ' '
    || '\t' <= c <= '\r'
    || '\U{2000}' <= c <= '\U{200A}'
    || c in {'\U{0085}', '\U{00A0}', '\U{1680}', '\U{2028}', '\U{2029}', '\U{202F}', '\U{205F}', '\U{3000}'}
  }

  predicate Blank(s: string) {
    forall c :: c in s ==> IsSpace(c)
  }

  datatype Period = Period(checkIn: Time, checkOut: Time)

  /** A stored document and a validated booking have the same fields; validation normalises the period. */
  datatype Booking = Booking(
    id: ObjectId, mainGuest: ObjectId, numberOfGuests: int,
    stayPeriod: Period, cottageName: string, status: string)

  function Nights(b: Booking): int {
    Day(b.stayPeriod.checkOut) - Day(b.stayPeriod.checkIn)
  }

  function NewPeriod(start: Time, end: Time): Result<Period> {
    if start >= end then Failure(Invalid) else Success(Period(StartOfDay(start), StartOfDay(end)))
  }

  function NewBooking(id: ObjectId, mainGuest: ObjectId, numberOfGuests: int,
                      stayPeriod: Period, cottageName: string, status: string): Result<Booking>
  {
    if id == NIL_ID || numberOfGuests <= 0 || stayPeriod == Period(0, 0) || Blank(cottageName) || Blank(status)
    then Failure(Invalid)
    else Success(Booking(id, mainGuest, numberOfGuests, stayPeriod, cottageName, status))
  }

  /** Validation of a stored document. */
  function ToDomain(doc: Booking): Result<Booking> {
    var period := NewPeriod(doc.stayPeriod.checkIn, doc.stayPeriod.checkOut);
    if period.Failure? then Failure(period.error)
    else NewBooking(doc.id, doc.mainGuest, doc.numberOfGuests, period.value, doc.cottageName, doc.status)
  }

  predicate IsValid(doc: Booking) {
    ToDomain(doc).Success?
  }

  /** The code points of white space, as Unicode has them. Both statuses are texts. */
  lemma SpaceExactly(c: char)
    ensures IsSpace(c) <==>
            || c as int == 0x20 || 0x9 <= c as int <= 0xD || c as int == 0x85 || c as int == 0xA0
            || c as int == 0x1680 || 0x2000 <= c as int <= 0x200A || 0x2028 <= c as int <= 0x2029
            || c as int == 0x202F || c as int == 0x205F || c as int == 0x3000
    ensures Blank("") && !Blank(CONFIRMED) && !Blank(PAST)
  {
    assert 'c' in CONFIRMED && 'p' in PAST && !IsSpace('c') && !IsSpace('p');
  }

  lemma BlankBoth(s: string, t: string)
    ensures Blank(s + t) <==> Blank(s) && Blank(t)
  {
    forall c | c in s + t ensures c in s || c in t {
    }
    if Blank(s + t) {
      forall c | c in s || c in t ensures IsSpace(c) {
        assert c in s + t;
      }
    }
  }

  /** Which documents validate: the stay begins before it ends, and not both on the day of the zero time; there is an id,
      a guest at least, a cottage and a status. */
  lemma ValidExactly(doc: Booking)
    ensures IsValid(doc) <==>
            && doc.stayPeriod.checkIn < doc.stayPeriod.checkOut
            && !(0 <= doc.stayPeriod.checkIn && doc.stayPeriod.checkOut < DAY)
            && doc.id != 0 && doc.numberOfGuests >= 1
            && (exists c :: c in doc.cottageName && !IsSpace(c)) && (exists c :: c in doc.status && !IsSpace(c))
  {
    StartOfDayIsMidnight(doc.stayPeriod.checkIn);
    StartOfDayIsMidnight(doc.stayPeriod.checkOut);
  }

  /** Validation moves both ends of the stay to midnight but never to another day, and touches nothing else. */
  lemma ToDomainKeepsDays(doc: Booking)
    requires IsValid(doc)
    ensures var b := ToDomain(doc).value;
            && b == doc.(stayPeriod := b.stayPeriod)
            && Day(b.stayPeriod.checkIn) == Day(doc.stayPeriod.checkIn)
            && Day(b.stayPeriod.checkOut) == Day(doc.stayPeriod.checkOut)
            && IsMidnightUtc(b.stayPeriod.checkIn) && IsMidnightUtc(b.stayPeriod.checkOut)
            && b.stayPeriod.checkOut == b.stayPeriod.checkIn + Nights(b) * DAY && 0 <= Nights(b)
            && b.id != NIL_ID && !Blank(b.cottageName)
  {
    StartOfDayIsMidnight(doc.stayPeriod.checkIn);
    StartOfDayIsMidnight(doc.stayPeriod.checkOut);
  }
}
