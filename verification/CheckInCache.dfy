/** The day's check-in and check-out lists kept in the cache. */
module CheckInCache {
  import opened Outcomes
  import opened Sequences
  import opened Times
  import opened Bookings
  import opened BookingRepo

  /** Cache keys carry a UTC date; two days never share one. */
  datatype CacheKey = CheckInOn(day: int) | CheckOutOn(day: int)

  class Cache {
    /** Whether the n-th call fails; a read also fails when the entry is missing or has expired. */
    const down: nat -> bool
    var calls: nat
    var entries: map<CacheKey, seq<Booking>>

    constructor (down: nat -> bool)
      ensures this.down == down && calls == 0 && entries == map[]
    {
      this.down, this.calls, this.entries := down, 0, map[];
    }

    method GetBytes(key: CacheKey) returns (r: Option<seq<Booking>>)
      modifies this`calls
      ensures calls == old(calls) + 1
      ensures r == if key in entries && !down(old(calls)) then Some(entries[key]) else None
    {
      calls := calls + 1;
      return if key in entries && !down(calls - 1) then Some(entries[key]) else None;
    }

    method SetBytes(key: CacheKey, value: seq<Booking>) returns (ok: bool)
      modifies this`calls, this`entries
      ensures calls == old(calls) + 1
      ensures ok == !down(old(calls))
      ensures entries == if ok then old(entries)[key := value] else old(entries)
    {
      calls := calls + 1;
      ok := !down(calls - 1);
      if ok {
        entries := entries[key := value];
      }
    }
  }

  // ---------- grouping by check-out day ----------

  function LeavingOn(bookings: seq<Booking>, day: int): (leaving: seq<Booking>)
    ensures forall b :: b in leaving ==> Day(b.stayPeriod.checkOut) == day
  {
    if bookings == [] then []
    else
      var last := bookings[|bookings| - 1];
      LeavingOn(bookings[..|bookings| - 1], day) + if Day(last.stayPeriod.checkOut) == day then [last] else []
  }

  lemma LeavingOnNext(bookings: seq<Booking>, b: Booking, day: int)
    ensures LeavingOn(bookings + [b], day) ==
            LeavingOn(bookings, day) + if Day(b.stayPeriod.checkOut) == day then [b] else []
  {
    assert (bookings + [b])[..|bookings|] == bookings;
  }

  function Days(bookings: seq<Booking>): set<int> {
    set b | b in bookings :: Day(b.stayPeriod.checkOut)
  }

  lemma DaysNext(bookings: seq<Booking>, b: Booking)
    ensures Days(bookings + [b]) == Days(bookings) + {Day(b.stayPeriod.checkOut)}
  {
    forall day ensures day in Days(bookings + [b]) <==> day in Days(bookings) + {Day(b.stayPeriod.checkOut)} {
      if day in Days(bookings) {
        var c :| c in bookings && Day(c.stayPeriod.checkOut) == day;
        assert c in bookings + [b];
      }
      assert b in bookings + [b];
    }
  }

  lemma {:induction false} NobodyLeavesOn(bookings: seq<Booking>, day: int)
    requires day !in Days(bookings)
    ensures LeavingOn(bookings, day) == []
  {
    if bookings != [] {
      var before, last := bookings[..|bookings| - 1], bookings[|bookings| - 1];
      assert bookings == before + [last];
      DaysNext(before, last);
      NobodyLeavesOn(before, day);
    }
  }

  ghost predicate GroupsOf(groups: map<int, seq<Booking>>, bookings: seq<Booking>) {
    && groups.Keys == Days(bookings)
    && forall day :: day in groups ==> groups[day] == LeavingOn(bookings, day)
  }

  lemma GroupsNext(groups: map<int, seq<Booking>>, bookings: seq<Booking>, b: Booking)
    requires GroupsOf(groups, bookings)
    ensures var day := Day(b.stayPeriod.checkOut);
            GroupsOf(groups[day := (if day in groups then groups[day] else []) + [b]], bookings + [b])
  {
    var day := Day(b.stayPeriod.checkOut);
    DaysNext(bookings, b);
    forall d | d in Days(bookings) + {day}
      ensures LeavingOn(bookings + [b], d) ==
              (if d in groups then groups[d] else []) + (if d == day then [b] else [])
    {
      LeavingOnNext(bookings, b, d);
      if d !in groups {
        NobodyLeavesOn(bookings, d);
      }
    }
  }

  /** The loop of `cacheCheckOut` that fills the map of groups. */
  method GroupByCheckOut(bookings: seq<Booking>) returns (groups: map<int, seq<Booking>>)
    ensures GroupsOf(groups, bookings)
  {
    groups := map[];
    for i := 0 to |bookings|
      invariant GroupsOf(groups, bookings[..i])
    {
      var booking := bookings[i];
      var checkOutDay := Day(booking.stayPeriod.checkOut);
      GroupsNext(groups, bookings[..i], booking);
      assert bookings[..i + 1] == bookings[..i] + [booking];
      groups := groups[checkOutDay := (if checkOutDay in groups then groups[checkOutDay] else []) + [booking]];
    }
    assert bookings[..|bookings|] == bookings;
  }

  /** The groups of the given days, one after the other. */
  function Together(bookings: seq<Booking>, days: seq<int>): seq<Booking> {
    if days == [] then [] else LeavingOn(bookings, days[0]) + Together(bookings, days[1..])
  }

  lemma {:induction false} LeavingOnIsInOrder(bookings: seq<Booking>, day: int)
    ensures Subsequence(LeavingOn(bookings, day), bookings)
  {
    if bookings == [] {
      EmptySubsequence(bookings);
    } else {
      var before, last := bookings[..|bookings| - 1], bookings[|bookings| - 1];
      var leaving := LeavingOn(before, day);
      assert bookings == before + [last];
      LeavingOnIsInOrder(before, day);
      LeavingOnNext(before, last, day);
      SubsequenceAppend(leaving, before, last);
      SubsequenceOfGrown(leaving, before, [last]);
      assert leaving + [] == leaving;
    }
  }

  predicate Distinct(days: seq<int>) {
    days == [] || (days[0] !in days[1..] && Distinct(days[1..]))
  }

  function One(b: Booking, present: bool): multiset<Booking> {
    if present then multiset{b} else multiset{}
  }

  lemma {:induction false} TogetherNext(bookings: seq<Booking>, b: Booking, days: seq<int>)
    requires Distinct(days)
    ensures multiset(Together(bookings + [b], days)) ==
            multiset(Together(bookings, days)) + One(b, Day(b.stayPeriod.checkOut) in days)
  {
    if days != [] {
      var day, rest := Day(b.stayPeriod.checkOut), days[1..];
      TogetherNext(bookings, b, rest);
      LeavingOnNext(bookings, b, days[0]);
      assert day in days <==> day == days[0] || day in rest;
      assert multiset(LeavingOn(bookings + [b], days[0])) ==
             multiset(LeavingOn(bookings, days[0])) + One(b, day == days[0]);
    }
  }

  lemma {:induction false} NothingTogether(days: seq<int>)
    ensures Together([], days) == []
  {
    if days != [] {
      NothingTogether(days[1..]);
    }
  }

  /** The groups partition the bookings: each keeps the original order, and the groups of any enumeration of
      the check-out days hold every booking exactly as often as the whole list. */
  lemma {:induction false} GroupsPartition(bookings: seq<Booking>, days: seq<int>)
    requires Distinct(days)
    requires forall b :: b in bookings ==> Day(b.stayPeriod.checkOut) in days
    ensures multiset(Together(bookings, days)) == multiset(bookings)
    ensures forall day :: Subsequence(LeavingOn(bookings, day), bookings)
  {
    forall day {
      LeavingOnIsInOrder(bookings, day);
    }
    if bookings == [] {
      NothingTogether(days);
    } else {
      var before, last := bookings[..|bookings| - 1], bookings[|bookings| - 1];
      assert bookings == before + [last];
      GroupsPartition(before, days);
      TogetherNext(before, last, days);
    }
  }

  // ---------- filling the cache ----------

  function ValidOnes(docs: seq<Booking>): seq<Booking> {
    if docs == [] then []
    else if IsValid(docs[0]) then [ToDomain(docs[0]).value] + ValidOnes(docs[1..])
    else ValidOnes(docs[1..])
  }

  /** The check-in list of a day, as the store stands. */
  function ArrivingOn(docs: seq<Booking>, day: int): seq<Booking> {
    ValidOnes(InWindow(docs, day * DAY, day * DAY + DAY))
  }

  /** Every check-in list in the cache is what the booking store would give today. */
  ghost predicate Current(entries: map<CacheKey, seq<Booking>>, docs: seq<Booking>) {
    forall day :: CheckInOn(day) in entries ==> entries[CheckInOn(day)] == ArrivingOn(docs, day)
  }

  /** The entry is as it was, or still missing. */
  ghost predicate Kept(before: map<CacheKey, seq<Booking>>, after: map<CacheKey, seq<Booking>>, key: CacheKey) {
    if key in before then key in after && after[key] == before[key] else key !in after
  }

  /** The entry holds those of the bookings that leave on its day, and there are some. */
  ghost predicate Filled(after: map<CacheKey, seq<Booking>>, bookings: seq<Booking>, key: CacheKey) {
    key.CheckOutOn? && key.day in Days(bookings) && key in after && after[key] == LeavingOn(bookings, key.day)
  }

  /** Every entry is as it was, or holds bookings that leave on its day. */
  ghost predicate Filling(before: map<CacheKey, seq<Booking>>, after: map<CacheKey, seq<Booking>>,
                          bookings: seq<Booking>)
  {
    forall key :: Kept(before, after, key) || Filled(after, bookings, key)
  }

  ghost predicate FilledAll(after: map<CacheKey, seq<Booking>>, bookings: seq<Booking>, days: set<int>) {
    forall day :: day in days ==> Filled(after, bookings, CheckOutOn(day))
  }

  lemma OneMoreFilled(first: map<CacheKey, seq<Booking>>, before: map<CacheKey, seq<Booking>>, bookings: seq<Booking>,
                      groups: map<int, seq<Booking>>, day: int, days: set<int>)
    requires GroupsOf(groups, bookings) && day in groups && Filling(first, before, bookings)
    ensures var after := before[CheckOutOn(day) := groups[day]];
            && Filling(first, after, bookings)
            && (FilledAll(before, bookings, days) ==> FilledAll(after, bookings, days + {day}))
  {
    var after := before[CheckOutOn(day) := groups[day]];
    assert Filled(after, bookings, CheckOutOn(day));
    forall key ensures Kept(first, after, key) || Filled(after, bookings, key) {
      assert Kept(first, before, key) || Filled(before, bookings, key);
    }
  }

  /** Filling check-out lists leaves the check-in lists alone. */
  lemma CheckInListsAreKept(before: map<CacheKey, seq<Booking>>, after: map<CacheKey, seq<Booking>>,
                            bookings: seq<Booking>)
    requires Filling(before, after, bookings)
    ensures forall day :: CheckInOn(day) in before <==> CheckInOn(day) in after
    ensures forall day :: CheckInOn(day) in before ==> after[CheckInOn(day)] == before[CheckInOn(day)]
  {
    forall day ensures Kept(before, after, CheckInOn(day)) {
      assert !Filled(after, bookings, CheckInOn(day));
    }
  }

  /** One attempt to tell a guest of a check-in on a day. */
  datatype Notice = Notice(b: Booking, today: Time, sent: bool)

  /** One attempt for each booking, in order, of which the first is the `from`-th of all. */
  function NoticesFor(bookings: seq<Booking>, today: Time, publishFails: nat -> bool, from: nat): seq<Notice> {
    seq(|bookings|, i requires 0 <= i < |bookings| => Notice(bookings[i], today, !publishFails(from + i)))
  }

  predicate AllSent(notices: seq<Notice>) {
    forall i :: 0 <= i < |notices| ==> notices[i].sent
  }

  /** After those before there is one attempt for each booking, in order, which is sent unless the publication of its
      number fails. */
  ghost predicate Attempted(before: seq<Notice>, notices: seq<Notice>, bookings: seq<Booking>, today: Time,
                            publishFails: nat -> bool)
  {
    var n := |before|;
    && |notices| == n + |bookings| && notices[..n] == before
    && forall i :: 0 <= i < |bookings| ==> notices[n + i] == Notice(bookings[i], today, !publishFails(n + i))
  }

  lemma NoticesAre(before: seq<Notice>, notices: seq<Notice>, bookings: seq<Booking>, today: Time,
                   publishFails: nat -> bool)
    requires notices == before + NoticesFor(bookings, today, publishFails, |before|)
    ensures Attempted(before, notices, bookings, today, publishFails)
    ensures AllSent(NoticesFor(bookings, today, publishFails, |before|)) <==>
            forall k :: |before| <= k < |notices| ==> !publishFails(k)
  {
    var n, out := |before|, NoticesFor(bookings, today, publishFails, |before|);
    forall k | n <= k < |notices| ensures publishFails(k) == !out[k - n].sent {
      assert out[k - n] == Notice(bookings[k - n], today, !publishFails(n + (k - n)));
    }
    if forall k :: n <= k < |notices| ==> !publishFails(k) {
      forall i | 0 <= i < |out| ensures out[i].sent {
        assert !publishFails(n + i);
      }
    }
  }

  /** The cache, the attempts at notifications, and the calls to the store and to the cache so far. */
  datatype Board = Board(entries: map<CacheKey, seq<Booking>>, notices: seq<Notice>, lookups: nat, writes: nat)

  class ArrangeCottageService {
    const bookingRepo: Repo
    const cache: Cache
    /** Whether the n-th guest notification cannot be published. */
    const publishFails: nat -> bool
    var notices: seq<Notice>

    constructor (bookingRepo: Repo, cache: Cache, publishFails: nat -> bool)
      ensures this.bookingRepo == bookingRepo && this.cache == cache
      ensures this.publishFails == publishFails && notices == []
    {
      this.bookingRepo, this.cache, this.publishFails := bookingRepo, cache, publishFails;
      notices := [];
    }

    /** Documents that do not validate are skipped. */
    method BookingsDocToDomain(docs: seq<Booking>) returns (bookings: seq<Booking>)
      ensures bookings == ValidOnes(docs)
    {
      bookings := [];
      for i := 0 to |docs|
        invariant bookings + ValidOnes(docs[i..]) == ValidOnes(docs)
      {
        assert docs[i..][1..] == docs[i + 1..];
        var booking := ToDomain(docs[i]);
        if booking.Failure? {
          continue;
        }
        bookings := bookings + [booking.value];
      }
    }

    /** Every booking gets one attempt, in order, also after a failed one. */
    method PublishCheckinToday(bookings: seq<Booking>, today: Time) returns (ok: bool)
      modifies this
      ensures var out := NoticesFor(bookings, today, publishFails, |old(notices)|);
              notices == old(notices) + out && (ok <==> AllSent(out))
    {
      ok := true;
      ghost var out := NoticesFor(bookings, today, publishFails, |notices|);
      for i := 0 to |bookings|
        invariant notices == old(notices) + out[..i] && (ok <==> AllSent(out[..i]))
      {
        var sent := !publishFails(|notices|);
        ok := ok && sent;
        notices := notices + [Notice(bookings[i], today, sent)];
        assert out[..i + 1] == out[..i] + [out[i]];
      }
      assert out[..|bookings|] == out;
    }

    /** The bookings that leave on one of the days. */
    method CacheGroup(groups: map<int, seq<Booking>>, day: int, ghost first: map<CacheKey, seq<Booking>>,
                      ghost bookings: seq<Booking>, ghost days: set<int>)
      returns (ok: bool)
      requires GroupsOf(groups, bookings) && day in groups && Filling(first, cache.entries, bookings)
      modifies cache
      ensures Filling(first, cache.entries, bookings)
      ensures cache.calls == old(cache.calls) + 1 && ok == !cache.down(old(cache.calls))
      ensures ok && FilledAll(old(cache.entries), bookings, days) ==> FilledAll(cache.entries, bookings, days + {day})
    {
      ok := cache.SetBytes(CheckOutOn(day), groups[day]);
      OneMoreFilled(first, old(cache.entries), bookings, groups, day, days);
    }

    /** One entry per check-out day of these bookings, and no other entry changes. */
    method CacheCheckOut(bookings: seq<Booking>) returns (ok: bool)
      modifies cache
      ensures Filling(old(cache.entries), cache.entries, bookings)
      ensures ok ==> FilledAll(cache.entries, bookings, Days(bookings))
      ensures (forall n :: old(cache.calls) <= n ==> !cache.down(n)) ==> ok
    {
      var groups := GroupByCheckOut(bookings);
      var rest := groups.Keys;
      ok := true;
      while rest != {}
        invariant rest <= groups.Keys && old(cache.calls) <= cache.calls
        invariant Filling(old(cache.entries), cache.entries, bookings)
        invariant ok ==> FilledAll(cache.entries, bookings, groups.Keys - rest)
        invariant (forall n :: old(cache.calls) <= n ==> !cache.down(n)) ==> ok
        decreases |rest|
      {
        var day :| day in rest;
        var written := CacheGroup(groups, day, old(cache.entries), bookings, groups.Keys - rest);
        ok := ok && written;
        assert groups.Keys - (rest - {day}) == groups.Keys - rest + {day};
        rest := rest - {day};
      }
    }

    /** What one day-change event causes: the day's check-in list, one notification for each of its bookings, and
        then, if all went out, the check-out lists. */
    method ArrangeDay(today: Time)
      modifies bookingRepo`calls, cache, this
      ensures Arranged(bookingRepo.bookings, today, old(Now()), Now())
      ensures today != 0 && old(ArrangeServed()) ==>
        var arriving := ArrivingOn(bookingRepo.bookings, Day(today));
        && AllSent(NoticesFor(arriving, today, publishFails, |old(notices)|))
        && forall day :: day in Days(arriving) ==> Filled(cache.entries, arriving, CheckOutOn(day))
      ensures old(Current(cache.entries, bookingRepo.bookings)) ==> Current(cache.entries, bookingRepo.bookings)
    {
      var docs := bookingRepo.FindByCheckInDate(today);
      if docs.Failure? {
        return;
      }
      var bookings := BookingsDocToDomain(docs.value);
      var ok := cache.SetBytes(CheckInOn(Day(today)), bookings);
      if !ok {
        return;
      }
      ok := PublishCheckinToday(bookings, today);
      if !ok {
        return;
      }
      ghost var listed := cache.entries;
      ok := CacheCheckOut(bookings);
      CheckInListsAreKept(listed, cache.entries, bookings);
    }

    /** No store, cache or publisher call will fail. */
    ghost predicate ArrangeServed()
      reads this, bookingRepo, cache
    {
      && !bookingRepo.down(bookingRepo.calls)
      && (forall n :: cache.calls <= n ==> !cache.down(n))
      && (forall n :: |notices| <= n ==> !publishFails(n))
    }

    ghost function Now(): Board
      reads this, bookingRepo, cache
    {
      Board(cache.entries, notices, bookingRepo.calls, cache.calls)
    }

    /** The store gives the arrivals of the day, and the cache takes them. */
    ghost predicate IsDue(today: Time, board: Board) {
      today != 0 && !bookingRepo.down(board.lookups) && !cache.down(board.writes)
    }

    /** One day-change event leads from one board to the next: the day is listed and each of its arrivals attempted; and
        only when all these were sent are check-out lists written, and nothing else. */
    ghost predicate Arranged(docs: seq<Booking>, today: Time, before: Board, after: Board) {
      var arriving := ArrivingOn(docs, Day(today));
      var out := NoticesFor(arriving, today, publishFails, |before.notices|);
      && (if !IsDue(today, before) then after.entries == before.entries && after.notices == before.notices
          else
            && CheckInOn(Day(today)) in after.entries && after.entries[CheckInOn(Day(today))] == arriving
            && after.notices == before.notices + out
            && (!AllSent(out) ==> after.entries == before.entries[CheckInOn(Day(today)) := arriving]))
      && forall key :: key != CheckInOn(Day(today)) ==>
           Kept(before.entries, after.entries, key) || Filled(after.entries, arriving, key)
    }

    /** A day-change event lists the arrivals of its day and makes one attempt for each, unless it is the zero time or the
        call to the store or to the cache fails; then it does neither. */
    lemma ArrangedExactly(docs: seq<Booking>, today: Time, before: Board, after: Board)
      requires Arranged(docs, today, before, after)
      ensures var key, arriving := CheckInOn(Day(today)), ArrivingOn(docs, Day(today));
              if today == 0 || bookingRepo.down(before.lookups) || cache.down(before.writes)
              then after.entries == before.entries && after.notices == before.notices
              else
                && key in after.entries && after.entries[key] == arriving
                && Attempted(before.notices, after.notices, arriving, today, publishFails)
    {
      if IsDue(today, before) {
        NoticesAre(before.notices, after.notices, ArrivingOn(docs, Day(today)), today, publishFails);
      }
    }

    ghost predicate ArrangedAll(docs: seq<Booking>, events: seq<Time>, boards: seq<Board>, n: nat)
      requires n <= |events|
    {
      |boards| == n + 1 && forall i :: 0 <= i < n ==> Arranged(docs, events[i], boards[i], boards[i + 1])
    }

    /** The day-change events are handled one after the other, whatever fails. The check-in lists stay current while the
        store rests. */
    method ArrangeCheckIn(events: seq<Time>) returns (ghost boards: seq<Board>)
      modifies bookingRepo`calls, cache, this
      ensures ArrangedAll(bookingRepo.bookings, events, boards, |events|)
      ensures boards[0] == old(Now()) && boards[|events|] == Now()
      ensures old(Current(cache.entries, bookingRepo.bookings)) ==> Current(cache.entries, bookingRepo.bookings)
    {
      boards := [Now()];
      for i := 0 to |events|
        invariant ArrangedAll(bookingRepo.bookings, events, boards, i)
        invariant boards[0] == old(Now()) && boards[i] == Now()
        invariant old(Current(cache.entries, bookingRepo.bookings)) ==> Current(cache.entries, bookingRepo.bookings)
      {
        ArrangeDay(events[i]);
        boards := boards + [Now()];
      }
    }

    /** Every day whose arrivals could be had and cached is listed from then on. */
    lemma {:induction false} DueDaysStayListed(docs: seq<Booking>, events: seq<Time>, boards: seq<Board>,
                                               i: nat, n: nat)
      requires ArrangedAll(docs, events, boards, |events|) && i < n <= |events| && IsDue(events[i], boards[i])
      ensures var key := CheckInOn(Day(events[i]));
              key in boards[n].entries && boards[n].entries[key] == ArrivingOn(docs, Day(events[i]))
    {
      assert Arranged(docs, events[n - 1], boards[n - 1], boards[n - 1 + 1]);
      if i < n - 1 {
        var key := CheckInOn(Day(events[i]));
        DueDaysStayListed(docs, events, boards, i, n - 1);
        assert !Filled(boards[n].entries, ArrivingOn(docs, Day(events[n - 1])), key);
      }
    }

    /** The attempts for the arrivals of the first `n` days: of those that could be had and cached. */
    ghost function Announced(docs: seq<Booking>, events: seq<Time>, boards: seq<Board>, n: nat): seq<Notice>
      requires n <= |events| && n < |boards|
    {
      if n == 0 then []
      else
        Announced(docs, events, boards, n - 1) + AnnouncedOn(docs, events[n - 1], boards[n - 1])
    }

    ghost function AnnouncedOn(docs: seq<Booking>, today: Time, board: Board): seq<Notice> {
      if IsDue(today, board) then NoticesFor(ArrivingOn(docs, Day(today)), today, publishFails, |board.notices|)
      else []
    }

    /** Each arrival of such a day gets one attempt, in order, and no other attempt is made. */
    lemma {:induction false} ArrivalsAreAnnouncedOnce(docs: seq<Booking>, events: seq<Time>, boards: seq<Board>, n: nat)
      requires ArrangedAll(docs, events, boards, |events|) && n <= |events|
      ensures boards[n].notices == boards[0].notices + Announced(docs, events, boards, n)
    {
      if n > 0 {
        ArrivalsAreAnnouncedOnce(docs, events, boards, n - 1);
        assert Arranged(docs, events[n - 1], boards[n - 1], boards[n - 1 + 1]);
        Regroup(boards[0].notices, Announced(docs, events, boards, n - 1),
                AnnouncedOn(docs, events[n - 1], boards[n - 1]));
      }
    }
  }
}
