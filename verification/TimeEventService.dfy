/** The time-event broker: takes hour and day changes off two queues and publishes them to its subscribers. */
module TimeEventService {
  import opened Outcomes
  import opened Times
  import opened Sequences
  import opened Delivery
  import opened SetDatatype

  /** Which steps were added. */
  datatype Kind = Receives | HourSteps | DaySteps

  predicate Fits(step: Step, kind: Kind) {
    match kind {
      case Receives => step.Receive?
      case HourSteps => step.Receive? || step.SendOrDrop?
      case DaySteps => Replacing(step)
    }
  }

  ghost predicate Grew(before: seq<Step>, after: seq<Step>, kind: Kind) {
    before <= after && forall i :: |before| <= i < |after| ==> Fits(after[i], kind)
  }

  /** A subscriber's channel. The consumer's receives and the publisher's steps are the atomic steps of
      module Delivery; the ghost fields only record them. */
  class Channel {
    const capacity: nat
    var buffer: seq<Time>
    ghost var received: seq<Time>
    ghost var published: seq<Time>
    ghost var phase: Phase
    ghost var skipped: bool
    /** The steps that led here. */
    ghost var steps: seq<Step>

    constructor (capacity: nat)
      ensures View() == Fresh(capacity) && steps == [] && Valid()
    {
      this.capacity := capacity;
      buffer, received, published, phase, skipped, steps := [], [], [], Idle, false, [];
      new;
      FreshIsInOrder(capacity);
    }

    ghost function View(): Subscriber
      reads this
    {
      Subscriber(capacity, buffer, received, published, phase, skipped)
    }

    /** Everything delivered, in order. */
    ghost function Stream(): seq<Time>
      reads this
    {
      received + buffer
    }

    /** The steps on record have led from an empty channel to the present one. */
    ghost predicate IsRun()
      reads this
    {
      CanRun(Fresh(capacity), steps) && Run(Fresh(capacity), steps) == View()
    }

    ghost predicate Sound()
      reads this
    {
      IsRun() && InOrder(View()) && |buffer| <= capacity
    }

    /** The channel is between publications. */
    ghost predicate Valid()
      reads this
    {
      phase.Idle? && Sound()
    }

    ghost function Books(): Account
      reads this
    {
      Account(steps, published, UpToDate(View()))
    }

    /** What was published and not delivered was sent to a full channel, or drained from one. */
    ghost predicate Conserved()
      reads this
    {
      CanRun(Fresh(capacity), steps) && |published| - |Stream()| == Lost(Fresh(capacity), steps)
    }

    lemma ValidIsConserved()
      requires Valid()
      ensures Conserved()
    {
      EventsAreLostOnlyToAFullChannel(Fresh(capacity), steps);
    }

    /** What is sound stays so and, under replace-stale delivery, what is up to date stays so. */
    twostate predicate Keeps(replacing: bool)
      reads this
    {
      && (old(Sound()) ==> Sound())
      && (old(Sound() && UpToDate(View())) && replacing ==> UpToDate(View()))
    }

    /** One step of the channel. */
    twostate predicate Took(step: Step)
      reads this
      requires old(Enabled(View(), step))
    {
      && View() == Next(old(View()), step)
      && steps == old(steps) + [step]
      && Keeps(Replacing(step))
    }

    twostate lemma StepIsTaken(step: Step)
      requires old(Enabled(View(), step)) && View() == Next(old(View()), step) && steps == old(steps) + [step]
      ensures Took(step)
    {
      if old(Sound()) {
        RunAppend(Fresh(capacity), old(steps), step);
        StepKeepsOrder(old(View()), step);
        if old(UpToDate(View())) && Replacing(step) {
          StepKeepsUpToDate(old(View()), step);
        }
      }
    }

    method OfferHour(t: Time) returns (sent: bool)
      requires phase.Idle?
      modifies this
      ensures Took(SendOrDrop(t))
      ensures sent <==> old(|buffer| < capacity)
      ensures buffer == old(buffer) + (if sent then [t] else []) && phase.Idle?
    {
      sent := |buffer| < capacity;
      if sent {
        buffer := buffer + [t];
      }
      published := published + [t];
      steps := steps + [SendOrDrop(t)];
      StepIsTaken(SendOrDrop(t));
    }

    method OfferDay(t: Time) returns (sent: bool)
      requires phase.Idle? && IsMidnightUtc(t)
      modifies this
      ensures Took(SendOrReplace(t))
      ensures sent <==> old(|buffer| < capacity)
      ensures buffer == old(buffer) + (if sent then [t] else []) && (phase.Idle? <==> sent)
    {
      sent := |buffer| < capacity;
      if sent {
        buffer := buffer + [t];
      } else {
        phase := Draining(t);
      }
      published := published + [t];
      steps := steps + [SendOrReplace(t)];
      StepIsTaken(SendOrReplace(t));
    }

    method DrainOne()
      requires phase.Draining?
      modifies this
      ensures Took(Drain)
      ensures if old(buffer) == [] then buffer == [] else buffer == old(buffer)[1..]
    {
      if buffer != [] {
        buffer := buffer[1..];
      }
      phase := Resending(phase.stuck);
      steps := steps + [Drain];
      StepIsTaken(Drain);
    }

    method OfferAgain(t: Time) returns (sent: bool)
      requires phase == Resending(t)
      modifies this
      ensures Took(SendAgain)
      ensures sent <==> old(|buffer| < capacity)
      ensures buffer == old(buffer) + (if sent then [t] else []) && phase.Idle?
    {
      sent := |buffer| < capacity;
      if sent {
        buffer := buffer + [t];
      } else {
        skipped := true;
      }
      phase := Idle;
      steps := steps + [SendAgain];
      StepIsTaken(SendAgain);
    }

    method ReceiveOne() returns (t: Time)
      requires buffer != []
      modifies this
      ensures Took(Receive)
      ensures old(buffer) == [t] + buffer && received == old(received) + [t]
    {
      t := buffer[0];
      buffer := buffer[1..];
      received := received + [t];
      steps := steps + [Receive];
      StepIsTaken(Receive);
    }

    /** The consumer runs for a while: any number of receives. */
    method ConsumerRuns()
      modifies this
      ensures phase == old(phase) && published == old(published) && skipped == old(skipped)
      ensures received + buffer == old(received + buffer) && old(received) <= received
      ensures Grew(old(steps), steps, Receives) && Keeps(true)
    {
      while *
        invariant Grew(old(steps), steps, Receives) && Keeps(true)
        invariant phase == old(phase) && published == old(published) && skipped == old(skipped)
        invariant received + buffer == old(received + buffer) && old(received) <= received
        decreases |buffer|
      {
        if buffer == [] {
          break;
        }
        var _ := ReceiveOne();
      }
    }
  }

  /** The channel saw one more publication, by steps of the kind, and is between publications again. */
  twostate predicate Published(ch: Channel, t: Time, kind: Kind)
    reads ch
  {
    && ch.Valid()
    && ch.published == old(ch.published) + [t]
    && old(ch.received) <= ch.received
    && Grew(old(ch.steps), ch.steps, kind)
  }

  /** A new event is delivered after all others, or, to a channel that was full, perhaps not at all. */
  twostate predicate AddedOrDropped(ch: Channel, t: Time)
    reads ch
  {
    || ch.Stream() == old(ch.Stream()) + [t]
    || (old(|ch.buffer| >= ch.capacity) && ch.Stream() == old(ch.Stream()))
  }

  /** A new event is always delivered last; the channel gives up at most one event for it, and only when full. */
  twostate predicate AddedOrReplaced(ch: Channel, t: Time)
    reads ch
  {
    || ch.Stream() == old(ch.Stream()) + [t]
    || (old(|ch.buffer| >= ch.capacity) && EndsWith(ch.Stream(), t) && |ch.Stream()| == |old(ch.Stream())|)
  }

  /** What publishing an hour change does to a channel. */
  twostate predicate Offered(ch: Channel, t: Time)
    reads ch
  {
    Published(ch, t, HourSteps) && AddedOrDropped(ch, t)
  }

  /** What publishing a day change does to a channel. */
  twostate predicate Updated(ch: Channel, t: Time)
    reads ch
  {
    && Published(ch, t, DaySteps)
    && (0 < ch.capacity ==> AddedOrReplaced(ch, t))
    && (old(UpToDate(ch.View())) ==> UpToDate(ch.View()))
  }

  ghost predicate Ready(channels: seq<Channel>)
    reads channels
  {
    && (forall ch :: ch in channels ==> ch.Valid())
    && (forall i, j :: 0 <= i < j < |channels| ==> channels[i] != channels[j])
  }

  /** Hour changes: a busy subscriber misses the event. */
  method Notify(t: Time, channels: seq<Channel>)
    requires Ready(channels)
    modifies channels
    ensures forall ch :: ch in channels ==> Offered(ch, t)
  {
    for i := 0 to |channels|
      invariant forall j :: 0 <= j < i ==> Offered(channels[j], t)
      invariant forall j :: i <= j < |channels| ==> unchanged(channels[j])
    {
      assert old(channels[i].Valid());
      PublishOnce(t, channels[i]);
    }
  }

  /** Hour changes, on one channel. */
  method PublishOnce(t: Time, ch: Channel)
    requires ch.Valid()
    modifies ch
    ensures Offered(ch, t)
  {
    ch.ConsumerRuns();
    ghost var stream := ch.Stream();
    var sent := ch.OfferHour(t);
    if sent {
      assert ch.Stream() == stream + [t];
    }
  }

  /** Day changes, on one channel: a stale event makes way for the new one, which always gets in. */
  method PublishLatest(t: Time, ch: Channel)
    requires ch.Valid() && IsMidnightUtc(t)
    modifies ch
    ensures Updated(ch, t)
  {
    ch.ConsumerRuns();
    SendOrReplaceStale(t, ch);
  }

  /** The two sends of a day change, as soon as the publisher comes to this channel. */
  method SendOrReplaceStale(t: Time, ch: Channel)
    requires ch.Valid() && IsMidnightUtc(t)
    modifies ch
    ensures Updated(ch, t)
  {
    ghost var stream := ch.Stream();
    var sent := ch.OfferDay(t);
    if sent {
      assert ch.Stream() == stream + [t];
    } else {
      ReplaceStale(t, ch);
    }
  }

  method ReplaceStale(t: Time, ch: Channel)
    requires ch.phase == Draining(t) && ch.Sound()
    modifies ch
    ensures Grew(old(ch.steps), ch.steps, DaySteps)
    ensures ch.Valid() && ch.published == old(ch.published) && old(ch.received) <= ch.received
    ensures 0 < ch.capacity ==>
      || ch.Stream() == old(ch.Stream()) + [t]
      || (EndsWith(ch.Stream(), t) && |ch.Stream()| == |old(ch.Stream())|)
    ensures old(UpToDate(ch.View())) ==> UpToDate(ch.View())
  {
    DrainStale(ch);
    ghost var stream := ch.Stream();
    var sent := ch.OfferAgain(t);
    if sent {
      assert ch.Stream() == stream + [t];
    }
  }

  /** The oldest event is dropped, unless the consumer has emptied the channel before. */
  method DrainStale(ch: Channel)
    requires ch.phase.Draining? && ch.Sound()
    modifies ch
    ensures Grew(old(ch.steps), ch.steps, DaySteps) && ch.Sound() && ch.phase == Resending(old(ch.phase.stuck))
    ensures ch.published == old(ch.published) && old(ch.received) <= ch.received
    ensures ch.Stream() == old(ch.Stream()) || |ch.Stream()| == |old(ch.Stream())| - 1
    ensures 0 < ch.capacity ==> HasRoom(ch.View())
    ensures old(UpToDate(ch.View())) ==> UpToDate(ch.View())
  {
    ch.ConsumerRuns();
    ch.DrainOne();
    ch.ConsumerRuns();
  }

  method NotifyLatest(t: Time, channels: seq<Channel>)
    requires Ready(channels) && IsMidnightUtc(t)
    modifies channels
    ensures forall ch :: ch in channels ==> Updated(ch, t)
  {
    for i := 0 to |channels|
      invariant forall j :: 0 <= j < i ==> Updated(channels[j], t)
      invariant forall j :: i <= j < |channels| ==> unchanged(channels[j])
    {
      assert old(channels[i].Valid());
      PublishLatest(t, channels[i]);
    }
  }

  /** What the publisher did to a channel so far. */
  datatype Account = Account(steps: seq<Step>, published: seq<Time>, upToDate: bool)

  /** The events published between the two are `events`, all by steps of the kind. Replace-stale delivery that was up to
      date is up to date. */
  ghost predicate Served(before: Account, after: Account, kind: Kind, events: seq<Time>) {
    && Grew(before.steps, after.steps, kind)
    && after.published == before.published + events
    && (kind.DaySteps? && before.upToDate ==> after.upToDate)
  }

  lemma ServedThen(first: Account, mid: Account, last: Account, kind: Kind, events: seq<Time>, more: seq<Time>)
    requires Served(first, mid, kind, events) && Served(mid, last, kind, more)
    ensures Served(first, last, kind, events + more)
  {
    forall i | |first.steps| <= i < |last.steps| ensures Fits(last.steps[i], kind) {
      assert i < |mid.steps| ==> last.steps[i] == mid.steps[i];
    }
  }

  datatype EventType = HourChange | DayChange

  /** What the select of `Start` receives next. A delivery whose payload holds no time is invalid. */
  datatype Delivered =
    | Hour(payload: Option<Time>)
    | Day(payload: Option<Time>)
    | QueueClosed
    | ContextDone

  predicate Stops(d: Delivered) {
    d.QueueClosed? || d.ContextDone?
  }

  /** How many deliveries are taken before the broker stops. */
  function Taken(deliveries: seq<Delivered>): (n: nat)
    ensures n <= |deliveries| && (n < |deliveries| ==> Stops(deliveries[n]))
    ensures forall k :: 0 <= k < n ==> !Stops(deliveries[k])
  {
    First(deliveries, Stops)
  }

  /** None of the deliveries so far stopped the broker, and those with a time were acked. */
  predicate Judged(deliveries: seq<Delivered>, verdicts: seq<bool>) {
    && |verdicts| <= |deliveries|
    && forall k :: 0 <= k < |verdicts| ==> !Stops(deliveries[k]) && verdicts[k] == deliveries[k].payload.Some?
  }

  lemma JudgedToTheEnd(deliveries: seq<Delivered>, verdicts: seq<bool>)
    requires Judged(deliveries, verdicts)
    requires |verdicts| < |deliveries| ==> Stops(deliveries[|verdicts|])
    ensures |verdicts| == Taken(deliveries)
  {
  }

  /** The events of the first `n` deliveries that are published to subscribers of one kind. */
  function PublishedTo(kind: EventType, deliveries: seq<Delivered>, n: nat): seq<Time>
    requires n <= |deliveries|
  {
    if n == 0 then [] else PublishedTo(kind, deliveries, n - 1) + PublishedFor(kind, deliveries[n - 1])
  }

  function PublishedFor(kind: EventType, d: Delivered): seq<Time> {
    match d {
      case Hour(Some(t)) => if kind.HourChange? then [t] else []
      case Day(Some(t)) => if kind.DayChange? && IsMidnightUtc(t) then [t] else []
      case _ => []
    }
  }

  class TimeEventService {
    const hourChangeChannels: Set<Channel>
    const dayChangeChannels: Set<Channel>

    constructor ()
      ensures hourChangeChannels.items == {} && dayChangeChannels.items == {}
      ensures fresh(hourChangeChannels) && fresh(dayChangeChannels) && hourChangeChannels != dayChangeChannels
    {
      hourChangeChannels := new Set();
      dayChangeChannels := new Set();
    }

    method Register(eventType: EventType, ch: Channel?)
      requires hourChangeChannels != dayChangeChannels
      modifies if eventType.HourChange? then hourChangeChannels else dayChangeChannels
      ensures ch == null ==> unchanged(hourChangeChannels, dayChangeChannels)
      ensures ch != null ==>
        && hourChangeChannels.items == old(hourChangeChannels.items) + (if eventType.HourChange? then {ch} else {})
        && dayChangeChannels.items == old(dayChangeChannels.items) + (if eventType.DayChange? then {ch} else {})
    {
      if ch == null {
        return;
      }
      match eventType {
        case HourChange => hourChangeChannels.Add(ch);
        case DayChange => dayChangeChannels.Add(ch);
      }
    }

    method Unregister(eventType: EventType, ch: Channel?)
      requires hourChangeChannels != dayChangeChannels
      modifies if eventType.HourChange? then hourChangeChannels else dayChangeChannels
      ensures ch == null ==> unchanged(hourChangeChannels, dayChangeChannels)
      ensures ch != null ==>
        && hourChangeChannels.items == old(hourChangeChannels.items) - (if eventType.HourChange? then {ch} else {})
        && dayChangeChannels.items == old(dayChangeChannels.items) - (if eventType.DayChange? then {ch} else {})
    {
      if ch == null {
        return;
      }
      match eventType {
        case HourChange => hourChangeChannels.Remove(ch);
        case DayChange => dayChangeChannels.Remove(ch);
      }
    }

    ghost predicate Valid()
      reads this, hourChangeChannels, dayChangeChannels, hourChangeChannels.items, dayChangeChannels.items
    {
      && hourChangeChannels.items !! dayChangeChannels.items
      && (forall ch :: ch in hourChangeChannels.items + dayChangeChannels.items ==> ch.Valid())
    }

    method NotifyHourChange(t: Time)
      requires Valid()
      modifies hourChangeChannels.items
      ensures Valid()
      ensures forall ch :: ch in hourChangeChannels.items ==> Offered(ch, t)
    {
      var channels := hourChangeChannels.Values();
      Notify(t, channels);
    }

    /** Anything but a UTC midnight is ignored. */
    method NotifyDayChange(t: Time)
      requires Valid()
      modifies dayChangeChannels.items
      ensures Valid()
      ensures !IsMidnightUtc(t) ==> forall ch :: ch in dayChangeChannels.items ==> unchanged(ch)
      ensures IsMidnightUtc(t) ==> forall ch :: ch in dayChangeChannels.items ==> Updated(ch, t)
    {
      if !IsMidnightUtc(t) {
        return;
      }
      var channels := dayChangeChannels.Values();
      NotifyLatest(t, channels);
    }

    /** What one delivery causes; it is acked if it holds a time. */
    method Deliver(d: Delivered) returns (acked: bool)
      requires Valid() && !Stops(d)
      modifies hourChangeChannels.items, dayChangeChannels.items
      ensures Valid() && acked == d.payload.Some?
      ensures forall ch :: ch in hourChangeChannels.items ==>
        Served(old(ch.Books()), ch.Books(), HourSteps, PublishedFor(HourChange, d))
      ensures forall ch :: ch in dayChangeChannels.items ==>
        Served(old(ch.Books()), ch.Books(), DaySteps, PublishedFor(DayChange, d))
      ensures forall ch :: ch in hourChangeChannels.items ==>
        ch.published == old(ch.published) + if d.Hour? && d.payload.Some? then [d.payload.value] else []
      ensures forall ch :: ch in dayChangeChannels.items ==>
        ch.published == old(ch.published)
          + if d.Day? && d.payload.Some? && d.payload.value % DAY == 0 then [d.payload.value] else []
    {
      acked := d.payload.Some?;
      if !acked {
        return;
      }
      if d.Hour? {
        NotifyHourChange(d.payload.value);
      } else {
        NotifyDayChange(d.payload.value);
      }
    }

    ghost function Accounts(): (accounts: map<Channel, Account>)
      reads this, hourChangeChannels, dayChangeChannels, hourChangeChannels.items, dayChangeChannels.items
      ensures forall ch :: ch in hourChangeChannels.items + dayChangeChannels.items ==>
                ch in accounts && accounts[ch] == ch.Books()
    {
      map ch | ch in hourChangeChannels.items + dayChangeChannels.items :: ch.Books()
    }

    /** Since the accounts `first`, the first `n` deliveries have been published to the channels. */
    ghost predicate ServedSo(first: map<Channel, Account>, deliveries: seq<Delivered>, n: nat)
      requires n <= |deliveries|
      reads this, hourChangeChannels, dayChangeChannels, hourChangeChannels.items, dayChangeChannels.items
    {
      && (forall ch :: ch in hourChangeChannels.items ==>
            ch in first && Served(first[ch], ch.Books(), HourSteps, PublishedTo(HourChange, deliveries, n)))
      && (forall ch :: ch in dayChangeChannels.items ==>
            ch in first && Served(first[ch], ch.Books(), DaySteps, PublishedTo(DayChange, deliveries, n)))
    }

    method DeliverNext(deliveries: seq<Delivered>, n: nat, ghost first: map<Channel, Account>) returns (acked: bool)
      requires Valid() && n < |deliveries| && !Stops(deliveries[n]) && ServedSo(first, deliveries, n)
      modifies hourChangeChannels.items, dayChangeChannels.items
      ensures Valid() && acked == deliveries[n].payload.Some? && ServedSo(first, deliveries, n + 1)
    {
      acked := Deliver(deliveries[n]);
      forall ch | ch in hourChangeChannels.items
        ensures Served(first[ch], ch.Books(), HourSteps, PublishedTo(HourChange, deliveries, n + 1))
      {
        ServedThen(first[ch], old(ch.Books()), ch.Books(), HourSteps, PublishedTo(HourChange, deliveries, n),
                   PublishedFor(HourChange, deliveries[n]));
      }
      forall ch | ch in dayChangeChannels.items
        ensures Served(first[ch], ch.Books(), DaySteps, PublishedTo(DayChange, deliveries, n + 1))
      {
        ServedThen(first[ch], old(ch.Books()), ch.Books(), DaySteps, PublishedTo(DayChange, deliveries, n),
                   PublishedFor(DayChange, deliveries[n]));
      }
    }

    /** Until it stops, the broker publishes every valid hour change to the hour subscribers and every valid
        midnight to the day subscribers, in the order in which the queues deliver them; deliveries that hold a time are
        acked and the others nacked. Day subscribers stay up to date, and no subscriber loses an event but to a full
        channel. */
    method Start(deliveries: seq<Delivered>) returns (verdicts: seq<bool>)
      requires Valid()
      modifies hourChangeChannels.items, dayChangeChannels.items
      ensures Valid() && |verdicts| == Taken(deliveries)
      ensures |verdicts| < |deliveries| ==> deliveries[|verdicts|] in {QueueClosed, ContextDone}
      ensures forall k :: 0 <= k < |verdicts| ==> verdicts[k] == deliveries[k].payload.Some?
      ensures forall ch :: ch in hourChangeChannels.items ==>
        && Served(old(ch.Books()), ch.Books(), HourSteps, PublishedTo(HourChange, deliveries, Taken(deliveries)))
        && ch.Conserved()
      ensures forall ch :: ch in dayChangeChannels.items ==>
        && Served(old(ch.Books()), ch.Books(), DaySteps, PublishedTo(DayChange, deliveries, Taken(deliveries)))
        && ch.Conserved()
    {
      ghost var first := Accounts();
      verdicts := Run(deliveries, first);
      JudgedToTheEnd(deliveries, verdicts);
      forall ch | ch in hourChangeChannels.items + dayChangeChannels.items ensures ch.Conserved() {
        ch.ValidIsConserved();
      }
    }

    method Run(deliveries: seq<Delivered>, ghost first: map<Channel, Account>) returns (verdicts: seq<bool>)
      requires Valid() && ServedSo(first, deliveries, 0)
      modifies hourChangeChannels.items, dayChangeChannels.items
      ensures Judged(deliveries, verdicts) && Valid() && ServedSo(first, deliveries, |verdicts|)
      ensures |verdicts| < |deliveries| ==> Stops(deliveries[|verdicts|])
    {
      verdicts := [];
      while |verdicts| < |deliveries|
        invariant Judged(deliveries, verdicts) && Valid() && ServedSo(first, deliveries, |verdicts|)
      {
        var d := deliveries[|verdicts|];
        if Stops(d) {
          break;
        }
        var acked := DeliverNext(deliveries, |verdicts|, first);
        verdicts := verdicts + [acked];
      }
    }
  }
}
