/** One subscriber's bounded channel, with the publisher's and the consumer's atomic steps interleaved. */
module Delivery {
  import opened Sequences
  import opened Times

  /** Where the publisher stands with this channel: between publications, about to drain it because the
      first send found it full, or about to send again. */
  datatype Phase = Idle | Draining(stuck: Time) | Resending(again: Time)

  datatype Subscriber = Subscriber(
    capacity: nat,
    buffer: seq<Time>,
    received: seq<Time>,
    published: seq<Time>,
    phase: Phase,
    skipped: bool)     // a second send ever failed

  datatype Step =
    | SendOrDrop(t: Time)      // hour changes: the newest is dropped when the channel is full
    | SendOrReplace(t: Time)   // day changes: a full channel is drained once and tried again
    | Drain
    | SendAgain
    | Receive

  function Fresh(capacity: nat): Subscriber {
    Subscriber(capacity, [], [], [], Idle, false)
  }

  predicate HasRoom(s: Subscriber) {
    |s.buffer| < s.capacity
  }

  predicate Enabled(s: Subscriber, step: Step) {
    match step {
      case SendOrDrop(_) => s.phase.Idle?
      case SendOrReplace(t) => s.phase.Idle? && IsMidnightUtc(t)
      case Drain => s.phase.Draining?
      case SendAgain => s.phase.Resending?
      case Receive => s.buffer != []
    }
  }

  function Next(s: Subscriber, step: Step): Subscriber
    requires Enabled(s, step)
  {
    match step {
      case SendOrDrop(t) =>
        s.(published := s.published + [t], buffer := if HasRoom(s) then s.buffer + [t] else s.buffer)
      case SendOrReplace(t) =>
        if HasRoom(s) then s.(published := s.published + [t], buffer := s.buffer + [t])
        else s.(published := s.published + [t], phase := Draining(t))
      case Drain =>
        s.(buffer := if s.buffer == [] then [] else s.buffer[1..], phase := Resending(s.phase.stuck))
      case SendAgain =>
        if HasRoom(s) then s.(buffer := s.buffer + [s.phase.again], phase := Idle)
        else s.(phase := Idle, skipped := true)
      case Receive =>
        s.(received := s.received + [s.buffer[0]], buffer := s.buffer[1..])
    }
  }

  ghost predicate CanRun(s: Subscriber, steps: seq<Step>)
    decreases |steps|
  {
    steps != [] ==> Enabled(s, steps[0]) && CanRun(Next(s, steps[0]), steps[1..])
  }

  ghost function Run(s: Subscriber, steps: seq<Step>): Subscriber
    requires CanRun(s, steps)
    decreases |steps|
  {
    if steps == [] then s else Run(Next(s, steps[0]), steps[1..])
  }

  lemma {:induction false} RunAppend(s: Subscriber, steps: seq<Step>, step: Step)
    requires CanRun(s, steps) && Enabled(Run(s, steps), step)
    ensures CanRun(s, steps + [step]) && Run(s, steps + [step]) == Next(Run(s, steps), step)
    decreases |steps|
  {
    if steps == [] {
      assert [] + [step] == [step] && [step][1..] == [];
    } else {
      RunAppend(Next(s, steps[0]), steps[1..], step);
      assert (steps + [step])[1..] == steps[1..] + [step];
    }
  }

  // ---------- both policies: delivered streams are ordered ----------

  /** The publication in progress, if any, is the last one and not delivered yet; leaving it aside, what was
      received followed by what is buffered is an order-preserving, duplicate-free part of what was published. */
  ghost predicate InOrder(s: Subscriber) {
    if s.phase.Idle? then Subsequence(s.received + s.buffer, s.published)
    else
      && s.published != []
      && s.published[|s.published| - 1] == (if s.phase.Draining? then s.phase.stuck else s.phase.again)
      && Subsequence(s.received + s.buffer, s.published[..|s.published| - 1])
  }

  /** A publication that leaves the channel between publications: the event is buffered or skipped. */
  lemma SendKeepsOrder(received: seq<Time>, buffer: seq<Time>, published: seq<Time>, t: Time)
    requires Subsequence(received + buffer, published)
    ensures Subsequence(received + (buffer + [t]), published + [t])
    ensures Subsequence(received + buffer, published + [t])
  {
    var all := received + buffer;
    SubsequenceAppend(all, published, t);
    SubsequenceOfGrown(all, published, [t]);
    assert received + (buffer + [t]) == all + [t];
  }

  lemma DrainKeepsOrder(received: seq<Time>, buffer: seq<Time>, published: seq<Time>)
    requires Subsequence(received + buffer, published) && buffer != []
    ensures Subsequence(received + buffer[1..], published)
  {
    var all := received + buffer;
    SubsequenceWithout(all, published, |received|);
    assert all[..|received|] + all[|received| + 1..] == received + buffer[1..];
  }

  lemma StepKeepsOrder(s: Subscriber, step: Step)
    requires InOrder(s) && Enabled(s, step)
    ensures InOrder(Next(s, step))
  {
    match step {
      case SendOrDrop(t) => SendKeepsOrder(s.received, s.buffer, s.published, t);
      case SendOrReplace(t) =>
        SendKeepsOrder(s.received, s.buffer, s.published, t);
        assert (s.published + [t])[..|s.published|] == s.published;
      case Drain =>
        if s.buffer != [] {
          DrainKeepsOrder(s.received, s.buffer, s.published[..|s.published| - 1]);
        }
      case SendAgain =>
        var before := s.published[..|s.published| - 1];
        SendKeepsOrder(s.received, s.buffer, before, s.phase.again);
        assert s.published == before + [s.phase.again];
      case Receive =>
        assert s.received + [s.buffer[0]] + s.buffer[1..] == s.received + s.buffer;
    }
  }

  // ---------- replace-stale: delivery is fresh ----------

  predicate Replacing(step: Step) {
    !step.SendOrDrop?
  }

  /** Everything delivered: taken by the consumer, or waiting for it. */
  function Obtained(s: Subscriber): seq<Time> {
    s.received + s.buffer
  }

  predicate EndsWith(s: seq<Time>, t: Time) {
    s != [] && s[|s| - 1] == t
  }

  /** For a capacity of at least one: a second send finds room, and between publications the latest event
      published is the latest delivered. Only midnights were published. */
  ghost predicate UpToDate(s: Subscriber) {
    && |s.buffer| <= s.capacity && 1 <= s.capacity
    && !s.skipped
    && (s.phase.Resending? ==> HasRoom(s))
    && (s.phase.Idle? && s.published != [] ==> EndsWith(Obtained(s), s.published[|s.published| - 1]))
    && (s.phase.Resending? ==> EndsWith(s.published, s.phase.again))
    && (s.phase.Draining? ==> EndsWith(s.published, s.phase.stuck))
    && (forall t :: t in s.published ==> IsMidnightUtc(t))
  }

  lemma StepKeepsUpToDate(s: Subscriber, step: Step)
    requires InOrder(s) && UpToDate(s) && Enabled(s, step) && Replacing(step)
    ensures UpToDate(Next(s, step))
  {
  }

  // ---------- runs ----------

  lemma {:induction false} RunKeepsOrder(s: Subscriber, steps: seq<Step>)
    requires InOrder(s) && CanRun(s, steps)
    ensures InOrder(Run(s, steps))
    decreases |steps|
  {
    if steps != [] {
      StepKeepsOrder(s, steps[0]);
      RunKeepsOrder(Next(s, steps[0]), steps[1..]);
    }
  }

  lemma {:induction false} RunKeepsUpToDate(s: Subscriber, steps: seq<Step>)
    requires InOrder(s) && UpToDate(s) && CanRun(s, steps) && forall step :: step in steps ==> Replacing(step)
    ensures UpToDate(Run(s, steps))
    decreases |steps|
  {
    if steps != [] {
      StepKeepsOrder(s, steps[0]);
      StepKeepsUpToDate(s, steps[0]);
      RunKeepsUpToDate(Next(s, steps[0]), steps[1..]);
    }
  }

  lemma FreshIsInOrder(capacity: nat)
    ensures InOrder(Fresh(capacity)) && (1 <= capacity ==> UpToDate(Fresh(capacity)))
  {
    EmptySubsequence<Time>([]);
    assert Fresh(capacity).received + Fresh(capacity).buffer == [];
  }

  /** Ordered delivery under both drop policies and any interleaving: the subscriber's stream is a
      duplicate-free part of the published one, in the same order. */
  lemma DeliveredStreamIsOrdered(capacity: nat, steps: seq<Step>)
    requires CanRun(Fresh(capacity), steps)
    ensures var s := Run(Fresh(capacity), steps);
            Subsequence(s.received + s.buffer, s.published)
  {
    FreshIsInOrder(capacity);
    RunKeepsOrder(Fresh(capacity), steps);
    var s := Run(Fresh(capacity), steps);
    if !s.phase.Idle? {
      var last := |s.published| - 1;
      SubsequenceOfGrown(s.received + s.buffer, s.published[..last], [s.published[last]]);
      assert s.published[..last] + [s.published[last]] == s.published;
    }
  }

  ghost predicate StrictlyIncreasing(s: seq<int>) {
    forall i, j :: 0 <= i < j < |s| ==> s[i] < s[j]
  }

  /** A strictly increasing publication sequence is delivered strictly increasing. */
  lemma IncreasingStreamStaysIncreasing(capacity: nat, steps: seq<Step>)
    requires CanRun(Fresh(capacity), steps)
    requires StrictlyIncreasing(Run(Fresh(capacity), steps).published)
    ensures var s := Run(Fresh(capacity), steps);
            StrictlyIncreasing(s.received + s.buffer)
  {
    DeliveredStreamIsOrdered(capacity, steps);
    var s := Run(Fresh(capacity), steps);
    var at: seq<nat> :| EmbedsAt(s.received + s.buffer, s.published, at);
  }

  /** Freshness of replace-stale delivery: the second send never fails, between publications the subscriber was
      delivered the latest midnight published, and a channel of capacity one then holds nothing or just that. */
  lemma ReplaceStaleIsFresh(capacity: nat, steps: seq<Step>)
    requires 1 <= capacity && CanRun(Fresh(capacity), steps)
    requires forall step :: step in steps ==> Replacing(step)
    ensures var s := Run(Fresh(capacity), steps);
            && !s.skipped
            && (s.phase.Resending? ==> HasRoom(s))
            && (s.phase.Idle? && s.published != [] ==> EndsWith(Obtained(s), s.published[|s.published| - 1]))
            && (capacity == 1 && s.phase.Idle? ==>
                  || s.buffer == []
                  || (s.published != [] && s.buffer == [s.published[|s.published| - 1]]
                      && IsMidnightUtc(s.buffer[0])))
  {
    FreshIsInOrder(capacity);
    RunKeepsOrder(Fresh(capacity), steps);
    RunKeepsUpToDate(Fresh(capacity), steps);
    CapacityIsConstant(Fresh(capacity), steps);
    var s := Run(Fresh(capacity), steps);
    if s.phase.Idle? && capacity == 1 && s.buffer != [] {
      SingleBufferIsFresh(s);
    }
  }

  /** A channel of capacity one between publications holds nothing or the latest midnight. */
  lemma SingleBufferIsFresh(s: Subscriber)
    requires InOrder(s) && UpToDate(s) && s.phase.Idle? && s.capacity == 1 && s.buffer != []
    ensures s.published != [] && s.buffer == [s.published[|s.published| - 1]] && IsMidnightUtc(s.buffer[0])
  {
    var obtained := s.received + s.buffer;
    var at: seq<nat> :| EmbedsAt(obtained, s.published, at);
    assert |at| == |obtained| > 0;
    assert at[0] < |s.published|;
    assert s.published[|s.published| - 1] in s.published;
  }

  // ---------- both policies: events are lost only to a full channel ----------

  /** How many events one step gives up: sent to a full channel, drained, or sent to a full channel again. */
  function LostBy(s: Subscriber, step: Step): nat {
    match step {
      case SendOrDrop(_) => if |s.buffer| < s.capacity then 0 else 1
      case Drain => if s.buffer == [] then 0 else 1
      case SendAgain => if |s.buffer| < s.capacity then 0 else 1
      case _ => 0
    }
  }

  ghost function Lost(s: Subscriber, steps: seq<Step>): nat
    requires CanRun(s, steps)
    decreases |steps|
  {
    if steps == [] then 0 else LostBy(s, steps[0]) + Lost(Next(s, steps[0]), steps[1..])
  }

  /** One if a publication is in progress. */
  function Underway(s: Subscriber): nat {
    if s.phase.Idle? then 0 else 1
  }

  /** Conservation: whatever was published was received, is buffered, is being published,
      or was lost to a full channel. */
  lemma {:induction false} EventsAreLostOnlyToAFullChannel(s: Subscriber, steps: seq<Step>)
    requires CanRun(s, steps)
    ensures var s' := Run(s, steps);
            |s'.published| - |Obtained(s')| - Underway(s')
            == |s.published| - |Obtained(s)| - Underway(s) + Lost(s, steps)
    decreases |steps|
  {
    if steps != [] {
      EventsAreLostOnlyToAFullChannel(Next(s, steps[0]), steps[1..]);
    }
  }

  lemma {:induction false} CapacityIsConstant(s: Subscriber, steps: seq<Step>)
    requires CanRun(s, steps)
    ensures Run(s, steps).capacity == s.capacity
    decreases |steps|
  {
    if steps != [] {
      CapacityIsConstant(Next(s, steps[0]), steps[1..]);
    }
  }
}
