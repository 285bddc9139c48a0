/** Waiting for guest actions: what one wait does, and what any run of waits hands out. */
module GuestActions {
  import opened Outcomes
  import opened Sequences
  import opened Messages
  import opened ChatConnection

  datatype Waited = Waited(result: Result<Message>, wire: Wire, pending: seq<Message>)

  /** The position of the first frame carrying `action`, or the length when there is none. */
  function FirstWith(pending: seq<Message>, action: GuestAction): (i: nat)
    ensures i <= |pending|
    ensures i < |pending| ==> pending[i].GuestAction() == action
    ensures forall j :: 0 <= j < i ==> pending[j].GuestAction() != action
    ensures action != Unspecified && i < |pending| ==> pending[i].payload == Action(action)
    ensures forall j :: 0 <= j < i ==> pending[j].payload != Action(action)
  {
    First(pending, (m: Message) => m.GuestAction() == action)
  }

  function Without(pending: seq<Message>, i: nat): seq<Message>
    requires i < |pending|
  {
    pending[..i] + pending[i + 1..]
  }

  /** Read and acknowledge until the action arrives; other guest actions are kept for later. */
  function ReadUntil(env: Env, w: Wire, pending: seq<Message>, action: GuestAction): Waited
    decreases |w.inbound|
  {
    if ContextDone(env, w) then Waited(Failure(Canceled), w, pending)
    else
      var r := ReadResult(env, w, Plain);
      var w1 := AfterRead(env, w, Plain);
      if r.Failure? then Waited(r, w1, pending)
      else
        var w2 := AfterAck(env, w1, r.value);
        if r.value.GuestAction() == action then Waited(r, w2, pending)
        else ReadUntil(env, w2, Kept(pending, r.value), action)
  }

  /** A wait on the connection ends with the frame read last, and its acknowledgement, or with the read that failed; or,
      once the context is done, without another read. */
  ghost predicate EndsAWait(env: Env, start: nat, log: seq<Event>, result: Result<Message>) {
    match result {
      case Success(msg) =>
        var k := |log| - if msg.payload.Ack? then 1 else 2;
        start <= k && log[k] == Read(Plain, result)
      case Failure(error) =>
        if error == Canceled then env.cancelAt.Some? && env.cancelAt.value <= |log|
        else start < |log| && log[|log| - 1] == Read(Plain, result)
    }
  }

  lemma {:induction false} ReadUntilEnds(env: Env, w: Wire, pending: seq<Message>, action: GuestAction)
    ensures var out := ReadUntil(env, w, pending, action);
            w.log <= out.wire.log && EndsAWait(env, |w.log|, out.wire.log, out.result)
    ensures env.cancelAt.Some? && env.cancelAt.value <= |w.log| ==>
              ReadUntil(env, w, pending, action) == Waited(Failure(Canceled), w, pending)
    decreases |w.inbound|
  {
    if !ContextDone(env, w) {
      var r := ReadResult(env, w, Plain);
      var w1 := AfterRead(env, w, Plain);
      if r.Success? {
        var w2 := AfterAck(env, w1, r.value);
        if r.value.GuestAction() != action {
          ReadUntilEnds(env, w2, Kept(pending, r.value), action);
        }
      }
    }
  }

  function Kept(pending: seq<Message>, msg: Message): seq<Message> {
    if msg.IsGuestAction() then pending + [msg] else pending
  }

  /** One wait: first the buffer, then the connection. */
  function WaitFor(env: Env, w: Wire, pending: seq<Message>, action: GuestAction): Waited {
    var i := FirstWith(pending, action);
    if i < |pending| then Waited(Success(pending[i]), w, Without(pending, i))
    else ReadUntil(env, w, pending, action)
  }

  // ---------- what is in stock: buffered or still to arrive ----------

  /** The frames of `s` that carry `action`, in order. */
  function Of(action: GuestAction, s: seq<Message>): seq<Message> {
    if s == [] then []
    else if s[0].payload == Action(action) then [s[0]] + Of(action, s[1..])
    else Of(action, s[1..])
  }

  lemma {:induction false} OfConcat(action: GuestAction, s: seq<Message>, t: seq<Message>)
    ensures Of(action, s + t) == Of(action, s) + Of(action, t)
  {
    if s == [] {
      assert s + t == t;
    } else {
      OfConcat(action, s[1..], t);
      assert (s + t)[1..] == s[1..] + t;
    }
  }

  lemma {:induction false} OfFirst(pending: seq<Message>, action: GuestAction)
    requires action != Unspecified
    ensures var i := FirstWith(pending, action);
            if i < |pending| then
              && Of(action, pending) != []
              && Of(action, pending)[0] == pending[i]
              && Of(action, Without(pending, i)) == Of(action, pending)[1..]
              && forall b :: b != action ==> Of(b, Without(pending, i)) == Of(b, pending)
            else Of(action, pending) == []
  {
    var i := FirstWith(pending, action);
    if i == |pending| {
      if pending != [] {
        OfFirst(pending[1..], action);
      }
    } else if i == 0 {
      assert Without(pending, 0) == pending[1..];
    } else {
      OfFirst(pending[1..], action);
      assert FirstWith(pending[1..], action) == i - 1;
      assert Without(pending, i)[1..] == Without(pending[1..], i - 1);
    }
  }

  predicate IsActionFrame(e: Inbound) {
    e.Frame? && e.msg.payload.Action? && e.msg.payload.action != Unspecified
  }

  /** The guest-action frames still on the script. */
  function Arriving(inbound: seq<Inbound>): seq<Message> {
    if inbound == [] then []
    else if IsActionFrame(inbound[0]) then [inbound[0].msg] + Arriving(inbound[1..])
    else Arriving(inbound[1..])
  }

  function Stock(w: Wire, pending: seq<Message>): seq<Message> {
    pending + Arriving(w.inbound)
  }

  /** Nothing but frames to come, and a context that stays alive. */
  predicate ErrorFree(env: Env, w: Wire) {
    env.cancelAt.None? && forall e :: e in w.inbound ==> e.Frame?
  }

  /** `stock'` is `stock` with the first frame of the action gone and every other frame where it was. */
  ghost predicate FirstGone(stock: seq<Message>, stock': seq<Message>, action: GuestAction) {
    && Of(action, stock) != []
    && Of(action, stock') == Of(action, stock)[1..]
    && forall b :: b != action ==> Of(b, stock') == Of(b, stock)
  }

  /** `out` handed out the first stocked frame of the action and no other, or found none. */
  ghost predicate TakesFirst(env: Env, stock: seq<Message>, action: GuestAction, out: Waited) {
    if Of(action, stock) == [] then out.result.Failure?
    else
      && out.result == Success(Of(action, stock)[0])
      && FirstGone(stock, Stock(out.wire, out.pending), action)
      && ErrorFree(env, out.wire)
  }

  lemma FirstGoneInContext(before: seq<Message>, s: seq<Message>, s': seq<Message>, after: seq<Message>,
                           action: GuestAction)
    requires FirstGone(s, s', action) && Of(action, before) == []
    ensures FirstGone(before + s + after, before + s' + after, action)
    ensures Of(action, before + s + after)[0] == Of(action, s)[0]
  {
    forall b ensures Of(b, before + s + after) == Of(b, before) + Of(b, s) + Of(b, after)
             ensures Of(b, before + s' + after) == Of(b, before) + Of(b, s') + Of(b, after)
    {
      OfConcat(b, before + s, after);
      OfConcat(b, before, s);
      OfConcat(b, before + s', after);
      OfConcat(b, before, s');
    }
  }

  lemma OneIsGone(msg: Message)
    requires msg.payload.Action?
    ensures FirstGone([msg], [], msg.payload.action) && Of(msg.payload.action, [msg])[0] == msg
  {
    assert forall b :: Of(b, [msg]) == if b == msg.payload.action then [msg] else [];
  }

  lemma {:induction false} ReadUntilTakesFirst(env: Env, w: Wire, pending: seq<Message>, action: GuestAction)
    requires ErrorFree(env, w) && action != Unspecified && Of(action, pending) == []
    ensures TakesFirst(env, Stock(w, pending), action, ReadUntil(env, w, pending, action))
    decreases |w.inbound|
  {
    var stock := Stock(w, pending);
    if w.inbound == [] {
      assert stock == pending;
      return;
    }
    var msg, later := w.inbound[0].msg, Arriving(w.inbound[1..]);
    var w2 := AfterAck(env, AfterRead(env, w, Plain), msg);
    assert w2.inbound == w.inbound[1..];
    if msg.GuestAction() == action {
      OneIsGone(msg);
      FirstGoneInContext(pending, [msg], [], later, action);
      assert stock == pending + [msg] + later && pending + later == pending + [] + later;
      assert Stock(w2, pending) == pending + later;
    } else {
      OfConcat(action, pending, [msg]);
      assert Stock(w2, Kept(pending, msg)) == stock;
      ReadUntilTakesFirst(env, w2, Kept(pending, msg), action);
    }
  }

  lemma WaitTakesFirst(env: Env, w: Wire, pending: seq<Message>, action: GuestAction)
    requires ErrorFree(env, w) && action != Unspecified
    ensures TakesFirst(env, Stock(w, pending), action, WaitFor(env, w, pending, action))
  {
    var i := FirstWith(pending, action);
    OfFirst(pending, action);
    if i == |pending| {
      ReadUntilTakesFirst(env, w, pending, action);
    } else {
      var left, later := Without(pending, i), Arriving(w.inbound);
      FirstGoneInContext([], pending, left, later, action);
      assert [] + pending + later == pending + later && [] + left + later == left + later;
    }
  }

  // ---------- runs of waits ----------

  /** Wait for each action in turn; the first failing wait ends the run. */
  function WaitForAll(env: Env, w: Wire, pending: seq<Message>, actions: seq<GuestAction>): Result<seq<Message>>
    decreases |actions|
  {
    if actions == [] then Success([])
    else
      var out := WaitFor(env, w, pending, actions[0]);
      if out.result.Failure? then Failure(out.result.error)
      else
        var rest := WaitForAll(env, out.wire, out.pending, actions[1..]);
        if rest.Failure? then rest else Success([out.result.value] + rest.value)
  }

  /** Enough frames are buffered or arriving for every action that is waited for. */
  ghost predicate Enough(stock: seq<Message>, actions: seq<GuestAction>) {
    forall a :: a in actions ==> multiset(actions)[a] <= |Of(a, stock)|
  }

  /** Which of the waits for its action the i-th wait is, counted from 0. */
  ghost function Turn(actions: seq<GuestAction>, i: nat): nat
    requires i < |actions|
  {
    multiset(actions[..i])[actions[i]]
  }

  /** The k-th wait for an action was answered with the k-th stocked frame of that action. */
  ghost predicate AnsweredInOrder(stock: seq<Message>, actions: seq<GuestAction>, answers: seq<Message>) {
    && |answers| == |actions|
    && forall i :: 0 <= i < |actions| ==> AnsweredInTurn(stock, actions, answers, i)
  }

  ghost predicate AnsweredInTurn(stock: seq<Message>, actions: seq<GuestAction>, answers: seq<Message>, i: nat)
    requires i < |actions| == |answers|
  {
    Turn(actions, i) < |Of(actions[i], stock)| && answers[i] == Of(actions[i], stock)[Turn(actions, i)]
  }

  lemma EnoughAfterOne(stock: seq<Message>, stock': seq<Message>, a: GuestAction, rest: seq<GuestAction>)
    requires FirstGone(stock, stock', a)
    ensures Enough(stock, [a] + rest) <==> Enough(stock', rest)
  {
    if Enough(stock, [a] + rest) {
      forall b | b in rest ensures multiset(rest)[b] <= |Of(b, stock')| {
        assert b in [a] + rest;
      }
    }
    if Enough(stock', rest) {
      forall b | b in [a] + rest ensures multiset([a] + rest)[b] <= |Of(b, stock)| {
        if b in rest {
          assert multiset(rest)[b] <= |Of(b, stock')|;
        } else {
          assert b == a && multiset(rest)[b] == 0;
        }
      }
    }
  }

  lemma TurnAfterOne(a: GuestAction, rest: seq<GuestAction>, i: nat)
    requires i < |rest|
    ensures Turn([a] + rest, i + 1) == Turn(rest, i) + if rest[i] == a then 1 else 0
  {
    assert ([a] + rest)[..i + 1] == [a] + rest[..i];
  }

  lemma AnsweredAfterOne(stock: seq<Message>, stock': seq<Message>, a: GuestAction, rest: seq<GuestAction>,
                         answers: seq<Message>)
    requires FirstGone(stock, stock', a) && AnsweredInOrder(stock', rest, answers)
    ensures AnsweredInOrder(stock, [a] + rest, [Of(a, stock)[0]] + answers)
  {
    forall i | 0 <= i < |[a] + rest|
      ensures AnsweredInTurn(stock, [a] + rest, [Of(a, stock)[0]] + answers, i)
    {
      if i > 0 {
        assert AnsweredInTurn(stock', rest, answers, i - 1);
        TurnAfterOne(a, rest, i - 1);
        assert ([a] + rest)[i] == rest[i - 1];
      }
    }
  }

  /** Order does not matter: a run of waits succeeds exactly when every action is in stock often enough,
      and then each action's frames are handed out in the order in which they arrived. */
  lemma {:induction false} WaitsSucceedExactlyWhenStocked(
      env: Env, w: Wire, pending: seq<Message>, actions: seq<GuestAction>)
    requires ErrorFree(env, w)
    requires Unspecified !in actions
    ensures WaitForAll(env, w, pending, actions).Success? <==> Enough(Stock(w, pending), actions)
    ensures var answers := WaitForAll(env, w, pending, actions);
            answers.Success? ==> AnsweredInOrder(Stock(w, pending), actions, answers.value)
    decreases |actions|
  {
    if actions == [] {
      return;
    }
    var a, rest := actions[0], actions[1..];
    var stock := Stock(w, pending);
    var out := WaitFor(env, w, pending, a);
    assert actions == [a] + rest;
    WaitTakesFirst(env, w, pending, a);
    if out.result.Failure? {
      assert a in actions && multiset(actions)[a] > |Of(a, stock)|;
      return;
    }
    var stock' := Stock(out.wire, out.pending);
    WaitsSucceedExactlyWhenStocked(env, out.wire, out.pending, rest);
    EnoughAfterOne(stock, stock', a, rest);
    var answers := WaitForAll(env, out.wire, out.pending, rest);
    if answers.Success? {
      AnsweredAfterOne(stock, stock', a, rest, answers.value);
    }
  }
}
