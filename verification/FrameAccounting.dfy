/** Where every inbound frame of a chat session goes, over any mix of waits, requests and notifications. */
module FrameAccounting {
  import opened Outcomes
  import opened Sequences
  import opened Messages
  import opened ChatConnection
  import opened GuestActions
  import opened SystemRequests

  /** One thing said with success: a guest action heard, a notification told, a request answered. */
  datatype Talk =
    | Heard(action: GuestAction)
    | Told(notification: SystemNotification)
    | Asked(request: SystemRequest, answer: string)

  /** The reader's and the writer's common state, the guest actions handed to the handlers so far, and the
      conversation so far at both ends. */
  datatype ChatState = ChatState(wire: Wire, pending: seq<Message>, handed: seq<Message>, talk: seq<Talk>)

  /** The script entry a failed read used up; reading a closed socket uses up nothing. */
  function EntryOf(error: Error): seq<Inbound> {
    match error {
      case BadFrame => [Undecodable]
      case ReadTimeout => [TimedOut]
      case AckNotReceived => [TimedOut]
      case ReplyNotReceived => [TimedOut]
      case _ => []
    }
  }

  /** What came of a stretch of the log: the script entries used up; the guest actions read, those of them taken in
      while the reader waited and those lost inside one of the writer's two wait loops; the notifications told. */
  datatype Takings = Takings(
    consumed: seq<Inbound>, actions: seq<Message>, taken: seq<Message>, lost: seq<Message>,
    told: seq<SystemNotification>)
  {
    function With(e: Event): Takings {
      match e {
        case Wrote(msg, ok) =>
          if ok && msg.payload.Notification? then this.(told := told + [msg.payload.notification]) else this
        case Read(_, Failure(error)) => this.(consumed := consumed + EntryOf(error))
        case Read(via, Success(msg)) =>
          var read := this.(consumed := consumed + [Frame(msg)]);
          if !msg.IsGuestAction() then read
          else if via == Plain then read.(actions := actions + [msg], taken := taken + [msg])
          else read.(actions := actions + [msg], lost := lost + [msg])
      }
    }
  }

  /** What came of the first `k` events. */
  function TakingsTo(log: seq<Event>, k: nat): Takings
    requires k <= |log|
  {
    if k == 0 then Takings([], [], [], [], []) else TakingsTo(log, k - 1).With(log[k - 1])
  }

  function TakingsOf(log: seq<Event>): Takings {
    TakingsTo(log, |log|)
  }

  /** The frame is owed an acknowledgement: not an ack itself, and not skipped while waiting for one. */
  predicate NeedsAck(e: Event) {
    e.Read? && e.via != ForAck && e.result.Success? && !e.result.value.payload.Ack?
  }

  predicate IsAckWrite(e: Event) {
    e.Wrote? && e.msg.payload.Ack?
  }

  /** Every frame owed an ack gets one ack attempt, naming it, right after it was read;
      and there are no other ack attempts. */
  ghost predicate AckedOnce(log: seq<Event>) {
    forall k :: 0 <= k < |log| ==> AckedAt(log, k)
  }

  predicate AckedAt(log: seq<Event>, k: nat)
    requires k < |log|
  {
    && (NeedsAck(log[k]) ==> k + 1 < |log| && AcksFrame(log[k], log[k + 1]))
    && (IsAckWrite(log[k]) ==> 0 < k && AcksFrame(log[k - 1], log[k]))
  }

  predicate AcksFrame(e: Event, a: Event) {
    NeedsAck(e) && IsAckWrite(a) && a.msg.payload.acknowledgedId == a.msg.correlationId == e.result.value.id
  }

  /** The books of a session that began with `script` and an empty log. */
  ghost predicate Accounted(script: seq<Inbound>, st: ChatState) {
    WireAccounted(script, st.wire) && ActionsAccounted(TakingsOf(st.wire.log).taken, st.pending, st.handed)
  }

  ghost predicate WireAccounted(script: seq<Inbound>, w: Wire) {
    Balances(script, TakingsOf(w.log), w.inbound) && AckedOnce(w.log)
  }

  /** Of the script, `t` came and `inbound` is still to come: no entry and no guest action is out of sight. */
  ghost predicate Balances(script: seq<Inbound>, t: Takings, inbound: seq<Inbound>) {
    && script == t.consumed + inbound
    && Arriving(script) == t.actions + Arriving(inbound)
  }

  /** The guest actions the reader took in were handed over or are pending, the latter in order of arrival. */
  ghost predicate ActionsAccounted(taken: seq<Message>, pending: seq<Message>, handed: seq<Message>) {
    && multiset(taken) == multiset(handed) + multiset(pending)
    && Subsequence(pending, taken)
  }

  // ---------- single steps ----------

  lemma {:induction false} TakingsOfPrefix(log: seq<Event>, more: seq<Event>, k: nat)
    requires k <= |log|
    ensures TakingsTo(log + more, k) == TakingsTo(log, k)
  {
    if k > 0 {
      TakingsOfPrefix(log, more, k - 1);
    }
  }

  lemma LogNext(log: seq<Event>, e: Event)
    ensures TakingsOf(log + [e]) == TakingsOf(log).With(e)
  {
    TakingsOfPrefix(log, [e], |log|);
  }

  lemma AckedOnceNext(log: seq<Event>, e: Event)
    requires AckedOnce(log) && !NeedsAck(e) && !IsAckWrite(e)
    ensures AckedOnce(log + [e])
  {
    forall k | 0 <= k < |log + [e]| ensures AckedAt(log + [e], k) {
      if k < |log| {
        assert AckedAt(log, k);
      }
    }
  }

  lemma AckedOncePair(log: seq<Event>, e: Event, a: Event)
    requires AckedOnce(log) && AcksFrame(e, a)
    ensures AckedOnce(log + [e] + [a])
  {
    var all := log + [e] + [a];
    forall k | 0 <= k < |all| ensures AckedAt(all, k) {
      if k < |log| {
        assert AckedAt(log, k);
      }
    }
  }

  /** The guest action taken in by a read, if it was one of the reader's. */
  function TakenBy(via: Via, r: Result<Message>): seq<Message> {
    if r.Success? && via == Plain && r.value.IsGuestAction() then [r.value] else []
  }

  lemma FailedReadBalances(script: seq<Inbound>, t: Takings, inbound: seq<Inbound>, via: Via, error: Error)
    requires Balances(script, t, inbound)
    requires if inbound == [] then EntryOf(error) == [] else EntryOf(error) == [inbound[0]] && !inbound[0].Frame?
    ensures Balances(script, t.With(Read(via, Failure(error))), Rest(inbound))
  {
    assert inbound == EntryOf(error) + Rest(inbound);
    assert t.consumed + (EntryOf(error) + Rest(inbound)) == t.consumed + EntryOf(error) + Rest(inbound);
  }

  lemma FrameBalances(script: seq<Inbound>, t: Takings, msg: Message, rest: seq<Inbound>, via: Via)
    requires Balances(script, t, [Frame(msg)] + rest)
    ensures Balances(script, t.With(Read(via, Success(msg))), rest)
  {
    assert ([Frame(msg)] + rest)[1..] == rest;
    assert t.consumed + ([Frame(msg)] + rest) == t.consumed + [Frame(msg)] + rest;
    if msg.IsGuestAction() {
      assert t.actions + ([msg] + Arriving(rest)) == t.actions + [msg] + Arriving(rest);
    }
  }

  lemma ReadKeepsScript(env: Env, script: seq<Inbound>, w: Wire, via: Via)
    requires Balances(script, TakingsOf(w.log), w.inbound)
    ensures Balances(script, TakingsOf(AfterRead(env, w, via).log), Rest(w.inbound))
    ensures TakingsOf(AfterRead(env, w, via).log).taken
         == TakingsOf(w.log).taken + TakenBy(via, ReadResult(env, w, via))
  {
    var r := ReadResult(env, w, via);
    LogNext(w.log, Read(via, r));
    if r.Success? {
      assert w.inbound == [Frame(r.value)] + Rest(w.inbound);
      FrameBalances(script, TakingsOf(w.log), r.value, Rest(w.inbound), via);
    } else {
      FailedReadBalances(script, TakingsOf(w.log), w.inbound, via, r.error);
    }
  }

  lemma WriteKeepsScript(script: seq<Inbound>, log: seq<Event>, inbound: seq<Inbound>, a: Event)
    requires Balances(script, TakingsOf(log), inbound) && a.Wrote?
    ensures Balances(script, TakingsOf(log + [a]), inbound)
    ensures TakingsOf(log + [a]).taken == TakingsOf(log).taken
  {
    LogNext(log, a);
  }

  /** A read that is not owed an ack: a failure, an ack, or anything seen while waiting for an ack. */
  lemma UnansweredReadKeeps(env: Env, script: seq<Inbound>, st: ChatState, via: Via)
    requires Accounted(script, st) && !NeedsAck(Read(via, ReadResult(env, st.wire, via)))
    ensures Accounted(script, st.(wire := AfterRead(env, st.wire, via)))
  {
    var e := Read(via, ReadResult(env, st.wire, via));
    AckedOnceNext(st.wire.log, e);
    ReadKeepsScript(env, script, st.wire, via);
    assert TakingsOf(st.wire.log).taken + [] == TakingsOf(st.wire.log).taken;
  }

  /** What reading and acknowledging a frame does to the connection. */
  lemma AnsweredReadKeepsWire(env: Env, script: seq<Inbound>, w: Wire, via: Via)
    requires WireAccounted(script, w) && via != ForAck && ReadResult(env, w, via).Success?
    ensures var e := Read(via, ReadResult(env, w, via));
            var w' := AfterAck(env, AfterRead(env, w, via), e.result.value);
            && WireAccounted(script, w')
            && TakingsOf(w'.log).taken == TakingsOf(w.log).taken + TakenBy(via, e.result)
  {
    var e := Read(via, ReadResult(env, w, via));
    var msg := e.result.value;
    ReadKeepsScript(env, script, w, via);
    if msg.IsAck() {
      AckedOnceNext(w.log, e);
    } else {
      var a := Wrote(AckFor(env.uuid(|w.log| + 1, 0), msg), !env.writeFails(|w.log| + 1));
      assert AfterAck(env, AfterRead(env, w, via), msg) == Wire(Rest(w.inbound), w.log + [e] + [a]);
      AckedOncePair(w.log, e, a);
      WriteKeepsScript(script, w.log + [e], Rest(w.inbound), a);
    }
  }

  lemma ActionTakenIn(taken: seq<Message>, pending: seq<Message>, handed: seq<Message>, msg: Message)
    requires ActionsAccounted(taken, pending, handed)
    ensures ActionsAccounted(taken + [msg], pending + [msg], handed)
    ensures ActionsAccounted(taken + [msg], pending, handed + [msg])
  {
    SubsequenceAppend(pending, taken, msg);
    SubsequenceOfGrown(pending, taken, [msg]);
  }

  /** A frame read and acknowledged: kept, handed over, or, inside the writer, dropped. */
  lemma AnsweredReadKeeps(env: Env, script: seq<Inbound>, st: ChatState, via: Via, handOver: bool, talk: seq<Talk>)
    requires Accounted(script, st) && via != ForAck
    requires var r := ReadResult(env, st.wire, via);
             r.Success? && (handOver ==> via == Plain && r.value.IsGuestAction())
    ensures var msg := ReadResult(env, st.wire, via).value;
            var w := AfterAck(env, AfterRead(env, st.wire, via), msg);
            var pending := if via == Plain && !handOver then Kept(st.pending, msg) else st.pending;
            var handed := if handOver then st.handed + [msg] else st.handed;
            Accounted(script, ChatState(w, pending, handed, talk))
  {
    var msg := ReadResult(env, st.wire, via).value;
    var taken := TakingsOf(st.wire.log).taken;
    AnsweredReadKeepsWire(env, script, st.wire, via);
    if via == Plain && msg.IsGuestAction() {
      ActionTakenIn(taken, st.pending, st.handed, msg);
    } else {
      assert taken + [] == taken;
    }
  }

  lemma OwnWriteKeeps(env: Env, script: seq<Inbound>, st: ChatState, message: Message)
    requires Accounted(script, st) && !message.IsAck()
    ensures Accounted(script, st.(wire := AfterWrite(env, st.wire, message)))
  {
    if message.id != "" {
      var e := Wrote(message, !env.writeFails(|st.wire.log|));
      AckedOnceNext(st.wire.log, e);
      WriteKeepsScript(script, st.wire.log, st.wire.inbound, e);
    }
  }

  // ---------- whole operations ----------

  /** A successful wait hands its frame over, and the action was heard. */
  function Handed(out: Waited, st: ChatState, action: GuestAction): ChatState {
    if out.result.Success?
    then ChatState(out.wire, out.pending, st.handed + [out.result.value], st.talk + [Heard(action)])
    else ChatState(out.wire, out.pending, st.handed, st.talk)
  }

  lemma {:induction false} ReadUntilKeeps(env: Env, script: seq<Inbound>, st: ChatState, action: GuestAction)
    requires Accounted(script, st) && action != Unspecified
    ensures Accounted(script, Handed(ReadUntil(env, st.wire, st.pending, action), st, action))
    decreases |st.wire.inbound|
  {
    var r := ReadResult(env, st.wire, Plain);
    var after := Handed(ReadUntil(env, st.wire, st.pending, action), st, action);
    if ContextDone(env, st.wire) {
      assert after == st;
    } else if r.Failure? {
      assert after == st.(wire := AfterRead(env, st.wire, Plain));
      UnansweredReadKeeps(env, script, st, Plain);
    } else if r.value.GuestAction() == action {
      assert after == AfterMatch(env, st, r.value, action);
      AnsweredReadKeeps(env, script, st, Plain, true, after.talk);
    } else {
      var next := AfterOther(env, st, r.value);
      assert after == Handed(ReadUntil(env, next.wire, next.pending, action), next, action);
      AnsweredReadKeeps(env, script, st, Plain, false, st.talk);
      ReadUntilKeeps(env, script, next, action);
    }
  }

  function AfterMatch(env: Env, st: ChatState, msg: Message, action: GuestAction): ChatState {
    ChatState(AfterAck(env, AfterRead(env, st.wire, Plain), msg), st.pending, st.handed + [msg],
              st.talk + [Heard(action)])
  }

  /** A frame came that is not the one waited for. */
  function AfterOther(env: Env, st: ChatState, msg: Message): ChatState {
    st.(wire := AfterAck(env, AfterRead(env, st.wire, Plain), msg), pending := Kept(st.pending, msg))
  }

  lemma TakenOut(pending: seq<Message>, i: nat)
    requires i < |pending|
    ensures multiset(Without(pending, i)) + multiset([pending[i]]) == multiset(pending)
  {
    assert pending == pending[..i] + ([pending[i]] + pending[i + 1..]);
  }

  /** Reader conservation: a wait loses no buffered action, duplicates none, and keeps arrival order. */
  lemma WaitKeeps(env: Env, script: seq<Inbound>, st: ChatState, action: GuestAction)
    requires Accounted(script, st) && action != Unspecified
    ensures Accounted(script, Handed(WaitFor(env, st.wire, st.pending, action), st, action))
  {
    var i := FirstWith(st.pending, action);
    if i < |st.pending| {
      HandOverKeeps(script, st, i);
    } else {
      ReadUntilKeeps(env, script, st, action);
    }
  }

  lemma HandOverKeeps(script: seq<Inbound>, st: ChatState, i: nat)
    requires Accounted(script, st) && i < |st.pending|
    ensures Accounted(script, st.(pending := Without(st.pending, i), handed := st.handed + [st.pending[i]]))
  {
    SubsequenceWithout(st.pending, TakingsOf(st.wire.log).taken, i);
    TakenOut(st.pending, i);
  }

  lemma {:induction false} AckWaitKeeps(env: Env, script: seq<Inbound>, st: ChatState, id: string)
    requires Accounted(script, st)
    ensures Accounted(script, st.(wire := WaitForAck(env, st.wire, id).wire))
    decreases |st.wire.inbound|
  {
    var r := ReadResult(env, st.wire, ForAck);
    UnansweredReadKeeps(env, script, st, ForAck);
    if r.Success? && !IsAckOf(r.value, id) {
      AckWaitKeeps(env, script, st.(wire := AfterRead(env, st.wire, ForAck)), id);
    }
  }

  lemma {:induction false} ReplyWaitKeeps(
      env: Env, script: seq<Inbound>, st: ChatState, id: string, expected: Option<GuestResponse>)
    requires Accounted(script, st)
    ensures Accounted(script, st.(wire := WaitForReply(env, st.wire, id, expected).wire))
    decreases |st.wire.inbound|
  {
    var r := ReadResult(env, st.wire, ForReply);
    var w1 := AfterRead(env, st.wire, ForReply);
    if r.Failure? || r.value.IsAck() {
      UnansweredReadKeeps(env, script, st, ForReply);
      if r.Success? {
        ReplyWaitKeeps(env, script, st.(wire := w1), id, expected);
      }
    } else {
      AnsweredReadKeeps(env, script, st, ForReply, false, st.talk);
      if r.value.correlationId != id {
        ReplyWaitKeeps(env, script, st.(wire := AfterAck(env, w1, r.value)), id, expected);
      }
    }
  }

  lemma {:induction false} SendKeeps(
      env: Env, script: seq<Inbound>, st: ChatState, message: Message, expected: Option<GuestResponse>)
    requires Accounted(script, st) && IsRequest(message)
    ensures Accounted(script, st.(wire := Send(env, st.wire, message, expected).wire))
    decreases |st.wire.inbound|
  {
    OwnWriteKeeps(env, script, st, message);
    var w1 := AfterWrite(env, st.wire, message);
    if WriteResult(env, st.wire, message).Success? {
      AckWaitKeeps(env, script, st.(wire := w1), message.id);
      var acked := WaitForAck(env, w1, message.id);
      if acked.result == Failure(AckNotReceived) {
        SendKeeps(env, script, st.(wire := acked.wire), message, expected);
      } else if acked.result.Success? {
        ReplyWaitKeeps(env, script, st.(wire := acked.wire), message.id, expected);
        var answered := WaitForReply(env, acked.wire, message.id, expected);
        if answered.result == Failure(UnexpectedGuestResponse) {
          SendKeeps(env, script, st.(wire := answered.wire), message, expected);
        }
      }
    }
  }

  // ---------- whole sessions ----------

  datatype Operation =
    | Wait(action: GuestAction)
    | Ask(request: SystemRequest)
    | Tell(notification: SystemNotification)

  function RequestMessage(env: Env, w: Wire, request: SystemRequest): Message {
    Message(env.uuid(|w.log|, 0), env.uuid(|w.log|, 0), Request(request))
  }

  function NotificationMessage(env: Env, w: Wire, notification: SystemNotification): Message {
    Message(env.uuid(|w.log|, 0), env.uuid(|w.log|, 1), Notification(notification))
  }

  function After(env: Env, st: ChatState, op: Operation): ChatState {
    match op {
      case Wait(action) => Handed(WaitFor(env, st.wire, st.pending, action), st, action)
      case Ask(request) =>
        var out := Send(env, st.wire, RequestMessage(env, st.wire, request), Some(Template(request)));
        st.(wire := out.wire, talk := st.talk + AskedBy(request, out.result))
      case Tell(notification) =>
        var message := NotificationMessage(env, st.wire, notification);
        st.(wire := AfterWrite(env, st.wire, message),
            talk := st.talk + if WriteResult(env, st.wire, message).Success? then [Told(notification)] else [])
    }
  }

  function AskedBy(request: SystemRequest, reply: Result<Message>): seq<Talk> {
    if reply.Success? && AnswerText(request, reply.value).Success?
    then [Asked(request, AnswerText(request, reply.value).value)] else []
  }

  function Opening(script: seq<Inbound>): ChatState {
    ChatState(Wire(script, []), [], [], [])
  }

  /** The states of a session on a new connection, operation after operation, whether or not some of them fail. */
  ghost predicate IsHistory(env: Env, script: seq<Inbound>, history: seq<ChatState>, ops: seq<Operation>) {
    && |history| == |ops| + 1
    && history[0] == Opening(script)
    && forall k :: 0 <= k < |ops| ==> IsStep(env, history, ops, k)
  }

  /** The state `k + 1` of a history comes from the state `k` by the operation `k`. */
  ghost predicate IsStep(env: Env, history: seq<ChatState>, ops: seq<Operation>, k: nat)
    requires k < |ops| && |history| == |ops| + 1
  {
    ops[k] != Wait(Unspecified) && history[k + 1] == After(env, history[k], ops[k])
  }

  lemma HistoryNext(env: Env, script: seq<Inbound>, history: seq<ChatState>, ops: seq<Operation>, op: Operation)
    requires IsHistory(env, script, history, ops) && op != Wait(Unspecified)
    ensures IsHistory(env, script, history + [After(env, history[|ops|], op)], ops + [op])
  {
    var history', ops' := history + [After(env, history[|ops|], op)], ops + [op];
    forall k | 0 <= k < |ops'| ensures IsStep(env, history', ops', k) {
      if k < |ops| {
        assert IsStep(env, history, ops, k);
      }
    }
  }

  lemma OperationKeeps(env: Env, script: seq<Inbound>, st: ChatState, op: Operation)
    requires Accounted(script, st) && op != Wait(Unspecified)
    ensures Accounted(script, After(env, st, op))
  {
    match op {
      case Wait(action) => WaitKeeps(env, script, st, action);
      case Ask(request) =>
        SendKeeps(env, script, st, RequestMessage(env, st.wire, request), Some(Template(request)));
      case Tell(notification) =>
        OwnWriteKeeps(env, script, st, NotificationMessage(env, st.wire, notification));
    }
  }

  lemma StepKeeps(env: Env, script: seq<Inbound>, history: seq<ChatState>, ops: seq<Operation>, k: nat)
    requires IsHistory(env, script, history, ops) && 0 < k <= |ops| && Accounted(script, history[k - 1])
    ensures Accounted(script, history[k])
  {
    assert IsStep(env, history, ops, k - 1);
    assert history[k] == After(env, history[k - 1], ops[k - 1]);
    OperationKeeps(env, script, history[k - 1], ops[k - 1]);
  }

  lemma OpeningIsAccounted(script: seq<Inbound>)
    ensures Accounted(script, Opening(script))
  {
    EmptySubsequence<Message>([]);
  }

  /** The books balance at every point of every session, whatever arrives and whatever fails. */
  lemma {:induction false} SessionIsAccounted(env: Env, script: seq<Inbound>, history: seq<ChatState>,
                                              ops: seq<Operation>, k: nat)
    requires IsHistory(env, script, history, ops) && k < |history|
    ensures Accounted(script, history[k])
  {
    if k == 0 {
      assert history[k] == Opening(script);
      OpeningIsAccounted(script);
    } else {
      SessionIsAccounted(env, script, history, ops, k - 1);
      StepKeeps(env, script, history, ops, k);
    }
  }

  /** How often `m` was read is how often it was taken in and how often it was lost. */
  ghost predicate IsTakenOrLost(t: Takings, m: Message) {
    multiset(t.actions)[m] == multiset(t.taken)[m] + multiset(t.lost)[m]
  }

  lemma StaysTakenOrLost(t: Takings, e: Event, m: Message)
    requires IsTakenOrLost(t, m)
    ensures IsTakenOrLost(t.With(e), m)
  {
  }

  lemma {:induction false} ActionsAreTakenOrLost(log: seq<Event>, k: nat, m: Message)
    requires k <= |log|
    ensures IsTakenOrLost(TakingsTo(log, k), m)
  {
    if k > 0 {
      ActionsAreTakenOrLost(log, k - 1, m);
      StaysTakenOrLost(TakingsTo(log, k - 1), log[k - 1], m);
    }
  }

  /** Every guest action of the script is in exactly one place: handed to a handler, buffered, still to come,
      or read inside one of the writer's two wait loops, which is the only way to lose it. */
  lemma ActionsAreLostOnlyInsideTheWriter(script: seq<Inbound>, st: ChatState)
    requires Accounted(script, st)
    ensures multiset(Arriving(script))
         == multiset(st.handed) + multiset(st.pending) + multiset(Arriving(st.wire.inbound))
            + multiset(TakingsOf(st.wire.log).lost)
  {
    var t := TakingsOf(st.wire.log);
    forall m ensures multiset(t.actions)[m] == multiset(t.taken)[m] + multiset(t.lost)[m] {
      ActionsAreTakenOrLost(st.wire.log, |st.wire.log|, m);
    }
  }
}
