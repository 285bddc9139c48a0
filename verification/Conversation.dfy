/** The conversation of a session is what the connection carried: nothing was said that is not on its record. */
module Conversation {
  import opened Outcomes
  import opened Messages
  import opened ChatConnection
  import opened GuestActions
  import opened SystemRequests
  import opened FrameAccounting

  datatype Answer = Answer(request: SystemRequest, text: string)

  /** The three strands of a conversation, each in order. */
  datatype Strands = Strands(heard: seq<GuestAction>, told: seq<SystemNotification>, asked: seq<Answer>) {
    function With(t: Talk): Strands {
      match t {
        case Heard(action) => this.(heard := heard + [action])
        case Told(notification) => this.(told := told + [notification])
        case Asked(request, text) => this.(asked := asked + [Answer(request, text)])
      }
    }
  }

  function StrandsTo(talk: seq<Talk>, k: nat): Strands
    requires k <= |talk|
  {
    if k == 0 then Strands([], [], []) else StrandsTo(talk, k - 1).With(talk[k - 1])
  }

  function StrandsOf(talk: seq<Talk>): Strands {
    StrandsTo(talk, |talk|)
  }

  lemma {:induction false} StrandsOfPrefix(talk: seq<Talk>, more: seq<Talk>, k: nat)
    requires k <= |talk|
    ensures StrandsTo(talk + more, k) == StrandsTo(talk, k)
  {
    if k > 0 {
      StrandsOfPrefix(talk, more, k - 1);
    }
  }

  lemma TalkNext(talk: seq<Talk>, t: Talk)
    ensures StrandsOf(talk + [t]) == StrandsOf(talk).With(t)
  {
    StrandsOfPrefix(talk, [t], |talk|);
  }

  /** The actions heard are those of the frames handed over. */
  ghost predicate HeardFrames(heard: seq<GuestAction>, handed: seq<Message>) {
    |heard| == |handed| && forall i :: 0 <= i < |heard| ==> handed[i].payload == Action(heard[i])
  }

  /** The end of the log confirms this answer to a request made from `start` on. */
  ghost predicate ConfirmsAnswer(log: seq<Event>, start: nat, a: Answer) {
    exists id: Uuid, reply :: ConfirmedWith(log, start, a, id, reply)
  }

  ghost predicate ConfirmedWith(log: seq<Event>, start: nat, a: Answer, id: Uuid, reply: Message) {
    && Confirmed(log, start, Message(id, id, Request(a.request)), reply)
    && match a.request {
         case RequestDocument => reply.payload == Response(Document(a.text))
         case RequestBookingNumber => reply.payload == Response(BookingNumber(a.text))
         case GiveCottageKey => reply.payload == Response(KeyReceived(a.text))
         case RequestCottageKey => reply.payload == Response(KeyReturned(a.text))
       }
  }

  /** The first `k` answers were confirmed one after the other, within the first `n` events. */
  ghost predicate ConfirmedInTurn(log: seq<Event>, n: nat, asked: seq<Answer>, k: nat)
    requires n <= |log| && k <= |asked|
    decreases k
  {
    k == 0 || exists start, end :: LastConfirmed(log, n, asked, k, start, end)
  }

  ghost predicate LastConfirmed(log: seq<Event>, n: nat, asked: seq<Answer>, k: nat, start: int, end: int)
    requires n <= |log| && 0 < k <= |asked|
    decreases k, 0
  {
    && 0 <= start <= end <= n
    && ConfirmsAnswer(log[..end], start, asked[k - 1])
    && ConfirmedInTurn(log, start, asked, k - 1)
  }

  /** Every action heard is that of a frame handed over, every notification told was written, and every answer was
      confirmed on the connection: all of them, in order, and nothing else. */
  ghost predicate Backed(st: ChatState) {
    var s := StrandsOf(st.talk);
    && HeardFrames(s.heard, st.handed)
    && s.told == TakingsOf(st.wire.log).told
    && ConfirmedInTurn(st.wire.log, |st.wire.log|, s.asked, |s.asked|)
  }

  // ---------- growth ----------

  lemma {:induction false} ConfirmedStays(log: seq<Event>, n: nat, log': seq<Event>, n': nat,
                                          asked: seq<Answer>, more: seq<Answer>, k: nat)
    requires n <= |log| && n <= n' <= |log'| && k <= |asked| && log <= log'
    requires ConfirmedInTurn(log, n, asked, k)
    ensures ConfirmedInTurn(log', n', asked + more, k)
    decreases k
  {
    if k > 0 {
      var start, end :| LastConfirmed(log, n, asked, k, start, end);
      assert log'[..end] == log[..end] && (asked + more)[k - 1] == asked[k - 1];
      ConfirmedStays(log, start, log', start, asked, more, k - 1);
      assert LastConfirmed(log', n', asked + more, k, start, end);
    }
  }

  lemma ConfirmedOneMore(log: seq<Event>, log': seq<Event>, asked: seq<Answer>, a: Answer)
    requires log <= log' && ConfirmedInTurn(log, |log|, asked, |asked|) && ConfirmsAnswer(log', |log|, a)
    ensures ConfirmedInTurn(log', |log'|, asked + [a], |asked + [a]|)
  {
    var all := asked + [a];
    ConfirmedStays(log, |log|, log', |log|, asked, [a], |asked|);
    assert |all| - 1 == |asked| && all[|asked|] == a && log'[..|log'|] == log';
    LastOneConfirmed(log', |log|, all);
  }

  lemma LastOneConfirmed(log: seq<Event>, start: nat, asked: seq<Answer>)
    requires asked != [] && start <= |log|
    requires ConfirmsAnswer(log[..|log|], start, asked[|asked| - 1])
    requires ConfirmedInTurn(log, start, asked, |asked| - 1)
    ensures ConfirmedInTurn(log, |log|, asked, |asked|)
  {
    assert LastConfirmed(log, |log|, asked, |asked|, start, |log|);
  }

  // ---------- what an operation leaves on the connection ----------

  /** The log grew, and no notification was told. */
  ghost predicate NothingTold(w: Wire, w': Wire) {
    w.log <= w'.log && TakingsOf(w'.log).told == TakingsOf(w.log).told
  }

  lemma QuietRead(env: Env, w: Wire, via: Via)
    ensures NothingTold(w, AfterRead(env, w, via))
  {
    LogNext(w.log, Read(via, ReadResult(env, w, via)));
  }

  lemma QuietWrite(env: Env, w: Wire, message: Message)
    requires !message.payload.Notification?
    ensures NothingTold(w, AfterWrite(env, w, message))
  {
    if message.id != "" {
      LogNext(w.log, Wrote(message, !env.writeFails(|w.log|)));
    }
  }

  lemma QuietAnsweredRead(env: Env, w: Wire, via: Via)
    requires ReadResult(env, w, via).Success?
    ensures NothingTold(w, AfterAck(env, AfterRead(env, w, via), ReadResult(env, w, via).value))
  {
    var msg, w1 := ReadResult(env, w, via).value, AfterRead(env, w, via);
    QuietRead(env, w, via);
    if !msg.IsAck() {
      QuietWrite(env, w1, AckFor(env.uuid(|w1.log|, 0), msg));
    }
  }

  /** A wait tells nothing, and hands out a frame of the action it waits for. */
  lemma {:induction false} WaitIsQuiet(env: Env, w: Wire, pending: seq<Message>, action: GuestAction)
    ensures var out := ReadUntil(env, w, pending, action);
            && NothingTold(w, out.wire)
            && (out.result.Success? && action != Unspecified ==> out.result.value.payload == Action(action))
    decreases |w.inbound|
  {
    if !ContextDone(env, w) {
      var r := ReadResult(env, w, Plain);
      if r.Failure? {
        QuietRead(env, w, Plain);
      } else {
        QuietAnsweredRead(env, w, Plain);
        if r.value.GuestAction() != action {
          WaitIsQuiet(env, AfterAck(env, AfterRead(env, w, Plain), r.value), Kept(pending, r.value), action);
        }
      }
    }
  }

  lemma {:induction false} AckWaitIsQuiet(env: Env, w: Wire, id: string)
    ensures NothingTold(w, WaitForAck(env, w, id).wire)
    decreases |w.inbound|
  {
    var r := ReadResult(env, w, ForAck);
    QuietRead(env, w, ForAck);
    if r.Success? && !IsAckOf(r.value, id) {
      AckWaitIsQuiet(env, AfterRead(env, w, ForAck), id);
    }
  }

  lemma {:induction false} ReplyWaitIsQuiet(env: Env, w: Wire, id: string, expected: Option<GuestResponse>)
    ensures NothingTold(w, WaitForReply(env, w, id, expected).wire)
    decreases |w.inbound|
  {
    var r := ReadResult(env, w, ForReply);
    var w1 := AfterRead(env, w, ForReply);
    QuietRead(env, w, ForReply);
    if r.Success? {
      if r.value.IsAck() {
        ReplyWaitIsQuiet(env, w1, id, expected);
      } else {
        QuietAnsweredRead(env, w, ForReply);
        if r.value.correlationId != id {
          ReplyWaitIsQuiet(env, AfterAck(env, w1, r.value), id, expected);
        }
      }
    }
  }

  lemma {:induction false} SendIsQuiet(env: Env, w: Wire, message: Message, expected: Option<GuestResponse>)
    requires IsRequest(message)
    ensures NothingTold(w, Send(env, w, message, expected).wire)
    decreases |w.inbound|
  {
    QuietWrite(env, w, message);
    if WriteResult(env, w, message).Success? {
      var w1 := AfterWrite(env, w, message);
      var acked := WaitForAck(env, w1, message.id);
      AckWaitIsQuiet(env, w1, message.id);
      if acked.result == Failure(AckNotReceived) {
        SendIsQuiet(env, acked.wire, message, expected);
      } else if acked.result.Success? {
        var answered := WaitForReply(env, acked.wire, message.id, expected);
        ReplyWaitIsQuiet(env, acked.wire, message.id, expected);
        if answered.result == Failure(UnexpectedGuestResponse) {
          SendIsQuiet(env, answered.wire, message, expected);
        }
      }
    }
  }

  // ---------- whole operations and sessions ----------

  /** What does not speak leaves the conversation backed. */
  lemma SilenceIsBacked(st: ChatState, st': ChatState)
    requires Backed(st) && NothingTold(st.wire, st'.wire) && st'.talk == st.talk && st'.handed == st.handed
    ensures Backed(st')
  {
    var asked := StrandsOf(st.talk).asked;
    ConfirmedStays(st.wire.log, |st.wire.log|, st'.wire.log, |st'.wire.log|, asked, [], |asked|);
    assert asked + [] == asked;
  }

  lemma HearingIsBacked(st: ChatState, st': ChatState, msg: Message)
    requires Backed(st) && NothingTold(st.wire, st'.wire) && msg.payload.Action?
    requires st'.talk == st.talk + [Heard(msg.payload.action)] && st'.handed == st.handed + [msg]
    ensures Backed(st')
  {
    TalkNext(st.talk, Heard(msg.payload.action));
    var asked := StrandsOf(st.talk).asked;
    ConfirmedStays(st.wire.log, |st.wire.log|, st'.wire.log, |st'.wire.log|, asked, [], |asked|);
    assert asked + [] == asked;
  }

  lemma WaitsForTheAction(env: Env, w: Wire, pending: seq<Message>, action: GuestAction)
    ensures var r := WaitFor(env, w, pending, action).result;
            r.Success? && action != Unspecified ==> r.value.payload == Action(action)
  {
    WaitIsQuiet(env, w, pending, action);
  }

  lemma WaitIsBacked(env: Env, st: ChatState, action: GuestAction)
    requires Backed(st) && action != Unspecified
    ensures Backed(After(env, st, Wait(action)))
  {
    var out := WaitFor(env, st.wire, st.pending, action);
    var st' := After(env, st, Wait(action));
    assert st' == Handed(out, st, action);
    if FirstWith(st.pending, action) == |st.pending| {
      WaitIsQuiet(env, st.wire, st.pending, action);
    }
    if out.result.Success? {
      HearingIsBacked(st, st', out.result.value);
    } else {
      SilenceIsBacked(st, st');
    }
  }

  /** An accepted answer was confirmed on the connection, and its text is what the reply carried. */
  lemma AskIsConfirmed(env: Env, w: Wire, request: SystemRequest)
    ensures var out := Send(env, w, RequestMessage(env, w, request), Some(Template(request)));
            out.result.Success? ==>
              && AnswerText(request, out.result.value).Success?
              && ConfirmsAnswer(out.wire.log, |w.log|,
                                Answer(request, AnswerText(request, out.result.value).value))
  {
    var message := RequestMessage(env, w, request);
    var out := Send(env, w, message, Some(Template(request)));
    if out.result.Success? {
      HandlersNeverSeeUnexpectedResponse(env, w, message.id, request);
      SendIsSound(env, w, message, Some(Template(request)));
      var a := Answer(request, AnswerText(request, out.result.value).value);
      assert ConfirmedWith(out.wire.log, |w.log|, a, message.id, out.result.value);
    }
  }

  lemma AskIsBacked(env: Env, st: ChatState, request: SystemRequest)
    requires Backed(st)
    ensures Backed(After(env, st, Ask(request)))
  {
    var message := RequestMessage(env, st.wire, request);
    var out := Send(env, st.wire, message, Some(Template(request)));
    var st' := After(env, st, Ask(request));
    SendIsQuiet(env, st.wire, message, Some(Template(request)));
    if out.result.Success? {
      AskIsConfirmed(env, st.wire, request);
      var a := Answer(request, AnswerText(request, out.result.value).value);
      TalkNext(st.talk, Asked(request, a.text));
      ConfirmedOneMore(st.wire.log, out.wire.log, StrandsOf(st.talk).asked, a);
    } else {
      assert st'.talk == st.talk;
      SilenceIsBacked(st, st');
    }
  }

  lemma TellIsBacked(env: Env, st: ChatState, notification: SystemNotification)
    requires Backed(st)
    ensures Backed(After(env, st, Tell(notification)))
  {
    var message := NotificationMessage(env, st.wire, notification);
    var st' := After(env, st, Tell(notification));
    var asked := StrandsOf(st.talk).asked;
    LogNext(st.wire.log, Wrote(message, !env.writeFails(|st.wire.log|)));
    TalkNext(st.talk, Told(notification));
    ConfirmedStays(st.wire.log, |st.wire.log|, st'.wire.log, |st'.wire.log|, asked, [], |asked|);
    assert asked + [] == asked;
    assert st.talk + [] == st.talk;
  }

  /** At every point of every session the whole conversation is backed by the connection. */
  lemma {:induction false} SessionIsBacked(env: Env, script: seq<Inbound>, history: seq<ChatState>,
                                           ops: seq<Operation>, k: nat)
    requires IsHistory(env, script, history, ops) && k < |history|
    ensures Backed(history[k])
  {
    if k == 0 {
      assert history[k] == Opening(script);
    } else {
      SessionIsBacked(env, script, history, ops, k - 1);
      OperationIsBacked(env, script, history, ops, k);
    }
  }

  lemma OperationIsBacked(env: Env, script: seq<Inbound>, history: seq<ChatState>, ops: seq<Operation>, k: nat)
    requires IsHistory(env, script, history, ops) && 0 < k <= |ops| && Backed(history[k - 1])
    ensures Backed(history[k])
  {
    assert IsStep(env, history, ops, k - 1);
    assert history[k] == After(env, history[k - 1], ops[k - 1]);
    match ops[k - 1] {
      case Wait(action) => WaitIsBacked(env, history[k - 1], action);
      case Ask(request) => AskIsBacked(env, history[k - 1], request);
      case Tell(notification) => TellIsBacked(env, history[k - 1], notification);
    }
  }
}
