/** When a request succeeds: the exact condition on what arrives, as long as nothing times out and writes go through. */
module RequestSuccess {
  import opened Outcomes
  import opened Messages
  import opened ChatConnection
  import opened SystemRequests

  /** Only frames arrive. */
  predicate OnlyFrames(inbound: seq<Inbound>) {
    forall k :: 0 <= k < |inbound| ==> inbound[k].Frame?
  }

  ghost predicate WritesGoThrough(env: Env) {
    forall n :: !env.writeFails(n)
  }

  /** What a request is about: its id, and the answer it hopes for. */
  datatype Hope = Hope(id: string, expected: Option<GuestResponse>)

  predicate IsTheAck(e: Inbound, h: Hope) {
    e.Frame? && IsAckOf(e.msg, h.id)
  }

  predicate IsAnswer(e: Inbound, h: Hope) {
    e.Frame? && !e.msg.IsAck() && e.msg.correlationId == h.id
  }

  predicate IsRight(e: Inbound, h: Hope) {
    IsAnswer(e, h) && GuestResponseMatchesExpected(e.msg.GuestResponse(), h.expected)
  }

  predicate IsWrong(e: Inbound, h: Hope) {
    IsAnswer(e, h) && !GuestResponseMatchesExpected(e.msg.GuestResponse(), h.expected)
  }

  /** A right answer from position `i` on, with no wrong one before it. */
  ghost predicate RightAt(inbound: seq<Inbound>, h: Hope, i: int, j: int) {
    && 0 <= i <= j < |inbound| && IsRight(inbound[j], h)
    && forall m :: i <= m < j ==> !IsWrong(inbound[m], h)
  }

  ghost predicate AnswerComes(inbound: seq<Inbound>, h: Hope) {
    exists j :: RightAt(inbound, h, 0, j)
  }

  ghost predicate ConfirmedAt(inbound: seq<Inbound>, h: Hope, i: int, j: int) {
    0 <= i < |inbound| && IsTheAck(inbound[i], h) && RightAt(inbound, h, i + 1, j)
  }

  /** Some ack naming the request is followed by a right answer, with no wrong one between the two. */
  ghost predicate ConfirmationComes(inbound: seq<Inbound>, h: Hope) {
    exists i, j :: ConfirmedAt(inbound, h, i, j)
  }

  // ---------- one frame at a time ----------

  lemma AnswerOneLater(inbound: seq<Inbound>, h: Hope)
    requires inbound != []
    ensures AnswerComes(inbound, h) <==>
            IsRight(inbound[0], h) || (!IsWrong(inbound[0], h) && AnswerComes(inbound[1..], h))
  {
    var rest := inbound[1..];
    if AnswerComes(inbound, h) && !IsRight(inbound[0], h) {
      var j :| RightAt(inbound, h, 0, j);
      assert forall m :: 0 <= m < j - 1 ==> rest[m] == inbound[m + 1];
      assert RightAt(rest, h, 0, j - 1);
    }
    if IsRight(inbound[0], h) {
      assert RightAt(inbound, h, 0, 0);
    } else if !IsWrong(inbound[0], h) && AnswerComes(rest, h) {
      var j :| RightAt(rest, h, 0, j);
      assert forall m :: 1 <= m < j + 1 ==> inbound[m] == rest[m - 1];
      assert RightAt(inbound, h, 0, j + 1);
    }
  }

  lemma ConfirmationOneLater(inbound: seq<Inbound>, h: Hope)
    requires inbound != []
    ensures ConfirmationComes(inbound, h) <==>
            ConfirmationComes(inbound[1..], h) || (IsTheAck(inbound[0], h) && AnswerComes(inbound[1..], h))
  {
    var rest := inbound[1..];
    if ConfirmationComes(inbound, h) {
      var i, j :| ConfirmedAt(inbound, h, i, j);
      assert forall m :: i + 1 <= m <= j ==> rest[m - 1] == inbound[m];
      if i == 0 {
        assert RightAt(rest, h, 0, j - 1);
      } else {
        assert rest[i - 1] == inbound[i];
        assert ConfirmedAt(rest, h, i - 1, j - 1);
      }
    }
    if ConfirmationComes(rest, h) {
      var i, j :| ConfirmedAt(rest, h, i, j);
      assert forall m :: i <= m <= j ==> inbound[m + 1] == rest[m];
      assert ConfirmedAt(inbound, h, i + 1, j + 1);
    }
    if IsTheAck(inbound[0], h) && AnswerComes(rest, h) {
      var j :| RightAt(rest, h, 0, j);
      assert forall m :: 0 <= m <= j ==> inbound[m + 1] == rest[m];
      assert ConfirmedAt(inbound, h, 0, j + 1);
    }
  }

  // ---------- the two waits and the request ----------

  /** After the ack, an answer will do, or another ack and an answer. */
  lemma {:induction false} AckWaitDecides(env: Env, w: Wire, h: Hope)
    requires OnlyFrames(w.inbound)
    ensures var out := WaitForAck(env, w, h.id);
            && OnlyFrames(out.wire.inbound)
            && out.result != Failure(AckNotReceived)
            && (out.result.Success? ==>
                  (ConfirmationComes(w.inbound, h) <==>
                   AnswerComes(out.wire.inbound, h) || ConfirmationComes(out.wire.inbound, h)))
            && (out.result.Failure? ==> !ConfirmationComes(w.inbound, h))
    decreases |w.inbound|
  {
    if w.inbound != [] {
      ConfirmationOneLater(w.inbound, h);
      if !IsAckOf(w.inbound[0].msg, h.id) {
        AckWaitDecides(env, AfterRead(env, w, ForAck), h);
      }
    }
  }

  lemma {:induction false} ReplyWaitDecides(env: Env, w: Wire, h: Hope)
    requires OnlyFrames(w.inbound)
    ensures var out := WaitForReply(env, w, h.id, h.expected);
            var comes := AnswerComes(w.inbound, h) || ConfirmationComes(w.inbound, h);
            && OnlyFrames(out.wire.inbound)
            && (out.result.Success? ==> comes)
            && (out.result == Failure(UnexpectedGuestResponse) ==> (comes <==> ConfirmationComes(out.wire.inbound, h)))
            && (out.result.Failure? && out.result != Failure(UnexpectedGuestResponse) ==> !comes)
    decreases |w.inbound|
  {
    if w.inbound != [] {
      var msg := w.inbound[0].msg;
      AnswerOneLater(w.inbound, h);
      ConfirmationOneLater(w.inbound, h);
      if msg.IsAck() {
        ReplyWaitDecides(env, AfterRead(env, w, ForReply), h);
      } else if msg.correlationId != h.id {
        ReplyWaitDecides(env, AfterAck(env, AfterRead(env, w, ForReply), msg), h);
      }
    }
  }

  /** The frame answers the request, whatever kind of response it carries. */
  predicate Answers(e: Inbound, id: string) {
    e.Frame? && !e.msg.payload.Ack? && e.msg.correlationId == id
  }

  /** The response that the request asks for: the document, the booking number, or the key received or returned. */
  predicate IsAskedFor(payload: Payload, request: SystemRequest) {
    && payload.Response?
    && match request {
         case RequestDocument => payload.response.Document?
         case RequestBookingNumber => payload.response.BookingNumber?
         case GiveCottageKey => payload.response.KeyReceived?
         case RequestCottageKey => payload.response.KeyReturned?
       }
  }

  /** An ack naming the request at `i`, the response asked for at `j`, and no other answer in between. */
  ghost predicate AnsweredAt(inbound: seq<Inbound>, id: string, request: SystemRequest, i: int, j: int) {
    && 0 <= i < j < |inbound|
    && inbound[i].Frame? && inbound[i].msg.payload == Ack(id)
    && Answers(inbound[j], id) && IsAskedFor(inbound[j].msg.payload, request)
    && forall m :: i < m < j && Answers(inbound[m], id) ==> IsAskedFor(inbound[m].msg.payload, request)
  }

  /** The four requests of the handlers: each succeeds exactly when an ack naming it is followed by the response it asks
      for, with no other kind of answer in between. */
  lemma AskSucceedsExactlyWhenAnswered(env: Env, w: Wire, id: Uuid, request: SystemRequest)
    requires OnlyFrames(w.inbound) && WritesGoThrough(env)
    ensures Send(env, w, Message(id, id, Request(request)), Some(Template(request))).result.Success? <==>
            exists i, j :: AnsweredAt(w.inbound, id, request, i, j)
  {
    var h := Hope(id, Some(Template(request)));
    RequestSucceedsExactlyWhenConfirmed(env, w, Message(id, id, Request(request)), h.expected);
    forall i, j ensures ConfirmedAt(w.inbound, h, i, j) <==> AnsweredAt(w.inbound, id, request, i, j) {
      ConfirmedIsAnswered(w.inbound, id, request, i, j);
    }
  }

  lemma RightIsAskedFor(e: Inbound, id: string, request: SystemRequest)
    ensures IsRight(e, Hope(id, Some(Template(request)))) <==> Answers(e, id) && IsAskedFor(e.msg.payload, request)
    ensures IsWrong(e, Hope(id, Some(Template(request)))) <==> Answers(e, id) && !IsAskedFor(e.msg.payload, request)
  {
  }

  lemma ConfirmedIsAnswered(inbound: seq<Inbound>, id: string, request: SystemRequest, i: int, j: int)
    ensures ConfirmedAt(inbound, Hope(id, Some(Template(request))), i, j) <==> AnsweredAt(inbound, id, request, i, j)
  {
    forall m | 0 <= m < |inbound|
      ensures IsRight(inbound[m], Hope(id, Some(Template(request)))) <==>
              Answers(inbound[m], id) && IsAskedFor(inbound[m].msg.payload, request)
      ensures IsWrong(inbound[m], Hope(id, Some(Template(request)))) <==>
              Answers(inbound[m], id) && !IsAskedFor(inbound[m].msg.payload, request)
    {
      RightIsAskedFor(inbound[m], id, request);
    }
  }

  /** A request succeeds exactly when some ack naming it is followed by a right answer with no wrong one in between,
      however many acks, wrong answers and other frames arrive, and however often it is written again. */
  lemma {:induction false} RequestSucceedsExactlyWhenConfirmed(
    env: Env, w: Wire, message: Message, expected: Option<GuestResponse>)
    requires OnlyFrames(w.inbound) && WritesGoThrough(env) && message.id != ""
    ensures Send(env, w, message, expected).result.Success? <==>
            ConfirmationComes(w.inbound, Hope(message.id, expected))
    decreases |w.inbound|
  {
    var h := Hope(message.id, expected);
    var w1 := AfterWrite(env, w, message);
    var acked := WaitForAck(env, w1, message.id);
    AckWaitDecides(env, w1, h);
    if acked.result.Success? {
      var answered := WaitForReply(env, acked.wire, message.id, expected);
      ReplyWaitDecides(env, acked.wire, h);
      if answered.result == Failure(UnexpectedGuestResponse) {
        RequestSucceedsExactlyWhenConfirmed(env, answered.wire, message, expected);
      }
    }
  }
}
