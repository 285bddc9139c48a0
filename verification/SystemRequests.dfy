/** The resend protocol for system requests: write, wait for the ack, wait for the answer. */
module SystemRequests {
  import opened Outcomes
  import opened Messages
  import opened ChatConnection

  datatype Acked = Acked(result: Result<Unit>, wire: Wire)
  datatype Answered = Answered(result: Result<Message>, wire: Wire)

  predicate IsAckOf(msg: Message, id: string) {
    msg.payload == Ack(id)
  }

  /** Read until the ack naming `id`; wrong acks and other frames are dropped, unacknowledged. */
  function WaitForAck(env: Env, w: Wire, id: string): (out: Acked)
    ensures |out.wire.inbound| <= |w.inbound|
    ensures out.result != Failure(ConnectionClosed) ==> |out.wire.inbound| < |w.inbound|
    ensures out.result.Failure? ==>
      out.result.error in {ReadTimeout, ConnectionClosed, BadFrame, AckNotReceived}
    decreases |w.inbound|
  {
    var r := ReadResult(env, w, ForAck);
    var w1 := AfterRead(env, w, ForAck);
    if r.Failure? then Acked(Failure(r.error), w1)
    else if IsAckOf(r.value, id) then Acked(Success(Unit), w1)
    else WaitForAck(env, w1, id)
  }

  /** Read until a non-ack correlated with `id`; everything but acks is acknowledged. */
  function WaitForReply(env: Env, w: Wire, id: string, expected: Option<GuestResponse>): (out: Answered)
    ensures |out.wire.inbound| <= |w.inbound|
    ensures out.result.Failure? ==>
      out.result.error in {ReadTimeout, ConnectionClosed, BadFrame, ReplyNotReceived, UnexpectedGuestResponse}
    decreases |w.inbound|
  {
    var r := ReadResult(env, w, ForReply);
    var w1 := AfterRead(env, w, ForReply);
    if r.Failure? then Answered(r, w1)
    else if r.value.IsAck() then WaitForReply(env, w1, id, expected)
    else
      var w2 := AfterAck(env, w1, r.value);
      if r.value.correlationId != id then WaitForReply(env, w2, id, expected)
      else if GuestResponseMatchesExpected(r.value.GuestResponse(), expected) then Answered(r, w2)
      else Answered(Failure(UnexpectedGuestResponse), w2)
  }

  /** Write the message and wait for both answers; an ack timeout or an answer of the wrong kind starts over. */
  function Send(env: Env, w: Wire, message: Message, expected: Option<GuestResponse>): (out: Answered)
    ensures out.result.Failure? ==>
      out.result.error in {EmptyMessageId, WriteFailed, ReadTimeout, ConnectionClosed, BadFrame, ReplyNotReceived}
    decreases |w.inbound|
  {
    var written := WriteResult(env, w, message);
    var w1 := AfterWrite(env, w, message);
    if written.Failure? then Answered(Failure(written.error), w1)
    else
      var acked := WaitForAck(env, w1, message.id);
      if acked.result == Failure(AckNotReceived) then Send(env, acked.wire, message, expected)
      else if acked.result.Failure? then Answered(Failure(acked.result.error), acked.wire)
      else
        var answered := WaitForReply(env, acked.wire, message.id, expected);
        if answered.result == Failure(UnexpectedGuestResponse) then Send(env, answered.wire, message, expected)
        else answered
  }

  predicate IsRequest(message: Message) {
    message.id != "" && message.payload.Request?
  }

  // ---------- how often the message is written ----------

  datatype Tally = Tally(writes: nat, ackTimeouts: nat, unexpected: nat) {
    function Plus(other: Tally): Tally {
      Tally(writes + other.writes, ackTimeouts + other.ackTimeouts, unexpected + other.unexpected)
    }
  }

  /** What one event adds: an attempt to write the message, an ack timeout, an answer of the wrong kind. */
  function TallyOf(e: Event, message: Message, expected: Option<GuestResponse>): Tally {
    if e.Wrote? then Tally(if e.msg == message then 1 else 0, 0, 0)
    else if e.result == Failure(AckNotReceived) then Tally(0, 1, 0)
    else Tally(0, 0, if IsUnexpectedAnswer(e, message.id, expected) then 1 else 0)
  }

  predicate IsUnexpectedAnswer(e: Event, id: string, expected: Option<GuestResponse>) {
    && e.Read? && e.via == ForReply && e.result.Success?
    && !e.result.value.IsAck() && e.result.value.correlationId == id
    && !GuestResponseMatchesExpected(e.result.value.GuestResponse(), expected)
  }

  function TallyAll(log: seq<Event>, message: Message, expected: Option<GuestResponse>): Tally {
    TallyTo(log, |log|, message, expected)
  }

  /** The tally of the first `k` events. */
  function TallyTo(log: seq<Event>, k: nat, message: Message, expected: Option<GuestResponse>): Tally
    requires k <= |log|
  {
    if k == 0 then Tally(0, 0, 0)
    else TallyTo(log, k - 1, message, expected).Plus(TallyOf(log[k - 1], message, expected))
  }

  lemma {:induction false} TallyOfPrefix(log: seq<Event>, e: Event, k: nat, message: Message,
                                         expected: Option<GuestResponse>)
    requires k <= |log|
    ensures TallyTo(log + [e], k, message, expected) == TallyTo(log, k, message, expected)
  {
    if k > 0 {
      TallyOfPrefix(log, e, k - 1, message, expected);
    }
  }

  lemma TallyNext(log: seq<Event>, e: Event, message: Message, expected: Option<GuestResponse>)
    ensures TallyAll(log + [e], message, expected)
         == TallyAll(log, message, expected).Plus(TallyOf(e, message, expected))
  {
    TallyOfPrefix(log, e, |log|, message, expected);
  }

  lemma {:induction false} AckWaitTally(env: Env, w: Wire, message: Message, expected: Option<GuestResponse>)
    ensures
      var out := WaitForAck(env, w, message.id);
      var more := Tally(0, if out.result == Failure(AckNotReceived) then 1 else 0, 0);
      TallyAll(out.wire.log, message, expected) == TallyAll(w.log, message, expected).Plus(more)
    decreases |w.inbound|
  {
    var r := ReadResult(env, w, ForAck);
    var w1 := AfterRead(env, w, ForAck);
    var one := TallyOf(Read(ForAck, r), message, expected);
    TallyNext(w.log, Read(ForAck, r), message, expected);
    if r.Success? && !IsAckOf(r.value, message.id) {
      assert one == Tally(0, 0, 0);
      AckWaitTally(env, w1, message, expected);
    } else {
      assert WaitForAck(env, w, message.id).wire == w1;
      assert one == Tally(0, if r == Failure(AckNotReceived) then 1 else 0, 0);
    }
  }

  /** Reading a frame for a reply and acknowledging it counts as nothing but, perhaps, an unexpected answer. */
  lemma AnsweredReadTally(env: Env, w: Wire, message: Message, expected: Option<GuestResponse>)
    requires IsRequest(message) && ReadResult(env, w, ForReply).Success?
    ensures
      var e := Read(ForReply, ReadResult(env, w, ForReply));
      var w2 := AfterAck(env, AfterRead(env, w, ForReply), e.result.value);
      var more := Tally(0, 0, if IsUnexpectedAnswer(e, message.id, expected) then 1 else 0);
      TallyAll(w2.log, message, expected) == TallyAll(w.log, message, expected).Plus(more)
  {
    var r := ReadResult(env, w, ForReply);
    var e := Read(ForReply, r);
    TallyNext(w.log, e, message, expected);
    if !r.value.IsAck() {
      var a := Wrote(AckFor(env.uuid(|w.log| + 1, 0), r.value), !env.writeFails(|w.log| + 1));
      TallyNext(w.log + [e], a, message, expected);
      assert AfterAck(env, AfterRead(env, w, ForReply), r.value).log == w.log + [e] + [a];
      assert TallyOf(a, message, expected) == Tally(0, 0, 0);
    }
  }

  lemma {:induction false} ReplyWaitTally(env: Env, w: Wire, message: Message, expected: Option<GuestResponse>)
    requires IsRequest(message)
    ensures
      var out := WaitForReply(env, w, message.id, expected);
      var more := Tally(0, 0, if out.result == Failure(UnexpectedGuestResponse) then 1 else 0);
      TallyAll(out.wire.log, message, expected) == TallyAll(w.log, message, expected).Plus(more)
    decreases |w.inbound|
  {
    var r := ReadResult(env, w, ForReply);
    var w1 := AfterRead(env, w, ForReply);
    if r.Failure? {
      TallyNext(w.log, Read(ForReply, r), message, expected);
    } else {
      var w2 := AfterAck(env, w1, r.value);
      if r.value.IsAck() || r.value.correlationId != message.id {
        assert WaitForReply(env, w, message.id, expected) == WaitForReply(env, w2, message.id, expected);
        ReplyWaitTally(env, w2, message, expected);
      } else {
        assert WaitForReply(env, w, message.id, expected).wire == w2;
      }
      AnsweredReadTally(env, w, message, expected);
    }
  }

  /** On every outcome the message is written once, plus once more for every ack timeout
      and once more for every correlated answer of the wrong kind. */
  lemma {:induction false} WritesAreCounted(env: Env, w: Wire, message: Message, expected: Option<GuestResponse>)
    requires IsRequest(message)
    ensures
      var before := TallyAll(w.log, message, expected);
      var after := TallyAll(Send(env, w, message, expected).wire.log, message, expected);
      after.writes - before.writes ==
      1 + (after.ackTimeouts - before.ackTimeouts) + (after.unexpected - before.unexpected)
    decreases |w.inbound|
  {
    var w1 := AfterWrite(env, w, message);
    TallyNext(w.log, w1.log[|w.log|], message, expected);
    if WriteResult(env, w, message).Failure? {
      return;
    }
    var acked := WaitForAck(env, w1, message.id);
    AckWaitTally(env, w1, message, expected);
    if acked.result == Failure(AckNotReceived) {
      WritesAreCounted(env, acked.wire, message, expected);
    } else if acked.result.Success? {
      var answered := WaitForReply(env, acked.wire, message.id, expected);
      ReplyWaitTally(env, acked.wire, message, expected);
      if answered.result == Failure(UnexpectedGuestResponse) {
        WritesAreCounted(env, answered.wire, message, expected);
      }
    }
  }

  // ---------- what the log of one request looks like ----------

  predicate IsWriteOf(e: Event, message: Message) {
    e.Wrote? && e.msg == message
  }

  /** At `k` stands the acknowledgement of the frame read for a reply just before it. */
  ghost predicate AcksTheReplyBefore(log: seq<Event>, k: nat)
    requires k < |log|
  {
    && 0 < k
    && log[k - 1].Read? && log[k - 1].via == ForReply && log[k - 1].result.Success?
    && log[k].Wrote? && log[k].msg.payload == Ack(log[k - 1].result.value.id)
  }

  /** From `start` on: one message is written, everything else written acknowledges a frame just read,
      and a read that failed otherwise than by an ack timeout is the last event and the result. */
  ghost predicate Disciplined(log: seq<Event>, start: nat, message: Message, result: Result<Message>) {
    forall k :: start <= k < |log| ==> DisciplinedAt(log, k, message, result)
  }

  ghost predicate DisciplinedAt(log: seq<Event>, k: nat, message: Message, result: Result<Message>)
    requires k < |log|
  {
    match log[k]
    case Wrote(m, _) => m == message || AcksTheReplyBefore(log, k)
    case Read(via, r) =>
      && via != Plain
      && (r.Failure? && r.error != AckNotReceived ==> k == |log| - 1 && result == r)
  }

  /** The message was written, then acknowledged by name, never written again, and then answered;
      the answer and its acknowledgement close the log. */
  ghost predicate Confirmed(log: seq<Event>, start: nat, message: Message, reply: Message) {
    exists h, i :: ConfirmedBy(log, start, h, i, message, reply)
  }

  /** The last write at `h`, the ack at `i`, the answer and its own ack at the end. */
  ghost predicate ConfirmedBy(log: seq<Event>, start: nat, h: int, i: int, message: Message, reply: Message) {
    && start <= h < i < |log| - 2
    && log[h] == Wrote(message, true)
    && log[i].Read? && log[i].via == ForAck && log[i].result.Success? && IsAckOf(log[i].result.value, message.id)
    && (forall k :: h < k < |log| ==> !IsWriteOf(log[k], message))
    && log[|log| - 2] == Read(ForReply, Success(reply))
    && log[|log| - 1].Wrote? && log[|log| - 1].msg.payload == Ack(reply.id)
  }

  lemma {:induction false} AckWaitLog(env: Env, w: Wire, id: string)
    ensures var out := WaitForAck(env, w, id);
            && w.log < out.wire.log
            && (forall k :: |w.log| <= k < |out.wire.log| ==>
                  && out.wire.log[k].Read? && out.wire.log[k].via == ForAck
                  && (k < |out.wire.log| - 1 ==> out.wire.log[k].result.Success?))
            && var last := out.wire.log[|out.wire.log| - 1].result;
               if out.result.Success? then last.Success? && IsAckOf(last.value, id)
               else last == Failure(out.result.error)
    decreases |w.inbound|
  {
    var r := ReadResult(env, w, ForAck);
    if r.Success? && !IsAckOf(r.value, id) {
      AckWaitLog(env, AfterRead(env, w, ForAck), id);
    }
  }

  /** One event of a reply wait, at `k` of `log`. */
  ghost predicate ReplyWaitEvent(log: seq<Event>, k: nat)
    requires k < |log|
  {
    if log[k].Read? then log[k].via == ForReply && (log[k].result.Failure? ==> k == |log| - 1)
    else AcksTheReplyBefore(log, k)
  }

  /** From `start` on the log holds events of a reply wait, at least one. */
  ghost predicate ReplyWaitEvents(log: seq<Event>, start: nat) {
    start < |log| && forall k :: start <= k < |log| ==> ReplyWaitEvent(log, k)
  }

  /** Putting one more event before a reply wait that goes on. */
  lemma ReplyWaitEarlier(log: seq<Event>, start: nat)
    requires ReplyWaitEvents(log, start + 1) && ReplyWaitEvent(log, start)
    ensures ReplyWaitEvents(log, start)
  {
  }

  lemma {:induction false} ReplyWaitLog(env: Env, w: Wire, id: string, expected: Option<GuestResponse>)
    ensures w.log < WaitForReply(env, w, id, expected).wire.log
    ensures ReplyWaitEvents(WaitForReply(env, w, id, expected).wire.log, |w.log|)
    decreases |w.inbound|
  {
    var r := ReadResult(env, w, ForReply);
    var w1 := AfterRead(env, w, ForReply);
    var log := WaitForReply(env, w, id, expected).wire.log;
    if r.Success? {
      if r.value.IsAck() {
        ReplyWaitLog(env, w1, id, expected);
        assert log[|w.log|] == w1.log[|w.log|];
        ReplyWaitEarlier(log, |w.log|);
      } else {
        var w2 := AfterAck(env, w1, r.value);
        if r.value.correlationId != id {
          ReplyWaitLog(env, w2, id, expected);
          assert log[|w.log|] == w2.log[|w.log|] && log[|w.log| + 1] == w2.log[|w.log| + 1];
          ReplyWaitEarlier(log, |w.log| + 1);
          ReplyWaitEarlier(log, |w.log|);
        }
      }
    }
  }

  /** How a reply wait ends: with an answer and its ack, of the right kind or the wrong one, or with the read
      that failed. */
  ghost predicate EndsAReplyWait(log: seq<Event>, result: Result<Message>, id: string,
                                 expected: Option<GuestResponse>)
  {
    var last := |log| - 1;
    match result {
      case Success(reply) =>
        && 1 <= last && log[last - 1] == Read(ForReply, result) && log[last].Wrote?
        && reply.correlationId == id && GuestResponseMatchesExpected(reply.GuestResponse(), expected)
      case Failure(error) =>
        if error == UnexpectedGuestResponse
        then 1 <= last && IsUnexpectedAnswer(log[last - 1], id, expected) && log[last].Wrote?
        else 0 <= last && log[last] == Read(ForReply, result)
    }
  }

  lemma {:induction false} ReplyWaitEnd(env: Env, w: Wire, id: string, expected: Option<GuestResponse>)
    ensures var out := WaitForReply(env, w, id, expected);
            EndsAReplyWait(out.wire.log, out.result, id, expected)
    ensures var out := WaitForReply(env, w, id, expected);
            |out.wire.log| >= |w.log| + if out.result.Success? then 2 else 1
    decreases |w.inbound|
  {
    var r := ReadResult(env, w, ForReply);
    var w1 := AfterRead(env, w, ForReply);
    if r.Success? {
      if r.value.IsAck() {
        ReplyWaitEnd(env, w1, id, expected);
      } else if r.value.correlationId != id {
        ReplyWaitEnd(env, AfterAck(env, w1, r.value), id, expected);
      }
    }
  }

  lemma MonotoneConfirmation(log: seq<Event>, start: nat, later: nat, message: Message, reply: Message)
    requires start <= later && Confirmed(log, later, message, reply)
    ensures Confirmed(log, start, message, reply)
  {
    var h, i :| ConfirmedBy(log, later, h, i, message, reply);
    assert ConfirmedBy(log, start, h, i, message, reply);
  }

  /** The write and the ack wait of one round leave disciplined events behind, whatever follows them. */
  lemma AckRoundIsDisciplined(env: Env, w: Wire, message: Message, log: seq<Event>, result: Result<Message>)
    requires WriteResult(env, w, message).Success?
    requires var acked := WaitForAck(env, AfterWrite(env, w, message), message.id);
             && acked.wire.log <= log
             && (acked.result.Success? || acked.result == Failure(AckNotReceived)
                 || (log == acked.wire.log && result == Failure(acked.result.error)))
    ensures forall k :: |w.log| <= k < |WaitForAck(env, AfterWrite(env, w, message), message.id).wire.log| ==>
              DisciplinedAt(log, k, message, result)
  {
    var w1 := AfterWrite(env, w, message);
    var acked := WaitForAck(env, w1, message.id);
    AckWaitLog(env, w1, message.id);
    forall k | |w.log| <= k < |acked.wire.log| ensures DisciplinedAt(log, k, message, result) {
      assert log[k] == acked.wire.log[k];
      if k == |w.log| {
        assert log[k] == w1.log[k];
      }
    }
  }

  lemma ReplyRoundIsDisciplined(env: Env, w: Wire, message: Message, expected: Option<GuestResponse>,
                                log: seq<Event>, result: Result<Message>)
    requires var answered := WaitForReply(env, w, message.id, expected);
             && answered.wire.log <= log
             && (answered.result.Success? || answered.result == Failure(UnexpectedGuestResponse)
                 || (log == answered.wire.log && result == answered.result))
    ensures forall k :: |w.log| <= k < |WaitForReply(env, w, message.id, expected).wire.log| ==>
              DisciplinedAt(log, k, message, result)
  {
    var answered := WaitForReply(env, w, message.id, expected);
    ReplyWaitLog(env, w, message.id, expected);
    ReplyWaitEnd(env, w, message.id, expected);
    forall k | |w.log| <= k < |answered.wire.log| ensures DisciplinedAt(log, k, message, result) {
      assert ReplyWaitEvent(answered.wire.log, k);
      assert log[k] == answered.wire.log[k] && (k > 0 ==> log[k - 1] == answered.wire.log[k - 1]);
    }
  }

  /** After the write of a round, nothing is written but acknowledgements. */
  lemma WrittenOnceARound(env: Env, w1: Wire, message: Message, expected: Option<GuestResponse>)
    requires IsRequest(message)
    ensures var acked := WaitForAck(env, w1, message.id).wire;
            var log := WaitForReply(env, acked, message.id, expected).wire.log;
            && w1.log < acked.log < log
            && forall k :: |w1.log| <= k < |log| ==> !IsWriteOf(log[k], message)
  {
    var acked := WaitForAck(env, w1, message.id).wire;
    var log := WaitForReply(env, acked, message.id, expected).wire.log;
    AckWaitLog(env, w1, message.id);
    ReplyWaitLog(env, acked, message.id, expected);
    forall k | |w1.log| <= k < |log| ensures !IsWriteOf(log[k], message) {
      if k < |acked.log| {
        assert log[k] == acked.log[k];
      } else {
        assert ReplyWaitEvent(log, k);
      }
    }
  }

  lemma RoundIsConfirmed(env: Env, w: Wire, message: Message, expected: Option<GuestResponse>)
    requires IsRequest(message) && WriteResult(env, w, message).Success?
    requires WaitForAck(env, AfterWrite(env, w, message), message.id).result.Success?
    requires WaitForReply(env, WaitForAck(env, AfterWrite(env, w, message), message.id).wire,
                          message.id, expected).result.Success?
    ensures var acked := WaitForAck(env, AfterWrite(env, w, message), message.id).wire;
            var answered := WaitForReply(env, acked, message.id, expected);
            Confirmed(answered.wire.log, |w.log|, message, answered.result.value)
  {
    var w1 := AfterWrite(env, w, message);
    var acked := WaitForAck(env, w1, message.id).wire;
    var log := WaitForReply(env, acked, message.id, expected).wire.log;
    WrittenOnceARound(env, w1, message, expected);
    AckWaitLog(env, w1, message.id);
    ReplyWaitEnd(env, acked, message.id, expected);
    LastReplyIsAcked(env, acked, message.id, expected);
    var h, i := |w.log|, |acked.log| - 1;
    assert w1.log[h] == acked.log[h] == log[h] && acked.log[i] == log[i];
    assert ConfirmedBy(log, |w.log|, h, i, message, log[|log| - 2].result.value);
  }

  /** A reply wait that ends with a write ends with the ack of the frame before it. */
  lemma LastReplyIsAcked(env: Env, w: Wire, id: string, expected: Option<GuestResponse>)
    ensures var log := WaitForReply(env, w, id, expected).wire.log;
            |log| > 0 && (log[|log| - 1].Wrote? ==> AcksTheReplyBefore(log, |log| - 1))
  {
    ReplyWaitLog(env, w, id, expected);
    var log := WaitForReply(env, w, id, expected).wire.log;
    assert ReplyWaitEvent(log, |log| - 1);
  }

  lemma {:induction false} SendGrowsTheLog(env: Env, w: Wire, message: Message, expected: Option<GuestResponse>)
    requires IsRequest(message)
    ensures w.log < Send(env, w, message, expected).wire.log
    decreases |w.inbound|
  {
    if WriteResult(env, w, message).Success? {
      var w1 := AfterWrite(env, w, message);
      var acked := WaitForAck(env, w1, message.id);
      AckWaitLog(env, w1, message.id);
      if acked.result == Failure(AckNotReceived) {
        SendGrowsTheLog(env, acked.wire, message, expected);
      } else if acked.result.Success? {
        var answered := WaitForReply(env, acked.wire, message.id, expected);
        ReplyWaitLog(env, acked.wire, message.id, expected);
        if answered.result == Failure(UnexpectedGuestResponse) {
          SendGrowsTheLog(env, answered.wire, message, expected);
        }
      }
    }
  }

  /** All writes of a request carry the one message, apart from acknowledgements of frames just read;
      a failed read, unless it is an ack timeout, ends the request: a reply timeout never causes a resend. */
  lemma {:induction false} SendIsDisciplined(env: Env, w: Wire, message: Message, expected: Option<GuestResponse>)
    requires IsRequest(message)
    ensures var out := Send(env, w, message, expected);
            Disciplined(out.wire.log, |w.log|, message, out.result)
    decreases |w.inbound|
  {
    if WriteResult(env, w, message).Failure? {
      return;
    }
    var acked := WaitForAck(env, AfterWrite(env, w, message), message.id);
    var out := Send(env, w, message, expected);
    if acked.result == Failure(AckNotReceived) {
      SendIsDisciplined(env, acked.wire, message, expected);
      SendGrowsTheLog(env, acked.wire, message, expected);
    } else if acked.result.Success? {
      AnswersAreDisciplined(env, acked.wire, message, expected, out);
    }
    AckRoundIsDisciplined(env, w, message, out.wire.log, out.result);
  }

  lemma {:induction false} AnswersAreDisciplined(
      env: Env, w: Wire, message: Message, expected: Option<GuestResponse>, out: Answered)
    requires IsRequest(message)
    requires var answered := WaitForReply(env, w, message.id, expected);
             out == if answered.result == Failure(UnexpectedGuestResponse)
                    then Send(env, answered.wire, message, expected) else answered
    ensures w.log < out.wire.log && Disciplined(out.wire.log, |w.log|, message, out.result)
    decreases |w.inbound|, 0
  {
    var answered := WaitForReply(env, w, message.id, expected);
    ReplyWaitLog(env, w, message.id, expected);
    if answered.result == Failure(UnexpectedGuestResponse) {
      SendIsDisciplined(env, answered.wire, message, expected);
      SendGrowsTheLog(env, answered.wire, message, expected);
    }
    ReplyRoundIsDisciplined(env, w, message, expected, out.wire.log, out.result);
  }

  /** Soundness of the resend protocol: a request succeeds only with an answer correlated with it and of the
      expected kind, read after an ack naming it was read after the last write. */
  lemma {:induction false} SendIsSound(env: Env, w: Wire, message: Message, expected: Option<GuestResponse>)
    requires IsRequest(message)
    requires Send(env, w, message, expected).result.Success?
    ensures var out := Send(env, w, message, expected);
            && out.result.value.correlationId == message.id
            && GuestResponseMatchesExpected(out.result.value.GuestResponse(), expected)
            && Confirmed(out.wire.log, |w.log|, message, out.result.value)
    decreases |w.inbound|
  {
    var w1 := AfterWrite(env, w, message);
    var acked := WaitForAck(env, w1, message.id);
    AckWaitLog(env, w1, message.id);
    var out := Send(env, w, message, expected);
    if acked.result == Failure(AckNotReceived) {
      SendIsSound(env, acked.wire, message, expected);
      MonotoneConfirmation(out.wire.log, |w.log|, |acked.wire.log|, message, out.result.value);
    } else {
      var answered := WaitForReply(env, acked.wire, message.id, expected);
      ReplyWaitEnd(env, acked.wire, message.id, expected);
      ReplyWaitLog(env, acked.wire, message.id, expected);
      if answered.result == Failure(UnexpectedGuestResponse) {
        SendIsSound(env, answered.wire, message, expected);
        MonotoneConfirmation(out.wire.log, |w.log|, |answered.wire.log|, message, out.result.value);
      } else {
        RoundIsConfirmed(env, w, message, expected);
      }
    }
  }

  // ---------- the four requests the handlers make ----------

  /** The response template each request is sent with. */
  function Template(request: SystemRequest): GuestResponse {
    match request {
      case RequestDocument => Document("")
      case RequestBookingNumber => BookingNumber("")
      case GiveCottageKey => KeyReceived("")
      case RequestCottageKey => KeyReturned("")
    }
  }

  /** What the handler takes out of the reply, or its own complaint that the variant is not set. */
  function AnswerText(request: SystemRequest, reply: Message): Result<string> {
    match (request, reply.payload) {
      case (RequestDocument, Response(Document(id))) => Success(id)
      case (RequestBookingNumber, Response(BookingNumber(id))) => Success(id)
      case (GiveCottageKey, Response(KeyReceived(id))) => Success(id)
      case (RequestCottageKey, Response(KeyReturned(id))) => Success(id)
      case _ => Failure(UnexpectedResponse)
    }
  }

  /** The handlers' own check of the reply never fails: whatever the connection delivers,
      a reply the writer accepted has the variant the handler looks for. */
  lemma HandlersNeverSeeUnexpectedResponse(env: Env, w: Wire, id: Uuid, request: SystemRequest)
    ensures var out := Send(env, w, Message(id, id, Request(request)), Some(Template(request)));
            out.result.Success? ==> AnswerText(request, out.result.value).Success?
    ensures var out := Send(env, w, Message(id, id, Request(request)), Some(Template(request)));
            out.result != Failure(UnexpectedResponse)
  {
    var message := Message(id, id, Request(request));
    if Send(env, w, message, Some(Template(request))).result.Success? {
      SendIsSound(env, w, message, Some(Template(request)));
    }
  }
}
