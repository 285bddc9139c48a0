/** The writer end of a chat: notifications, and requests that are resent until acknowledged and answered. */
module ChatWriter {
  import opened Outcomes
  import opened Messages
  import opened ChatConnection
  import opened SystemRequests
  import opened FrameAccounting
  import opened ChatReader
  import opened Conversation

  class Writer {
    const chat: Chat
    /** The reader created together with this writer, on the same connection. */
    ghost const peer: Reader

    constructor (chat: Chat, ghost peer: Reader)
      ensures this.chat == chat && this.peer == peer
    {
      this.chat := chat;
      this.peer := peer;
    }

    ghost predicate Valid()
      reads peer, peer.chat
    {
      peer.chat == chat && peer.Valid()
    }

    method SendSystemNotification(notification: SystemNotification) returns (r: Result<Unit>)
      modifies chat`log, peer`talk, peer`ops, peer`history
      ensures var message := NotificationMessage(chat.env, old(chat.View()), notification);
              && r == WriteResult(chat.env, old(chat.View()), message)
              && chat.View() == AfterWrite(chat.env, old(chat.View()), message)
      ensures exists id, other ::
        chat.log == old(chat.log) + [Wrote(Message(id, other, Notification(notification)), r.Success?)]
      ensures peer.talk == old(peer.talk) + if r.Success? then [Told(notification)] else []
      ensures old(Valid()) ==> Valid() && peer.ops == old(peer.ops) + [Tell(notification)]
      ensures old(Valid()) ==> peer.State() == After(chat.env, old(peer.State()), Tell(notification))
    {
      var message := NotificationMessage(chat.env, chat.View(), notification);
      r := chat.WriteOneMessage(message);
      if r.Success? {
        peer.talk := peer.talk + [Told(notification)];
      }
      if old(Valid()) {
        HistoryNext(chat.env, chat.script, peer.history, peer.ops, Tell(notification));
        peer.history, peer.ops := peer.history + [peer.State()], peer.ops + [Tell(notification)];
      }
    }

    method WaitForAckOf(id: string) returns (r: Result<Unit>)
      modifies chat
      ensures r == WaitForAck(chat.env, old(chat.View()), id).result
      ensures chat.View() == WaitForAck(chat.env, old(chat.View()), id).wire
    {
      while true
        invariant WaitForAck(chat.env, chat.View(), id) == WaitForAck(chat.env, old(chat.View()), id)
        decreases |chat.inbound|
      {
        var msg := chat.ReadAck();
        if msg.Failure? {
          return Failure(msg.error);
        }
        if msg.value.IsAck() {
          if msg.value.payload.acknowledgedId == id {
            return Success(Unit);
          }
          continue;
        }
      }
    }

    method WaitForReplyTo(id: string, expected: Option<GuestResponse>) returns (r: Result<Message>)
      modifies chat
      ensures r == WaitForReply(chat.env, old(chat.View()), id, expected).result
      ensures chat.View() == WaitForReply(chat.env, old(chat.View()), id, expected).wire
    {
      while true
        invariant WaitForReply(chat.env, chat.View(), id, expected)
               == WaitForReply(chat.env, old(chat.View()), id, expected)
        decreases |chat.inbound|
      {
        r := chat.ReadReply();
        if r.Failure? {
          return;
        }
        if r.value.IsAck() {
          continue;
        }
        chat.SendAck(r.value);
        if r.value.correlationId != id {
          continue;
        }
        if GuestResponseMatchesExpected(r.value.GuestResponse(), expected) {
          return;
        }
        return Failure(UnexpectedGuestResponse);
      }
    }

    /** Resend until the request is acknowledged and answered; everything else ends the request. */
    method SendSystemRequest(request: SystemRequest, expected: Option<GuestResponse>) returns (r: Result<Message>)
      modifies chat
      ensures var out := Send(chat.env, old(chat.View()),
                              RequestMessage(chat.env, old(chat.View()), request), expected);
              r == out.result && chat.View() == out.wire
    {
      var message := RequestMessage(chat.env, chat.View(), request);
      while true
        invariant Send(chat.env, chat.View(), message, expected)
               == Send(chat.env, old(chat.View()), message, expected)
        decreases |chat.inbound|
      {
        var written := chat.WriteOneMessage(message);
        if written.Failure? {
          return Failure(written.error);
        }
        var acked := WaitForAckOf(message.id);
        if acked.Failure? {
          if acked.error == AckNotReceived {
            continue;
          }
          return Failure(acked.error);
        }
        r := WaitForReplyTo(message.id, expected);
        if r.Success? {
          return;
        }
        if r.error == UnexpectedGuestResponse {
          continue;
        }
        return;
      }
    }

    /** A handler's question: the request with its own template, and the text taken out of the answer. */
    method AskFor(request: SystemRequest) returns (r: Result<string>)
      modifies chat, peer`talk, peer`ops, peer`history
      ensures var out := Send(chat.env, old(chat.View()),
                              RequestMessage(chat.env, old(chat.View()), request), Some(Template(request)));
              && chat.View() == out.wire
              && r == if out.result.Success? then AnswerText(request, out.result.value)
                      else Failure(out.result.error)
      ensures r.Success? ==>
        var out := Send(chat.env, old(chat.View()),
                        RequestMessage(chat.env, old(chat.View()), request), Some(Template(request)));
        && out.result.Success?
        && match request {
             case RequestDocument => out.result.value.payload == Response(Document(r.value))
             case RequestBookingNumber => out.result.value.payload == Response(BookingNumber(r.value))
             case GiveCottageKey => out.result.value.payload == Response(KeyReceived(r.value))
             case RequestCottageKey => out.result.value.payload == Response(KeyReturned(r.value))
           }
      ensures r.Success? ==>
        |old(chat.log)| <= |chat.log| && ConfirmsAnswer(chat.log, |old(chat.log)|, Answer(request, r.value))
      ensures r != Failure(UnexpectedResponse)
      ensures peer.talk == old(peer.talk) + if r.Success? then [Asked(request, r.value)] else []
      ensures old(Valid()) ==> Valid() && peer.ops == old(peer.ops) + [Ask(request)]
      ensures old(Valid()) ==> peer.State() == After(chat.env, old(peer.State()), Ask(request))
    {
      HandlersNeverSeeUnexpectedResponse(chat.env, chat.View(), chat.env.uuid(|chat.log|, 0), request);
      AskIsConfirmed(chat.env, chat.View(), request);
      var response := SendSystemRequest(request, Some(Template(request)));
      r := if response.Failure? then Failure(response.error) else AnswerText(request, response.value);
      if r.Success? {
        peer.talk := peer.talk + [Asked(request, r.value)];
      }
      if old(Valid()) {
        HistoryNext(chat.env, chat.script, peer.history, peer.ops, Ask(request));
        peer.history, peer.ops := peer.history + [peer.State()], peer.ops + [Ask(request)];
      }
    }
  }
}
