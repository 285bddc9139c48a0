/** The reader end of a chat: waits for guest actions and buffers those that come out of turn. */
module ChatReader {
  import opened Outcomes
  import opened Messages
  import opened ChatConnection
  import opened GuestActions
  import opened FrameAccounting
  import opened Conversation

  class Reader {
    const chat: Chat
    var pending: seq<Message>
    ghost var handed: seq<Message>
    /** The conversation of the session so far, at both ends. */
    ghost var talk: seq<Talk>
    /** The operations of this reader and its writer so far, and the states they went through. */
    ghost var ops: seq<Operation>
    ghost var history: seq<ChatState>

    constructor (chat: Chat)
      requires chat.View() == Wire(chat.script, [])
      ensures this.chat == chat && Valid() && State() == Opening(chat.script)
    {
      this.chat := chat;
      pending := [];
      handed := [];
      talk := [];
      ops := [];
      history := [Opening(chat.script)];
    }

    ghost function State(): ChatState
      reads this, chat
    {
      ChatState(chat.View(), pending, handed, talk)
    }

    /** The present state is where the operations so far have led: nothing was heard, told or answered, and no frame
        was handed over, but by an operation that did it on this connection. */
    ghost predicate Valid()
      reads this, chat
    {
      IsHistory(chat.env, chat.script, history, ops) && history[|ops|] == State()
    }

    lemma ValidIsAccounted()
      requires Valid()
      ensures Accounted(chat.script, State()) && Backed(State())
    {
      SessionIsAccounted(chat.env, chat.script, history, ops, |ops|);
      SessionIsBacked(chat.env, chat.script, history, ops, |ops|);
    }

    method DequeueGuestAction(action: GuestAction) returns (found: Option<Message>)
      modifies this`pending
      ensures var i := FirstWith(old(pending), action);
              if i < |old(pending)| then found == Some(old(pending)[i]) && pending == Without(old(pending), i)
              else found == None && pending == old(pending)
      ensures found.Some? && action != Unspecified ==> found.value.payload == Action(action)
      ensures found.None? ==> forall m :: m in pending ==> m.payload != Action(action)
    {
      for idx := 0 to |pending|
        invariant pending == old(pending)
        invariant forall j :: 0 <= j < idx ==> pending[j].GuestAction() != action
      {
        var msg := pending[idx];
        if msg.GuestAction() == action {
          pending := pending[..idx] + pending[idx + 1..];
          return Some(msg);
        }
      }
      return None;
    }

    method EnqueuePending(msg: Message)
      modifies this`pending
      ensures pending == old(pending) + [msg]
    {
      pending := pending + [msg];
    }

    /** Hands out the first buffered or arriving frame of the action. */
    method WaitForGuestAction(action: GuestAction) returns (r: Result<Message>)
      modifies this, chat
      ensures var out := WaitFor(chat.env, old(chat.View()), old(pending), action);
              r == out.result && State() == Handed(out, old(State()), action)
      ensures old(Valid()) && action != Unspecified ==> Valid()
      ensures old(Valid()) && action != Unspecified ==> ops == old(ops) + [Operation.Wait(action)]
      ensures talk == old(talk) + if r.Success? then [Heard(action)] else []
      ensures r.Success? && action != Unspecified ==> r.value.payload == Action(action)
      ensures action != Unspecified && chat.env.cancelAt.Some? && chat.env.cancelAt.value <= |old(chat.log)| ==>
        && chat.View() == old(chat.View())
        && (r == Failure(Canceled) <==> forall m :: m in old(pending) ==> m.payload != Action(action))
    {
      WaitsForTheAction(chat.env, chat.View(), pending, action);
      ReadUntilEnds(chat.env, chat.View(), pending, action);
      r := Wait(action);
      if r.Success? {
        handed := handed + [r.value];
        talk := talk + [Heard(action)];
      }
      if old(Valid()) && action != Unspecified {
        HistoryNext(chat.env, chat.script, history, ops, Operation.Wait(action));
        history, ops := history + [State()], ops + [Operation.Wait(action)];
      }
    }

    method Wait(action: GuestAction) returns (r: Result<Message>)
      modifies this`pending, chat
      ensures WaitFor(chat.env, old(chat.View()), old(pending), action) == Waited(r, chat.View(), pending)
    {
      var buffered := DequeueGuestAction(action);
      if buffered.Some? {
        return Success(buffered.value);
      }
      while true
        invariant ReadUntil(chat.env, chat.View(), pending, action)
               == WaitFor(chat.env, old(chat.View()), old(pending), action)
        decreases |chat.inbound|
      {
        if ContextDone(chat.env, chat.View()) {
          return Failure(Canceled);
        }
        r := chat.ReadOneMessage();
        if r.Failure? {
          return;
        }
        chat.SendAck(r.value);
        if r.value.GuestAction() == action {
          return;
        }
        if r.value.GuestAction() != Unspecified {
          EnqueuePending(r.value);
        }
      }
    }
  }
}
