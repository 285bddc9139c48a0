/** One websocket connection: what can be read from it, what was written to it, and in which order. */
module ChatConnection {
  import opened Outcomes
  import opened Messages

  /** What the socket has in store for the next read. An exhausted script is a closed socket. */
  datatype Inbound = Frame(msg: Message) | TimedOut | Undecodable

  /** Which of the three read operations took a frame in. */
  datatype Via = Plain | ForAck | ForReply

  datatype Event =
    | Read(via: Via, result: Result<Message>)
    | Wrote(msg: Message, ok: bool)

  type Uuid = s: string | s != "" witness "0"

  /** The choices the server does not make. All of them are indexed by the number of events so far:
      the ids drawn then, whether a write attempted then fails, and from when on the context is done. */
  datatype Env = Env(uuid: (nat, nat) -> Uuid, writeFails: nat -> bool, cancelAt: Option<nat>)

  datatype Wire = Wire(inbound: seq<Inbound>, log: seq<Event>)

  predicate ContextDone(env: Env, w: Wire) {
    env.cancelAt.Some? && env.cancelAt.value <= |w.log|
  }

  /** The bare read: the next frame, or why there is none. */
  function Receive(inbound: seq<Inbound>): Result<Message> {
    if inbound == [] then Failure(ConnectionClosed)
    else match inbound[0] {
      case Frame(msg) => Success(msg)
      case TimedOut => Failure(ReadTimeout)
      case Undecodable => Failure(BadFrame)
    }
  }

  function Rest(inbound: seq<Inbound>): seq<Inbound> {
    if inbound == [] then [] else inbound[1..]
  }

  /** A timed-out read of an ack or a reply gets its own error, unless the context is done anyway. */
  function Classify(env: Env, w: Wire, via: Via, raw: Result<Message>): Result<Message> {
    if raw == Failure(ReadTimeout) && !ContextDone(env, w) then
      match via {
        case Plain => raw
        case ForAck => Failure(AckNotReceived)
        case ForReply => Failure(ReplyNotReceived)
      }
    else raw
  }

  function ReadResult(env: Env, w: Wire, via: Via): Result<Message> {
    Classify(env, w, via, Receive(w.inbound))
  }

  function AfterRead(env: Env, w: Wire, via: Via): (w': Wire)
    ensures ReadResult(env, w, via) != Failure(ConnectionClosed) ==> |w'.inbound| < |w.inbound|
  {
    Wire(Rest(w.inbound), w.log + [Read(via, ReadResult(env, w, via))])
  }

  function WriteResult(env: Env, w: Wire, msg: Message): Result<Unit> {
    if msg.id == "" then Failure(EmptyMessageId)
    else if env.writeFails(|w.log|) then Failure(WriteFailed)
    else Success(Unit)
  }

  function AfterWrite(env: Env, w: Wire, msg: Message): Wire {
    if msg.id == "" then w
    else w.(log := w.log + [Wrote(msg, !env.writeFails(|w.log|))])
  }

  function AckFor(id: Uuid, msg: Message): Message {
    Message(id, msg.id, Ack(msg.id))
  }

  /** Acks are not acknowledged; a failed ack is only logged. */
  function AfterAck(env: Env, w: Wire, msg: Message): Wire {
    if msg.IsAck() then w else AfterWrite(env, w, AckFor(env.uuid(|w.log|, 0), msg))
  }

  class Chat {
    const env: Env
    ghost const script: seq<Inbound>
    var inbound: seq<Inbound>
    var log: seq<Event>

    constructor (env: Env, script: seq<Inbound>)
      ensures this.env == env && this.script == script && View() == Wire(script, [])
    {
      this.env := env;
      this.script := script;
      inbound := script;
      log := [];
    }

    function View(): Wire
      reads this
    {
      Wire(inbound, log)
    }

    method WriteOneMessage(msg: Message) returns (r: Result<Unit>)
      modifies this`log
      ensures r == WriteResult(env, old(View()), msg)
      ensures View() == AfterWrite(env, old(View()), msg)
      ensures r.Success? <==> msg.id != "" && !env.writeFails(|old(log)|)
      ensures log == old(log) + if msg.id == "" then [] else [Wrote(msg, r.Success?)]
    {
      if msg.id == "" {
        return Failure(EmptyMessageId);
      }
      var fails := env.writeFails(|log|);
      log := log + [Wrote(msg, !fails)];
      return if fails then Failure(WriteFailed) else Success(Unit);
    }

    /** Take the next thing off the socket and decode it. */
    method NextFrame() returns (r: Result<Message>)
      modifies this`inbound
      ensures r == Receive(old(inbound)) && inbound == Rest(old(inbound))
      ensures old(inbound) == [] ==> r == Failure(ConnectionClosed) && inbound == []
      ensures old(inbound) != [] ==>
        && inbound == old(inbound)[1..]
        && match old(inbound)[0] {
             case Frame(msg) => r == Success(msg)
             case TimedOut => r == Failure(ReadTimeout)
             case Undecodable => r == Failure(BadFrame)
           }
    {
      r := Receive(inbound);
      if inbound != [] {
        inbound := inbound[1..];
      }
    }

    method ReadOneMessage() returns (r: Result<Message>)
      modifies this
      ensures r == ReadResult(env, old(View()), Plain)
      ensures View() == AfterRead(env, old(View()), Plain)
      ensures log == old(log) + [Read(Plain, r)]
      ensures old(inbound) == [] ==> r == Failure(ConnectionClosed)
      ensures old(inbound) != [] ==> match old(inbound)[0] {
        case Frame(msg) => r == Success(msg)
        case TimedOut => r == Failure(ReadTimeout)
        case Undecodable => r == Failure(BadFrame)
      }
    {
      r := NextFrame();
      log := log + [Read(Plain, r)];
    }

    method ReadWithTimeout(via: Via, wrapped: Error) returns (r: Result<Message>)
      requires (via, wrapped) == (ForAck, AckNotReceived) || (via, wrapped) == (ForReply, ReplyNotReceived)
      modifies this
      ensures r == ReadResult(env, old(View()), via)
      ensures View() == AfterRead(env, old(View()), via)
      ensures log == old(log) + [Read(via, r)]
      ensures old(inbound) == [] ==> r == Failure(ConnectionClosed)
      ensures old(inbound) != [] ==> match old(inbound)[0] {
        case Frame(msg) => r == Success(msg)
        case TimedOut =>
          r == Failure(if env.cancelAt.Some? && |old(log)| >= env.cancelAt.value then ReadTimeout else wrapped)
        case Undecodable => r == Failure(BadFrame)
      }
    {
      r := NextFrame();
      if r == Failure(ReadTimeout) && !ContextDone(env, View()) {
        r := Failure(wrapped);
      }
      log := log + [Read(via, r)];
    }

    method ReadAck() returns (r: Result<Message>)
      modifies this
      ensures r == ReadResult(env, old(View()), ForAck)
      ensures View() == AfterRead(env, old(View()), ForAck)
      ensures r == Failure(AckNotReceived) <==>
        && old(inbound) != [] && old(inbound)[0] == TimedOut
        && !(env.cancelAt.Some? && |old(log)| >= env.cancelAt.value)
    {
      r := ReadWithTimeout(ForAck, AckNotReceived);
    }

    method ReadReply() returns (r: Result<Message>)
      modifies this
      ensures r == ReadResult(env, old(View()), ForReply)
      ensures View() == AfterRead(env, old(View()), ForReply)
      ensures r == Failure(ReplyNotReceived) <==>
        && old(inbound) != [] && old(inbound)[0] == TimedOut
        && !(env.cancelAt.Some? && |old(log)| >= env.cancelAt.value)
    {
      r := ReadWithTimeout(ForReply, ReplyNotReceived);
    }

    method SendAck(msg: Message)
      modifies this`log
      ensures View() == AfterAck(env, old(View()), msg)
      ensures msg.payload.Ack? ==> log == old(log)
      ensures !msg.payload.Ack? ==>
        exists id, ok :: id != "" && log == old(log) + [Wrote(Message(id, msg.id, Ack(msg.id)), ok)]
    {
      if msg.IsAck() {
        return;
      }
      var _ := WriteOneMessage(AckFor(env.uuid(|log|, 0), msg));
    }
  }
}
