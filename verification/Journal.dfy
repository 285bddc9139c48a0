/** One record of everything a session goes through, in the order in which it happens. */
module Journal {
  import opened Messages
  import opened Times
  import opened Bookings
  import opened CleaningService
  import opened Clock
  import opened FrameAccounting
  import ChatConnection
  import ChatReader
  import ChatWriter
  import Reception

  datatype Entry =
    | Said(talk: Talk)                                   // something was heard, told or answered
    | Unsaid(op: Operation)                              // and this was not
    | Came(hour: int)                                    // an hour change that was waited for
    | NeverCame(hour: int)
    | Ordered(order: CleaningOrder)
    | NotOrdered(order: CleaningOrder)
    | Looked(reading: Reading)                           // at the clock
    | Woke(wake: Wake)                                   // from the wait for the next day
    | Admitted(call: Reception.Call, b: Booking)         // checked in by the reception
    | Done(call: Reception.Call)                         // by the reception: a key moved, a guest checked out
    | NotDone(call: Reception.Call)

  function OpOf(talk: Talk): Operation {
    match talk {
      case Heard(action) => Wait(action)
      case Told(notification) => Tell(notification)
      case Asked(request, _) => Ask(request)
    }
  }

  /** The entry of the same attempt when it fails. */
  function Failing(e: Entry): Entry {
    match e {
      case Said(talk) => Unsaid(OpOf(talk))
      case Came(hour) => NeverCame(hour)
      case Ordered(order) => NotOrdered(order)
      case Looked(_) => Looked(Unavailable)
      case Admitted(call, _) => NotDone(call)
      case Done(call) => NotDone(call)
      case _ => e
    }
  }

  /** Everything the session draws on. */
  datatype Scene = Scene(
    chat: ChatState, readings: seq<Reading>, wakes: seq<Wake>, hours: seq<Time>, desk: Reception.Desk)

  /** What is given: the oracles of the connection, and the rules of the reception. */
  datatype Oracles = Oracles(env: ChatConnection.Env, rules: Reception.Rules)

  /** The entry is what happens next in the scene, and leads to the next scene. */
  ghost predicate Leads(o: Oracles, s: Scene, e: Entry, s': Scene) {
    match e {
      case Said(talk) =>
        && OpOf(talk) != Wait(Unspecified)
        && s' == s.(chat := After(o.env, s.chat, OpOf(talk))) && s'.chat.talk == s.chat.talk + [talk]
      case Unsaid(op) =>
        && op != Wait(Unspecified)
        && s' == s.(chat := After(o.env, s.chat, op)) && s'.chat.talk == s.chat.talk
      case Came(hour) =>
        var i := FirstAtHour(s.hours, hour);
        i < |s.hours| && s' == s.(hours := s.hours[i + 1..])
      case NeverCame(hour) => FirstAtHour(s.hours, hour) == |s.hours| && s' == s.(hours := [])
      case Ordered(order) =>
        && !Blank(order.roomName) && !o.rules.publishFails(s.desk.calls.orders)
        && s' == s.(desk := s.desk.Tried().(orders := s.desk.orders + [order]))
      case NotOrdered(order) =>
        if Blank(order.roomName) then s' == s
        else o.rules.publishFails(s.desk.calls.orders) && s' == s.(desk := s.desk.Tried())
      case Looked(reading) => reading == NextReading(s.readings) && s' == s.(readings := Later(s.readings))
      case Woke(wake) => wake == NextWake(s.wakes) && s' == s.(wakes := LaterWakes(s.wakes))
      case Admitted(call, b) => Reception.CheckedIn(o.rules, s.desk, s'.desk, call, b) && s' == s.(desk := s'.desk)
      case Done(call) => Reception.Served(o.rules, s.desk, s'.desk, call) && s' == s.(desk := s'.desk)
      case NotDone(call) => Reception.NotServed(o.rules, s.desk, s'.desk, call) && s' == s.(desk := s'.desk)
    }
  }

  ghost predicate FollowsFrom(o: Oracles, history: seq<Scene>, entries: seq<Entry>, k: nat)
    requires k < |entries| && |history| == |entries| + 1
  {
    Leads(o, history[k], entries[k], history[k + 1])
  }

  /** The entries lead from the opening scene through the history, one scene after the other. */
  ghost predicate IsRecord(o: Oracles, opening: Scene, history: seq<Scene>, entries: seq<Entry>) {
    && |history| == |entries| + 1
    && history[0] == opening
    && forall k :: 0 <= k < |entries| ==> FollowsFrom(o, history, entries, k)
  }

  lemma RecordNext(o: Oracles, opening: Scene, history: seq<Scene>, entries: seq<Entry>, e: Entry, s: Scene)
    requires IsRecord(o, opening, history, entries) && Leads(o, history[|entries|], e, s)
    ensures IsRecord(o, opening, history + [s], entries + [e])
  {
    forall k | 0 <= k < |entries + [e]| ensures FollowsFrom(o, history + [s], entries + [e], k) {
      if k < |entries| {
        assert FollowsFrom(o, history, entries, k);
      }
    }
  }

  class Journal {
    const reader: ChatReader.Reader
    const writer: ChatWriter.Writer
    const clock: Clock?
    const dayChanges: DayStream
    const notificationService: NotificationService
    const receptionService: Reception.ReceptionService
    const cleaningService: CleaningService
    ghost const opening: Scene
    ghost var entries: seq<Entry>
    ghost var history: seq<Scene>

    constructor (reader: ChatReader.Reader, writer: ChatWriter.Writer, clock: Clock?, dayChanges: DayStream,
                 notificationService: NotificationService, receptionService: Reception.ReceptionService)
      requires writer.peer == reader && writer.chat == reader.chat && reader.Valid() && receptionService.Valid()
      ensures this.reader == reader && this.writer == writer && this.clock == clock
      ensures this.dayChanges == dayChanges && this.notificationService == notificationService
      ensures this.receptionService == receptionService && this.cleaningService == receptionService.cleaningService
      ensures Valid() && entries == [] && opening == Now()
    {
      this.reader, this.writer, this.clock, this.dayChanges := reader, writer, clock, dayChanges;
      this.notificationService, this.receptionService := notificationService, receptionService;
      this.cleaningService := receptionService.cleaningService;
      opening := Scene(reader.State(), if clock == null then [] else clock.readings, dayChanges.wakes,
                       notificationService.hourChanges, receptionService.State());
      entries, history := [], [opening];
    }

    ghost function Now(): Scene
      reads reader, reader.chat, clock, dayChanges, notificationService, receptionService.Parts()
    {
      Scene(reader.State(), if clock == null then [] else clock.readings, dayChanges.wakes,
            notificationService.hourChanges, receptionService.State())
    }

    ghost function Laws(): Oracles {
      Oracles(reader.chat.env, receptionService.Rules())
    }

    /** Reader and writer share one connection, and the stay orders from the reception's cleaning service. */
    ghost predicate Paired()
      reads reader, reader.chat
    {
      && writer.peer == reader && writer.chat == reader.chat && reader.Valid()
      && receptionService.cleaningService == cleaningService && receptionService.Valid()
    }

    /** The entries have led from the opening scene to this one. */
    ghost predicate LeadsTo(s: Scene)
      reads this
    {
      IsRecord(Laws(), opening, history, entries) && history[|entries|] == s
    }

    ghost predicate Valid()
      reads this, reader, reader.chat, clock, dayChanges, notificationService, receptionService.Parts()
    {
      Paired() && LeadsTo(Now())
    }

    /** Writes down what has just happened. */
    ghost method Note(e: Entry, before: Scene)
      requires Paired() && LeadsTo(before) && Leads(Laws(), before, e, Now())
      modifies this`entries, this`history
      ensures Valid() && entries == old(entries) + [e]
    {
      RecordNext(Laws(), opening, history, entries, e, Now());
      entries, history := entries + [e], history + [Now()];
    }
  }
}
