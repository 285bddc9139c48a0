/** The three steps that every handler's conversation is made of. */
module Handlers {
  import opened Outcomes
  import opened Messages
  import opened FrameAccounting
  import opened Journal
  import opened Times
  import Clock
  import Conversation

  /** What one attempt adds to the journal. */
  function Attempted(e: Entry, ok: bool): Entry {
    if ok then e else Failing(e)
  }

  /** Waits for one guest action. */
  method Hear(journal: Journal, action: GuestAction) returns (r: Result<Unit>)
    requires journal.Valid() && action != Unspecified
    modifies journal, journal.reader, journal.reader.chat
    ensures journal.Valid()
    ensures journal.entries == old(journal.entries) + [Attempted(Said(Heard(action)), r.Success?)]
    ensures r.Success? ==>
      var n := |old(journal.reader.handed)|;
      && |journal.reader.handed| == n + 1 && journal.reader.handed[n].payload == Action(action)
  {
    ghost var before := journal.Now();
    var heard := journal.reader.WaitForGuestAction(action);
    journal.Note(Attempted(Said(Heard(action)), heard.Success?), before);
    return if heard.Success? then Success(Unit) else Failure(heard.error);
  }

  method Tell(journal: Journal, notification: SystemNotification) returns (r: Result<Unit>)
    requires journal.Valid()
    modifies journal, journal.reader, journal.reader.chat
    ensures journal.Valid()
    ensures journal.entries == old(journal.entries) + [Attempted(Said(Told(notification)), r.Success?)]
    ensures var n := |old(journal.reader.chat.log)|;
            && |journal.reader.chat.log| == n + 1
            && var e := journal.reader.chat.log[n];
               e.Wrote? && e.msg.payload == Notification(notification) && (e.ok <==> r.Success?)
  {
    ghost var before := journal.Now();
    r := journal.writer.SendSystemNotification(notification);
    journal.Note(Attempted(Said(Told(notification)), r.Success?), before);
  }

  /** The document, booking or key number the guest answers with. */
  method Request(journal: Journal, request: SystemRequest) returns (r: Result<string>)
    requires journal.Valid()
    modifies journal, journal.reader, journal.reader.chat
    ensures journal.Valid()
    ensures journal.entries == old(journal.entries)
            + [if r.Success? then Said(Asked(request, r.value)) else Unsaid(Ask(request))]
    ensures r.Success? ==>
      Conversation.ConfirmsAnswer(journal.reader.chat.log, |old(journal.reader.chat.log)|,
                                  Conversation.Answer(request, r.value))
    ensures r != Failure(UnexpectedResponse)
  {
    ghost var before := journal.Now();
    r := journal.writer.AskFor(request);
    journal.Note(if r.Success? then Said(Asked(request, r.value)) else Unsaid(Ask(request)), before);
  }

  method ReadClock(journal: Journal) returns (r: Result<Option<Time>>)
    requires journal.Valid() && journal.clock != null
    modifies journal, journal.clock
    ensures journal.Valid()
    ensures journal.entries == old(journal.entries) + [Looked(Clock.NextReading(old(journal.clock.readings)))]
    ensures r == Clock.NowFrom(old(journal.clock.readings))
  {
    ghost var before := journal.Now();
    r := journal.clock.Now();
    journal.Note(Looked(Clock.NextReading(before.readings)), before);
  }
}
