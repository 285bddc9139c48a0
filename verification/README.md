# Verified model of the guest manager

A Dafny model of the part of the guest manager that carries a guest through a stay: the lodging chat over a
websocket, the broker that distributes the simulated time, the stay state machine, the reception with its stores and
its check-in cache, and the session that joins them. `dafny verify dfyconfig.toml` checks everything.

## How the model is built

| layer | modules |
|---|---|
| vocabulary | `Outcomes` (options, errors, results), `Sequences` (searching, order-preserving embeddings), `Times`, `Messages` |
| chat transport | `ChatConnection`, `GuestActions` (what a wait hands out), `SystemRequests` (the resend protocol), `RequestSuccess` (when it succeeds), `FrameAccounting` (where every frame goes), `Conversation` (what was said is what the connection carried), and the classes in `ChatReader` and `ChatWriter` |
| time | `Delivery` (one channel, its publisher and its consumer, step by step), `SetDatatype`, `TimeEventService`, `Clock` |
| stores | `Bookings`, `BookingRepo`, `CottageRepo`, `GuestRepo`, `GuestService`, `CleaningService` |
| reception | `CheckInCache`, `BookingLookup`, `Reception`, `DeskRules` (what it finds and refuses, in terms of what is stored), `Occupancy` (many sessions at once), `UnlockedOccupancy` (the same with the steps taken apart) |
| session | `Journal` (the record of a session), `Handlers`, `Itinerary` (what each part does when nothing fails), `StayTransition` and `StayRecord` (the waits and the days), `StayHandler`, `CheckInHandler`, `CheckOutHandler`, `Websocket` |
| what a session means | `Visits`, `Totals`, `SessionWords` (orders, conversation, meals), `Timing` (when, and how many days), `Prompts` (what prompts what), `SessionStores` (what the stores hold after it), `SessionOccupancy` (the session as a run of the resort), `Causes` (why it broke off), `Conclusions` (all this at the end) |
| when a session completes | `BreakingOff` (where it could stop), `Supplies` (what connection, clock, days and stores decide), `Completion` |

A connection holds the script of what will still arrive and the log of every read and write. Everything the server
does not choose is an oracle indexed by the length of that log: the identifiers drawn, whether a write fails, and from
when on the context is done. Store, cache and publisher calls fail according to an oracle indexed by the number of the
call. All statements hold for every oracle. An exhausted script reads as a closed socket, so every script is finite and
ends in an error that is not a timeout; termination of all wait and resend loops is proved on the rest of the script.

Methods follow the loops and the in-place updates of the code and are proved against functions; what the code is
for is proved about those functions. Ghost fields influence nothing, and each is tied to the state it tells about.
`Reader.Valid` says that the state, with the conversation `talk`, is where the operations `ops` have led on this
connection, one after the other, so nothing can be heard, told or answered but by a frame.

A session keeps one `Journal`: what was said, the hour changes that came, the orders, the looks at the clock, the
wake-ups and what the reception answered, in the order in which they happened, failed attempts included. Its scenes
hold everything the session draws on, guests, bookings, cached lists and cottages included, and lead from the opening
one to the present one, entry by entry (`Journal.IsRecord`, `Leads`): a reading on it is the next the clock had, an
hour that did not come was not in the stream, an order not placed could not be published, a check-in is on the booking
that the reception finds, and a refusal is one the reception has to make as things stand (`Reception.Refuses`), or one
of its calls did not get through (`Missed`). The stores change by such answers and by nothing else, whether a session
completes or not. Every handler says by how much it extends the journal: by a plan of the `Itinerary`, or by a
beginning of it and then the failure of the entry that comes next (`BrokeOff`); what this means for stores, orders and
conversation follows from the record.

A channel's `published`, `received` and `steps` are tied to its buffer (`Channel.Valid`).
`ReceptionService.stranded` lists the check-ins that failed after occupying a cottage; it grows exactly when the
cottages changed that way.

## What is proved, in one paragraph a layer

*Chat.* Over an error-free script a run of waits succeeds exactly when every action is in stock often enough, and each
action's frames come out in order of arrival, whatever the order of the waits. A request succeeds only with a
correlated answer of the right kind, read after an ack naming it was read after its last write; it is written once
plus once for every ack timeout and every answer of the wrong kind. When nothing times out and writes go through, it
succeeds if and only if some ack naming it is followed by a right answer with no wrong one in between. In every
session every inbound frame is used once, every frame owed an ack gets one, and guest actions are lost only inside the
writer's two wait loops. The actions a handler heard are those of the frames handed over, the notifications told are
the successful writes, and every answer was confirmed on the connection after the one before it.

*Time.* Under both drop policies a subscriber receives an ordered, duplicate-free part of what was published, and
loses events only to a full channel; the broker's loop publishes what the queues deliver by such steps alone. With
replace-stale delivery the second send never fails and the latest day change is always the last one delivered.
Strictly increasing days therefore bound the stay: at most nights - 1 full days.

*Arrangement.* Over all day changes, whatever fails, the arrivals of each day that the store gave and the cache took
are listed from then on, and the list stays what the store would give. The attempts to notify are exactly one for each
arrival of such a day, in order; the check-out lists are written only on days on which all of them went out.

*Reception.* No two live sessions lodge in the same cottage and no check-in replaces an occupant, over every
interleaving in which a check-in and a check-out are one step each. In the code a check-in looks at the cottage and
occupies it later, and a check-out takes the booking off the list and clears the cottage later. Over every
interleaving of these halves all states are safe if and only if no second half finds that, since its first half,
another session has moved into the same cottage and lodges there. The cache and the direct look-up agree, except
exactly when the guest's first booking of the day does not validate and a later one does. What the reception finds,
and what it has to refuse, is characterised by what is stored; with unique ids, a booking that was checked out is past
and is refused from then on, unless a list in the cache still has it.

*Session.* Every session went through check-in, stay and check-out as far as its journal goes, on the booking that the
reception finds for the guest's document, or document and number, as things stand when the session opens; while the
cached lists are what the store would give, that is a stored booking of the guest for the day. Each entry of its
journal follows on what prompts it: orders on the guest's word, announcements on their hour, calls at the reception on
what the guest has named. The first evening comes after the check-in; a full day comes after each wait that ended with
a day event before the check-out day, and after nothing else; the departure comes after the wait whose last look at
the clock or day event had reached it. So no morning, no evening but the first, no full day and no departure comes
before the last thing seen allowed it, not even a failed attempt at one, and a completed session has exactly one full
day for every earlier day event. It ordered exactly PrepareForGuest, PrepareForSleep, (DailyCleaning,
PrepareForSleep)^k, FullCleaning, all for the booked cottage, held exactly the conversation of such a session, used up
an hour change of its own for every meal, and left the booking past, its cottage empty, with its key and without the
booking, and everything else untouched.

A session that is not completed broke off at its last entry, and that entry names a cause in the scene it was tried
in: an operation on the connection that came to nothing, an hour the opening stream did not have after those served,
an order that could not be published or named no cottage, a clock without an answer, the end of the days, a refusal
that had to be made or a call that did not get through; only where the clock gives no time at check-in or check-out
does it stop between two entries. Completed or not, a session is a run of check-ins, key moves and a check-out of the
resort: from a safe resort it disturbs no other.

*Completion.* With the services and the clock up, a session completes if and only if, as it opens, the reception will
serve some guest (finds the booking, ready, by document or else by number; no key number blank; the stores know the
booking), the check-out day will be reached, the hour changes suffice for the days until then, and the connection
carries that guest's conversation with as many full days. `Ws.Handle` promises it about the state before the call.

## Where code, comments and tests differ

- `CheckOut` does not compare the day: the test for it stands in a comment
  (internal/app/reception_service.go:162-167).
- The cleaning of a full day is `DailyCleaning` (internal/transport/websocket/handler/stay_handler.go:321).
- Dinner is waited for and announced twice an evening (stay_handler.go:139, 181 and 335), so two separate 18:00 events
  are needed; `DinnerTakesTwoEventsAnEvening` proves it.
- A frame that is no ack is dropped, without an ack of its own, while the writer waits for one
  (internal/transport/websocket/chat/chat_writer.go:151-154).
- `processCheckIn` reads the cottage and updates it later, with no lock between
  (internal/app/reception_service.go:275-289), and `CheckOut` empties a cottage twice (176-186), so that the next
  guest can be turned out. `Occupancy` takes each as one step; `UnlockedOccupancy` does not, and has the failing runs.
- `setStringIfChanged` ignores empty values, so an update with an empty text returns a guest that is not the stored
  one (internal/infra/mdb/guest_repo.go:114-122). `ReturnedGuestAgreesExactlyWhenComplete` gives the exact condition,
  `EmptyEmailIsReportedButNotStored` an input. That input is one for the repository: the HTTP update builds its guest
  with `NewGuest`, which refuses an empty email (internal/transport/http/guest_handler.go:239,
  internal/domain/guest.go:23-29).

## Assumptions

Instants are nanoseconds since the zero time, all in UTC; a day is a floor division, and cache keys never confuse two
days. Bookings survive their JSON encoding. Both booking queries return documents in the one order of the collection.
The end state of a session and the occupancy result assume unique cottage names and that a cottage lists only its own
bookings; where an assumption is needed it is a `requires` of the lemma that needs it. An hour change reaches a session
at most once. A channel is registered for hour changes or for day changes, not for both. The session's guest service and
reception look in the same booking store, and the reception and the stay order from the same cleaning service.

## Model

| member | source | states |
|---|---|---|
| GuestActions.WaitsSucceedExactlyWhenStocked | internal/transport/websocket/chat/chat_reader.go:23-99 | on an error-free script a run of waits succeeds if and only if, for every action waited for, at least as many frames whose payload is that action are buffered or arriving; the k-th wait for an action gets its k-th frame in order of arrival |
| GuestActions.WaitTakesFirst | internal/transport/websocket/chat/chat_reader.go:23-56 | one wait hands out the first stocked frame of its action, removes that one only, and keeps the frames of every other action in order; it fails if there is none |
| GuestActions.ReadUntilTakesFirst | internal/transport/websocket/chat/chat_reader.go:28-55 | the read loop, entered with no such frame buffered, ends with the first arriving one and buffers the others |
| GuestActions.ReadUntilEnds | internal/transport/websocket/chat/chat_reader.go:28-55 | a wait on the connection ends with the frame read last and its ack, or with the read that failed; once the context is done nothing more is read and the wait is canceled |
| GuestActions.OfFirst | internal/transport/websocket/chat/chat_reader.go:79-86 | cutting the first match out of the buffer takes the first frame of the action and leaves every other action's frames as they were |
| GuestActions.FirstWith | internal/transport/websocket/chat/chat_reader.go:79-82 | the frame at the position found has that action as its payload, and none before it has |
| ChatReader.Reader.DequeueGuestAction | internal/transport/websocket/chat/chat_reader.go:75-89 | returns and removes exactly the first frame whose payload is the action, or changes nothing because there is none |
| ChatReader.Reader.EnqueuePending | internal/transport/websocket/chat/chat_reader.go:91-99 | the frame goes to the end of the buffer |
| ChatReader.Reader.Wait | internal/transport/websocket/chat/chat_reader.go:23-56 | the loop refines `WaitFor`: same result, connection and buffer, failing runs included |
| ChatReader.Reader.WaitForGuestAction | internal/transport/websocket/chat/chat_reader.go:23-56 | a wait is one operation of the session's history and hands over exactly once a frame whose payload is the action waited for; after a failed one nothing more was heard; once the context is done only the buffer is looked at |
| ChatReader.Reader.ValidIsAccounted | internal/transport/websocket/chat/chat_reader.go:16-21 | at any time the books of the reader's session balance, and its conversation is backed by the connection |
| ChatConnection.Chat.WriteOneMessage | internal/transport/websocket/chat/chat.go:54-92 | a message without id is refused unwritten; otherwise the attempt is on the log with its outcome |
| ChatConnection.Chat.ReadOneMessage | internal/transport/websocket/chat/chat.go:107-146 | takes the next entry off the socket: a frame is returned, a timeout, an undecodable entry and a closed socket each give their own error, and the read goes on the log |
| ChatConnection.Chat.ReadWithTimeout | internal/transport/websocket/chat/chat.go:160-178 | a timeout becomes the caller's own error only while the context is alive |
| ChatConnection.Chat.ReadAck | internal/transport/websocket/chat/chat.go:148-152 | the ack is missing exactly when the next entry is a timeout and the context is alive |
| ChatConnection.Chat.ReadReply | internal/transport/websocket/chat/chat.go:154-158 | the reply is missing exactly when the next entry is a timeout and the context is alive |
| ChatConnection.Chat.SendAck | internal/transport/websocket/chat/chat.go:180-208 | acks are not acked; any other frame gets one attempt, naming it and correlated with it, whose failure is swallowed |
| SystemRequests.SendIsSound | internal/transport/websocket/chat/chat_writer.go:24-64 | success means: an ack naming the request was read after its last write, then a correlated reply of the expected kind, which was acked last |
| SystemRequests.SendIsDisciplined | internal/transport/websocket/chat/chat_writer.go:36-63 | all writes of a request are the one message or acks of frames just read; any failed read but an ack timeout ends the request with that error, so a reply timeout never causes a resend |
| SystemRequests.WritesAreCounted | internal/transport/websocket/chat/chat_writer.go:36-63 | on every outcome, writes = 1 + ack timeouts + correlated replies of the wrong kind |
| SystemRequests.SendGrowsTheLog | internal/transport/websocket/chat/chat_writer.go:36-63 | a request only appends to the log, and at least one event |
| SystemRequests.WrittenOnceARound | internal/transport/websocket/chat/chat_writer.go:41-60 | between one write and the next resend the request itself is not written |
| SystemRequests.RoundIsConfirmed | internal/transport/websocket/chat/chat_writer.go:37-54 | a round in which both waits succeed leaves write, ack, reply and the reply's ack in this order |
| SystemRequests.AckWaitLog | internal/transport/websocket/chat/chat_writer.go:133-156 | a wait for an ack writes nothing and ends with the ack naming the message or with the failed read |
| SystemRequests.AckWaitTally | internal/transport/websocket/chat/chat_writer.go:133-156 | it sees an ack timeout exactly when it reports one |
| SystemRequests.ReplyWaitLog | internal/transport/websocket/chat/chat_writer.go:80-112 | a wait for a reply writes only acks, each of the frame read just before |
| SystemRequests.ReplyWaitEnd | internal/transport/websocket/chat/chat_writer.go:80-112 | it ends with a correlated reply of the expected kind and its ack, with a correlated reply of the wrong kind and its ack, or with the failed read |
| SystemRequests.ReplyWaitTally | internal/transport/websocket/chat/chat_writer.go:103-110 | it sees a correlated reply of the wrong kind exactly when it reports one |
| SystemRequests.HandlersNeverSeeUnexpectedResponse | internal/transport/websocket/handler/checkin_hander.go:115-161 | for all four requests and every script, an accepted reply has the variant the handler looks for |
| RequestSuccess.RequestSucceedsExactlyWhenConfirmed | internal/transport/websocket/chat/chat_writer.go:24-64 | when only frames arrive and writes go through, a request succeeds if and only if some ack naming it is followed by a correlated answer of the right kind with none of the wrong kind in between, whatever else arrives and however often it is resent |
| RequestSuccess.AskSucceedsExactlyWhenAnswered | internal/transport/websocket/handler/checkin_hander.go:115-161 | the same for the four requests of the handlers, by payload: an ack with the id, and later a correlated document, booking number, key received or key returned, as the request asks, with no other answer in between |
| RequestSuccess.AckWaitDecides | internal/transport/websocket/chat/chat_writer.go:133-156 | a wait for an ack fails only when no confirmation can come any more; otherwise one comes if and only if a right answer or another confirmation comes in what is left |
| RequestSuccess.ReplyWaitDecides | internal/transport/websocket/chat/chat_writer.go:80-112 | a wait for a reply succeeds only when a right answer or a confirmation comes; a wrong answer ends it without deciding anything, and any other failure means that none comes |
| ChatWriter.Writer.SendSystemNotification | internal/transport/websocket/chat/chat_writer.go:66-78 | one write of a fresh message that carries the notification; no ack is waited for |
| ChatWriter.Writer.WaitForAckOf | internal/transport/websocket/chat/chat_writer.go:133-156 | the loop refines `WaitForAck` |
| ChatWriter.Writer.WaitForReplyTo | internal/transport/websocket/chat/chat_writer.go:80-112 | the loop refines `WaitForReply` |
| ChatWriter.Writer.SendSystemRequest | internal/transport/websocket/chat/chat_writer.go:24-64 | the resend loop refines `Send` for one message with one fresh id |
| ChatWriter.Writer.AskFor | internal/transport/websocket/handler/checkout_handler.go:69-83 | the handler gets the document, booking or key number that the accepted reply carries, confirmed on the connection by the end of the log, or the writer's error; never its own complaint about the variant |
| FrameAccounting.SessionIsAccounted | internal/transport/websocket/chat/chat.go:44-52 | after any sequence of waits, requests and notifications: each script entry was used once or is still to come, each frame owed an ack got one right after, nothing else was acked, and the actions read by the reader are those handed over plus those pending, the latter in order |
| FrameAccounting.ActionsAreLostOnlyInsideTheWriter | internal/transport/websocket/chat/chat_writer.go:80-156 | every guest action of the script is handed over, pending, still to come, or was read inside one of the writer's two wait loops |
| FrameAccounting.WaitKeeps | internal/transport/websocket/chat/chat_reader.go:23-99 | a wait neither loses nor duplicates a frame and keeps the buffer in order of arrival |
| FrameAccounting.HandOverKeeps | internal/transport/websocket/chat/chat_reader.go:84-85 | in-place removal moves one frame from the buffer to the handler |
| FrameAccounting.ReadUntilKeeps | internal/transport/websocket/chat/chat_reader.go:28-55 | the read loop keeps the books, whatever ends it |
| FrameAccounting.SendKeeps | internal/transport/websocket/chat/chat_writer.go:24-64 | a request keeps the books on every outcome |
| FrameAccounting.AckWaitKeeps | internal/transport/websocket/chat/chat_writer.go:133-156 | frames skipped while waiting for an ack are used up and not acked |
| FrameAccounting.ReplyWaitKeeps | internal/transport/websocket/chat/chat_writer.go:80-112 | frames read while waiting for a reply are acked once unless they are acks |
| FrameAccounting.OwnWriteKeeps | internal/transport/websocket/chat/chat_writer.go:66-78 | a message of the server's own uses up nothing and acks nothing |
| Conversation.SessionIsBacked | internal/transport/websocket/chat/chat.go:44-52 | after any sequence of waits, requests and notifications: the actions heard are those of the frames handed over, the notifications told are those written with success, and every answer is the text of a correlated, acked reply to a request that was acked, read after the answer before it; nothing else is in the conversation |
| Conversation.WaitIsBacked | internal/transport/websocket/chat/chat_reader.go:23-56 | a wait adds the action of the frame it hands over, or nothing |
| Conversation.AskIsBacked | internal/transport/websocket/chat/chat_writer.go:24-64 | a request adds an answer that the end of the log confirms, or nothing, and tells nothing |
| Conversation.AskIsConfirmed | internal/transport/websocket/handler/checkin_hander.go:115-161 | an accepted answer is the text of the reply that closes the log, correlated with the request and of the payload it asks for |
| Conversation.WaitsForTheAction | internal/transport/websocket/chat/chat_reader.go:23-56 | what a wait hands out, from the buffer or the connection, has the action as its payload |
| Conversation.TellIsBacked | internal/transport/websocket/chat/chat_writer.go:66-78 | a notification is told exactly when its write succeeded |
| Delivery.DeliveredStreamIsOrdered | internal/app/time_event_service.go:195-225 | under both drop policies and any interleaving with the consumer, received then buffered events are an ordered, duplicate-free part of the published ones |
| Delivery.IncreasingStreamStaysIncreasing | internal/app/time_event_service.go:195-225 | strictly increasing publications arrive strictly increasing |
| Delivery.ReplaceStaleIsFresh | internal/app/time_event_service.go:206-225 | with a consumer receiving at any point, the second send never fails, the latest midnight published is the latest delivered, and a channel of capacity one holds nothing or just that |
| Delivery.EventsAreLostOnlyToAFullChannel | internal/app/time_event_service.go:195-225 | published = received + buffered + under way + dropped, drained or skipped at a full channel |
| Delivery.StepKeepsOrder | internal/app/time_event_service.go:195-225 | every atomic step of publisher or consumer keeps the stream ordered |
| Delivery.StepKeepsUpToDate | internal/app/time_event_service.go:206-225 | every step but a drop-newest send keeps replace-stale delivery up to date |
| TimeEventService.Channel.OfferHour | internal/app/time_event_service.go:197-202 | a non-blocking send: it goes through exactly when there is room |
| TimeEventService.Channel.OfferDay | internal/app/time_event_service.go:208-211 | the first send of a day change; without room the drain comes next |
| TimeEventService.Channel.DrainOne | internal/app/time_event_service.go:212-215 | the oldest buffered event is removed, if there is one |
| TimeEventService.Channel.OfferAgain | internal/app/time_event_service.go:217-222 | the second send, once |
| TimeEventService.Notify | internal/app/time_event_service.go:195-204 | every subscriber is delivered the event last, or was full and is left as it was, by one drop-newest send and receives of its own |
| TimeEventService.PublishLatest | internal/app/time_event_service.go:206-225 | one subscriber is delivered the event last, giving up at most one event for it, and only if it was full; it stays up to date |
| TimeEventService.ReplaceStale | internal/app/time_event_service.go:212-222 | drain and second send get the event in, whatever the consumer does between them |
| TimeEventService.NotifyLatest | internal/app/time_event_service.go:206-225 | the same for every subscriber, one after the other |
| TimeEventService.TimeEventService.Register | internal/app/time_event_service.go:114-129 | adds the channel to the set of its kind only; no channel, no change |
| TimeEventService.TimeEventService.Unregister | internal/app/time_event_service.go:131-146 | removes it from the set of its kind only |
| TimeEventService.TimeEventService.NotifyHourChange | internal/app/time_event_service.go:174-180 | every hour subscriber is delivered the event last, or was full |
| TimeEventService.TimeEventService.NotifyDayChange | internal/app/time_event_service.go:182-193 | every day subscriber is delivered a UTC midnight last, giving up at most one event for it; any other instant touches none |
| TimeEventService.TimeEventService.Deliver | internal/app/time_event_service.go:79-110 | one delivery reaches the subscribers of its kind only; it is acked if and only if it holds a time |
| TimeEventService.Channel.ValidIsConserved | internal/app/time_event_service.go:195-225 | on every channel, published less delivered is the number of events dropped at, drained from or skipped by a full channel |
| TimeEventService.TimeEventService.Start | internal/app/time_event_service.go:63-112 | publishes, in queue order, exactly the valid hour changes to the hour subscribers and the valid midnights to the day subscribers, up to where it stops, each by the steps of its kind; no subscriber loses an event but to a full channel; acks exactly the valid deliveries |
| SetDatatype.Set.Add | internal/domain/set_datatype.go:13-15 | adds that member only |
| SetDatatype.Set.Remove | internal/domain/set_datatype.go:17-19 | removes that member only |
| SetDatatype.Set.Values | internal/domain/set_datatype.go:21-28 | lists every member once |
| Clock.NotificationService.HourNotification | internal/app/notification_service.go:48-81 | passes on the first event that lies in that hour of its day, by the nanoseconds since midnight, and drops those before it, which do not |
| Clock.FirstAtHour | internal/app/notification_service.go:62-67 | the event found is of the hour and none before it is |
| Clock.FirstWithinTheHour | internal/app/notification_service.go:62-67 | its time of day is from `hour` hours to `hour + 1` hours, and that of none before it is |
| Clock.ServedHoursWereEvents | internal/app/notification_service.go:48-81 | hours waited for one after the other are hours of events used up, in order, with an event of its own for each |
| Clock.ServingTakesEvents | internal/app/notification_service.go:48-81 | each hour uses up at least as many of its events as it was waited for |
| Clock.NotServed | internal/app/notification_service.go:48-81 | when an hour does not come after others have, the stream at the outset could not serve them all in turn |
| Times.StartOfDayIsMidnight | internal/domain/available_period.go:25-27 | the start of a day is the midnight at or before, on the same day, and midnights are the instants at the start of their day |
| Times.SameDayIff | internal/app/reception_service.go:310-317 | equal day starts, equal days and lying in the day's window are the same thing |
| Times.DaysAndHours | internal/app/notification_service.go:62-67 | a day has 24 hours of 3600 seconds; day and hour of an instant are the ones it lies in |
| Bookings.ToDomainKeepsDays | internal/domain/booking.go:19-38 | a booking that validates keeps every field; its period moves to midnights of the same two days, as many days apart as it has nights |
| Bookings.ValidExactly | internal/domain/booking.go:19-38 | a document validates if and only if its stay begins before it ends, not all on the day of the zero time, and it has an id, at least one guest, a cottage and a status |
| Bookings.SpaceExactly | internal/app/validation/basic_validation.go:10-18 | the code points that trimming removes; the two statuses are not blank |
| BookingRepo.Repo.FindByGuestId | internal/infra/mdb/booking_repo.go:58-89 | the guest's documents in collection order, or why not |
| BookingRepo.OfGuestExactly | internal/infra/mdb/booking_repo.go:58-89 | each document of the collection is among the guest's, in its place, if and only if it is the guest's |
| BookingRepo.Repo.FindByCheckInDate | internal/infra/mdb/booking_repo.go:91-133 | the documents whose check-in lies in the half-open day, in collection order, or why not |
| BookingRepo.Repo.FindByGuestIdAndBookingNumber | internal/infra/mdb/booking_repo.go:163-195 | the document with this number and this main guest, or why not |
| BookingRepo.Repo.UpdateStatus | internal/infra/mdb/booking_repo.go:197-215 | the document with that id gets the status, every other document stays as it is, and so do all on any failure; which failure it is |
| CottageRepo.Repo.GetByName | internal/infra/mdb/cottage_repo.go:25-39 | the cottage of that name, or why not |
| CottageRepo.Repo.UpdateCurrentGuest | internal/infra/mdb/cottage_repo.go:41-60 | the cottage of that name gets the occupant, every other cottage stays as it is, and so do all on any failure; which failure it is |
| CottageRepo.Repo.UpdateKeyHolder | internal/infra/mdb/cottage_repo.go:62-87 | the cottage of that name gets key number and holder, every other cottage stays as it is, and so do all on any failure; which failure it is |
| CottageRepo.Repo.RemovePastBooking | internal/infra/mdb/cottage_repo.go:89-111 | the cottage that lists the booking loses it from its list and is emptied, whoever occupied it, every other cottage stays as it is, and so do all on any failure; which failure it is |
| CottageRepo.Pull | internal/infra/mdb/cottage_repo.go:96 | all copies of the id are gone and no other id |
| CottageRepo.PullTakesOnlyTheId | internal/infra/mdb/cottage_repo.go:96 | every other id stays as often and in the same order |
| GuestRepo.DiffThenApplyIsExact | internal/infra/mdb/guest_repo.go:95-114 | writing the collected fields gives the update on all fields, empty texts excepted |
| GuestRepo.EmptyDiffChangesNothing | internal/infra/mdb/guest_repo.go:105-107 | the diff is empty if and only if the update would change nothing |
| GuestRepo.UpdatingTwiceChangesNothing | internal/infra/mdb/guest_repo.go:95-107 | after an update the same update finds nothing to write |
| GuestRepo.ReturnedGuestAgreesExactlyWhenComplete | internal/infra/mdb/guest_repo.go:105-114 | the stored guest agrees with the update if and only if no stored text is updated with an empty one; the returned guest agrees with the stored one if and only if that holds or nothing was written |
| GuestRepo.EmptyEmailIsReportedButNotStored | internal/infra/mdb/guest_repo.go:105-122 | a failing input: a new surname with an empty email is stored with the old email and returned without one |
| GuestRepo.Repo.SetStringIfChanged | internal/infra/mdb/guest_repo.go:117-122 | notes and applies a new text that is neither empty nor the old one |
| GuestRepo.Repo.SetTimePointerIfChanged | internal/infra/mdb/guest_repo.go:124-133 | notes and applies a different instant, and also its absence |
| GuestRepo.Repo.CollectChanges | internal/infra/mdb/guest_repo.go:95-103 | the seven steps give the diff, and the guest in memory already is the result |
| GuestRepo.Repo.Update | internal/infra/mdb/guest_repo.go:79-115 | on success the stored guest is the result and no other guest changed; on failure nothing changed, and why |
| GuestService.GuestService.GetByDocument | internal/app/guest_service.go:76-105 | a stored guest with the document, an id, names, an address, an email that is one and a time of creation; or there is none, or the call did not get through |
| GuestService.RegisteredExactly | internal/domain/guest.go:23-46 | who is registered under a document: the first stored guest with it, if and only if that guest has all that validation asks for |
| GuestService.GuestService.GetBookings | internal/app/guest_service.go:153-196 | all bookings of the guest, or the first that does not validate fails them all |
| GuestService.AllToDomainExactly | internal/app/guest_service.go:153-196 | the list validates if and only if every document does, and then each to its own booking; otherwise it fails as one of them does |
| GuestService.GuestService.GetBookingByDate | internal/app/guest_service.go:198-273 | the guest's first booking starting on the day, if it validates |
| BookingLookup.CacheAgreesWithDirectLookup | internal/app/reception_service.go:219-249 | whenever the direct look-up finds a booking, a cached list made from the same store gives the same; exactly when the first candidate is invalid and a later one valid does only one of them find something |
| BookingLookup.CacheCanFindWhatTheStoreDoesNot | internal/app/reception_service.go:78-86 | a failing input, named: on day 1 a booking for zero guests stands before a valid one of the same guest; the cached list gives the valid one and the store none |
| BookingLookup.CachingIsTransparent | internal/app/reception_service.go:78-86 | hit, miss and expiry lead to the same booking, except exactly in that case |
| BookingLookup.LookedIsStored | internal/app/reception_service.go:78-86 | while the cached list is what the store would give, hit or miss, a look-up gives a stored booking of the guest for the day |
| BookingLookup.DirectTakesTheFirstCandidate | internal/app/guest_service.go:222-265 | filtering by guest and then by day takes the first document that has both |
| BookingLookup.DirectExactly | internal/app/guest_service.go:198-273 | the store gives a booking if and only if the guest's first document starting on the day validates to it |
| BookingLookup.CacheHoldsTheFirstValidCandidate | internal/app/arrange_cottage_service.go:118-165 | filtering by day, validating, and then filtering by guest takes the first valid one that has both |
| BookingLookup.ArrivingExactly | internal/app/arrange_cottage_service.go:118-165 | every document adds its booking to the day's list, in its place, if and only if it starts on the day and validates |
| BookingLookup.CachedExactly | internal/app/reception_service.go:238-246 | the list gives the guest's first booking in it, and none only if it has none |
| CheckInCache.GroupsPartition | internal/app/arrange_cottage_service.go:167-187 | the lists by check-out day keep the original order and together hold every booking exactly once |
| CheckInCache.GroupByCheckOut | internal/app/arrange_cottage_service.go:168-172 | one group for each check-out day that occurs, with exactly the bookings leaving then |
| CheckInCache.LeavingOnIsInOrder | internal/app/arrange_cottage_service.go:169-172 | a group is an ordered part of the bookings |
| CheckInCache.ArrangeCottageService.BookingsDocToDomain | internal/app/arrange_cottage_service.go:118-150 | the valid bookings in order; invalid ones are skipped |
| CheckInCache.ArrangeCottageService.PublishCheckinToday | internal/app/arrange_cottage_service.go:91-116 | exactly one attempt for every booking, in order, each sent or not as the publisher has it, also after a failed one; success means that all were sent |
| CheckInCache.NoticesAre | internal/app/arrange_cottage_service.go:91-116 | the attempts, one by one: the i-th is for the i-th booking, and sent unless the publication of its number fails; all are sent if and only if none of these fails |
| CheckInCache.ArrangeCottageService.CacheCheckOut | internal/app/arrange_cottage_service.go:167-193 | writes only entries of check-out days that occur, each with its group; success means all of them |
| CheckInCache.ArrangeCottageService.ArrangeDay | internal/app/arrange_cottage_service.go:59-87 | a day change caches the day's valid arrivals and attempts to notify each, in order; when one was not sent no other entry changes, and when nothing is down all check-out lists are written |
| CheckInCache.ArrangeCottageService.ArrangedExactly | internal/app/arrange_cottage_service.go:59-87 | a day change lists the day's arrivals and attempts each, unless it is the zero time or the store or the cache fails, and then it does neither |
| CheckInCache.ArrangeCottageService.ArrangeCheckIn | internal/app/arrange_cottage_service.go:49-89 | every event is handled, whatever fails: from board to board the day is listed and its arrivals attempted, in order, and check-out lists are written only if all were sent; or, when store or cache fails, nothing changes; while the booking store rests, cached check-in lists stay what the store would give |
| CheckInCache.ArrangeCottageService.DueDaysStayListed | internal/app/arrange_cottage_service.go:49-89 | every day whose arrivals the store gave and the cache took is listed, with exactly its valid arrivals, after that event and all later ones |
| CheckInCache.ArrangeCottageService.ArrivalsAreAnnouncedOnce | internal/app/arrange_cottage_service.go:91-116 | over all events the attempts, with booking, day and outcome, are one for each arrival of such a day, in order, and no other |
| Reception.ReceptionService.GetFromCache | internal/app/reception_service.go:219-249 | the guest's first booking in the day's list; a failing cache reads as no booking |
| Reception.ReceptionService.FindBooking | internal/app/reception_service.go:78-86 | cache first, then store: what is found is the booking that the look-up gives, and a failure means that there is none or that a call did not get through |
| Reception.ReceptionService.ProcessCheckIn | internal/app/reception_service.go:251-308 | succeeds only for a booking confirmed for today whose cottage stood empty and fully cleaned, and then the guest occupies it and it is ordered to be prepared; with such a booking it succeeds if and only if the three calls get through; an occupied or uncleaned cottage means that it is refused as not available and no cottage changes; another day and another status have their own errors |
| Reception.ReceptionService.CheckIn | internal/app/reception_service.go:63-106 | checks in exactly the booking that cache or store give for the registered guest, confirmed for today and in a cottage that stood empty and fully cleaned; it fails only if there is none that is ready or a call did not get through; nothing else on the desk changes |
| Reception.ReceptionService.FindByNumber | internal/app/reception_service.go:114-145 | the guest's own booking of that number, if it starts today and validates; a failure means that there is none or that the call did not get through |
| Reception.FoundIsTheGuests | internal/app/reception_service.go:63-145 | whatever the cache holds, only a booking of the guest registered under the document is found |
| Reception.FoundIsStored | internal/app/reception_service.go:63-145 | while the cached lists are what the store would give, what is found, by cache, store or number, is a stored booking of that guest for that day, validated |
| Reception.ReceptionService.CheckinFallback | internal/app/reception_service.go:108-151 | checks in exactly that booking, confirmed for today and in a cottage that stood empty and fully cleaned; it fails only if it is not there or not ready or a call did not get through |
| Reception.ReceptionService.CheckOut | internal/app/reception_service.go:153-201 | status, list, occupant and cleaning order change in this order: the stored document is past, the cottage of that name empty, the full cleaning ordered; a failure leaves a beginning of that, orders nothing, and means that the stores do not know booking and cottage or that a call did not get through; the day is not looked at |
| Reception.ReceptionService.Vacate | internal/app/reception_service.go:165-186 | the three store updates in order: all of them, or a beginning, with the call or the missing document that stopped them |
| Reception.ReceptionService.ReceiveCottageKey | internal/app/reception_service.go:203-209 | the key of that cottage goes to the guest, and nothing else changes; or nothing changes, because there is no such cottage or key or the call did not get through |
| Reception.ReceptionService.ReturnCottageKey | internal/app/reception_service.go:211-217 | the key of that cottage goes back, and nothing else changes; or nothing changes, because there is no such cottage or key or the call did not get through |
| DeskRules.FoundByDocumentExactly | internal/app/reception_service.go:63-86 | by document a booking is found if and only if some guest is registered and the day's list, if it can be read, has it as that guest's first, or has none of that guest and the store's first for the day validates to it |
| DeskRules.FoundByNumberExactly | internal/app/reception_service.go:108-145 | by number a booking is found if and only if some guest is registered, the number reads as an id, and the first document with that id and guest starts today and validates to it |
| DeskRules.ReadyExactly | internal/app/reception_service.go:261-288 | a booking is ready if and only if it is confirmed for today and the first cottage of its name stands empty and fully cleaned |
| DeskRules.CheckInRefusedExactly | internal/app/reception_service.go:261-288 | a check-in has to be refused if and only if nothing is found, or what is found is for another day, not confirmed, or in no cottage that stands empty and fully cleaned |
| DeskRules.KeyRefusedExactly | internal/infra/mdb/cottage_repo.go:62-87 | a key has to be refused if and only if room or number is blank or no cottage has the name |
| DeskRules.CheckOutRefusedExactly | internal/app/reception_service.go:153-201 | a check-out has to be refused if and only if no document has the id, no cottage lists it, no cottage has the name, or id or name is blank; the day plays no part |
| DeskRules.PastIsRefusedExactlyOutsideTheList | internal/app/reception_service.go:268-273 | after a check-out the stored booking is past, and checking in on it again is refused, by document and by number; the one exception is a list in the cache that still has it, and then exactly when it would be ready |
| CleaningService.CleaningService.CleanRoom | internal/app/cleaning_service.go:35-51 | an order is accepted once, or not at all when publishing fails |
| Occupancy.NoTwoSessionsShareACottage | internal/app/reception_service.go:153-308 | in every state of every interleaving each session past check-in has its main guest as occupant of its cottage, those cottages are pairwise distinct, and no check-in replaces an occupant |
| Occupancy.StepIsSafe | internal/infra/mdb/cottage_repo.go:41-111 | every single step keeps that |
| Occupancy.CheckInIsSafe | internal/app/reception_service.go:251-308 | a check-in, even one that fails after occupying the cottage, disturbs no lodged session |
| Occupancy.CheckOutIsSafe | internal/app/reception_service.go:153-201 | a check-out, even one that stops half-way, disturbs no other session |
| SessionOccupancy.SessionIsARun | internal/app/reception_service.go:153-308 | every session, completed or broken off, is a run of the resort, step by step; from a safe resort with any other sessions in it, it is safe in every scene |
| SessionOccupancy.SessionsTakeTurns | internal/transport/websocket/websocket.go:127-160 | every session checks in at most once, and checks out, if at all, on the booking it checked in on |
| SessionOccupancy.EntryIsAStep | internal/app/reception_service.go:153-308 | each entry of a session's record is one step of the resort: a check-in, also one that failed after occupying, a key move, a check-out, also one half done, or nothing |
| UnlockedOccupancy.SafeExactlyWhenUninterrupted | internal/app/reception_service.go:176-186 | for every run of unlocked check-in and check-out halves from a safe state with nobody half-way: all its states are safe if and only if no second half was interrupted, that is, no other session moved into the same cottage since its first half and lodges there (a check-in that fails after occupying does no harm to the same guest) |
| UnlockedOccupancy.StepIsSafeExactlyWithoutCollision | internal/app/reception_service.go:275-293 | one step from a safe state leads to a safe state if and only if it takes no cottage from a session that lodges there |
| UnlockedOccupancy.CollidesExactlyWhenInterrupted | internal/app/reception_service.go:275-293 | after a safe past, what a step finds in the cottage is decided by what happened since its first half |
| UnlockedOccupancy.LastStepDecides | internal/app/reception_service.go:275-293 | where a session stands is decided by its own last step |
| UnlockedOccupancy.UnlockedCheckInsCollideExactlyOnTheSameCottage | internal/app/reception_service.go:275-293 | two check-ins that both look before either occupies end in a safe state if and only if they name different cottages, whoever the guests are; the first guest is replaced if and only if the guests differ too |
| UnlockedOccupancy.UnlockedCheckInsCanCollide | internal/app/reception_service.go:275-293 | a failing input: one cottage booked twice for a day |
| UnlockedOccupancy.OneGuestMovesInTwice | internal/app/reception_service.go:275-293 | a failing run: one guest, connected twice, checks in twice on one booking |
| UnlockedOccupancy.CheckOutTurnsOutTheNextGuest | internal/app/reception_service.go:176-186 | a failing run: the next guest moves in after the booking was taken off the list, and the check-out then clears the cottage |
| Timing.NothingIsEarly | internal/transport/websocket/handler/stay_handler.go:62-88 | in every session, completed or broken off: before every attempt at a departure the last thing seen is a time of the clock or a day event whose day is the check-out day or later; before every part of a full day, its evening included, it is a day event of an earlier day; no waking up otherwise, and no other evening than the first, before anything is seen |
| Timing.FullDaysAreTheEarlyDays | internal/transport/websocket/handler/stay_handler.go:62-82 | a completed session has exactly one full day for each event of a day before the check-out day, and saw at most one more, of that day or a later one |
| Timing.FullDaysHadTheirDays | internal/transport/websocket/handler/stay_handler.go:70-82 | in every session each full day has a day event of its own, before the check-out day, in the order received |
| Timing.CheckedInForTheDay | internal/transport/websocket/handler/checkin_hander.go:40-44 | the guest of every session is checked in for the day of the reading the clock had when the session opened |
| Timing.StayLengthIsBounded | internal/transport/websocket/handler/stay_handler.go:62-82 | if the day events that come are strictly increasing midnights after the check-in day, at most max(0, nights - 1) full days are spent |
| Timing.StayLengthIsBoundedByThePublishedDays | internal/transport/websocket/handler/stay_handler.go:52-82 | the same for every session whose day events a replace-stale channel of capacity one delivered from strictly increasing published days, under any interleaving |
| Prompts.NothingIsUnprompted | internal/transport/websocket/websocket.go:127-160 | in every session, completed or broken off, each entry, done or attempted in vain, follows on what prompts it: an order on the guest's word, an announcement on its hour, a call at the reception on the document, number or key that the guest has named and on the day that the clock gave, completion on what was completed |
| SessionStores.TheBookingIsFound | internal/transport/websocket/handler/checkin_hander.go:59-75 | every guest who moved in did so on the booking that the reception finds at the opening for the document and the number given; it is the guest's, and while the cached lists are current a stored one for that day |
| SessionStores.CompletedMovesInAndOut | internal/app/reception_service.go:63-217 | after a completed session, which began with a booking confirmed for the day and its cottage empty and fully cleaned, bookings and cottages are those of the opening with at most one failed check-in, the guest moved in and out, and the booking past, and nothing else |
| SessionStores.QuietKeepsBooks | internal/transport/websocket/websocket.go:127-160 | between the answers of the reception no store changes but for the orders |
| Conclusions.SessionConcludes | internal/transport/websocket/websocket.go:127-160 | orders, conversation, meals and stores of a completed session, in the state in which it ends |
| Conclusions.SessionIsOnTheBookingFound | internal/transport/websocket/handler/checkin_hander.go:34-75 | the booking of every session, completed or not, is the one that the reception finds at the opening, on the day that the clock gave |
| Completion.SessionCompletesExactlyWhenAwaited | internal/transport/websocket/websocket.go:78-161 | with services and clock up, a session completes if and only if, as it opens, the reception will serve some guest, the check-out day will be reached, the hour changes suffice and the connection carries the conversation with exactly as many full days; it breaks off otherwise |
| Completion.FavourableSessionsComplete | internal/transport/websocket/websocket.go:127-160 | when everything is there for a guest, the session completes, and on that guest's booking |
| Completion.CompletedWasAwaited | internal/transport/websocket/websocket.go:127-160 | whatever session completed, everything was there for its guest when it opened |
| Supplies.TalkIsAsHoped | internal/transport/websocket/chat/chat_reader.go:23-56 | the connection alone decides what is said: the same operations lead to the same answers |
| Supplies.LengthAfterDays | internal/transport/websocket/handler/stay_handler.go:62-82 | the number of full days, and whether the check-out day is reached, is decided by the clock readings and wake-ups at the opening |
| BreakingOff.BreaksOffIn | internal/transport/websocket/websocket.go:127-160 | a session that broke off saw no time, ended in a wait, or stopped on the way along one whole session whose waits so far are its own |
| Visits.CompletedSpells | internal/transport/websocket/websocket.go:127-160 | a completed session with k full days adds up to the orders, the conversation and the meals of one, exactly and in order |
| Visits.BrokenOffBeginsToSpell | internal/transport/websocket/websocket.go:127-160 | the orders of a session that broke off are a beginning of some session's orders |
| Totals.RecordAddsUp | internal/transport/websocket/websocket.go:127-160 | in every scene of a journal the orders, the conversation, the day events and the clock times are those at the opening and those entered, none lost and none added |
| Totals.RecordServes | internal/app/notification_service.go:48-81 | the hours entered were served by the hour changes used up, one after the other |
| Causes.SessionsBreakOffForACause | internal/transport/websocket/websocket.go:127-160 | the last entry of every session that broke off failed, for a cause stated about the connection, the opening hour stream, the publisher, the clock, the days, or what the reception had to refuse or could not get through, as they stood; or the clock gave no time at check-in or check-out |
| SessionWords.DinnerTakesTwoEventsAnEvening | internal/transport/websocket/handler/stay_handler.go:93-201 | a stay with k full days uses up at least 2(k + 1) hour changes of 18:00 and k of 6:00, each meal one of its own, in order |
| StayTransition.TransitionIsAWait | internal/transport/websocket/handler/stay_handler.go:225-262 | the record of a transition is one whole wait: a look at the clock first and after each tick, only idle entries before the last, and the verdict is that of the last: yes on a reading or event whose day is the check-out day or later, no on an event of an earlier day, none at the end of the stream |
| StayTransition.TransitionDecides | internal/transport/websocket/handler/stay_handler.go:215-262 | it says yes only on a time of the clock or a day event on or after the check-out day, and no only on a day event before it |
| StayTransition.AwaitDayIsAWait | internal/transport/websocket/handler/stay_handler.go:242-261 | the same for the select loop, where clock errors and readings that are no time are passed over |
| Handlers.Hear | internal/transport/websocket/handler/stay_handler.go:301-309 | one wait on the connection; a success hands over one more frame with that action, and the action is on record as heard exactly then, and as waited for in vain otherwise |
| Handlers.Tell | internal/transport/websocket/chat/chat_writer.go:66-78 | one notification, one write of it on the connection; it is on record as told exactly when it was written |
| Handlers.Request | internal/transport/websocket/handler/checkin_hander.go:115-161 | one request; the answer is on record exactly when it was accepted, is what the confirmed reply on the connection carries, and its variant is never wrong |
| Handlers.ReadClock | internal/transport/websocket/handler/checkin_hander.go:40-44 | one look at the clock: the next reading goes on record, and a failed one as such |
| Journal.Journal.Note | internal/transport/websocket/websocket.go:127-160 | an entry can be written only for what leads from the scene on record to the present one, and is written last |
| Journal.RecordNext | internal/transport/websocket/websocket.go:127-160 | a record with one more entry that follows from its last scene is a record |
| StayHandler.StayHandler.IsCheckoutReachedNow | internal/transport/websocket/handler/stay_handler.go:264-278 | one look at the clock, on record: yes exactly when the next reading is a time on or after the check-out day, an error exactly when the clock has none; no clock and no time mean no |
| StayHandler.StayHandler.WaitDayChangeEvent | internal/transport/websocket/handler/stay_handler.go:280-299 | without a clock the next event decides |
| StayHandler.StayHandler.WaitForStayTransition | internal/transport/websocket/handler/stay_handler.go:225-262 | the loop refines `Transition`: yes on a time or a day event on or after the check-out day, no on a day event before it |
| StayHandler.StayHandler.NextDay | internal/transport/websocket/handler/stay_handler.go:62-82 | the record grows by one whole wait, whose last entry alone decides, and the wait used up an event when it says no |
| StayHandler.StayHandler.NotifyMeal | internal/transport/websocket/handler/stay_handler.go:370-389 | the hour change comes and then the announcement is sent; or the hour is missing from the stream and nothing is sent; or the write failed |
| StayHandler.StayHandler.CleanCottage | internal/transport/websocket/handler/stay_handler.go:311-332 | orders the daily cleaning after the guest has asked for it; without the guest nothing is ordered |
| StayHandler.StayHandler.PrepareCottageForSleep | internal/transport/websocket/handler/stay_handler.go:334-360 | waits for and announces dinner once more, and orders the preparation after the guest has left for it; a failure leaves a beginning of this on record |
| StayHandler.StayHandler.CheckInDayRoutine | internal/transport/websocket/handler/stay_handler.go:161-201 | the first evening, step by step in its order, or a beginning of it and the step that failed |
| StayHandler.StayHandler.StayRoutine | internal/transport/websocket/handler/stay_handler.go:93-159 | one full day, step by step in its order, or a beginning of it and the step that failed |
| StayHandler.StayHandler.CheckoutDayRoutine | internal/transport/websocket/handler/stay_handler.go:203-213 | the guest wakes up and then leaves, or a beginning of it and the wait that failed |
| StayHandler.StayHandler.Handle | internal/transport/websocket/handler/stay_handler.go:44-91 | on record, in this order: the first evening, a full day after each wait that ended with an earlier day event, and the departure after the wait that reached the check-out day; a failed stay is a beginning of that and the step or wait that failed |
| StayHandler.StayHandler.FullDays | internal/transport/websocket/handler/stay_handler.go:62-82 | each turn of the loop is a full day after a wait that ended early and then the next wait; the loop ends only with the wait that reached the check-out day, or where something failed |
| CheckInHandler.CheckInHandler.Greet | internal/transport/websocket/handler/checkin_hander.go:34-57 | the clock is read after the guest has shown up and before anything is asked, and the day is the next reading it had; a failure is a beginning of this, or lacks a time |
| CheckInHandler.CheckInHandler.Find | internal/transport/websocket/handler/checkin_hander.go:59-75 | the document is tried first and the number is asked for exactly when that was refused; what is returned is the booking on record as checked in, which is the one the reception found; a failure is on record as both refusals, or as a refusal and a request that failed; each refusal had to be made or follows a call that did not get through |
| CheckInHandler.CheckInHandler.AskForNumber | internal/transport/websocket/handler/checkin_hander.go:62-75 | after a refusal the number is asked for and, once given, tried: what is returned is the booking the reception found for it; a failure is on record as a request that failed, or as an answered one and a second refusal |
| CheckInHandler.CheckInHandler.GiveCottageKey | internal/transport/websocket/handler/checkin_hander.go:79-97 | completion is told, the key named, taken, and only then handed over in the store, or a beginning of this and what failed; the key is refused only if its number is blank, its cottage missing or a call did not get through |
| CheckInHandler.CheckInHandler.Admit | internal/transport/websocket/handler/checkin_hander.go:59-97 | from the document to the key, as the plan of a check-in or a beginning of it; the booking returned is the one that was checked in |
| CheckInHandler.CheckInHandler.Handle | internal/transport/websocket/handler/checkin_hander.go:33-100 | the whole plan of a check-in, on the day of the clock and on the booking returned, with the stores changed by the answers on record and by nothing else; a failed check-in broke off in it at the step that failed, or lacked a time |
| CheckOutHandler.CheckOutHandler.TakeKeyBack | internal/transport/websocket/handler/checkout_handler.go:25-50 | clock, guest, key and return, in this order and with no store touched, or a beginning of it and what failed |
| CheckOutHandler.CheckOutHandler.Settle | internal/transport/websocket/handler/checkout_handler.go:50-64 | the key goes back, then the booking is checked out, then the guest is told; without a time it ends with the key back; completed or not, the stores change by these answers and by nothing else |
| CheckOutHandler.CheckOutHandler.Dismiss | internal/transport/websocket/handler/checkout_handler.go:52-64 | the booking is checked out before the guest is told; a failed check-out leaves the stores at a beginning of it and the guest untold |
| CheckOutHandler.CheckOutHandler.Handle | internal/transport/websocket/handler/checkout_handler.go:24-67 | the whole plan of a check-out of that booking, with the stores changed by the answers on record and by nothing else; a failed check-out broke off in it at the step that failed, or lacked a time |
| Websocket.Ws.Handle | internal/transport/websocket/websocket.go:78-161 | on every run the frames balance, the conversation is backed by the connection, and the journal, with the stores in its scenes, leads from the opening of the session to its end, with nothing unprompted and nothing early; a booking is the one the reception finds at the opening, on the day of the clock; it holds a completed session, with its orders, conversation, meals and end state, or one broken off at the step that failed; with services and clock up it completes if and only if everything is there for some guest as it opens |
| Websocket.Ws.Session | internal/transport/websocket/websocket.go:127-160 | check-in, stay and check-out of the booking checked in compose into one completed session, each only after the one before succeeded, or into one that broke off; the stores change only as the record says |
| Websocket.Ws.StayAndLeave | internal/transport/websocket/websocket.go:138-160 | the check-out of the same booking follows on the departure, and only on it; it ends or breaks off, with the stores as the record says |
| Websocket.SessionSettles | internal/infra/mdb/cottage_repo.go:41-111 | the five updates of a session, one after the other, leave the booked cottage empty, with its key and without the booking, and no other cottage touched |
| Websocket.CompletedSessionSettles | internal/app/reception_service.go:153-217 | the end state of every completed session that left no check-in half done: the document with the booking's id is past and every other as it was, its cottage is empty, with its key and without the booking, and every other cottage is as it was |

## Left out

- The websocket library, protojson, gRPC, RabbitMQ, Redis and Mongo themselves: each is replaced by the contract of its calls. How the library behaves after a timed-out read is not modelled.
- Sender, protocol version and trace context of a message, and status and code of an ack: nothing modelled depends on them.
- Spans, logging, HTTP handlers, probes, configuration, start-up and the checks for missing dependencies.
- Wall-clock durations: timeouts are entries of the inbound script, ticks are entries of the stay's wake-ups, and the expiry of a cache entry is a miss at any time.
- A store update that reports an error is taken not to have been applied. Undecodable documents are not modelled.
- A missing clock reading (a nil time) makes the two handlers panic; the model ends the session with an error at that point.
- The email pattern is an oracle; looking up a guest by id, adding a guest, `AckGuestAction`, `dayChangeNotification`, `hourChangeNotification`, `CheckOutNotification` and `FindByGuestIdAndCheckIn` have no part in a session.
- Registering and unregistering while a publication is in progress, and consumers of other channels than the one being published to. Nothing is claimed about a channel after it was unregistered.
- The hour-change channel that each meal opens anew: a meal sees an arbitrary stream of hour changes, each at most once. A closed meal timer, which the code passes over, does not occur because nothing closes it.
- Overlapping sessions inside one store call: a single store operation is atomic. In `UnlockedOccupancy` a check-in is two steps (look, occupy) and a check-out two (remove, clear); what lies between them in other stores is not interleaved.
- Clock.NotificationService.HourNotification: stops at the first event of the hour, where the code goes on forwarding until its context ends; its only caller cancels that context after one event (internal/transport/websocket/handler/stay_handler.go:370-389).
- Websocket.Ws.Handle: when completion is decided (`Promising`), the clock is taken to have a time for every look, four more than there are wake-ups, and no store or publisher call to fail from the opening on; a session may complete also without these. Other services that write the stores during a session are not interleaved with it.
- Retrying `CheckOut` after it has failed half-way: the code makes no promise there. Checking in once more from a stale cache entry is possible, exactly as `DeskRules.PastIsRefusedExactlyOutsideTheList` says.
