/** The lodging.v1 envelope and its payload variants. */
module Messages {
  import opened Outcomes

  /** `Unrecognised` is an enum number the server has no name for; the wire format lets it through. */
  datatype GuestAction =
    | Unspecified
    | ShowForCheckin | ShowDocument | ShowBookingNumber
    | EnterCottage | LeaveCottage | GoForABath | ReturnFromBath
    | GoForDinner | GoForBreakfast | GoToSleep | Wakeup
    | LeaveCleanupNotification | EnjoyResort | ProceedToCheckout
    | ReturnCottageKey | TakeCottageKey
    | Unrecognised(number: int)

  /** `NoVariant` is a guest response in which no variant is set. */
  datatype GuestResponse =
    | Document(documentId: string)
    | BookingNumber(bookingId: string)
    | KeyReceived(receivedKeyId: string)
    | KeyReturned(returnedKeyId: string)
    | NoVariant

  datatype SystemRequest = RequestDocument | RequestBookingNumber | GiveCottageKey | RequestCottageKey

  datatype SystemNotification =
    BookingChecking | CheckInComplete | DinnerReady | BreakfastReady | CheckOutComplete

  datatype Payload =
    | Action(action: GuestAction)
    | Response(response: GuestResponse)
    | Notification(notification: SystemNotification)
    | Request(request: SystemRequest)
    | Ack(acknowledgedId: string)
    | NoPayload

  datatype Message = Message(id: string, correlationId: string, payload: Payload) {
    predicate IsAck() {
      payload.Ack?
    }

    function GuestAction(): GuestAction {
      if payload.Action? then payload.action else Unspecified
    }

    function GuestResponse(): Option<GuestResponse> {
      if payload.Response? then Some(payload.response) else None
    }

    /** The frame carries a guest action other than the zero value. */
    predicate IsGuestAction() {
      GuestAction() != Unspecified
    }
  }

  /** An answer fits when both are present and set the same variant; an unset variant fits nothing. */
  predicate GuestResponseMatchesExpected(actual: Option<GuestResponse>, expected: Option<GuestResponse>) {
    && actual.Some?
    && expected.Some?
    && match expected.value {
         case Document(_) => actual.value.Document?
         case BookingNumber(_) => actual.value.BookingNumber?
         case KeyReceived(_) => actual.value.KeyReceived?
         case KeyReturned(_) => actual.value.KeyReturned?
         case NoVariant => false
       }
  }
}
