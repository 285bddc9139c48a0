/** Optional values and the error returns of the guest manager. */
module Outcomes {

  datatype Option<+T> = None | Some(value: T)

  /** Every error value the modelled code returns, one constructor a cause. */
  datatype Error =
    // chat connection
    | ReadTimeout | ConnectionClosed | BadFrame | Canceled | WriteFailed | EmptyMessageId
    | AckNotReceived | ReplyNotReceived | UnexpectedGuestResponse | UnexpectedResponse
    // clock and day-change stream
    | ClockFailed | NilTime | DayStreamClosed
    // validation, stores and publisher
    | Invalid | StoreFailed | NotFound | PublishFailed
    // reception
    | NoBookingToday | CheckInNotToday | NotConfirmed | CottageNotAvailable

  /** A failure-compatible result, so that `:-` plays the part of `if err != nil { return err }`. */
  datatype Result<+T> = Success(value: T) | Failure(error: Error) {
    predicate IsFailure() {
      Failure?
    }

    function PropagateFailure<U>(): Result<U>
      requires Failure?
    {
      Failure(error)
    }

    function Extract(): T
      requires Success?
    {
      value
    }
  }

  datatype Unit = Unit

  /** One of the calls from the `from`-th up to the `to`-th does not get through. */
  ghost predicate Fails(down: nat -> bool, from: nat, to: nat) {
    exists n :: from <= n < to && down(n)
  }
}
