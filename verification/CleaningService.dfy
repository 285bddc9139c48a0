/** Cleaning orders, published to the cleaning staff. */
module CleaningService {
  import opened Outcomes
  import opened Bookings

  datatype RequestType = PrepareForGuest | DailyCleaning | FullCleaning | PrepareForSleep
  datatype CleaningOrder = CleaningOrder(roomName: string, requestType: RequestType)

  function NewCleaningOrder(roomName: string, requestType: RequestType): Result<CleaningOrder> {
    if Blank(roomName) then Failure(Invalid) else Success(CleaningOrder(roomName, requestType))
  }

  class CleaningService {
    /** Whether the n-th order cannot be published. */
    const publishFails: nat -> bool
    var attempts: nat
    var accepted: seq<CleaningOrder>

    constructor (publishFails: nat -> bool)
      ensures this.publishFails == publishFails && attempts == 0 && accepted == []
    {
      this.publishFails, attempts, accepted := publishFails, 0, [];
    }

    method CleanRoom(order: CleaningOrder) returns (r: Result<Unit>)
      modifies this
      ensures attempts == old(attempts) + 1
      ensures r == if publishFails(old(attempts)) then Failure(PublishFailed) else Success(Unit)
      ensures accepted == if r.Success? then old(accepted) + [order] else old(accepted)
    {
      attempts := attempts + 1;
      if publishFails(attempts - 1) {
        return Failure(PublishFailed);
      }
      accepted := accepted + [order];
      return Success(Unit);
    }
  }
}
