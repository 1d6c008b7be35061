/** Types shared by the models of the individual services. */
module Common {

  datatype Option<+T> = None | Some(value: T)

  type UserId = string
  type SeatId = string    // an inventoryId
  type Token = string
  type Time = int         // an integer clock, in seconds
  type Money = real       // credits; rounding is not modelled

  /** A timestamp as found in a JSON payload: empty, not an ISO time, or a time. */
  datatype Stamp = Blank | Unreadable | At(time: Time)

  /** How one remote call ended for its caller. A call that failed, with an error
      code or an exception, may still have been carried out by the peer. */
  datatype Net = Ok | Err(done: bool) | Raise(done: bool) {
    predicate Applied() {
      Ok? || done
    }
  }
}
