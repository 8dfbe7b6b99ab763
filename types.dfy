/** Values shared by the seat-selection screen and the payment component. */
module Types {

  /** A value that may be absent (JavaScript's `null` / `undefined`). */
  datatype Option<+T> = None | Some(value: T)

  /** A rider gender as seat records carry it: "M" or "F". */
  datatype Gender = M | F

  /**
   * A seat record of a bus as the backend sends it, or a copy of one kept in
   * the selection. `neighborGender` is a field of the record: the screen reads
   * it and never computes it.
   */
  datatype Seat = Seat(
    seatNumber: string,
    booked: bool,
    gender: Option<Gender>,
    neighborGender: Option<Gender>)
}
