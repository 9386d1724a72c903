/** Result types, and the two booking statuses every module speaks of. */
module Common {
  datatype Option<+T> = None | Some(value: T)

  datatype Result<+T, +E> = Ok(value: T) | Err(error: E)

  datatype BookingStatus = Held | Confirmed | Completed | Cancelled | NoShow

  datatype DepositStatus = DepositPending | DepositPaid | DepositRefunded | DepositForfeited
}
