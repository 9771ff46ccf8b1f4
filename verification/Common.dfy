/** Types shared by the models. */
module Common {
  datatype Option<+T> = None | Some(value: T)

  /** Units of one token. */
  datatype Amount = Amount(token: string, units: nat)
}
