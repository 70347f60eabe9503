/** Vocabulary shared by the protocol models. */
module Common {
  datatype Option<+T> = None | Some(value: T)

  /** Times are integral milliseconds of one clock. */
  type Time = int

  const SECOND: Time := 1000

  /** Lease and version tokens: every draw is a fresh UUID. */
  type Token = nat
}
