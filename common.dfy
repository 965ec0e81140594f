/** Shared helper types for the QuantumFuse model. */
module Common {

  /** A value that may be absent: a decode that failed, a lookup that found nothing. */
  datatype Option<+T> = None | Some(value: T)
}
