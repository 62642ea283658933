/** The optional value used where the source holds `T | null` or may yield no number. */
module Wrappers {
  datatype Option<+T> = None | Some(value: T)
}
