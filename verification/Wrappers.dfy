// Values that may be absent: Go's nil slices and maps, missing map keys and failed calls.
module Wrappers {
  datatype Option<+T> = None | Some(value: T)
}
