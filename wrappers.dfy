/** The optional value used where the decoder reports "nothing" (an unknown key, no calibration). */
module Wrappers {

  datatype Option<+T> = None | Some(value: T)
}
