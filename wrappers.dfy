/** The optional value used for storage slots that may be absent, for
    nullable screen state and for "no navigation happened". */
module Wrappers {

  datatype Option<+T> = None | Some(value: T)
}
