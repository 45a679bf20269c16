/** The optional value the model uses for "absent" results (Swift's `nil`). */
module Wrappers {

  datatype Option<+T> = None | Some(value: T)

}
