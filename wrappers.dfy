/** The optional-value wrapper used for the results of collaborators that can fail. */
module Wrappers {
  datatype Option<+T> = None | Some(value: T)
}
