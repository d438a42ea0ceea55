/** The optional value the Python code writes as `Optional[...]` / `None`. */
module Wrappers {

  datatype Option<+T> = None | Some(value: T)

}
