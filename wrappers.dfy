/** The optional value the report builder uses for "no sentinel file seen yet"
    and for "nothing was generated". */
module Wrappers {

  datatype Option<+T> = None | Some(value: T)
}
