/** The Some/None datatype used for values a JavaScript parse may fail to produce (NaN). */
module Wrappers {

  datatype Option<+T> = None | Some(value: T)
}
