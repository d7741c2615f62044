/** The Optional/nullable results of the checkers' helpers. */
module Wrappers {

  datatype Option<+T> = None | Some(value: T)
}
