/** The optional value used by the solver's result accessor and by the text-to-number
    conversion of the input form. */
module Wrappers {
  datatype Option<T> = None | Some(value: T)
}
