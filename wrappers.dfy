/** The optional value used for the nullable `Float?` fields of the widget. */
module Wrappers {
  datatype Option<+T> = None | Some(value: T)
}
