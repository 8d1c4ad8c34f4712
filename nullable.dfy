/** A reference that C# may leave null: a form field the client did not send. */
module Nullable {

  datatype Option<+T> = None | Some(value: T)
}
