/** The optional value that stands for Ruby's `nil` wherever the source may hold one. */
module Options {

  datatype Option<+T> = None | Some(value: T)
}
