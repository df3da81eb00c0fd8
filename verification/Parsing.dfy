/** What readers of text return. */
module Parsing {
  datatype Option<T> = None | Some(value: T)

  /** A value and what follows it. */
  datatype Parsed<T> = Parsed(item: T, rest: string)
}
