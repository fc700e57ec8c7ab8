/** Python's None, exceptions and string truthiness, as datatypes. */
module Wrappers {

  /** Python's `None` or a value. */
  datatype Option<+T> = None | Some(value: T)

  /** A call that returns a value or raises. */
  datatype Result<+R, +E> = Success(value: R) | Failure(error: E)

  /** A call that returns nothing useful or raises. */
  datatype Outcome<+E> = Pass | Fail(error: E)

  /** The Python exceptions the modelled code can raise. */
  datatype PyError =
    | TypeError            // wrong argument type, or `join` over a None
    | KeyError(key: string) // a missing key in the schema table
    | AttributeError(name: string) // an attribute read before it was ever set
    | ValueError           // `list.index` of an absent item

  /** `bool(x)` for an optional string: None and "" are falsy. */
  predicate Truthy(x: Option<string>) {
    x.Some? && x.value != ""
  }

  /** `f"{x}"` for an optional string: None renders as "None". */
  function PyStr(x: Option<string>): string
  {
    if x.Some? then x.value else "None"
  }
}
