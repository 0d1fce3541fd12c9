/** Names shared by every module: optional values and opaque identifiers. */
module Basics {

  datatype Option<+T> = None | Some(value: T) {
    function GetOr(other: T): T {
      if Some? then value else other
    }
  }

  /** A random identifier. Only equality is ever observed, so any countable type will do. */
  type Id = nat

  function Max(a: int, b: int): int {
    if a < b then b else a
  }

  function Min(a: int, b: int): int {
    if a < b then a else b
  }
}
