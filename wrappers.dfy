/** Shared vocabulary: optional values and the document store's object ids. */
module Wrappers {

  /** A value that may be absent (`undefined` / `null` in the source). */
  datatype Option<T> = None | Some(value: T) {

    /** The value, or `default` when absent (the source's `a || b` on a present-or-undefined value). */
    function GetOr(default: T): T {
      if Some? then value else default
    }
  }

  /** A MongoDB `_id`, kept abstract: the store only needs fresh, comparable identifiers. */
  type ObjectId = nat
}
