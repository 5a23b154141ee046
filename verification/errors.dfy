/** The errors a resolver call can end in. */
module Errors {

  datatype ResolveError =
      /** Subtracting the default window from the clock left Python's date range (OverflowError). */
    | DateOutOfRange
      /** The aggregate's unit buckets were not exactly one. */
    | MultipleUnits
  {
    /** The message the raised exception carries. */
    function Message(): string {
      match this
      case DateOutOfRange => "date value out of range"
      case MultipleUnits => "Multiple different units in aggregation!"
    }
  }
}
