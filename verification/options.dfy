/** The optional value used for TypeScript's `?` fields, `undefined` arguments
    and `null` references. */
module Options {

  datatype Option<+T> = None | Some(value: T) {

    /** The value, or `fallback` when there is none (TypeScript's `x === undefined ? d : x`). */
    function GetOr(fallback: T): T {
      if Some? then value else fallback
    }
  }
}
