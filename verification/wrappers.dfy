/** Optional values: TypeScript's optional fields (`x?: T`), `T | null` and
    `undefined` all become `Option`. */
module Wrappers {

  datatype Option<+T> = None | Some(value: T) {

    /** The value when present, `default` otherwise (the `??` of TypeScript). */
    function GetOr(default: T): T {
      match this
      case Some(v) => v
      case None => default
    }
  }
}
