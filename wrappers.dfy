/** Optional values: JavaScript's `undefined`/`null` results and absent keys. */
module Wrappers {

  datatype Option<+T> = None | Some(value: T)
}

/** The smaller and the larger of two integers, as `Math.min` and `Math.max`. */
module Bounds {

  function Min(a: int, b: int): int { if a <= b then a else b }

  function Max(a: int, b: int): int { if a <= b then b else a }
}
