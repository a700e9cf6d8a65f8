/** Values shared by every part of the model. */
module Common {

  /** A value that may be missing: a JavaScript `null`/`undefined` or an absent field. */
  datatype Option<+T> = None | Some(value: T)

  /** One draw of `Math.random()`: a real in [0, 1). The model takes every random
      value as an explicit input of this type instead of calling a generator. */
  type Roll = r: real | 0.0 <= r < 1.0

  function Max(a: real, b: real): real { if a < b then b else a }

  function Min(a: real, b: real): real { if a < b then a else b }
}
