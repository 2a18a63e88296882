/** Small value types shared by the three bindings. */
module Common {

  /** A value that may be absent: Go's nil, Java's null, JavaScript's undefined. */
  datatype Option<+T> = None | Some(value: T) {
    /** The value, or `default` when absent (JavaScript's destructuring default). */
    function GetOr(default: T): T {
      match this
      case Some(v) => v
      case None => default
    }
  }

  /** A 16-bit signed PCM sample (Go `int16`, Java `short`, a JavaScript `Int16Array` element). */
  newtype int16 = x: int | -0x8000 <= x < 0x8000

  /** An 8-bit byte of a model file. */
  newtype byte = x: int | 0 <= x < 0x100
}
