/** Small types shared by every module. */
module Common {

  datatype Option<+T> = None | Some(value: T) {
    /** The value, or `fallback` when there is none (the source's `??`). */
    function GetOr(fallback: T): T {
      match this
      case Some(v) => v
      case None => fallback
    }
  }

  function Max(a: int, b: int): int {
    if a < b then b else a
  }

  function Min(a: int, b: int): int {
    if a < b then a else b
  }
}
