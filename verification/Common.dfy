/** Small helpers shared by the models. */
module Common {

  datatype Option<+T> = None | Some(value: T) {
    function GetOr(default: T): T {
      match this
      case Some(v) => v
      case None => default
    }
  }

  function Min(x: int, y: int): int {
    if x <= y then x else y
  }

  function Max(x: int, y: int): int {
    if x >= y then x else y
  }

  /** JavaScript's `Math.round`, on exact reals: halves go up. */
  function Round(x: real): int {
    (x + 0.5).Floor
  }

  /** JavaScript's `x || y` on an optional number: absent and zero both fall through. */
  function OrElse(x: Option<int>, y: int): int {
    if x.Some? && x.value != 0 then x.value else y
  }
}
