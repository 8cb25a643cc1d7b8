/** Small vocabulary shared by every part of the model. */
module Common {

  datatype Option<+T> = None | Some(value: T) {
    function GetOr(default: T): T {
      match this
      case Some(v) => v
      case None => default
    }
  }

  /** 1 for true, 0 for false: turns a fact into a summand. */
  function Ind(b: bool): int {
    if b then 1 else 0
  }

  function Min(a: int, b: int): int {
    if a < b then a else b
  }

  function Max(a: int, b: int): int {
    if a < b then b else a
  }

  function Abs(x: int): nat {
    if x < 0 then -x else x
  }

  /** A balance sheet; an account nobody mentioned stands at zero. */
  function At<K>(m: map<K, int>, k: K): int {
    if k in m then m[k] else 0
  }
}
