/** Shared by several components. */
module Common {

  datatype Option<+T> = None | Some(value: T)

  /** C++ integer division: truncates toward zero. */
  function TruncDiv(n: int, d: int): (q: int)
    requires d > 0
    ensures n >= 0 ==> q == n / d
  {
    if n >= 0 then n / d else -((-n) / d)
  }

  function Bit(b: bool): nat { if b then 1 else 0 }

  lemma Associative<T>(a: seq<T>, b: seq<T>, c: seq<T>)
    ensures a + b + c == a + (b + c)
  {
  }
}
