/** The 64-bit signed arithmetic the commercial services rely on: range checks and the
    two guarded operations that report an overflow instead of wrapping. */
module Int64 {

  const MAX: int := 0x7FFF_FFFF_FFFF_FFFF
  const MIN: int := -0x8000_0000_0000_0000

  datatype Option<+T> = None | Some(value: T)

  predicate Fits(x: int) {
    MIN <= x <= MAX
  }

  function Min(a: int, b: int): int {
    if a < b then a else b
  }

  function Max(a: int, b: int): int {
    if a > b then a else b
  }

  /** The guards compare against bounds that themselves stay in range, as the source must. */
  function SafeAdd(a: int, b: int): (r: Option<int>)
    requires Fits(a) && Fits(b)
    ensures r == if Fits(a + b) then Some(a + b) else None
  {
    if b > 0 && a > MAX - b then None
    else if b < 0 && a < MIN - b then None
    else Some(a + b)
  }

  function SafeSub(a: int, b: int): (r: Option<int>)
    requires Fits(a) && Fits(b)
    ensures r == if Fits(a - b) then Some(a - b) else None
  {
    if b == MIN then
      if a >= 0 then None else Some(a - b)
    else
      SafeAdd(a, -b)
  }
}
