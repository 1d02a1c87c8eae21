/** Arithmetic shared by the backoff schedules. */
module Numbers {
  const U32_MAX: nat := 0xFFFF_FFFF

  function Pow2(n: nat): (r: nat)
    ensures r >= 1
  {
    if n == 0 then 1 else 2 * Pow2(n - 1)
  }

  function Min(a: nat, b: nat): nat {
    if a < b then a else b
  }
}
