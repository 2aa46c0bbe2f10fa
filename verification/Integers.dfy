/** Fixed-width arithmetic and balances, as the pallets compute with them. */
module Integers {

  const U32_MAX: nat := 0xFFFF_FFFF
  const U128_MAX: nat := 0xFFFF_FFFF_FFFF_FFFF_FFFF_FFFF_FFFF_FFFF
  const USIZE_MAX: nat := 0xFFFF_FFFF_FFFF_FFFF

  function Saturated(n: nat, max: nat): nat {
    if n <= max then n else max
  }

  function SaturatingAdd(a: nat, b: nat, max: nat): nat {
    Saturated(a + b, max)
  }

  function SaturatingSub(a: nat, b: nat): nat {
    if a >= b then a - b else 0
  }

  /** A missing balance is zero. */
  function Amount(balances: map<nat, nat>, a: nat): nat {
    if a in balances then balances[a] else 0
  }
}
