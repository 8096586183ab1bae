/** Small vocabulary for cents. */
module Amounts {
  function Least(a: int, b: int): int { if a < b then a else b }

  function Max0(x: int): int { if x < 0 then 0 else x }

  /** How much of `amount` a credit covers, `earlier` of it being used up before. */
  function Covered(credit: int, earlier: int, amount: int): int { Max0(Least(amount, credit - earlier)) }
}
