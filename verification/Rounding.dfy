// Division rounded up.
module Rounding {

  // `Math.ceil(a / b)`.
  function CeilDiv(a: nat, b: nat): nat
    requires b >= 1
  {
    if a % b == 0 then a / b else a / b + 1
  }

  lemma CeilDivBounds(a: nat, b: nat)
    requires b >= 1
    ensures (CeilDiv(a, b) - 1) * b < a <= CeilDiv(a, b) * b || (a == 0 && CeilDiv(a, b) == 0)
  {
    assert a == a / b * b + a % b;
  }
}
