/** JavaScript's bitwise OR, which the driver uses to assemble a 16-bit word
    from two register bytes, modelled on non-negative integers. */
module Bits {

  /** 2 to the power k. */
  function Pow2(k: nat): nat
  {
    if k == 0 then 1 else 2 * Pow2(k - 1)
  }

  /** JavaScript's `a | b` for non-negative operands below 2^31: the bitwise
      OR of two naturals, one binary digit at a time from the least
      significant end. It is never smaller than either operand and never
      larger than their sum. */
  function Or(a: nat, b: nat): (r: nat)
    ensures a <= r && b <= r
    ensures r <= a + b
    decreases a
  {
    if a == 0 then b
    else if b == 0 then a
    else 2 * Or(a / 2, b / 2) + (if a % 2 == 1 || b % 2 == 1 then 1 else 0)
  }

  /** When every bit of `l` lies below bit k, OR-ing it into `x` shifted left
      by k bits cannot overlap, so the OR is a plain sum. */
  lemma {:induction false} OrOfShiftedIsSum(x: nat, l: nat, k: nat)
    requires l < Pow2(k)
    ensures Or(x * Pow2(k), l) == x * Pow2(k) + l
  {
    var a := x * Pow2(k);
    if x == 0 || l == 0 {
      assert a == 0 || l == 0;
    } else {
      assert k > 0;
      var p := Pow2(k - 1);
      assert Pow2(k) == 2 * p;
      assert a == 2 * (x * p);
      assert a >= 1;
      assert a / 2 == x * p && a % 2 == 0;
      OrOfShiftedIsSum(x, l / 2, k - 1);
    }
  }
}
