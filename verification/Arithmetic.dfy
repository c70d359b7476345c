/** Powers of two and 64-bit wrap-around. */
module Arithmetic {

  function Pow2(n: nat): (r: nat)
    ensures r >= 1
  {
    if n == 0 then 1 else 2 * Pow2(n - 1)
  }

  lemma {:induction false} Pow2Add(a: nat, b: nat)
    ensures Pow2(a + b) == Pow2(a) * Pow2(b)
  {
    if a > 0 {
      Pow2Add(a - 1, b);
      assert Pow2(a) * Pow2(b) == 2 * Pow2(a - 1) * Pow2(b);
    }
  }

  /** What a 64-bit word keeps of `x`. */
  function Wrap(x: int): nat {
    x % 0x1_0000_0000_0000_0000
  }

  lemma WrapAdd(a: int, b: int)
    ensures Wrap(Wrap(a) + b) == Wrap(a + b)
  {
    assert a + b == a / 0x1_0000_0000_0000_0000 * 0x1_0000_0000_0000_0000 + (Wrap(a) + b);
  }
}
