/** Fixed-width arithmetic of the scoring engine: 256-bit words wrap around, division truncates. */
module U256 {

  const TWO_256: nat := 0x1_0000_0000_0000_0000_0000_0000_0000_0000_0000_0000_0000_0000_0000_0000_0000_0000
  const TWO_64: nat := 0x1_0000_0000_0000_0000

  type u256 = x: nat | x < TWO_256
  type u64 = x: nat | x < TWO_64

  function Add(a: u256, b: u256): u256 {
    (a + b) % TWO_256
  }

  function Sub(a: u256, b: u256): u256 {
    (a - b) % TWO_256
  }

  function Mul(a: u256, b: u256): u256 {
    Wrap(a * b)
  }

  function Wrap(n: nat): u256 {
    n % TWO_256
  }

  /** Division by zero yields zero, as in the word library. */
  function Div(a: u256, d: u256): u256 {
    if d == 0 then 0 else
      assert a / d <= a by { QuotientBounded(a, d, a / d); }
      a / d
  }

  lemma QuotientBounded(a: nat, d: nat, q: nat)
    requires d > 0 && d * q <= a
    ensures q <= a
  {
    ProductGrows(q, d);
  }

  lemma ProductGrows(q: nat, d: nat)
    requires d > 0
    ensures q <= d * q
  {
    assert d * q == (d - 1) * q + q;
  }
}
