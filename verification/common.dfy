// Small shared vocabulary: options, machine-width subtraction and maxima.
module Common {
  datatype Option<+T> = None | Some(value: T)

  const TWO32: nat := 0x1_0000_0000
  const TWO64: nat := 0x1_0000_0000_0000_0000

  // An `unsigned` of the source: every timing parameter is one.
  type u32 = x: nat | x < TWO32 witness 0

  function Max(a: nat, b: nat): nat { if a < b then b else a }

  function Min(a: nat, b: nat): nat { if a < b then a else b }

  // `a - b` on 64-bit unsigned operands: it wraps when b exceeds a.
  function Sub64(a: nat, b: u32): nat { if b <= a then a - b else a + TWO64 - b }

  // `a - b` on 32-bit unsigned operands: it wraps when b exceeds a.
  function Sub32(a: u32, b: u32): u32 { if b <= a then a - b else a + TWO32 - b }

  // Multiples of n are n apart.
  lemma Multiples(a: nat, b: nat, n: nat)
    requires a < b
    ensures a * n + n <= b * n
  {
    assert b * n == a * n + (b - a) * n;
    assert (b - a) * n == n + (b - a - 1) * n;
  }
}
