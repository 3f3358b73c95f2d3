/** The optional value used across the model, and the machine widths the source relies on. */
module Wrappers {

  datatype Option<+T> = None | Some(value: T)

  /** Issue numbers are `u64` in the source. */
  type u64 = n: nat | n < 0x1_0000_0000_0000_0000

  type byte = n: nat | n < 256

  function Pow2(n: nat): nat { if n == 0 then 1 else 2 * Pow2(n - 1) }

  function Min(a: nat, b: nat): nat { if a <= b then a else b }

  function Max(a: nat, b: nat): nat { if a <= b then b else a }

  /** Subtraction that stops at zero, as `saturating_sub` does. */
  function SaturatingSub(a: nat, b: nat): nat { if a <= b then 0 else a - b }

  /** `n` copies of `unit`, added up. */
  function Times(unit: nat, n: nat): nat { if n == 0 then 0 else Times(unit, n - 1) + unit }

  lemma {:induction false} TimesMonotone(unit: nat, a: nat, b: nat)
    requires a <= b
    ensures Times(unit, a) <= Times(unit, b)
  {
    if a < b { TimesMonotone(unit, a, b - 1); }
  }

  lemma {:induction false} TimesIsProduct(unit: nat, n: nat)
    ensures Times(unit, n) == n * unit
  {
    if n > 0 {
      TimesIsProduct(unit, n - 1);
      assert n * unit == (n - 1) * unit + unit;
    }
  }
}
