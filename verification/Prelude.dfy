/** Small vocabulary shared by the history modules: optional values, integer
    widths and the sample values a history point can hold. */
module Prelude {

  datatype Option<+T> = None | Some(value: T)

  datatype Result<+T, +E> = Ok(value: T) | Err(error: E)

  const U64_MAX: nat := 0xFFFF_FFFF_FFFF_FFFF

  function Min(a: nat, b: nat): nat {
    if a <= b then a else b
  }

  function Max(a: int, b: int): int {
    if a >= b then a else b
  }

  /** `saturating_sub` on an unsigned integer. */
  function Monus(a: nat, b: nat): nat {
    if a <= b then 0 else a - b
  }

  lemma SubsetSize<T>(a: set<T>, b: set<T>)
    requires a <= b
    ensures |a| <= |b|
  {
    assert b == a + (b - a);
  }

  /** A sample value. `Rich` stands for every kind a history series refuses
      (dicts, grids, references and so on). Number bits are opaque. */
  datatype Value =
    | Bool(b: bool)
    | NA
    | Number(bits: nat, unit: Option<string>)
    | Str(s: string)
    | Rich(tag: nat)
}
