/** Result types and integer widths shared by the models. */
module Common {
  datatype Option<+T> = None | Some(value: T)

  const I64_MAX: int := 0x7FFF_FFFF_FFFF_FFFF
  const I64_MIN: int := -0x8000_0000_0000_0000
  const U64_MAX: nat := 0xFFFF_FFFF_FFFF_FFFF
  const U32_MAX: nat := 0xFFFF_FFFF

  function Min(a: int, b: int): int { if a <= b then a else b }

  function Max(a: int, b: int): int { if a <= b then b else a }

  function Clamp(value: int, low: int, high: int): int
    requires low <= high
  {
    if value < low then low else if value > high then high else value
  }

  /** Rust's `saturating_add` on an unsigned type with the given largest value. */
  function SaturatingAdd(a: nat, b: nat, largest: nat): nat
    requires a <= largest
  {
    if a + b <= largest then a + b else largest
  }

  function SaturatingSub(a: nat, b: nat): nat { if a < b then 0 else a - b }

  /** Integer division truncating toward zero, as Rust's `/` does. */
  function TruncDiv(a: int, b: int): int
    requires b > 0
  {
    if a >= 0 then a / b else -((-a) / b)
  }

  /** Everything in `parts`, one after the other. */
  function Flatten<T>(parts: seq<seq<T>>): seq<T> {
    if parts == [] then [] else parts[0] + Flatten(parts[1..])
  }

  lemma FlattenSnoc<T>(parts: seq<seq<T>>, last: seq<T>)
    ensures Flatten(parts + [last]) == Flatten(parts) + last
  {
    if parts == [] {
      assert [last][1..] == [];
    } else {
      assert (parts + [last])[1..] == parts[1..] + [last];
      FlattenSnoc(parts[1..], last);
    }
  }
}
