/** Values shared by the runtime and the cluster layer. */
module Values {

  datatype Option<+T> = None | Some(value: T)

  /** The shapes of `rmpv::Value` that the modelled code inspects or builds. */
  datatype Value =
    | Nil
    | Integer(n: nat)
    | Text(s: string)
    | Binary(bytes: seq<nat>)
    | Table(pairs: seq<(Value, Value)>)

  const U64_MAX: nat := 0xFFFF_FFFF_FFFF_FFFF

  function Min(a: nat, b: nat): nat {
    if a <= b then a else b
  }

  function Max(a: nat, b: nat): nat {
    if a >= b then a else b
  }

  /** Rust's `saturating_sub` on unsigned integers. */
  function SaturatingSub(a: nat, b: nat): nat {
    if a >= b then a - b else 0
  }

  /** Rust's `u64::saturating_add`. */
  function SaturatingAdd(a: nat, b: nat): nat {
    Min(a + b, U64_MAX)
  }
}
