/** The primitive types the two contracts take from the ink! environment. */
module InkEnv {

  /** An account identity: 32 opaque bytes, compared only for equality. */
  type AccountId = s: seq<bv8> | |s| == 32 witness seq(32, _ => 0)

  /** Exclusive upper bound of the unsigned 128-bit integers. */
  const U128_LIMIT: nat := 0x1_0000_0000_0000_0000_0000_0000_0000_0000

  /** Rust's `u128`. */
  type U128 = x: nat | x < U128_LIMIT

  /** Rust's `u32`. */
  type U32 = x: nat | x < 0x1_0000_0000

  datatype Option<+T> = None | Some(value: T) {
    /** `Option::unwrap_or`. */
    function UnwrapOr(default: T): T {
      match this
      case Some(v) => v
      case None => default
    }
  }
}
