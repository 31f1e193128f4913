/**
 * Shared vocabulary: Rust's `Option` and `Result`, an `anyhow`-style error
 * carrying its display text, and the fixed-width integers the shim moves
 * between (`i32` for exit codes and pids, `u32` for the published status and
 * for signal numbers), with Rust's `as` casts between them written out.
 */
module Base {

  datatype Option<+T> = None | Some(value: T)

  datatype Result<+T, +E> = Ok(value: T) | Err(error: E)

  /** An error as far as this core looks at it: its display text. */
  datatype Error = Error(message: string)

  const TWO_32: int := 0x1_0000_0000
  const TWO_31: int := 0x8000_0000

  type i32 = x: int | -TWO_31 <= x < TWO_31
  type u32 = x: int | 0 <= x < TWO_32

  /** Rust's `x as u32` for an `i32`: the same 32 bits read as unsigned. */
  function AsU32(x: i32): (r: u32)
    ensures r % TWO_32 == x % TWO_32
  {
    x % TWO_32
  }

  /** Rust's `x as i32` for a `u32`: the same 32 bits read as two's complement. */
  function AsI32(x: u32): (r: i32)
    ensures r % TWO_32 == x % TWO_32
  {
    if x < TWO_31 then x else x - TWO_32
  }

  /** The two casts are inverse bijections: no bit pattern is lost either way. */
  lemma CastsRoundTrip(x: i32, y: u32)
    ensures AsI32(AsU32(x)) == x
    ensures AsU32(AsI32(y)) == y
    ensures 0 <= x ==> AsU32(x) == x
    ensures y < TWO_31 ==> AsI32(y) == y
  {
  }
}
