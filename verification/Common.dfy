/** Wrappers and integer bounds shared by every model in the project. */
module Common {

  datatype Option<+T> = None | Some(value: T)

  datatype Result<+T, +E> = Ok(value: T) | Err(error: E)

  /** Largest value of the source's `u64` counters (and of `usize` on 64-bit targets). */
  const U64_MAX: nat := 0xFFFF_FFFF_FFFF_FFFF

  newtype byte = x: int | 0 <= x < 256

  type u32 = x: int | 0 <= x < 0x1_0000_0000

  /** `u64::checked_add(1)` */
  function CheckedSucc(n: nat): (r: Option<nat>)
  {
    if n < U64_MAX then Some(n + 1) else None
  }

  /** `u64::saturating_add(1)` */
  function SaturatingSucc(n: nat): (r: nat)
  {
    if n < U64_MAX then n + 1 else n
  }
}
