/**
  Vocabulary shared by every component of the model: optional values and
  results, the fixed-width integers of the original code, a marker for a
  Rust panic or an uncaught exception, and the two-branch race that the
  firmware run loops use to wait on two event sources at once.
 */
module Prelude {

  datatype Option<T> = None | Some(value: T) {
    /** `unwrap_or`: the carried value, or `default` when there is none. */
    function GetOr(default: T): T {
      match this
      case Some(v) => v
      case None => default
    }
  }

  datatype Result<T, E> = Ok(value: T) | Err(error: E)

  /** The operation does not return: a Rust panic (an `unwrap` on `None` or
      `Err`) or a Java/TypeScript exception that nobody catches. */
  datatype Panic = Panic(site: string)

  type Byte = x: int | 0 <= x < 0x100
  type I8 = x: int | -0x80 <= x < 0x80
  type U16 = x: int | 0 <= x < 0x1_0000
  type U24 = x: int | 0 <= x < 0x100_0000
  type U32 = x: int | 0 <= x < 0x1_0000_0000
  type U64 = x: int | 0 <= x < 0x1_0000_0000_0000_0000

  /** An i8 result computed with overflow checks off: two's-complement wrap. */
  function WrapI8(x: int): (r: I8)
    ensures (r - x) % 0x100 == 0
    ensures -0x80 <= x < 0x80 ==> r == x
  {
    (x + 0x80) % 0x100 - 0x80
  }

  /** `x as u16`: keeps the low sixteen bits. */
  function AsU16(x: nat): (r: U16)
    ensures (x - r) % 0x1_0000 == 0
    ensures x < 0x1_0000 ==> r == x
  {
    x % 0x1_0000
  }

  /** A u32 result computed with overflow checks off: wraps modulo 2^32. */
  function WrapU32(x: nat): (r: U32)
    ensures (x - r) % 0x1_0000_0000 == 0
    ensures x < 0x1_0000_0000 ==> r == x
  {
    x % 0x1_0000_0000
  }

  /** Outcome of a race between two futures. */
  datatype Either<A, B> = First(a: A) | Second(b: B)

  /** embassy's `select(a, b)` as seen at one wake-up: `first` and `second`
      say which futures are ready. The first-listed future is polled first,
      so it wins whenever both are ready; `None` means neither is ready yet
      and the race keeps waiting. */
  function Select<A, B>(first: Option<A>, second: Option<B>): Option<Either<A, B>>
  {
    if first.Some? then Some(First(first.value))
    else if second.Some? then Some(Second(second.value))
    else None
  }
}
