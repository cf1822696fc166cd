/** Small shared vocabulary: optional values, results, panics and the integer
    conversions that the Rust code performs with `as`. */
module Common {

  datatype Option<T> = None | Some(value: T)

  datatype Result<T, E> = Ok(value: T) | Err(error: E)

  /** A computation that either returns or panics (`unwrap`/`expect` on a
      failure, an out-of-range slice). A panic ends the current task; nothing
      after it runs. */
  datatype Fallible<T> = Returns(value: T) | Panics

  newtype byte = x: int | 0 <= x < 256

  /** `fold(0.0, |acc, x| acc + f(x))` over the elements, first to last. */
  function RealSum<T>(s: seq<T>, f: T -> real): real
  {
    if s == [] then 0.0 else RealSum(s[..|s| - 1], f) + f(s[|s| - 1])
  }

  /** The fold of two stretches is the sum of their folds. */
  lemma {:induction false} RealSumAppend<T>(a: seq<T>, b: seq<T>, f: T -> real)
    ensures RealSum(a + b, f) == RealSum(a, f) + RealSum(b, f)
  {
    if b == [] {
      assert a + b == a;
    } else {
      assert (a + b)[..|a + b| - 1] == a + b[..|b| - 1];
      RealSumAppend(a, b[..|b| - 1], f);
    }
  }

  const TWO_32: int := 0x1_0000_0000
  const TWO_31: int := 0x8000_0000

  /** Rust's `x as i32` on a non-negative integer: keep the low 32 bits and
      read them as a two's-complement number. */
  function AsI32(x: nat): (r: int)
    ensures -TWO_31 <= r < TWO_31
    ensures (x - r) % TWO_32 == 0
    ensures x < TWO_31 ==> r == x
  {
    var low := x % TWO_32;
    if low < TWO_31 then low else low - TWO_32
  }

  /** Rust's `x as u32` on a non-negative integer: keep the low 32 bits. */
  function AsU32(x: nat): (r: nat)
    ensures r < TWO_32
    ensures (x - r) % TWO_32 == 0
    ensures x < TWO_32 ==> r == x
  {
    x % TWO_32
  }

  const TWO_64: int := 0x1_0000_0000_0000_0000

  /** Rust's `x as usize` on an `i32` (64-bit targets): a negative value
      wraps around to the top of the unsigned range. */
  function AsUsize(x: int): (r: nat)
    requires -TWO_31 <= x < TWO_31
    ensures r < TWO_64
    ensures (r - x) % TWO_64 == 0
    ensures x >= 0 ==> r == x
  {
    if x >= 0 then x else x + TWO_64
  }

  /** Casting an `i32` to `usize` and back gives the original value. */
  lemma AsUsizeAsI32(x: int)
    requires -TWO_31 <= x < TWO_31
    ensures AsI32(AsUsize(x)) == x
  {
    if x < 0 {
      assert AsUsize(x) % TWO_32 == x + TWO_32;
    }
  }
}
