/** Types and helpers shared by every part of the CHIP-8 model. */
module Common {

  /** One element of a Python `bytearray`. */
  type Byte = b: int | 0 <= b < 256

  /** A 4-bit field of an instruction, a register number or a key code. */
  type Nibble = n: int | 0 <= n < 16

  datatype Option<T> = None | Some(value: T)

  /** The Python exception classes the interpreter raises. */
  datatype Exception = ValueError | IndexError | OverflowError | SyntaxError

  /** The value an operation returns, or the exception it raises. */
  datatype Result<T> = Ok(value: T) | Err(error: Exception)

  /** Whether an operation without a value returned normally or raised. */
  datatype Outcome = Pass | Fail(error: Exception)

  function Min(a: int, b: int): int { if a < b then a else b }

  /** Where Python places the bound `i` of a slice of a sequence of length `n`. */
  function SliceBound(i: int, n: nat): (r: nat)
    ensures r <= n
    ensures 0 <= i <= n ==> r == i
    ensures n < i ==> r == n
    ensures i < 0 && 0 <= i + n ==> r == i + n
    ensures i + n < 0 ==> r == 0
  {
    if i < 0 then (if i + n < 0 then 0 else i + n) else if i > n then n else i
  }

  /** Python's `s[lo:hi]`: bounds may be negative or past the end; an empty
      range gives an empty sequence rather than an error. */
  function Slice<T>(s: seq<T>, lo: int, hi: int): (r: seq<T>)
    ensures var a, b := SliceBound(lo, |s|), SliceBound(hi, |s|);
            |r| == (if a <= b then b - a else 0) &&
            forall k :: 0 <= k < |r| ==> r[k] == s[a + k]
  {
    var a, b := SliceBound(lo, |s|), SliceBound(hi, |s|);
    if a <= b then s[a..b] else []
  }

  /** Python's `int.from_bytes(bs)` (big-endian, unsigned); `b''` gives 0. */
  function IntFromBytes(bs: seq<Byte>): (r: nat)
    ensures |bs| == 0 ==> r == 0
    ensures |bs| == 1 ==> r == bs[0]
  {
    if |bs| == 0 then 0 else IntFromBytes(bs[..|bs| - 1]) * 256 + bs[|bs| - 1]
  }
}
