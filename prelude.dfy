/**
 * Machine words, error codes and the kernel's `Result` type, shared by the
 * syscall dispatch core and the `rt_sigprocmask` handler.
 */
module Prelude {

  const WORD_MODULUS: int := 0x1_0000_0000_0000_0000
  const HALF_WORD: int := 0x8000_0000_0000_0000

  /** Rust's `u64` and `usize` on x86-64. */
  type u64 = x: int | 0 <= x < WORD_MODULUS

  /** Rust's `u32`. */
  type u32 = x: int | 0 <= x < 0x1_0000_0000

  /** Rust's `isize` on x86-64. */
  type isize = x: int | -HALF_WORD <= x < HALF_WORD

  /** A process-virtual address (`Vaddr`, an alias of `usize`); 0 means "not supplied". */
  type Vaddr = u64

  /**
   * An error code (`Errno`): the kernel's error enum is `#[repr(i32)]` with
   * positive discriminants, so every code is a positive `i32`.
   */
  type Errno = e: int | 0 < e < 0x8000_0000 witness 1

  /** Linux x86-64 error numbers used by this model. */
  const EFAULT: Errno := 14
  const EINVAL: Errno := 22
  const ENOSYS: Errno := 38

  /** Largest code the Linux return-value convention reserves for errors. */
  const MAX_ERRNO: int := 4095

  datatype Option<+T> = None | Some(value: T)

  /** The kernel's `Result<T>`: a value or an `Error` carrying its errno. */
  datatype Result<+T> = Ok(value: T) | Err(error: Errno)

  /**
   * `x as usize` / `x as u64` for a signed value: the two's-complement bit
   * pattern of `x`, read as an unsigned word.
   */
  function WordOf(x: int): (w: u64)
    requires -HALF_WORD <= x < HALF_WORD
    ensures 0 <= x ==> w == x
    ensures x < 0 ==> w == x + WORD_MODULUS
    ensures (w < HALF_WORD) == (0 <= x)
  {
    x % WORD_MODULUS
  }

  /** `w as isize`: the signed reading of a word. */
  function SignedOf(w: u64): (x: isize)
    ensures (0 <= x) == (w < HALF_WORD)
    ensures WordOf(x) == w
  {
    if w < HALF_WORD then w else w - WORD_MODULUS
  }

  /** Reading back the stored word gives the signed value that was stored. */
  lemma SignedOfWordOf(x: isize)
    ensures SignedOf(WordOf(x)) == x
  {
  }

  /** Every word is the image of exactly one signed value. */
  lemma WordOfSignedOf(w: u64)
    ensures WordOf(SignedOf(w)) == w
  {
  }

  /** `w as u32`: keeps the low 32 bits of a word. */
  function Narrow32(w: u64): (v: u32)
    ensures w < 0x1_0000_0000 ==> v == w
    ensures (w - v) % 0x1_0000_0000 == 0
  {
    w % 0x1_0000_0000
  }
}
