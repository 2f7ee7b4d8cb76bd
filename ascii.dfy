/** Bytes as the solvers read them from their input files, and the ASCII codes they test for. */
module Ascii {

  type byte = b: int | 0 <= b < 256

  const SPACE: byte := 32   // ' '
  const STAR: byte := 42    // '*'
  const PLUS: byte := 43    // '+'
  const DOT: byte := 46     // '.'
  const ZERO: byte := 48    // '0'
  const ONE: byte := 49     // '1'
  const NINE: byte := 57    // '9'
  const AT: byte := 64      // '@'

  /** b is one of the bytes '0'..='9'. */
  predicate IsDigit(b: byte) {
    ZERO <= b <= NINE
  }

  /** The value 0..9 of a digit byte. */
  function DigitValue(b: byte): (d: nat)
    requires IsDigit(b)
    ensures d <= 9
  {
    b - ZERO
  }
}
