/** Bytes, and the widths of values in a heap dump (phat.c:565-622, 908-919). */
module Formats {

  type Byte = x: int | 0 <= x < 256

  const TWO16 := 0x1_0000
  const TWO32 := 0x1_0000_0000
  const TWO64 := 0x1_0000_0000_0000_0000

  /** The width of a value, or 0 for an unknown signature. */
  function Width(sig: char, idsz: nat): nat {
    match sig
    case 'L' => idsz
    case '[' => idsz
    case 'Z' => 1
    case 'B' => 1
    case 'S' => 2
    case 'C' => 2
    case 'F' => 4
    case 'I' => 4
    case 'D' => 8
    case 'J' => 8
    case _ => 0
  }

  /** The size of `n` values of width `w`, one case for every width there is. */
  function Span(w: nat, n: nat): nat {
    match w
    case 0 => 0
    case 1 => n
    case 2 => 2 * n
    case 4 => 4 * n
    case 8 => 8 * n
    case _ => w * n
  }

  lemma SpanIs(w: nat, n: nat)
    ensures Span(w, n) == w * n
  {
  }
}
