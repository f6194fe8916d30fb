// `common/board_utils.rs`: square arithmetic of the array engine, whose
// square 0 is a8 and square 63 is h1. Positions are `i8`; Rust's `%` on
// them truncates toward zero, and a negative value cast to `usize` wraps.
module MailboxSquares {
  import Decimal

  /** An `i8` value. */
  predicate IsI8(p: int)
  {
    -128 <= p <= 127
  }

  /** Rust's `p % 8`: the remainder takes the sign of `p`. */
  function RustRem8(p: int): (r: int)
    ensures -8 < r < 8
    ensures p >= 0 ==> r == p % 8
    ensures (p - r) % 8 == 0
  {
    if p >= 0 then p % 8 else -((-p) % 8)
  }

  /** `x as usize` on a 64-bit target. */
  function AsUsize(x: int): (u: nat)
    requires -0x1_0000_0000_0000_0000 < x < 0x1_0000_0000_0000_0000
    ensures x >= 0 ==> u == x
  {
    if x >= 0 then x else x + 0x1_0000_0000_0000_0000
  }

  /** `get_position_line_number`. The quotient is exact, so Dafny's division agrees with Rust's. */
  function GetPositionLineNumber(position: int): (line: nat)
    requires IsI8(position)
    ensures 0 <= position < 64 ==> line == 8 - position / 8 && 1 <= line <= 8
  {
    AsUsize(8 - (position - RustRem8(position)) / 8)
  }

  /** `get_position_column_number`: the position minus its rank start. */
  function GetPositionColumnNumber(position: int): (column: nat)
    requires IsI8(position)
    ensures position >= 0 ==> column == position % 8
    ensures column < 8 <==> position >= 0 || RustRem8(position) == 0
  {
    AsUsize(position - (position - RustRem8(position)))
  }

  /** Rank and file name every square of the board, and no two squares alike. */
  lemma LineAndColumnBijective(p: int, q: int)
    requires 0 <= p < 64 && 0 <= q < 64
    ensures GetPositionLineNumber(p) == GetPositionLineNumber(q) && GetPositionColumnNumber(p) == GetPositionColumnNumber(q) ==> p == q
    ensures p == 0 ==> GetPositionLineNumber(p) == 8 && GetPositionColumnNumber(p) == 0
    ensures p == 63 ==> GetPositionLineNumber(p) == 1 && GetPositionColumnNumber(p) == 7
  {
  }

  /**
   * `get_position_notation`: the file letter and the rank number. The letter
   * comes from an 8-entry array, which the column must index.
   */
  function GetPositionNotation(position: int): (s: string)
    requires IsI8(position) && GetPositionColumnNumber(position) < 8
    ensures 0 <= position < 64 ==>
      s == ['a' + (position % 8) as char, '0' + (8 - position / 8) as char]
  {
    var columns := ['a', 'b', 'c', 'd', 'e', 'f', 'g', 'h'];
    [columns[GetPositionColumnNumber(position)]] + Decimal.ToDecimal(GetPositionLineNumber(position))
  }

  /** The 64 squares get 64 different names, each two characters long. */
  lemma NotationInjective(p: int, q: int)
    requires 0 <= p < 64 && 0 <= q < 64
    ensures |GetPositionNotation(p)| == 2
    ensures GetPositionNotation(p) == GetPositionNotation(q) ==> p == q
  {
    if GetPositionNotation(p) == GetPositionNotation(q) {
      assert GetPositionNotation(p)[0] == GetPositionNotation(q)[0];
      assert GetPositionNotation(p)[1] == GetPositionNotation(q)[1];
    }
  }

  /** The corners and a centre square: a8, h1, e4. */
  lemma NotationExamples()
    ensures GetPositionNotation(0) == "a8"
    ensures GetPositionNotation(63) == "h1"
    ensures GetPositionNotation(36) == "e4"
  {
  }

  /** `get_move_notation`: the names of the from and to squares, four characters in all. */
  function GetMoveNotation(from: int, to: int): (s: string)
    requires 0 <= from < 64 && 0 <= to < 64
    ensures |s| == 4 && s[..2] == GetPositionNotation(from) && s[2..] == GetPositionNotation(to)
  {
    GetPositionNotation(from) + GetPositionNotation(to)
  }
}
