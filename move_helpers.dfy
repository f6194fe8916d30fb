// `game/move_generator_helper.rs`: square arithmetic the array engine's move
// generator leans on (neighbours, knight jumps, line distance, diagonal
// offsets), the first-move test for pawns, and the two scans that decide
// whether a square is attacked or a king is in check, plus the scan of a
// straight path. Squares follow the array convention: 0 is a8, 63 is h1.
module MoveHelpers {
  import opened PieceCodes
  import opened PieceMoves
  import MS = MailboxState
  import MailboxSquares

  const INVALID_BOARD_POSITION: int := -1

  /** `common::piece::Piece`: a piece on the board with the moves generated for it. */
  datatype Piece = Piece(moves: seq<PieceMove>, position: int, value: nat, white: bool)

  /** The board row of an on-board square, 0 for the a8 row. */
  function Row(p: int): int { p / 8 }

  /** The board column of an on-board square, 0 for the a file. */
  function Column(p: int): int { p % 8 }

  function Abs(x: int): (r: nat)
    ensures r == x || r == -x
  {
    if x < 0 then -x else x
  }

  // ---------------------------------------------------------------- pawns

  /** `is_pawn_first_move`: a White pawn on a2..h2 (48..55) or a Black pawn on a7..h7 (8..15). */
  predicate IsPawnFirstMove(whitePiece: bool, piecePosition: int)
  {
    (whitePiece && 48 <= piecePosition <= 55) || (!whitePiece && 8 <= piecePosition <= 15)
  }

  /** A pawn's first move is from its own second rank: rank 2 for White, rank 7 for Black. */
  lemma PawnFirstMoveIsHomeRank(whitePiece: bool, piecePosition: int)
    requires 0 <= piecePosition < 64
    ensures IsPawnFirstMove(whitePiece, piecePosition)
      <==> MailboxSquares.GetPositionLineNumber(piecePosition) == (if whitePiece then 2 else 7)
  {
  }

  // ---------------------------------------------------------------- attacks

  /** The `any` of the source, one move after the other: some move ends on `position`. */
  predicate AnyTargets(moves: seq<PieceMove>, position: int)
    decreases |moves|
  {
    |moves| > 0 && (moves[0].toPosition == position || AnyTargets(moves[1..], position))
  }

  /** The scan finds a move to `position` exactly when one of the moves ends there. */
  lemma {:induction false} AnyTargetsFindsMove(moves: seq<PieceMove>, position: int)
    ensures AnyTargets(moves, position) <==> exists i :: 0 <= i < |moves| && moves[i].toPosition == position
    decreases |moves|
  {
    if |moves| > 0 {
      AnyTargetsFindsMove(moves[1..], position);
      assert forall i :: 0 < i < |moves| ==> moves[i] == moves[1..][i - 1];
      if AnyTargets(moves[1..], position) {
        var j :| 0 <= j < |moves[1..]| && moves[1..][j].toPosition == position;
        assert moves[j + 1].toPosition == position;
      }
    }
  }

  /** `position_is_not_attacked`: no opponent move ends on the position. */
  predicate PositionIsNotAttacked(position: int, opponentMoves: seq<PieceMove>)
  {
    !AnyTargets(opponentMoves, position)
  }

  /** A position is not attacked exactly when every opponent move ends elsewhere. */
  lemma NotAttackedIffNoMoveThere(position: int, opponentMoves: seq<PieceMove>)
    ensures PositionIsNotAttacked(position, opponentMoves)
      <==> forall i :: 0 <= i < |opponentMoves| ==> opponentMoves[i].toPosition != position
  {
    AnyTargetsFindsMove(opponentMoves, position);
  }

  /** A piece that gives check: not an empty square, of the other colour, with a move to the king. */
  predicate GivesCheck(piece: Piece, kingPosition: int, whiteMove: bool)
  {
    piece.value != EMPTY_PIECE && piece.white != whiteMove
    && exists k :: 0 <= k < |piece.moves| && piece.moves[k].toPosition == kingPosition
  }

  /**
   * `is_king_in_check`: the pieces are scanned in order, empty squares
   * skipped; the first piece of the other colour with a move to the king's
   * square ends the scan.
   */
  method IsKingInCheck(pieces: seq<Piece>, kingPosition: int, whiteMove: bool) returns (inCheck: bool)
    ensures inCheck <==> exists i :: 0 <= i < |pieces| && GivesCheck(pieces[i], kingPosition, whiteMove)
  {
    for i := 0 to |pieces|
      invariant forall j :: 0 <= j < i ==> !GivesCheck(pieces[j], kingPosition, whiteMove)
    {
      var boardPiece := pieces[i];
      if boardPiece.value == EMPTY_PIECE {
        continue;
      }
      AnyTargetsFindsMove(boardPiece.moves, kingPosition);
      if boardPiece.white != whiteMove && AnyTargets(boardPiece.moves, kingPosition) {
        return true;
      }
    }
    return false;
  }

  // ---------------------------------------------------------------- paths

  /** The `count` squares `start`, `start + step`, ... that a path scan visits. */
  function Path(start: int, step: int, count: nat): (r: seq<int>)
    ensures |r| == count
    ensures count > 0 ==> r[0] == start
    decreases count
  {
    if count == 0 then [] else [start] + Path(start + step, step, count - 1)
  }

  /** A path of `count` steps stops short of its end square: the end is never visited. */
  lemma {:induction false} PathStopsBeforeEnd(start: int, step: int, count: nat)
    requires step > 0
    ensures forall q :: q in Path(start, step, count) ==> start <= q < start + count * step
    decreases count
  {
    if count > 0 {
      PathStopsBeforeEnd(start + step, step, count - 1);
      assert start + step + (count - 1) * step == start + count * step;
    }
  }

  /** The scan from `start` reaches `end` in whole steps of `step`. */
  predicate Reaches(start: int, end: int, step: int)
  {
    step != 0 && (end - start) % step == 0 && (end - start) / step >= 0
  }

  /** The number of steps from `start` to `end`. */
  function Steps(start: int, end: int, step: int): (n: nat)
    requires Reaches(start, end, step)
    ensures start + n * step == end
  {
    (end - start) / step
  }

  /**
   * `is_path_clear`: every square from `start` up to, but not including,
   * `end` is empty. The source loops until it meets `end`, so the end must be
   * reachable in whole steps.
   */
  method IsPathClear(s: MS.State, start: int, end: int, step: int) returns (clear: bool)
    requires |s.squares| == 64 && Reaches(start, end, step)
    ensures clear <==> forall q :: q in Path(start, step, Steps(start, end, step)) ==> MS.GetPiece(s, q) == EMPTY_PIECE
  {
    ghost var visited: seq<int> := [];
    ghost var remaining: nat := Steps(start, end, step);
    var i := start;
    while i != end
      invariant end == i + remaining * step
      invariant Path(start, step, Steps(start, end, step)) == visited + Path(i, step, remaining)
      invariant forall q :: q in visited ==> MS.GetPiece(s, q) == EMPTY_PIECE
      decreases remaining
    {
      NoStepsLeft(i, step, remaining);
      if MS.GetPiece(s, i) != EMPTY_PIECE {
        assert i in Path(start, step, Steps(start, end, step));
        return false;
      }
      OneStepFewer(i, step, remaining);
      visited := visited + [i];
      i := i + step;
      remaining := remaining - 1;
    }
    NoStepsLeft(i, step, remaining);
    return true;
  }

  /** No steps are left exactly when the scan stands on the end square. */
  lemma NoStepsLeft(i: int, step: int, remaining: nat)
    requires step != 0
    ensures i + remaining * step == i <==> remaining == 0
  {
    if remaining != 0 {
      assert remaining * step != 0;
    }
  }

  /** One step taken: the rest of the path starts one step further on. */
  lemma OneStepFewer(i: int, step: int, remaining: nat)
    requires remaining > 0
    ensures i + remaining * step == i + step + (remaining - 1) * step
    ensures Path(i, step, remaining) == [i] + Path(i + step, step, remaining - 1)
  {
  }

  // ---------------------------------------------------------------- neighbours

  /**
   * `get_adjacent_position`: `newPosition` unless it is off the board or the
   * step from `currentPosition` would wrap from the a file to the h file or
   * back. Positions are `i8`, and the sums the source forms must not
   * overflow.
   */
  function GetAdjacentPosition(currentPosition: int, newPosition: int): (r: int)
    requires -119 <= currentPosition <= 118 && IsI8(newPosition)
    ensures r == newPosition || r == INVALID_BOARD_POSITION
  {
    if !(0 <= newPosition <= 63) then INVALID_BOARD_POSITION
    else if MailboxSquares.RustRem8(currentPosition) == 0
      && (newPosition == currentPosition - 1 || newPosition == currentPosition - 9 || newPosition == currentPosition + 7)
    then INVALID_BOARD_POSITION
    else if MailboxSquares.RustRem8(currentPosition + 1) == 0
      && (newPosition == currentPosition + 1 || newPosition == currentPosition - 7 || newPosition == currentPosition + 9)
    then INVALID_BOARD_POSITION
    else newPosition
  }

  /** The eight offsets of a king step in the array layout. */
  predicate KingOffset(d: int)
  {
    d == -9 || d == -8 || d == -7 || d == -1 || d == 1 || d == 7 || d == 8 || d == 9
  }

  /**
   * For a square on the board and a king-step offset, the position is kept
   * exactly when the target is on the board and at most one column away:
   * the target is a true neighbour.
   */
  lemma AdjacentIsNeighbour(currentPosition: int, d: int)
    requires 0 <= currentPosition < 64 && KingOffset(d)
    ensures GetAdjacentPosition(currentPosition, currentPosition + d) != INVALID_BOARD_POSITION
      <==> 0 <= currentPosition + d < 64
           && Abs(Column(currentPosition + d) - Column(currentPosition)) <= 1
           && Abs(Row(currentPosition + d) - Row(currentPosition)) <= 1
  {
  }

  /** `get_line_distance_between_positions`: how many rows apart the two rank starts are. */
  function GetLineDistanceBetweenPositions(position1: int, position2: int): (r: int)
    requires IsI8(position1) && IsI8(position2)
    requires IsI8((position1 - MailboxSquares.RustRem8(position1)) - (position2 - MailboxSquares.RustRem8(position2)))
  {
    var lineStart1 := position1 - MailboxSquares.RustRem8(position1);
    var lineStart2 := position2 - MailboxSquares.RustRem8(position2);
    if lineStart1 > lineStart2 then (lineStart1 - lineStart2) / 8 else (lineStart2 - lineStart1) / 8
  }

  /** On the board the distance is the difference of the rows, whichever square comes first. */
  lemma LineDistanceIsRowDifference(position1: int, position2: int)
    requires 0 <= position1 < 64 && 0 <= position2 < 64
    ensures GetLineDistanceBetweenPositions(position1, position2) == Abs(Row(position1) - Row(position2))
    ensures GetLineDistanceBetweenPositions(position1, position2) == GetLineDistanceBetweenPositions(position2, position1)
  {
  }

  /** `get_knight_move`: the new position when it lies `linesApart` rows away, else invalid. */
  function GetKnightMove(linesApart: int, newPosition: int, currentPosition: int): (r: int)
    requires IsI8(newPosition) && IsI8(currentPosition)
    requires IsI8((currentPosition - MailboxSquares.RustRem8(currentPosition)) - (newPosition - MailboxSquares.RustRem8(newPosition)))
    ensures r == newPosition <==> GetLineDistanceBetweenPositions(currentPosition, newPosition) == linesApart || newPosition == INVALID_BOARD_POSITION
    ensures r != newPosition ==> r == INVALID_BOARD_POSITION
  {
    if GetLineDistanceBetweenPositions(currentPosition, newPosition) == linesApart then newPosition
    else INVALID_BOARD_POSITION
  }

  /** The eight knight offsets of the array layout, with the rows each one crosses. */
  function KnightLines(d: int): (lines: int)
  {
    if d == 6 || d == -6 || d == 10 || d == -10 then 1
    else if d == 15 || d == -15 || d == 17 || d == -17 then 2
    else 0
  }

  /**
   * Checking the row distance is what keeps a knight offset from wrapping
   * round the board: from an on-board square, an offset paired with its own
   * row count gives an on-board position exactly when that position is a
   * true knight jump away.
   */
  lemma KnightMoveIsJump(currentPosition: int, d: int)
    requires 0 <= currentPosition < 64 && KnightLines(d) != 0 && 0 <= currentPosition + d < 64
    ensures GetKnightMove(KnightLines(d), currentPosition + d, currentPosition) == currentPosition + d
      <==> (var dr, dc := Abs(Row(currentPosition + d) - Row(currentPosition)), Abs(Column(currentPosition + d) - Column(currentPosition));
            (dr == 1 && dc == 2) || (dr == 2 && dc == 1))
  {
    LineDistanceIsRowDifference(currentPosition, currentPosition + d);
  }

  // ---------------------------------------------------------------- offsets

  /** `SquareOffset`: the eight one-square steps of the array layout. */
  datatype SquareOffset = TopLeft | LineAbove | TopRight | Left | Right | BottomLeft | LineBelow | BottomRight

  /** `is_diagonal_offset`. */
  predicate IsDiagonalOffset(offset: SquareOffset)
  {
    offset == TopLeft || offset == TopRight || offset == BottomLeft || offset == BottomRight
  }
}
