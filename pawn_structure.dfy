// The pawn-structure predicates of `ai/ai_utils.rs` that the evaluation
// counts: isolated, blocked and doubled pawns. Squares follow the array
// convention (0 is a8); White pawns move towards row 0, Black pawns towards
// row 7.
module PawnStructure {
  import opened PieceCodes
  import opened BitboardEnums
  import MS = MailboxState
  import MailboxSquares
  import MH = MoveHelpers

  /** A pawn of the given colour. */
  predicate FriendlyPawn(piece: nat, whitePiece: bool)
  {
    GetPieceType(piece) == Pawn && IsWhitePiece(piece) == whitePiece
  }

  /** The row step a pawn of the colour moves by. */
  function Forward(whitePiece: bool): (offset: int)
    ensures offset == 8 || offset == -8
  {
    if whitePiece then -8 else 8
  }

  // ---------------------------------------------------------------- isolated

  /** The eight probes of `is_isolated_pawn`, in the order the source lists them. */
  const PROBES: seq<int> := [-1, 1, -9, -8, -7, 7, 8, 9]

  /** Probe `k` finds a pawn of the colour on a square `get_adjacent_position` accepts. */
  predicate ProbeFindsPawn(s: MS.State, position: int, whitePiece: bool, k: nat)
    requires |s.squares| == 64 && -119 <= position <= 118 && k < 8
  {
    var adjacent := MH.GetAdjacentPosition(position, position + PROBES[k]);
    MS.IsValidPosition(adjacent) && MS.GetPiece(s, adjacent) != EMPTY_PIECE && FriendlyPawn(MS.GetPiece(s, adjacent), whitePiece)
  }

  /** The probes from `k` on find no pawn of the colour. */
  predicate NoPawnFrom(s: MS.State, position: int, whitePiece: bool, k: nat)
    requires |s.squares| == 64 && -119 <= position <= 118 && k <= 8
    decreases 8 - k
  {
    k == 8 || (!ProbeFindsPawn(s, position, whitePiece, k) && NoPawnFrom(s, position, whitePiece, k + 1))
  }

  /** `is_isolated_pawn`: no probe finds a pawn of the same colour. */
  predicate IsIsolatedPawn(s: MS.State, position: int, whitePiece: bool)
    requires |s.squares| == 64 && -119 <= position <= 118
  {
    NoPawnFrom(s, position, whitePiece, 0)
  }

  /** Two squares that touch: on the board, at most one row and one column apart, and different. */
  predicate Touching(p: int, q: int)
  {
    0 <= q < 64 && q != p
    && MH.Abs(MH.Row(q) - MH.Row(p)) <= 1 && MH.Abs(MH.Column(q) - MH.Column(p)) <= 1
  }

  /** Square `q` touches `position` and holds a pawn of the colour. */
  predicate TouchingPawn(s: MS.State, position: int, whitePiece: bool, q: int)
    requires |s.squares| == 64
  {
    Touching(position, q) && FriendlyPawn(s.squares[q], whitePiece)
  }

  /** Probe `k` of an on-board square finds a pawn exactly when the probed square touches it and holds one. */
  lemma ProbeMeansNeighbour(s: MS.State, position: int, whitePiece: bool, k: nat)
    requires |s.squares| == 64 && 0 <= position < 64 && k < 8
    ensures ProbeFindsPawn(s, position, whitePiece, k) <==> TouchingPawn(s, position, whitePiece, position + PROBES[k])
  {
    MH.AdjacentIsNeighbour(position, PROBES[k]);
  }

  /** The probes from `k` on find nothing exactly when none of their squares is a touching pawn of the colour. */
  lemma {:induction false} NoPawnFromMeans(s: MS.State, position: int, whitePiece: bool, k: nat)
    requires |s.squares| == 64 && 0 <= position < 64 && k <= 8
    ensures NoPawnFrom(s, position, whitePiece, k)
      <==> forall j :: k <= j < 8 ==> !TouchingPawn(s, position, whitePiece, position + PROBES[j])
    decreases 8 - k
  {
    if k < 8 {
      ProbeMeansNeighbour(s, position, whitePiece, k);
      NoPawnFromMeans(s, position, whitePiece, k + 1);
      assert (forall j :: k <= j < 8 ==> !TouchingPawn(s, position, whitePiece, position + PROBES[j]))
        <==> !TouchingPawn(s, position, whitePiece, position + PROBES[k])
             && forall j :: k + 1 <= j < 8 ==> !TouchingPawn(s, position, whitePiece, position + PROBES[j]);
    }
  }

  /** Every square that touches an on-board square is one of the eight probes. */
  lemma ProbesCoverNeighbours(p: int, q: int)
    requires 0 <= p < 64 && Touching(p, q)
    ensures exists j :: 0 <= j < 8 && q == p + PROBES[j]
  {
    var d := q - p;
    assert d in PROBES;
  }

  /**
   * A pawn is isolated exactly when no square touching it, on the board and
   * without wrapping round an edge, holds a pawn of its colour.
   */
  lemma IsolatedIffNoTouchingPawn(s: MS.State, position: int, whitePiece: bool)
    requires |s.squares| == 64 && 0 <= position < 64
    ensures IsIsolatedPawn(s, position, whitePiece)
      <==> forall q :: Touching(position, q) ==> !FriendlyPawn(s.squares[q], whitePiece)
  {
    NoPawnFromMeans(s, position, whitePiece, 0);
    forall q | Touching(position, q)
      ensures exists j :: 0 <= j < 8 && q == position + PROBES[j]
    {
      ProbesCoverNeighbours(position, q);
    }
    assert forall q :: TouchingPawn(s, position, whitePiece, q) <==> Touching(position, q) && FriendlyPawn(s.squares[q], whitePiece);
  }

  // ---------------------------------------------------------------- blocked

  /**
   * Lines 402-413 of the source: the verdict on the two diagonal probes (0
   * where a probe was not made). The pawn counts as blocked when each probe
   * that found something found a piece of its own colour.
   */
  function DiagonalVerdict(diagonalLeft: nat, diagonalRight: nat, whitePiece: bool): (blocked: bool)
    ensures blocked <==> (diagonalLeft == 0 || IsWhitePiece(diagonalLeft) == whitePiece)
                         && (diagonalRight == 0 || IsWhitePiece(diagonalRight) == whitePiece)
  {
    var diagonalLeftColor := IsWhitePiece(diagonalLeft);
    var diagonalRightColor := IsWhitePiece(diagonalRight);
    if diagonalLeft == 0 && diagonalRight == 0 then true
    else if diagonalLeft != 0 && diagonalRight == 0 then diagonalLeftColor == whitePiece
    else if diagonalRight != 0 && diagonalLeft == 0 then diagonalRightColor == whitePiece
    else diagonalLeftColor == whitePiece && diagonalRightColor == whitePiece
  }

  /**
   * `is_blocked_pawn` as written: the square ahead must hold something, and
   * then the diagonal probes decide. The probes step one column left and
   * right of the square ahead for White, but for Black the column step is
   * flipped while the edge tests are not.
   */
  function IsBlockedPawnAsWritten(s: MS.State, position: int, whitePiece: bool): (blocked: bool)
    requires |s.squares| == 64 && -119 <= position <= 118
    ensures GetPieceType(MS.GetPiece(s, position + Forward(whitePiece))) == Empty ==> !blocked
  {
    var offset := Forward(whitePiece);
    var frontalPiece := MS.GetPiece(s, position + offset);
    if GetPieceType(frontalPiece) != Empty then
      var diagonalLeft :=
        if MailboxSquares.RustRem8(position) != 0 then MS.GetPiece(s, position + offset + (if whitePiece then -1 else 1)) else 0;
      var diagonalRight :=
        if MailboxSquares.RustRem8(position + 1) != 0 then MS.GetPiece(s, position + offset + (if whitePiece then 1 else -1)) else 0;
      DiagonalVerdict(diagonalLeft, diagonalRight, whitePiece)
    else
      false
  }

  /**
   * A Black pawn on the a file: the source probes the h-file square of the
   * pawn's own row instead of the b-file square ahead, so an enemy piece
   * there makes a pawn that has nothing to capture count as free.
   */
  lemma BlockedAsWrittenProbesOwnRow(s: MS.State)
    requires |s.squares| == 64
    requires s.squares[16] == WHITE_PAWN && s.squares[15] == WHITE_KNIGHT && s.squares[17] == EMPTY_PIECE
    ensures !IsBlockedPawnAsWritten(s, 8, false)
    ensures IsBlockedPawn(s, 8, false)
  {
    assert MS.GetPiece(s, 16) == WHITE_PAWN;
    assert MS.GetPiece(s, 15) == WHITE_KNIGHT;
  }

  /**
   * A Black pawn on the h file: the source probes the a-file square two rows
   * ahead instead of the g-file square ahead, so a capture there is missed
   * and the pawn counts as blocked.
   */
  lemma BlockedAsWrittenProbesTwoRowsAhead(s: MS.State)
    requires |s.squares| == 64
    requires s.squares[23] == WHITE_PAWN && s.squares[22] == WHITE_KNIGHT && s.squares[24] == EMPTY_PIECE
    ensures IsBlockedPawnAsWritten(s, 15, false)
    ensures !IsBlockedPawn(s, 15, false)
  {
    assert MS.GetPiece(s, 23) == WHITE_PAWN;
    assert MS.GetPiece(s, 22) == WHITE_KNIGHT;
  }

  /**
   * Off the a and h files the Black probes of the source land on the two
   * squares diagonally ahead, only in swapped order, so the answer is right.
   */
  lemma BlockedVersionsAgreeOffEdges(s: MS.State, position: int)
    requires |s.squares| == 64 && 0 <= position < 64 && position % 8 != 0 && position % 8 != 7
    ensures IsBlockedPawnAsWritten(s, position, false) == IsBlockedPawn(s, position, false)
  {
    assert MailboxSquares.RustRem8(position) != 0;
    assert MailboxSquares.RustRem8(position + 1) != 0;
  }

  /**
   * `is_blocked_pawn` with the probes on the two squares diagonally ahead of
   * the pawn for both colours: one column left of the square ahead unless the
   * pawn is on the a file, one column right unless it is on the h file.
   */
  function IsBlockedPawn(s: MS.State, position: int, whitePiece: bool): (blocked: bool)
    requires |s.squares| == 64 && -119 <= position <= 118
    ensures GetPieceType(MS.GetPiece(s, position + Forward(whitePiece))) == Empty ==> !blocked
  {
    var offset := Forward(whitePiece);
    var frontalPiece := MS.GetPiece(s, position + offset);
    if GetPieceType(frontalPiece) != Empty then
      var diagonalLeft := if MailboxSquares.RustRem8(position) != 0 then MS.GetPiece(s, position + offset - 1) else 0;
      var diagonalRight := if MailboxSquares.RustRem8(position + 1) != 0 then MS.GetPiece(s, position + offset + 1) else 0;
      DiagonalVerdict(diagonalLeft, diagonalRight, whitePiece)
    else
      false
  }

  /** A square diagonally ahead of a pawn of the colour: one row forward, one column aside. */
  predicate DiagonallyAhead(position: int, whitePiece: bool, q: int)
  {
    0 <= q < 64 && MH.Row(q) == MH.Row(position) + (if whitePiece then -1 else 1)
    && MH.Abs(MH.Column(q) - MH.Column(position)) == 1
  }

  /** The two squares diagonally ahead, those on the board. */
  lemma DiagonallyAheadSquares(position: int, whitePiece: bool, q: int)
    requires 0 <= position < 64
    ensures DiagonallyAhead(position, whitePiece, q)
      <==> 0 <= q < 64 && ((q == position + Forward(whitePiece) - 1 && position % 8 != 0)
                          || (q == position + Forward(whitePiece) + 1 && position % 8 != 7))
  {
  }

  /**
   * A pawn on the board is blocked exactly when the square ahead holds
   * something and nothing diagonally ahead is a piece of the other side: it
   * can neither push nor capture.
   */
  lemma BlockedIffNoCapture(s: MS.State, position: int, whitePiece: bool)
    requires |s.squares| == 64 && 0 <= position < 64
    ensures IsBlockedPawn(s, position, whitePiece)
      <==> GetPieceType(MS.GetPiece(s, position + Forward(whitePiece))) != Empty
           && forall q :: DiagonallyAhead(position, whitePiece, q) ==> s.squares[q] == 0 || IsWhitePiece(s.squares[q]) == whitePiece
  {
    forall q
      ensures DiagonallyAhead(position, whitePiece, q)
        <==> 0 <= q < 64 && ((q == position + Forward(whitePiece) - 1 && position % 8 != 0)
                            || (q == position + Forward(whitePiece) + 1 && position % 8 != 7))
    {
      DiagonallyAheadSquares(position, whitePiece, q);
    }
  }

  /** For White the two versions agree: only Black's probes were misplaced. */
  lemma BlockedVersionsAgreeForWhite(s: MS.State, position: int)
    requires |s.squares| == 64 && -119 <= position <= 118
    ensures IsBlockedPawnAsWritten(s, position, true) == IsBlockedPawn(s, position, true)
  {
  }

  // ---------------------------------------------------------------- doubled

  /**
   * The scan of `is_doubled_pawn` from `position` on: empty squares and
   * enemy pawns are passed, a pawn of the colour answers true, anything else
   * or the edge of the board answers false.
   */
  predicate DoubledFrom(s: MS.State, position: int, offset: int, whitePiece: bool)
    requires |s.squares| == 64 && (offset == 8 || offset == -8)
    decreases if offset > 0 then 64 - position else position + 1
  {
    if !MS.IsValidPosition(position) then false
    else
      var frontalPiece := MS.GetPiece(s, position);
      if frontalPiece == EMPTY_PIECE then DoubledFrom(s, position + offset, offset, whitePiece)
      else if GetPieceType(frontalPiece) != Pawn then false
      else if whitePiece == IsWhitePiece(frontalPiece) then true
      else DoubledFrom(s, position + offset, offset, whitePiece)
  }

  /** `is_doubled_pawn`: the squares ahead of the pawn are scanned one row at a time. */
  method IsDoubledPawn(s: MS.State, position: int, whitePiece: bool) returns (doubled: bool)
    requires |s.squares| == 64 && -120 <= position <= 119
    ensures doubled == DoubledFrom(s, position + Forward(whitePiece), Forward(whitePiece), whitePiece)
  {
    var offset := Forward(whitePiece);
    var square := position + offset;
    while MS.IsValidPosition(square)
      invariant DoubledFrom(s, square, offset, whitePiece) == DoubledFrom(s, position + offset, offset, whitePiece)
      decreases if offset > 0 then 64 - square else square + 1
    {
      var frontalPiece := MS.GetPiece(s, square);
      square := square + offset;
      if frontalPiece == EMPTY_PIECE {
        continue;
      }
      if GetPieceType(frontalPiece) != Pawn {
        return false;
      } else if whitePiece == IsWhitePiece(frontalPiece) {
        return true;
      }
    }
    return false;
  }

  /**
   * A pawn found doubled has a pawn of its colour ahead on its own file:
   * the returned square is on the board, in the pawn's column, some rows
   * ahead, and holds that pawn.
   */
  lemma {:induction false} DoubledHasPawnAhead(s: MS.State, position: int, offset: int, whitePiece: bool) returns (q: int)
    requires |s.squares| == 64 && (offset == 8 || offset == -8) && DoubledFrom(s, position, offset, whitePiece)
    ensures 0 <= q < 64 && FriendlyPawn(s.squares[q], whitePiece)
    ensures (q - position) % 8 == 0 && (q - position) / offset >= 0
    decreases if offset > 0 then 64 - position else position + 1
  {
    var frontalPiece := MS.GetPiece(s, position);
    if frontalPiece != EMPTY_PIECE && GetPieceType(frontalPiece) == Pawn && whitePiece == IsWhitePiece(frontalPiece) {
      q := position;
    } else {
      q := DoubledHasPawnAhead(s, position + offset, offset, whitePiece);
      assert (q - position) == (q - (position + offset)) + offset;
    }
  }

  /** A file with nothing ahead of the pawn, all the way to the edge, makes it not doubled. */
  lemma {:induction false} EmptyFileNotDoubled(s: MS.State, position: int, offset: int, whitePiece: bool)
    requires |s.squares| == 64 && (offset == 8 || offset == -8)
    requires forall q :: 0 <= q < 64 && (q - position) % 8 == 0 && (if offset > 0 then q >= position else q <= position) ==> s.squares[q] == EMPTY_PIECE
    ensures !DoubledFrom(s, position, offset, whitePiece)
    decreases if offset > 0 then 64 - position else position + 1
  {
    if MS.IsValidPosition(position) {
      assert s.squares[position] == EMPTY_PIECE;
      EmptyFileNotDoubled(s, position + offset, offset, whitePiece);
    }
  }

  /** A pawn of the colour on the very next square ahead makes the pawn doubled. */
  lemma NextSquareDoubles(s: MS.State, position: int, whitePiece: bool)
    requires |s.squares| == 64 && 0 <= position + Forward(whitePiece) < 64
    requires FriendlyPawn(s.squares[position + Forward(whitePiece)], whitePiece)
    ensures DoubledFrom(s, position + Forward(whitePiece), Forward(whitePiece), whitePiece)
  {
    GetPieceTypeOnlyPieces(s.squares[position + Forward(whitePiece)]);
  }
}
