// The helpers of the bitboard move generator: turning an attack set into
// moves, the squares strictly between two squares, the closest piece of a
// set and promotion squares.
module MoveGenUtils {
  import opened Bitwise
  import opened BitboardEnums
  import opened MoveCodec
  import opened BitboardSquares
  import BitSets

  // ---------------------------------------------------------------
  // create_moves
  // ---------------------------------------------------------------

  /** The move `create_moves` pushes for `target`: a capture when an opponent piece stands there. */
  function MoveTo(target: bv64, opponentPiecesBb: bv64, square: bv64, color: Color, pieceType: PieceType): Move
    requires target < 64
  {
    var flags: bv16 := if SquareBit(target) & opponentPiecesBb != 0 then CAPTURE else 0;
    WithFlags(flags, square, target, color, pieceType)
  }

  /** The moves `create_moves` appends for the attack set `bb`: one per square, in popping order. */
  ghost function MovesFrom(bb: bv64, opponentPiecesBb: bv64, square: bv64, color: Color, pieceType: PieceType): seq<Move>
    decreases bb
  {
    if bb == 0 then []
    else
      ClearLowestShrinks(bb);
      LowestIsLowest(bb);
      [MoveTo(Lowest(bb), opponentPiecesBb, square, color, pieceType)]
        + MovesFrom(bb & (bb - 1), opponentPiecesBb, square, color, pieceType)
  }

  lemma PopMoves(bb: bv64, low: bv64, opponentPiecesBb: bv64, square: bv64, color: Color, pieceType: PieceType)
    requires IsLowest(bb, low)
    ensures MovesFrom(bb, opponentPiecesBb, square, color, pieceType)
      == [MoveTo(low, opponentPiecesBb, square, color, pieceType)]
        + MovesFrom(bb ^ SquareBit(low), opponentPiecesBb, square, color, pieceType)
    ensures |Squares(bb ^ SquareBit(low))| < |Squares(bb)|
  {
    ClearLowestBit(bb, low);
    SplitLowest(bb);
  }

  /**
   * `create_moves`: pops the attacked squares lowest first and appends one
   * move from `square` to each; the moves already in the list stay.
   */
  method CreateMoves(attacks: bv64, opponentPiecesBb: bv64, moves: seq<Move>, square: bv64, color: Color, pieceType: PieceType)
    returns (result: seq<Move>)
    ensures result == moves + MovesFrom(attacks, opponentPiecesBb, square, color, pieceType)
  {
    result := moves;
    var remaining := attacks;
    while remaining != 0
      invariant moves + MovesFrom(attacks, opponentPiecesBb, square, color, pieceType)
        == result + MovesFrom(remaining, opponentPiecesBb, square, color, pieceType)
      decreases |Squares(remaining)|
    {
      var rest, target := PopLsb(remaining);
      PopMoves(remaining, target, opponentPiecesBb, square, color, pieceType);
      var m := CreateMove(target, opponentPiecesBb, square, color, pieceType);
      ConcatAssoc(result, [m], MovesFrom(rest, opponentPiecesBb, square, color, pieceType));
      result := result + [m];
      remaining := rest;
    }
  }

  lemma ConcatAssoc(a: seq<Move>, b: seq<Move>, c: seq<Move>)
    ensures a + b + c == a + (b + c)
  {
  }

  /** The body of the loop of `create_moves`: the flags, then the move pushed. */
  method CreateMove(target: bv64, opponentPiecesBb: bv64, square: bv64, color: Color, pieceType: PieceType)
    returns (m: Move)
    requires target < 64
    ensures m == MoveTo(target, opponentPiecesBb, square, color, pieceType)
  {
    var flags: bv16 := 0;
    if SquareBit(target) & opponentPiecesBb != 0 {
      flags := CAPTURE;
    }
    m := WithFlags(flags, square, target, color, pieceType);
  }

  lemma HasBitIsMask(b: bv64, s: bv64)
    requires s < 64
    ensures HasBit(b, s) <==> SquareBit(s) & b != 0
  {
  }

  /** The move to `target` starts at `square`, ends at `target` and keeps the colour and piece. */
  lemma MoveToSquares(target: bv64, opponentPiecesBb: bv64, square: bv64, color: Color, pieceType: PieceType)
    requires target < 64
    ensures var m := MoveTo(target, opponentPiecesBb, square, color, pieceType);
      GetTo(m) == target as nat && GetFrom(m) == (square & 0x3f) as nat
      && m.color == color && m.pieceType == pieceType
  {
    var flags: bv16 := if SquareBit(target) & opponentPiecesBb != 0 then CAPTURE else 0;
    WithFlagsRoundTrip(flags, square & 0x3f, target, color, pieceType);
  }

  /** The move to `target` is a capture exactly when an opponent piece is there, and quiet otherwise. */
  lemma MoveToFlags(target: bv64, opponentPiecesBb: bv64, square: bv64, color: Color, pieceType: PieceType)
    requires target < 64
    ensures var m := MoveTo(target, opponentPiecesBb, square, color, pieceType);
      (GetFlags(m) == CAPTURE <==> HasBit(opponentPiecesBb, target))
      && (GetFlags(m) == CAPTURE || GetFlags(m) == NORMAL)
  {
    HasBitIsMask(opponentPiecesBb, target);
  }

  lemma {:induction false} MovesFromLength(bb: bv64, opponentPiecesBb: bv64, square: bv64, color: Color, pieceType: PieceType)
    ensures |MovesFrom(bb, opponentPiecesBb, square, color, pieceType)| == |Squares(bb)|
    decreases |Squares(bb)|
  {
    if bb != 0 {
      SplitLowest(bb);
      LowestIsLowest(bb);
      PopMoves(bb, Lowest(bb), opponentPiecesBb, square, color, pieceType);
      ClearLowestBit(bb, Lowest(bb));
      MovesFromLength(bb & (bb - 1), opponentPiecesBb, square, color, pieceType);
    }
  }

  /** Move `k` goes to square `k` of the list: one move per square, in the same order. */
  lemma {:induction false} MovesFromSquares(bb: bv64, opponentPiecesBb: bv64, square: bv64, color: Color, pieceType: PieceType, k: nat)
    requires k < |Squares(bb)|
    ensures |MovesFrom(bb, opponentPiecesBb, square, color, pieceType)| == |Squares(bb)|
    ensures Squares(bb)[k] < 64
    ensures MovesFrom(bb, opponentPiecesBb, square, color, pieceType)[k] == MoveTo(Squares(bb)[k], opponentPiecesBb, square, color, pieceType)
    decreases k
  {
    MovesFromLength(bb, opponentPiecesBb, square, color, pieceType);
    SplitLowest(bb);
    LowestIsLowest(bb);
    PopMoves(bb, Lowest(bb), opponentPiecesBb, square, color, pieceType);
    ClearLowestBit(bb, Lowest(bb));
    if k > 0 {
      MovesFromSquares(bb & (bb - 1), opponentPiecesBb, square, color, pieceType, k - 1);
    }
  }

  /**
   * What `create_moves` appends: one move per attacked square, in strictly
   * ascending target order, each from `square`, a capture exactly when an
   * opponent piece stands on the target and a quiet move otherwise.
   */
  lemma CreatedMoves(attacks: bv64, opponentPiecesBb: bv64, square: bv64, color: Color, pieceType: PieceType, i: nat, j: nat)
    requires i < j < |Squares(attacks)|
    ensures var added := MovesFrom(attacks, opponentPiecesBb, square, color, pieceType);
      |added| == |Squares(attacks)|
      && GetTo(added[i]) < GetTo(added[j])
      && GetTo(added[i]) == Squares(attacks)[i] as nat && GetFrom(added[i]) == (square & 0x3f) as nat
      && (GetFlags(added[i]) == CAPTURE <==> HasBit(opponentPiecesBb, Squares(attacks)[i]))
      && (GetFlags(added[i]) == CAPTURE || GetFlags(added[i]) == NORMAL)
  {
    SquaresAscend(attacks, i, j);
    MovesFromSquares(attacks, opponentPiecesBb, square, color, pieceType, i);
    MovesFromSquares(attacks, opponentPiecesBb, square, color, pieceType, j);
    MoveToSquares(Squares(attacks)[i], opponentPiecesBb, square, color, pieceType);
    MoveToSquares(Squares(attacks)[j], opponentPiecesBb, square, color, pieceType);
    MoveToFlags(Squares(attacks)[i], opponentPiecesBb, square, color, pieceType);
  }

  /** Every attacked square gets a move, and no other square does. */
  lemma CreatedMovesCover(attacks: bv64, s: bv64)
    requires s < 64
    ensures s in Squares(attacks) <==> HasBit(attacks, s)
  {
    SquaresMembers(attacks, s);
  }

  // ---------------------------------------------------------------
  // squares_between
  // ---------------------------------------------------------------

  /**
   * `(lo..hi).fold(acc, |acc, sq| acc | (1 << sq))`, with the `u64` it
   * builds as the set of its one bits: an empty range when `lo >= hi`.
   */
  function OrRange(lo: nat, hi: nat, acc: BitSets.Bits): BitSets.Bits
    decreases hi - lo
  {
    if lo >= hi then acc else OrRange(lo + 1, hi, acc + {lo})
  }

  /** `squares_between`: the squares strictly between two squares, in either order. */
  function SquaresBetween(sq1: nat, sq2: nat): (r: BitSets.Bits)
    requires sq1 < 64 && sq2 < 64
    ensures sq1 == sq2 || sq1 + 1 == sq2 || sq2 + 1 == sq1 ==> r == {}
  {
    if sq1 < sq2 then OrRange(sq1 + 1, sq2, {}) else OrRange(sq2 + 1, sq1, {})
  }

  /** The fold adds exactly the squares of its range to what it starts from. */
  lemma {:induction false} OrRangeMembers(lo: nat, hi: nat, acc: BitSets.Bits)
    ensures forall i :: i in OrRange(lo, hi, acc) <==> i in acc || lo <= i < hi
    decreases hi - lo
  {
    if lo < hi {
      OrRangeMembers(lo + 1, hi, acc + {lo});
    }
  }

  /**
   * `squares_between` holds a square exactly when it lies strictly between
   * the two squares; the order of the two does not matter.
   */
  lemma SquaresBetweenMembers(sq1: nat, sq2: nat)
    requires sq1 < 64 && sq2 < 64
    ensures forall i :: i in SquaresBetween(sq1, sq2) <==> sq1 < i < sq2 || sq2 < i < sq1
    ensures SquaresBetween(sq1, sq2) == SquaresBetween(sq2, sq1)
  {
    OrRangeMembers(sq1 + 1, sq2, {});
    OrRangeMembers(sq2 + 1, sq1, {});
  }

  // ---------------------------------------------------------------
  // get_closest_square
  // ---------------------------------------------------------------

  const USIZE_MAX: nat := 0xffff_ffff_ffff_ffff

  /** `usize::abs_diff`: the distance between `a` and `b`, whichever is larger. */
  function AbsDiff(a: nat, b: nat): (d: nat)
  {
    if a < b then b - a else a - b
  }

  /**
   * The loop of `get_closest_square` as written: a square replaces the
   * current answer when its DISTANCE is below the current answer's square
   * INDEX (the running value starts at `usize::MAX`).
   */
  function ClosestAsWritten(base: nat, squares: seq<bv64>, closest: nat): nat
  {
    if squares == [] then closest
    else ClosestAsWritten(base, squares[1..], if AbsDiff(base, squares[0] as nat) < closest then squares[0] as nat else closest)
  }

  /**
   * With the king on b4 (square 25) and rooks on a4 and h4, the code as
   * written answers h4 (square 31, six files away), not a4 (one file away):
   * on one rank every distance is below every square index from 24 up, so
   * the last square popped always wins.
   */
  lemma ClosestAsWrittenMissesNearest()
    ensures ClosestAsWritten(25, Squares(0x8100_0000), USIZE_MAX) == 31
    ensures AbsDiff(25, 24) < AbsDiff(25, 31)
  {
    assert IsLowest(0x8100_0000, 24);
    PopSplits(0x8100_0000, 24);
    assert 0x8100_0000 ^ SquareBit(24) == 0x8000_0000;
    assert IsLowest(0x8000_0000, 31);
    PopSplits(0x8000_0000, 31);
    assert 0x8000_0000 ^ SquareBit(31) == 0;
    NoSquares();
    assert Squares(0x8100_0000) == [24, 31];
  }

  /**
   * The loop of `get_closest_square` as evidently intended: a square
   * replaces the current answer when it is nearer to `base` than the
   * current answer is.
   */
  function Nearest(base: nat, squares: seq<bv64>, closest: nat): nat
  {
    if squares == [] then closest
    else Nearest(base, squares[1..], if AbsDiff(base, squares[0] as nat) < AbsDiff(base, closest) then squares[0] as nat else closest)
  }

  /** `get_closest_square` with the comparison corrected to distance against distance. */
  method GetClosestSquare(base: nat, pieces: bv64) returns (closest: nat)
    ensures closest == Nearest(base, Squares(pieces), USIZE_MAX)
  {
    closest := USIZE_MAX;
    var remaining := pieces;
    while remaining != 0
      invariant Nearest(base, Squares(pieces), USIZE_MAX) == Nearest(base, Squares(remaining), closest)
      decreases |Squares(remaining)|
    {
      remaining, closest := ClosestStep(base, remaining, closest);
    }
    NoSquares();
  }

  /** The body of the loop of `get_closest_square`: pop the lowest square and keep the nearer one. */
  method ClosestStep(base: nat, remaining: bv64, closest: nat) returns (rest: bv64, closest': nat)
    requires remaining != 0
    ensures |Squares(rest)| < |Squares(remaining)|
    ensures Nearest(base, Squares(rest), closest') == Nearest(base, Squares(remaining), closest)
  {
    var square;
    rest, square := PopLsb(remaining);
    NearestStep(base, remaining, square, closest);
    closest' := closest;
    if AbsDiff(base, square as nat) < AbsDiff(base, closest) {
      closest' := square as nat;
    }
  }

  /** One round of `get_closest_square`: the lowest square is weighed, the fold goes on with the rest. */
  lemma NearestStep(base: nat, remaining: bv64, square: bv64, closest: nat)
    requires IsLowest(remaining, square)
    ensures |Squares(remaining ^ SquareBit(square))| < |Squares(remaining)|
    ensures Nearest(base, Squares(remaining), closest) ==
      Nearest(base, Squares(remaining ^ SquareBit(square)),
        if AbsDiff(base, square as nat) < AbsDiff(base, closest) then square as nat else closest)
  {
    PopSplits(remaining, square);
  }

  /** The fold ends on the starting answer (`k < 0`) or on the listed square at index `k`. */
  lemma {:induction false} NearestIndex(base: nat, squares: seq<bv64>, closest: nat) returns (k: int)
    ensures -1 <= k < |squares|
    ensures Nearest(base, squares, closest) == if k < 0 then closest else squares[k] as nat
    decreases |squares|
  {
    if squares == [] {
      k := -1;
    } else {
      var next := if AbsDiff(base, squares[0] as nat) < AbsDiff(base, closest) then squares[0] as nat else closest;
      var j := NearestIndex(base, squares[1..], next);
      if 0 <= j {
        k := j + 1;
      } else if next == closest {
        k := -1;
      } else {
        k := 0;
      }
    }
  }

  /** Neither the starting answer nor any listed square is nearer to `base` than the fold's answer. */
  lemma {:induction false} NearestIsMinimal(base: nat, squares: seq<bv64>, closest: nat)
    ensures AbsDiff(base, Nearest(base, squares, closest)) <= AbsDiff(base, closest)
    ensures forall k :: 0 <= k < |squares| ==> AbsDiff(base, Nearest(base, squares, closest)) <= AbsDiff(base, squares[k] as nat)
    decreases |squares|
  {
    if squares != [] {
      var next := if AbsDiff(base, squares[0] as nat) < AbsDiff(base, closest) then squares[0] as nat else closest;
      NearestIsMinimal(base, squares[1..], next);
      forall k | 0 < k < |squares|
        ensures squares[k] == squares[1..][k - 1]
      {
      }
    }
  }

  /** A square of the board is nearer to any square of the board than `usize::MAX` is. */
  lemma SentinelIsFar(base: nat, sq: nat)
    requires base < 64 && sq < 64
    ensures AbsDiff(base, sq) < AbsDiff(base, USIZE_MAX)
  {
  }

  lemma OnBoardAsNat(sq: bv64)
    requires sq < 64
    ensures sq as nat < 64
  {
  }

  /** For a non-empty set the fold answers one of the set's squares, at index `k`. */
  lemma NearestOfSetIndex(base: nat, pieces: bv64) returns (k: nat)
    requires base < 64 && pieces != 0
    ensures k < |Squares(pieces)| && Nearest(base, Squares(pieces), USIZE_MAX) == Squares(pieces)[k] as nat
  {
    var squares := Squares(pieces);
    SplitLowest(pieces);
    SquaresOnBoard(pieces, 0);
    OnBoardAsNat(squares[0]);
    SentinelIsFar(base, squares[0] as nat);
    NearestIsMinimal(base, squares, USIZE_MAX);
    var i := NearestIndex(base, squares, USIZE_MAX);
    assert 0 <= i;
    k := i;
  }

  /**
   * `get_closest_square` answers `usize::MAX` for an empty set, and
   * otherwise a square of the set.
   */
  lemma ClosestSquareIsListed(base: nat, pieces: bv64)
    requires base < 64
    ensures pieces == 0 ==> Nearest(base, Squares(pieces), USIZE_MAX) == USIZE_MAX
    ensures pieces != 0 ==> exists s: bv64 :: s < 64 && HasBit(pieces, s) && Nearest(base, Squares(pieces), USIZE_MAX) == s as nat
  {
    if pieces == 0 {
      NoSquares();
    } else {
      var k := NearestOfSetIndex(base, pieces);
      SquaresOnBoard(pieces, k);
      SquaresMembers(pieces, Squares(pieces)[k]);
    }
  }

  /** No square of the set is nearer to the base square than the answer of `get_closest_square`. */
  lemma ClosestSquareIsNearest(base: nat, pieces: bv64, t: bv64)
    requires t < 64 && HasBit(pieces, t)
    ensures AbsDiff(base, Nearest(base, Squares(pieces), USIZE_MAX)) <= AbsDiff(base, t as nat)
  {
    SquaresMembers(pieces, t);
    var k :| 0 <= k < |Squares(pieces)| && Squares(pieces)[k] == t;
    NearestIsMinimal(base, Squares(pieces), USIZE_MAX);
  }

  // ---------------------------------------------------------------
  // is_promotion_square
  // ---------------------------------------------------------------

  /** `is_promotion_square`: a8..h8 for White, a1..h1 for Black. */
  function IsPromotionSquare(color: Color, square: nat): (r: bool)
  {
    (56 <= square <= 63 && color == White) || (square <= 7 && color == Black)
  }

  /**
   * A square promotes exactly when it is on the far rank of the colour's
   * pawns; the push of a white pawn from rank 7, and of a black pawn from
   * rank 2, always lands on a promotion square.
   */
  lemma PromotionSquareIsLastRank(color: Color, square: nat)
    ensures IsPromotionSquare(color, square) <==> square < 64 && square / 8 == (if color == White then 7 else 0)
    ensures color == White && 48 <= square < 56 ==> IsPromotionSquare(color, square + 8)
    ensures color == Black && 8 <= square < 16 ==> IsPromotionSquare(color, square - 8)
  {
  }
}
