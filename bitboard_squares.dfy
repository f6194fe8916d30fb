// The squares of a bitboard listed in the order the move generator pops
// them, lowest first, with the facts the helpers built on popping need.
module BitboardSquares {
  import opened Bitwise

  // ---------------------------------------------------------------
  // The squares of a bitboard, in the order `pop_lsb` yields them.
  // ---------------------------------------------------------------

  /** The squares `bb` holds, in popping order: its lowest square, then the squares of the rest. */
  ghost function Squares(bb: bv64): seq<bv64>
    decreases bb
  {
    if bb == 0 then []
    else
      ClearLowestShrinks(bb);
      [Lowest(bb)] + Squares(bb & (bb - 1))
  }

  lemma SplitLowest(bb: bv64)
    requires bb != 0
    ensures Squares(bb) == [Lowest(bb)] + Squares(bb & (bb - 1))
  {
  }

  /** Clearing the lowest square with `^` is clearing it with `b & (b - 1)`. */
  lemma ClearLowestBit(bb: bv64, low: bv64)
    requires IsLowest(bb, low)
    ensures bb ^ SquareBit(low) == bb & (bb - 1) && Lowest(bb) == low
  {
    LowestMask(bb, low);
    LowestIsLowest(bb);
    LowestUnique(bb, low, Lowest(bb));
  }

  /** Popping the lowest square splits the list of squares into its head and the rest. */
  lemma PopSplits(bb: bv64, low: bv64)
    requires IsLowest(bb, low)
    ensures Squares(bb) == [low] + Squares(bb ^ SquareBit(low))
  {
    ClearLowestBit(bb, low);
    SplitLowest(bb);
  }

  lemma ClearSquare(bb: bv64, low: bv64, s: bv64)
    requires low < 64 && HasBit(bb, low) && s < 64
    ensures HasBit(bb ^ SquareBit(low), s) <==> HasBit(bb, s) && s != low
  {
    HasBitXor(bb, SquareBit(low), s);
    SquareBitMembers(low);
  }

  lemma ClearLowest(bb: bv64, low: bv64, s: bv64)
    requires IsLowest(bb, low) && s < 64
    ensures HasBit(bb & (bb - 1), s) <==> HasBit(bb, s) && s != low
  {
    LowestMask(bb, low);
    ClearSquare(bb, low, s);
  }

  /** Every listed square is a square of the board. */
  lemma {:induction false} SquaresOnBoard(bb: bv64, k: nat)
    requires k < |Squares(bb)|
    ensures Squares(bb)[k] < 64
    decreases k
  {
    SplitLowest(bb);
    if k > 0 {
      SquaresOnBoard(bb & (bb - 1), k - 1);
    } else {
      LowestIsLowest(bb);
    }
  }

  /** A square is listed exactly when `bb` holds it. */
  lemma {:induction false} SquaresMembers(bb: bv64, s: bv64)
    requires s < 64
    ensures s in Squares(bb) <==> HasBit(bb, s)
    decreases |Squares(bb)|
  {
    if bb != 0 {
      SplitLowest(bb);
      SquaresMembers(bb & (bb - 1), s);
      LowestIsLowest(bb);
      ClearLowest(bb, Lowest(bb), s);
    }
  }

  lemma NoSquares()
    ensures Squares(0) == []
  {
  }

  /** A square of the rest lies above the lowest square. */
  lemma AboveLowest(bb: bv64, low: bv64, t: bv64)
    requires IsLowest(bb, low) && t < 64 && HasBit(bb & (bb - 1), t)
    ensures low < t
  {
    ClearLowest(bb, low, t);
    if t < low {
      BelowLowest(bb, low, t);
    }
  }

  lemma AboveLowestAsInt(bb: bv64, low: bv64, t: bv64)
    requires IsLowest(bb, low) && t < 64 && HasBit(bb & (bb - 1), t)
    ensures low as int < t as int
  {
    AboveLowest(bb, low, t);
  }

  lemma InRest(bb: bv64, k: nat)
    requires k < |Squares(bb & (bb - 1))|
    ensures Squares(bb & (bb - 1))[k] < 64 && HasBit(bb & (bb - 1), Squares(bb & (bb - 1))[k])
  {
    SquaresOnBoard(bb & (bb - 1), k);
    SquaresMembers(bb & (bb - 1), Squares(bb & (bb - 1))[k]);
  }

  lemma HeadBelowRest(bb: bv64, k: nat)
    requires bb != 0 && k < |Squares(bb & (bb - 1))|
    ensures Lowest(bb) as int < Squares(bb & (bb - 1))[k] as int
  {
    InRest(bb, k);
    LowestIsLowest(bb);
    AboveLowestAsInt(bb, Lowest(bb), Squares(bb & (bb - 1))[k]);
  }

  /** The first listed square lies below every later one. */
  lemma HeadAscends(bb: bv64, j: nat)
    requires 0 < j < |Squares(bb)|
    ensures Squares(bb)[0] as int < Squares(bb)[j] as int
  {
    HeadIsLowest(bb);
    TailIsRest(bb, j);
    HeadBelowRest(bb, j - 1);
  }

  lemma HeadIsLowest(bb: bv64)
    requires bb != 0
    ensures |Squares(bb)| > 0 && Squares(bb)[0] == Lowest(bb)
  {
    SplitLowest(bb);
  }

  /** Past the first, the listed squares are those of the rest, one place back. */
  lemma TailIsRest(bb: bv64, k: nat)
    requires 0 < k < |Squares(bb)|
    ensures |Squares(bb & (bb - 1))| == |Squares(bb)| - 1
    ensures Squares(bb)[k] == Squares(bb & (bb - 1))[k - 1]
  {
    SplitLowest(bb);
  }

  /** The squares are listed in strictly ascending order. */
  lemma {:induction false} SquaresAscend(bb: bv64, i: nat, j: nat)
    requires i < j < |Squares(bb)|
    ensures Squares(bb)[i] as int < Squares(bb)[j] as int
    decreases i
  {
    if i == 0 {
      HeadAscends(bb, j);
    } else {
      TailIsRest(bb, i);
      TailIsRest(bb, j);
      SquaresAscend(bb & (bb - 1), i - 1, j - 1);
    }
  }

}
