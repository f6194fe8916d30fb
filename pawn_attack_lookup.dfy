// `look_up_pawn_attacks`, the move generator's one helper that reads the
// precomputed tables.
module PawnAttackLookup {
  import opened BitboardEnums
  import opened Bitwise
  import Leapers
  import MoveTables

  /** `look_up_pawn_attacks`: the table of the pawn's colour, which holds its two diagonal steps. */
  function LookUpPawnAttacks(color: Color, square: nat): (r: bv64)
    requires square < 64
    ensures r == Leapers.PawnAttacks(SquareBitAt(square), color == White)
  {
    MoveTables.WhitePawnAttacksAreGenerated(square);
    MoveTables.BlackPawnAttacksAreGenerated(square);
    if color == White then MoveTables.WhitePawnAttacksAt(square) else MoveTables.BlackPawnAttacksAt(square)
  }
}
