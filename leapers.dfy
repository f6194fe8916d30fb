// The pieces that do not slide: king, knight and pawn moves of the raw
// generator, and the loops that fill their 64-entry tables.
module Leapers {
  import opened Bitwise
  import BitboardText
  import TableFill

  /** `generate_king_moves`: the eight one-step neighbours, minus friendly squares. */
  function KingMoves(friendly: bv64, initial: bv64): (r: bv64)
    ensures r & friendly == 0
  {
    (NorthOne(initial) | NoEaOne(initial) | EastOne(initial) | SoEaOne(initial)
      | SouthOne(initial) | SoWeOne(initial) | WestOne(initial) | NoWeOne(initial)) & !friendly
  }

  /** A single square is never its own neighbour. */
  lemma KingNeverStays(b: bv64)
    requires b & (b - 1) == 0
    ensures KingMoves(0, b) & b == 0
  {
  }

  /** A king on file a never lands on file h, and the other way round. */
  lemma KingStaysNearFile(b: bv64)
    ensures b & !A_FILE == 0 ==> KingMoves(0, b) & H_FILE == 0
    ensures b & !H_FILE == 0 ==> KingMoves(0, b) & A_FILE == 0
  {
  }

  /**
   * The four jumps of `get_knight_moves` that go one rank in the direction
   * of `northOrSouth` and two files over, or two ranks and one file over.
   */
  function KnightHalf(northOrSouth: bv64 -> bv64, initial: bv64): bv64
  {
    var one := northOrSouth(initial);
    var two := northOrSouth(one);
    WestOne(WestOne(one)) | EastOne(EastOne(one)) | WestOne(two) | EastOne(two)
  }

  /** The bitboard `get_knight_moves` leaves behind: `moves` with one half of the jumps added. */
  function KnightMovesOr(moves: bv64, northOrSouth: bv64 -> bv64, initial: bv64): bv64
  {
    moves | KnightHalf(northOrSouth, initial)
  }

  /** `get_knight_moves`: ORs the jumps of one vertical direction into `moves`. */
  method GetKnightMoves(initial: bv64, moves: bv64, northOrSouth: bv64 -> bv64) returns (result: bv64)
    ensures result == KnightMovesOr(moves, northOrSouth, initial)
  {
    result := moves;
    var northOrSouth8 := northOrSouth(initial);
    result := result | WestOne(WestOne(northOrSouth8));
    result := result | EastOne(EastOne(northOrSouth8));
    var northOrSouth16 := northOrSouth(northOrSouth8);
    result := result | WestOne(northOrSouth16);
    result := result | EastOne(northOrSouth16);
  }

  const NOT_AB_FILE: bv64 := 0xfcfc_fcfc_fcfc_fcfc
  const NOT_GH_FILE: bv64 := 0x3f3f_3f3f_3f3f_3f3f

  // Each jump of `get_knight_moves`, composed from one-step shifts, is a
  // single shift with a file mask.

  lemma NorthWestJump(b: bv64)
    ensures WestOne(WestOne(NorthOne(b))) == (b << 6) & NOT_GH_FILE
  {
  }

  lemma NorthEastJump(b: bv64)
    ensures EastOne(EastOne(NorthOne(b))) == (b << 10) & NOT_AB_FILE
  {
  }

  lemma NorthNorthWestJump(b: bv64)
    ensures WestOne(NorthOne(NorthOne(b))) == (b << 15) & NOT_H_FILE
  {
  }

  lemma NorthNorthEastJump(b: bv64)
    ensures EastOne(NorthOne(NorthOne(b))) == (b << 17) & NOT_A_FILE
  {
  }

  lemma SouthWestJump(b: bv64)
    ensures WestOne(WestOne(SouthOne(b))) == (b >> 10) & NOT_GH_FILE
  {
  }

  lemma SouthEastJump(b: bv64)
    ensures EastOne(EastOne(SouthOne(b))) == (b >> 6) & NOT_AB_FILE
  {
  }

  lemma SouthSouthWestJump(b: bv64)
    ensures WestOne(SouthOne(SouthOne(b))) == (b >> 17) & NOT_H_FILE
  {
  }

  lemma SouthSouthEastJump(b: bv64)
    ensures EastOne(SouthOne(SouthOne(b))) == (b >> 15) & NOT_A_FILE
  {
  }

  /** One entry of `pre_compute_knight_moves`: both halves ORed into what the entry held. */
  function KnightEntry(position: bv64, prev: bv64): bv64
  {
    KnightMovesOr(KnightMovesOr(prev, NorthOne, position), SouthOne, position)
  }

  /** `get_knight_moves` only adds squares: whatever `moves` held is kept. */
  lemma KnightMovesKeep(moves: bv64, northOrSouth: bv64 -> bv64, initial: bv64)
    ensures KnightMovesOr(moves, northOrSouth, initial) & moves == moves
  {
  }

  /** A knight on file a or b never lands on file g or h, and the other way round. */
  lemma KnightStaysNearFile(b: bv64)
    ensures b & !0x0303_0303_0303_0303 == 0 ==> KnightEntry(b, 0) & 0xc0c0_c0c0_c0c0_c0c0 == 0
    ensures b & !0xc0c0_c0c0_c0c0_c0c0 == 0 ==> KnightEntry(b, 0) & 0x0303_0303_0303_0303 == 0
  {
  }

  /** `pre_compute_king_moves`: entry `sq` is the king's moves from square `sq`. */
  method PreComputeKingMoves(movesVec: array<bv64>)
    requires movesVec.Length == 64
    modifies movesVec
    ensures forall sq: nat :: sq < 64 ==> movesVec[sq] == KingMoves(0, SquareBitAt(sq))
  {
    for square := 0 to 64
      invariant forall sq: nat :: sq < square ==> movesVec[sq] == KingMoves(0, SquareBitAt(sq))
    {
      var position := SquareBitAt(square);
      movesVec[square] := KingMoves(0, position);
    }
  }

  /**
   * `pre_compute_knight_moves`: ORs both halves of the knight's jumps into
   * each entry; whatever an entry held before is kept.
   */
  method PreComputeKnightMoves(movesVec: array<bv64>)
    requires movesVec.Length == 64
    modifies movesVec
    ensures forall sq: nat :: sq < 64 ==> movesVec[sq] == KnightEntry(SquareBitAt(sq), old(movesVec[sq]))
  {
    ghost var before := movesVec[..];
    ghost var target := seq(64, sq requires 0 <= sq < 64 => KnightEntry(SquareBitAt(sq), before[sq]));
    for square := 0 to 64
      invariant movesVec[..square] == target[..square]
      invariant movesVec[square..] == before[square..]
    {
      assert movesVec[square] == before[square] by {
        assert movesVec[square..][0] == before[square..][0];
      }
      ghost var previous := movesVec[..];
      var position := SquareBitAt(square);
      movesVec[square] := GetKnightMoves(position, movesVec[square], NorthOne);
      movesVec[square] := GetKnightMoves(position, movesVec[square], SouthOne);
      TableFill.PrefixExtends(previous, movesVec[..], target, square);
    }
    TableFill.PrefixWhole(movesVec[..], target);
  }

  /** `pre_compute_pawn_attacks`: entry `sq` holds the two diagonal steps from square `sq`. */
  method PreComputePawnAttacks(movesVec: array<bv64>, eaOne: bv64 -> bv64, weOne: bv64 -> bv64)
    requires movesVec.Length == 64
    modifies movesVec
    ensures forall sq: nat :: sq < 64 ==> movesVec[sq] == weOne(SquareBitAt(sq)) | eaOne(SquareBitAt(sq))
  {
    for square := 0 to 64
      invariant forall sq: nat :: sq < square ==> movesVec[sq] == weOne(SquareBitAt(sq)) | eaOne(SquareBitAt(sq))
    {
      var position := SquareBitAt(square);
      movesVec[square] := weOne(position) | eaOne(position);
    }
  }

  /**
   * The entry `pre_compute_pawn_attacks` writes for a pawn on `position`:
   * called with the two northern diagonal steps for white and the two
   * southern ones for black.
   */
  function PawnAttacks(position: bv64, white: bool): (r: bv64)
  {
    if white then NoWeOne(position) | NoEaOne(position) else SoWeOne(position) | SoEaOne(position)
  }

  /** The one-step push of a pawn, and the two-step push from its starting rank. */
  function PawnPushes(position: bv64, white: bool): (r: bv64)
  {
    var offset := if white then NorthOne else SouthOne;
    var single := offset(position);
    if BitboardText.IsPawnInInitialPosition(position, white) then single | offset(single) else single
  }

  /** The body of `pre_compute_pawn_moves`' loop: fills entry `square` and no other. */
  method PawnMovesAt(movesVec: array<bv64>, square: nat, position: bv64, white: bool, offset: bv64 -> bv64)
    requires square < movesVec.Length
    requires offset == if white then NorthOne else SouthOne
    modifies movesVec
    ensures movesVec[square] == PawnPushes(position, white)
    ensures forall i :: 0 <= i < movesVec.Length && i != square ==> movesVec[i] == old(movesVec[i])
  {
    movesVec[square] := offset(position);
    if BitboardText.IsPawnInInitialPosition(position, white) {
      movesVec[square] := movesVec[square] | offset(movesVec[square]);
    }
  }

  /** `pre_compute_pawn_moves`: entry `sq` holds the pushes from square `sq`. */
  method PreComputePawnMoves(movesVec: array<bv64>, white: bool)
    requires movesVec.Length == 64
    modifies movesVec
    ensures forall sq: nat :: sq < 64 ==> movesVec[sq] == PawnPushes(SquareBitAt(sq), white)
  {
    var offset := if white then NorthOne else SouthOne;
    ghost var target := seq(64, sq requires 0 <= sq < 64 => PawnPushes(SquareBitAt(sq), white));
    for square := 0 to 64
      invariant movesVec[..square] == target[..square]
    {
      var position := SquareBitAt(square);
      ghost var previous := movesVec[..];
      PawnMovesAt(movesVec, square, position, white, offset);
      TableFill.PrefixExtends(previous, movesVec[..], target, square);
    }
    TableFill.PrefixWhole(movesVec[..], target);
  }

  /**
   * A pawn pushes one square forward, and two only from its starting rank;
   * there is no push from the last rank.
   */
  lemma PawnPushSquares(s: bv64, white: bool)
    requires s < 64
    ensures white && 8 <= s < 16 ==> PawnPushes(SquareBit(s), white) == SquareBit(s + 8) | SquareBit(s + 16)
    ensures white && !(8 <= s < 16) && s < 56 ==> PawnPushes(SquareBit(s), white) == SquareBit(s + 8)
    ensures white && s >= 56 ==> PawnPushes(SquareBit(s), white) == 0
    ensures !white && 48 <= s < 56 ==> PawnPushes(SquareBit(s), white) == SquareBit(s - 8) | SquareBit(s - 16)
    ensures !white && !(48 <= s < 56) && s >= 8 ==> PawnPushes(SquareBit(s), white) == SquareBit(s - 8)
    ensures !white && s < 8 ==> PawnPushes(SquareBit(s), white) == 0
  {
  }
}
