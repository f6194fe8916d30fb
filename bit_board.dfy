// `game_bit_board/board.rs`: the board as eight bitboards (Black, White and
// the six piece kinds) updated in place.
//
// Each u64 bitboard, and each u64 position handed to the board, is a
// `BitSets.Bits`: the set of the squares whose bit is set, so `b & p != 0`
// is a non-empty intersection.
module BitBoard {
  import opened BitboardEnums
  import opened Wrappers
  import opened BoardIndexes
  import opened BitSets

  /** The squares of rank k (1 = the first rank), `ROW_k`. */
  function RankSquares(k: nat): Bits
  {
    match k
    case 1 => {0, 1, 2, 3, 4, 5, 6, 7}
    case 2 => {8, 9, 10, 11, 12, 13, 14, 15}
    case 3 => {16, 17, 18, 19, 20, 21, 22, 23}
    case 4 => {24, 25, 26, 27, 28, 29, 30, 31}
    case 5 => {32, 33, 34, 35, 36, 37, 38, 39}
    case 6 => {40, 41, 42, 43, 44, 45, 46, 47}
    case 7 => {48, 49, 50, 51, 52, 53, 54, 55}
    case 8 => {56, 57, 58, 59, 60, 61, 62, 63}
    case _ => {}
  }

  /** The position is one square, on rank k: `ROW_k.contains(&position)`. */
  predicate OneSquareOn(position: Bits, k: nat)
  {
    |position| == 1 && position <= RankSquares(k)
  }

  /** `is_pawn_promotion`, on square sets: White from rank 7 to rank 8, or Black from rank 2 to rank 1. */
  predicate PawnPromotes(color: Color, from: Bits, to: Bits)
  {
    (color == Black && OneSquareOn(from, 2) && OneSquareOn(to, 1))
    || (color == White && OneSquareOn(from, 7) && OneSquareOn(to, 8))
  }

  // The starting squares of each bitboard, as `reset` writes them.
  const BLACK_START: Bits := {48, 49, 50, 51, 52, 53, 54, 55, 56, 57, 58, 59, 60, 61, 62, 63}  // 0xFFFF000000000000
  const WHITE_START: Bits := {0, 1, 2, 3, 4, 5, 6, 7, 8, 9, 10, 11, 12, 13, 14, 15}  // 0x000000000000FFFF
  const BISHOPS_START: Bits := {2, 5, 58, 61}  // 0x2400000000000024
  const KINGS_START: Bits := {4, 60}  // 0x1000000000000010
  const KNIGHTS_START: Bits := {1, 6, 57, 62}  // 0x4200000000000042
  const PAWNS_START: Bits := {8, 9, 10, 11, 12, 13, 14, 15, 48, 49, 50, 51, 52, 53, 54, 55}  // 0x00FF00000000FF00
  const QUEENS_START: Bits := {3, 59}  // 0x0800000000000008
  const ROOKS_START: Bits := {0, 7, 56, 63}  // 0x8100000000000081

  /** The eight bitboards after `reset`, by slot. */
  function Initial(): (r: seq<Bits>)
    ensures |r| == 8
  {
    [BLACK_START, WHITE_START, BISHOPS_START, KINGS_START, KNIGHTS_START, PAWNS_START, QUEENS_START, ROOKS_START]
  }

  /** `place_piece` on values: add the position to the colour slot and the kind slot. */
  function Placed(boards: seq<Bits>, color: Color, pieceType: PieceType, position: Bits): (r: seq<Bits>)
    requires |boards| == 8 && pieceType != Empty
    ensures |r| == 8
  {
    var c := ColorIndex(color);
    var t := PieceTypeIndex(pieceType);
    boards[c := boards[c] + position][t := boards[t] + position]
  }

  /** `remove_piece` on values: toggle the position in the colour slot and the kind slot. */
  function Removed(boards: seq<Bits>, color: Color, pieceType: PieceType, position: Bits): (r: seq<Bits>)
    requires |boards| == 8 && pieceType != Empty
    ensures |r| == 8
  {
    var c := ColorIndex(color);
    var t := PieceTypeIndex(pieceType);
    boards[c := Xor(boards[c], position)][t := Xor(boards[t], position)]
  }

  /** The kind that lands on `to`: a pawn making its last step becomes a Queen. */
  function LandingType(color: Color, pieceType: PieceType, from: Bits, to: Bits): (r: PieceType)
    ensures r == Queen || r == pieceType
    ensures r != pieceType <==> pieceType == Pawn && PawnPromotes(color, from, to)
  {
    if pieceType == Pawn && PawnPromotes(color, from, to) then Queen else pieceType
  }

  /** `move_piece` on values. */
  function Moved(boards: seq<Bits>, color: Color, pieceType: PieceType, from: Bits, to: Bits): (r: seq<Bits>)
    requires |boards| == 8 && pieceType != Empty
    ensures |r| == 8
  {
    Placed(Removed(boards, color, pieceType, from), color, LandingType(color, pieceType, from, to), to)
  }

  /** The first kind, in `PIECE_INDEXES` order from entry k on, whose bitboard meets the position. */
  function KindAt(boards: seq<Bits>, position: Bits, k: nat): Option<PieceType>
    requires |boards| == 8 && k <= 6
    decreases 6 - k
  {
    if k == 6 then None
    else if boards[PIECE_INDEXES[k]] * position != {} then Some(PieceTypeFromIndex(PIECE_INDEXES[k]))
    else KindAt(boards, position, k + 1)
  }

  /** No kind slot from 2 up to (not including) `upTo` meets the position. */
  predicate NoKindBelow(boards: seq<Bits>, position: Bits, upTo: nat)
    requires |boards| == 8 && upTo <= 8
  {
    forall i :: 2 <= i < upTo ==> boards[i] * position == {}
  }

  /** The search from entry k finds the first kind slot from k + 2 on that meets the position, or nothing. */
  lemma {:induction false} KindAtFrom(boards: seq<Bits>, position: Bits, k: nat)
    requires |boards| == 8 && k <= 6
    ensures KindAt(boards, position, k).None? <==> forall i :: k + 2 <= i < 8 ==> boards[i] * position == {}
    ensures KindAt(boards, position, k).Some? ==>
      var t := KindAt(boards, position, k).value;
      t != Empty && k + 2 <= PieceTypeIndex(t) && boards[PieceTypeIndex(t)] * position != {}
      && forall i :: k + 2 <= i < PieceTypeIndex(t) ==> boards[i] * position == {}
    decreases 6 - k
  {
    if k < 6 && boards[PIECE_INDEXES[k]] * position == {} {
      KindAtFrom(boards, position, k + 1);
    }
  }

  /**
   * `get_piece_type_from_position` finds kind t exactly when t's slot is the
   * first of the six that meets the position; it finds nothing (the source
   * panics) exactly when none does.
   */
  lemma KindAtIsFirst(boards: seq<Bits>, position: Bits, t: PieceType)
    requires |boards| == 8
    ensures KindAt(boards, position, 0) == Some(t) <==>
      t != Empty && boards[PieceTypeIndex(t)] * position != {} && NoKindBelow(boards, position, PieceTypeIndex(t))
    ensures KindAt(boards, position, 0) == None <==> NoKindBelow(boards, position, 8)
  {
    KindAtFrom(boards, position, 0);
    if t != Empty && boards[PieceTypeIndex(t)] * position != {} && NoKindBelow(boards, position, PieceTypeIndex(t)) {
      var found := KindAt(boards, position, 0);
      assert PieceTypeIndex(found.value) == PieceTypeIndex(t);
      PieceTypeIndexInjective(found.value, t);
    }
  }

  /** After `reset` the two colour boards are disjoint: White on ranks 1-2, Black on ranks 7-8. */
  lemma InitialColorsDisjoint()
    ensures BLACK_START * WHITE_START == {}
  {
    forall s | s in BLACK_START ensures s !in WHITE_START {}
  }

  /** After `reset` the six kind boards are pairwise disjoint. */
  lemma InitialKindsDisjoint()
    ensures forall i, j, s :: 2 <= i < j < 8 && s in Initial()[i] ==> s !in Initial()[j]
  {
  }

  /** After `reset` the six kind boards together cover exactly the coloured squares. */
  lemma InitialKindsCoverColors()
    ensures BISHOPS_START + KINGS_START + KNIGHTS_START + PAWNS_START + QUEENS_START + ROOKS_START
         == BLACK_START + WHITE_START
  {
    assert BISHOPS_START + KINGS_START == {2, 4, 5, 58, 60, 61};
    assert BISHOPS_START + KINGS_START + KNIGHTS_START == {1, 2, 4, 5, 6, 57, 58, 60, 61, 62};
    var back := {0, 1, 2, 3, 4, 5, 6, 7, 56, 57, 58, 59, 60, 61, 62, 63};
    assert BISHOPS_START + KINGS_START + KNIGHTS_START + QUEENS_START + ROOKS_START == back;
    assert back + PAWNS_START == BLACK_START + WHITE_START by {
      assert WHITE_START == {0, 1, 2, 3, 4, 5, 6, 7} + {8, 9, 10, 11, 12, 13, 14, 15};
      assert BLACK_START == {48, 49, 50, 51, 52, 53, 54, 55} + {56, 57, 58, 59, 60, 61, 62, 63};
    }
  }

  /** Placing a piece adds its square to exactly its colour slot and its kind slot; every other slot is unchanged. */
  lemma PlacedSlots(boards: seq<Bits>, color: Color, pieceType: PieceType, position: Bits)
    requires |boards| == 8 && pieceType != Empty
    ensures var r := Placed(boards, color, pieceType, position);
      r[ColorIndex(color)] == boards[ColorIndex(color)] + position
      && r[PieceTypeIndex(pieceType)] == boards[PieceTypeIndex(pieceType)] + position
      && forall i :: 0 <= i < 8 && i != ColorIndex(color) && i != PieceTypeIndex(pieceType) ==> r[i] == boards[i]
  {
    ColorAndPieceSlotsDisjoint(color, pieceType);
  }

  /** Removing a piece that is there clears its square from its two slots and nowhere else. */
  lemma RemovedClears(boards: seq<Bits>, color: Color, pieceType: PieceType, position: Bits)
    requires |boards| == 8 && pieceType != Empty
    requires position <= boards[ColorIndex(color)] && position <= boards[PieceTypeIndex(pieceType)]
    ensures var r := Removed(boards, color, pieceType, position);
      r[ColorIndex(color)] == boards[ColorIndex(color)] - position
      && r[PieceTypeIndex(pieceType)] == boards[PieceTypeIndex(pieceType)] - position
      && forall i :: 0 <= i < 8 && i != ColorIndex(color) && i != PieceTypeIndex(pieceType) ==> r[i] == boards[i]
  {
    ColorAndPieceSlotsDisjoint(color, pieceType);
  }

  /** Removing a piece undoes placing it on a square its two slots did not hold. */
  lemma RemoveUndoesPlace(boards: seq<Bits>, color: Color, pieceType: PieceType, position: Bits)
    requires |boards| == 8 && pieceType != Empty
    requires boards[ColorIndex(color)] * position == {} && boards[PieceTypeIndex(pieceType)] * position == {}
    ensures Removed(Placed(boards, color, pieceType, position), color, pieceType, position) == boards
  {
    ColorAndPieceSlotsDisjoint(color, pieceType);
    var c, t := ColorIndex(color), PieceTypeIndex(pieceType);
    XorUndoesOr(boards[c], position);
    XorUndoesOr(boards[t], position);
    var r := Removed(Placed(boards, color, pieceType, position), color, pieceType, position);
    assert r[c] == boards[c] && r[t] == boards[t];
  }

  /** Placing a piece undoes removing it from a square its two slots held. */
  lemma PlaceUndoesRemove(boards: seq<Bits>, color: Color, pieceType: PieceType, position: Bits)
    requires |boards| == 8 && pieceType != Empty
    requires position <= boards[ColorIndex(color)] && position <= boards[PieceTypeIndex(pieceType)]
    ensures Placed(Removed(boards, color, pieceType, position), color, pieceType, position) == boards
  {
    ColorAndPieceSlotsDisjoint(color, pieceType);
    var c, t := ColorIndex(color), PieceTypeIndex(pieceType);
    OrUndoesXor(boards[c], position);
    OrUndoesXor(boards[t], position);
    var r := Placed(Removed(boards, color, pieceType, position), color, pieceType, position);
    assert r[c] == boards[c] && r[t] == boards[t];
  }

  /**
   * A move of a piece standing on `from` to a square `to` apart from it:
   * `from` leaves the colour slot and the mover's kind slot, `to` enters the
   * colour slot and the landing kind's slot, and every other slot keeps its
   * squares, so an occupant of `to` is not removed.
   */
  lemma MovedSlots(boards: seq<Bits>, color: Color, pieceType: PieceType, from: Bits, to: Bits)
    requires |boards| == 8 && pieceType != Empty
    requires from <= boards[ColorIndex(color)] && from <= boards[PieceTypeIndex(pieceType)]
    requires from * to == {}
    ensures var r := Moved(boards, color, pieceType, from, to);
      var land := PieceTypeIndex(LandingType(color, pieceType, from, to));
      r[ColorIndex(color)] == (boards[ColorIndex(color)] - from) + to
      && r[PieceTypeIndex(pieceType)] * from == {} && to <= r[land]
      && forall i :: 0 <= i < 8 && i != ColorIndex(color) && i != PieceTypeIndex(pieceType) && i != land ==> r[i] == boards[i]
  {
    var removed := Removed(boards, color, pieceType, from);
    RemovedClears(boards, color, pieceType, from);
    PlacedSlots(removed, color, LandingType(color, pieceType, from, to), to);
  }

  /** A pawn's last step lands a Queen and leaves no pawn on either square. */
  lemma PromotionLandsQueen(boards: seq<Bits>, color: Color, from: Bits, to: Bits)
    requires |boards| == 8 && from <= boards[ColorIndex(color)] && from <= boards[PAWNS_IDX]
    requires PawnPromotes(color, from, to) && from * to == {} && boards[PAWNS_IDX] * to == {}
    ensures var r := Moved(boards, color, Pawn, from, to);
      to <= r[QUEENS_IDX] && r[PAWNS_IDX] * from == {} && r[PAWNS_IDX] * to == {}
  {
    MovedSlots(boards, color, Pawn, from, to);
  }

  /** A piece placed on a square no kind slot held is found there, with its colour. */
  lemma PlacedIsFound(boards: seq<Bits>, color: Color, pieceType: PieceType, position: Bits)
    requires |boards| == 8 && pieceType != Empty && position != {}
    requires NoKindBelow(boards, position, 8)
    requires color == Black ==> boards[WHITE_IDX] * position == {}
    ensures var r := Placed(boards, color, pieceType, position);
      KindAt(r, position, 0) == Some(pieceType) && (r[WHITE_IDX] * position != {} <==> color == White)
  {
    var r := Placed(boards, color, pieceType, position);
    PlacedSlots(boards, color, pieceType, position);
    var s :| s in position;
    assert s in r[PieceTypeIndex(pieceType)] * position;
    KindAtIsFirst(r, position, pieceType);
    if color == White {
      assert s in r[WHITE_IDX] * position;
    }
  }

  class Board {
    const bitboards: array<Bits>

    ghost predicate Valid()
      reads this
    {
      bitboards.Length == 8
    }

    /** `Board::new`: the starting position. */
    constructor New()
      ensures Valid() && fresh(bitboards) && bitboards[..] == Initial()
    {
      bitboards := new Bits[8](_ => {});
      new;
      Reset();
    }

    /** `Board::empty`: no pieces. */
    constructor Cleared()
      ensures Valid() && fresh(bitboards) && forall i :: 0 <= i < 8 ==> bitboards[i] == {}
    {
      bitboards := new Bits[8](_ => {});
    }

    /** `reset`: the starting position, whatever was there before. */
    method Reset()
      requires Valid()
      modifies bitboards
      ensures bitboards[..] == Initial()
    {
      bitboards[PAWNS_IDX] := PAWNS_START;
      bitboards[WHITE_IDX] := WHITE_START;
      bitboards[BLACK_IDX] := BLACK_START;
      bitboards[ROOKS_IDX] := ROOKS_START;
      bitboards[KNIGHTS_IDX] := KNIGHTS_START;
      bitboards[BISHOPS_IDX] := BISHOPS_START;
      bitboards[QUEENS_IDX] := QUEENS_START;
      bitboards[KINGS_IDX] := KINGS_START;
      assert bitboards[..] == Initial();
    }

    /** `place_piece`. An Empty kind has no slot (`usize::MAX`), which the source cannot index. */
    method PlacePiece(color: Color, pieceType: PieceType, position: Bits)
      requires Valid() && pieceType != Empty
      modifies bitboards
      ensures bitboards[..] == Placed(old(bitboards[..]), color, pieceType, position)
    {
      var c := ColorIndex(color);
      bitboards[c] := bitboards[c] + position;
      var t := PieceTypeIndex(pieceType);
      bitboards[t] := bitboards[t] + position;
    }

    /** `remove_piece`: a toggle, so it clears only a piece that is there. */
    method RemovePiece(color: Color, pieceType: PieceType, position: Bits)
      requires Valid() && pieceType != Empty
      modifies bitboards
      ensures bitboards[..] == Removed(old(bitboards[..]), color, pieceType, position)
    {
      var c := ColorIndex(color);
      bitboards[c] := Xor(bitboards[c], position);
      var t := PieceTypeIndex(pieceType);
      bitboards[t] := Xor(bitboards[t], position);
    }

    /** `move_piece`: remove from `from`, then place on `to`, as a Queen for a promoting pawn. */
    method MovePiece(color: Color, pieceType: PieceType, from: Bits, to: Bits)
      requires Valid() && pieceType != Empty
      modifies bitboards
      ensures bitboards[..] == Moved(old(bitboards[..]), color, pieceType, from, to)
    {
      RemovePiece(color, pieceType, from);
      if pieceType == Pawn && PawnPromotes(color, from, to) {
        PlacePiece(color, Queen, to);
      } else {
        PlacePiece(color, pieceType, to);
      }
    }

    /** `get_piece_color_from_position`: White when the white board meets the position, else Black. */
    function GetPieceColorFromPosition(position: Bits): (c: Color)
      requires Valid()
      reads this, bitboards
      ensures c == White <==> bitboards[WHITE_IDX] * position != {}
    {
      if bitboards[WHITE_IDX] * position != {} then White else Black
    }

    /** `get_piece_type_from_position`: the first kind slot meeting the position; None where the source panics. */
    method GetPieceTypeFromPosition(position: Bits) returns (t: Option<PieceType>)
      requires Valid()
      ensures t == KindAt(bitboards[..], position, 0)
    {
      for k := 0 to 6
        invariant KindAt(bitboards[..], position, 0) == KindAt(bitboards[..], position, k)
      {
        if bitboards[PIECE_INDEXES[k]] * position != {} {
          return Some(PieceTypeFromIndex(PIECE_INDEXES[k]));
        }
      }
      return None;
    }
  }

  /** The board's own scenario: from the start, Black's a7 pawn steps to a6 and leaves a7. */
  method BlackPawnStepExample()
  {
    var board := new Board.New();
    assert 48 !in RankSquares(2);
    assert LandingType(Black, Pawn, {48}, {40}) == Pawn;
    board.MovePiece(Black, Pawn, {48}, {40});
    assert 40 in board.bitboards[PAWNS_IDX] && 48 !in board.bitboards[PAWNS_IDX];
  }

  /** The board's own scenario: on an empty board a White pawn placed on h7 steps to h8 and becomes a Queen. */
  method PromotionExample()
  {
    var board := new Board.Cleared();
    board.PlacePiece(White, Pawn, {55});
    assert 55 in RankSquares(7) && 63 in RankSquares(8);
    assert LandingType(White, Pawn, {55}, {63}) == Queen;
    board.MovePiece(White, Pawn, {55}, {63});
    assert 63 !in board.bitboards[PAWNS_IDX] && 63 in board.bitboards[QUEENS_IDX];
  }
}
