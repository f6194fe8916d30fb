// `game_bit_board/board_utils.rs` and `game_bit_board/utils/board_utils.rs`:
// the slots of the eight bitboards (two colours, six piece kinds), the maps
// between piece kinds and slots, the pawn-promotion test and the castling
// right of a (colour, side) pair.
module BoardIndexes {
  import opened BitboardEnums
  import P = Positions

  const BLACK_IDX: nat := 0
  const WHITE_IDX: nat := 1

  const BISHOPS_IDX: nat := 2
  const KINGS_IDX: nat := 3
  const KNIGHTS_IDX: nat := 4
  const PAWNS_IDX: nat := 5
  const QUEENS_IDX: nat := 6
  const ROOKS_IDX: nat := 7

  /** `PIECE_INDEXES`: the six piece-kind slots, in the order they are searched. */
  const PIECE_INDEXES: seq<nat> := [BISHOPS_IDX, KINGS_IDX, KNIGHTS_IDX, PAWNS_IDX, QUEENS_IDX, ROOKS_IDX]

  /** `usize::MAX` on a 64-bit target. */
  const USIZE_MAX: nat := 0xFFFF_FFFF_FFFF_FFFF

  /** `is_white_pawn_promotion`: White, from a rank-7 square to a rank-8 square. */
  function IsWhitePawnPromotion(color: Color, from: bv64, to: bv64): (r: bool)
    ensures r <==> color == White && P.SingleOnRank(from, 7) && P.SingleOnRank(to, 8)
  {
    P.InRowSquares(from, 7);
    P.InRowSquares(to, 8);
    color == White && from in P.RowSquares(7) && to in P.RowSquares(8)
  }

  /** `is_black_pawn_promotion`: Black, from a rank-2 square to a rank-1 square. */
  function IsBlackPawnPromotion(color: Color, from: bv64, to: bv64): (r: bool)
    ensures r <==> color == Black && P.SingleOnRank(from, 2) && P.SingleOnRank(to, 1)
  {
    P.InRowSquares(from, 2);
    P.InRowSquares(to, 1);
    color == Black && from in P.RowSquares(2) && to in P.RowSquares(1)
  }

  /** `is_pawn_promotion`: the last step of a pawn of either colour. */
  function IsPawnPromotion(color: Color, from: bv64, to: bv64): (r: bool)
    ensures r <==> ((color == White && P.SingleOnRank(from, 7) && P.SingleOnRank(to, 8))
                 || (color == Black && P.SingleOnRank(from, 2) && P.SingleOnRank(to, 1)))
  {
    IsBlackPawnPromotion(color, from, to) || IsWhitePawnPromotion(color, from, to)
  }

  /** `get_color_index`: the colour slot, 1 for White and 0 for Black. */
  function ColorIndex(color: Color): (i: nat)
    ensures i < 2
    ensures i == WHITE_IDX <==> color == White
  {
    match color
    case White => WHITE_IDX
    case Black => BLACK_IDX
  }

  /** `get_piece_type_index`: a slot in 2 ..= 7 for each kind, `usize::MAX` for Empty. */
  function PieceTypeIndex(pieceType: PieceType): (i: nat)
    ensures pieceType != Empty <==> 2 <= i <= 7
    ensures pieceType == Empty <==> i == USIZE_MAX
    ensures pieceType != Empty ==> i in PIECE_INDEXES
  {
    match pieceType
    case Bishop => BISHOPS_IDX
    case King => KINGS_IDX
    case Knight => KNIGHTS_IDX
    case Pawn => PAWNS_IDX
    case Queen => QUEENS_IDX
    case Rook => ROOKS_IDX
    case Empty => USIZE_MAX
  }

  /** `get_piece_type_from_index`: the kind of a piece slot, Empty for any other index. */
  function PieceTypeFromIndex(index: nat): (t: PieceType)
    ensures t != Empty <==> 2 <= index <= 7
  {
    match index
    case 2 => Bishop
    case 3 => King
    case 4 => Knight
    case 5 => Pawn
    case 6 => Queen
    case 7 => Rook
    case _ => Empty
  }

  /** Every real kind comes back from its slot. */
  lemma PieceTypeRoundTrip(pieceType: PieceType)
    requires pieceType != Empty
    ensures PieceTypeFromIndex(PieceTypeIndex(pieceType)) == pieceType
  {
  }

  /** Every piece slot comes back from its kind. */
  lemma PieceIndexRoundTrip(index: nat)
    requires 2 <= index <= 7
    ensures PieceTypeIndex(PieceTypeFromIndex(index)) == index
  {
  }

  /** A colour slot is never a piece slot, so the eight bitboards are eight different slots. */
  lemma ColorAndPieceSlotsDisjoint(color: Color, pieceType: PieceType)
    ensures ColorIndex(color) != PieceTypeIndex(pieceType)
  {
  }

  /** The slots of different kinds differ. */
  lemma PieceTypeIndexInjective(a: PieceType, b: PieceType)
    requires PieceTypeIndex(a) == PieceTypeIndex(b)
    ensures a == b
  {
  }

  /** `Side`: the side of the board a castle goes to. */
  datatype Side = KingSide | QueenSide

  /**
   * The four castling rights. Their numeric flag values live in a board type
   * that is not part of this model, so they stay symbolic here.
   */
  datatype CastlingRight = WhiteKingSide | WhiteQueenSide | BlackKingSide | BlackQueenSide

  /** `get_castling_right_flag`: the right of a colour on a side. */
  function CastlingRightFlag(color: Color, side: Side): (r: CastlingRight)
    ensures (r == WhiteKingSide || r == WhiteQueenSide) <==> color == White
    ensures (r == WhiteKingSide || r == BlackKingSide) <==> side == KingSide
  {
    match (color, side)
    case (White, KingSide) => WhiteKingSide
    case (White, QueenSide) => WhiteQueenSide
    case (Black, KingSide) => BlackKingSide
    case (Black, QueenSide) => BlackQueenSide
  }

  /** Every right is the flag of exactly one (colour, side) pair. */
  lemma CastlingRightFlagBijective(r: CastlingRight)
    ensures exists c: Color, s: Side :: CastlingRightFlag(c, s) == r
    ensures forall c: Color, s: Side, c': Color, s': Side ::
      CastlingRightFlag(c, s) == CastlingRightFlag(c', s') ==> c == c' && s == s'
  {
    match r
    case WhiteKingSide => assert CastlingRightFlag(White, KingSide) == r;
    case WhiteQueenSide => assert CastlingRightFlag(White, QueenSide) == r;
    case BlackKingSide => assert CastlingRightFlag(Black, KingSide) == r;
    case BlackQueenSide => assert CastlingRightFlag(Black, QueenSide) == r;
  }
}
