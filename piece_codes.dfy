// `common/contants.rs` and `common/piece_utils.rs`: the array engine's piece
// codes. A code is a colour value (Black 8, White 16) ORed with a kind value
// (Empty 0, Bishop 1, King 2, Knight 3, Pawn 4, Queen 5, Rook 6); the two
// never share a bit, so the OR is a sum. The enumeration that holds those
// values is not part of this model; the values are the ones the web client
// mirrors.
module PieceCodes {
  import opened BitboardEnums

  const BLACK: nat := 8
  const WHITE: nat := 16

  /** `PieceType as u8`. */
  function KindValue(t: PieceType): (v: nat)
    ensures v < 8
    ensures v == 0 <==> t == Empty
  {
    match t
    case Empty => 0
    case Bishop => 1
    case King => 2
    case Knight => 3
    case Pawn => 4
    case Queen => 5
    case Rook => 6
  }

  /** `PieceColor as u8 | PieceType as u8`. */
  function Code(white: bool, t: PieceType): (code: nat)
  {
    (if white then WHITE else BLACK) + KindValue(t)
  }

  const EMPTY_PIECE: nat := 0

  const BLACK_BISHOP: nat := Code(false, Bishop)
  const BLACK_KING: nat := Code(false, King)
  const BLACK_KNIGHT: nat := Code(false, Knight)
  const BLACK_PAWN: nat := Code(false, Pawn)
  const BLACK_QUEEN: nat := Code(false, Queen)
  const BLACK_ROOK: nat := Code(false, Rook)
  const WHITE_BISHOP: nat := Code(true, Bishop)
  const WHITE_KING: nat := Code(true, King)
  const WHITE_KNIGHT: nat := Code(true, Knight)
  const WHITE_PAWN: nat := Code(true, Pawn)
  const WHITE_QUEEN: nat := Code(true, Queen)
  const WHITE_ROOK: nat := Code(true, Rook)

  /** `WHITE_LOWER_BOUND` and `WHITE_UPPER_BOUND`: White bishop and White rook. */
  const WHITE_LOWER_BOUND: nat := WHITE_BISHOP
  const WHITE_UPPER_BOUND: nat := WHITE_ROOK

  /** The twelve codes of real pieces. */
  predicate IsPiece(code: nat)
  {
    exists white: bool, t: PieceType :: t != Empty && code == Code(white, t)
  }

  /** `get_piece_type`: the kind of a code, whatever its colour; Empty and unknown codes give Empty. */
  function GetPieceType(pieceValue: nat): (t: PieceType)
    ensures t != Empty <==> (9 <= pieceValue <= 14 || 17 <= pieceValue <= 22)
  {
    match pieceValue
    case 9 => Bishop
    case 17 => Bishop
    case 10 => King
    case 18 => King
    case 11 => Knight
    case 19 => Knight
    case 12 => Pawn
    case 20 => Pawn
    case 13 => Queen
    case 21 => Queen
    case 14 => Rook
    case 22 => Rook
    case _ => Empty
  }

  /** Both colours of a kind map back to that kind, and `Empty` of either colour to Empty. */
  lemma GetPieceTypeOfCode(white: bool, t: PieceType)
    ensures GetPieceType(Code(white, t)) == t
  {
  }

  /** A code has a kind exactly when it is one of the twelve piece codes. */
  lemma GetPieceTypeOnlyPieces(code: nat)
    ensures GetPieceType(code) != Empty <==> IsPiece(code)
  {
    if GetPieceType(code) != Empty {
      var white := code >= WHITE;
      assert code == Code(white, GetPieceType(code));
    }
  }

  /** `is_piece_of_type`. */
  predicate IsPieceOfType(piece: nat, pieceType: PieceType)
  {
    GetPieceType(piece) == pieceType
  }

  /** A real kind is matched by exactly its two codes. */
  lemma IsPieceOfTypeCodes(piece: nat, pieceType: PieceType)
    requires pieceType != Empty
    ensures IsPieceOfType(piece, pieceType) <==> piece == Code(true, pieceType) || piece == Code(false, pieceType)
  {
  }

  /** The worth of each kind, in centipawns (the `*_WORTH` constants, whole numbers). */
  function KindWorth(t: PieceType): (w: int)
    ensures w >= 0 && (w == 0 <==> t == Empty)
  {
    match t
    case Bishop => 300
    case King => 20000
    case Knight => 300
    case Pawn => 100
    case Queen => 900
    case Rook => 500
    case Empty => 0
  }

  /** `get_piece_worth`. */
  function GetPieceWorth(pieceValue: nat): (w: int)
  {
    match pieceValue
    case 9 => 300
    case 17 => 300
    case 10 => 20000
    case 18 => 20000
    case 11 => 300
    case 19 => 300
    case 12 => 100
    case 20 => 100
    case 13 => 900
    case 21 => 900
    case 14 => 500
    case 22 => 500
    case _ => 0
  }

  /** A code is worth what its kind is worth: the same for both colours, nothing for a non-piece. */
  lemma WorthIsKindWorth(pieceValue: nat)
    ensures GetPieceWorth(pieceValue) == KindWorth(GetPieceType(pieceValue))
  {
  }

  /** `is_white_piece`: the code lies in White bishop ..= White rook. */
  predicate IsWhitePiece(pieceValue: nat)
  {
    WHITE_LOWER_BOUND <= pieceValue <= WHITE_UPPER_BOUND
  }

  /** Exactly the White piece codes are white; `White | Empty` (16) and every Black code are not. */
  lemma IsWhitePieceCodes(white: bool, t: PieceType)
    ensures IsWhitePiece(Code(white, t)) <==> white && t != Empty
  {
  }

  /** `is_same_color`: both white or both not white. */
  predicate IsSameColor(piece1: nat, piece2: nat)
  {
    IsWhitePiece(piece1) == IsWhitePiece(piece2)
  }

  /** `is_same_color` is an equivalence; the empty code counts with Black. */
  lemma IsSameColorEquivalence(a: nat, b: nat, c: nat)
    ensures IsSameColor(a, a)
    ensures IsSameColor(a, b) ==> IsSameColor(b, a)
    ensures IsSameColor(a, b) && IsSameColor(b, c) ==> IsSameColor(a, c)
    ensures IsSameColor(EMPTY_PIECE, BLACK_PAWN) && !IsSameColor(EMPTY_PIECE, WHITE_PAWN)
  {
  }

  /** `get_promotion_options`: the bishop, knight, queen and rook of the requested colour. */
  function GetPromotionOptions(white: bool): (r: seq<nat>)
    ensures |r| == 4
    ensures forall i :: 0 <= i < 4 ==> IsWhitePiece(r[i]) == white
    ensures r[0] != r[1] && r[0] != r[2] && r[0] != r[3] && r[1] != r[2] && r[1] != r[3] && r[2] != r[3]
  {
    if !white then [BLACK_BISHOP, BLACK_KNIGHT, BLACK_QUEEN, BLACK_ROOK]
    else [WHITE_BISHOP, WHITE_KNIGHT, WHITE_QUEEN, WHITE_ROOK]
  }

  /** The options are, in order, the bishop, knight, queen and rook codes of that colour. */
  lemma PromotionOptionKinds(white: bool)
    ensures forall i :: 0 <= i < 4 ==> GetPromotionOptions(white)[i] == Code(white, [Bishop, Knight, Queen, Rook][i])
  {
  }
}
