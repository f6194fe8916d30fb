// Promotion flags by piece letter, and the piece a promotion flag promotes to.
module PromotionFlags {
  import opened BitboardEnums
  import opened MoveCodec

  /**
   * `get_promotion_flag_from_symbol`: the (promotion, promotion-capture)
   * flag pair of a promotion letter in either case, (0, 0) for any other
   * character.
   */
  function PromotionFlagsFromSymbol(symbol: char): (r: (bv16, bv16))
    ensures symbol in "bBnNqQrR" ==> 8 <= r.0 <= 11 && r.1 == r.0 + 4
    ensures symbol !in "bBnNqQrR" ==> r == (0, 0)
  {
    match symbol
    case 'b' => (BISHOP_PROMOTION, BISHOP_PROMOTION_CAPTURE)
    case 'B' => (BISHOP_PROMOTION, BISHOP_PROMOTION_CAPTURE)
    case 'n' => (KNIGHT_PROMOTION, KNIGHT_PROMOTION_CAPTURE)
    case 'N' => (KNIGHT_PROMOTION, KNIGHT_PROMOTION_CAPTURE)
    case 'q' => (QUEEN_PROMOTION, QUEEN_PROMOTION_CAPTURE)
    case 'Q' => (QUEEN_PROMOTION, QUEEN_PROMOTION_CAPTURE)
    case 'r' => (ROOK_PROMOTION, ROOK_PROMOTION_CAPTURE)
    case 'R' => (ROOK_PROMOTION, ROOK_PROMOTION_CAPTURE)
    case _ => (0, 0)
  }

  /**
   * `get_piece_type_from_promotion_flag`: a promotion flag and its capture
   * variant give the same piece; every other flag gives Empty.
   */
  function PieceTypeFromPromotionFlag(flag: bv16): (t: PieceType)
    ensures t == Empty <==> flag < 8 || flag > 15
    ensures t != Pawn && t != King
  {
    match flag
    case 8 => Knight
    case 12 => Knight
    case 9 => Bishop
    case 13 => Bishop
    case 10 => Rook
    case 14 => Rook
    case 11 => Queen
    case 15 => Queen
    case _ => Empty
  }

  /** A promotion flag and its capture variant (four apart) name the same piece. */
  lemma CaptureVariantSamePiece(flag: bv16)
    requires 8 <= flag <= 11
    ensures PieceTypeFromPromotionFlag(flag) == PieceTypeFromPromotionFlag(flag + 4) != Empty
  {
  }

  /** The piece a promotion letter names. */
  function LetterPiece(symbol: char): PieceType
  {
    match symbol
    case 'b' => Bishop
    case 'B' => Bishop
    case 'n' => Knight
    case 'N' => Knight
    case 'q' => Queen
    case 'Q' => Queen
    case 'r' => Rook
    case 'R' => Rook
    case _ => Empty
  }

  /** Both flags of a letter map back to the piece that letter names; a non-letter maps to Empty. */
  lemma PromotionFlagsRoundTrip(symbol: char)
    ensures PieceTypeFromPromotionFlag(PromotionFlagsFromSymbol(symbol).0) == LetterPiece(symbol)
    ensures PieceTypeFromPromotionFlag(PromotionFlagsFromSymbol(symbol).1) == LetterPiece(symbol)
  {
  }

  /** The promotion letter printed for a flag reads back as the same flags' piece. */
  lemma PromotionPieceAgrees(flag: bv16)
    requires 8 <= flag <= 15
    ensures |PromotionPiece(flag)| == 1
    ensures PieceTypeFromPromotionFlag(PromotionFlagsFromSymbol(PromotionPiece(flag)[0]).0) == PieceTypeFromPromotionFlag(flag)
  {
  }
}
