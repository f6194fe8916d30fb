// The bitboard engine's 16-bit move word: bits 0-5 hold the destination
// square, bits 6-11 the source square and bits 12-15 a move-kind flag.
// Squares here are numbered a1 = 0 .. h8 = 63.
module MoveCodec {
  import opened BitboardEnums
  import Decimal

  // The flag table of the move word.
  const NORMAL: bv16 := 0
  const DOUBLE_PAWN_PUSH: bv16 := 1
  const KING_CASTLE: bv16 := 2
  const QUEEN_CASTLE: bv16 := 3
  const CAPTURE: bv16 := 4
  const EN_PASSANT: bv16 := 5
  const KNIGHT_PROMOTION: bv16 := 8
  const BISHOP_PROMOTION: bv16 := 9
  const ROOK_PROMOTION: bv16 := 10
  const QUEEN_PROMOTION: bv16 := 11
  const KNIGHT_PROMOTION_CAPTURE: bv16 := 12
  const BISHOP_PROMOTION_CAPTURE: bv16 := 13
  const ROOK_PROMOTION_CAPTURE: bv16 := 14
  const QUEEN_PROMOTION_CAPTURE: bv16 := 15

  /** A move: the packed word, two en-passant bitboards, the mover's colour and kind. */
  datatype Move = Move(
    word: bv16,
    enPassantBbPosition: bv64,
    enPassantBbPieceSquare: bv64,
    color: Color,
    pieceType: PieceType)

  /**
   * Packs a move word. `from` and `to` are 64-bit `usize` values: they are
   * truncated to 16 bits and masked to 6; `flags` is masked to 4 bits.
   */
  function Pack(flags: bv16, from: bv64, to: bv64): (w: bv16)
  {
    ((flags & 0xf) << 12) | (((from & 0xffff) as bv16 & 0x3f) << 6) | ((to & 0xffff) as bv16 & 0x3f)
  }

  function WithFlags(flags: bv16, from: bv64, to: bv64, color: Color, pieceType: PieceType): (m: Move)
    ensures GetFlags(m) == flags & 0xf
    ensures m.enPassantBbPosition == 0 && m.enPassantBbPieceSquare == 0
    ensures m.color == color && m.pieceType == pieceType
  {
    PackFlags(flags, from, to);
    Move(Pack(flags, from, to), 0, 0, color, pieceType)
  }

  /** The source and destination fields of `with_flags` are the squares masked to 6 bits. */
  lemma WithFlagsFrom(flags: bv16, from: bv64, to: bv64, color: Color, pieceType: PieceType)
    ensures GetFrom(WithFlags(flags, from, to, color, pieceType)) == (from & 0x3f) as nat
  {
    PackFrom(flags, from, to);
  }

  lemma WithFlagsTo(flags: bv16, from: bv64, to: bv64, color: Color, pieceType: PieceType)
    ensures GetTo(WithFlags(flags, from, to, color, pieceType)) == (to & 0x3f) as nat
  {
    PackTo(flags, from, to);
  }

  function FromTo(from: bv64, to: bv64, color: Color, pieceType: PieceType): (m: Move)
    ensures GetFrom(m) == (from & 0x3f) as nat && GetTo(m) == (to & 0x3f) as nat
    ensures GetFlags(m) == NORMAL && IsNormal(m)
    ensures m.color == color && m.pieceType == pieceType
  {
    WithFlagsFrom(0, from, to, color, pieceType);
    WithFlagsTo(0, from, to, color, pieceType);
    WithFlags(0, from, to, color, pieceType)
  }

  /** For in-range squares and flags the three fields read back unchanged. */
  lemma WithFlagsRoundTrip(flags: bv16, from: bv64, to: bv64, color: Color, pieceType: PieceType)
    requires flags < 16 && from < 64 && to < 64
    ensures GetFlags(WithFlags(flags, from, to, color, pieceType)) == flags
    ensures GetFrom(WithFlags(flags, from, to, color, pieceType)) == from as nat
    ensures GetTo(WithFlags(flags, from, to, color, pieceType)) == to as nat
  {
    assert from & 0x3f == from && to & 0x3f == to;
    WithFlagsFrom(flags, from, to, color, pieceType);
    WithFlagsTo(flags, from, to, color, pieceType);
  }

  function AsU64(m: Move): (r: bv64)
    ensures r < 0x1_0000 && r as bv16 == m.word
  {
    m.word as bv64
  }

  function GetFlags(m: Move): (f: bv16)
    ensures f < 16 && f == m.word >> 12
  {
    (m.word >> 12) & 0x0f
  }

  function GetFrom(m: Move): (s: nat)
    ensures s < 64
  {
    ((m.word >> 6) & 0x3f) as nat
  }

  function GetTo(m: Move): (s: nat)
    ensures s < 64
  {
    (m.word & 0x3f) as nat
  }

  /** The three fields of a packed word read back as the masked inputs. */
  lemma PackFlags(flags: bv16, from: bv64, to: bv64)
    ensures (Pack(flags, from, to) >> 12) & 0x0f == flags & 0xf
  {
  }

  lemma PackFrom(flags: bv16, from: bv64, to: bv64)
    ensures ((Pack(flags, from, to) >> 6) & 0x3f) as nat == (from & 0x3f) as nat
  {
    assert (Pack(flags, from, to) >> 6) & 0x3f == (from & 0x3f) as bv16;
  }

  lemma PackTo(flags: bv16, from: bv64, to: bv64)
    ensures (Pack(flags, from, to) & 0x3f) as nat == (to & 0x3f) as nat
  {
    assert Pack(flags, from, to) & 0x3f == (to & 0x3f) as bv16;
  }

  /** Every word is the packing of its own three fields. */
  lemma PackUnpack(w: bv16)
    ensures Pack(w >> 12, ((w >> 6) & 0x3f) as bv64, (w & 0x3f) as bv64) == w
  {
  }

  /** Two in-range triples pack to the same word only if they are equal. */
  lemma PackInjective(f1: bv16, a1: bv64, b1: bv64, f2: bv16, a2: bv64, b2: bv64)
    requires f1 < 16 && a1 < 64 && b1 < 64 && f2 < 16 && a2 < 64 && b2 < 64
    ensures Pack(f1, a1, b1) == Pack(f2, a2, b2) <==> (f1 == f2 && a1 == a2 && b1 == b2)
  {
    if Pack(f1, a1, b1) == Pack(f2, a2, b2) {
      assert (Pack(f1, a1, b1) >> 6) & 0x3f == (a1 & 0x3f) as bv16;
      assert (Pack(f2, a2, b2) >> 6) & 0x3f == (a2 & 0x3f) as bv16;
      assert Pack(f1, a1, b1) & 0x3f == (b1 & 0x3f) as bv16;
      assert Pack(f2, a2, b2) & 0x3f == (b2 & 0x3f) as bv16;
    }
  }

  // One predicate per flag; each compares the whole top nibble.
  predicate IsNormal(m: Move) { (m.word >> 12) == NORMAL }
  predicate IsDoublePawnPush(m: Move) { (m.word >> 12) == DOUBLE_PAWN_PUSH }
  predicate IsKingCastle(m: Move) { (m.word >> 12) == KING_CASTLE }
  predicate IsQueenCastle(m: Move) { (m.word >> 12) == QUEEN_CASTLE }
  predicate IsCapture(m: Move) { (m.word >> 12) == CAPTURE }
  predicate IsEnPassant(m: Move) { (m.word >> 12) == EN_PASSANT }
  predicate IsKnightPromotion(m: Move) { (m.word >> 12) == KNIGHT_PROMOTION }
  predicate IsBishopPromotion(m: Move) { (m.word >> 12) == BISHOP_PROMOTION }
  predicate IsRookPromotion(m: Move) { (m.word >> 12) == ROOK_PROMOTION }
  predicate IsQueenPromotion(m: Move) { (m.word >> 12) == QUEEN_PROMOTION }
  predicate IsKnightPromoCapture(m: Move) { (m.word >> 12) == KNIGHT_PROMOTION_CAPTURE }
  predicate IsBishopPromoCapture(m: Move) { (m.word >> 12) == BISHOP_PROMOTION_CAPTURE }
  predicate IsRookPromoCapture(m: Move) { (m.word >> 12) == ROOK_PROMOTION_CAPTURE }
  predicate IsQueenPromoCapture(m: Move) { (m.word >> 12) == QUEEN_PROMOTION_CAPTURE }
  predicate IsPromoCapture(m: Move) { (m.word >> 12) >= KNIGHT_PROMOTION_CAPTURE }
  predicate IsPromotion(m: Move) { (m.word >> 12) >= KNIGHT_PROMOTION }

  /** The move kinds of the flag table, and Unknown for the two unused flags 6 and 7. */
  datatype MoveKind =
    | Normal | DoublePawnPush | KingCastle | QueenCastle | Capture | EnPassant
    | KnightPromotion | BishopPromotion | RookPromotion | QueenPromotion
    | KnightPromoCapture | BishopPromoCapture | RookPromoCapture | QueenPromoCapture
    | Unknown

  /** The kind a flag value denotes; 6, 7 and anything above 15 are Unknown. */
  function KindOfFlag(flag: bv16): (k: MoveKind)
    ensures k == Unknown <==> flag == 6 || flag == 7 || flag > 15
  {
    match flag
    case 0 => Normal
    case 1 => DoublePawnPush
    case 2 => KingCastle
    case 3 => QueenCastle
    case 4 => Capture
    case 5 => EnPassant
    case 8 => KnightPromotion
    case 9 => BishopPromotion
    case 10 => RookPromotion
    case 11 => QueenPromotion
    case 12 => KnightPromoCapture
    case 13 => BishopPromoCapture
    case 14 => RookPromoCapture
    case 15 => QueenPromoCapture
    case _ => Unknown
  }

  /** The kind a move's flag field denotes. */
  function Kind(m: Move): (k: MoveKind)
    ensures k == Unknown <==> GetFlags(m) == 6 || GetFlags(m) == 7
  {
    KindOfFlag(GetFlags(m))
  }

  /**
   * Each single-flag predicate holds exactly when the move has that predicate's
   * kind; since Kind is a function, at most one of them holds for any move, and
   * exactly one unless the flag is 6 or 7.
   */
  lemma FlagPredicatesExclusive(m: Move)
    ensures IsNormal(m) <==> Kind(m) == Normal
    ensures IsDoublePawnPush(m) <==> Kind(m) == DoublePawnPush
    ensures IsKingCastle(m) <==> Kind(m) == KingCastle
    ensures IsQueenCastle(m) <==> Kind(m) == QueenCastle
    ensures IsCapture(m) <==> Kind(m) == Capture
    ensures IsEnPassant(m) <==> Kind(m) == EnPassant
    ensures IsKnightPromotion(m) <==> Kind(m) == KnightPromotion
    ensures IsBishopPromotion(m) <==> Kind(m) == BishopPromotion
    ensures IsRookPromotion(m) <==> Kind(m) == RookPromotion
    ensures IsQueenPromotion(m) <==> Kind(m) == QueenPromotion
    ensures IsKnightPromoCapture(m) <==> Kind(m) == KnightPromoCapture
    ensures IsBishopPromoCapture(m) <==> Kind(m) == BishopPromoCapture
    ensures IsRookPromoCapture(m) <==> Kind(m) == RookPromoCapture
    ensures IsQueenPromoCapture(m) <==> Kind(m) == QueenPromoCapture
  {
  }

  /** The promotion predicates are flag ranges of the table. */
  lemma PromotionRanges(m: Move)
    ensures IsPromotion(m) <==> GetFlags(m) >= 8
    ensures IsPromoCapture(m) <==> GetFlags(m) >= 12
    ensures IsPromoCapture(m) ==> IsPromotion(m)
  {
  }

  /** Equality of moves compares all five fields. */
  function Eq(a: Move, b: Move): (r: bool)
    ensures r <==> a == b
  {
    a.word == b.word
      && a.enPassantBbPosition == b.enPassantBbPosition
      && a.enPassantBbPieceSquare == b.enPassantBbPieceSquare
      && a.color == b.color
      && a.pieceType == b.pieceType
  }

  function Ne(a: Move, b: Move): (r: bool)
    ensures r <==> !Eq(a, b)
  {
    a.word != b.word
      || a.enPassantBbPosition != b.enPassantBbPosition
      || a.enPassantBbPieceSquare != b.enPassantBbPieceSquare
      || a.color != b.color
      || a.pieceType != b.pieceType
  }

  function SetEnPassantBbPosition(m: Move, position: bv64): (r: Move)
    ensures r.enPassantBbPosition == position
    ensures r.word == m.word && r.enPassantBbPieceSquare == m.enPassantBbPieceSquare
    ensures r.color == m.color && r.pieceType == m.pieceType
  {
    m.(enPassantBbPosition := position)
  }

  function SetEnPassantBbPieceSquare(m: Move, square: bv64): (r: Move)
    ensures r.enPassantBbPieceSquare == square
    ensures r.word == m.word && r.enPassantBbPosition == m.enPassantBbPosition
    ensures r.color == m.color && r.pieceType == m.pieceType
  {
    m.(enPassantBbPieceSquare := square)
  }

  /** A square index as its file letter followed by the decimal rank (index / 8 + 1). */
  function DecodeSquare(index: bv16): (s: string)
    ensures |s| >= 2 && 'a' <= s[0] <= 'h' && (s[0] as int) - ('a' as int) == (index % 8) as int
    ensures s[1..] == Decimal.ToDecimal((index / 8) as int + 1)
    ensures index < 64 ==>
              |s| == 2 && '1' <= s[1] <= '8' && (s[1] as int) - ('1' as int) == (index / 8) as int
  {
    [('a' as int + ((index % 8) as int)) as char] + Decimal.ToDecimal((index / 8) as int + 1)
  }

  /** The promotion letter of a promotion flag, empty for any other flag. */
  function PromotionPiece(flags: bv16): (s: string)
    ensures flags == KNIGHT_PROMOTION || flags == KNIGHT_PROMOTION_CAPTURE <==> s == "n"
    ensures flags == BISHOP_PROMOTION || flags == BISHOP_PROMOTION_CAPTURE <==> s == "b"
    ensures flags == ROOK_PROMOTION || flags == ROOK_PROMOTION_CAPTURE <==> s == "r"
    ensures flags == QUEEN_PROMOTION || flags == QUEEN_PROMOTION_CAPTURE <==> s == "q"
    ensures s == "" <==> flags < 8 || flags > 15
  {
    match flags
    case 8 => "n"
    case 12 => "n"
    case 9 => "b"
    case 13 => "b"
    case 10 => "r"
    case 14 => "r"
    case 11 => "q"
    case 15 => "q"
    case _ => ""
  }

  /** Long algebraic text: source square, destination square, and a promotion letter. */
  function ToAlgebraicNotation(m: Move): (s: string)
    ensures |s| == 4 || |s| == 5
    ensures s[..2] == DecodeSquare((m.word >> 6) & 0x3f) && s[2..4] == DecodeSquare(m.word & 0x3f)
    ensures |s| == 5 <==> IsPromotion(m)
    ensures |s| == 5 ==> s[4] in "nbrq"
  {
    var fromSquare := DecodeSquare((m.word >> 6) & 0x3f);
    var toSquare := DecodeSquare(m.word & 0x3f);
    var moveFlags := (m.word >> 12) & 0xf;
    var promotion := if moveFlags >= KNIGHT_PROMOTION then PromotionPiece(moveFlags) else "";
    assert moveFlags == m.word >> 12;
    fromSquare + toSquare + promotion
  }
}
