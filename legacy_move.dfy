// The older bitboard move: the same 16-bit packing as `MoveCodec`, two
// en-passant bitboards, no colour or piece kind, and a textual rendering.
module LegacyMove {
  import MoveCodec
  import BitboardEnums
  import Decimal
  import Positions

  datatype Move = Move(word: bv16, enPassantBbPosition: bv64, enPassantBbPieceSquare: bv64)

  function WithFlags(flags: bv16, from: bv64, to: bv64): (m: Move)
    ensures GetFrom(m) == (from & 0x3f) as nat && GetTo(m) == (to & 0x3f) as nat
    ensures GetFlags(m) == flags & 0xf
    ensures m.enPassantBbPosition == 0 && m.enPassantBbPieceSquare == 0
  {
    PackedFields(flags, from, to);
    Move(MoveCodec.Pack(flags, from, to), 0, 0)
  }

  /** The three fields of a packed word are the inputs cut to their widths. */
  lemma PackedFields(flags: bv16, from: bv64, to: bv64)
    ensures var m := Move(MoveCodec.Pack(flags, from, to), 0, 0);
      GetFrom(m) == (from & 0x3f) as nat && GetTo(m) == (to & 0x3f) as nat && GetFlags(m) == flags & 0xf
  {
    MoveCodec.PackFlags(flags, from, to);
    MoveCodec.PackFrom(flags, from, to);
    MoveCodec.PackTo(flags, from, to);
  }

  function FromTo(from: bv64, to: bv64): (m: Move)
    ensures GetFlags(m) == MoveCodec.NORMAL && Kind(m) == MoveCodec.Normal
    ensures GetFrom(m) == (from & 0x3f) as nat && GetTo(m) == (to & 0x3f) as nat
  {
    WithFlags(0, from, to)
  }

  /** For in-range inputs the three fields read back unchanged. */
  lemma WithFlagsRoundTrip(flags: bv16, from: bv64, to: bv64)
    requires flags < 16 && from < 64 && to < 64
    ensures GetFlags(WithFlags(flags, from, to)) == flags
    ensures GetFrom(WithFlags(flags, from, to)) == from as nat
    ensures GetTo(WithFlags(flags, from, to)) == to as nat
  {
    assert from & 0x3f == from && to & 0x3f == to;
  }

  function AsU64(m: Move): (r: bv64)
    ensures r < 0x1_0000 && r as bv16 == m.word
  {
    m.word as bv64
  }

  function GetFlags(m: Move): (f: bv16)
    ensures f < 16 && f == m.word >> 12
  {
    (m.word >> 12) & 0x0f
  }

  function GetFrom(m: Move): (s: nat)
    ensures s < 64
  {
    ((m.word >> 6) & 0x3f) as nat
  }

  function GetTo(m: Move): (s: nat)
    ensures s < 64
  {
    (m.word & 0x3f) as nat
  }

  /**
   * The `is_*` predicates compare the whole top nibble with one flag: each
   * holds for exactly the flag of its kind, so at most one holds.
   */
  function Kind(m: Move): (k: MoveCodec.MoveKind)
    ensures k == MoveCodec.Unknown <==> m.word >> 12 == 6 || m.word >> 12 == 7
  {
    MoveCodec.KindOfFlag(m.word >> 12)
  }

  /** Equality compares the word and both en-passant fields. */
  function Eq(a: Move, b: Move): (r: bool)
    ensures r <==> a == b
  {
    a.word == b.word
      && a.enPassantBbPosition == b.enPassantBbPosition
      && a.enPassantBbPieceSquare == b.enPassantBbPieceSquare
  }

  function Ne(a: Move, b: Move): (r: bool)
    ensures r <==> !Eq(a, b)
  {
    a.word != b.word
      || a.enPassantBbPosition != b.enPassantBbPosition
      || a.enPassantBbPieceSquare != b.enPassantBbPieceSquare
  }

  function SetEnPassantBbPosition(m: Move, position: bv64): (r: Move)
    ensures r.enPassantBbPosition == position
    ensures r.word == m.word && r.enPassantBbPieceSquare == m.enPassantBbPieceSquare
  {
    m.(enPassantBbPosition := position)
  }

  function SetEnPassantBbPieceSquare(m: Move, square: bv64): (r: Move)
    ensures r.enPassantBbPieceSquare == square
    ensures r.word == m.word && r.enPassantBbPosition == m.enPassantBbPosition
  {
    m.(enPassantBbPieceSquare := square)
  }

  /** The flag names of `Display`; the two unused flags are "UNKNOWN FLAG". */
  function FlagName(k: MoveCodec.MoveKind): (s: string)
    ensures s == "UNKNOWN FLAG" <==> k == MoveCodec.Unknown
  {
    match k
    case Normal => "NORMAL"
    case DoublePawnPush => "DOUBLE_PAWN_PUSH"
    case KingCastle => "KING_CASTLE"
    case QueenCastle => "QUEEN_CASTLE"
    case Capture => "CAPTURE"
    case EnPassant => "EN_PASSANT"
    case KnightPromotion => "KNIGHT_PROMOTION"
    case BishopPromotion => "BISHOP_PROMOTION"
    case RookPromotion => "ROOK_PROMOTION"
    case QueenPromotion => "QUEEN_PROMOTION"
    case KnightPromoCapture => "KNIGHT_PROMO_CAPTURE"
    case BishopPromoCapture => "BISHOP_PROMO_CAPTURE"
    case RookPromoCapture => "ROOK_PROMO_CAPTURE"
    case QueenPromoCapture => "QUEEN_PROMO_CAPTURE"
    case Unknown => "UNKNOWN FLAG"
  }

  /** Distinct kinds have distinct names. */
  lemma FlagNamesDistinct(a: MoveCodec.MoveKind, b: MoveCodec.MoveKind)
    requires a != b
    ensures FlagName(a) != FlagName(b)
  {
  }

  /** The text `Display` writes before the en-passant position's digits. */
  function DisplayHead(m: Move): string
  {
    Positions.SquareName(GetFrom(m)) + " -> " + Positions.SquareName(GetTo(m)) + " | "
      + FlagName(Kind(m)) + " | ep_position: "
  }

  /**
   * `Display`: "<from> -> <to> | <flag> | ep_position: <n> | ep_square: <n>";
   * the text starts with the named squares and the flag name and ends with
   * the en-passant square's decimal digits.
   */
  function Display(m: Move): (s: string)
    ensures |s| > |DisplayHead(m)| && s[..|DisplayHead(m)|] == DisplayHead(m)
    ensures
      var digits := Decimal.ToDecimal(m.enPassantBbPieceSquare as nat);
      |s| > |digits| && s[|s| - |digits|..] == digits
  {
    var head := DisplayHead(m);
    var middle := Decimal.ToDecimal(m.enPassantBbPosition as nat) + " | ep_square: ";
    var digits := Decimal.ToDecimal(m.enPassantBbPieceSquare as nat);
    ConcatEnds(head, middle, digits);
    head + (middle + digits)
  }

  lemma ConcatEnds(a: string, b: string, c: string)
    ensures (a + (b + c))[..|a|] == a && (a + (b + c))[|a + (b + c)| - |c|..] == c
  {
  }

  /**
   * The module's unit tests: `from_to(12, 28)` reads back 12, 28 and no
   * flags, and is a normal move; `with_flags(KING_CASTLE, 4, 6)` reads back
   * 4, 6 and `KING_CASTLE`.
   */
  lemma WithFlagsExamples()
    ensures GetFrom(FromTo(12, 28)) == 12 && GetTo(FromTo(12, 28)) == 28 && GetFlags(FromTo(12, 28)) == 0
    ensures Kind(FromTo(12, 28)) == MoveCodec.Normal
    ensures GetFrom(WithFlags(MoveCodec.KING_CASTLE, 4, 6)) == 4
    ensures GetTo(WithFlags(MoveCodec.KING_CASTLE, 4, 6)) == 6
    ensures GetFlags(WithFlags(MoveCodec.KING_CASTLE, 4, 6)) == MoveCodec.KING_CASTLE
  {
    WithFlagsRoundTrip(0, 12, 28);
    WithFlagsRoundTrip(MoveCodec.KING_CASTLE, 4, 6);
  }
}
