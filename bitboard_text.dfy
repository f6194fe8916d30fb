// Square <-> algebraic text and piece letters of the bitboard engine.
// A `None` result stands for the panic the engine raises (an `unwrap` of a
// missing character or non-digit, or a `u16` subtraction below zero).
module BitboardText {
  import opened Wrappers
  import opened BitboardEnums
  import P = Positions

  /** The code a `char as u16` cast keeps: the low 16 bits of the scalar value. */
  function U16Code(c: char): (n: nat)
    ensures n < 0x1_0000
  {
    (c as int) % 0x1_0000
  }

  /**
   * `algebraic_to_square`: file letter then rank digit; any text after the
   * second character is ignored.
   */
  function AlgebraicToSquare(algebraic: string): (r: Option<nat>)
    ensures |algebraic| < 2 ==> r == None
    ensures r.Some? ==> '1' <= algebraic[1] <= '9' && U16Code(algebraic[0]) >= 'a' as int
    ensures r.Some? ==> r.value == (algebraic[1] as int - '1' as int) * 8 + (U16Code(algebraic[0]) - 'a' as int)
    ensures |algebraic| >= 2 && 'a' <= algebraic[0] <= 'h' && '1' <= algebraic[1] <= '8' ==>
      r.Some? && r.value < 64 && r.value % 8 == algebraic[0] as int - 'a' as int && r.value / 8 == algebraic[1] as int - '1' as int
  {
    if |algebraic| < 2 then None
    else
      var code := U16Code(algebraic[0]);
      if code < 'a' as int then None
      else if !('0' <= algebraic[1] <= '9') then None
      else
        var digit := algebraic[1] as int - '0' as int;
        if digit == 0 then None
        else
          // At most 8 * 8 + (0xffff - 'a'): the `u16` sum cannot overflow.
          Some((digit - 1) * 8 + (code - 'a' as int))
  }

  /**
   * `square_to_algebraic`: file letter 'a' + square % 8 and rank character
   * '1' + square / 8. The rank is cast to a byte first; the requires stands
   * for the debug-build panic when the byte sum overflows.
   */
  function SquareToAlgebraic(square: nat): (s: string)
    requires (square / 8) % 256 <= 255 - '1' as int
    ensures |s| == 2
    ensures s[0] as int == 'a' as int + square % 8
    ensures square < 64 ==> s[1] as int == '1' as int + square / 8 && '1' <= s[1] <= '8' && 'a' <= s[0] <= 'h'
  {
    var file := square % 8;
    var rank := (square / 8) % 256;
    [('a' as int + file) as char, ('1' as int + rank) as char]
  }

  /** Naming a board square and reading the name back gives the square. */
  lemma AlgebraicRoundTrip(square: nat)
    requires square < 64
    ensures AlgebraicToSquare(SquareToAlgebraic(square)) == Some(square)
  {
    var s := SquareToAlgebraic(square);
    assert square == (square / 8) * 8 + square % 8;
  }

  /** Reading a well-formed name and naming the square gives the name back. */
  lemma SquareNameRoundTrip(name: string)
    requires |name| == 2 && 'a' <= name[0] <= 'h' && '1' <= name[1] <= '8'
    ensures AlgebraicToSquare(name).Some? && SquareToAlgebraic(AlgebraicToSquare(name).value) == name
  {
  }

  /** `get_piece_letter`: upper case for White, lower case for Black, "." for Empty. */
  function PieceLetter(color: Color, pieceType: PieceType): (s: string)
    ensures |s| == 1
    ensures pieceType == Empty <==> s == "."
    ensures pieceType != Empty && color == White ==> 'A' <= s[0] <= 'Z'
    ensures pieceType != Empty && color == Black ==> 'a' <= s[0] <= 'z'
  {
    match (color, pieceType)
    case (Black, Bishop) => "b"
    case (Black, King) => "k"
    case (Black, Knight) => "n"
    case (Black, Pawn) => "p"
    case (Black, Queen) => "q"
    case (Black, Rook) => "r"
    case (White, Bishop) => "B"
    case (White, King) => "K"
    case (White, Knight) => "N"
    case (White, Pawn) => "P"
    case (White, Queen) => "Q"
    case (White, Rook) => "R"
    case _ => "."
  }

  /** `get_piece_symbol`: the chess figurine of the piece, "." for Empty. */
  function PieceSymbol(color: Color, pieceType: PieceType): (s: string)
    ensures |s| == 1
    ensures pieceType == Empty <==> s == "."
    ensures pieceType != Empty && color == White ==> '\U{2654}' <= s[0] <= '\U{2659}'
    ensures pieceType != Empty && color == Black ==> '\U{265A}' <= s[0] <= '\U{265F}'
  {
    match (color, pieceType)
    case (Black, Bishop) => "\U{265D}"
    case (Black, King) => "\U{265A}"
    case (Black, Knight) => "\U{265E}"
    case (Black, Pawn) => "\U{265F}"
    case (Black, Queen) => "\U{265B}"
    case (Black, Rook) => "\U{265C}"
    case (White, Bishop) => "\U{2657}"
    case (White, King) => "\U{2654}"
    case (White, Knight) => "\U{2658}"
    case (White, Pawn) => "\U{2659}"
    case (White, Queen) => "\U{2655}"
    case (White, Rook) => "\U{2656}"
    case _ => "."
  }

  /** `get_piece_color_and_type_from_symbol`; any other character is (Black, Empty). */
  function PieceFromLetter(symbol: char): (r: (Color, PieceType))
    ensures r.1 == Empty ==> r.0 == Black
    ensures r.1 != Empty ==> (r.0 == White <==> 'A' <= symbol <= 'Z')
  {
    match symbol
    case 'b' => (Black, Bishop)
    case 'k' => (Black, King)
    case 'n' => (Black, Knight)
    case 'p' => (Black, Pawn)
    case 'q' => (Black, Queen)
    case 'r' => (Black, Rook)
    case 'B' => (White, Bishop)
    case 'K' => (White, King)
    case 'N' => (White, Knight)
    case 'P' => (White, Pawn)
    case 'Q' => (White, Queen)
    case 'R' => (White, Rook)
    case _ => (Black, Empty)
  }

  /** Reading back the letter of any of the twelve pieces gives the piece. */
  lemma PieceLetterRoundTrip(color: Color, pieceType: PieceType)
    requires pieceType != Empty
    ensures PieceFromLetter(PieceLetter(color, pieceType)[0]) == (color, pieceType)
  {
  }

  /** Hence the twelve letters are pairwise distinct. */
  lemma PieceLettersDistinct(c1: Color, t1: PieceType, c2: Color, t2: PieceType)
    requires t1 != Empty && t2 != Empty && (c1, t1) != (c2, t2)
    ensures PieceLetter(c1, t1) != PieceLetter(c2, t2)
  {
    PieceLetterRoundTrip(c1, t1);
    PieceLetterRoundTrip(c2, t2);
  }

  /** A character that is no piece letter decodes to (Black, Empty). */
  lemma UnknownLetter(symbol: char)
    requires symbol !in "bknpqrBKNPQR"
    ensures PieceFromLetter(symbol) == (Black, Empty)
  {
  }

  /**
   * `is_pawn_in_initial_position`: the position is one of the rank-2
   * squares for White, one of the rank-7 squares for Black.
   */
  function IsPawnInInitialPosition(position: bv64, white: bool): (r: bool)
    ensures r <==> (white && P.SingleOnRank(position, 2)) || (!white && P.SingleOnRank(position, 7))
  {
    P.InRowSquares(position, 2);
    P.InRowSquares(position, 7);
    (position in P.RowSquares(2) && white) || (position in P.RowSquares(7) && !white)
  }
}
