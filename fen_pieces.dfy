// `common/fen_utils.rs`: FEN piece letters and the array engine's piece
// codes. Upper case is White, lower case Black; letters are ASCII here.
module FenPieces {
  import opened BitboardEnums
  import opened PieceCodes

  predicate IsUpper(c: char)
  {
    'A' <= c <= 'Z'
  }

  /** `to_lowercase` on an ASCII letter; other characters are left as they are. */
  function ToLower(c: char): (l: char)
    ensures !IsUpper(l)
  {
    if IsUpper(c) then (c as int + 32) as char else c
  }

  /** `get_fen_piece_value`: the colour from the case, the kind from the lower-case letter. */
  function GetFenPieceValue(pieceFen: char): (code: nat)
    ensures code == BLACK + KindValue(GetPieceType(code) ) || code == WHITE + KindValue(GetPieceType(code))
  {
    var white := IsUpper(pieceFen);
    var kind := match ToLower(pieceFen)
      case 'b' => Bishop
      case 'k' => King
      case 'n' => Knight
      case 'p' => Pawn
      case 'q' => Queen
      case 'r' => Rook
      case _ => Empty;
    Code(white, kind)
  }

  /** `get_piece_fen`: the letter of each of the twelve piece codes, '-' for anything else. */
  function GetPieceFen(pieceValue: nat): (c: char)
  {
    match pieceValue
    case 17 => 'B'
    case 18 => 'K'
    case 19 => 'N'
    case 20 => 'P'
    case 21 => 'Q'
    case 22 => 'R'
    case 9 => 'b'
    case 10 => 'k'
    case 11 => 'n'
    case 12 => 'p'
    case 13 => 'q'
    case 14 => 'r'
    case _ => '-'
  }

  /** The twelve FEN piece letters. */
  predicate IsPieceLetter(c: char)
  {
    c in "BKNPQRbknpqr"
  }

  /** A piece letter read and written back is the same letter, with its case giving the colour. */
  lemma LetterRoundTrip(c: char)
    requires IsPieceLetter(c)
    ensures GetPieceFen(GetFenPieceValue(c)) == c
    ensures IsWhitePiece(GetFenPieceValue(c)) <==> IsUpper(c)
  {
  }

  /** A piece code written and read back is the same code. */
  lemma CodeRoundTrip(white: bool, t: PieceType)
    requires t != Empty
    ensures GetFenPieceValue(GetPieceFen(Code(white, t))) == Code(white, t)
  {
  }

  /**
   * Any other character reads as its colour with kind Empty (16 for upper
   * case, 8 otherwise), never as the empty code 0, and writes back as '-'.
   */
  lemma UnknownLetter(c: char)
    requires !IsPieceLetter(c)
    ensures GetPieceType(GetFenPieceValue(c)) == Empty
    ensures GetFenPieceValue(c) == (if IsUpper(c) then WHITE else BLACK)
    ensures GetFenPieceValue(c) != EMPTY_PIECE
    ensures GetPieceFen(GetFenPieceValue(c)) == '-'
  {
  }

  /** `get_piece_fen` gives a letter exactly for the twelve piece codes. */
  lemma PieceFenOnlyPieces(code: nat)
    ensures GetPieceFen(code) != '-' <==> GetPieceType(code) != Empty
    ensures GetPieceFen(code) != '-' ==> IsPieceLetter(GetPieceFen(code))
  {
  }

  /** `translate_pieces_to_fen`: each code's letter, in order. */
  function TranslatePiecesToFen(pieces: seq<nat>): (fen: seq<char>)
    ensures |fen| == |pieces|
    ensures forall i :: 0 <= i < |pieces| ==> fen[i] == GetPieceFen(pieces[i])
  {
    if pieces == [] then [] else [GetPieceFen(pieces[0])] + TranslatePiecesToFen(pieces[1..])
  }
}
