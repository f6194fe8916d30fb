// `zobrist/zobrist_utils.rs`: the column of the Zobrist key table that holds
// the keys of a (colour, piece kind) pair.
module ZobristIndex {
  import opened BitboardEnums

  /** The rank of a real piece kind inside its colour's block (bishop, king, knight, pawn, queen, rook). */
  function KindOffset(pieceType: PieceType): (k: nat)
    requires pieceType != Empty
    ensures k < 6
  {
    match pieceType
    case Bishop => 0
    case King => 1
    case Knight => 2
    case Pawn => 3
    case Queen => 4
    case Rook => 5
  }

  /** `get_piece_index`: 0 ..= 5 for White's pieces, 6 ..= 11 for Black's, 100 for Empty. */
  function PieceIndex(color: Color, pieceType: PieceType): (i: nat)
    ensures pieceType == Empty <==> i == 100
    ensures pieceType != Empty ==> i < 12 && (i < 6 <==> color == White)
  {
    if color == White then
      match pieceType
      case Bishop => 0
      case King => 1
      case Knight => 2
      case Pawn => 3
      case Queen => 4
      case Rook => 5
      case Empty => 100
    else
      match pieceType
      case Bishop => 6
      case King => 7
      case Knight => 8
      case Pawn => 9
      case Queen => 10
      case Rook => 11
      case Empty => 100
  }

  /** Black's column of a kind is six past White's column of the same kind. */
  lemma BlackIsWhitePlusSix(pieceType: PieceType)
    requires pieceType != Empty
    ensures PieceIndex(Black, pieceType) == PieceIndex(White, pieceType) + 6
    ensures PieceIndex(White, pieceType) == KindOffset(pieceType)
  {
  }

  /** The twelve real pieces get twelve different columns. */
  lemma PieceIndexInjective(c1: Color, t1: PieceType, c2: Color, t2: PieceType)
    requires t1 != Empty && t2 != Empty
    requires PieceIndex(c1, t1) == PieceIndex(c2, t2)
    ensures c1 == c2 && t1 == t2
  {
  }

  /** Every column 0 ..= 11 belongs to some piece. */
  lemma PieceIndexOnto(i: nat)
    requires i < 12
    ensures exists c: Color, t: PieceType :: t != Empty && PieceIndex(c, t) == i
  {
    var c := if i < 6 then White else Black;
    var t := match i % 6 case 0 => Bishop case 1 => King case 2 => Knight case 3 => Pawn case 4 => Queen case _ => Rook;
    assert PieceIndex(c, t) == i;
  }
}
