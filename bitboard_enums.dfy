// The bitboard engine's colour and piece-kind enumerations.
module BitboardEnums {
  datatype Color = Black | White

  datatype PieceType = Pawn | Knight | Bishop | Rook | Queen | King | Empty

  function Opponent(c: Color): (o: Color)
    ensures o != c
  {
    if c == White then Black else White
  }
}
