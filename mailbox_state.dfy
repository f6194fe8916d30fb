// `game/board_state.rs` as values: a `State` is a snapshot of one
// `BoardState` (what `clone` copies), and each operation that changes a
// board state is a function from the old snapshot to the new one. The class
// in `MailboxBoardState` runs the same operations in place and is proved to
// follow these functions.
//
// Squares are numbered a8 = 0 .. h1 = 63. The hash is the `Zobrist` word of
// the state, a set of bit positions as in `BitSets`.
module MailboxState {
  import opened BitSets
  import BitZobrist
  import MZ = MailboxZobrist
  import opened PieceCodes
  import opened BitboardEnums

  const INVALID_BOARD_POSITION: int := MZ.INVALID_BOARD_POSITION
  const BLACK_KING_INITIAL_POSITION: int := 4
  const WHITE_KING_INITIAL_POSITION: int := 60

  /**
   * The Zobrist tables a state is hashed with: the keys, and the key column
   * of each piece code (`get_piece_index`, whose file is not part of this
   * model).
   */
  datatype Hashing = Hashing(keys: MZ.Keys, pieceIndex: int -> int)

  /** 64 rows of 12 keys, and a column for every code. */
  ghost predicate Ready(h: Hashing)
  {
    BitZobrist.WellFormed(h.keys) && forall code :: 0 <= h.pieceIndex(code) < 12
  }

  /** The fields of `BoardState`; `hash` is the word its `Zobrist` holds. */
  datatype State = State(
    blackKingSideCastle: bool,
    blackQueenSideCastle: bool,
    blackCaptures: seq<nat>,
    blackEnPassant: int,
    blackKingInCheck: bool,
    blackKingMoved: bool,
    blackKingPosition: int,
    fullMoves: nat,
    halfMoves: nat,
    whiteMove: bool,
    squares: seq<nat>,
    whiteKingSideCastle: bool,
    whiteQueenSideCastle: bool,
    whiteCaptures: seq<nat>,
    whiteEnPassant: int,
    whiteKingInCheck: bool,
    whiteKingMoved: bool,
    whiteKingPosition: int,
    winner: nat,
    hash: Bits)

  /** What `compute_hash` reads of a state. */
  function Position(s: State): MZ.Position
  {
    MZ.Position(s.whiteMove, s.blackKingSideCastle, s.blackQueenSideCastle, s.blackEnPassant,
                s.whiteKingSideCastle, s.whiteQueenSideCastle, s.whiteEnPassant, s.squares)
  }

  lemma ReadySquares(h: Hashing, squares: seq<int>)
    requires Ready(h) && |squares| == 64
    ensures MZ.HashableSquares(h.pieceIndex, squares)
  {
  }

  /** The stored hash is the one `compute_hash` would compute for the state. */
  ghost predicate HashAgrees(h: Hashing, s: State)
  {
    BitZobrist.WellFormed(h.keys) && MZ.HashableSquares(h.pieceIndex, s.squares)
    && s.hash == MZ.PositionHash(h.keys, h.pieceIndex, Position(s))
  }

  /**
   * `BoardState::new`: an empty board, White to move, all four castling
   * rights, no en-passant square, kings recorded on e8 and e1, and the hash
   * computed from that.
   */
  function New(h: Hashing): (s: State)
    requires Ready(h)
    ensures HashAgrees(h, s)
    ensures s.whiteMove && s.blackKingSideCastle && s.blackQueenSideCastle
         && s.whiteKingSideCastle && s.whiteQueenSideCastle
    ensures s.blackEnPassant == INVALID_BOARD_POSITION && s.whiteEnPassant == INVALID_BOARD_POSITION
    ensures s.blackKingPosition == 4 && s.whiteKingPosition == 60
    ensures |s.squares| == 64 && forall i :: 0 <= i < 64 ==> s.squares[i] == EMPTY_PIECE
  {
    var squares := seq(64, _ => EMPTY_PIECE);
    var s := State(
      blackKingSideCastle := true, blackQueenSideCastle := true, blackCaptures := [],
      blackEnPassant := INVALID_BOARD_POSITION, blackKingInCheck := false, blackKingMoved := false,
      blackKingPosition := BLACK_KING_INITIAL_POSITION, fullMoves := 0, halfMoves := 0,
      whiteMove := true, squares := squares,
      whiteKingSideCastle := true, whiteQueenSideCastle := true, whiteCaptures := [],
      whiteEnPassant := INVALID_BOARD_POSITION, whiteKingInCheck := false, whiteKingMoved := false,
      whiteKingPosition := WHITE_KING_INITIAL_POSITION, winner := 0, hash := {});
    ReadySquares(h, squares);
    s.(hash := MZ.PositionHash(h.keys, h.pieceIndex, Position(s)))
  }

  /** `is_valid_position`: the index lies on the 64-square board. */
  predicate IsValidPosition(position: int)
  {
    0 <= position < 64
  }

  /** `get_piece`: the code on the square; a position off the board reads as empty. */
  function GetPiece(s: State, position: int): (piece: nat)
    requires |s.squares| == 64
    ensures !IsValidPosition(position) ==> piece == EMPTY_PIECE
  {
    if IsValidPosition(position) then s.squares[position] else EMPTY_PIECE
  }

  /**
   * `place_piece`: writes the code on the square, and a king's code also
   * moves that king's recorded position. The source indexes with
   * `position as usize`, so the position must be on the board.
   */
  function PlacePiece(s: State, position: int, piece: nat): (r: State)
    requires |s.squares| == 64 && IsValidPosition(position)
    ensures |r.squares| == 64
  {
    s.(squares := s.squares[position := piece],
       blackKingPosition := if piece == BLACK_KING then position else s.blackKingPosition,
       whiteKingPosition := if piece == WHITE_KING then position else s.whiteKingPosition)
  }

  /** After `place_piece` the square holds the code, every other square is as it was, and only a king's code moves a king. */
  lemma PlacePieceWrites(s: State, position: int, piece: nat)
    requires |s.squares| == 64 && IsValidPosition(position)
    ensures GetPiece(PlacePiece(s, position, piece), position) == piece
    ensures forall q :: q != position ==> GetPiece(PlacePiece(s, position, piece), q) == GetPiece(s, q)
    ensures PlacePiece(s, position, piece).blackKingPosition
         == if piece == BLACK_KING then position else s.blackKingPosition
    ensures PlacePiece(s, position, piece).whiteKingPosition
         == if piece == WHITE_KING then position else s.whiteKingPosition
    ensures PlacePiece(s, position, piece).(squares := s.squares, blackKingPosition := s.blackKingPosition,
                                            whiteKingPosition := s.whiteKingPosition) == s
  {
  }

  /**
   * `move_piece`: `piece` is placed on `to` and `from` is emptied; the hash
   * is updated with the code that stood on `from` (not `piece`) and the
   * code that stood on `to`. Unless this is the rook step of a castling the
   * side to move changes, the full-move number grows after Black's move and
   * the half-move clock restarts on a pawn move. A capture (a code of a real
   * kind on `to`) restarts the half-move clock and is appended to the
   * capturer's list.
   */
  function MovePiece(h: Hashing, s: State, from: int, rookCastling: bool, piece: nat, to: int): (r: State)
    requires Ready(h) && |s.squares| == 64 && IsValidPosition(from) && IsValidPosition(to)
    ensures |r.squares| == 64
  {
    var moved := GetPiece(s, from);
    var captured := GetPiece(s, to);
    var placed := PlacePiece(PlacePiece(s, to, piece), from, EMPTY_PIECE);
    placed.(
      hash := Xor(placed.hash, MZ.MoveDelta(h.keys, h.pieceIndex, from, to, moved, captured)),
      whiteMove := s.whiteMove != !rookCastling,
      fullMoves := FullMovesAfter(s.fullMoves, s.whiteMove, rookCastling),
      halfMoves := HalfMovesAfter(s.halfMoves, rookCastling, moved, captured),
      blackCaptures := CapturesAfter(s.blackCaptures, true, captured),
      whiteCaptures := CapturesAfter(s.whiteCaptures, false, captured))
  }

  /** The full move number grows after Black's move, except on the castling rook's step. */
  function FullMovesAfter(fullMoves: nat, whiteMove: bool, rookCastling: bool): nat
  {
    if !rookCastling && !whiteMove then fullMoves + 1 else fullMoves
  }

  /**
   * The half-move clock restarts on a capture or a pawn move and otherwise
   * counts one more; the castling rook's step leaves it alone.
   */
  function HalfMovesAfter(halfMoves: nat, rookCastling: bool, moved: nat, captured: nat): nat
  {
    if !IsPieceOfType(captured, Empty) then 0
    else if rookCastling then halfMoves
    else if IsPieceOfType(moved, Pawn) then 0
    else halfMoves + 1
  }

  /** Black's list takes captured White codes, White's list every other code of a real kind. */
  function CapturesAfter(captures: seq<nat>, black: bool, captured: nat): seq<nat>
  {
    if !IsPieceOfType(captured, Empty) && IsWhitePiece(captured) == black then captures + [captured] else captures
  }

  /** A move between two different squares: `to` holds the piece, `from` is empty, nothing else moves. */
  lemma MoveSquares(h: Hashing, s: State, from: int, rookCastling: bool, piece: nat, to: int)
    requires Ready(h) && |s.squares| == 64 && IsValidPosition(from) && IsValidPosition(to) && from != to
    ensures var r := MovePiece(h, s, from, rookCastling, piece, to);
      GetPiece(r, to) == piece && GetPiece(r, from) == EMPTY_PIECE
      && (forall q :: q != from && q != to ==> GetPiece(r, q) == GetPiece(s, q))
      && r.blackKingPosition == (if piece == BLACK_KING then to else s.blackKingPosition)
      && r.whiteKingPosition == (if piece == WHITE_KING then to else s.whiteKingPosition)
  {
    PlacePieceWrites(s, to, piece);
    PlacePieceWrites(PlacePiece(s, to, piece), from, EMPTY_PIECE);
  }

  /**
   * The turn and the clocks after a move: the side changes and the full
   * move number grows after Black's move, except on the castling rook's
   * step; the half-move clock restarts on a capture or a pawn move and
   * otherwise counts one more, and the rook's step leaves it alone.
   */
  lemma MoveClocks(h: Hashing, s: State, from: int, rookCastling: bool, piece: nat, to: int)
    requires Ready(h) && |s.squares| == 64 && IsValidPosition(from) && IsValidPosition(to)
    ensures var r := MovePiece(h, s, from, rookCastling, piece, to);
      r.whiteMove == (s.whiteMove != !rookCastling)
      && r.fullMoves == (if !rookCastling && !s.whiteMove then s.fullMoves + 1 else s.fullMoves)
      && r.halfMoves == (if GetPieceType(GetPiece(s, to)) != Empty then 0
                         else if rookCastling then s.halfMoves
                         else if GetPieceType(GetPiece(s, from)) == Pawn then 0
                         else s.halfMoves + 1)
  {
  }

  /**
   * Captures: a White code taken goes to Black's list, any other code of a
   * real kind to White's; an empty target (or a kindless code) adds nothing.
   */
  lemma MoveCaptures(h: Hashing, s: State, from: int, rookCastling: bool, piece: nat, to: int)
    requires Ready(h) && |s.squares| == 64 && IsValidPosition(from) && IsValidPosition(to)
    ensures var r := MovePiece(h, s, from, rookCastling, piece, to);
      var captured := GetPiece(s, to);
      if GetPieceType(captured) == Empty then
        r.blackCaptures == s.blackCaptures && r.whiteCaptures == s.whiteCaptures
      else if IsWhitePiece(captured) then
        r.blackCaptures == s.blackCaptures + [captured] && r.whiteCaptures == s.whiteCaptures
      else
        r.whiteCaptures == s.whiteCaptures + [captured] && r.blackCaptures == s.blackCaptures
  {
  }

  /**
   * For an ordinary move of the code standing on `from` to another square,
   * the incrementally updated hash is still the hash of the new state.
   */
  lemma MoveKeepsHash(h: Hashing, s: State, from: int, to: int)
    requires Ready(h) && HashAgrees(h, s) && IsValidPosition(from) && IsValidPosition(to) && from != to
    requires s.squares[from] != EMPTY_PIECE
    ensures HashAgrees(h, MovePiece(h, s, from, false, s.squares[from], to))
  {
    var r := MovePiece(h, s, from, false, s.squares[from], to);
    var p := Position(s);
    MZ.MoveMatchesRecompute(h.keys, h.pieceIndex, p, from, to);
    assert Position(r) == p.(whiteMove := !p.whiteMove, squares := p.squares[to := p.squares[from]][from := 0]);
  }

  /** `set_black_en_passant`: the hash toggles the Black en-passant key only when the value changes. */
  function SetBlackEnPassant(h: Hashing, s: State, value: int): (r: State)
    ensures r.blackEnPassant == value
    ensures r.(blackEnPassant := s.blackEnPassant, hash := s.hash) == s
  {
    s.(blackEnPassant := value,
       hash := if s.blackEnPassant != value then Xor(s.hash, h.keys.blackEnPassant) else s.hash)
  }

  /** `set_white_en_passant`: the same for White. */
  function SetWhiteEnPassant(h: Hashing, s: State, value: int): (r: State)
    ensures r.whiteEnPassant == value
    ensures r.(whiteEnPassant := s.whiteEnPassant, hash := s.hash) == s
  {
    s.(whiteEnPassant := value,
       hash := if s.whiteEnPassant != value then Xor(s.hash, h.keys.whiteEnPassant) else s.hash)
  }

  /** Setting the old value back undoes a setter completely, hash included. */
  lemma EnPassantSettersUndo(h: Hashing, s: State, value: int)
    ensures SetBlackEnPassant(h, SetBlackEnPassant(h, s, value), s.blackEnPassant) == s
    ensures SetWhiteEnPassant(h, SetWhiteEnPassant(h, s, value), s.whiteEnPassant) == s
  {
    XorTwice(s.hash, h.keys.blackEnPassant);
    XorTwice(s.hash, h.keys.whiteEnPassant);
  }

  /**
   * The hash only sees whether an en-passant square is set, so a setter
   * keeps the hash right when it sets or clears the square, and not
   * necessarily when it moves a set square elsewhere.
   */
  lemma BlackEnPassantKeepsHash(h: Hashing, s: State, value: int)
    requires HashAgrees(h, s)
    requires s.blackEnPassant == INVALID_BOARD_POSITION || value == INVALID_BOARD_POSITION
    ensures HashAgrees(h, SetBlackEnPassant(h, s, value))
  {
    var r := SetBlackEnPassant(h, s, value);
    if s.blackEnPassant != value {
      BlackEnPassantToggle(h.keys, h.pieceIndex, Position(s), value);
      assert Position(r) == Position(s).(blackEnPassant := value);
    } else {
      assert r == s;
    }
  }

  lemma WhiteEnPassantKeepsHash(h: Hashing, s: State, value: int)
    requires HashAgrees(h, s)
    requires s.whiteEnPassant == INVALID_BOARD_POSITION || value == INVALID_BOARD_POSITION
    ensures HashAgrees(h, SetWhiteEnPassant(h, s, value))
  {
    var r := SetWhiteEnPassant(h, s, value);
    if s.whiteEnPassant != value {
      WhiteEnPassantToggle(h.keys, h.pieceIndex, Position(s), value);
      assert Position(r) == Position(s).(whiteEnPassant := value);
    } else {
      assert r == s;
    }
  }

  /** A key XORed in before two more words can as well be XORed in after them. */
  lemma XorLater2(y: Bits, key: Bits, a: Bits, b: Bits)
    ensures Xor(Xor(Xor(y, key), a), b) == Xor(Xor(Xor(y, a), b), key)
  {
    XorSwap(y, key, a);
    XorSwap(Xor(y, a), key, b);
  }

  /** The same before three more words. */
  lemma XorLater3(y: Bits, key: Bits, a: Bits, b: Bits, c: Bits)
    ensures Xor(Xor(Xor(Xor(y, key), a), b), c) == Xor(Xor(Xor(Xor(y, a), b), c), key)
  {
    XorSwap(y, key, a);
    XorLater2(Xor(y, a), key, b, c);
  }

  /** The same before four more words. */
  lemma XorLater4(y: Bits, key: Bits, a: Bits, b: Bits, c: Bits, d: Bits)
    ensures Xor(Xor(Xor(Xor(Xor(y, key), a), b), c), d) == Xor(Xor(Xor(Xor(Xor(y, a), b), c), d), key)
  {
    XorSwap(y, key, a);
    XorLater3(Xor(y, a), key, b, c, d);
  }

  /** The same before five more words. */
  lemma XorLater5(y: Bits, key: Bits, a: Bits, b: Bits, c: Bits, d: Bits, e: Bits)
    ensures Xor(Xor(Xor(Xor(Xor(Xor(y, key), a), b), c), d), e)
         == Xor(Xor(Xor(Xor(Xor(Xor(y, a), b), c), d), e), key)
  {
    XorSwap(y, key, a);
    XorLater4(Xor(y, a), key, b, c, d, e);
  }

  /** A key that is held in exactly one of two conditions: the two `KeyIf` words differ by it. */
  lemma KeyIfFlip(x: Bits, held: bool, held': bool, key: Bits)
    requires held != held'
    ensures Xor(x, MZ.KeyIf(held', key)) == Xor(Xor(x, MZ.KeyIf(held, key)), key)
  {
    if held {
      XorTwice(x, key);
      XorZero(x);
    } else {
      XorZero(x);
    }
  }

  /** A key toggled in the state part toggles the whole hash by that key. */
  lemma StateToSquares(keys: MZ.Keys, pieceIndex: int -> int, p: MZ.Position, q: MZ.Position, key: Bits)
    requires BitZobrist.WellFormed(keys) && MZ.HashableSquares(pieceIndex, p.squares) && q.squares == p.squares
    requires MZ.StateHash(keys, q) == Xor(MZ.StateHash(keys, p), key)
    ensures MZ.PositionHash(keys, pieceIndex, q) == Xor(MZ.PositionHash(keys, pieceIndex, p), key)
  {
    XorSwap(MZ.StateHash(keys, p), key, MZ.SquaresHash(keys, pieceIndex, p.squares, 64));
  }

  /**
   * The words of the state part of a position's hash: the side to move,
   * then Black's king side, queen side and en passant, then White's.
   */
  function Words(keys: MZ.Keys, p: MZ.Position): seq<Bits>
  {
    [MZ.KeyIf(p.whiteMove, keys.whiteToMove),
     MZ.KeyIf(p.blackKingCastle, keys.blackKingCastle),
     MZ.KeyIf(p.blackQueenCastle, keys.blackQueenCastle),
     MZ.KeyIf(p.blackEnPassant != INVALID_BOARD_POSITION, keys.blackEnPassant),
     MZ.KeyIf(p.whiteKingCastle, keys.whiteKingCastle),
     MZ.KeyIf(p.whiteQueenCastle, keys.whiteQueenCastle),
     MZ.KeyIf(p.whiteEnPassant != INVALID_BOARD_POSITION, keys.whiteEnPassant)]
  }

  /** Losing the Black king-side right toggles its key in the recomputed hash. */
  lemma BlackKingCastleToggle(keys: MZ.Keys, pieceIndex: int -> int, p: MZ.Position)
    requires BitZobrist.WellFormed(keys) && MZ.HashableSquares(pieceIndex, p.squares) && p.blackKingCastle
    ensures MZ.PositionHash(keys, pieceIndex, p.(blackKingCastle := false))
         == Xor(MZ.PositionHash(keys, pieceIndex, p), keys.blackKingCastle)
  {
    var w := Words(keys, p);
    KeyIfFlip(w[0], true, false, keys.blackKingCastle);
    XorLater5(Xor(w[0], w[1]), keys.blackKingCastle, w[2], w[3], w[4], w[5], w[6]);
    StateToSquares(keys, pieceIndex, p, p.(blackKingCastle := false), keys.blackKingCastle);
  }

  /** Losing the Black queen-side right toggles its key. */
  lemma BlackQueenCastleToggle(keys: MZ.Keys, pieceIndex: int -> int, p: MZ.Position)
    requires BitZobrist.WellFormed(keys) && MZ.HashableSquares(pieceIndex, p.squares) && p.blackQueenCastle
    ensures MZ.PositionHash(keys, pieceIndex, p.(blackQueenCastle := false))
         == Xor(MZ.PositionHash(keys, pieceIndex, p), keys.blackQueenCastle)
  {
    var w := Words(keys, p);
    var a := Xor(w[0], w[1]);
    KeyIfFlip(a, true, false, keys.blackQueenCastle);
    XorLater4(Xor(a, w[2]), keys.blackQueenCastle, w[3], w[4], w[5], w[6]);
    StateToSquares(keys, pieceIndex, p, p.(blackQueenCastle := false), keys.blackQueenCastle);
  }

  /** Setting or clearing the Black en-passant square toggles its key. */
  lemma BlackEnPassantToggle(keys: MZ.Keys, pieceIndex: int -> int, p: MZ.Position, value: int)
    requires BitZobrist.WellFormed(keys) && MZ.HashableSquares(pieceIndex, p.squares)
    requires (p.blackEnPassant == INVALID_BOARD_POSITION) != (value == INVALID_BOARD_POSITION)
    ensures MZ.PositionHash(keys, pieceIndex, p.(blackEnPassant := value))
         == Xor(MZ.PositionHash(keys, pieceIndex, p), keys.blackEnPassant)
  {
    var w := Words(keys, p);
    var a := Xor(Xor(w[0], w[1]), w[2]);
    KeyIfFlip(a, p.blackEnPassant != INVALID_BOARD_POSITION, value != INVALID_BOARD_POSITION, keys.blackEnPassant);
    XorLater3(Xor(a, w[3]), keys.blackEnPassant, w[4], w[5], w[6]);
    StateToSquares(keys, pieceIndex, p, p.(blackEnPassant := value), keys.blackEnPassant);
  }

  /** Losing the White king-side right toggles its key. */
  lemma WhiteKingCastleToggle(keys: MZ.Keys, pieceIndex: int -> int, p: MZ.Position)
    requires BitZobrist.WellFormed(keys) && MZ.HashableSquares(pieceIndex, p.squares) && p.whiteKingCastle
    ensures MZ.PositionHash(keys, pieceIndex, p.(whiteKingCastle := false))
         == Xor(MZ.PositionHash(keys, pieceIndex, p), keys.whiteKingCastle)
  {
    var w := Words(keys, p);
    var a := Xor(Xor(Xor(w[0], w[1]), w[2]), w[3]);
    KeyIfFlip(a, true, false, keys.whiteKingCastle);
    XorLater2(Xor(a, w[4]), keys.whiteKingCastle, w[5], w[6]);
    StateToSquares(keys, pieceIndex, p, p.(whiteKingCastle := false), keys.whiteKingCastle);
  }

  /** Losing the White queen-side right toggles its key. */
  lemma WhiteQueenCastleToggle(keys: MZ.Keys, pieceIndex: int -> int, p: MZ.Position)
    requires BitZobrist.WellFormed(keys) && MZ.HashableSquares(pieceIndex, p.squares) && p.whiteQueenCastle
    ensures MZ.PositionHash(keys, pieceIndex, p.(whiteQueenCastle := false))
         == Xor(MZ.PositionHash(keys, pieceIndex, p), keys.whiteQueenCastle)
  {
    var w := Words(keys, p);
    var a := Xor(Xor(Xor(Xor(w[0], w[1]), w[2]), w[3]), w[4]);
    KeyIfFlip(a, true, false, keys.whiteQueenCastle);
    XorSwap(Xor(a, w[5]), keys.whiteQueenCastle, w[6]);
    StateToSquares(keys, pieceIndex, p, p.(whiteQueenCastle := false), keys.whiteQueenCastle);
  }

  /** Setting or clearing the White en-passant square, the last word, toggles its key. */
  lemma WhiteEnPassantToggle(keys: MZ.Keys, pieceIndex: int -> int, p: MZ.Position, value: int)
    requires BitZobrist.WellFormed(keys) && MZ.HashableSquares(pieceIndex, p.squares)
    requires (p.whiteEnPassant == INVALID_BOARD_POSITION) != (value == INVALID_BOARD_POSITION)
    ensures MZ.PositionHash(keys, pieceIndex, p.(whiteEnPassant := value))
         == Xor(MZ.PositionHash(keys, pieceIndex, p), keys.whiteEnPassant)
  {
    var w := Words(keys, p);
    var a := Xor(Xor(Xor(Xor(Xor(w[0], w[1]), w[2]), w[3]), w[4]), w[5]);
    KeyIfFlip(a, p.whiteEnPassant != INVALID_BOARD_POSITION, value != INVALID_BOARD_POSITION, keys.whiteEnPassant);
    StateToSquares(keys, pieceIndex, p, p.(whiteEnPassant := value), keys.whiteEnPassant);
  }

  /**
   * `update_castling_ability`: for the rook corners a8 (0, Black queen
   * side), h8 (7, Black king side), a1 (56, White queen side) and h1 (63,
   * White king side), given with the matching colour and side, the right is
   * cleared and its key toggled if it was held. Any other call changes nothing.
   */
  function UpdateCastlingAbility(h: Hashing, s: State, index: int, isBlack: bool, isKingSide: bool): (r: State)
    ensures r.squares == s.squares
  {
    if index == 0 && isBlack && !isKingSide then
      s.(blackQueenSideCastle := false, hash := ToggleIf(s.hash, s.blackQueenSideCastle, h.keys.blackQueenCastle))
    else if index == 7 && isBlack && isKingSide then
      s.(blackKingSideCastle := false, hash := ToggleIf(s.hash, s.blackKingSideCastle, h.keys.blackKingCastle))
    else if index == 56 && !isBlack && !isKingSide then
      s.(whiteQueenSideCastle := false, hash := ToggleIf(s.hash, s.whiteQueenSideCastle, h.keys.whiteQueenCastle))
    else if index == 63 && !isBlack && isKingSide then
      s.(whiteKingSideCastle := false, hash := ToggleIf(s.hash, s.whiteKingSideCastle, h.keys.whiteKingCastle))
    else s
  }

  /** The hash with `key` toggled when `held`. */
  function ToggleIf(hash: Bits, held: bool, key: Bits): (r: Bits)
    ensures r == Xor(hash, MZ.KeyIf(held, key))
  {
    if held then Xor(hash, key) else XorZero(hash); hash
  }

  /**
   * Only the four rook corners, each with its own colour and side, have an
   * effect; the right named is then cleared, and nothing but it and the hash
   * changes.
   */
  lemma CastlingAbilityScope(h: Hashing, s: State, index: int, isBlack: bool, isKingSide: bool)
    ensures var r := UpdateCastlingAbility(h, s, index, isBlack, isKingSide);
      (r != s ==> (index, isBlack, isKingSide) in {(0, true, false), (7, true, true), (56, false, false), (63, false, true)})
      && (index == 0 && isBlack && !isKingSide ==> (!r.blackQueenSideCastle
            && r.(blackQueenSideCastle := s.blackQueenSideCastle, hash := s.hash) == s))
      && (index == 7 && isBlack && isKingSide ==> (!r.blackKingSideCastle
            && r.(blackKingSideCastle := s.blackKingSideCastle, hash := s.hash) == s))
      && (index == 56 && !isBlack && !isKingSide ==> (!r.whiteQueenSideCastle
            && r.(whiteQueenSideCastle := s.whiteQueenSideCastle, hash := s.hash) == s))
      && (index == 63 && !isBlack && isKingSide ==> (!r.whiteKingSideCastle
            && r.(whiteKingSideCastle := s.whiteKingSideCastle, hash := s.hash) == s))
  {
  }

  /** A right already lost stays lost and the hash is left alone: the update is idempotent. */
  lemma CastlingAbilityIdempotent(h: Hashing, s: State, index: int, isBlack: bool, isKingSide: bool)
    ensures var r := UpdateCastlingAbility(h, s, index, isBlack, isKingSide);
      UpdateCastlingAbility(h, r, index, isBlack, isKingSide) == r
  {
  }

  /** The incremental hash update agrees with the recomputed hash after a right is lost. */
  lemma CastlingAbilityKeepsHash(h: Hashing, s: State, index: int, isBlack: bool, isKingSide: bool)
    requires HashAgrees(h, s)
    ensures HashAgrees(h, UpdateCastlingAbility(h, s, index, isBlack, isKingSide))
  {
    if index == 0 && isBlack && !isKingSide && s.blackQueenSideCastle {
      BlackQueenLossKeepsHash(h, s);
    } else if index == 7 && isBlack && isKingSide && s.blackKingSideCastle {
      BlackKingLossKeepsHash(h, s);
    } else if index == 56 && !isBlack && !isKingSide && s.whiteQueenSideCastle {
      WhiteQueenLossKeepsHash(h, s);
    } else if index == 63 && !isBlack && isKingSide && s.whiteKingSideCastle {
      WhiteKingLossKeepsHash(h, s);
    } else {
      XorZero(s.hash);
    }
  }

  /** Losing the held Black queen-side right with its key toggled keeps the hash right. */
  lemma BlackQueenLossKeepsHash(h: Hashing, s: State)
    requires HashAgrees(h, s) && s.blackQueenSideCastle
    ensures HashAgrees(h, s.(blackQueenSideCastle := false, hash := Xor(s.hash, h.keys.blackQueenCastle)))
  {
    BlackQueenCastleToggle(h.keys, h.pieceIndex, Position(s));
    assert Position(s.(blackQueenSideCastle := false, hash := Xor(s.hash, h.keys.blackQueenCastle))) == Position(s).(blackQueenCastle := false);
  }

  /** Losing the held Black king-side right with its key toggled keeps the hash right. */
  lemma BlackKingLossKeepsHash(h: Hashing, s: State)
    requires HashAgrees(h, s) && s.blackKingSideCastle
    ensures HashAgrees(h, s.(blackKingSideCastle := false, hash := Xor(s.hash, h.keys.blackKingCastle)))
  {
    BlackKingCastleToggle(h.keys, h.pieceIndex, Position(s));
    assert Position(s.(blackKingSideCastle := false, hash := Xor(s.hash, h.keys.blackKingCastle))) == Position(s).(blackKingCastle := false);
  }

  /** Losing the held White queen-side right with its key toggled keeps the hash right. */
  lemma WhiteQueenLossKeepsHash(h: Hashing, s: State)
    requires HashAgrees(h, s) && s.whiteQueenSideCastle
    ensures HashAgrees(h, s.(whiteQueenSideCastle := false, hash := Xor(s.hash, h.keys.whiteQueenCastle)))
  {
    WhiteQueenCastleToggle(h.keys, h.pieceIndex, Position(s));
    assert Position(s.(whiteQueenSideCastle := false, hash := Xor(s.hash, h.keys.whiteQueenCastle))) == Position(s).(whiteQueenCastle := false);
  }

  /** Losing the held White king-side right with its key toggled keeps the hash right. */
  lemma WhiteKingLossKeepsHash(h: Hashing, s: State)
    requires HashAgrees(h, s) && s.whiteKingSideCastle
    ensures HashAgrees(h, s.(whiteKingSideCastle := false, hash := Xor(s.hash, h.keys.whiteKingCastle)))
  {
    WhiteKingCastleToggle(h.keys, h.pieceIndex, Position(s));
    assert Position(s.(whiteKingSideCastle := false, hash := Xor(s.hash, h.keys.whiteKingCastle))) == Position(s).(whiteKingCastle := false);
  }
}
