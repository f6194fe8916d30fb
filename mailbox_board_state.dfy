// `game/board_state.rs` as the source runs it: a `BoardState` whose fields,
// 64-square array and Zobrist hash are updated in place. Every method is
// proved to leave the object in the state the matching snapshot function of
// `MailboxState` or `FenLoading` computes from the state before the call, so
// the properties proved about those functions hold of the object.
module MailboxBoardState {
  import opened Wrappers
  import opened Strings
  import Decimal
  import opened BitSets
  import opened PieceCodes
  import opened BitboardEnums
  import opened FenPieces
  import opened MailboxState
  import MZ = MailboxZobrist
  import FL = FenLoading

  class BoardState {
    var blackKingSideCastle: bool
    var blackQueenSideCastle: bool
    var blackCaptures: seq<nat>
    var blackEnPassant: int
    var blackKingInCheck: bool
    var blackKingMoved: bool
    var blackKingPosition: int
    var fullMoves: nat
    var halfMoves: nat
    var whiteMove: bool
    const squares: array<nat>
    var whiteKingSideCastle: bool
    var whiteQueenSideCastle: bool
    var whiteCaptures: seq<nat>
    var whiteEnPassant: int
    var whiteKingInCheck: bool
    var whiteKingMoved: bool
    var whiteKingPosition: int
    var winner: nat
    const zobrist: MZ.Zobrist

    /** The key tables of the state's `Zobrist`. */
    function Tables(): Hashing
    {
      Hashing(zobrist.keys, zobrist.pieceIndex)
    }

    /** 64 squares and well-formed key tables. */
    ghost predicate Valid()
    {
      squares.Length == 64 && Ready(Tables())
    }

    /** `clone`: the state as a value, the hash being the one its `Zobrist` holds. */
    function Clone(): State
      reads this, squares, zobrist
    {
      State(blackKingSideCastle, blackQueenSideCastle, blackCaptures, blackEnPassant, blackKingInCheck,
            blackKingMoved, blackKingPosition, fullMoves, halfMoves, whiteMove, squares[..],
            whiteKingSideCastle, whiteQueenSideCastle, whiteCaptures, whiteEnPassant, whiteKingInCheck,
            whiteKingMoved, whiteKingPosition, winner, zobrist.hash)
    }

    /** `BoardState::new`, with the Zobrist key tables given. */
    constructor (keys: MZ.Keys, pieceIndex: int -> int)
      requires Ready(Hashing(keys, pieceIndex))
      ensures Valid() && Tables() == Hashing(keys, pieceIndex) && fresh(squares) && fresh(zobrist)
      ensures Clone() == New(Tables())
    {
      blackKingSideCastle := true;
      blackQueenSideCastle := true;
      blackCaptures := [];
      blackEnPassant := INVALID_BOARD_POSITION;
      blackKingInCheck := false;
      blackKingMoved := false;
      blackKingPosition := BLACK_KING_INITIAL_POSITION;
      fullMoves := 0;
      halfMoves := 0;
      whiteMove := true;
      squares := new nat[64](_ => EMPTY_PIECE);
      whiteKingSideCastle := true;
      whiteQueenSideCastle := true;
      whiteCaptures := [];
      whiteEnPassant := INVALID_BOARD_POSITION;
      whiteKingInCheck := false;
      whiteKingMoved := false;
      whiteKingPosition := WHITE_KING_INITIAL_POSITION;
      winner := 0;
      zobrist := new MZ.Zobrist(keys, pieceIndex);
      new;
      ReadySquares(Tables(), squares[..]);
      var _ := zobrist.ComputeHash(Position(Clone()));
      assert squares[..] == seq(64, _ => EMPTY_PIECE);
    }

    /**
     * A state holding `value`, with a `Zobrist` of the given tables whose
     * hash is `value`'s: what a clone taken earlier is when it is moved
     * back into place.
     */
    constructor Of(keys: MZ.Keys, pieceIndex: int -> int, value: State)
      requires Ready(Hashing(keys, pieceIndex)) && |value.squares| == 64
      ensures Valid() && Tables() == Hashing(keys, pieceIndex) && fresh(squares) && fresh(zobrist)
      ensures Clone() == value
    {
      blackKingSideCastle := value.blackKingSideCastle;
      blackQueenSideCastle := value.blackQueenSideCastle;
      blackCaptures := value.blackCaptures;
      blackEnPassant := value.blackEnPassant;
      blackKingInCheck := value.blackKingInCheck;
      blackKingMoved := value.blackKingMoved;
      blackKingPosition := value.blackKingPosition;
      fullMoves := value.fullMoves;
      halfMoves := value.halfMoves;
      whiteMove := value.whiteMove;
      squares := new nat[64](i => if 0 <= i < 64 then value.squares[i] else EMPTY_PIECE);
      whiteKingSideCastle := value.whiteKingSideCastle;
      whiteQueenSideCastle := value.whiteQueenSideCastle;
      whiteCaptures := value.whiteCaptures;
      whiteEnPassant := value.whiteEnPassant;
      whiteKingInCheck := value.whiteKingInCheck;
      whiteKingMoved := value.whiteKingMoved;
      whiteKingPosition := value.whiteKingPosition;
      winner := value.winner;
      zobrist := new MZ.Zobrist(keys, pieceIndex);
      new;
      zobrist.hash := value.hash;
      assert squares[..] == value.squares;
    }

    /** `get_piece`. */
    method GetPiece(position: int) returns (piece: nat)
      requires Valid()
      ensures piece == MailboxState.GetPiece(Clone(), position)
    {
      if IsValidPosition(position) {
        return squares[position];
      }
      return EMPTY_PIECE;
    }

    /** `place_piece`. */
    method PlacePiece(position: int, piece: nat)
      requires Valid() && IsValidPosition(position)
      modifies this, squares
      ensures Valid()
      ensures Clone() == MailboxState.PlacePiece(old(Clone()), position, piece)
    {
      if piece == BLACK_KING {
        blackKingPosition := position;
      } else if piece == WHITE_KING {
        whiteKingPosition := position;
      }
      squares[position] := piece;
    }

    /** `move_piece`. */
    method MovePiece(from: int, rookCastling: bool, piece: nat, to: int)
      requires Valid() && IsValidPosition(from) && IsValidPosition(to)
      modifies this, squares, zobrist
      ensures Valid()
      ensures Clone() == MailboxState.MovePiece(Tables(), old(Clone()), from, rookCastling, piece, to)
    {
      var movedPiece := GetPiece(from);
      var capturedPiece := GetPiece(to);
      Relocate(from, piece, to);
      UpdateHashOnMove(from, to, movedPiece, capturedPiece);
      AdvanceTurn(rookCastling, movedPiece);
      RecordCapture(capturedPiece);
    }

    /** The turn change of `move_piece`, which the castling rook's step skips. */
    method AdvanceTurn(rookCastling: bool, movedPiece: nat)
      modifies this
      ensures Clone() == old(Clone()).(fullMoves := FullMovesAfter(old(fullMoves), old(whiteMove), rookCastling),
                                       whiteMove := old(whiteMove) != !rookCastling,
                                       halfMoves := HalfMovesAfter(old(halfMoves), rookCastling, movedPiece, EMPTY_PIECE))
    {
      if !rookCastling {
        PassTurn(movedPiece);
      }
    }

    /** The two `place_piece` calls of `move_piece`: `piece` on `to`, then `from` emptied. */
    method Relocate(from: int, piece: nat, to: int)
      requires Valid() && IsValidPosition(from) && IsValidPosition(to)
      modifies this, squares
      ensures Clone() == MailboxState.PlacePiece(MailboxState.PlacePiece(old(Clone()), to, piece), from, EMPTY_PIECE)
    {
      PlacePiece(to, piece);
      PlacePiece(from, EMPTY_PIECE);
    }

    /**
     * The turn change of `move_piece` (not made on a castling rook's step):
     * the full-move number grows after Black's move, the side flips, and the
     * half-move clock restarts on a pawn move or counts one more.
     */
    method PassTurn(movedPiece: nat)
      modifies this
      ensures Clone() == old(Clone()).(fullMoves := FullMovesAfter(old(fullMoves), old(whiteMove), false),
                                       whiteMove := !old(whiteMove),
                                       halfMoves := if IsPieceOfType(movedPiece, Pawn) then 0 else old(halfMoves) + 1)
    {
      if !whiteMove {
        IncrementFullMoves();
      }
      SetWhiteMove(!whiteMove);
      if IsPieceOfType(movedPiece, Pawn) {
        SetHalfMoves(0);
      } else {
        SetHalfMoves(halfMoves + 1);
      }
    }

    /**
     * The capture tail of `move_piece`: nothing for an empty target;
     * otherwise the half-move clock restarts and the code goes to the
     * capturer's list.
     */
    method RecordCapture(capturedPiece: nat)
      modifies this
      ensures Clone() == old(Clone()).(
        halfMoves := if IsPieceOfType(capturedPiece, Empty) then old(halfMoves) else 0,
        blackCaptures := CapturesAfter(old(blackCaptures), true, capturedPiece),
        whiteCaptures := CapturesAfter(old(whiteCaptures), false, capturedPiece))
    {
      if IsPieceOfType(capturedPiece, Empty) {
        return;
      }
      SetHalfMoves(0);
      if IsWhitePiece(capturedPiece) {
        AppendBlackCapture(capturedPiece);
      } else {
        AppendWhiteCapture(capturedPiece);
      }
    }

    /** The state's `zobrist.update_hash_on_move`. */
    method UpdateHashOnMove(from: int, to: int, moved: nat, captured: nat)
      requires Valid() && IsValidPosition(from) && IsValidPosition(to)
      modifies zobrist
      ensures Clone() == old(Clone()).(hash := Xor(old(zobrist.hash), MZ.MoveDelta(zobrist.keys, zobrist.pieceIndex, from, to, moved, captured)))
    {
      zobrist.UpdateHashOnMove(from, to, moved, captured);
    }

    /** The assignment to `half_moves`. */
    method SetHalfMoves(value: nat)
      modifies this
      ensures Clone() == old(Clone()).(halfMoves := value)
    {
      halfMoves := value;
    }

    /** `set_white_move`. */
    method SetWhiteMove(value: bool)
      modifies this
      ensures Clone() == old(Clone()).(whiteMove := value)
    {
      whiteMove := value;
    }

    /** `increment_full_moves`. */
    method IncrementFullMoves()
      modifies this
      ensures Clone() == old(Clone()).(fullMoves := old(fullMoves) + 1)
    {
      fullMoves := fullMoves + 1;
    }

    /** `append_black_capture`. */
    method AppendBlackCapture(pieceValue: nat)
      modifies this
      ensures Clone() == old(Clone()).(blackCaptures := old(blackCaptures) + [pieceValue])
    {
      blackCaptures := blackCaptures + [pieceValue];
    }

    /** `append_white_capture`. */
    method AppendWhiteCapture(pieceValue: nat)
      modifies this
      ensures Clone() == old(Clone()).(whiteCaptures := old(whiteCaptures) + [pieceValue])
    {
      whiteCaptures := whiteCaptures + [pieceValue];
    }

    /** `set_winner`. */
    method SetWinner(value: nat)
      modifies this
      ensures Clone() == old(Clone()).(winner := value)
    {
      winner := value;
    }

    /** `set_black_king_moved`. */
    method SetBlackKingMoved(value: bool)
      modifies this
      ensures Clone() == old(Clone()).(blackKingMoved := value)
    {
      blackKingMoved := value;
    }

    /** `set_white_king_moved`. */
    method SetWhiteKingMoved(value: bool)
      modifies this
      ensures Clone() == old(Clone()).(whiteKingMoved := value)
    {
      whiteKingMoved := value;
    }

    /** `set_white_able_to_king_side_castle`: the right only, the hash is left as it is. */
    method SetWhiteAbleToKingSideCastle(value: bool)
      modifies this
      ensures Clone() == old(Clone()).(whiteKingSideCastle := value)
    {
      whiteKingSideCastle := value;
    }

    /** `set_white_able_to_queen_side_castle`. */
    method SetWhiteAbleToQueenSideCastle(value: bool)
      modifies this
      ensures Clone() == old(Clone()).(whiteQueenSideCastle := value)
    {
      whiteQueenSideCastle := value;
    }

    /** `set_black_able_to_king_side_castle`. */
    method SetBlackAbleToKingSideCastle(value: bool)
      modifies this
      ensures Clone() == old(Clone()).(blackKingSideCastle := value)
    {
      blackKingSideCastle := value;
    }

    /** `set_black_able_to_queen_side_castle`. */
    method SetBlackAbleToQueenSideCastle(value: bool)
      modifies this
      ensures Clone() == old(Clone()).(blackQueenSideCastle := value)
    {
      blackQueenSideCastle := value;
    }

    /** `set_black_en_passant`. */
    method SetBlackEnPassant(value: int)
      modifies this, zobrist
      ensures Clone() == MailboxState.SetBlackEnPassant(Tables(), old(Clone()), value)
    {
      if blackEnPassant != value {
        HashBlackEnPassantChange();
      }
      SetBlackEnPassantField(value);
    }

    /** `set_white_en_passant`. */
    method SetWhiteEnPassant(value: int)
      modifies this, zobrist
      ensures Clone() == MailboxState.SetWhiteEnPassant(Tables(), old(Clone()), value)
    {
      if whiteEnPassant != value {
        HashWhiteEnPassantChange();
      }
      SetWhiteEnPassantField(value);
    }

    /** `update_castling_ability`. */
    method UpdateCastlingAbility(index: int, isBlack: bool, isKingSide: bool)
      modifies this, zobrist
      ensures Clone() == MailboxState.UpdateCastlingAbility(Tables(), old(Clone()), index, isBlack, isKingSide)
    {
      if index == 0 && isBlack && !isKingSide {
        LoseBlackQueenSideCastle();
      } else if index == 7 && isBlack && isKingSide {
        LoseBlackKingSideCastle();
      } else if index == 56 && !isBlack && !isKingSide {
        LoseWhiteQueenSideCastle();
      } else if index == 63 && !isBlack && isKingSide {
        LoseWhiteKingSideCastle();
      }
    }

    /** One arm of `update_castling_ability`: the key toggled if the right was held, then the right cleared. */
    method LoseBlackQueenSideCastle()
      modifies this, zobrist
      ensures Clone() == old(Clone()).(blackQueenSideCastle := false, hash := ToggleIf(old(zobrist.hash), old(blackQueenSideCastle), zobrist.keys.blackQueenCastle))
    {
      if blackQueenSideCastle {
        HashBlackLoseQueenSideCastle();
      }
      SetBlackAbleToQueenSideCastle(false);
    }

    /** One arm of `update_castling_ability`: the key toggled if the right was held, then the right cleared. */
    method LoseBlackKingSideCastle()
      modifies this, zobrist
      ensures Clone() == old(Clone()).(blackKingSideCastle := false, hash := ToggleIf(old(zobrist.hash), old(blackKingSideCastle), zobrist.keys.blackKingCastle))
    {
      if blackKingSideCastle {
        HashBlackLoseKingSideCastle();
      }
      SetBlackAbleToKingSideCastle(false);
    }

    /** One arm of `update_castling_ability`: the key toggled if the right was held, then the right cleared. */
    method LoseWhiteQueenSideCastle()
      modifies this, zobrist
      ensures Clone() == old(Clone()).(whiteQueenSideCastle := false, hash := ToggleIf(old(zobrist.hash), old(whiteQueenSideCastle), zobrist.keys.whiteQueenCastle))
    {
      if whiteQueenSideCastle {
        HashWhiteLoseQueenSideCastle();
      }
      SetWhiteAbleToQueenSideCastle(false);
    }

    /** One arm of `update_castling_ability`: the key toggled if the right was held, then the right cleared. */
    method LoseWhiteKingSideCastle()
      modifies this, zobrist
      ensures Clone() == old(Clone()).(whiteKingSideCastle := false, hash := ToggleIf(old(zobrist.hash), old(whiteKingSideCastle), zobrist.keys.whiteKingCastle))
    {
      if whiteKingSideCastle {
        HashWhiteLoseKingSideCastle();
      }
      SetWhiteAbleToKingSideCastle(false);
    }

    /** The state's `zobrist.update_hash_on_black_lose_queen_side_castle`. */
    method HashBlackLoseQueenSideCastle()
      modifies zobrist
      ensures Clone() == old(Clone()).(hash := Xor(old(zobrist.hash), zobrist.keys.blackQueenCastle))
    {
      zobrist.UpdateHashOnBlackLoseQueenSideCastle();
    }

    /** The state's `zobrist.update_hash_on_black_lose_rook_side_castle`. */
    method HashBlackLoseKingSideCastle()
      modifies zobrist
      ensures Clone() == old(Clone()).(hash := Xor(old(zobrist.hash), zobrist.keys.blackKingCastle))
    {
      zobrist.UpdateHashOnBlackLoseRookSideCastle();
    }

    /** The state's `zobrist.update_hash_on_white_lose_queen_side_castle`. */
    method HashWhiteLoseQueenSideCastle()
      modifies zobrist
      ensures Clone() == old(Clone()).(hash := Xor(old(zobrist.hash), zobrist.keys.whiteQueenCastle))
    {
      zobrist.UpdateHashOnWhiteLoseQueenSideCastle();
    }

    /** The state's `zobrist.update_hash_on_white_lose_rook_side_castle`. */
    method HashWhiteLoseKingSideCastle()
      modifies zobrist
      ensures Clone() == old(Clone()).(hash := Xor(old(zobrist.hash), zobrist.keys.whiteKingCastle))
    {
      zobrist.UpdateHashOnWhiteLoseRookSideCastle();
    }

    /** The state's `zobrist.update_hash_on_black_en_passant_change`. */
    method HashBlackEnPassantChange()
      modifies zobrist
      ensures Clone() == old(Clone()).(hash := Xor(old(zobrist.hash), zobrist.keys.blackEnPassant))
    {
      zobrist.UpdateHashOnBlackEnPassantChange();
    }

    /** The state's `zobrist.update_hash_on_white_en_passant_change`. */
    method HashWhiteEnPassantChange()
      modifies zobrist
      ensures Clone() == old(Clone()).(hash := Xor(old(zobrist.hash), zobrist.keys.whiteEnPassant))
    {
      zobrist.UpdateHashOnWhiteEnPassantChange();
    }

    /** The assignment to `black_en_passant`. */
    method SetBlackEnPassantField(value: int)
      modifies this
      ensures Clone() == old(Clone()).(blackEnPassant := value)
    {
      blackEnPassant := value;
    }

    /** The assignment to `white_en_passant`. */
    method SetWhiteEnPassantField(value: int)
      modifies this
      ensures Clone() == old(Clone()).(whiteEnPassant := value)
    {
      whiteEnPassant := value;
    }

    /**
     * `load_position`: the fields split on whitespace, then loaded one by
     * one, the clocks only when present, and the hash computed afresh.
     */
    method LoadPosition(fen: string)
      requires Valid() && FL.Loadable(fen)
      modifies this, squares, zobrist
      ensures Valid()
      ensures Clone() == FL.LoadPosition(Tables(), old(Clone()), fen)
    {
      var fields := SplitWhitespace(fen);
      LoadPieces(fields[0]);
      LoadActiveColor(fields[1]);
      LoadCastling(fields[2]);
      LoadEnPassant(fields[3]);
      LoadClocks(fields);
      RecomputeHash();
    }

    /** The clock fields of `load_position`, each loaded only when the record has it. */
    method LoadClocks(fields: seq<string>)
      modifies this
      ensures Clone() == old(Clone()).(halfMoves := FL.OptionalClock(fields, 4, old(halfMoves)),
                                       fullMoves := FL.OptionalClock(fields, 5, old(fullMoves)))
    {
      if |fields| > 4 {
        LoadHalfMoveClock(fields[4]);
        if |fields| > 5 {
          LoadFullMoveNumber(fields[5]);
        }
      }
    }

    /** The state's `zobrist.compute_hash(&self.clone())`. */
    method RecomputeHash()
      requires Valid()
      modifies zobrist
      ensures Clone() == old(Clone()).(hash := MZ.PositionHash(zobrist.keys, zobrist.pieceIndex, Position(old(Clone()))))
    {
      ReadySquares(Tables(), squares[..]);
      var _ := zobrist.ComputeHash(Position(Clone()));
    }

    /** `load_half_move_clock`. */
    method LoadHalfMoveClock(field: string)
      modifies this
      ensures Clone() == old(Clone()).(halfMoves := FL.ClockValue(field))
    {
      match Decimal.Parse(field)
      case Some(value) => halfMoves := value;
      case None => halfMoves := 0;
    }

    /** `load_full_move_number`. */
    method LoadFullMoveNumber(field: string)
      modifies this
      ensures Clone() == old(Clone()).(fullMoves := FL.ClockValue(field))
    {
      match Decimal.Parse(field)
      case Some(value) => fullMoves := value;
      case None => fullMoves := 0;
    }

    /** `load_en_passant`, with White's row corrected as in `FenLoading.LoadEnPassant`. */
    method LoadEnPassant(field: string)
      requires FL.EnPassantFits(field, 6)
      modifies this
      ensures Clone() == FL.LoadEnPassant(old(Clone()), field)
    {
      if field == "-" {
        whiteEnPassant := INVALID_BOARD_POSITION;
        blackEnPassant := INVALID_BOARD_POSITION;
      } else {
        var position := FL.EnPassantSquare(field, 6);
        if FL.NamesWhiteSquare(field) {
          whiteEnPassant := position;
          blackEnPassant := INVALID_BOARD_POSITION;
        } else {
          blackEnPassant := position;
          whiteEnPassant := INVALID_BOARD_POSITION;
        }
      }
    }

    /** `load_castling`. */
    method LoadCastling(field: string)
      modifies this
      ensures Clone() == FL.LoadCastling(old(Clone()), field)
    {
      if field == "-" {
        ClearCastling();
      } else {
        GrantCastling(field);
      }
    }

    /** The "-" arm of `load_castling`: no right left, and both kings marked as moved. */
    method ClearCastling()
      modifies this
      ensures Clone() == old(Clone()).(blackQueenSideCastle := false, blackKingSideCastle := false,
                                       whiteQueenSideCastle := false, whiteKingSideCastle := false,
                                       blackKingMoved := true, whiteKingMoved := true)
    {
      SetBlackAbleToQueenSideCastle(false);
      SetBlackAbleToKingSideCastle(false);
      SetWhiteAbleToQueenSideCastle(false);
      SetWhiteAbleToKingSideCastle(false);
      SetBlackKingMoved(true);
      SetWhiteKingMoved(true);
    }

    /** The other arm: each right granted exactly when its letter is present, and neither king moved. */
    method GrantCastling(field: string)
      modifies this
      ensures Clone() == old(Clone()).(whiteKingSideCastle := 'K' in field, whiteQueenSideCastle := 'Q' in field,
                                       blackKingSideCastle := 'k' in field, blackQueenSideCastle := 'q' in field,
                                       whiteKingMoved := false, blackKingMoved := false)
    {
      GrantWhiteCastling(field);
      GrantBlackCastling(field);
    }

    /** White's half of `GrantCastling`. */
    method GrantWhiteCastling(field: string)
      modifies this
      ensures Clone() == old(Clone()).(whiteKingSideCastle := 'K' in field, whiteQueenSideCastle := 'Q' in field,
                                       whiteKingMoved := false)
    {
      SetWhiteAbleToKingSideCastle('K' in field);
      SetWhiteAbleToQueenSideCastle('Q' in field);
      SetWhiteKingMoved(false);
    }

    /** Black's half of `GrantCastling`. */
    method GrantBlackCastling(field: string)
      modifies this
      ensures Clone() == old(Clone()).(blackKingSideCastle := 'k' in field, blackQueenSideCastle := 'q' in field,
                                       blackKingMoved := false)
    {
      SetBlackAbleToKingSideCastle('k' in field);
      SetBlackAbleToQueenSideCastle('q' in field);
      SetBlackKingMoved(false);
    }

    /** `load_active_color`. */
    method LoadActiveColor(field: string)
      modifies this
      ensures Clone() == FL.LoadActiveColor(old(Clone()), field)
    {
      if field == "w" {
        whiteMove := true;
      } else if field == "b" {
        whiteMove := false;
      } else {
        whiteMove := true;
      }
    }

    /** `load_pieces`: the rows one after the other, with one running index from square 0. */
    method LoadPieces(field: string)
      requires Valid() && FL.PiecesFit(field)
      modifies this, squares
      ensures Clone() == FL.LoadPieces(old(Clone()), field)
    {
      var rows := Split(field, '/');
      var index: nat := 0;
      for i := 0 to |rows|
        invariant FL.RowsFit(rows[i..], index)
        invariant FL.PlaceRows(Clone(), rows[i..], index) == FL.PlaceRows(old(Clone()), rows, 0)
      {
        assert rows[i..][1..] == rows[i + 1..];
        FL.PlaceRowEnd(Clone(), rows[i], index);
        index := GenerateRowPiecesFen(rows[i], index);
      }
    }

    /** One letter of `generate_row_pieces_fen`: its code on the square, and a king's square recorded. */
    method PlaceLetter(c: char, index: nat)
      requires Valid() && index < 64
      modifies this, squares
      ensures Clone() == FL.PlaceLetter(old(Clone()), c, index)
    {
      squares[index] := GetFenPieceValue(c);
      if c == 'k' {
        blackKingPosition := index;
      } else if c == 'K' {
        whiteKingPosition := index;
      }
    }

    /**
     * `generate_row_pieces_fen`: a digit advances the index, a letter puts
     * its code on the square and advances it by one, recording a king.
     */
    method GenerateRowPiecesFen(row: string, start: nat) returns (index: nat)
      requires Valid() && FL.RowFits(row, start)
      modifies this, squares
      ensures FL.PlaceRow(old(Clone()), row, start) == FL.Placed(Clone(), index)
    {
      index := start;
      for j := 0 to |row|
        invariant FL.RowFits(row[j..], index)
        invariant FL.PlaceRow(Clone(), row[j..], index) == FL.PlaceRow(old(Clone()), row, start)
      {
        var c := row[j];
        assert row[j..][1..] == row[j + 1..];
        if Decimal.IsDigit(c) {
          index := index + Decimal.DigitValue(c);
        } else {
          PlaceLetter(c, index);
          index := index + 1;
        }
      }
    }
  }

  /** A new state with a record loaded, as `Board::new` and `load_position` build it. */
  method Loaded(keys: MZ.Keys, pieceIndex: int -> int, fen: string) returns (b: BoardState)
    requires Ready(Hashing(keys, pieceIndex)) && FL.Loadable(fen)
    ensures fresh(b) && fresh(b.squares) && fresh(b.zobrist)
    ensures b.Valid() && b.Tables() == Hashing(keys, pieceIndex)
    ensures b.Clone() == FL.LoadPosition(b.Tables(), New(b.Tables()), fen)
  {
    b := new BoardState(keys, pieceIndex);
    b.LoadPosition(fen);
  }
}
