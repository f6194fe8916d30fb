// The rules of the array engine's `Board` (ai-engine/src/game/board.rs) as
// functions on a board state snapshot: making a move with its validation,
// castling, en-passant bookkeeping and captures, and the winner field.
module MailboxGame {
  import opened Wrappers
  import opened PieceCodes
  import opened BitboardEnums
  import opened MailboxState
  import opened PieceMoves

  /** What `_make_move` leaves behind: the new state and the returned result. */
  datatype Outcome = Outcome(state: State, result: Result<()>)

  function Abs(x: int): nat
  {
    if x < 0 then -x else x
  }

  /**
   * `validate_move_pieces`: moving from an empty square, or onto a king, is
   * refused with a message; anything else passes.
   */
  function ValidateMovePieces(moving: nat, existing: nat): (r: Option<string>)
    ensures r.None? <==> moving != EMPTY_PIECE && GetPieceType(existing) != King
    ensures moving == EMPTY_PIECE ==> r == Some("No piece at the position")
    ensures moving != EMPTY_PIECE && GetPieceType(existing) == King ==> r == Some("Can't capture king at position")
  {
    if moving == EMPTY_PIECE then Some("No piece at the position")
    else if GetPieceType(existing) == King then Some("Can't capture king at position")
    else None
  }

  /** The square of the pawn an en-passant capture takes: behind the opponent's passed square. */
  function EnPassantVictim(s: State, moving: nat): int
  {
    if IsWhitePiece(moving) then s.blackEnPassant + 8 else s.whiteEnPassant - 8
  }

  /**
   * `capture_en_passant`: the pawn behind the opponent's passed square goes to
   * the mover's capture list, its square is emptied, and that passed square
   * is cleared.
   */
  function CaptureEnPassant(h: Hashing, s: State, moving: nat): (r: State)
    requires |s.squares| == 64 && IsValidPosition(EnPassantVictim(s, moving))
    ensures |r.squares| == 64
  {
    var emptied := PlacePiece(Booked(s, moving), EnPassantVictim(s, moving), EMPTY_PIECE);
    if IsWhitePiece(moving) then SetBlackEnPassant(h, emptied, INVALID_BOARD_POSITION)
    else SetWhiteEnPassant(h, emptied, INVALID_BOARD_POSITION)
  }

  /** A White pawn's double step from the second rank (48..55) to the fourth (32..39). */
  predicate WhiteDoubleStep(piece: nat, from: int, to: int)
  {
    IsPieceOfType(piece, Pawn) && IsWhitePiece(piece) && 48 <= from <= 55 && 32 <= to <= 39
  }

  /** A Black pawn's double step from the seventh rank (8..15) to the fifth (24..31). */
  predicate BlackDoubleStep(piece: nat, from: int, to: int)
  {
    IsPieceOfType(piece, Pawn) && !IsWhitePiece(piece) && 8 <= from <= 15 && 24 <= to <= 31
  }

  /**
   * `handle_en_passant`: both passed squares are cleared, then a pawn's
   * double step records the square it passed over.
   */
  function HandleEnPassant(h: Hashing, s: State, from: int, piece: nat, to: int): (r: State)
    ensures r.squares == s.squares
  {
    var cleared := SetBlackEnPassant(h, SetWhiteEnPassant(h, s, INVALID_BOARD_POSITION), INVALID_BOARD_POSITION);
    if !IsPieceOfType(piece, Pawn) then cleared
    else if IsWhitePiece(piece) then
      (if 48 <= from <= 55 && 32 <= to <= 39 then SetWhiteEnPassant(h, cleared, to + 8) else cleared)
    else
      (if 8 <= from <= 15 && 24 <= to <= 31 then SetBlackEnPassant(h, cleared, to - 8) else cleared)
  }

  /**
   * `handle_state_update_after`: the en-passant bookkeeping, then a rook
   * leaving its square, or else a rook taken on its square, costs the
   * castling right of that corner.
   */
  function UpdateAfter(h: Hashing, s: State, from: int, moving: nat, to: int, replaced: nat): (r: State)
    ensures r.squares == s.squares
  {
    var s1 := HandleEnPassant(h, s, from, moving, to);
    if GetPieceType(moving) == Rook then UpdateCastlingAbility(h, s1, from, from < 8, from % 8 == 7)
    else if GetPieceType(replaced) == Rook then UpdateCastlingAbility(h, s1, to, to < 8, to % 8 == 7)
    else s1
  }

  /**
   * The rook of a castling king move from `from` to `to`: the queen-side
   * corner (a1 = 56 or a8 = 0) when the king goes left, else the king-side
   * corner (h1 = 63 or h8 = 7), and the square next to the king's origin on
   * that side.
   */
  function CastleRook(from: int, to: int, white: bool): (rook: (int, int))
  {
    (if from > to then (if white then 56 else 0) else (if white then 63 else 7),
     if from > to then from - 1 else from + 1)
  }

  /** `PieceMove::new(from, piece, to)`, the castling rook's step. */
  function RookStep(from: int, piece: nat, to: int): (m: PieceMove)
    ensures m.fromPosition == from && m.toPosition == to && m.pieceValue == piece
    ensures !m.enPassant && !m.promotion && m.promotionType == EMPTY_PIECE
  {
    PieceMove(false, false, from, false, "", 0, piece, false, false, EMPTY_PIECE, to)
  }

  /**
   * How many nested castlings a move from `from` to `to` can start: none
   * unless it spans two squares, and a second one only when some colour's
   * rook step spans two squares as well.
   */
  function CastleDepth(from: int, to: int): nat
  {
    if Abs(from - to) != 2 then 0
    else if Abs(CastleRook(from, to, true).0 - CastleRook(from, to, true).1) == 2
         || Abs(CastleRook(from, to, false).0 - CastleRook(from, to, false).1) == 2 then 2
    else 1
  }

  /** The rook's step of a castling starts fewer nested castlings than the king's move. */
  lemma CastleDepthDrops(from: int, to: int, white: bool)
    requires Abs(from - to) == 2
    ensures CastleDepth(CastleRook(from, to, white).0, CastleRook(from, to, white).1) < CastleDepth(from, to)
  {
  }

  /** No passed square to take from off the board: the source indexes its array there and panics. */
  predicate EnPassantSafe(s: State, mv: PieceMove)
    requires |s.squares| == 64
  {
    mv.enPassant && IsValidPosition(mv.fromPosition) && IsValidPosition(mv.toPosition)
    && ValidateMovePieces(GetPiece(s, mv.fromPosition), GetPiece(s, mv.toPosition)).None?
    ==> IsValidPosition(EnPassantVictim(s, GetPiece(s, mv.fromPosition)))
  }

  /**
   * `_make_move`: refuse off-board squares and invalid pieces; take the pawn
   * of an en-passant capture, replace a promoted pawn (refusing a missing
   * promotion type) or handle a king move; then move the piece and, unless
   * this is the castling rook's step, update the en-passant squares and
   * castling rights.
   */
  function MakeMove(h: Hashing, s: State, mv: PieceMove, rookCastling: bool): (o: Outcome)
    requires Ready(h) && |s.squares| == 64 && mv.promotionType >= 0 && EnPassantSafe(s, mv)
    ensures |o.state.squares| == 64
    ensures o.result.Err? ==> o.state == s
    decreases CastleDepth(mv.fromPosition, mv.toPosition), 2
  {
    var from := mv.fromPosition;
    var to := mv.toPosition;
    if !IsValidPosition(from) || !IsValidPosition(to) then Outcome(s, Err("Invalid board position"))
    else
      var moving := GetPiece(s, from);
      var existing := GetPiece(s, to);
      match ValidateMovePieces(moving, existing)
      case Some(message) => Outcome(s, Err(message))
      case None =>
        if mv.enPassant then
          Outcome(Finish(h, CaptureEnPassant(h, s, moving), from, moving, to, existing, rookCastling), Ok(()))
        else if mv.promotion then
          if mv.promotionType == EMPTY_PIECE then Outcome(s, Err("Pawn needs promotion type."))
          else Outcome(Finish(h, s, from, mv.promotionType, to, existing, rookCastling), Ok(()))
        else if GetPieceType(moving) == King then
          Outcome(Finish(h, HandleKingMove(h, s, from, moving, to), from, moving, to, existing, rookCastling), Ok(()))
        else
          Outcome(Finish(h, s, from, moving, to, existing, rookCastling), Ok(()))
  }

  /** The common tail of `_make_move`: `move_piece`, then the updates a castling rook's step skips. */
  function Finish(h: Hashing, s: State, from: int, moving: nat, to: int, existing: nat, rookCastling: bool): (r: State)
    requires Ready(h) && |s.squares| == 64 && IsValidPosition(from) && IsValidPosition(to)
    ensures |r.squares| == 64
  {
    var moved := MailboxState.MovePiece(h, s, from, rookCastling, moving, to);
    if rookCastling then moved else UpdateAfter(h, moved, from, moving, to, existing)
  }

  /**
   * `handle_king_move`: a two-square step of a king that has not moved
   * castles (whatever the castling returns), and the king is marked as moved.
   */
  function HandleKingMove(h: Hashing, s: State, from: int, moving: nat, to: int): (r: State)
    requires Ready(h) && |s.squares| == 64
    ensures |r.squares| == 64
    decreases CastleDepth(from, to), 1
  {
    var white := IsWhitePiece(moving);
    var castled :=
      if Abs(from - to) == 2 && ((white && !s.whiteKingMoved) || (!white && !s.blackKingMoved))
      then Castle(h, s, from, to, white).state
      else s;
    if white then castled.(whiteKingMoved := true) else castled.(blackKingMoved := true)
  }

  /**
   * `castle`: both castling rights of the king's colour are cleared (the
   * hash is not touched), then the rook steps next to the king's origin as a
   * castling rook's move.
   */
  function Castle(h: Hashing, s: State, from: int, to: int, white: bool): (o: Outcome)
    requires Ready(h) && |s.squares| == 64 && Abs(from - to) == 2
    ensures |o.state.squares| == 64
    decreases CastleDepth(from, to), 0
  {
    var (rook, newRook) := CastleRook(from, to, white);
    var cleared := ClearRights(s, white);
    CastleDepthDrops(from, to, white);
    MakeMove(h, cleared, RookStep(rook, GetPiece(cleared, rook), newRook), true)
  }

  /** The two castling setters of `castle`: both rights of the colour cleared, the hash left alone. */
  function ClearRights(s: State, white: bool): (r: State)
  {
    if white then s.(whiteQueenSideCastle := false, whiteKingSideCastle := false)
    else s.(blackQueenSideCastle := false, blackKingSideCastle := false)
  }

  /** `set_winner`: in check, the side not to move wins; otherwise a draw, Black | White. */
  function WinnerCode(isKingInCheck: bool, isWhiteMove: bool): (code: nat)
    ensures code in {BLACK, WHITE, BLACK + WHITE}
  {
    if isKingInCheck then (if isWhiteMove then BLACK else WHITE) else 24
  }

  /** `get_winner_fen`: 'w', 'b', 'd' for a draw, '-' while the game goes on. */
  function WinnerFen(winner: nat): (c: char)
    ensures c in {'w', 'b', 'd', '-'}
    ensures c == '-' <==> winner !in {BLACK, WHITE, BLACK + WHITE}
  {
    if winner == WHITE then 'w'
    else if winner == BLACK then 'b'
    else if winner == BLACK + WHITE then 'd'
    else '-'
  }

  /** The winner `set_winner` records reads back as the side not to move after a check, else a draw. */
  lemma WinnerReadsBack(isKingInCheck: bool, isWhiteMove: bool)
    ensures WinnerFen(WinnerCode(isKingInCheck, isWhiteMove))
         == (if !isKingInCheck then 'd' else if isWhiteMove then 'b' else 'w')
    ensures WinnerFen(WinnerCode(isKingInCheck, isWhiteMove)) != '-'
  {
  }

  /**
   * `_make_move` fails exactly for an off-board square, an empty origin, a
   * king on the target, or a promotion (not en passant) without a type, with
   * the message of the first check that fails; a failure leaves the state as
   * it was.
   */
  lemma MakeMoveRefusals(h: Hashing, s: State, mv: PieceMove, rookCastling: bool)
    requires Ready(h) && |s.squares| == 64 && mv.promotionType >= 0 && EnPassantSafe(s, mv)
    ensures var o := MakeMove(h, s, mv, rookCastling);
      var from, to := mv.fromPosition, mv.toPosition;
      (o.result.Err? <==>
        !IsValidPosition(from) || !IsValidPosition(to) || GetPiece(s, from) == EMPTY_PIECE
        || GetPieceType(GetPiece(s, to)) == King
        || (!mv.enPassant && mv.promotion && mv.promotionType == EMPTY_PIECE))
      && (!IsValidPosition(from) || !IsValidPosition(to) ==> o.result == Err("Invalid board position"))
      && (IsValidPosition(from) && IsValidPosition(to) && GetPiece(s, from) == EMPTY_PIECE
          ==> o.result == Err("No piece at the position"))
      && (o.result.Err? ==> o.state == s)
  {
  }

  /**
   * After `handle_en_passant` the White passed square is set only by a White
   * pawn's double step (to the square it passed), the Black one only by a
   * Black pawn's double step; otherwise both are cleared, and nothing else
   * but the hash changes.
   */
  lemma EnPassantSquaresAfter(h: Hashing, s: State, from: int, piece: nat, to: int)
    ensures var r := HandleEnPassant(h, s, from, piece, to);
      r.whiteEnPassant == (if WhiteDoubleStep(piece, from, to) then to + 8 else INVALID_BOARD_POSITION)
      && r.blackEnPassant == (if BlackDoubleStep(piece, from, to) then to - 8 else INVALID_BOARD_POSITION)
      && Passing(r, s)
  {
    var cleared := SetBlackEnPassant(h, SetWhiteEnPassant(h, s, INVALID_BOARD_POSITION), INVALID_BOARD_POSITION);
    assert Passing(cleared, s);
    if WhiteDoubleStep(piece, from, to) {
      assert HandleEnPassant(h, s, from, piece, to) == SetWhiteEnPassant(h, cleared, to + 8);
    } else if BlackDoubleStep(piece, from, to) {
      assert HandleEnPassant(h, s, from, piece, to) == SetBlackEnPassant(h, cleared, to - 8);
    } else {
      assert HandleEnPassant(h, s, from, piece, to) == cleared;
    }
  }

  /** `r` differs from `s` in the passed squares and the hash at most. */
  predicate Passing(r: State, s: State)
  {
    r.(whiteEnPassant := s.whiteEnPassant, blackEnPassant := s.blackEnPassant, hash := s.hash) == s
  }

  /**
   * An en-passant capture empties the taken pawn's square and leaves every
   * other square alone.
   */
  lemma CaptureEnPassantTakesPawn(h: Hashing, s: State, moving: nat)
    requires |s.squares| == 64 && IsValidPosition(EnPassantVictim(s, moving))
    ensures var r := CaptureEnPassant(h, s, moving);
      var victim := EnPassantVictim(s, moving);
      GetPiece(r, victim) == EMPTY_PIECE && forall q :: q != victim ==> GetPiece(r, q) == GetPiece(s, q)
  {
    var victim := EnPassantVictim(s, moving);
    var booked := Booked(s, moving);
    var placed := PlacePiece(booked, victim, EMPTY_PIECE);
    PlacePieceWrites(booked, victim, EMPTY_PIECE);
    assert forall q :: GetPiece(booked, q) == GetPiece(s, q);
    assert CaptureEnPassant(h, s, moving).squares == placed.squares;
  }

  /** The state with the pawn an en-passant capture takes appended to the mover's captures. */
  function Booked(s: State, moving: nat): (r: State)
    requires |s.squares| == 64 && IsValidPosition(EnPassantVictim(s, moving))
    ensures r.squares == s.squares
  {
    var taken := GetPiece(s, EnPassantVictim(s, moving));
    if IsWhitePiece(moving) then s.(whiteCaptures := s.whiteCaptures + [taken])
    else s.(blackCaptures := s.blackCaptures + [taken])
  }

  /**
   * An en-passant capture appends the taken pawn to the mover's captures
   * only, and clears the opponent's passed square only.
   */
  lemma CaptureEnPassantBooks(h: Hashing, s: State, moving: nat)
    requires |s.squares| == 64 && IsValidPosition(EnPassantVictim(s, moving))
    ensures var r := CaptureEnPassant(h, s, moving);
      var taken := GetPiece(s, EnPassantVictim(s, moving));
      (IsWhitePiece(moving) ==>
         r.whiteCaptures == s.whiteCaptures + [taken] && r.blackCaptures == s.blackCaptures
         && r.blackEnPassant == INVALID_BOARD_POSITION && r.whiteEnPassant == s.whiteEnPassant)
      && (!IsWhitePiece(moving) ==>
         r.blackCaptures == s.blackCaptures + [taken] && r.whiteCaptures == s.whiteCaptures
         && r.whiteEnPassant == INVALID_BOARD_POSITION && r.blackEnPassant == s.blackEnPassant)
  {
  }

  /**
   * `handle_king_move`: the king is marked as moved; without a castling
   * (not a two-square step, or that king has moved) nothing else changes,
   * and after one both castling rights of its colour are gone.
   */
  lemma KingMoveEffects(h: Hashing, s: State, from: int, moving: nat, to: int)
    requires Ready(h) && |s.squares| == 64
    ensures var r := HandleKingMove(h, s, from, moving, to);
      var white := IsWhitePiece(moving);
      var castles := Abs(from - to) == 2 && !(if white then s.whiteKingMoved else s.blackKingMoved);
      (if white then r.whiteKingMoved else r.blackKingMoved)
      && (!castles ==> r == (if white then s.(whiteKingMoved := true) else s.(blackKingMoved := true)))
      && (castles && white ==> !r.whiteQueenSideCastle && !r.whiteKingSideCastle)
      && (castles && !white ==> !r.blackQueenSideCastle && !r.blackKingSideCastle)
  {
    var white := IsWhitePiece(moving);
    if Abs(from - to) == 2 && !(if white then s.whiteKingMoved else s.blackKingMoved) {
      CastleClearsRights(h, s, from, to, white);
    }
  }

  /** A castling takes both rights of the castling colour, whatever becomes of the rook's step. */
  lemma CastleClearsRights(h: Hashing, s: State, from: int, to: int, white: bool)
    requires Ready(h) && |s.squares| == 64 && Abs(from - to) == 2
    ensures var r := Castle(h, s, from, to, white).state;
      (white ==> !r.whiteQueenSideCastle && !r.whiteKingSideCastle)
      && (!white ==> !r.blackQueenSideCastle && !r.blackKingSideCastle)
  {
    CastleLosesRights(h, s, from, to, white);
  }

  /** Every castling right `r` holds, `s` held too. */
  predicate RightsWithin(r: State, s: State)
  {
    (r.whiteQueenSideCastle ==> s.whiteQueenSideCastle) && (r.whiteKingSideCastle ==> s.whiteKingSideCastle)
    && (r.blackQueenSideCastle ==> s.blackQueenSideCastle) && (r.blackKingSideCastle ==> s.blackKingSideCastle)
  }

  /** Castling rights are only ever lost: no move, however nested its castlings, grants one. */
  lemma {:induction false} MakeMoveLosesRights(h: Hashing, s: State, mv: PieceMove, rookCastling: bool)
    requires Ready(h) && |s.squares| == 64 && mv.promotionType >= 0 && EnPassantSafe(s, mv)
    ensures RightsWithin(MakeMove(h, s, mv, rookCastling).state, s)
    decreases CastleDepth(mv.fromPosition, mv.toPosition), 2
  {
    var from, to := mv.fromPosition, mv.toPosition;
    if IsValidPosition(from) && IsValidPosition(to) {
      var moving := GetPiece(s, from);
      var existing := GetPiece(s, to);
      if ValidateMovePieces(moving, existing).None? {
        if mv.enPassant {
          CaptureKeepsRights(h, s, moving);
          FinishLosesRights(h, CaptureEnPassant(h, s, moving), from, moving, to, existing, rookCastling);
        } else if mv.promotion {
          if mv.promotionType != EMPTY_PIECE {
            FinishLosesRights(h, s, from, mv.promotionType, to, existing, rookCastling);
          }
        } else if GetPieceType(moving) == King {
          KingMoveLosesRights(h, s, from, moving, to);
          FinishLosesRights(h, HandleKingMove(h, s, from, moving, to), from, moving, to, existing, rookCastling);
        } else {
          FinishLosesRights(h, s, from, moving, to, existing, rookCastling);
        }
      }
    }
  }

  /** `handle_king_move` grants no castling right. */
  lemma {:induction false} KingMoveLosesRights(h: Hashing, s: State, from: int, moving: nat, to: int)
    requires Ready(h) && |s.squares| == 64
    ensures RightsWithin(HandleKingMove(h, s, from, moving, to), s)
    decreases CastleDepth(from, to), 1
  {
    var white := IsWhitePiece(moving);
    if Abs(from - to) == 2 && ((white && !s.whiteKingMoved) || (!white && !s.blackKingMoved)) {
      CastleLosesRights(h, s, from, to, white);
    }
  }

  /** `castle` grants no castling right and takes both of the castling colour. */
  lemma {:induction false} CastleLosesRights(h: Hashing, s: State, from: int, to: int, white: bool)
    requires Ready(h) && |s.squares| == 64 && Abs(from - to) == 2
    ensures var r := Castle(h, s, from, to, white).state;
      RightsWithin(r, s)
      && (white ==> !r.whiteQueenSideCastle && !r.whiteKingSideCastle)
      && (!white ==> !r.blackQueenSideCastle && !r.blackKingSideCastle)
    decreases CastleDepth(from, to), 0
  {
    var (rook, newRook) := CastleRook(from, to, white);
    var cleared := ClearRights(s, white);
    CastleDepthDrops(from, to, white);
    MakeMoveLosesRights(h, cleared, RookStep(rook, GetPiece(cleared, rook), newRook), true);
  }

  /** The tail of `_make_move` grants no castling right. */
  lemma FinishLosesRights(h: Hashing, s: State, from: int, moving: nat, to: int, existing: nat, rookCastling: bool)
    requires Ready(h) && |s.squares| == 64 && IsValidPosition(from) && IsValidPosition(to)
    ensures RightsWithin(Finish(h, s, from, moving, to, existing, rookCastling), s)
  {
    var moved := MailboxState.MovePiece(h, s, from, rookCastling, moving, to);
    MovePieceKeepsRights(h, s, from, rookCastling, moving, to);
    if !rookCastling {
      UpdateAfterLosesRights(h, moved, from, moving, to, existing);
    }
  }

  /** `move_piece` leaves the castling rights alone. */
  lemma MovePieceKeepsRights(h: Hashing, s: State, from: int, rookCastling: bool, piece: nat, to: int)
    requires Ready(h) && |s.squares| == 64 && IsValidPosition(from) && IsValidPosition(to)
    ensures var r := MailboxState.MovePiece(h, s, from, rookCastling, piece, to);
      RightsWithin(r, s) && RightsWithin(s, r)
  {
  }

  /** `handle_state_update_after` grants no castling right. */
  lemma UpdateAfterLosesRights(h: Hashing, s: State, from: int, moving: nat, to: int, replaced: nat)
    ensures RightsWithin(UpdateAfter(h, s, from, moving, to, replaced), s)
  {
    var s1 := HandleEnPassant(h, s, from, moving, to);
    EnPassantSquaresAfter(h, s, from, moving, to);
    assert RightsWithin(s1, s);
    if GetPieceType(moving) == Rook {
      CastlingAbilityLosesRights(h, s1, from, from < 8, from % 8 == 7);
    } else if GetPieceType(replaced) == Rook {
      CastlingAbilityLosesRights(h, s1, to, to < 8, to % 8 == 7);
    }
  }

  /** An en-passant capture leaves the castling rights alone. */
  lemma CaptureKeepsRights(h: Hashing, s: State, moving: nat)
    requires |s.squares| == 64 && IsValidPosition(EnPassantVictim(s, moving))
    ensures RightsWithin(CaptureEnPassant(h, s, moving), s)
  {
  }

  /** `update_castling_ability` grants no castling right. */
  lemma CastlingAbilityLosesRights(h: Hashing, s: State, index: int, isBlack: bool, isKingSide: bool)
    ensures RightsWithin(UpdateCastlingAbility(h, s, index, isBlack, isKingSide), s)
  {
  }


  /**
   * `castle` with a rook (not a king) in the corner and no king beside the
   * king's origin: the rook lands beside the origin, its corner is emptied,
   * both rights of the colour are gone and the turn does not pass.
   */
  lemma CastleMovesRook(h: Hashing, s: State, from: int, to: int, white: bool)
    requires Ready(h) && |s.squares| == 64 && Abs(from - to) == 2
    requires var (rook, newRook) := CastleRook(from, to, white);
      IsValidPosition(newRook) && rook != newRook
      && GetPiece(s, rook) != EMPTY_PIECE && GetPieceType(GetPiece(s, rook)) != King
      && GetPieceType(GetPiece(s, newRook)) != King
    ensures var (rook, newRook) := CastleRook(from, to, white);
      var o := Castle(h, s, from, to, white);
      o.result.Ok?
      && GetPiece(o.state, newRook) == GetPiece(s, rook) && GetPiece(o.state, rook) == EMPTY_PIECE
      && o.state.whiteMove == s.whiteMove
      && (white ==> !o.state.whiteQueenSideCastle && !o.state.whiteKingSideCastle)
      && (!white ==> !o.state.blackQueenSideCastle && !o.state.blackKingSideCastle)
  {
    var (rook, newRook) := CastleRook(from, to, white);
    var cleared := ClearRights(s, white);
    var mv := RookStep(rook, GetPiece(cleared, rook), newRook);
    assert GetPiece(cleared, rook) == GetPiece(s, rook) && GetPiece(cleared, newRook) == GetPiece(s, newRook);
    MoveSquares(h, cleared, rook, true, GetPiece(s, rook), newRook);
    MoveClocks(h, cleared, rook, true, GetPiece(s, rook), newRook);
    CastleLosesRights(h, s, from, to, white);
  }

  /**
   * The incrementally updated hash stays equal to the recomputed one over an
   * ordinary move: not en passant, not a promotion, not a king (so no
   * castling), from one square to another.
   */
  lemma OrdinaryMoveKeepsHash(h: Hashing, s: State, mv: PieceMove)
    requires Ready(h) && HashAgrees(h, s) && |s.squares| == 64 && mv.promotionType >= 0
    requires !mv.enPassant && !mv.promotion && mv.fromPosition != mv.toPosition
    requires IsValidPosition(mv.fromPosition) && IsValidPosition(mv.toPosition)
    requires GetPiece(s, mv.fromPosition) != EMPTY_PIECE && GetPieceType(GetPiece(s, mv.fromPosition)) != King
    requires GetPieceType(GetPiece(s, mv.toPosition)) != King
    ensures MakeMove(h, s, mv, false).result.Ok?
    ensures HashAgrees(h, MakeMove(h, s, mv, false).state)
  {
    var from, to := mv.fromPosition, mv.toPosition;
    var moving := GetPiece(s, from);
    MoveKeepsHash(h, s, from, to);
    var moved := MailboxState.MovePiece(h, s, from, false, moving, to);
    UpdateAfterKeepsHash(h, moved, from, moving, to, GetPiece(s, to));
  }

  /** `handle_state_update_after` keeps the hash equal to the recomputed one. */
  lemma UpdateAfterKeepsHash(h: Hashing, s: State, from: int, moving: nat, to: int, replaced: nat)
    requires HashAgrees(h, s)
    ensures HashAgrees(h, UpdateAfter(h, s, from, moving, to, replaced))
  {
    var s1 := HandleEnPassant(h, s, from, moving, to);
    EnPassantKeepsHash(h, s, from, moving, to);
    if GetPieceType(moving) == Rook {
      CastlingAbilityKeepsHash(h, s1, from, from < 8, from % 8 == 7);
    } else if GetPieceType(replaced) == Rook {
      CastlingAbilityKeepsHash(h, s1, to, to < 8, to % 8 == 7);
    }
  }

  /**
   * `handle_en_passant` keeps the hash equal to the recomputed one: it only
   * ever clears a passed square or sets one that was just cleared.
   */
  lemma EnPassantKeepsHash(h: Hashing, s: State, from: int, piece: nat, to: int)
    requires HashAgrees(h, s)
    ensures HashAgrees(h, HandleEnPassant(h, s, from, piece, to))
  {
    var s1 := SetWhiteEnPassant(h, s, INVALID_BOARD_POSITION);
    WhiteEnPassantKeepsHash(h, s, INVALID_BOARD_POSITION);
    var cleared := SetBlackEnPassant(h, s1, INVALID_BOARD_POSITION);
    BlackEnPassantKeepsHash(h, s1, INVALID_BOARD_POSITION);
    if WhiteDoubleStep(piece, from, to) {
      WhiteEnPassantKeepsHash(h, cleared, to + 8);
    } else if BlackDoubleStep(piece, from, to) {
      BlackEnPassantKeepsHash(h, cleared, to - 8);
    }
  }
}
