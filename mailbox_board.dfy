// The array engine's `Board` (ai-engine/src/game/board.rs): a board state
// changed in place by moves, and the stack of earlier states that
// `undo_last_move` pops. Each method is proved against the function of the
// same name in `MailboxGame`.
module MailboxBoard {
  import opened Wrappers
  import opened Strings
  import Decimal
  import opened PieceCodes
  import opened BitboardEnums
  import opened MailboxState
  import opened PieceMoves
  import opened MailboxGame
  import opened MailboxBoardState
  import FL = FenLoading
  import MZ = MailboxZobrist
  import BoardFen

  /** The ranks of the starting position, a8..h8 first. */
  const INITIAL_RANKS: seq<string> := ["rnbqkbnr", "pppppppp", "8", "8", "8", "8", "PPPPPPPP", "RNBQKBNR"]

  /** `INITIAL_FEN`, "rnbqkbnr/pppppppp/8/8/8/8/PPPPPPPP/RNBQKBNR w KQkq - 0 1", built from its fields. */
  const INITIAL_FEN: string := JoinSpaces(INITIAL_FIELDS)

  /** The six fields of the starting record. */
  const INITIAL_FIELDS: seq<string> := [Join(INITIAL_RANKS, '/'), "w", "KQkq", "-", "0", "1"]

  /** The state `Board::new` starts from: a new state with the starting record loaded. */
  function InitialState(h: Hashing): (s: State)
    requires Ready(h)
    ensures HashAgrees(h, s)
  {
    InitialFenLoadable();
    FL.LoadPosition(h, MailboxState.New(h), INITIAL_FEN)
  }

  method InitialBoardState(keys: MZ.Keys, pieceIndex: int -> int) returns (b: BoardState)
    requires Ready(Hashing(keys, pieceIndex))
    ensures fresh(b) && b.Valid() && b.Tables() == Hashing(keys, pieceIndex)
    ensures b.Clone() == InitialState(Hashing(keys, pieceIndex))
  {
    InitialFenLoadable();
    b := Loaded(keys, pieceIndex, INITIAL_FEN);
  }

  class Board {
    var state: BoardState
    /** `state_history`: the state before each move made, the latest last. */
    var history: seq<State>

    /** A valid state, and every saved state has 64 squares. */
    ghost predicate Valid()
      reads this
    {
      state.Valid() && forall i :: 0 <= i < |history| ==> |history[i].squares| == 64
    }

    /** The key tables the state hashes with. */
    function Tables(): Hashing
      reads this
    {
      state.Tables()
    }

    /** `Board::new`: a new state loaded with the starting position, and no history. */
    constructor (keys: MZ.Keys, pieceIndex: int -> int)
      requires Ready(Hashing(keys, pieceIndex))
      ensures Valid() && Tables() == Hashing(keys, pieceIndex) && history == []
      ensures state.Clone() == InitialState(Hashing(keys, pieceIndex))
    {
      var initial := InitialBoardState(keys, pieceIndex);
      state := initial;
      history := [];
      new;
      assert state == initial;
    }

    /** `set_winner`. */
    method SetWinner(isKingInCheck: bool, isWhiteMove: bool)
      modifies state
      ensures state.Clone() == old(state.Clone()).(winner := WinnerCode(isKingInCheck, isWhiteMove))
    {
      state.SetWinner(WinnerCode(isKingInCheck, isWhiteMove));
    }

    /** `get_winner_fen`. */
    function GetWinnerFen(): (c: char)
      reads this, state
      ensures c in {'w', 'b', 'd', '-'}
    {
      WinnerFen(state.winner)
    }

    /** `is_game_finished`: a winner or a draw has been recorded. */
    function IsGameFinished(): (finished: bool)
      reads this, state
      ensures finished <==> state.winner in {BLACK, WHITE, BLACK + WHITE}
    {
      GetWinnerFen() != '-'
    }

    /**
     * `move_piece`: the state is saved on the history, whether or not the
     * move is then refused, and the move made.
     */
    method MovePiece(mv: PieceMove) returns (r: Result<()>)
      requires Valid() && mv.promotionType >= 0 && EnPassantSafe(state.Clone(), mv)
      modifies this, state, state.squares, state.zobrist
      ensures Valid() && state == old(state)
      ensures history == old(history) + [old(state.Clone())]
      ensures var o := MailboxGame.MakeMove(Tables(), old(state.Clone()), mv, false);
        state.Clone() == o.state && r == o.result
    {
      history := history + [state.Clone()];
      r := MakeMove(mv, false);
    }

    /** `undo_last_move`: the latest saved state comes back; with no history nothing happens. */
    method UndoLastMove()
      requires Valid()
      modifies this
      ensures Valid() && Tables() == old(Tables())
      ensures old(history) == [] ==> history == [] && state == old(state)
      ensures old(history) != [] ==>
        history == old(history)[..|old(history)| - 1] && state.Clone() == old(history)[|old(history)| - 1]
    {
      if history != [] {
        var last := history[|history| - 1];
        history := history[..|history| - 1];
        state := new BoardState.Of(state.zobrist.keys, state.zobrist.pieceIndex, last);
      }
    }

    /** A move followed by its undo gives back the state and the history as they were. */
    method MoveThenUndo(mv: PieceMove) returns (r: Result<()>)
      requires Valid() && mv.promotionType >= 0 && EnPassantSafe(state.Clone(), mv)
      modifies this, state, state.squares, state.zobrist
      ensures Valid() && Tables() == old(Tables())
      ensures history == old(history) && state.Clone() == old(state.Clone())
    {
      r := MovePiece(mv);
      UndoLastMove();
    }

    /** `_make_move`. */
    method MakeMove(mv: PieceMove, rookCastling: bool) returns (r: Result<()>)
      requires Valid() && mv.promotionType >= 0 && EnPassantSafe(state.Clone(), mv)
      modifies state, state.squares, state.zobrist
      ensures var o := MailboxGame.MakeMove(Tables(), old(state.Clone()), mv, rookCastling);
        state.Clone() == o.state && r == o.result
      decreases CastleDepth(mv.fromPosition, mv.toPosition), 2
    {
      var from, to := mv.fromPosition, mv.toPosition;
      if !IsValidPosition(from) || !IsValidPosition(to) {
        return Err("Invalid board position");
      }
      var moving := state.GetPiece(from);
      var existing := state.GetPiece(to);
      var refusal := ValidateMovePieces(moving, existing);
      if refusal.Some? {
        return Err(refusal.value);
      }
      if mv.enPassant {
        CaptureEnPassant(moving);
      } else if mv.promotion {
        if mv.promotionType == EMPTY_PIECE {
          return Err("Pawn needs promotion type.");
        }
        moving := mv.promotionType;
      } else if GetPieceType(moving) == King {
        HandleKingMove(from, moving, to);
      }
      Finish(from, moving, to, existing, rookCastling);
      return Ok(());
    }

    /** The tail of `_make_move`: the state's `move_piece`, then the updates a castling rook's step skips. */
    method Finish(from: int, moving: nat, to: int, existing: nat, rookCastling: bool)
      requires Valid() && IsValidPosition(from) && IsValidPosition(to)
      modifies state, state.squares, state.zobrist
      ensures state.Clone() == MailboxGame.Finish(Tables(), old(state.Clone()), from, moving, to, existing, rookCastling)
    {
      state.MovePiece(from, rookCastling, moving, to);
      if !rookCastling {
        HandleStateUpdateAfter(from, moving, to, existing);
      }
    }

    /** `handle_state_update_after`. */
    method HandleStateUpdateAfter(from: int, moving: nat, to: int, replaced: nat)
      requires Valid()
      modifies state, state.zobrist
      ensures state.Clone() == UpdateAfter(Tables(), old(state.Clone()), from, moving, to, replaced)
    {
      HandleEnPassant(from, moving, to);
      if GetPieceType(moving) == Rook {
        state.UpdateCastlingAbility(from, from < 8, from % 8 == 7);
      } else if GetPieceType(replaced) == Rook {
        state.UpdateCastlingAbility(to, to < 8, to % 8 == 7);
      }
    }

    /** `handle_king_move`. */
    method HandleKingMove(from: int, moving: nat, to: int)
      requires Valid()
      modifies state, state.squares, state.zobrist
      ensures state.Clone() == MailboxGame.HandleKingMove(Tables(), old(state.Clone()), from, moving, to)
      decreases CastleDepth(from, to), 1
    {
      var white := IsWhitePiece(moving);
      if Abs(from - to) == 2 && ((white && !state.whiteKingMoved) || (!white && !state.blackKingMoved)) {
        var _ := Castle(from, to, white);
      }
      MarkKingMoved(white);
    }

    /** The end of `handle_king_move`: the king of the colour marked as moved. */
    method MarkKingMoved(white: bool)
      modifies state
      ensures white ==> state.Clone() == old(state.Clone()).(whiteKingMoved := true)
      ensures !white ==> state.Clone() == old(state.Clone()).(blackKingMoved := true)
    {
      if white {
        state.SetWhiteKingMoved(true);
      } else {
        state.SetBlackKingMoved(true);
      }
    }

    /** `castle`. */
    method Castle(from: int, to: int, white: bool) returns (r: Result<()>)
      requires Valid() && Abs(from - to) == 2
      modifies state, state.squares, state.zobrist
      ensures var o := MailboxGame.Castle(Tables(), old(state.Clone()), from, to, white);
        state.Clone() == o.state && r == o.result
      decreases CastleDepth(from, to), 0
    {
      var (rook, newRook) := CastleRook(from, to, white);
      ClearCastlingRights(white);
      var rookPiece := state.GetPiece(rook);
      CastleDepthDrops(from, to, white);
      r := MakeMove(RookStep(rook, rookPiece, newRook), true);
    }

    /** The castling setters of `castle`. */
    method ClearCastlingRights(white: bool)
      modifies state
      ensures state.Clone() == ClearRights(old(state.Clone()), white)
    {
      if white {
        state.SetWhiteAbleToQueenSideCastle(false);
        state.SetWhiteAbleToKingSideCastle(false);
      } else {
        state.SetBlackAbleToQueenSideCastle(false);
        state.SetBlackAbleToKingSideCastle(false);
      }
    }

    /** `capture_en_passant`. */
    method CaptureEnPassant(moving: nat)
      requires Valid() && IsValidPosition(EnPassantVictim(state.Clone(), moving))
      modifies state, state.squares, state.zobrist
      ensures state.Clone() == MailboxGame.CaptureEnPassant(Tables(), old(state.Clone()), moving)
    {
      if IsWhitePiece(moving) {
        TakeBlackPawn();
      } else {
        TakeWhitePawn();
      }
    }

    /** The White mover's arm of `capture_en_passant`: the Black pawn behind Black's passed square is taken. */
    method TakeBlackPawn()
      requires Valid() && IsValidPosition(state.blackEnPassant + 8)
      modifies state, state.squares, state.zobrist
      ensures state.Clone() == MailboxGame.CaptureEnPassant(Tables(), old(state.Clone()), WHITE_PAWN)
    {
      var position := state.blackEnPassant + 8;
      var pieceValue := state.GetPiece(position);
      state.AppendWhiteCapture(pieceValue);
      state.PlacePiece(position, EMPTY_PIECE);
      state.SetBlackEnPassant(INVALID_BOARD_POSITION);
    }

    /** The Black mover's arm of `capture_en_passant`: the White pawn behind White's passed square is taken. */
    method TakeWhitePawn()
      requires Valid() && IsValidPosition(state.whiteEnPassant - 8)
      modifies state, state.squares, state.zobrist
      ensures state.Clone() == MailboxGame.CaptureEnPassant(Tables(), old(state.Clone()), BLACK_PAWN)
    {
      var position := state.whiteEnPassant - 8;
      var pieceValue := state.GetPiece(position);
      state.AppendBlackCapture(pieceValue);
      state.PlacePiece(position, EMPTY_PIECE);
      state.SetWhiteEnPassant(INVALID_BOARD_POSITION);
    }

    /** `handle_en_passant`. */
    method HandleEnPassant(from: int, piece: nat, to: int)
      modifies state, state.zobrist
      ensures state.Clone() == MailboxGame.HandleEnPassant(Tables(), old(state.Clone()), from, piece, to)
    {
      state.SetWhiteEnPassant(INVALID_BOARD_POSITION);
      state.SetBlackEnPassant(INVALID_BOARD_POSITION);
      if !IsPieceOfType(piece, Pawn) {
        return;
      }
      if IsWhitePiece(piece) {
        if 48 <= from <= 55 && 32 <= to <= 39 {
          state.SetWhiteEnPassant(to + 8);
        }
      } else {
        if 8 <= from <= 15 && 24 <= to <= 31 {
          state.SetBlackEnPassant(to - 8);
        }
      }
    }

    /** `load_position`: a new state with the record loaded replaces the current one; the history stays. */
    method LoadPosition(fen: string)
      requires Valid() && FL.Loadable(fen)
      modifies this
      ensures Valid() && Tables() == old(Tables()) && history == old(history)
      ensures state.Clone() == FL.LoadPosition(Tables(), MailboxState.New(Tables()), fen)
    {
      state := Loaded(state.zobrist.keys, state.zobrist.pieceIndex, fen);
    }
  }

  /** The starting record is one `load_position` reads. */
  lemma InitialFenLoadable()
    ensures FL.Loadable(INITIAL_FEN)
  {
    InitialFieldsAreWords();
    SplitJoin(INITIAL_FIELDS);
    InitialRanksPlain();
    SplitJoinPieces(INITIAL_RANKS, '/');
    InitialRanksFit();
  }

  /** Every field of the starting record is a word. */
  lemma InitialFieldsAreWords()
    ensures forall i :: 0 <= i < |INITIAL_FIELDS| ==> IsWord(INITIAL_FIELDS[i])
  {
    InitialRanksJoinIsWord();
    PrintableIsWord("w");
    PrintableIsWord("KQkq");
    PrintableIsWord("-");
    PrintableIsWord("0");
    PrintableIsWord("1");
  }

  /** Printable ASCII text, non-empty, is a word. */
  lemma PrintableIsWord(w: string)
    requires |w| > 0 && forall i :: 0 <= i < |w| ==> '!' <= w[i] <= '~'
    ensures IsWord(w)
  {
  }

  /** The joined ranks, the first field, are a word. */
  lemma InitialRanksJoinIsWord()
    ensures IsWord(Join(INITIAL_RANKS, '/'))
  {
    InitialRanksPlain();
    BoardFen.JoinNoWhitespace(INITIAL_RANKS);
    assert |Join(INITIAL_RANKS, '/')| > 0;
  }

  /** No starting rank holds whitespace or a '/'. */
  lemma InitialRanksPlain()
    ensures forall i :: 0 <= i < |INITIAL_RANKS| ==> BoardFen.Plain(INITIAL_RANKS[i]) && '/' !in INITIAL_RANKS[i]
  {
  }

  /** The starting ranks fill the board, eight squares each. */
  lemma InitialRanksFit()
    ensures FL.RowsFit(INITIAL_RANKS, 0)
  {
    forall i | 0 <= i < 8
      ensures FL.RowFits(INITIAL_RANKS[i], 8 * i) && |FL.Expand(INITIAL_RANKS[i])| == 8
    {
      InitialRankFits(i);
    }
    RanksFitFrom(INITIAL_RANKS, 0);
  }

  /** Starting rank `i` fits from square `8 * i` and covers eight squares. */
  lemma InitialRankFits(i: nat)
    requires i < 8
    ensures FL.RowFits(INITIAL_RANKS[i], 8 * i) && |FL.Expand(INITIAL_RANKS[i])| == 8
  {
    if i < 2 || i >= 6 {
      LettersFit(INITIAL_RANKS[i], 8 * i);
    } else {
      assert INITIAL_RANKS[i] == "8";
      assert FL.Expand("8") == FL.Skips(8);
    }
  }

  /** Ranks of eight squares each, each fitting from its own rank's first square, fit one after the other. */
  lemma {:induction false} RanksFitFrom(rows: seq<string>, k: nat)
    requires forall i :: 0 <= i < |rows| ==> FL.RowFits(rows[i], 8 * (k + i)) && |FL.Expand(rows[i])| == 8
    ensures FL.RowsFit(rows, 8 * k)
    decreases |rows|
  {
    if rows != [] {
      assert forall i :: 0 <= i < |rows[1..]| ==> rows[1..][i] == rows[i + 1] && 8 * (k + 1 + i) == 8 * (k + (i + 1));
      RanksFitFrom(rows[1..], k + 1);
    }
  }

  /** A run of letters fits as long as it stays on the board, one square per letter. */
  lemma {:induction false} LettersFit(row: string, index: nat)
    requires index + |row| <= 64 && forall i :: 0 <= i < |row| ==> !Decimal.IsDigit(row[i])
    ensures FL.RowFits(row, index) && |FL.Expand(row)| == |row|
    decreases |row|
  {
    if row != [] {
      LettersFit(row[1..], index + 1);
    }
  }
}
