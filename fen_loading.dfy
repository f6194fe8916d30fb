// `BoardState::load_position` of `game/board_state.rs` and its field
// loaders, as functions on snapshots. A FEN record the source cannot read
// makes it panic (a missing field, an `unwrap` of a failed digit, a `u8`
// overflow, a square index past 63); those cases are the preconditions here.
// The class in `MailboxBoardState` runs the same loaders in place.
module FenLoading {
  import opened Wrappers
  import opened Strings
  import Decimal
  import opened PieceCodes
  import opened FenPieces
  import opened MailboxState
  import MailboxSquares
  import MZ = MailboxZobrist

  /** What a placement text puts on consecutive squares: `None` for a skipped square, the code for a letter. */
  function Expand(row: string): (cells: seq<Option<nat>>)
  {
    if row == [] then []
    else if Decimal.IsDigit(row[0]) then Skips(Decimal.DigitValue(row[0])) + Expand(row[1..])
    else [Some(GetFenPieceValue(row[0]))] + Expand(row[1..])
  }

  /** `n` skipped squares. */
  function Skips(n: nat): (cells: seq<Option<nat>>)
    ensures |cells| == n && forall i :: 0 <= i < n ==> cells[i] == None
  {
    seq(n, _ => None)
  }

  /** The cells of several rows, one after the other (the '/' between rows adds nothing). */
  function ExpandRows(rows: seq<string>): (cells: seq<Option<nat>>)
  {
    if rows == [] then [] else Expand(rows[0]) + ExpandRows(rows[1..])
  }

  /** The squares after laying `cells` down from `index`: a code replaces the square, a skip leaves it. */
  function Overlay(squares: seq<nat>, cells: seq<Option<nat>>, index: nat): (r: seq<nat>)
    requires |squares| == 64
    ensures |r| == 64
  {
    seq(64, j requires 0 <= j < 64 =>
      if index <= j < index + |cells| && cells[j - index].Some? then cells[j - index].value else squares[j])
  }

  /**
   * The running `u8` index of `generate_row_pieces_fen` never overflows and
   * every letter lands on a square of the board.
   */
  predicate RowFits(row: string, index: nat)
    decreases |row|
  {
    row == [] ||
    if Decimal.IsDigit(row[0]) then
      index + Decimal.DigitValue(row[0]) <= 255 && RowFits(row[1..], index + Decimal.DigitValue(row[0]))
    else
      index < 64 && RowFits(row[1..], index + 1)
  }

  /** One letter of a rank: its code on square `index`, and the square of a king recorded. */
  function PlaceLetter(s: State, letter: char, index: nat): (r: State)
    requires |s.squares| == 64 && index < 64
  {
    s.(squares := s.squares[index := GetFenPieceValue(letter)],
       blackKingPosition := if letter == 'k' then index else s.blackKingPosition,
       whiteKingPosition := if letter == 'K' then index else s.whiteKingPosition)
  }

  /** The state and the running index after a row. */
  datatype Placed = Placed(state: State, index: nat)

  /** `generate_row_pieces_fen`: a digit advances the index, a letter places its code and advances by one. */
  function PlaceRow(s: State, row: string, index: nat): (r: Placed)
    requires |s.squares| == 64 && RowFits(row, index)
    ensures |r.state.squares| == 64
    decreases |row|
  {
    if row == [] then Placed(s, index)
    else if Decimal.IsDigit(row[0]) then PlaceRow(s, row[1..], index + Decimal.DigitValue(row[0]))
    else PlaceRow(PlaceLetter(s, row[0], index), row[1..], index + 1)
  }

  /** Every row fits, each starting where the one before it ended. */
  predicate RowsFit(rows: seq<string>, index: nat)
    decreases |rows|
  {
    rows == [] || (RowFits(rows[0], index) && RowsFit(rows[1..], index + |Expand(rows[0])|))
  }

  /** `load_pieces` after the split: the rows one after the other with one running index. */
  function PlaceRows(s: State, rows: seq<string>, index: nat): (r: Placed)
    requires |s.squares| == 64 && RowsFit(rows, index)
    ensures |r.state.squares| == 64
    decreases |rows|
  {
    if rows == [] then Placed(s, index)
    else
      var first := PlaceRow(s, rows[0], index);
      PlaceRowOverlay(s, rows[0], index);
      PlaceRows(first.state, rows[1..], first.index)
  }

  /** A placement field the source can load. */
  predicate PiecesFit(field: string)
  {
    RowsFit(Split(field, '/'), 0)
  }

  /** `load_pieces`: the '/'-separated rows from square 0 (a8). Skipped squares keep what they held. */
  function LoadPieces(s: State, field: string): (r: State)
    requires |s.squares| == 64 && PiecesFit(field)
    ensures |r.squares| == 64
  {
    PlaceRows(s, Split(field, '/'), 0).state
  }

  // Overlay algebra.

  lemma OverlaySkips(squares: seq<nat>, n: nat, index: nat)
    requires |squares| == 64
    ensures Overlay(squares, Skips(n), index) == squares
  {
  }

  lemma OverlayLetter(squares: seq<nat>, code: nat, index: nat)
    requires |squares| == 64 && index < 64
    ensures Overlay(squares, [Some(code)], index) == squares[index := code]
  {
  }

  /** Laying down `a` and then `b` right after it is laying down `a + b`. */
  lemma OverlayConcat(squares: seq<nat>, a: seq<Option<nat>>, b: seq<Option<nat>>, index: nat)
    requires |squares| == 64
    ensures Overlay(Overlay(squares, a, index), b, index + |a|) == Overlay(squares, a + b, index)
  {
    var left := Overlay(Overlay(squares, a, index), b, index + |a|);
    var right := Overlay(squares, a + b, index);
    forall j | 0 <= j < 64
      ensures left[j] == right[j]
    {
      if index <= j < index + |a| {
        assert (a + b)[j - index] == a[j - index];
      } else if index + |a| <= j < index + |a| + |b| {
        assert (a + b)[j - index] == b[j - index - |a|];
      }
    }
  }

  /**
   * A row read from `index` ends at `index` plus the squares it covers, and
   * the board afterwards is the row's cells laid over the old squares.
   */
  lemma PlaceRowOverlay(s: State, row: string, index: nat)
    requires |s.squares| == 64 && RowFits(row, index)
    ensures var r := PlaceRow(s, row, index);
      r.index == index + |Expand(row)| && r.state.squares == Overlay(s.squares, Expand(row), index)
  {
    PlaceRowEnd(s, row, index);
    PlaceRowSquares(s, row, index);
  }

  lemma {:induction false} PlaceRowEnd(s: State, row: string, index: nat)
    requires |s.squares| == 64 && RowFits(row, index)
    ensures PlaceRow(s, row, index).index == index + |Expand(row)|
    decreases |row|
  {
    if row != [] {
      if Decimal.IsDigit(row[0]) {
        PlaceRowEnd(s, row[1..], index + Decimal.DigitValue(row[0]));
      } else {
        PlaceRowEnd(PlaceLetter(s, row[0], index), row[1..], index + 1);
      }
    }
  }

  lemma {:induction false} PlaceRowSquares(s: State, row: string, index: nat)
    requires |s.squares| == 64 && RowFits(row, index)
    ensures PlaceRow(s, row, index).state.squares == Overlay(s.squares, Expand(row), index)
    decreases |row|
  {
    if row != [] {
      if Decimal.IsDigit(row[0]) {
        PlaceRowSquares(s, row[1..], index + Decimal.DigitValue(row[0]));
        SkipSquares(s, row, index);
      } else {
        PlaceRowSquares(PlaceLetter(s, row[0], index), row[1..], index + 1);
        LetterSquares(s, row, index);
      }
    }
  }

  /** A leading digit: the rest of the row laid from past the skipped squares is the whole row laid from `index`. */
  lemma SkipSquares(s: State, row: string, index: nat)
    requires |s.squares| == 64 && RowFits(row, index) && row != [] && Decimal.IsDigit(row[0])
    requires var d := Decimal.DigitValue(row[0]);
      PlaceRow(s, row[1..], index + d).state.squares == Overlay(s.squares, Expand(row[1..]), index + d)
    ensures PlaceRow(s, row, index).state.squares == Overlay(s.squares, Expand(row), index)
  {
    var d := Decimal.DigitValue(row[0]);
    OverlaySkips(s.squares, d, index);
    OverlayConcat(s.squares, Skips(d), Expand(row[1..]), index);
  }

  /** A leading letter: its piece, then the rest of the row laid from the next square. */
  lemma LetterSquares(s: State, row: string, index: nat)
    requires |s.squares| == 64 && RowFits(row, index) && row != [] && !Decimal.IsDigit(row[0])
    requires var placed := PlaceLetter(s, row[0], index);
      PlaceRow(placed, row[1..], index + 1).state.squares == Overlay(placed.squares, Expand(row[1..]), index + 1)
    ensures PlaceRow(s, row, index).state.squares == Overlay(s.squares, Expand(row), index)
  {
    OverlayLetter(s.squares, GetFenPieceValue(row[0]), index);
    OverlayConcat(s.squares, [Some(GetFenPieceValue(row[0]))], Expand(row[1..]), index);
  }

  /** Reading a row changes only the squares and the two king squares. */
  lemma {:induction false} PlaceRowFrame(s: State, row: string, index: nat)
    requires |s.squares| == 64 && RowFits(row, index)
    ensures PlaceRow(s, row, index).state.(squares := s.squares, blackKingPosition := s.blackKingPosition,
                                           whiteKingPosition := s.whiteKingPosition) == s
    decreases |row|
  {
    if row != [] {
      if Decimal.IsDigit(row[0]) {
        PlaceRowFrame(s, row[1..], index + Decimal.DigitValue(row[0]));
      } else {
        PlaceRowFrame(PlaceLetter(s, row[0], index), row[1..], index + 1);
      }
    }
  }

  /**
   * A king square recorded while reading a row holds that king afterwards,
   * at or after the row's start; otherwise the record is untouched.
   */
  lemma {:induction false} PlaceRowKings(s: State, row: string, index: nat)
    requires |s.squares| == 64 && RowFits(row, index)
    ensures KingsFrom(s, PlaceRow(s, row, index).state, index)
    decreases |row|
  {
    if row != [] {
      if Decimal.IsDigit(row[0]) {
        PlaceRowKings(s, row[1..], index + Decimal.DigitValue(row[0]));
      } else {
        var placed := PlaceLetter(s, row[0], index);
        PlaceRowKings(placed, row[1..], index + 1);
        PlaceRowSquares(placed, row[1..], index + 1);
        LetterKings(s, row, index);
      }
    }
  }

  /** Each king square of `r` is the one of `s`, or a square at or after `index` holding that king. */
  ghost predicate KingsFrom(s: State, r: State, index: nat)
  {
    (r.blackKingPosition == s.blackKingPosition
      || (index <= r.blackKingPosition < |r.squares| && r.squares[r.blackKingPosition] == BLACK_KING))
    && (r.whiteKingPosition == s.whiteKingPosition
      || (index <= r.whiteKingPosition < |r.squares| && r.squares[r.whiteKingPosition] == WHITE_KING))
  }

  /** A leading letter: a king it places stays on its square, the rest of the row being laid after it. */
  lemma LetterKings(s: State, row: string, index: nat)
    requires |s.squares| == 64 && RowFits(row, index) && row != [] && !Decimal.IsDigit(row[0])
    requires var placed := PlaceLetter(s, row[0], index);
      var r := PlaceRow(placed, row[1..], index + 1).state;
      KingsFrom(placed, r, index + 1) && r.squares == Overlay(placed.squares, Expand(row[1..]), index + 1)
    ensures KingsFrom(s, PlaceRow(s, row, index).state, index)
  {
  }

  /** The letter test and the code test for kings agree: a letter placed is `place_piece` of its code. */
  lemma PlaceLetterIsPlacePiece(s: State, letter: char, index: nat)
    requires |s.squares| == 64 && index < 64
    ensures PlaceLetter(s, letter, index) == PlacePiece(s, index, GetFenPieceValue(letter))
  {
  }

  /** Rows read one after another: their cells laid down in order from `index`. */
  lemma {:induction false} PlaceRowsOverlay(s: State, rows: seq<string>, index: nat)
    requires |s.squares| == 64 && RowsFit(rows, index)
    ensures var r := PlaceRows(s, rows, index);
      r.index == index + |ExpandRows(rows)|
      && r.state.squares == Overlay(s.squares, ExpandRows(rows), index)
      && r.state.(squares := s.squares, blackKingPosition := s.blackKingPosition,
                  whiteKingPosition := s.whiteKingPosition) == s
    decreases |rows|
  {
    if rows != [] {
      var first := PlaceRow(s, rows[0], index);
      PlaceRowOverlay(s, rows[0], index);
      PlaceRowFrame(s, rows[0], index);
      PlaceRowsOverlay(first.state, rows[1..], first.index);
      OverlayConcat(s.squares, Expand(rows[0]), ExpandRows(rows[1..]), index);
    }
  }

  /** `load_active_color`: "b" gives Black to move; "w" and anything else White. */
  function LoadActiveColor(s: State, field: string): (r: State)
    ensures r.whiteMove <==> field != "b"
    ensures r.(whiteMove := s.whiteMove) == s
  {
    s.(whiteMove := field != "b")
  }

  /**
   * `load_castling`: "-" clears the four rights and marks both kings as
   * moved; any other text grants exactly the rights whose letter it holds
   * (K, Q, k, q) and marks both kings as not moved.
   */
  function LoadCastling(s: State, field: string): (r: State)
    ensures field == "-" ==>
      !r.whiteKingSideCastle && !r.whiteQueenSideCastle && !r.blackKingSideCastle && !r.blackQueenSideCastle
      && r.whiteKingMoved && r.blackKingMoved
    ensures field != "-" ==>
      (r.whiteKingSideCastle <==> 'K' in field) && (r.whiteQueenSideCastle <==> 'Q' in field)
      && (r.blackKingSideCastle <==> 'k' in field) && (r.blackQueenSideCastle <==> 'q' in field)
      && !r.whiteKingMoved && !r.blackKingMoved
    ensures r.(whiteKingSideCastle := s.whiteKingSideCastle, whiteQueenSideCastle := s.whiteQueenSideCastle,
               blackKingSideCastle := s.blackKingSideCastle, blackQueenSideCastle := s.blackQueenSideCastle,
               whiteKingMoved := s.whiteKingMoved, blackKingMoved := s.blackKingMoved) == s
  {
    var dash := field == "-";
    s.(blackQueenSideCastle := !dash && 'q' in field, blackKingSideCastle := !dash && 'k' in field,
       whiteQueenSideCastle := !dash && 'Q' in field, whiteKingSideCastle := !dash && 'K' in field,
       blackKingMoved := dash, whiteKingMoved := dash)
  }

  /** The row multiplier of `load_en_passant`: `whiteRow` for a rank digit 3, else 3. */
  function EnPassantRow(field: string, whiteRow: nat): nat
    requires |field| >= 2 && Decimal.IsDigit(field[1])
  {
    if Decimal.DigitValue(field[1]) == 3 then whiteRow else 3
  }

  /**
   * An en-passant field the source can read: "-", or a character whose low
   * byte is at least 'a' followed by a digit, with the `u8` sum and the
   * `u8` difference in range.
   */
  predicate EnPassantFits(field: string, whiteRow: nat)
  {
    field == "-" ||
    (|field| >= 2 && Decimal.IsDigit(field[1])
     && var column := field[0] as int % 256;
        97 <= column && 8 <= column - 97 + EnPassantRow(field, whiteRow) * 8 <= 255)
  }

  /** `x as i8` for a `u8` value. */
  function AsI8(x: int): (r: int)
    requires 0 <= x < 256
    ensures MailboxSquares.IsI8(r) && (r == x || r == x - 256)
  {
    if x < 128 then x else x - 256
  }

  /** The square a field other than "-" names: file byte minus 'a', plus eight per row, minus eight. */
  function EnPassantSquare(field: string, whiteRow: nat): int
    requires EnPassantFits(field, whiteRow) && field != "-"
  {
    AsI8(field[0] as int % 256 - 97 + EnPassantRow(field, whiteRow) * 8 - 8)
  }

  /** Whether the field names White's square: its rank digit is 3. */
  predicate NamesWhiteSquare(field: string)
  {
    field != "-" && |field| >= 2 && Decimal.IsDigit(field[1]) && Decimal.DigitValue(field[1]) == 3
  }

  /** The new White en-passant square. */
  function WhiteSquare(field: string, whiteRow: nat): int
    requires EnPassantFits(field, whiteRow)
  {
    if NamesWhiteSquare(field) then EnPassantSquare(field, whiteRow) else INVALID_BOARD_POSITION
  }

  /** The new Black en-passant square. */
  function BlackSquare(field: string, whiteRow: nat): int
    requires EnPassantFits(field, whiteRow)
  {
    if field != "-" && !NamesWhiteSquare(field) then EnPassantSquare(field, whiteRow) else INVALID_BOARD_POSITION
  }

  /** The en-passant loader with the row multiplier of White's case as a parameter. */
  function LoadEnPassantWith(s: State, field: string, whiteRow: nat): (r: State)
    requires EnPassantFits(field, whiteRow)
  {
    s.(whiteEnPassant := WhiteSquare(field, whiteRow), blackEnPassant := BlackSquare(field, whiteRow))
  }

  /**
   * `load_en_passant` as written: a rank digit 3 is White's square, computed
   * with row 4, so "e3" lands on square 28 (e5); any other digit is Black's,
   * computed with row 3.
   */
  function LoadEnPassantAsWritten(s: State, field: string): (r: State)
    requires EnPassantFits(field, 4)
  {
    LoadEnPassantWith(s, field, 4)
  }

  /** `load_en_passant` with White's row corrected to 6, so that "e3" is square 44. */
  function LoadEnPassant(s: State, field: string): (r: State)
    requires EnPassantFits(field, 6)
  {
    LoadEnPassantWith(s, field, 6)
  }

  /** "-" clears both squares; anything else sets exactly one of them, and only they change. */
  lemma EnPassantExactlyOne(s: State, field: string, whiteRow: nat)
    requires EnPassantFits(field, whiteRow) && whiteRow <= 6
    ensures var r := LoadEnPassantWith(s, field, whiteRow);
      (field == "-" <==> r.whiteEnPassant == INVALID_BOARD_POSITION && r.blackEnPassant == INVALID_BOARD_POSITION)
      && (r.whiteEnPassant == INVALID_BOARD_POSITION || r.blackEnPassant == INVALID_BOARD_POSITION)
      && r.(whiteEnPassant := s.whiteEnPassant, blackEnPassant := s.blackEnPassant) == s
  {
    if field != "-" {
      SquareNeverInvalid(field, whiteRow);
    }
  }

  /** A named square is never -1: the `u8` value before the cast is between 8 and 214. */
  lemma SquareNeverInvalid(field: string, whiteRow: nat)
    requires EnPassantFits(field, whiteRow) && field != "-" && whiteRow <= 6
    ensures EnPassantSquare(field, whiteRow) != INVALID_BOARD_POSITION
  {
    var x := field[0] as int % 256 - 97 + EnPassantRow(field, whiteRow) * 8 - 8;
    assert x <= 255 - 97 + 48 - 8;
  }

  /**
   * The loader as written misplaces White's square: "e3", the square a White
   * pawn passes on e2-e4 (44, which `Board` records), is read as 28, e5.
   */
  lemma EnPassantAsWrittenMisplaces(s: State)
    ensures EnPassantFits("e3", 4)
    ensures LoadEnPassantAsWritten(s, "e3").whiteEnPassant == 28
    ensures MailboxSquares.GetPositionNotation(44) == "e3" && MailboxSquares.GetPositionNotation(28) == "e5"
  {
  }

  /**
   * The corrected loader reads back every square `get_position_notation`
   * names on rank 3 (White's en-passant squares) and rank 6 (Black's).
   */
  lemma LoadEnPassantReadsNotation(s: State, position: int)
    requires 40 <= position < 48 || 16 <= position < 24
    ensures EnPassantFits(MailboxSquares.GetPositionNotation(position), 6)
    ensures var r := LoadEnPassant(s, MailboxSquares.GetPositionNotation(position));
      if position >= 40 then r.whiteEnPassant == position && r.blackEnPassant == INVALID_BOARD_POSITION
      else r.blackEnPassant == position && r.whiteEnPassant == INVALID_BOARD_POSITION
  {
  }

  /** `load_half_move_clock` / `load_full_move_number`: the parsed `usize`, or 0 when it does not parse. */
  function ClockValue(field: string): (v: nat)
    ensures Decimal.Parse(field).Some? ==> v == Decimal.Parse(field).value
    ensures Decimal.Parse(field).None? ==> v == 0
  {
    match Decimal.Parse(field)
    case Some(value) => value
    case None => 0
  }

  /** The clock field at `i` when the record has it, else the clock as it was. */
  function OptionalClock(fields: seq<string>, i: nat, clock: nat): nat
  {
    if |fields| > i then ClockValue(fields[i]) else clock
  }

  /** A FEN record `load_position` can read: at least four fields, each readable. */
  predicate Loadable(fen: string)
  {
    var fields := SplitWhitespace(fen);
    |fields| >= 4 && PiecesFit(fields[0]) && EnPassantFits(fields[3], 6)
  }

  /**
   * `load_position`: the fields split on whitespace and loaded in order,
   * the two clocks only when present, then the hash computed afresh.
   */
  function LoadPosition(h: Hashing, s: State, fen: string): (r: State)
    requires Ready(h) && |s.squares| == 64 && Loadable(fen)
    ensures HashAgrees(h, r)
  {
    var fields := SplitWhitespace(fen);
    var loaded := LoadEnPassant(LoadCastling(LoadActiveColor(LoadPieces(s, fields[0]), fields[1]), fields[2]), fields[3]);
    var clocked := loaded.(halfMoves := OptionalClock(fields, 4, loaded.halfMoves),
                           fullMoves := OptionalClock(fields, 5, loaded.fullMoves));
    ReadySquares(h, clocked.squares);
    clocked.(hash := MZ.PositionHash(h.keys, h.pieceIndex, Position(clocked)))
  }
}
