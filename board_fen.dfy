// `game/board_fen_utils.rs`: the FEN record of an array-engine board state,
// six fields as in section 16.1 of the PGN standard (Forsyth-Edwards
// Notation): placement, active colour, castling, en passant, half-move
// clock and full-move number.
module BoardFen {
  import opened Wrappers
  import opened Strings
  import Decimal
  import opened BitboardEnums
  import opened PieceCodes
  import opened FenPieces
  import opened MailboxState
  import MailboxSquares
  import FenLoading

  /** The text written so far and the run of empty squares not yet written. */
  datatype Scan = Scan(text: string, empty: nat)

  /** `append_empty_squares`: a pending run is written as its count and reset. */
  function Flush(st: Scan): (r: Scan)
    ensures r.empty == 0
    ensures st.empty == 0 ==> r.text == st.text
    ensures st.empty > 0 ==> r.text == st.text + Decimal.ToDecimal(st.empty)
  {
    if st.empty > 0 then Scan(st.text + Decimal.ToDecimal(st.empty), 0) else Scan(st.text, 0)
  }

  /** One square: an empty one lengthens the run, a piece flushes the run and writes its letter. */
  function Square(st: Scan, piece: nat): Scan
  {
    if piece == EMPTY_PIECE then Scan(st.text, st.empty + 1)
    else Scan(Flush(st).text + [GetPieceFen(piece)], 0)
  }

  /** One turn of `get_pieces_fen`'s loop: before each rank but the first, flush and write '/'. */
  function Step(st: Scan, position: nat, piece: nat): Scan
  {
    var ranked := if position % 8 == 0 && position != 0 then Scan(Flush(st).text + "/", 0) else st;
    Square(ranked, piece)
  }

  /** The loop's state after the first `n` squares. */
  function ScanBoard(squares: seq<nat>, n: nat): Scan
    requires n <= |squares|
  {
    if n == 0 then Scan("", 0) else Step(ScanBoard(squares, n - 1), n - 1, squares[n - 1])
  }

  /** `get_pieces_fen` as written: the loop ends without flushing the last run. */
  function PiecesFenAsWritten(squares: seq<nat>): string
    requires |squares| == 64
  {
    ScanBoard(squares, 64).text
  }

  /** `get_pieces_fen` with the last run flushed like every other. */
  function PiecesFen(squares: seq<nat>): string
    requires |squares| == 64
  {
    Flush(ScanBoard(squares, 64)).text
  }

  /** `get_pieces_fen`, with the flush after the loop. */
  method GetPiecesFen(squares: seq<nat>) returns (fen: string)
    requires |squares| == 64
    ensures fen == PiecesFen(squares)
  {
    fen := "";
    var emptySquares := 0;
    for position := 0 to 64
      invariant Scan(fen, emptySquares) == ScanBoard(squares, position)
    {
      var piece := squares[position];
      if position % 8 == 0 && position != 0 {
        if emptySquares > 0 {
          fen := fen + Decimal.ToDecimal(emptySquares);
          emptySquares := 0;
        }
        fen := fen + "/";
      }
      if piece == EMPTY_PIECE {
        emptySquares := emptySquares + 1;
      } else {
        if emptySquares > 0 {
          fen := fen + Decimal.ToDecimal(emptySquares);
          emptySquares := 0;
        }
        fen := fen + [GetPieceFen(piece)];
      }
    }
    if emptySquares > 0 {
      fen := fen + Decimal.ToDecimal(emptySquares);
    }
  }

  /** A code the writer and the reader agree on: empty, or one of the twelve pieces. */
  predicate Writable(code: nat)
  {
    code == EMPTY_PIECE || GetPieceType(code) != Empty
  }

  /**
   * The as-written field misses exactly the run pending after h1: the two
   * agree when h1 holds a piece, and otherwise the as-written text lacks
   * the count of the empty squares that end rank 1.
   */
  lemma AsWrittenDropsLastRun(squares: seq<nat>)
    requires |squares| == 64
    ensures var pending := ScanBoard(squares, 64).empty;
      (pending > 0 <==> squares[63] == EMPTY_PIECE)
      && PiecesFen(squares) == PiecesFenAsWritten(squares) + (if pending > 0 then Decimal.ToDecimal(pending) else "")
  {
  }

  // The structure of the placement field: one run-length text per rank.

  /** The squares of a rank scanned from `st`. */
  function RowScanFrom(st: Scan, rank: seq<nat>): Scan
  {
    if rank == [] then st else Square(RowScanFrom(st, rank[..|rank| - 1]), rank[|rank| - 1])
  }

  /** The text of one rank: letters for pieces, counts for runs of empties. */
  function RankFen(rank: seq<nat>): string
  {
    Flush(RowScanFrom(Scan("", 0), rank)).text
  }

  /** Rank `k` of the board, from a8-h8 (k = 0) to a1-h1 (k = 7). */
  function Rank(squares: seq<nat>, k: nat): seq<nat>
    requires |squares| == 64 && k < 8
  {
    squares[8 * k..8 * k + 8]
  }

  /** The eight rank texts. */
  function RankFens(squares: seq<nat>): (fens: seq<string>)
    requires |squares| == 64
    ensures |fens| == 8
  {
    seq(8, k requires 0 <= k < 8 => RankFen(Rank(squares, k)))
  }

  /** What the loop has written before rank `k`: the earlier ranks, each followed by '/'. */
  function Before(squares: seq<nat>, k: nat): string
    requires |squares| == 64 && k <= 8
  {
    if k == 0 then "" else Before(squares, k - 1) + RankFen(Rank(squares, k - 1)) + "/"
  }

  /** Scanning a rank after finished text only appends to it. */
  lemma {:induction false} RowScanAppends(t: string, rank: seq<nat>)
    ensures var r := RowScanFrom(Scan("", 0), rank);
      RowScanFrom(Scan(t, 0), rank) == Scan(t + r.text, r.empty)
    decreases |rank|
  {
    if rank != [] {
      RowScanAppends(t, rank[..|rank| - 1]);
      var r := RowScanFrom(Scan("", 0), rank[..|rank| - 1]);
      if rank[|rank| - 1] != EMPTY_PIECE && r.empty > 0 {
        assert (t + r.text) + Decimal.ToDecimal(r.empty) == t + (r.text + Decimal.ToDecimal(r.empty));
      }
    }
  }

  /** Flushing text that was scanned after `t` is `t` and the rank's text. */
  lemma FlushAppends(t: string, rank: seq<nat>)
    ensures Flush(RowScanFrom(Scan(t, 0), rank)).text == t + RankFen(rank)
  {
    RowScanAppends(t, rank);
    var r := RowScanFrom(Scan("", 0), rank);
    if r.empty > 0 {
      assert (t + r.text) + Decimal.ToDecimal(r.empty) == t + (r.text + Decimal.ToDecimal(r.empty));
    }
  }

  /** After `j` squares of rank `k` the loop holds the earlier ranks and the rank scanned so far. */
  lemma {:induction false} ScanBoardRanks(squares: seq<nat>, k: nat, j: nat)
    requires |squares| == 64 && k < 8 && 1 <= j <= 8
    ensures ScanBoard(squares, 8 * k + j) == RowScanFrom(Scan(Before(squares, k), 0), squares[8 * k..8 * k + j])
    decreases 8 * k + j
  {
    if j == 1 && k == 0 {
      assert squares[0..1][..0] == [];
    } else if j == 1 {
      ScanBoardRanks(squares, k - 1, 8);
      NewRankStep(squares, k);
    } else {
      ScanBoardRanks(squares, k, j - 1);
      SameRankStep(squares, k, j);
    }
  }

  /** The first square of a rank after the first: the earlier text flushed, a '/', then the square. */
  lemma NewRankStep(squares: seq<nat>, k: nat)
    requires |squares| == 64 && 1 <= k < 8
    requires ScanBoard(squares, 8 * k) == RowScanFrom(Scan(Before(squares, k - 1), 0), Rank(squares, k - 1))
    ensures ScanBoard(squares, 8 * k + 1) == RowScanFrom(Scan(Before(squares, k), 0), squares[8 * k..8 * k + 1])
  {
    var n := 8 * k;
    assert n % 8 == 0;
    var previous := ScanBoard(squares, n);
    var start := Scan(Before(squares, k), 0);
    assert ScanBoard(squares, n + 1) == Step(previous, n, squares[n]);
    FlushAppends(Before(squares, k - 1), Rank(squares, k - 1));
    assert Flush(previous).text + "/" == Before(squares, k);
    assert Step(previous, n, squares[n]) == Square(start, squares[n]);
    var first := squares[n..n + 1];
    assert first[..0] == [] && first[0] == squares[n];
    assert RowScanFrom(start, first) == Square(RowScanFrom(start, []), squares[n]);
  }

  /** Any later square of a rank: one more square scanned. */
  lemma SameRankStep(squares: seq<nat>, k: nat, j: nat)
    requires |squares| == 64 && k < 8 && 2 <= j <= 8
    requires ScanBoard(squares, 8 * k + j - 1) == RowScanFrom(Scan(Before(squares, k), 0), squares[8 * k..8 * k + j - 1])
    ensures ScanBoard(squares, 8 * k + j) == RowScanFrom(Scan(Before(squares, k), 0), squares[8 * k..8 * k + j])
  {
    var n := 8 * k + j;
    ModEight(k, j - 1);
    assert ScanBoard(squares, n) == Square(ScanBoard(squares, n - 1), squares[n - 1]);
    var scanned := squares[8 * k..n];
    assert scanned[..j - 1] == squares[8 * k..n - 1] && scanned[j - 1] == squares[n - 1];
  }

  lemma ModEight(k: nat, j: nat)
    requires j < 8
    ensures (8 * k + j) % 8 == j
  {
  }

  /** Joining one more piece at the end. */
  lemma {:induction false} JoinSnoc(pieces: seq<string>, last: string)
    requires |pieces| >= 1
    ensures Join(pieces + [last], '/') == Join(pieces, '/') + "/" + last
    decreases |pieces|
  {
    if |pieces| == 1 {
      assert Join([last], '/') == last;
      assert (pieces + [last])[1..] == [last];
    } else {
      JoinSnoc(pieces[1..], last);
      assert (pieces + [last])[1..] == pieces[1..] + [last];
    }
  }

  /** The text before rank `k` is the first `k` rank texts joined with '/', and a '/'. */
  lemma {:induction false} BeforeIsJoin(squares: seq<nat>, k: nat)
    requires |squares| == 64 && 1 <= k <= 8
    ensures Before(squares, k) == Join(RankFens(squares)[..k], '/') + "/"
  {
    var fens := RankFens(squares);
    if k == 1 {
      assert fens[..1] == [fens[0]];
    } else {
      BeforeIsJoin(squares, k - 1);
      JoinSnoc(fens[..k - 1], fens[k - 1]);
      assert fens[..k - 1] + [fens[k - 1]] == fens[..k];
    }
  }

  /** The placement field is the eight rank texts joined with '/'. */
  lemma PiecesFenIsJoin(squares: seq<nat>)
    requires |squares| == 64
    ensures PiecesFen(squares) == Join(RankFens(squares), '/')
  {
    var fens := RankFens(squares);
    ScanBoardRanks(squares, 7, 8);
    FlushAppends(Before(squares, 7), Rank(squares, 7));
    BeforeIsJoin(squares, 7);
    JoinSnoc(fens[..7], fens[7]);
    assert fens[..7] + [fens[7]] == fens;
  }

  // Reading a rank text back.

  /** What a square holds as a placement cell. */
  function Cells(squares: seq<nat>): (cells: seq<Option<nat>>)
    ensures |cells| == |squares|
  {
    seq(|squares|, i requires 0 <= i < |squares| => if squares[i] == EMPTY_PIECE then None else Some(squares[i]))
  }

  lemma {:induction false} ExpandAppend(a: string, b: string)
    ensures FenLoading.Expand(a + b) == FenLoading.Expand(a) + FenLoading.Expand(b)
    decreases |a|
  {
    if a != [] {
      ExpandAppend(a[1..], b);
      assert (a + b)[1..] == a[1..] + b;
    } else {
      assert a + b == b;
    }
  }

  lemma ExpandCount(n: nat)
    requires 1 <= n <= 9
    ensures FenLoading.Expand(Decimal.ToDecimal(n)) == FenLoading.Skips(n)
  {
    assert Decimal.ToDecimal(n) == [Decimal.DigitChar(n)];
  }

  lemma ExpandLetter(code: nat)
    requires Writable(code) && code != EMPTY_PIECE
    ensures FenLoading.Expand([GetPieceFen(code)]) == [Some(code)]
  {
  }

  /** A scanned rank reads back as its written cells and then its pending run of empties. */
  lemma {:induction false} RowScanReadsBack(rank: seq<nat>)
    requires |rank| <= 9 && forall i :: 0 <= i < |rank| ==> Writable(rank[i])
    ensures var r := RowScanFrom(Scan("", 0), rank);
      r.empty <= |rank| && FenLoading.Expand(r.text) + FenLoading.Skips(r.empty) == Cells(rank)
    decreases |rank|
  {
    if rank != [] {
      var front := rank[..|rank| - 1];
      var last := rank[|rank| - 1];
      RowScanReadsBack(front);
      var r := RowScanFrom(Scan("", 0), front);
      assert Cells(rank) == Cells(front) + Cells([last]);
      if last == EMPTY_PIECE {
        assert FenLoading.Skips(r.empty + 1) == FenLoading.Skips(r.empty) + [None];
      } else {
        var flushed := Flush(r).text;
        if r.empty > 0 {
          ExpandAppend(r.text, Decimal.ToDecimal(r.empty));
          ExpandCount(r.empty);
        }
        assert FenLoading.Expand(flushed) == FenLoading.Expand(r.text) + FenLoading.Skips(r.empty);
        ExpandAppend(flushed, [GetPieceFen(last)]);
        ExpandLetter(last);
      }
    }
  }

  /** A rank text reads back as the rank's cells. */
  lemma RankFenReadsBack(rank: seq<nat>)
    requires |rank| <= 9 && forall i :: 0 <= i < |rank| ==> Writable(rank[i])
    ensures FenLoading.Expand(RankFen(rank)) == Cells(rank)
  {
    RowScanReadsBack(rank);
    var r := RowScanFrom(Scan("", 0), rank);
    if r.empty > 0 {
      ExpandAppend(r.text, Decimal.ToDecimal(r.empty));
      ExpandCount(r.empty);
    } else {
      assert FenLoading.Skips(0) == [];
    }
  }

  /** Scanning `a + b` is scanning `a`, then `b`. */
  lemma {:induction false} RowScanConcat(st: Scan, a: seq<nat>, b: seq<nat>)
    ensures RowScanFrom(st, a + b) == RowScanFrom(RowScanFrom(st, a), b)
    decreases |b|
  {
    if b == [] {
      assert a + b == a;
    } else {
      RowScanConcat(st, a, b[..|b| - 1]);
      assert (a + b)[..|a + b| - 1] == a + b[..|b| - 1];
    }
  }

  /** Empty squares only lengthen the pending run. */
  lemma {:induction false} RowScanEmpties(st: Scan, n: nat)
    ensures RowScanFrom(st, seq(n, _ => EMPTY_PIECE)) == Scan(st.text, st.empty + n)
  {
    if n > 0 {
      RowScanEmpties(st, n - 1);
      assert seq(n, _ => EMPTY_PIECE)[..n - 1] == seq(n - 1, _ => EMPTY_PIECE);
    }
  }

  /** The board with only a Black king on a8: its first rank reads "k7", the others "8". */
  lemma LoneKingRanks(squares: seq<nat>)
    requires squares == [BLACK_KING] + seq(63, _ => EMPTY_PIECE)
    ensures RankFen(Rank(squares, 0)) == "k7"
    ensures forall k :: 1 <= k < 8 ==> RankFen(Rank(squares, k)) == "8"
    ensures RowScanFrom(Scan("", 0), Rank(squares, 7)) == Scan("", 8)
  {
    var empties := seq(8, _ => EMPTY_PIECE);
    var seven := seq(7, _ => EMPTY_PIECE);
    assert Decimal.ToDecimal(7) == "7" && Decimal.ToDecimal(8) == "8";
    RowScanEmpties(Scan("", 0), 8);
    assert RankFen(empties) == "8";
    assert RowScanFrom(Scan("", 0), [BLACK_KING]) == Scan("k", 0);
    RowScanEmpties(Scan("k", 0), 7);
    RowScanConcat(Scan("", 0), [BLACK_KING], seven);
    assert Rank(squares, 0) == [BLACK_KING] + seven;
    forall k | 1 <= k < 8
      ensures RankFen(Rank(squares, k)) == "8"
    {
      assert Rank(squares, k) == empties;
    }
    assert Rank(squares, 7) == empties;
  }

  /** `n` empty ranks, each followed by '/'. */
  function EmptyRanks(n: nat): string
  {
    if n == 0 then "" else EmptyRanks(n - 1) + "8/"
  }

  lemma {:induction false} LoneKingBefore(squares: seq<nat>, k: nat)
    requires squares == [BLACK_KING] + seq(63, _ => EMPTY_PIECE) && 1 <= k <= 8
    ensures Before(squares, k) == "k7/" + EmptyRanks(k - 1)
  {
    LoneKingRanks(squares);
    if k > 1 {
      LoneKingBefore(squares, k - 1);
      assert ("k7/" + EmptyRanks(k - 2)) + "8" + "/" == "k7/" + (EmptyRanks(k - 2) + "8/");
    }
  }

  /** A board whose last rank is empty ends the loop with the first seven ranks written and eight squares pending. */
  lemma LastRankPending(squares: seq<nat>)
    requires |squares| == 64 && RowScanFrom(Scan("", 0), Rank(squares, 7)) == Scan("", 8)
    ensures ScanBoard(squares, 64) == Scan(Before(squares, 7), 8)
  {
    ScanBoardRanks(squares, 7, 8);
    RowScanAppends(Before(squares, 7), Rank(squares, 7));
    assert Before(squares, 7) + "" == Before(squares, 7);
  }

  /** The loop on the lone-king board ends holding the first seven ranks and a pending run of eight. */
  lemma LoneKingScan(squares: seq<nat>)
    requires squares == [BLACK_KING] + seq(63, _ => EMPTY_PIECE)
    ensures ScanBoard(squares, 64) == Scan("k7/8/8/8/8/8/8/", 8)
  {
    LoneKingRanks(squares);
    LastRankPending(squares);
    LoneKingBefore(squares, 7);
    SixEmptyRanks();
  }

  lemma SixEmptyRanks()
    ensures "k7/" + EmptyRanks(6) == "k7/8/8/8/8/8/8/"
  {
    assert EmptyRanks(3) == "8/8/8/";
  }

  /**
   * The as-written writer on a board holding only a Black king on a8:
   * "k7/8/8/8/8/8/8/", whose last rank covers no square; the corrected
   * writer gives "k7/8/8/8/8/8/8/8".
   */
  lemma TrailingRunLost()
    ensures var squares := [BLACK_KING] + seq(63, _ => EMPTY_PIECE);
      PiecesFenAsWritten(squares) == "k7/8/8/8/8/8/8/" && PiecesFen(squares) == "k7/8/8/8/8/8/8/8"
  {
    var squares := [BLACK_KING] + seq(63, _ => EMPTY_PIECE);
    LoneKingScan(squares);
    assert Decimal.ToDecimal(8) == "8";
  }

  // What the characters of the placement field are.

  /** A character of a rank text: neither whitespace nor '/'. */
  predicate RankChar(c: char)
  {
    c != '/' && !IsWhitespace(c)
  }

  predicate Plain(t: string)
  {
    forall i :: 0 <= i < |t| ==> RankChar(t[i])
  }

  /** No whitespace anywhere. */
  predicate Spaceless(t: string)
  {
    forall i :: 0 <= i < |t| ==> !IsWhitespace(t[i])
  }

  /** No two digits side by side: each run of empty squares is one count. */
  predicate SingleCounts(t: string)
  {
    forall i :: 0 <= i < |t| - 1 ==> !(Decimal.IsDigit(t[i]) && Decimal.IsDigit(t[i + 1]))
  }

  lemma AppendPlain(a: string, b: string)
    requires Plain(a) && Plain(b)
    ensures Plain(a + b)
  {
    forall i | 0 <= i < |a + b|
      ensures RankChar((a + b)[i])
    {
      if i < |a| {
        assert (a + b)[i] == a[i];
      } else {
        assert (a + b)[i] == b[i - |a|];
      }
    }
  }

  /** Counts and letters are plain. */
  lemma WrittenPlain(n: nat, code: nat)
    ensures Plain(Decimal.ToDecimal(n)) && Plain([GetPieceFen(code)])
  {
    PieceFenOnlyPieces(code);
  }

  /** Flushing keeps a text plain. */
  lemma FlushPlain(st: Scan)
    requires Plain(st.text)
    ensures Plain(Flush(st).text)
  {
    if st.empty > 0 {
      WrittenPlain(st.empty, 0);
      AppendPlain(st.text, Decimal.ToDecimal(st.empty));
    }
  }

  /** The letters and counts a rank scan writes are never whitespace or '/'. */
  lemma {:induction false} RowScanPlain(st: Scan, rank: seq<nat>)
    requires Plain(st.text)
    ensures Plain(RowScanFrom(st, rank).text)
    decreases |rank|
  {
    if rank != [] {
      var r := RowScanFrom(st, rank[..|rank| - 1]);
      var last := rank[|rank| - 1];
      RowScanPlain(st, rank[..|rank| - 1]);
      if last != EMPTY_PIECE {
        FlushPlain(r);
        WrittenPlain(0, last);
        AppendPlain(Flush(r).text, [GetPieceFen(last)]);
      }
    }
  }

  /**
   * Scanning at most nine squares writes single-digit counts, each followed
   * by a letter, so no two digits meet; the text ends in a letter if at all.
   */
  lemma {:induction false} RowScanCounts(rank: seq<nat>)
    requires |rank| <= 9
    ensures var r := RowScanFrom(Scan("", 0), rank);
      r.empty <= |rank| && SingleCounts(r.text) && (r.text == [] || !Decimal.IsDigit(r.text[|r.text| - 1]))
    decreases |rank|
  {
    if rank != [] {
      var front := rank[..|rank| - 1];
      var last := rank[|rank| - 1];
      RowScanCounts(front);
      var r := RowScanFrom(Scan("", 0), front);
      if last != EMPTY_PIECE {
        PieceFenOnlyPieces(last);
        var flushed := Flush(r).text;
        assert |flushed| <= |r.text| + 1;
        var t := flushed + [GetPieceFen(last)];
        forall i | 0 <= i < |t| - 1
          ensures !(Decimal.IsDigit(t[i]) && Decimal.IsDigit(t[i + 1]))
        {
          if i + 1 < |r.text| {
            assert t[i] == r.text[i] && t[i + 1] == r.text[i + 1];
          }
        }
      }
    }
  }

  /** A rank text writes each run of empty squares as one digit, and holds no whitespace or '/'. */
  lemma RankFenCounts(rank: seq<nat>)
    requires |rank| <= 9
    ensures SingleCounts(RankFen(rank)) && Plain(RankFen(rank))
  {
    RowScanCounts(rank);
    RowScanPlain(Scan("", 0), rank);
    var r := RowScanFrom(Scan("", 0), rank);
    if r.empty > 0 {
      assert Decimal.ToDecimal(r.empty) == [Decimal.DigitChar(r.empty)];
      var t := RankFen(rank);
      forall i | 0 <= i < |t| - 1
        ensures !(Decimal.IsDigit(t[i]) && Decimal.IsDigit(t[i + 1]))
      {
        if i + 1 < |r.text| {
          assert t[i] == r.text[i] && t[i + 1] == r.text[i + 1];
        }
      }
    }
  }

  /** Plain pieces joined with '/' hold no whitespace. */
  lemma {:induction false} JoinNoWhitespace(pieces: seq<string>)
    requires |pieces| >= 1 && forall i :: 0 <= i < |pieces| ==> Plain(pieces[i])
    ensures Spaceless(Join(pieces, '/'))
    decreases |pieces|
  {
    if |pieces| > 1 {
      JoinNoWhitespace(pieces[1..]);
      var rest := Join(pieces[1..], '/');
      var t := Join(pieces, '/');
      assert t == pieces[0] + ['/'] + rest;
      forall i | 0 <= i < |t|
        ensures !IsWhitespace(t[i])
      {
        if i < |pieces[0]| {
          assert Plain(pieces[0]) && t[i] == pieces[0][i];
          assert RankChar(pieces[0][i]);
        } else if i > |pieces[0]| {
          assert Spaceless(rest) && t[i] == rest[i - |pieces[0]| - 1];
        } else {
          assert t[i] == '/';
        }
      }
    }
  }

  /**
   * The placement field splits on '/' into exactly the eight rank texts
   * (seven separators), and it is one word of the record.
   */
  lemma PiecesFenRanks(squares: seq<nat>)
    requires |squares| == 64
    ensures Split(PiecesFen(squares), '/') == RankFens(squares)
    ensures IsWord(PiecesFen(squares))
  {
    var fens := RankFens(squares);
    forall k | 0 <= k < 8
      ensures Plain(fens[k])
    {
      RowScanPlain(Scan("", 0), Rank(squares, k));
      FlushPlain(RowScanFrom(Scan("", 0), Rank(squares, k)));
    }
    PiecesFenIsJoin(squares);
    SplitJoinPieces(fens, '/');
    JoinNoWhitespace(fens);
    BeforeIsJoin(squares, 7);
    FlushAppends(Before(squares, 7), Rank(squares, 7));
  }

  // Reading the placement field back.

  /** A row whose cells end on the board fits from `index`. */
  lemma {:induction false} RowFitsCovered(row: string, index: nat)
    requires index + |FenLoading.Expand(row)| <= 64
    ensures FenLoading.RowFits(row, index)
    decreases |row|
  {
    if row != [] {
      if Decimal.IsDigit(row[0]) {
        RowFitsCovered(row[1..], index + Decimal.DigitValue(row[0]));
      } else {
        RowFitsCovered(row[1..], index + 1);
      }
    }
  }

  lemma CellsConcat(a: seq<nat>, b: seq<nat>)
    ensures Cells(a + b) == Cells(a) + Cells(b)
  {
  }

  /** Ranks `k` to 7 fit from square 8k and lay down the cells of those squares. */
  lemma {:induction false} RanksFit(squares: seq<nat>, k: nat)
    requires |squares| == 64 && k <= 8 && forall i :: 0 <= i < 64 ==> Writable(squares[i])
    ensures FenLoading.RowsFit(RankFens(squares)[k..], 8 * k)
    ensures FenLoading.ExpandRows(RankFens(squares)[k..]) == Cells(squares[8 * k..])
    decreases 8 - k
  {
    var fens := RankFens(squares);
    if k == 8 {
      assert fens[8..] == [] && squares[64..] == [];
    } else {
      RanksFit(squares, k + 1);
      var rank := Rank(squares, k);
      assert forall i :: 0 <= i < |rank| ==> rank[i] == squares[8 * k + i];
      RankFenReadsBack(rank);
      assert fens[k..][0] == fens[k] && fens[k..][1..] == fens[k + 1..];
      RowFitsCovered(fens[k], 8 * k);
      assert squares[8 * k..] == rank + squares[8 * k + 8..];
      CellsConcat(rank, squares[8 * k + 8..]);
    }
  }

  /** Cells laid over an empty board give the squares back. */
  lemma OverlayCells(empty: seq<nat>, squares: seq<nat>)
    requires |empty| == 64 && |squares| == 64 && forall i :: 0 <= i < 64 ==> empty[i] == EMPTY_PIECE
    ensures FenLoading.Overlay(empty, Cells(squares), 0) == squares
  {
  }

  /**
   * The placement field of a board holding only piece codes, loaded onto an
   * empty board, gives the same 64 squares.
   */
  lemma PiecesFenReadsBack(s: State, squares: seq<nat>)
    requires |s.squares| == 64 && forall i :: 0 <= i < 64 ==> s.squares[i] == EMPTY_PIECE
    requires |squares| == 64 && forall i :: 0 <= i < 64 ==> Writable(squares[i])
    ensures FenLoading.PiecesFit(PiecesFen(squares))
    ensures FenLoading.LoadPieces(s, PiecesFen(squares)).squares == squares
  {
    PiecesFenRanks(squares);
    RanksFit(squares, 0);
    FenLoading.PlaceRowsOverlay(s, RankFens(squares), 0);
    OverlayCells(s.squares, squares);
  }

  // The other five fields.

  /** `get_color_fen`: "w" when White is to move, else "b"; the loader reads it back. */
  function ColorFen(s: State): (r: string)
    ensures r == "w" || r == "b"
    ensures FenLoading.LoadActiveColor(s, r).whiteMove == s.whiteMove
  {
    if s.whiteMove then "w" else "b"
  }

  /** The place of a castling letter in the order K, Q, k, q. */
  function CastleOrder(c: char): nat
  {
    if c == 'K' then 0 else if c == 'Q' then 1 else if c == 'k' then 2 else 3
  }

  /** `get_castle_fen`: the letters of the held rights in the order K, Q, k, q, or "-" when none is held. */
  function CastleFen(s: State): (r: string)
  {
    var held := Letters(s.whiteKingSideCastle, s.whiteQueenSideCastle, 'K', 'Q')
      + Letters(s.blackKingSideCastle, s.blackQueenSideCastle, 'k', 'q');
    if held == "" then "-" else held
  }

  /** One side's castling letters: king side first. */
  function Letters(king: bool, queen: bool, kingLetter: char, queenLetter: char): string
  {
    (if king then [kingLetter] else []) + (if queen then [queenLetter] else [])
  }

  /** Castling letters only, at most once each, in the order K, Q, k, q. */
  predicate CastleLetters(r: string)
  {
    (forall i :: 0 <= i < |r| ==> r[i] in "KQkq")
    && forall i, j :: 0 <= i < j < |r| ==> CastleOrder(r[i]) < CastleOrder(r[j])
  }

  /**
   * The castling field is "-" exactly when no right is held; otherwise it
   * holds the letter of each held right and no other, once each, in the
   * order K, Q, k, q.
   */
  lemma CastleFenLetters(s: State)
    ensures var r := CastleFen(s);
      (r == "-" <==> !s.whiteKingSideCastle && !s.whiteQueenSideCastle && !s.blackKingSideCastle && !s.blackQueenSideCastle)
      && (r != "-" ==> CastleLetters(r)
                       && ('K' in r <==> s.whiteKingSideCastle) && ('Q' in r <==> s.whiteQueenSideCastle)
                       && ('k' in r <==> s.blackKingSideCastle) && ('q' in r <==> s.blackQueenSideCastle))
  {
    var white := Letters(s.whiteKingSideCastle, s.whiteQueenSideCastle, 'K', 'Q');
    var black := Letters(s.blackKingSideCastle, s.blackQueenSideCastle, 'k', 'q');
    WhiteCastleLetters(s.whiteKingSideCastle, s.whiteQueenSideCastle);
    BlackCastleLetters(s.blackKingSideCastle, s.blackQueenSideCastle);
    ConcatLetters(white, black);
  }

  /** White's letters followed by Black's keep the order, and hold exactly the letters of both. */
  lemma ConcatLetters(white: string, black: string)
    requires CastleLetters(white) && forall i :: 0 <= i < |white| ==> CastleOrder(white[i]) < 2
    requires CastleLetters(black) && forall i :: 0 <= i < |black| ==> CastleOrder(black[i]) >= 2
    ensures CastleLetters(white + black)
    ensures forall c :: c in white + black <==> c in white || c in black
  {
    var r := white + black;
    forall i, j | 0 <= i < j < |r|
      ensures CastleOrder(r[i]) < CastleOrder(r[j])
    {
      if j < |white| {
        assert r[i] == white[i] && r[j] == white[j];
      } else if i >= |white| {
        assert r[i] == black[i - |white|] && r[j] == black[j - |white|];
      } else {
        assert r[i] == white[i] && r[j] == black[j - |white|];
      }
    }
    forall i | 0 <= i < |r|
      ensures r[i] in "KQkq"
    {
      if i < |white| {
        assert r[i] == white[i];
      } else {
        assert r[i] == black[i - |white|];
      }
    }
  }

  lemma WhiteCastleLetters(king: bool, queen: bool)
    ensures var w := Letters(king, queen, 'K', 'Q');
      (w == "" <==> !king && !queen) && ('K' in w <==> king) && ('Q' in w <==> queen) && 'k' !in w && 'q' !in w
      && CastleLetters(w) && forall i :: 0 <= i < |w| ==> CastleOrder(w[i]) < 2
  {
    if king && queen {
      assert Letters(king, queen, 'K', 'Q') == "KQ";
    }
  }

  lemma BlackCastleLetters(king: bool, queen: bool)
    ensures var b := Letters(king, queen, 'k', 'q');
      (b == "" <==> !king && !queen) && ('k' in b <==> king) && ('q' in b <==> queen) && 'K' !in b && 'Q' !in b
      && CastleLetters(b) && forall i :: 0 <= i < |b| ==> CastleOrder(b[i]) >= 2
  {
    if king && queen {
      assert Letters(king, queen, 'k', 'q') == "kq";
    }
  }

  /** `get_castle_fen`, pushing one letter per held right. */
  method GetCastleFen(s: State) returns (castleFen: string)
    ensures castleFen == CastleFen(s)
  {
    castleFen := "";
    if s.whiteKingSideCastle {
      castleFen := castleFen + "K";
    }
    if s.whiteQueenSideCastle {
      castleFen := castleFen + "Q";
    }
    if s.blackKingSideCastle {
      castleFen := castleFen + "k";
    }
    if s.blackQueenSideCastle {
      castleFen := castleFen + "q";
    }
    if castleFen == "" {
      castleFen := "-";
    }
  }

  /**
   * The castling field reads back as the same four rights; the loader marks
   * both kings as moved exactly when no right is held.
   */
  lemma CastleFenReadsBack(t: State, s: State)
    ensures var r := FenLoading.LoadCastling(t, CastleFen(s));
      r.whiteKingSideCastle == s.whiteKingSideCastle && r.whiteQueenSideCastle == s.whiteQueenSideCastle
      && r.blackKingSideCastle == s.blackKingSideCastle && r.blackQueenSideCastle == s.blackQueenSideCastle
      && (r.whiteKingMoved <==> CastleFen(s) == "-") && (r.blackKingMoved <==> CastleFen(s) == "-")
  {
    CastleFenLetters(s);
  }

  /** A square `get_position_notation` can name without panicking. */
  predicate Nameable(p: int)
  {
    MailboxSquares.IsI8(p) && MailboxSquares.GetPositionColumnNumber(p) < 8
  }

  /**
   * `get_en_passant_fen`: Black's square when it is set, else White's, else
   * "-"; a named square is never "-".
   */
  function EnPassantFen(s: State): (r: string)
    requires s.blackEnPassant != INVALID_BOARD_POSITION ==> Nameable(s.blackEnPassant)
    requires s.blackEnPassant == INVALID_BOARD_POSITION && s.whiteEnPassant != INVALID_BOARD_POSITION ==> Nameable(s.whiteEnPassant)
    ensures r == "-" <==> s.blackEnPassant == INVALID_BOARD_POSITION && s.whiteEnPassant == INVALID_BOARD_POSITION
    ensures s.blackEnPassant != INVALID_BOARD_POSITION ==> r == MailboxSquares.GetPositionNotation(s.blackEnPassant)
  {
    if s.blackEnPassant != INVALID_BOARD_POSITION then MailboxSquares.GetPositionNotation(s.blackEnPassant)
    else if s.whiteEnPassant != INVALID_BOARD_POSITION then MailboxSquares.GetPositionNotation(s.whiteEnPassant)
    else "-"
  }

  /**
   * The en-passant squares a board records: Black's on rank 6 (16-23),
   * White's on rank 3 (40-47), at most one of them set.
   */
  predicate EnPassantRecorded(s: State)
  {
    (s.blackEnPassant == INVALID_BOARD_POSITION || 16 <= s.blackEnPassant < 24)
    && (s.whiteEnPassant == INVALID_BOARD_POSITION || 40 <= s.whiteEnPassant < 48)
    && (s.blackEnPassant == INVALID_BOARD_POSITION || s.whiteEnPassant == INVALID_BOARD_POSITION)
  }

  /** The en-passant field of a recorded square reads back, with the corrected loader, as the same two squares. */
  lemma EnPassantFenReadsBack(t: State, s: State)
    requires EnPassantRecorded(s)
    ensures FenLoading.EnPassantFits(EnPassantFen(s), 6)
    ensures var r := FenLoading.LoadEnPassant(t, EnPassantFen(s));
      r.blackEnPassant == s.blackEnPassant && r.whiteEnPassant == s.whiteEnPassant
  {
    if s.blackEnPassant != INVALID_BOARD_POSITION {
      FenLoading.LoadEnPassantReadsNotation(t, s.blackEnPassant);
    } else if s.whiteEnPassant != INVALID_BOARD_POSITION {
      FenLoading.LoadEnPassantReadsNotation(t, s.whiteEnPassant);
    }
  }

  // The whole record.

  /** The squares `get_en_passant_fen` may have to name can be named. */
  predicate EnPassantNameable(s: State)
  {
    (s.blackEnPassant != INVALID_BOARD_POSITION ==> Nameable(s.blackEnPassant))
    && (s.blackEnPassant == INVALID_BOARD_POSITION && s.whiteEnPassant != INVALID_BOARD_POSITION ==> Nameable(s.whiteEnPassant))
  }

  /** The six fields of `get_position_fen`, the placement field with its last run flushed. */
  function PositionFields(s: State): (fields: seq<string>)
    requires |s.squares| == 64 && EnPassantNameable(s)
    ensures |fields| == 6
  {
    [PiecesFen(s.squares), ColorFen(s), CastleFen(s), EnPassantFen(s),
     Decimal.ToDecimal(s.halfMoves), Decimal.ToDecimal(s.fullMoves)]
  }

  /** `get_position_fen`: the fields pushed one after another with a space between each two. */
  function PositionFen(s: State): string
    requires |s.squares| == 64 && EnPassantNameable(s)
  {
    PiecesFen(s.squares) + " " + ColorFen(s) + " " + CastleFen(s) + " " + EnPassantFen(s) + " "
    + Decimal.ToDecimal(s.halfMoves) + " " + Decimal.ToDecimal(s.fullMoves)
  }

  /** `get_position_fen`, building the record in one buffer. */
  method GetPositionFen(s: State) returns (fen: string)
    requires |s.squares| == 64 && EnPassantNameable(s)
    ensures fen == PositionFen(s)
  {
    fen := GetPiecesFen(s.squares);
    fen := fen + " ";
    fen := fen + ColorFen(s);
    fen := fen + " ";
    var castleFen := GetCastleFen(s);
    fen := fen + castleFen;
    fen := fen + " ";
    fen := fen + EnPassantFen(s);
    fen := fen + " ";
    fen := fen + Decimal.ToDecimal(s.halfMoves);
    fen := fen + " ";
    fen := fen + Decimal.ToDecimal(s.fullMoves);
  }

  /** Six words joined with single spaces. */
  lemma JoinSix(w: seq<string>)
    requires |w| == 6
    ensures JoinSpaces(w) == w[0] + " " + w[1] + " " + w[2] + " " + w[3] + " " + w[4] + " " + w[5]
  {
    assert JoinSpaces(w[5..]) == w[5];
    assert JoinSpaces(w[4..]) == w[4] + " " + w[5];
    assert JoinSpaces(w[3..]) == w[3] + " " + (w[4] + " " + w[5]);
    assert JoinSpaces(w[2..]) == w[2] + " " + (w[3] + " " + (w[4] + " " + w[5]));
    assert JoinSpaces(w[1..]) == w[1] + " " + (w[2] + " " + (w[3] + " " + (w[4] + " " + w[5])));
  }

  /** A square name is a letter and digits. */
  lemma NotationWord(p: int)
    requires Nameable(p)
    ensures IsWord(MailboxSquares.GetPositionNotation(p))
  {
    var line := Decimal.ToDecimal(MailboxSquares.GetPositionLineNumber(p));
    var t := MailboxSquares.GetPositionNotation(p);
    assert t[1..] == line;
    forall i | 0 <= i < |t|
      ensures !IsWhitespace(t[i])
    {
      if i > 0 {
        assert t[i] == line[i - 1];
      }
    }
  }

  lemma DecimalWord(n: nat)
    ensures IsWord(Decimal.ToDecimal(n))
  {
  }

  lemma CastleWord(s: State)
    ensures IsWord(CastleFen(s))
  {
    CastleFenLetters(s);
    var r := CastleFen(s);
    if r != "-" {
      forall i | 0 <= i < |r|
        ensures !IsWhitespace(r[i])
      {
        assert r[i] in "KQkq";
        assert r[i] == 'K' || r[i] == 'Q' || r[i] == 'k' || r[i] == 'q';
      }
    }
  }

  lemma EnPassantWord(s: State)
    requires EnPassantNameable(s)
    ensures IsWord(EnPassantFen(s))
  {
    if s.blackEnPassant != INVALID_BOARD_POSITION {
      NotationWord(s.blackEnPassant);
    } else if s.whiteEnPassant != INVALID_BOARD_POSITION {
      NotationWord(s.whiteEnPassant);
    }
  }

  /** Each field is one word: non-empty and free of whitespace. */
  lemma FieldsAreWords(s: State)
    requires |s.squares| == 64 && EnPassantNameable(s)
    ensures forall i :: 0 <= i < 6 ==> IsWord(PositionFields(s)[i])
  {
    PiecesFenRanks(s.squares);
    CastleWord(s);
    EnPassantWord(s);
    DecimalWord(s.halfMoves);
    DecimalWord(s.fullMoves);
    assert IsWord(ColorFen(s));
  }

  /** The record splits on whitespace into exactly its six fields. */
  lemma PositionFenFields(s: State)
    requires |s.squares| == 64 && EnPassantNameable(s)
    ensures SplitWhitespace(PositionFen(s)) == PositionFields(s)
  {
    FieldsAreWords(s);
    JoinSix(PositionFields(s));
    SplitJoin(PositionFields(s));
  }

  /** The en-passant squares a board records can be named. */
  lemma RecordedNameable(s: State)
    requires EnPassantRecorded(s)
    ensures EnPassantNameable(s)
  {
  }

  /** The states a record is written from: piece codes on the squares, recorded en-passant squares, `usize` clocks. */
  predicate Writes(s: State)
  {
    |s.squares| == 64 && (forall i :: 0 <= i < 64 ==> Writable(s.squares[i]))
    && EnPassantRecorded(s) && s.halfMoves < Decimal.USIZE_LIMIT && s.fullMoves < Decimal.USIZE_LIMIT
  }

  /** What a FEN record carries of a board state. */
  datatype Recorded = Recorded(
    squares: seq<nat>, whiteMove: bool,
    whiteKingSideCastle: bool, whiteQueenSideCastle: bool, blackKingSideCastle: bool, blackQueenSideCastle: bool,
    whiteEnPassant: int, blackEnPassant: int, halfMoves: nat, fullMoves: nat)

  function RecordedOf(s: State): Recorded
  {
    Recorded(s.squares, s.whiteMove, s.whiteKingSideCastle, s.whiteQueenSideCastle,
             s.blackKingSideCastle, s.blackQueenSideCastle, s.whiteEnPassant, s.blackEnPassant,
             s.halfMoves, s.fullMoves)
  }

  /**
   * The record, loaded into a fresh board state (as `Board::load_position`
   * does), gives back the squares, the side to move, the four castling
   * rights, both en-passant squares and both clocks. This holds for the
   * corrected writer (`PiecesFen` flushes the last empty run) and the
   * corrected en passant reader (`FenLoading.LoadEnPassant`, White's row 6);
   * as written it fails (`TrailingRunLost`, `EnPassantAsWrittenMisplaces`).
   */
  lemma PositionFenReadsBack(h: Hashing, s: State)
    requires Ready(h) && Writes(s)
    ensures EnPassantNameable(s) && FenLoading.Loadable(PositionFen(s))
    ensures RecordedOf(FenLoading.LoadPosition(h, New(h), PositionFen(s))) == RecordedOf(s)
  {
    RecordLoadable(s);
    LoadOntoEmpty(h, New(h), s);
  }

  /** The record of a state it is written from can be loaded. */
  lemma RecordLoadable(s: State)
    requires Writes(s)
    ensures EnPassantNameable(s) && FenLoading.Loadable(PositionFen(s))
  {
    RecordedNameable(s);
    PositionFenFields(s);
    PiecesFenReadsBack(s.(squares := seq(64, _ => EMPTY_PIECE)), s.squares);
    EnPassantFenReadsBack(s, s);
  }

  /** Loading the record onto a state with an empty board gives back what the record carries. */
  lemma LoadOntoEmpty(h: Hashing, start: State, s: State)
    requires Ready(h) && Writes(s) && EnPassantNameable(s) && FenLoading.Loadable(PositionFen(s))
    requires |start.squares| == 64 && forall i :: 0 <= i < 64 ==> start.squares[i] == EMPTY_PIECE
    ensures RecordedOf(FenLoading.LoadPosition(h, start, PositionFen(s))) == RecordedOf(s)
  {
    PositionFenFields(s);
    FieldsLoad(start, s);
    Decimal.ParseToDecimal(s.halfMoves);
    Decimal.ParseToDecimal(s.fullMoves);
  }

  /** The first four fields, loaded one after another onto an empty board, give back what they were written from. */
  lemma FieldsLoad(start: State, s: State)
    requires |start.squares| == 64 && forall i :: 0 <= i < 64 ==> start.squares[i] == EMPTY_PIECE
    requires Writes(s)
    ensures EnPassantNameable(s) && FenLoading.PiecesFit(PiecesFen(s.squares)) && FenLoading.EnPassantFits(EnPassantFen(s), 6)
    ensures var r := FenLoading.LoadEnPassant(FenLoading.LoadCastling(FenLoading.LoadActiveColor(
        FenLoading.LoadPieces(start, PiecesFen(s.squares)), ColorFen(s)), CastleFen(s)), EnPassantFen(s));
      r.squares == s.squares && r.whiteMove == s.whiteMove
      && r.whiteKingSideCastle == s.whiteKingSideCastle && r.whiteQueenSideCastle == s.whiteQueenSideCastle
      && r.blackKingSideCastle == s.blackKingSideCastle && r.blackQueenSideCastle == s.blackQueenSideCastle
      && r.whiteEnPassant == s.whiteEnPassant && r.blackEnPassant == s.blackEnPassant
  {
    RecordedNameable(s);
    PiecesFenReadsBack(start, s.squares);
    var placed := FenLoading.LoadPieces(start, PiecesFen(s.squares));
    var coloured := FenLoading.LoadActiveColor(placed, ColorFen(s));
    var castled := FenLoading.LoadCastling(coloured, CastleFen(s));
    CastleFenReadsBack(coloured, s);
    EnPassantFenReadsBack(castled, s);
  }
}
