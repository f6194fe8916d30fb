// `move_generator/utils.rs`, `is_en_passant_discovered_check`: an en
// passant capture removes two pawns from the capturing pawn's rank at once,
// which can open that rank between the king and an opponent rook or queen.
// Words are sets of squares (`BitSets.Bits`), as in `AttackData`.
module DiscoveredCheck {
  import opened BitSets
  import opened BitboardEnums
  import opened BoardIndexes
  import P = Positions
  import MoveGenUtils
  import AttackData

  /** The eight squares of the rank with index `rank` (0 for rank 1). */
  function RankSquares(rank: nat): (r: Bits)
    requires rank < 8
    ensures forall s :: s in r <==> s / 8 == rank
  {
    set s: nat | s < 64 && s / 8 == rank
  }

  /** `get_row_bb`: trying rank `k` down to rank 1, the first rank that meets the word; none when the word is empty. */
  function HighestRow(bb: Bits, k: nat): (r: Bits)
    requires k <= 8
    ensures r <= AttackData.ALL
  {
    if k == 0 then {}
    else if bb * RankSquares(k - 1) != {} then RankSquares(k - 1)
    else HighestRow(bb, k - 1)
  }

  /** The rank `get_row_bb` answers for the king's own square is the king's rank. */
  lemma {:induction false} HighestRowOfSquare(s: nat, k: nat)
    requires s / 8 < k <= 8
    ensures HighestRow({s}, k) == RankSquares(s / 8)
    decreases k
  {
    if s / 8 < k - 1 {
      assert s !in RankSquares(k - 1);
      assert {s} * RankSquares(k - 1) == {};
      HighestRowOfSquare(s, k - 1);
    } else {
      assert s in {s} * RankSquares(k - 1);
    }
  }

  /**
   * The loop of `get_closest_square` as written, over a set of squares
   * popped lowest first: a square replaces the running answer when its
   * distance to `base` is below the running answer's square index.
   */
  function ClosestIn(base: nat, pieces: Bits, closest: nat): (r: nat)
    ensures r == closest || r in pieces
    decreases |pieces|
  {
    if pieces == {} then closest
    else
      var s := AttackData.Lowest(pieces);
      ClosestIn(base, pieces - {s}, if MoveGenUtils.AbsDiff(base, s) < closest then s else closest)
  }

  /** For squares of the board the search answers one of them, and `usize::MAX` when there are none. */
  lemma ClosestInFinds(base: nat, pieces: Bits)
    requires base < 64 && pieces <= AttackData.ALL
    ensures var r := ClosestIn(base, pieces, MoveGenUtils.USIZE_MAX);
      (pieces != {} ==> r in pieces) && (pieces == {} ==> r == MoveGenUtils.USIZE_MAX)
  {
    if pieces != {} {
      var s := AttackData.Lowest(pieces);
      MoveGenUtils.SentinelIsFar(base, s);
    }
  }

  /** Two squares of one rank are fewer than eight apart. */
  lemma SameRankNear(a: nat, b: nat)
    requires a / 8 == b / 8
    ensures MoveGenUtils.AbsDiff(a, b) < 8
  {
  }

  /**
   * Off the first rank the search as written answers the HIGHEST square of
   * the king's rank, not the nearest: every distance along one rank is below
   * every square index from 8 up, so each square popped replaces the last.
   */
  lemma {:induction false} ClosestInHighest(base: nat, pieces: Bits, closest: nat)
    requires pieces != {} && 8 <= closest
    requires forall s :: s in pieces ==> 8 <= s && s / 8 == base / 8
    ensures var r := ClosestIn(base, pieces, closest);
      r in pieces && forall t :: t in pieces ==> t <= r
    decreases |pieces|
  {
    var s := AttackData.Lowest(pieces);
    SameRankNear(base, s);
    var rest := pieces - {s};
    if rest != {} {
      ClosestInHighest(base, rest, s);
    } else {
      assert pieces == {s};
    }
  }

  /** Once the answer is square 0 (a1), no distance is below it, so nothing replaces it. */
  lemma {:induction false} ClosestInKeepsZero(base: nat, pieces: Bits)
    ensures ClosestIn(base, pieces, 0) == 0
    decreases |pieces|
  {
    if pieces != {} {
      var s := AttackData.Lowest(pieces);
      ClosestInKeepsZero(base, pieces - {s});
    }
  }

  /**
   * On the first rank the search is not the highest-square search: a rook or
   * queen on a1 is popped first and kept whatever else stands on the rank.
   * With the king on e1 and rooks on a1 and h1 it answers a1, not the nearer h1.
   */
  lemma FirstRankKeepsCorner(base: nat, pieces: Bits)
    requires base < 64 && 0 in pieces
    ensures ClosestIn(base, pieces, MoveGenUtils.USIZE_MAX) == 0
    ensures base == 4 && pieces == {0, 7} ==> MoveGenUtils.AbsDiff(base, 7) < MoveGenUtils.AbsDiff(base, 0)
  {
    var s := AttackData.Lowest(pieces);
    assert s == 0;
    ClosestInKeepsZero(base, pieces - {s});
  }

  /** Both colours' pieces on the rank, less the two pawns the capture takes off it. */
  function RowOccupied(boards: seq<Bits>, side: Color, row: Bits, enPassantPieceBb: Bits, square: nat): Bits
    requires |boards| == 8
  {
    (boards[ColorIndex(side)] + boards[ColorIndex(Opponent(side))]) * row - enPassantPieceBb - {square}
  }

  /**
   * `is_en_passant_discovered_check`: for the side to move capturing en
   * passant from `square` on its king's rank, whether no piece other than the
   * two pawns stands between the king and the rook the closest-square search
   * picks on that rank, nor between the king and the queen it picks (a queen
   * picked on square 0 is not looked at). A yes needs the capture to be the
   * side to move's, on its king's rank, with an opponent rook or queen there.
   */
  function IsEnPassantDiscoveredCheck(color: Color, a: AttackData.Data, square: nat, boards: seq<Bits>, enPassantPieceBb: Bits): (r: bool)
    requires |boards| == 8 && a.kingSquare < 64
    ensures r ==> color == a.side && P.SameRank(square, a.kingSquare)
    ensures r ==> var row := HighestRow(a.kingBb, 8);
      (AttackData.Pieces(boards, Opponent(a.side), ROOKS_IDX) + AttackData.Pieces(boards, Opponent(a.side), QUEENS_IDX)) * row != {}
  {
    if color != a.side || !P.SameRank(square, a.kingSquare) then false
    else
      var row := HighestRow(a.kingBb, 8);
      var opponent := Opponent(a.side);
      var opponentQueens := AttackData.Pieces(boards, opponent, QUEENS_IDX) * row;
      var opponentRooks := AttackData.Pieces(boards, opponent, ROOKS_IDX) * row;
      if opponentRooks == {} && opponentQueens == {} then false
      else
        var rowOccupiedSquares := RowOccupied(boards, a.side, row, enPassantPieceBb, square);
        var closestRookSquare := ClosestIn(a.kingSquare, opponentRooks, MoveGenUtils.USIZE_MAX);
        var closestQueenSquare := ClosestIn(a.kingSquare, opponentQueens, MoveGenUtils.USIZE_MAX);
        ClosestInFinds(a.kingSquare, opponentRooks);
        ClosestInFinds(a.kingSquare, opponentQueens);
        var squaresBetweenRookAndKing :=
          if opponentRooks != {} then MoveGenUtils.SquaresBetween(a.kingSquare, closestRookSquare) else {};
        var squaresBetweenQueenAndKing :=
          if opponentQueens != {} && closestQueenSquare != 0 then MoveGenUtils.SquaresBetween(a.kingSquare, closestQueenSquare) else {};
        (squaresBetweenRookAndKing + squaresBetweenQueenAndKing) * rowOccupiedSquares == {}
  }

  /**
   * When the answer is yes and the king is not on the first rank, an opponent
   * rook or queen stands on the king's rank with nothing strictly between
   * them but the two pawns the capture removes.
   */
  lemma DiscoveredCheckSound(color: Color, a: AttackData.Data, square: nat, boards: seq<Bits>, enPassantPieceBb: Bits)
    returns (p: nat)
    requires |boards| == 8 && AttackData.Located(a) && 8 <= a.kingSquare
    requires IsEnPassantDiscoveredCheck(color, a, square, boards, enPassantPieceBb)
    ensures color == a.side && P.SameRank(square, a.kingSquare)
    ensures var opponent := Opponent(a.side);
      p in AttackData.Pieces(boards, opponent, ROOKS_IDX) + AttackData.Pieces(boards, opponent, QUEENS_IDX)
    ensures P.SameRank(p, a.kingSquare)
    ensures forall t :: a.kingSquare < t < p || p < t < a.kingSquare ==>
      t !in boards[ColorIndex(a.side)] + boards[ColorIndex(Opponent(a.side))] || t in enPassantPieceBb || t == square
  {
    var king := a.kingSquare;
    HighestRowOfSquare(king, 8);
    var row := RankSquares(king / 8);
    var opponent := Opponent(a.side);
    var opponentQueens := AttackData.Pieces(boards, opponent, QUEENS_IDX) * row;
    var opponentRooks := AttackData.Pieces(boards, opponent, ROOKS_IDX) * row;
    ClosestInFinds(king, opponentRooks);
    ClosestInFinds(king, opponentQueens);
    var between: Bits;
    if opponentRooks != {} {
      p := ClosestIn(king, opponentRooks, MoveGenUtils.USIZE_MAX);
      between := MoveGenUtils.SquaresBetween(king, p);
    } else {
      p := ClosestIn(king, opponentQueens, MoveGenUtils.USIZE_MAX);
      assert p / 8 == king / 8;
      between := MoveGenUtils.SquaresBetween(king, p);
    }
    MoveGenUtils.SquaresBetweenMembers(king, p);
    var occupied := RowOccupied(boards, a.side, row, enPassantPieceBb, square);
    assert between * occupied == {};
    forall t | king < t < p || p < t < king
      ensures t !in boards[ColorIndex(a.side)] + boards[ColorIndex(opponent)] || t in enPassantPieceBb || t == square
    {
      assert t / 8 == king / 8;
      assert t in between && t in row;
      assert t !in occupied;
    }
  }

  /**
   * A queen on square 0 is not looked at: with the white king on e1, a black
   * queen on a1 and a white knight on c1 between them, the answer is yes
   * although the knight still shields the king.
   */
  lemma CornerQueenIgnored()
    ensures var boards: seq<Bits> := [{0, 6}, {2, 4, 5}, {}, {4}, {2}, {5, 6}, {0}, {}];
      var a := AttackData.Data({}, {}, AttackData.NoPins(), false, false, AttackData.ALL, {4}, 4, White);
      && IsEnPassantDiscoveredCheck(White, a, 5, boards, {6})
      && 2 in MoveGenUtils.SquaresBetween(4, 0) && 2 in boards[WHITE_IDX] && 0 in AttackData.Pieces(boards, Black, QUEENS_IDX)
  {
    var boards: seq<Bits> := [{0, 6}, {2, 4, 5}, {}, {4}, {2}, {5, 6}, {0}, {}];
    HighestRowOfSquare(4, 8);
    assert AttackData.Pieces(boards, Black, QUEENS_IDX) * RankSquares(0) == {0};
    assert AttackData.Pieces(boards, Black, ROOKS_IDX) == {};
    assert AttackData.Lowest({0}) == 0;
    assert ClosestIn(4, {0}, MoveGenUtils.USIZE_MAX) == 0;
    MoveGenUtils.SquaresBetweenMembers(4, 0);
  }

  /**
   * Only the rook the search picks is looked at, and off the first rank it
   * picks the highest one: with the white king on f5, black rooks on b5 and
   * h5, a white knight on g5, and White taking the e5 pawn en passant from
   * d5, the answer is no, yet the capture leaves nothing between the king
   * and the b5 rook.
   */
  lemma ExposedLowRookMissed()
    ensures var boards: seq<Bits> := [{33, 36, 39}, {35, 37, 38}, {}, {35}, {38}, {36}, {}, {33, 39}];
      var a := AttackData.Data({}, {}, AttackData.NoPins(), false, false, AttackData.ALL, {37}, 37, White);
      && !IsEnPassantDiscoveredCheck(White, a, 35, boards, {36})
      && 33 in AttackData.Pieces(boards, Black, ROOKS_IDX)
      && MoveGenUtils.SquaresBetween(37, 33) * RowOccupied(boards, White, RankSquares(4), {36}, 35) == {}
  {
    var boards: seq<Bits> := [{33, 36, 39}, {35, 37, 38}, {}, {35}, {38}, {36}, {}, {33, 39}];
    HighestRowOfSquare(37, 8);
    var rooks := AttackData.Pieces(boards, Black, ROOKS_IDX) * RankSquares(4);
    assert rooks == {33, 39};
    assert AttackData.Pieces(boards, Black, QUEENS_IDX) == {};
    ClosestInHighest(37, rooks, MoveGenUtils.USIZE_MAX);
    assert ClosestIn(37, rooks, MoveGenUtils.USIZE_MAX) == 39;
    MoveGenUtils.SquaresBetweenMembers(37, 39);
    MoveGenUtils.SquaresBetweenMembers(37, 33);
    assert 38 in MoveGenUtils.SquaresBetween(37, 39) * RowOccupied(boards, White, RankSquares(4), {36}, 35);
  }

  /**
   * With the white king on d5, black rooks on b5 and g5, a white knight on
   * c5, and White taking the f5 pawn en passant from e5, the search picks
   * the g5 rook, the farther one, and the answer is yes: the capture opens
   * the rank towards it.
   */
  lemma FarRookPicked()
    ensures var boards: seq<Bits> := [{33, 37, 38}, {34, 35, 36}, {}, {35}, {34}, {36, 37}, {}, {33, 38}];
      var a := AttackData.Data({}, {}, AttackData.NoPins(), false, false, AttackData.ALL, {35}, 35, White);
      && IsEnPassantDiscoveredCheck(White, a, 36, boards, {37})
      && ClosestIn(35, {33, 38}, MoveGenUtils.USIZE_MAX) == 38
      && MoveGenUtils.AbsDiff(35, 33) < MoveGenUtils.AbsDiff(35, 38)
  {
    var boards: seq<Bits> := [{33, 37, 38}, {34, 35, 36}, {}, {35}, {34}, {36, 37}, {}, {33, 38}];
    HighestRowOfSquare(35, 8);
    var rooks := AttackData.Pieces(boards, Black, ROOKS_IDX) * RankSquares(4);
    assert rooks == {33, 38};
    assert AttackData.Pieces(boards, Black, QUEENS_IDX) == {};
    ClosestInHighest(35, rooks, MoveGenUtils.USIZE_MAX);
    assert ClosestIn(35, rooks, MoveGenUtils.USIZE_MAX) == 38;
    MoveGenUtils.SquaresBetweenMembers(35, 38);
    assert MoveGenUtils.SquaresBetween(35, 38) == {36, 37};
  }
}
