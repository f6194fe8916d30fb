// The "relevant squares" of a rook or bishop: the squares whose occupancy
// can change the slider's moves. They are the squares the slider reaches on
// an empty board, minus the last square of each ray (a piece there blocks
// nothing further). Squares are numbered 0..63 with rank = square / 8 and
// file = square % 8, square 0 being a1.
module RelevantSquares {
  import Bitwise

  /** `1u64 << square`, as the set of one square. */
  function Bit(square: nat): bv64
    requires square < 64
  {
    Bitwise.SquareBitAt(square)
  }

  predicate OnBoard(squares: seq<nat>)
  {
    forall i :: 0 <= i < |squares| ==> squares[i] < 64
  }

  /** The squares of `squares`, one after the other, ORed into `acc`. */
  function OrSquares(squares: seq<nat>, acc: bv64): bv64
    requires OnBoard(squares)
    decreases |squares|
  {
    if |squares| == 0 then acc else OrSquares(squares[1..], acc | Bit(squares[0]))
  }

  lemma {:induction false} OrSquaresAppend(a: seq<nat>, b: seq<nat>, acc: bv64)
    requires OnBoard(a) && OnBoard(b)
    ensures OnBoard(a + b)
    ensures OrSquares(a + b, acc) == OrSquares(b, OrSquares(a, acc))
    decreases |a|
  {
    if |a| > 0 {
      assert (a + b)[1..] == a[1..] + b;
      OrSquaresAppend(a[1..], b, acc | Bit(a[0]));
    } else {
      assert a + b == b;
    }
  }

  /** ORing in a list that starts with `square` is ORing in `square`, then the rest. */
  lemma OrSquaresCons(square: nat, rest: seq<nat>, acc: bv64)
    requires square < 64 && OnBoard(rest)
    ensures OnBoard([square] + rest)
    ensures OrSquares([square] + rest, acc) == OrSquares(rest, acc | Bit(square))
  {
    assert ([square] + rest)[1..] == rest;
  }

  /** Rank and file of a square. */
  function Rank(square: nat): nat { square / 8 }
  function File(square: nat): nat { square % 8 }

  lemma Coordinates(r: int, f: int)
    requires 0 <= r < 8 && 0 <= f < 8
    ensures Rank(r * 8 + f) == r && File(r * 8 + f) == f
  {
  }

  // ---------------------------------------------------------------
  // Bishop: four diagonal rays that stop one short of the edge.
  // ---------------------------------------------------------------

  predicate Direction(dr: int, df: int)
  {
    (dr == -1 || dr == 1) && (df == -1 || df == 1)
  }

  /**
   * The loop condition of one diagonal walk: another step stays off
   * ranks 1 and 8 and off files a and h.
   */
  predicate RayGuard(r: nat, f: nat, dr: int, df: int)
  {
    (if dr < 0 then r > 1 else r < 6) && (if df < 0 then f > 1 else f < 6)
  }

  /** The squares one diagonal walk from (r, f) ORs in, in order. */
  function Ray(r: nat, f: nat, dr: int, df: int): (ray: seq<nat>)
    requires r < 8 && f < 8 && Direction(dr, df)
    ensures OnBoard(ray)
    decreases if dr < 0 then r else 8 - r
  {
    if RayGuard(r, f, dr, df) then
      [(r + dr) * 8 + (f + df)] + Ray(r + dr, f + df, dr, df)
    else []
  }

  /**
   * Square `i` lies strictly beyond (r, f) on the diagonal of direction
   * (dr, df), off the edge of the board.
   */
  predicate Beyond(i: nat, r: nat, f: nat, dr: int, df: int)
  {
    BeyondAt(Rank(i), File(i), r, f, dr, df)
  }

  /** `Beyond`, for the square at rank `ri` and file `fi`. */
  predicate BeyondAt(ri: int, fi: int, r: int, f: int, dr: int, df: int)
  {
    1 <= ri <= 6 && 1 <= fi <= 6 &&
    (if dr < 0 then ri < r else ri > r) &&
    (if dr == df then fi - f == ri - r else fi - f == r - ri)
  }

  /** Past one more step, the squares beyond are that step's square and those beyond it. */
  lemma BeyondStep(ri: int, fi: int, r: int, f: int, dr: int, df: int)
    requires Direction(dr, df) && 0 <= r < 8 && 0 <= f < 8 && RayGuard(r, f, dr, df)
    ensures BeyondAt(ri, fi, r, f, dr, df) <==>
      (ri == r + dr && fi == f + df) || BeyondAt(ri, fi, r + dr, f + df, dr, df)
  {
  }

  /** Where the walk stops, nothing of the interior lies beyond. */
  lemma BeyondEnd(ri: int, fi: int, r: int, f: int, dr: int, df: int)
    requires Direction(dr, df) && 0 <= r < 8 && 0 <= f < 8 && !RayGuard(r, f, dr, df)
    ensures !BeyondAt(ri, fi, r, f, dr, df)
  {
  }

  lemma SameSquare(i: nat, r: nat, f: nat)
    requires i < 64 && r < 8 && f < 8
    ensures i == r * 8 + f <==> Rank(i) == r && File(i) == f
  {
  }

  /** A diagonal walk collects exactly the interior squares beyond its start. */
  lemma {:induction false} RayMembers(r: nat, f: nat, dr: int, df: int, i: nat)
    requires r < 8 && f < 8 && Direction(dr, df) && i < 64
    ensures i in Ray(r, f, dr, df) <==> Beyond(i, r, f, dr, df)
    decreases if dr < 0 then r else 8 - r
  {
    if RayGuard(r, f, dr, df) {
      var r', f' := r + dr, f + df;
      RayMembers(r', f', dr, df, i);
      assert Ray(r, f, dr, df) == [r' * 8 + f'] + Ray(r', f', dr, df);
      SameSquare(i, r', f');
      BeyondStep(Rank(i), File(i), r, f, dr, df);
    } else {
      BeyondEnd(Rank(i), File(i), r, f, dr, df);
    }
  }

  /** The four walks of `generate_bishop_relevant_squares`, in the source's order. */
  function BishopRelevant(rank: nat, file: nat): (squares: seq<nat>)
    requires rank < 8 && file < 8
    ensures OnBoard(squares)
  {
    Ray(rank, file, -1, -1) + Ray(rank, file, 1, 1) + Ray(rank, file, -1, 1) + Ray(rank, file, 1, -1)
  }

  /** A square `s` and square `i` share a diagonal or an anti-diagonal. */
  predicate SameDiagonal(i: nat, s: nat)
  {
    File(i) - File(s) == Rank(i) - Rank(s) || File(i) - File(s) == Rank(s) - Rank(i)
  }

  /**
   * The relevant squares of a bishop on (rank, file) are the squares off the
   * edge of the board, other than its own, that share a diagonal with it.
   */
  lemma BishopRelevantMembers(rank: nat, file: nat, i: nat)
    requires rank < 8 && file < 8 && i < 64
    ensures i in BishopRelevant(rank, file) <==>
      1 <= Rank(i) <= 6 && 1 <= File(i) <= 6 && i != rank * 8 + file && SameDiagonal(i, rank * 8 + file)
  {
    Coordinates(rank, file);
    RayMembers(rank, file, -1, -1, i);
    RayMembers(rank, file, 1, 1, i);
    RayMembers(rank, file, -1, 1, i);
    RayMembers(rank, file, 1, -1, i);
  }

  /**
   * One diagonal walk of `generate_bishop_relevant_squares`: from (rank,
   * file), step by (dr, df) while the guard holds, ORing each square in.
   */
  method WalkDiagonal(rank: nat, file: nat, dr: int, df: int, mask: bv64) returns (result: bv64)
    requires rank < 8 && file < 8 && Direction(dr, df)
    ensures result == OrSquares(Ray(rank, file, dr, df), mask)
  {
    var r: nat, f: nat := rank, file;
    result := mask;
    while RayGuard(r, f, dr, df)
      invariant r < 8 && f < 8
      invariant OrSquares(Ray(r, f, dr, df), result) == OrSquares(Ray(rank, file, dr, df), mask)
      decreases if dr < 0 then r else 8 - r
    {
      r, f, result := DiagonalStep(r, f, dr, df, result);
    }
  }

  /** One round of the walk's loop: step diagonally and OR in the square reached. */
  method DiagonalStep(r: nat, f: nat, dr: int, df: int, acc: bv64) returns (r': nat, f': nat, acc': bv64)
    requires r < 8 && f < 8 && Direction(dr, df) && RayGuard(r, f, dr, df)
    ensures r' == r + dr && f' == f + df && r' < 8 && f' < 8
    ensures OrSquares(Ray(r', f', dr, df), acc') == OrSquares(Ray(r, f, dr, df), acc)
  {
    RayStep(r, f, dr, df, acc);
    r', f' := r + dr, f + df;
    acc' := acc | Bit(r' * 8 + f');
  }

  /** One round of a diagonal walk: the next square is ORed in, and the walk goes on from there. */
  lemma RayStep(r: nat, f: nat, dr: int, df: int, acc: bv64)
    requires r < 8 && f < 8 && Direction(dr, df) && RayGuard(r, f, dr, df)
    ensures 0 <= r + dr < 8 && 0 <= f + df < 8
    ensures OrSquares(Ray(r, f, dr, df), acc) ==
      OrSquares(Ray(r + dr, f + df, dr, df), acc | Bit((r + dr) * 8 + (f + df)))
  {
    var square := (r + dr) * 8 + (f + df);
    assert Ray(r, f, dr, df) == [square] + Ray(r + dr, f + df, dr, df);
    OrSquaresCons(square, Ray(r + dr, f + df, dr, df), acc);
  }

  /** The mask `generate_bishop_relevant_squares` computes for `square`. */
  function BishopMask(square: nat): bv64
    requires square < 64
  {
    OrSquares(BishopRelevant(Rank(square), File(square)), 0)
  }

  /** The body of the square loop of `generate_bishop_relevant_squares`. */
  method BishopRelevantMask(square: nat) returns (mask: bv64)
    requires square < 64
    ensures mask == BishopMask(square)
  {
    var rank, file := square / 8, square % 8;
    var bl := Ray(rank, file, -1, -1);
    var tr := Ray(rank, file, 1, 1);
    var tl := Ray(rank, file, -1, 1);
    var br := Ray(rank, file, 1, -1);
    mask := 0;
    // Bottom-left, top-right, top-left, bottom-right.
    mask := WalkDiagonal(rank, file, -1, -1, mask);
    mask := WalkDiagonal(rank, file, 1, 1, mask);
    mask := WalkDiagonal(rank, file, -1, 1, mask);
    mask := WalkDiagonal(rank, file, 1, -1, mask);
    OrSquaresAppend(bl, tr, 0);
    OrSquaresAppend(bl + tr, tl, 0);
    OrSquaresAppend(bl + tr + tl, br, 0);
  }

  /** `generate_bishop_relevant_squares`. */
  method GenerateBishopRelevantSquares() returns (masks: array<bv64>)
    ensures fresh(masks) && masks.Length == 64
    ensures forall sq: nat :: sq < 64 ==> masks[sq] == BishopMask(sq)
  {
    masks := new bv64[64](_ => 0);
    for square := 0 to 64
      invariant forall sq: nat :: sq < square ==> masks[sq] == BishopMask(sq)
    {
      var mask := BishopRelevantMask(square);
      masks[square] := mask;
    }
  }

  // ---------------------------------------------------------------
  // Rook: its rank and its file, without the edges and its own square.
  // ---------------------------------------------------------------

  /** Squares (rank, f) for f from `f` up to 6, skipping `file`. */
  function Horizontal(rank: nat, file: nat, f: nat): (squares: seq<nat>)
    requires rank < 8
    ensures OnBoard(squares)
    decreases 7 - f
  {
    if f >= 7 then []
    else (if f != file then [rank * 8 + f] else []) + Horizontal(rank, file, f + 1)
  }

  /** Squares (r, file) for r from `r` up to 6, skipping `rank`. */
  function Vertical(rank: nat, file: nat, r: nat): (squares: seq<nat>)
    requires file < 8
    ensures OnBoard(squares)
    decreases 7 - r
  {
    if r >= 7 then []
    else (if r != rank then [r * 8 + file] else []) + Vertical(rank, file, r + 1)
  }

  /** One round of the rank loop of `generate_rook_relevant_squares`. */
  lemma HorizontalStep(rank: nat, file: nat, f: nat, mask: bv64)
    requires rank < 8 && f < 7
    ensures OrSquares(Horizontal(rank, file, f), mask) ==
      OrSquares(Horizontal(rank, file, f + 1), if f != file then mask | Bit(rank * 8 + f) else mask)
  {
    if f != file {
      OrSquaresCons(rank * 8 + f, Horizontal(rank, file, f + 1), mask);
    } else {
      assert Horizontal(rank, file, f) == Horizontal(rank, file, f + 1);
    }
  }

  /** One round of the file loop of `generate_rook_relevant_squares`. */
  lemma VerticalStep(rank: nat, file: nat, r: nat, mask: bv64)
    requires file < 8 && r < 7
    ensures OrSquares(Vertical(rank, file, r), mask) ==
      OrSquares(Vertical(rank, file, r + 1), if r != rank then mask | Bit(r * 8 + file) else mask)
  {
    if r != rank {
      OrSquaresCons(r * 8 + file, Vertical(rank, file, r + 1), mask);
    } else {
      assert Vertical(rank, file, r) == Vertical(rank, file, r + 1);
    }
  }

  lemma {:induction false} HorizontalMembers(rank: nat, file: nat, f: nat, i: nat)
    requires rank < 8 && i < 64
    ensures i in Horizontal(rank, file, f) <==> Rank(i) == rank && f <= File(i) <= 6 && File(i) != file
    decreases 7 - f
  {
    Coordinates(Rank(i), File(i));
    if f < 7 {
      Coordinates(rank, f);
      HorizontalMembers(rank, file, f + 1, i);
    }
  }

  lemma {:induction false} VerticalMembers(rank: nat, file: nat, r: nat, i: nat)
    requires file < 8 && i < 64
    ensures i in Vertical(rank, file, r) <==> File(i) == file && r <= Rank(i) <= 6 && Rank(i) != rank
    decreases 7 - r
  {
    Coordinates(Rank(i), File(i));
    if r < 7 {
      Coordinates(r, file);
      VerticalMembers(rank, file, r + 1, i);
    }
  }

  /** The two loops of `generate_rook_relevant_squares`, in the source's order. */
  function RookRelevant(rank: nat, file: nat): (squares: seq<nat>)
    requires rank < 8 && file < 8
    ensures OnBoard(squares)
  {
    Horizontal(rank, file, 1) + Vertical(rank, file, 1)
  }

  /**
   * The relevant squares of a rook on (rank, file) are the other squares of
   * its rank off files a and h and the other squares of its file off ranks
   * 1 and 8.
   */
  lemma RookRelevantMembers(rank: nat, file: nat, i: nat)
    requires rank < 8 && file < 8 && i < 64
    ensures i in RookRelevant(rank, file) <==>
      (Rank(i) == rank && 1 <= File(i) <= 6 && File(i) != file) ||
      (File(i) == file && 1 <= Rank(i) <= 6 && Rank(i) != rank)
  {
    HorizontalMembers(rank, file, 1, i);
    VerticalMembers(rank, file, 1, i);
  }

  /** The mask `generate_rook_relevant_squares` computes for `square`. */
  function RookMask(square: nat): bv64
    requires square < 64
  {
    OrSquares(RookRelevant(Rank(square), File(square)), 0)
  }

  /** The body of the square loop of `generate_rook_relevant_squares`. */
  method RookRelevantMask(square: nat) returns (mask: bv64)
    requires square < 64
    ensures mask == RookMask(square)
  {
    var rank, file := square / 8, square % 8;
    mask := 0;
    for f := 1 to 7
      invariant OrSquares(Horizontal(rank, file, f), mask) == OrSquares(Horizontal(rank, file, 1), 0)
    {
      HorizontalStep(rank, file, f, mask);
      if f != file {
        mask := mask | Bit(rank * 8 + f);
      }
    }
    ghost var horizontal := mask;
    for r := 1 to 7
      invariant OrSquares(Vertical(rank, file, r), mask) == OrSquares(Vertical(rank, file, 1), horizontal)
    {
      VerticalStep(rank, file, r, mask);
      if r != rank {
        mask := mask | Bit(r * 8 + file);
      }
    }
    OrSquaresAppend(Horizontal(rank, file, 1), Vertical(rank, file, 1), 0);
  }

  /** `generate_rook_relevant_squares`. */
  method GenerateRookRelevantSquares() returns (masks: array<bv64>)
    ensures fresh(masks) && masks.Length == 64
    ensures forall sq: nat :: sq < 64 ==> masks[sq] == RookMask(sq)
  {
    masks := new bv64[64](_ => 0);
    for square := 0 to 64
      invariant forall sq: nat :: sq < square ==> masks[sq] == RookMask(sq)
    {
      var mask := RookRelevantMask(square);
      ghost var previous := masks[..];
      masks[square] := mask;
      assert forall sq :: 0 <= sq < 64 && sq != square ==> masks[sq] == previous[sq];
    }
  }
}
