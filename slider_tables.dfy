// The tables the raw generator builds for the sliding pieces: the
// empty-board move table of each slider, every blocker subset of a set of
// squares, and the (square, blockers) -> moves lookup table.
module SliderTables {
  import opened Bitwise
  import Sliders

  /**
   * `pre_compute_slider_moves`: entry `sq` is what `generate` gives for a
   * piece on square `sq` of an empty board.
   */
  method PreComputeSliderMoves(generate: (bv64, bv64, bv64) -> bv64) returns (moves: array<bv64>)
    ensures fresh(moves) && moves.Length == 64
    ensures forall sq: nat :: sq < 64 ==> moves[sq] == generate(0, 0, SquareBitAt(sq))
  {
    moves := new bv64[64](_ => 0);
    for square := 0 to 64
      invariant forall sq: nat :: sq < square ==> moves[sq] == generate(0, 0, SquareBitAt(sq))
    {
      var position := SquareBitAt(square);
      var bbPosition := generate(0, 0, position);
      ghost var previous := moves[..];
      moves[square] := bbPosition;
      assert forall sq :: 0 <= sq < 64 && sq != square ==> moves[sq] == previous[sq];
    }
  }

  /** `pre_compute_bishop_moves`. */
  method PreComputeBishopMoves() returns (moves: array<bv64>)
    ensures fresh(moves) && moves.Length == 64
    ensures forall sq: nat :: sq < 64 ==> moves[sq] == Sliders.BishopMoves(0, 0, SquareBitAt(sq))
  {
    moves := PreComputeSliderMoves(Sliders.BishopMoves);
  }

  /** `pre_compute_queen_moves`. */
  method PreComputeQueenMoves() returns (moves: array<bv64>)
    ensures fresh(moves) && moves.Length == 64
    ensures forall sq: nat :: sq < 64 ==> moves[sq] == Sliders.QueenMoves(0, 0, SquareBitAt(sq))
  {
    moves := PreComputeSliderMoves(Sliders.QueenMoves);
  }

  /** `pre_compute_rook_moves`. */
  method PreComputeRookMoves() returns (moves: array<bv64>)
    ensures fresh(moves) && moves.Length == 64
    ensures forall sq: nat :: sq < 64 ==> moves[sq] == Sliders.RookMoves(0, 0, SquareBitAt(sq))
  {
    moves := PreComputeSliderMoves(Sliders.RookMoves);
  }

  // ---------------------------------------------------------------
  // Blocker subsets.
  // ---------------------------------------------------------------

  /** The test of `get_blockers_bitboards`: bit `i` of `bb` is one. */
  predicate Occupied(bb: bv64, i: bv64)
    requires i < 64
  {
    (bb >> i) & 1 == 1
  }

  /** The squares below `n` that `bb` holds, in increasing order. */
  function SetSquares(bb: bv64, n: bv64): (squares: seq<bv64>)
    requires n <= 64
    decreases n as int
  {
    if n == 0 then []
    else SetSquares(bb, n - 1) + (if Occupied(bb, n - 1) then [n - 1] else [])
  }

  /** A square is listed exactly when `bb` holds it. */
  lemma {:induction false} SetSquaresMembers(bb: bv64, n: bv64, s: bv64)
    requires n <= 64 && s < 64
    ensures s in SetSquares(bb, n) <==> s < n && Occupied(bb, s)
    decreases n as int
  {
    if n > 0 {
      SetSquaresMembers(bb, n - 1, s);
      assert s < n <==> s < n - 1 || s == n - 1;
    }
  }

  function Pow2(n: nat): (r: nat)
    ensures r >= 1
  {
    if n == 0 then 1 else 2 * Pow2(n - 1)
  }

  /** `1 << s`: the bitboard of square `s`. */
  function OneAt(s: bv64): bv64
    requires s < 64
  {
    1 << s
  }

  /** `(pattern >> k) & 1`: bit `k` of the pattern number. */
  function PatternBit(pattern: nat, k: nat): (bit: nat)
    ensures bit < 2
  {
    if k == 0 then pattern % 2 else PatternBit(pattern / 2, k - 1)
  }

  /** Every listed square is a square of the board. */
  lemma {:induction false} SetSquaresOnBoard(bb: bv64, n: bv64)
    requires n <= 64
    ensures OnBoard(SetSquares(bb, n))
    decreases n as int
  {
    if n > 0 {
      SetSquaresOnBoard(bb, n - 1);
    }
  }

  /** `(bit << squares[k]) as u64`: square `k` of the list when bit `k` of the pattern is set. */
  function Contribution(pattern: nat, squares: seq<bv64>, k: nat): bv64
    requires k < |squares| && squares[k] < 64
  {
    if PatternBit(pattern, k) == 1 then OneAt(squares[k]) else 0
  }

  predicate OnBoard(squares: seq<bv64>)
  {
    forall k :: 0 <= k < |squares| ==> squares[k] < 64
  }

  /** The contributions of bits `k` and up, ORed into `acc` one after the other. */
  function PatternFrom(pattern: nat, squares: seq<bv64>, k: nat, acc: bv64): bv64
    requires OnBoard(squares) && k <= |squares|
    decreases |squares| - k
  {
    if k == |squares| then acc
    else PatternFrom(pattern, squares, k + 1, acc | Contribution(pattern, squares, k))
  }

  /** The blocker bitboard of one pattern number. */
  function Blocker(pattern: nat, squares: seq<bv64>): bv64
    requires OnBoard(squares)
  {
    PatternFrom(pattern, squares, 0, 0)
  }

  /** What `get_blockers_bitboards(bb)` returns: the blocker of every pattern below 2^n. */
  function BlockersOf(bb: bv64): seq<bv64>
  {
    var squares := SetSquares(bb, 64);
    SetSquaresOnBoard(bb, 64);
    seq(Pow2(|squares|), pattern requires 0 <= pattern => Blocker(pattern, squares))
  }

  /** The first loop of `get_blockers_bitboards`: the indices of the set bits, in ascending order. */
  method CollectSquares(bbMoves: bv64) returns (squareIndices: seq<bv64>)
    ensures squareIndices == SetSquares(bbMoves, 64)
  {
    squareIndices := [];
    var i: bv64 := 0;
    while i < 64
      invariant i <= 64
      invariant squareIndices == SetSquares(bbMoves, i)
      decreases 64 - i as int
    {
      if (bbMoves >> i) & 1 == 1 {
        squareIndices := squareIndices + [i];
      }
      i := i + 1;
    }
  }

  /** The inner loop of `get_blockers_bitboards`: ORs the square of every set pattern bit into `start`. */
  method PatternBlocker(patternI: nat, squareIndices: seq<bv64>, start: bv64) returns (blocker: bv64)
    requires OnBoard(squareIndices)
    ensures blocker == PatternFrom(patternI, squareIndices, 0, start)
  {
    blocker := start;
    for bitI := 0 to |squareIndices|
      invariant PatternFrom(patternI, squareIndices, bitI, blocker) == PatternFrom(patternI, squareIndices, 0, start)
    {
      var bit := PatternBit(patternI, bitI);
      var square := squareIndices[bitI];
      var contribution := if bit == 1 then OneAt(square) else 0;
      assert contribution == Contribution(patternI, squareIndices, bitI);
      PatternFromStep(patternI, squareIndices, bitI, blocker);
      blocker := blocker | contribution;
    }
  }

  lemma PatternFromStep(pattern: nat, squares: seq<bv64>, k: nat, acc: bv64)
    requires OnBoard(squares) && k < |squares|
    ensures PatternFrom(pattern, squares, k, acc) == PatternFrom(pattern, squares, k + 1, acc | Contribution(pattern, squares, k))
  {
  }

  /** `get_blockers_bitboards`: one entry per pattern, starting at 0 and filled bit by bit. */
  method GetBlockersBitboards(bbMoves: bv64) returns (blockersBitboards: seq<bv64>)
    ensures blockersBitboards == BlockersOf(bbMoves)
  {
    var squareIndices := CollectSquares(bbMoves);
    SetSquaresOnBoard(bbMoves, 64);
    var numPatterns := Pow2(|squareIndices|);
    blockersBitboards := [];
    for patternI := 0 to numPatterns
      invariant |blockersBitboards| == patternI
      invariant forall p :: 0 <= p < patternI ==> blockersBitboards[p] == Blocker(p, squareIndices)
    {
      blockersBitboards := blockersBitboards + [0];
      var blocker := PatternBlocker(patternI, squareIndices, blockersBitboards[patternI]);
      blockersBitboards := blockersBitboards[patternI := blocker];
    }
    assert |blockersBitboards| == |BlockersOf(bbMoves)|;
  }

  /** Pattern 0 sets no bit: the first blocker bitboard is empty. */
  lemma {:induction false} NoPatternNoBlocker(squares: seq<bv64>, k: nat)
    requires OnBoard(squares) && k <= |squares|
    ensures PatternFrom(0, squares, k, 0) == 0
    decreases |squares| - k
  {
    if k < |squares| {
      ZeroHasNoBits(k);
      NoPatternNoBlocker(squares, k + 1);
    }
  }

  lemma {:induction false} ZeroHasNoBits(k: nat)
    ensures PatternBit(0, k) == 0
  {
    if k > 0 {
      ZeroHasNoBits(k - 1);
    }
  }

  lemma OneWithin(s: bv64, bb: bv64)
    requires s < 64 && Occupied(bb, s)
    ensures Within(OneAt(s), bb)
  {
  }

  lemma OrWithin(a: bv64, b: bv64, bb: bv64)
    requires Within(a, bb) && Within(b, bb)
    ensures Within(a | b, bb)
  {
  }

  lemma ContributionWithin(pattern: nat, squares: seq<bv64>, k: nat, acc: bv64, bb: bv64)
    requires k < |squares| && squares[k] < 64
    requires Within(acc, bb) && Occupied(bb, squares[k])
    ensures Within(acc | Contribution(pattern, squares, k), bb)
  {
    if PatternBit(pattern, k) == 1 {
      OneWithin(squares[k], bb);
      OrWithin(acc, OneAt(squares[k]), bb);
    } else {
      OrWithin(acc, 0, bb);
    }
  }

  /** Every blocker holds only squares of the listed set. */
  lemma {:induction false} PatternWithin(pattern: nat, bb: bv64, squares: seq<bv64>, k: nat, acc: bv64)
    requires OnBoard(squares) && k <= |squares|
    requires forall j :: 0 <= j < |squares| ==> Occupied(bb, squares[j])
    requires Within(acc, bb)
    ensures Within(PatternFrom(pattern, squares, k, acc), bb)
    decreases |squares| - k
  {
    if k < |squares| {
      ContributionWithin(pattern, squares, k, acc, bb);
      PatternWithin(pattern, bb, squares, k + 1, acc | Contribution(pattern, squares, k));
    }
  }

  lemma OccupiedOr(a: bv64, b: bv64, i: bv64)
    requires i < 64
    ensures Occupied(a | b, i) <==> Occupied(a, i) || Occupied(b, i)
  {
  }

  lemma OccupiedOne(s: bv64, i: bv64)
    requires s < 64 && i < 64
    ensures Occupied(OneAt(s), i) <==> i == s
  {
  }

  lemma OccupiedZero(i: bv64)
    requires i < 64
    ensures !Occupied(0, i)
  {
  }

  /** No square is listed twice. */
  predicate Distinct(squares: seq<bv64>)
  {
    forall a, b :: 0 <= a < b < |squares| ==> squares[a] != squares[b]
  }

  lemma AppendDistinct(before: seq<bv64>, x: bv64)
    requires Distinct(before) && x !in before
    ensures Distinct(before + [x])
  {
    var squares := before + [x];
    forall a, b | 0 <= a < b < |squares|
      ensures squares[a] != squares[b]
    {
      if b < |before| {
        assert squares[a] == before[a] && squares[b] == before[b];
      } else {
        assert squares[a] == before[a] && squares[b] == x;
      }
    }
  }

  lemma {:induction false} SetSquaresDistinct(bb: bv64, n: bv64)
    requires n <= 64
    ensures Distinct(SetSquares(bb, n))
    decreases n as int
  {
    if n > 0 {
      SetSquaresDistinct(bb, n - 1);
      SetSquaresMembers(bb, n - 1, n - 1);
      if Occupied(bb, n - 1) {
        AppendDistinct(SetSquares(bb, n - 1), n - 1);
      } else {
        assert SetSquares(bb, n) == SetSquares(bb, n - 1);
      }
    }
  }

  /** The contribution of bit `k` holds listed square `j` exactly when `j` is `k` and its bit is set. */
  lemma ContributionBit(pattern: nat, squares: seq<bv64>, k: nat, j: nat)
    requires OnBoard(squares) && Distinct(squares) && k < |squares| && j < |squares|
    ensures Occupied(Contribution(pattern, squares, k), squares[j]) <==> k == j && PatternBit(pattern, j) == 1
  {
    if PatternBit(pattern, k) == 1 {
      OccupiedOne(squares[k], squares[j]);
      assert squares[k] == squares[j] <==> k == j;
    } else {
      OccupiedZero(squares[j]);
    }
  }

  /** `acc` joined with `parts[k..]`, one part after the other. */
  function Fold<T>(join: (T, T) -> T, parts: seq<T>, k: nat, acc: T): T
    requires k <= |parts|
    decreases |parts| - k
  {
    if k == |parts| then acc else Fold(join, parts, k + 1, join(acc, parts[k]))
  }

  /**
   * A test that distributes over `join` holds of the fold exactly when it
   * holds of `acc` or of the one part (number `j`) it can hold of.
   */
  lemma {:induction false} FoldHas<T>(join: (T, T) -> T, parts: seq<T>, k: nat, acc: T, has: T -> bool, j: nat, hit: bool)
    requires k <= |parts| && j < |parts|
    requires forall a, b :: has(join(a, b)) == (has(a) || has(b))
    requires forall i :: 0 <= i < |parts| ==> (has(parts[i]) <==> i == j && hit)
    ensures has(Fold(join, parts, k, acc)) <==> has(acc) || (k <= j && hit)
    decreases |parts| - k
  {
    if k < |parts| {
      FoldHas(join, parts, k + 1, join(acc, parts[k]), has, j, hit);
    }
  }

  function Contributions(pattern: nat, squares: seq<bv64>): (parts: seq<bv64>)
    requires OnBoard(squares)
    ensures |parts| == |squares|
    ensures forall i :: 0 <= i < |squares| ==> parts[i] == Contribution(pattern, squares, i)
  {
    seq(|squares|, i requires 0 <= i < |squares| => Contribution(pattern, squares, i))
  }

  function Or(a: bv64, b: bv64): bv64
  {
    a | b
  }

  /** `PatternFrom` is the fold of the contributions with `|`. */
  lemma {:induction false} PatternFromFold(pattern: nat, squares: seq<bv64>, k: nat, acc: bv64)
    requires OnBoard(squares) && k <= |squares|
    ensures PatternFrom(pattern, squares, k, acc) == Fold(Or, Contributions(pattern, squares), k, acc)
    decreases |squares| - k
  {
    if k < |squares| {
      PatternFromFold(pattern, squares, k + 1, acc | Contribution(pattern, squares, k));
    }
  }

  /** The blocker of `pattern` holds listed square `j` exactly when bit `j` of `pattern` is set. */
  lemma PatternFromBit(pattern: nat, squares: seq<bv64>, j: nat)
    requires OnBoard(squares) && Distinct(squares) && j < |squares|
    ensures Occupied(Blocker(pattern, squares), squares[j]) <==> PatternBit(pattern, j) == 1
  {
    var sj := squares[j];
    var has := (x: bv64) => Occupied(x, sj);
    var parts := Contributions(pattern, squares);
    forall a, b
      ensures has(Or(a, b)) == (has(a) || has(b))
    {
      OccupiedOr(a, b, sj);
    }
    forall i | 0 <= i < |parts|
      ensures has(parts[i]) <==> i == j && PatternBit(pattern, j) == 1
    {
      ContributionBit(pattern, squares, i, j);
    }
    FoldHas(Or, parts, 0, 0, has, j, PatternBit(pattern, j) == 1);
    PatternFromFold(pattern, squares, 0, 0);
    OccupiedZero(sj);
  }

  /** Two pattern numbers below 2^n differ in one of their n low bits. */
  lemma {:induction false} PatternsDiffer(p: nat, q: nat, n: nat) returns (k: nat)
    requires p < Pow2(n) && q < Pow2(n) && p != q
    ensures k < n && PatternBit(p, k) != PatternBit(q, k)
  {
    if n == 0 {
      assert false;
    } else if p % 2 != q % 2 {
      k := 0;
    } else {
      var k' := PatternsDiffer(p / 2, q / 2, n - 1);
      k := k' + 1;
    }
  }

  /** Blocker `p` of `bb` holds listed square `k` exactly when bit `k` of `p` is set. */
  lemma BlockersSelectSquares(bb: bv64)
    ensures forall p, k :: 0 <= p < |BlockersOf(bb)| && 0 <= k < |SetSquares(bb, 64)| ==>
              SetSquares(bb, 64)[k] < 64 && (Occupied(BlockersOf(bb)[p], SetSquares(bb, 64)[k]) <==> PatternBit(p, k) == 1)
  {
    var squares := SetSquares(bb, 64);
    var blockers := BlockersOf(bb);
    SetSquaresOnBoard(bb, 64);
    SetSquaresDistinct(bb, 64);
    forall p, k | 0 <= p < |blockers| && 0 <= k < |squares|
      ensures Occupied(blockers[p], squares[k]) <==> PatternBit(p, k) == 1
    {
      PatternFromBit(p, squares, k);
    }
  }

  /**
   * The blocker bitboards of `bb`: there are 2^n of them for the n squares
   * of `bb`, each holds squares of `bb` only, the first is empty, and no two
   * of them are equal (they differ on the square of a pattern bit where
   * their numbers differ).
   */
  lemma BlockersOfProperties(bb: bv64)
    ensures |BlockersOf(bb)| == Pow2(|SetSquares(bb, 64)|)
    ensures forall p :: 0 <= p < |BlockersOf(bb)| ==> Within(BlockersOf(bb)[p], bb)
    ensures BlockersOf(bb)[0] == 0
    ensures forall p, q :: 0 <= p < q < |BlockersOf(bb)| ==> BlockersOf(bb)[p] != BlockersOf(bb)[q]
  {
    var squares := SetSquares(bb, 64);
    var blockers := BlockersOf(bb);
    SetSquaresOnBoard(bb, 64);
    forall j | 0 <= j < |squares|
      ensures Occupied(bb, squares[j])
    {
      SetSquaresMembers(bb, 64, squares[j]);
    }
    forall p | 0 <= p < |blockers|
      ensures Within(blockers[p], bb)
    {
      PatternWithin(p, bb, squares, 0, 0);
    }
    NoPatternNoBlocker(squares, 0);
    BlockersSelectSquares(bb);
    forall p, q | 0 <= p < q < |blockers|
      ensures blockers[p] != blockers[q]
    {
      var k := PatternsDiffer(p, q, |squares|);
      assert Occupied(blockers[p], squares[k]) != Occupied(blockers[q], squares[k]);
    }
  }

  // ---------------------------------------------------------------
  // The lookup table.
  // ---------------------------------------------------------------

  /** The blockers `create_lookup_table` enumerates for `square`. */
  function SquareBlockers(generate: (bv64, bv64, bv64) -> bv64, relevant: seq<bv64>, square: nat): seq<bv64>
    requires |relevant| == 64 && square < 64
  {
    BlockersOf(generate(0, 0, SquareBitAt(square)) & relevant[square])
  }

  /** Every key of `table` is a blocker subset of a square below `upto`, mapped to its moves. */
  ghost predicate Sound(table: map<(nat, bv64), bv64>, generate: (bv64, bv64, bv64) -> bv64, relevant: seq<bv64>, upto: nat)
    requires |relevant| == 64 && upto <= 64
  {
    forall s: nat, b: bv64 :: (s, b) in table ==>
      s < upto && b in SquareBlockers(generate, relevant, s) && table[(s, b)] == generate(b, 0, SquareBitAt(s))
  }

  /** Every blocker subset of every square below `upto` is a key of `table`. */
  ghost predicate Complete(table: map<(nat, bv64), bv64>, generate: (bv64, bv64, bv64) -> bv64, relevant: seq<bv64>, upto: nat)
    requires |relevant| == 64 && upto <= 64
  {
    forall s: nat, b: bv64 :: s < upto && b in SquareBlockers(generate, relevant, s) ==> (s, b) in table
  }

  /** Inserting the blockers of one more square keeps the table sound and complete. */
  lemma InsertSquare(table: map<(nat, bv64), bv64>, next: map<(nat, bv64), bv64>,
                     generate: (bv64, bv64, bv64) -> bv64, relevant: seq<bv64>, square: nat)
    requires |relevant| == 64 && square < 64
    requires Sound(table, generate, relevant, square) && Complete(table, generate, relevant, square)
    requires forall s: nat, b: bv64 :: (s, b) in next <==>
      (s, b) in table || (s == square && b in SquareBlockers(generate, relevant, square))
    requires forall s: nat, b: bv64 :: (s, b) in next ==>
      next[(s, b)] == if s == square && b in SquareBlockers(generate, relevant, square)
        then generate(b, 0, SquareBitAt(square)) else table[(s, b)]
    ensures Sound(next, generate, relevant, square + 1) && Complete(next, generate, relevant, square + 1)
  {
  }

  /**
   * `create_lookup_table`: the key (square, blockers) is present exactly for
   * the blocker subsets of the square's relevant empty-board moves, and maps
   * to the moves `generate` gives with those blockers as the enemy.
   */
  method CreateLookupTable(generate: (bv64, bv64, bv64) -> bv64, relevant: seq<bv64>)
    returns (lookupTable: map<(nat, bv64), bv64>)
    requires |relevant| == 64
    ensures forall square: nat, blocker: bv64 :: (square, blocker) in lookupTable <==>
      square < 64 && blocker in SquareBlockers(generate, relevant, square)
    ensures forall square: nat, blocker: bv64 :: (square, blocker) in lookupTable ==>
      square < 64 && lookupTable[(square, blocker)] == generate(blocker, 0, SquareBitAt(square))
  {
    lookupTable := map[];
    for square := 0 to 64
      invariant Sound(lookupTable, generate, relevant, square)
      invariant Complete(lookupTable, generate, relevant, square)
    {
      var position := SquareBitAt(square);
      var movesBb := generate(0, 0, position) & relevant[square];
      var blockers := GetBlockersBitboards(movesBb);
      var next := InsertBlockers(lookupTable, generate, square, position, blockers);
      InsertSquare(lookupTable, next, generate, relevant, square);
      lookupTable := next;
    }
  }

  /** The inner loop of `create_lookup_table`: one entry per blocker of `square`. */
  method InsertBlockers(table: map<(nat, bv64), bv64>, generate: (bv64, bv64, bv64) -> bv64,
                        square: nat, position: bv64, blockers: seq<bv64>)
    returns (lookupTable: map<(nat, bv64), bv64>)
    ensures forall s: nat, b: bv64 :: (s, b) in lookupTable <==>
      (s, b) in table || (s == square && b in blockers)
    ensures forall s: nat, b: bv64 :: (s, b) in lookupTable ==>
      lookupTable[(s, b)] == if s == square && b in blockers then generate(b, 0, position) else table[(s, b)]
  {
    lookupTable := table;
    for j := 0 to |blockers|
      invariant forall s: nat, b: bv64 :: (s, b) in lookupTable ==>
        (s, b) in table || (s == square && b in blockers[..j])
      invariant forall s: nat, b: bv64 :: (s, b) in table ==> (s, b) in lookupTable
      invariant forall b :: b in blockers[..j] ==> (square, b) in lookupTable
      invariant forall s: nat, b: bv64 :: (s, b) in lookupTable ==>
        lookupTable[(s, b)] == if s == square && b in blockers[..j] then generate(b, 0, position) else table[(s, b)]
    {
      assert blockers[..j + 1] == blockers[..j] + [blockers[j]];
      lookupTable := lookupTable[(square, blockers[j]) := generate(blockers[j], 0, position)];
    }
    assert blockers[..|blockers|] == blockers;
  }
}
