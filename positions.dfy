// Square names, rank masks and square relations of the bitboard engine
// (square 0 = a1, square 63 = h8).
module Positions {
  import opened BitboardEnums
  import B = Bitwise

  /** The square on `file` (0 = a) and `rank` (0 = rank 1): the `Squares` constants. */
  function SquareAt(file: nat, rank: nat): (s: nat)
    requires file < 8 && rank < 8
    ensures s < 64 && s % 8 == file && s / 8 == rank
  {
    rank * 8 + file
  }

  /** `Squares::to_string`: upper-case file letter and rank digit, "" off the board. */
  function SquareName(square: nat): (r: string)
    ensures square < 64 ==> |r| == 2 && 'A' <= r[0] <= 'H' && '1' <= r[1] <= '8'
    ensures square < 64 ==> (r[0] as int - 'A' as int) == square % 8 && (r[1] as int - '1' as int) == square / 8
    ensures square >= 64 <==> r == ""
  {
    if square < 64 then [('A' as int + square % 8) as char, ('1' as int + square / 8) as char] else ""
  }

  /** Distinct board squares have distinct names. */
  lemma SquareNameInjective(a: nat, b: nat)
    requires a < 64 && b < 64 && SquareName(a) == SquareName(b)
    ensures a == b
  {
    assert a == 8 * (a / 8) + a % 8;
    assert b == 8 * (b / 8) + b % 8;
  }

  lemma SquareNameExamples()
    ensures SquareName(SquareAt(0, 0)) == "A1" && SquareName(SquareAt(4, 3)) == "E4"
    ensures SquareName(SquareAt(7, 7)) == "H8" && SquareName(64) == ""
  {
  }

  /** `Squares::ROW_k` (k = 1 ..= 8): the eight square indexes of rank k, a to h. */
  function RowSquareIndexes(k: nat): (row: seq<nat>)
    requires 1 <= k <= 8
    ensures |row| == 8
    ensures forall i :: 0 <= i < 8 ==> row[i] == SquareAt(i, k - 1)
  {
    seq(8, i requires 0 <= i < 8 => (k - 1) * 8 + i)
  }

  /** `BBPositions::ROW_k`: the eight single-square bitboards of rank k, a to h. */
  function RowSquares(k: nat): (row: seq<bv64>)
    requires 1 <= k <= 8
    ensures |row| == 8
  {
    match k
    case 1 => [0x1, 0x2, 0x4, 0x8, 0x10, 0x20, 0x40, 0x80]
    case 2 => [0x100, 0x200, 0x400, 0x800, 0x1000, 0x2000, 0x4000, 0x8000]
    case 3 => [0x10000, 0x20000, 0x40000, 0x80000, 0x100000, 0x200000, 0x400000, 0x800000]
    case 4 => [0x1000000, 0x2000000, 0x4000000, 0x8000000, 0x10000000, 0x20000000, 0x40000000, 0x80000000]
    case 5 => [0x100000000, 0x200000000, 0x400000000, 0x800000000, 0x1000000000, 0x2000000000, 0x4000000000, 0x8000000000]
    case 6 => [0x10000000000, 0x20000000000, 0x40000000000, 0x80000000000, 0x100000000000, 0x200000000000, 0x400000000000, 0x800000000000]
    case 7 => [0x1000000000000, 0x2000000000000, 0x4000000000000, 0x8000000000000, 0x10000000000000, 0x20000000000000, 0x40000000000000, 0x80000000000000]
    case _ => [0x100000000000000, 0x200000000000000, 0x400000000000000, 0x800000000000000, 0x1000000000000000, 0x2000000000000000, 0x4000000000000000, 0x8000000000000000]
  }

  // `BBPositions::ROW_k_BB`: all eight squares of rank k.
  const ROW_1_BB: bv64 := 0xff
  const ROW_2_BB: bv64 := 0xff00
  const ROW_3_BB: bv64 := 0xff0000
  const ROW_4_BB: bv64 := 0xff000000
  const ROW_5_BB: bv64 := 0xff00000000
  const ROW_6_BB: bv64 := 0xff0000000000
  const ROW_7_BB: bv64 := 0xff000000000000
  const ROW_8_BB: bv64 := 0xff00000000000000

  function RowBb(k: nat): bv64
    requires 1 <= k <= 8
  {
    match k
    case 1 => ROW_1_BB
    case 2 => ROW_2_BB
    case 3 => ROW_3_BB
    case 4 => ROW_4_BB
    case 5 => ROW_5_BB
    case 6 => ROW_6_BB
    case 7 => ROW_7_BB
    case _ => ROW_8_BB
  }

  /** The bitboard holds exactly one square, and that square is on rank k. */
  predicate SingleOnRank(bb: bv64, k: nat)
    requires 1 <= k <= 8
  {
    bb != 0 && bb & (bb - 1) == 0 && bb & RowBb(k) == bb
  }

  /**
   * The entries of `ROW_k` are single squares of rank k, each one file east
   * of the one before, and `ROW_k_BB` is their union.
   */
  predicate RowShape(k: nat)
    requires 1 <= k <= 8
  {
    var row := RowSquares(k);
    (forall i :: 0 <= i < 8 ==> SingleOnRank(row[i], k))
    && (forall i :: 0 <= i < 7 ==> row[i] << 1 == row[i + 1])
    && row[0] | row[1] | row[2] | row[3] | row[4] | row[5] | row[6] | row[7] == RowBb(k)
  }

  /** Being listed in `ROW_k` is being a single square of rank k. */
  predicate RowMembership(bb: bv64, k: nat)
    requires 1 <= k <= 8
  {
    bb in RowSquares(k) <==> SingleOnRank(bb, k)
  }

  lemma RowSquaresShape(k: nat)
    requires 1 <= k <= 8
    ensures RowShape(k)
  {
    match k
    case 1 => RowShapeOf1();
    case 2 => RowShapeOf2();
    case 3 => RowShapeOf3();
    case 4 => RowShapeOf4();
    case 5 => RowShapeOf5();
    case 6 => RowShapeOf6();
    case 7 => RowShapeOf7();
    case 8 => RowShapeOf8();
  }

  lemma InRowSquares(bb: bv64, k: nat)
    requires 1 <= k <= 8
    ensures bb in RowSquares(k) <==> SingleOnRank(bb, k)
  {
    match k
    case 1 => RowMembershipOf1(bb);
    case 2 => RowMembershipOf2(bb);
    case 3 => RowMembershipOf3(bb);
    case 4 => RowMembershipOf4(bb);
    case 5 => RowMembershipOf5(bb);
    case 6 => RowMembershipOf6(bb);
    case 7 => RowMembershipOf7(bb);
    case 8 => RowMembershipOf8(bb);
  }

  // The per-rank cases, each by evaluation.
  lemma RowShapeOf1()
    ensures RowShape(1)
  {
  }

  lemma RowMembershipOf1(bb: bv64)
    ensures RowMembership(bb, 1)
  {
    if SingleOnRank(bb, 1) {
      SingleOnRankListed1(bb);
    }
  }

  lemma SingleOnRankListed1(bb: bv64)
    requires SingleOnRank(bb, 1)
    ensures bb in RowSquares(1)
  {
  }

  lemma RowShapeOf2()
    ensures RowShape(2)
  {
  }

  lemma RowMembershipOf2(bb: bv64)
    ensures RowMembership(bb, 2)
  {
    if SingleOnRank(bb, 2) {
      SingleOnRankListed2(bb);
    }
  }

  lemma SingleOnRankListed2(bb: bv64)
    requires SingleOnRank(bb, 2)
    ensures bb in RowSquares(2)
  {
  }

  lemma RowShapeOf3()
    ensures RowShape(3)
  {
  }

  lemma RowMembershipOf3(bb: bv64)
    ensures RowMembership(bb, 3)
  {
    if SingleOnRank(bb, 3) {
      SingleOnRankListed3(bb);
    }
  }

  lemma SingleOnRankListed3(bb: bv64)
    requires SingleOnRank(bb, 3)
    ensures bb in RowSquares(3)
  {
  }

  lemma RowShapeOf4()
    ensures RowShape(4)
  {
  }

  lemma RowMembershipOf4(bb: bv64)
    ensures RowMembership(bb, 4)
  {
    if SingleOnRank(bb, 4) {
      SingleOnRankListed4(bb);
    }
  }

  lemma SingleOnRankListed4(bb: bv64)
    requires SingleOnRank(bb, 4)
    ensures bb in RowSquares(4)
  {
  }

  lemma RowShapeOf5()
    ensures RowShape(5)
  {
  }

  lemma RowMembershipOf5(bb: bv64)
    ensures RowMembership(bb, 5)
  {
    if SingleOnRank(bb, 5) {
      SingleOnRankListed5(bb);
    }
  }

  lemma SingleOnRankListed5(bb: bv64)
    requires SingleOnRank(bb, 5)
    ensures bb in RowSquares(5)
  {
  }

  lemma RowShapeOf6()
    ensures RowShape(6)
  {
  }

  lemma RowMembershipOf6(bb: bv64)
    ensures RowMembership(bb, 6)
  {
    if SingleOnRank(bb, 6) {
      SingleOnRankListed6(bb);
    }
  }

  lemma SingleOnRankListed6(bb: bv64)
    requires SingleOnRank(bb, 6)
    ensures bb in RowSquares(6)
  {
  }

  lemma RowShapeOf7()
    ensures RowShape(7)
  {
  }

  lemma RowMembershipOf7(bb: bv64)
    ensures RowMembership(bb, 7)
  {
    if SingleOnRank(bb, 7) {
      SingleOnRankListed7(bb);
    }
  }

  lemma SingleOnRankListed7(bb: bv64)
    requires SingleOnRank(bb, 7)
    ensures bb in RowSquares(7)
  {
  }

  lemma RowShapeOf8()
    ensures RowShape(8)
  {
  }

  lemma RowMembershipOf8(bb: bv64)
    ensures RowMembership(bb, 8)
  {
    if SingleOnRank(bb, 8) {
      SingleOnRankListed8(bb);
    }
  }

  lemma SingleOnRankListed8(bb: bv64)
    requires SingleOnRank(bb, 8)
    ensures bb in RowSquares(8)
  {
  }

  /** One of the eight rank masks. */
  predicate IsRowBb(r: bv64)
  {
    r == ROW_1_BB || r == ROW_2_BB || r == ROW_3_BB || r == ROW_4_BB
    || r == ROW_5_BB || r == ROW_6_BB || r == ROW_7_BB || r == ROW_8_BB
  }

  /**
   * `get_row_bb`: the mask of the highest rank that meets `bb`, trying rank
   * 8 down to rank 1; 0 when none does, which is exactly when `bb` is empty.
   */
  function GetRowBb(bb: bv64): (r: bv64)
  {
    if bb & ROW_8_BB != 0 then ROW_8_BB
    else if bb & ROW_7_BB != 0 then ROW_7_BB
    else if bb & ROW_6_BB != 0 then ROW_6_BB
    else if bb & ROW_5_BB != 0 then ROW_5_BB
    else if bb & ROW_4_BB != 0 then ROW_4_BB
    else if bb & ROW_3_BB != 0 then ROW_3_BB
    else if bb & ROW_2_BB != 0 then ROW_2_BB
    else if bb & ROW_1_BB != 0 then ROW_1_BB
    else 0
  }

  /**
   * A non-zero answer is a rank mask that meets `bb`, and no square of `bb`
   * lies above that rank.
   */
  lemma GetRowBbIsHighestRank(bb: bv64)
    ensures var r := GetRowBb(bb); r != 0 ==> IsRowBb(r) && bb & r != 0 && bb <= r | (r - 1)
  {
    GetRowBbIsRank(bb);
    GetRowBbMeets(bb);
    GetRowBbNothingAbove(bb);
  }

  /** `get_row_bb` answers 0 exactly for the empty bitboard. */
  lemma GetRowBbZero(bb: bv64)
    ensures GetRowBb(bb) == 0 <==> bb == 0
  {
  }

  lemma GetRowBbIsRank(bb: bv64)
    ensures GetRowBb(bb) == 0 || IsRowBb(GetRowBb(bb))
  {
  }

  lemma GetRowBbMeets(bb: bv64)
    ensures GetRowBb(bb) != 0 ==> bb & GetRowBb(bb) != 0
  {
  }

  /** Read as a number, `bb` is at most the mask of rank `r` and every rank below it. */
  lemma GetRowBbNothingAbove(bb: bv64)
    ensures var r := GetRowBb(bb); r != 0 ==> bb <= r | (r - 1)
  {
  }

  /**
   * `is_en_passant_position`: for White the square is one of rank 3's, for
   * Black one of rank 6's.
   */
  function IsEnPassantPosition(color: Color, bbPosition: bv64): (r: bool)
    ensures color == White ==> (r <==> SingleOnRank(bbPosition, 3))
    ensures color == Black ==> (r <==> SingleOnRank(bbPosition, 6))
  {
    InRowSquares(bbPosition, 3);
    InRowSquares(bbPosition, 6);
    if color == White then bbPosition in RowSquares(3) else bbPosition in RowSquares(6)
  }

  predicate SameRank(sq1: nat, sq2: nat) { sq1 / 8 == sq2 / 8 }

  predicate SameFile(sq1: nat, sq2: nat) { sq1 % 8 == sq2 % 8 }

  predicate SameDiagonal(sq1: nat, sq2: nat) { sq1 / 8 - sq1 % 8 == sq2 / 8 - sq2 % 8 }

  predicate SameAntiDiagonal(sq1: nat, sq2: nat) { sq1 / 8 + sq1 % 8 == sq2 / 8 + sq2 % 8 }

  /**
   * On the board, two squares on the same diagonal are a whole number of
   * 9-steps apart, on the same anti-diagonal a whole number of 7-steps
   * apart (within the ranks), and on the same rank and file only when equal.
   */
  lemma LineRelations(sq1: nat, sq2: nat)
    requires sq1 < 64 && sq2 < 64
    ensures SameRank(sq1, sq2) && SameFile(sq1, sq2) <==> sq1 == sq2
    ensures SameDiagonal(sq1, sq2) ==> (sq2 - sq1) == 9 * (sq2 / 8 - sq1 / 8)
    ensures SameAntiDiagonal(sq1, sq2) ==> (sq2 - sq1) == 7 * (sq2 / 8 - sq1 / 8)
  {
    assert sq1 == 8 * (sq1 / 8) + sq1 % 8;
    assert sq2 == 8 * (sq2 / 8) + sq2 % 8;
  }

  /** All four relations are equivalences. */
  lemma LineRelationsEquivalences(a: nat, b: nat, c: nat)
    ensures SameRank(a, a) && SameFile(a, a) && SameDiagonal(a, a) && SameAntiDiagonal(a, a)
    ensures SameRank(a, b) == SameRank(b, a) && SameFile(a, b) == SameFile(b, a)
    ensures SameDiagonal(a, b) == SameDiagonal(b, a) && SameAntiDiagonal(a, b) == SameAntiDiagonal(b, a)
    ensures SameRank(a, b) && SameRank(b, c) ==> SameRank(a, c)
    ensures SameDiagonal(a, b) && SameDiagonal(b, c) ==> SameDiagonal(a, c)
  {
  }

  /** The unit-test cases. */
  lemma LineRelationExamples()
    ensures SameRank(0, 7) && !SameRank(0, 8) && SameRank(27, 30)
    ensures SameFile(0, 56) && !SameFile(0, 7) && SameFile(27, 27 + 24)
    ensures SameDiagonal(0, 63) && SameDiagonal(8, 17) && !SameDiagonal(0, 56)
    ensures SameDiagonal(2, 20) && SameDiagonal(16, 52)
    ensures SameAntiDiagonal(7, 56) && SameAntiDiagonal(8, 1) && !SameAntiDiagonal(0, 56)
    ensures SameAntiDiagonal(14, 28)
  {
  }
}
