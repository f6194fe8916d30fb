// One-step shifts, masks and lowest-bit extraction on 64-bit bitboards.
// Square 0 is a1, square 7 is h1, square 63 is h8: bit `s` of a bitboard
// stands for square `s`.
module Bitwise {
  const NOT_A_FILE: bv64 := 0xfefe_fefe_fefe_fefe
  const NOT_H_FILE: bv64 := 0x7f7f_7f7f_7f7f_7f7f
  const A_FILE: bv64 := 0x0101_0101_0101_0101
  const H_FILE: bv64 := 0x8080_8080_8080_8080
  const FIRST_RANK: bv64 := 0x0000_0000_0000_00ff
  const EIGHTH_RANK: bv64 := 0xff00_0000_0000_0000

  /** Bit `s` of `b` is set: square `s` belongs to the set `b`. */
  predicate HasBit(b: bv64, s: bv64)
    requires s < 64
  {
    b & (1 << s) != 0
  }

  lemma HasBitOr(a: bv64, b: bv64, s: bv64)
    requires s < 64
    ensures HasBit(a | b, s) <==> HasBit(a, s) || HasBit(b, s)
  {
    OrMask(a, b, 1 << s);
  }

  lemma OrMask(a: bv64, b: bv64, m: bv64)
    ensures (a | b) & m != 0 <==> a & m != 0 || b & m != 0
  {
    AndOr(a, b, m);
    OrNonZero(a & m, b & m);
  }

  lemma AndOr(a: bv64, b: bv64, m: bv64)
    ensures (a | b) & m == (a & m) | (b & m)
  {
  }

  lemma OrNonZero(x: bv64, y: bv64)
    ensures x | y != 0 <==> x != 0 || y != 0
  {
  }

  lemma HasBitXor(a: bv64, b: bv64, s: bv64)
    requires s < 64
    ensures HasBit(a ^ b, s) <==> HasBit(a, s) != HasBit(b, s)
  {
    XorMask(a, b, SquareBit(s));
  }

  /** Against a one-square mask, `^` toggles membership. */
  lemma XorMask(a: bv64, b: bv64, m: bv64)
    requires m != 0 && m & (m - 1) == 0
    ensures (a ^ b) & m != 0 <==> (a & m != 0) != (b & m != 0)
  {
  }

  /** `a` holds no square outside `b`. */
  predicate Within(a: bv64, b: bv64)
  {
    a & !b == 0
  }

  /** `a` and `b` share no square. */
  predicate Disjoint(a: bv64, b: bv64)
  {
    a & b == 0
  }

  /** `to_bitboard_position`: the set holding exactly square `s`. */
  function SquareBit(s: bv64): (b: bv64)
    requires s < 64
    ensures b != 0 && b & (b - 1) == 0
  {
    1 << s
  }

  /** The set of `SquareBit(s)` holds square `s` and no other square. */
  lemma SquareBitMembers(s: bv64)
    requires s < 64
    ensures forall i: bv64 :: i < 64 ==> (HasBit(SquareBit(s), i) <==> i == s)
  {
  }

  /**
   * `SquareBit` by the index of the square: the set of square 0 doubled
   * `sq` times. Array entries are indexed by this number.
   */
  function SquareBitAt(sq: nat): (b: bv64)
    requires sq < 64
  {
    if sq == 0 then 1 else SquareBitAt(sq - 1) << 1
  }

  lemma SquareBitDoubles(p: bv64)
    requires 0 < p < 64
    ensures SquareBit(p - 1) << 1 == SquareBit(p)
  {
  }

  lemma PredAsInt(p: bv64)
    requires 0 < p < 64
    ensures (p - 1) as int == p as int - 1
  {
  }

  /** Both ways of naming the set of one square agree. */
  lemma {:induction false} SquareBitAtAgrees(p: bv64)
    requires p < 64
    ensures SquareBitAt(p as int) == SquareBit(p)
    decreases p as int
  {
    if p > 0 {
      PredAsInt(p);
      SquareBitAtAgrees(p - 1);
      SquareBitDoubles(p);
    }
  }

  // The eight one-step shifts. East-type steps drop whatever lands on
  // file a (it wrapped round from file h), west-type steps whatever lands
  // on file h; north and south simply fall off the board.
  function EastOne(b: bv64): bv64 { (b << 1) & NOT_A_FILE }
  function NoEaOne(b: bv64): bv64 { (b << 9) & NOT_A_FILE }
  function SoEaOne(b: bv64): bv64 { (b >> 7) & NOT_A_FILE }
  function WestOne(b: bv64): bv64 { (b >> 1) & NOT_H_FILE }
  function SoWeOne(b: bv64): bv64 { (b >> 9) & NOT_H_FILE }
  function NoWeOne(b: bv64): bv64 { (b << 7) & NOT_H_FILE }
  function SouthOne(b: bv64): bv64 { b >> 8 }
  function NorthOne(b: bv64): bv64 { b << 8 }

  /**
   * A step function, named. `Stay` is the identity closure that
   * `get_direction_fn_to_square` returns when no direction applies.
   */
  datatype Direction = East | NoEa | SoEa | West | SoWe | NoWe | South | North | Stay

  function Step(d: Direction, b: bv64): bv64
  {
    match d
    case East => EastOne(b)
    case NoEa => NoEaOne(b)
    case SoEa => SoEaOne(b)
    case West => WestOne(b)
    case SoWe => SoWeOne(b)
    case NoWe => NoWeOne(b)
    case South => SouthOne(b)
    case North => NorthOne(b)
    case Stay => b
  }

  function RankDelta(d: Direction): int
  {
    match d
    case NoEa | NoWe | North => 1
    case SoEa | SoWe | South => -1
    case _ => 0
  }

  function FileDelta(d: Direction): int
  {
    match d
    case East | NoEa | SoEa => 1
    case West | SoWe | NoWe => -1
    case _ => 0
  }

  /** Steps that move east never leave anything on file a, west steps nothing on file h. */
  lemma StepFileMasks(b: bv64)
    ensures EastOne(b) & A_FILE == 0 && NoEaOne(b) & A_FILE == 0 && SoEaOne(b) & A_FILE == 0
    ensures WestOne(b) & H_FILE == 0 && SoWeOne(b) & H_FILE == 0 && NoWeOne(b) & H_FILE == 0
  {
  }

  lemma EastStep(s: bv64)
    requires s < 64
    ensures EastOne(SquareBit(s)) == if s % 8 < 7 then SquareBit(s + 1) else 0
  {
  }

  lemma WestStep(s: bv64)
    requires s < 64
    ensures WestOne(SquareBit(s)) == if s % 8 > 0 then SquareBit(s - 1) else 0
  {
  }

  lemma NorthStep(s: bv64)
    requires s < 64
    ensures NorthOne(SquareBit(s)) == if s < 56 then SquareBit(s + 8) else 0
  {
  }

  lemma SouthStep(s: bv64)
    requires s < 64
    ensures SouthOne(SquareBit(s)) == if s >= 8 then SquareBit(s - 8) else 0
  {
  }

  lemma NoEaStep(s: bv64)
    requires s < 64
    ensures NoEaOne(SquareBit(s)) == if s < 56 && s % 8 < 7 then SquareBit(s + 9) else 0
  {
  }

  lemma NoWeStep(s: bv64)
    requires s < 64
    ensures NoWeOne(SquareBit(s)) == if s < 56 && s % 8 > 0 then SquareBit(s + 7) else 0
  {
  }

  lemma SoEaStep(s: bv64)
    requires s < 64
    ensures SoEaOne(SquareBit(s)) == if s >= 8 && s % 8 < 7 then SquareBit(s - 7) else 0
  {
  }

  lemma SoWeStep(s: bv64)
    requires s < 64
    ensures SoWeOne(SquareBit(s)) == if s >= 8 && s % 8 > 0 then SquareBit(s - 9) else 0
  {
  }

  /** The step assertions of the unit tests, as concrete values (e2 = 12). */
  lemma StepExamples()
    ensures NorthOne(SquareBit(12)) == SquareBit(20) && NorthOne(SquareBit(63)) == 0
    ensures SouthOne(SquareBit(12)) == SquareBit(4) && SouthOne(SquareBit(4)) == 0
    ensures EastOne(SquareBit(12)) == SquareBit(13) && EastOne(SquareBit(63)) == 0
    ensures WestOne(SquareBit(12)) == SquareBit(11) && WestOne(SquareBit(56)) == 0
    ensures NoWeOne(SquareBit(12)) == SquareBit(19) && NoWeOne(SquareBit(56)) == 0
    ensures SoWeOne(SquareBit(12)) == SquareBit(3) && SoWeOne(SquareBit(0)) == 0
    ensures NoEaOne(SquareBit(12)) == SquareBit(21) && NoEaOne(SquareBit(63)) == 0
    ensures SoEaOne(SquareBit(12)) == SquareBit(5) && SoEaOne(SquareBit(7)) == 0
  {
  }

  /**
   * `get_direction_fn_to_square`: the step is chosen from the signs of the
   * rank and file differences alone; equal squares give the identity.
   */
  function DirectionToSquare(from: nat, to: nat): (d: Direction)
    ensures d == Stay <==> (from / 8 == to / 8 && from % 8 == to % 8)
    ensures RankDelta(d) == Sign(to / 8 - from / 8) && FileDelta(d) == Sign(to % 8 - from % 8)
  {
    var rankDiff := to / 8 - from / 8;
    var fileDiff := to % 8 - from % 8;
    if rankDiff == 0 && fileDiff > 0 then East
    else if rankDiff == 0 && fileDiff < 0 then West
    else if rankDiff > 0 && fileDiff == 0 then North
    else if rankDiff < 0 && fileDiff == 0 then South
    else if rankDiff > 0 && fileDiff > 0 then NoEa
    else if rankDiff > 0 && fileDiff < 0 then NoWe
    else if rankDiff < 0 && fileDiff > 0 then SoEa
    else if rankDiff < 0 && fileDiff < 0 then SoWe
    else Stay
  }

  function Sign(x: int): int
  {
    if x > 0 then 1 else if x < 0 then -1 else 0
  }

  /** On a board square the identity is returned exactly for `from == to`. */
  lemma DirectionStayIffSame(from: nat, to: nat)
    requires from < 64 && to < 64
    ensures DirectionToSquare(from, to) == Stay <==> from == to
  {
    assert from == 8 * (from / 8) + from % 8;
    assert to == 8 * (to / 8) + to % 8;
  }

  /** `upper_bits`: every square strictly above `square`. */
  function UpperBits(square: bv64): bv64
    requires square < 64
  {
    !1 << square
  }

  /** The upper bits hold exactly the squares above `square`. */
  lemma UpperBitsMembers(square: bv64)
    requires square < 64
    ensures forall i: bv64 :: i < 64 ==> (HasBit(UpperBits(square), i) <==> i > square)
  {
  }

  /** `lower_bits`: every square strictly below `square`, that is 2^square - 1. */
  function LowerBits(square: bv64): bv64
    requires square < 64
  {
    (1 << square) - 1
  }

  /** The lower bits hold exactly the squares below `square`, and are one less than its bit. */
  lemma LowerBitsMembers(square: bv64)
    requires square < 64
    ensures forall i: bv64 :: i < 64 ==> (HasBit(LowerBits(square), i) <==> i < square)
    ensures LowerBits(square) + 1 == SquareBit(square)
  {
  }

  /** The two unit-test values for square 15. */
  lemma UpperLowerExamples()
    ensures UpperBits(15) == 0xffff_ffff_ffff_0000
    ensures LowerBits(15) == 0x0000_0000_0000_7fff
  {
  }

  /** The upper and lower bits of a square split the rest of the board. */
  lemma UpperLowerPartition(square: bv64)
    requires square < 64
    ensures UpperBits(square) & LowerBits(square) == 0
    ensures UpperBits(square) | LowerBits(square) | SquareBit(square) == 0xffff_ffff_ffff_ffff
  {
  }

  // ------------------------------------------------------------------
  // Lowest set bit and the De Bruijn lookup of `pop_lsb`.

  /** `s` is the lowest square of the non-empty set `b`. */
  predicate IsLowest(b: bv64, s: bv64)
  {
    s < 64 && HasBit(b, s) && b & LowerBits(s) == 0
  }

  /** The lowest square of a non-empty set: the first set bit, tried square by square. */
  ghost function Lowest(b: bv64): bv64
    requires b != 0
  {
    if b & 0xffff_ffff != 0 then LowestBelow32(b) else LowestAbove32(b)
  }

  ghost function LowestBelow32(b: bv64): (s: bv64)
    requires b & 0xffff_ffff != 0
    ensures IsLowest(b, s)
  {
    if b & 0x1 != 0 then 0
    else if b & 0x2 != 0 then 1
    else if b & 0x4 != 0 then 2
    else if b & 0x8 != 0 then 3
    else if b & 0x10 != 0 then 4
    else if b & 0x20 != 0 then 5
    else if b & 0x40 != 0 then 6
    else if b & 0x80 != 0 then 7
    else if b & 0x100 != 0 then 8
    else if b & 0x200 != 0 then 9
    else if b & 0x400 != 0 then 10
    else if b & 0x800 != 0 then 11
    else if b & 0x1000 != 0 then 12
    else if b & 0x2000 != 0 then 13
    else if b & 0x4000 != 0 then 14
    else if b & 0x8000 != 0 then 15
    else if b & 0x10000 != 0 then 16
    else if b & 0x20000 != 0 then 17
    else if b & 0x40000 != 0 then 18
    else if b & 0x80000 != 0 then 19
    else if b & 0x100000 != 0 then 20
    else if b & 0x200000 != 0 then 21
    else if b & 0x400000 != 0 then 22
    else if b & 0x800000 != 0 then 23
    else if b & 0x1000000 != 0 then 24
    else if b & 0x2000000 != 0 then 25
    else if b & 0x4000000 != 0 then 26
    else if b & 0x8000000 != 0 then 27
    else if b & 0x10000000 != 0 then 28
    else if b & 0x20000000 != 0 then 29
    else if b & 0x40000000 != 0 then 30
    else 31
  }

  ghost function LowestAbove32(b: bv64): (s: bv64)
    requires b != 0 && b & 0xffff_ffff == 0
    ensures IsLowest(b, s)
  {
    if b & 0x100000000 != 0 then 32
    else if b & 0x200000000 != 0 then 33
    else if b & 0x400000000 != 0 then 34
    else if b & 0x800000000 != 0 then 35
    else if b & 0x1000000000 != 0 then 36
    else if b & 0x2000000000 != 0 then 37
    else if b & 0x4000000000 != 0 then 38
    else if b & 0x8000000000 != 0 then 39
    else if b & 0x10000000000 != 0 then 40
    else if b & 0x20000000000 != 0 then 41
    else if b & 0x40000000000 != 0 then 42
    else if b & 0x80000000000 != 0 then 43
    else if b & 0x100000000000 != 0 then 44
    else if b & 0x200000000000 != 0 then 45
    else if b & 0x400000000000 != 0 then 46
    else if b & 0x800000000000 != 0 then 47
    else if b & 0x1000000000000 != 0 then 48
    else if b & 0x2000000000000 != 0 then 49
    else if b & 0x4000000000000 != 0 then 50
    else if b & 0x8000000000000 != 0 then 51
    else if b & 0x10000000000000 != 0 then 52
    else if b & 0x20000000000000 != 0 then 53
    else if b & 0x40000000000000 != 0 then 54
    else if b & 0x80000000000000 != 0 then 55
    else if b & 0x100000000000000 != 0 then 56
    else if b & 0x200000000000000 != 0 then 57
    else if b & 0x400000000000000 != 0 then 58
    else if b & 0x800000000000000 != 0 then 59
    else if b & 0x1000000000000000 != 0 then 60
    else if b & 0x2000000000000000 != 0 then 61
    else if b & 0x4000000000000000 != 0 then 62
    else 63
  }

  /** `Lowest` finds the lowest square. */
  lemma LowestIsLowest(b: bv64)
    requires b != 0
    ensures IsLowest(b, Lowest(b))
  {
  }

  /** The lowest square is unique. */
  lemma LowestUnique(b: bv64, s: bv64, t: bv64)
    requires IsLowest(b, s) && IsLowest(b, t)
    ensures s == t
  {
    LowerBitsMembers(s);
    LowerBitsMembers(t);
  }

  /** No square below the lowest is set. */
  lemma BelowLowest(b: bv64, s: bv64, i: bv64)
    requires IsLowest(b, s) && i < s
    ensures !HasBit(b, i)
  {
    LowerBitsMembers(s);
  }

  /** The De Bruijn multiplier of `pop_lsb`. */
  const DEBRUIJN_M: bv64 := 0x03f7_9d71_b4cb_0a89

  /** The 64-entry De Bruijn table of `pop_lsb`. */
  function DeBruijnTable(i: bv64): bv64
    requires i < 64
  {
    match i
    case 0 => 0   case 1 => 47  case 2 => 1   case 3 => 56
    case 4 => 48  case 5 => 27  case 6 => 2   case 7 => 60
    case 8 => 57  case 9 => 49  case 10 => 41 case 11 => 37
    case 12 => 28 case 13 => 16 case 14 => 3  case 15 => 61
    case 16 => 54 case 17 => 58 case 18 => 35 case 19 => 52
    case 20 => 50 case 21 => 42 case 22 => 21 case 23 => 44
    case 24 => 38 case 25 => 32 case 26 => 29 case 27 => 23
    case 28 => 17 case 29 => 11 case 30 => 4  case 31 => 62
    case 32 => 46 case 33 => 55 case 34 => 26 case 35 => 59
    case 36 => 40 case 37 => 36 case 38 => 15 case 39 => 53
    case 40 => 34 case 41 => 51 case 42 => 20 case 43 => 43
    case 44 => 31 case 45 => 22 case 46 => 10 case 47 => 45
    case 48 => 25 case 49 => 39 case 50 => 14 case 51 => 33
    case 52 => 19 case 53 => 30 case 54 => 9  case 55 => 24
    case 56 => 13 case 57 => 18 case 58 => 8  case 59 => 12
    case 60 => 7  case 61 => 6  case 62 => 5  case _ => 63
  }

  /** The table slot for a mask `x`: wrapping multiply, top six bits. */
  function DeBruijnSlot(x: bv64): (i: bv64)
    ensures i < 64
  {
    (x * DEBRUIJN_M) >> 58
  }

  /** Bits 0 ..= s set: what `b ^ (b - 1)` is when s is b's lowest square. */
  function LowMask(s: bv64): bv64
    requires s < 64
  {
    LowerBits(s) | SquareBit(s)
  }

  /** The table maps the slot of every low mask back to its square. */
  predicate TableInverts(s: bv64)
    requires s < 64
  {
    DeBruijnTable(DeBruijnSlot(LowMask(s))) == s
  }

  /** The De Bruijn table is correct for every square. */
  lemma TableInvertsAll(s: bv64)
    requires s < 64
    ensures TableInverts(s)
  {
    if s < 2 { TableInvertsFrom0(s); }
    else if s < 4 { TableInvertsFrom2(s); }
    else if s < 6 { TableInvertsFrom4(s); }
    else if s < 8 { TableInvertsFrom6(s); }
    else if s < 10 { TableInvertsFrom8(s); }
    else if s < 12 { TableInvertsFrom10(s); }
    else if s < 14 { TableInvertsFrom12(s); }
    else if s < 16 { TableInvertsFrom14(s); }
    else if s < 18 { TableInvertsFrom16(s); }
    else if s < 20 { TableInvertsFrom18(s); }
    else if s < 22 { TableInvertsFrom20(s); }
    else if s < 24 { TableInvertsFrom22(s); }
    else if s < 26 { TableInvertsFrom24(s); }
    else if s < 28 { TableInvertsFrom26(s); }
    else if s < 30 { TableInvertsFrom28(s); }
    else if s < 32 { TableInvertsFrom30(s); }
    else if s < 34 { TableInvertsFrom32(s); }
    else if s < 36 { TableInvertsFrom34(s); }
    else if s < 38 { TableInvertsFrom36(s); }
    else if s < 40 { TableInvertsFrom38(s); }
    else if s < 42 { TableInvertsFrom40(s); }
    else if s < 44 { TableInvertsFrom42(s); }
    else if s < 46 { TableInvertsFrom44(s); }
    else if s < 48 { TableInvertsFrom46(s); }
    else if s < 50 { TableInvertsFrom48(s); }
    else if s < 52 { TableInvertsFrom50(s); }
    else if s < 54 { TableInvertsFrom52(s); }
    else if s < 56 { TableInvertsFrom54(s); }
    else if s < 58 { TableInvertsFrom56(s); }
    else if s < 60 { TableInvertsFrom58(s); }
    else if s < 62 { TableInvertsFrom60(s); }
    else if s < 64 { TableInvertsFrom62(s); }
  }

  // The sixty-four cases, two at a time, each by evaluation.
  lemma TableInvertsFrom0(s: bv64)
    requires 0 <= s < 2
    ensures TableInverts(s)
  {
    if s == 0 { assert LowMask(s) == 0x1; assert DeBruijnSlot(0x1) == 0; }
    else { assert LowMask(s) == 0x3; assert DeBruijnSlot(0x3) == 2; }
  }

  lemma TableInvertsFrom2(s: bv64)
    requires 2 <= s < 4
    ensures TableInverts(s)
  {
    if s == 2 { assert LowMask(s) == 0x7; assert DeBruijnSlot(0x7) == 6; }
    else { assert LowMask(s) == 0xf; assert DeBruijnSlot(0xf) == 14; }
  }

  lemma TableInvertsFrom4(s: bv64)
    requires 4 <= s < 6
    ensures TableInverts(s)
  {
    if s == 4 { assert LowMask(s) == 0x1f; assert DeBruijnSlot(0x1f) == 30; }
    else { assert LowMask(s) == 0x3f; assert DeBruijnSlot(0x3f) == 62; }
  }

  lemma TableInvertsFrom6(s: bv64)
    requires 6 <= s < 8
    ensures TableInverts(s)
  {
    if s == 6 { assert LowMask(s) == 0x7f; assert DeBruijnSlot(0x7f) == 61; }
    else { assert LowMask(s) == 0xff; assert DeBruijnSlot(0xff) == 60; }
  }

  lemma TableInvertsFrom8(s: bv64)
    requires 8 <= s < 10
    ensures TableInverts(s)
  {
    if s == 8 { assert LowMask(s) == 0x1ff; assert DeBruijnSlot(0x1ff) == 58; }
    else { assert LowMask(s) == 0x3ff; assert DeBruijnSlot(0x3ff) == 54; }
  }

  lemma TableInvertsFrom10(s: bv64)
    requires 10 <= s < 12
    ensures TableInverts(s)
  {
    if s == 10 { assert LowMask(s) == 0x7ff; assert DeBruijnSlot(0x7ff) == 46; }
    else { assert LowMask(s) == 0xfff; assert DeBruijnSlot(0xfff) == 29; }
  }

  lemma TableInvertsFrom12(s: bv64)
    requires 12 <= s < 14
    ensures TableInverts(s)
  {
    if s == 12 { assert LowMask(s) == 0x1fff; assert DeBruijnSlot(0x1fff) == 59; }
    else { assert LowMask(s) == 0x3fff; assert DeBruijnSlot(0x3fff) == 56; }
  }

  lemma TableInvertsFrom14(s: bv64)
    requires 14 <= s < 16
    ensures TableInverts(s)
  {
    if s == 14 { assert LowMask(s) == 0x7fff; assert DeBruijnSlot(0x7fff) == 50; }
    else { assert LowMask(s) == 0xffff; assert DeBruijnSlot(0xffff) == 38; }
  }

  lemma TableInvertsFrom16(s: bv64)
    requires 16 <= s < 18
    ensures TableInverts(s)
  {
    if s == 16 { assert LowMask(s) == 0x1ffff; assert DeBruijnSlot(0x1ffff) == 13; }
    else { assert LowMask(s) == 0x3ffff; assert DeBruijnSlot(0x3ffff) == 28; }
  }

  lemma TableInvertsFrom18(s: bv64)
    requires 18 <= s < 20
    ensures TableInverts(s)
  {
    if s == 18 { assert LowMask(s) == 0x7ffff; assert DeBruijnSlot(0x7ffff) == 57; }
    else { assert LowMask(s) == 0xfffff; assert DeBruijnSlot(0xfffff) == 52; }
  }

  lemma TableInvertsFrom20(s: bv64)
    requires 20 <= s < 22
    ensures TableInverts(s)
  {
    if s == 20 { assert LowMask(s) == 0x1fffff; assert DeBruijnSlot(0x1fffff) == 42; }
    else { assert LowMask(s) == 0x3fffff; assert DeBruijnSlot(0x3fffff) == 22; }
  }

  lemma TableInvertsFrom22(s: bv64)
    requires 22 <= s < 24
    ensures TableInverts(s)
  {
    if s == 22 { assert LowMask(s) == 0x7fffff; assert DeBruijnSlot(0x7fffff) == 45; }
    else { assert LowMask(s) == 0xffffff; assert DeBruijnSlot(0xffffff) == 27; }
  }

  lemma TableInvertsFrom24(s: bv64)
    requires 24 <= s < 26
    ensures TableInverts(s)
  {
    if s == 24 { assert LowMask(s) == 0x1ffffff; assert DeBruijnSlot(0x1ffffff) == 55; }
    else { assert LowMask(s) == 0x3ffffff; assert DeBruijnSlot(0x3ffffff) == 48; }
  }

  lemma TableInvertsFrom26(s: bv64)
    requires 26 <= s < 28
    ensures TableInverts(s)
  {
    if s == 26 { assert LowMask(s) == 0x7ffffff; assert DeBruijnSlot(0x7ffffff) == 34; }
    else { assert LowMask(s) == 0xfffffff; assert DeBruijnSlot(0xfffffff) == 5; }
  }

  lemma TableInvertsFrom28(s: bv64)
    requires 28 <= s < 30
    ensures TableInverts(s)
  {
    if s == 28 { assert LowMask(s) == 0x1fffffff; assert DeBruijnSlot(0x1fffffff) == 12; }
    else { assert LowMask(s) == 0x3fffffff; assert DeBruijnSlot(0x3fffffff) == 26; }
  }

  lemma TableInvertsFrom30(s: bv64)
    requires 30 <= s < 32
    ensures TableInverts(s)
  {
    if s == 30 { assert LowMask(s) == 0x7fffffff; assert DeBruijnSlot(0x7fffffff) == 53; }
    else { assert LowMask(s) == 0xffffffff; assert DeBruijnSlot(0xffffffff) == 44; }
  }

  lemma TableInvertsFrom32(s: bv64)
    requires 32 <= s < 34
    ensures TableInverts(s)
  {
    if s == 32 { assert LowMask(s) == 0x1ffffffff; assert DeBruijnSlot(0x1ffffffff) == 25; }
    else { assert LowMask(s) == 0x3ffffffff; assert DeBruijnSlot(0x3ffffffff) == 51; }
  }

  lemma TableInvertsFrom34(s: bv64)
    requires 34 <= s < 36
    ensures TableInverts(s)
  {
    if s == 34 { assert LowMask(s) == 0x7ffffffff; assert DeBruijnSlot(0x7ffffffff) == 40; }
    else { assert LowMask(s) == 0xfffffffff; assert DeBruijnSlot(0xfffffffff) == 18; }
  }

  lemma TableInvertsFrom36(s: bv64)
    requires 36 <= s < 38
    ensures TableInverts(s)
  {
    if s == 36 { assert LowMask(s) == 0x1fffffffff; assert DeBruijnSlot(0x1fffffffff) == 37; }
    else { assert LowMask(s) == 0x3fffffffff; assert DeBruijnSlot(0x3fffffffff) == 11; }
  }

  lemma TableInvertsFrom38(s: bv64)
    requires 38 <= s < 40
    ensures TableInverts(s)
  {
    if s == 38 { assert LowMask(s) == 0x7fffffffff; assert DeBruijnSlot(0x7fffffffff) == 24; }
    else { assert LowMask(s) == 0xffffffffff; assert DeBruijnSlot(0xffffffffff) == 49; }
  }

  lemma TableInvertsFrom40(s: bv64)
    requires 40 <= s < 42
    ensures TableInverts(s)
  {
    if s == 40 { assert LowMask(s) == 0x1ffffffffff; assert DeBruijnSlot(0x1ffffffffff) == 36; }
    else { assert LowMask(s) == 0x3ffffffffff; assert DeBruijnSlot(0x3ffffffffff) == 10; }
  }

  lemma TableInvertsFrom42(s: bv64)
    requires 42 <= s < 44
    ensures TableInverts(s)
  {
    if s == 42 { assert LowMask(s) == 0x7ffffffffff; assert DeBruijnSlot(0x7ffffffffff) == 21; }
    else { assert LowMask(s) == 0xfffffffffff; assert DeBruijnSlot(0xfffffffffff) == 43; }
  }

  lemma TableInvertsFrom44(s: bv64)
    requires 44 <= s < 46
    ensures TableInverts(s)
  {
    if s == 44 { assert LowMask(s) == 0x1fffffffffff; assert DeBruijnSlot(0x1fffffffffff) == 23; }
    else { assert LowMask(s) == 0x3fffffffffff; assert DeBruijnSlot(0x3fffffffffff) == 47; }
  }

  lemma TableInvertsFrom46(s: bv64)
    requires 46 <= s < 48
    ensures TableInverts(s)
  {
    if s == 46 { assert LowMask(s) == 0x7fffffffffff; assert DeBruijnSlot(0x7fffffffffff) == 32; }
    else { assert LowMask(s) == 0xffffffffffff; assert DeBruijnSlot(0xffffffffffff) == 1; }
  }

  lemma TableInvertsFrom48(s: bv64)
    requires 48 <= s < 50
    ensures TableInverts(s)
  {
    if s == 48 { assert LowMask(s) == 0x1ffffffffffff; assert DeBruijnSlot(0x1ffffffffffff) == 4; }
    else { assert LowMask(s) == 0x3ffffffffffff; assert DeBruijnSlot(0x3ffffffffffff) == 9; }
  }

  lemma TableInvertsFrom50(s: bv64)
    requires 50 <= s < 52
    ensures TableInverts(s)
  {
    if s == 50 { assert LowMask(s) == 0x7ffffffffffff; assert DeBruijnSlot(0x7ffffffffffff) == 20; }
    else { assert LowMask(s) == 0xfffffffffffff; assert DeBruijnSlot(0xfffffffffffff) == 41; }
  }

  lemma TableInvertsFrom52(s: bv64)
    requires 52 <= s < 54
    ensures TableInverts(s)
  {
    if s == 52 { assert LowMask(s) == 0x1fffffffffffff; assert DeBruijnSlot(0x1fffffffffffff) == 19; }
    else { assert LowMask(s) == 0x3fffffffffffff; assert DeBruijnSlot(0x3fffffffffffff) == 39; }
  }

  lemma TableInvertsFrom54(s: bv64)
    requires 54 <= s < 56
    ensures TableInverts(s)
  {
    if s == 54 { assert LowMask(s) == 0x7fffffffffffff; assert DeBruijnSlot(0x7fffffffffffff) == 16; }
    else { assert LowMask(s) == 0xffffffffffffff; assert DeBruijnSlot(0xffffffffffffff) == 33; }
  }

  lemma TableInvertsFrom56(s: bv64)
    requires 56 <= s < 58
    ensures TableInverts(s)
  {
    if s == 56 { assert LowMask(s) == 0x1ffffffffffffff; assert DeBruijnSlot(0x1ffffffffffffff) == 3; }
    else { assert LowMask(s) == 0x3ffffffffffffff; assert DeBruijnSlot(0x3ffffffffffffff) == 8; }
  }

  lemma TableInvertsFrom58(s: bv64)
    requires 58 <= s < 60
    ensures TableInverts(s)
  {
    if s == 58 { assert LowMask(s) == 0x7ffffffffffffff; assert DeBruijnSlot(0x7ffffffffffffff) == 17; }
    else { assert LowMask(s) == 0xfffffffffffffff; assert DeBruijnSlot(0xfffffffffffffff) == 35; }
  }

  lemma TableInvertsFrom60(s: bv64)
    requires 60 <= s < 62
    ensures TableInverts(s)
  {
    if s == 60 { assert LowMask(s) == 0x1fffffffffffffff; assert DeBruijnSlot(0x1fffffffffffffff) == 7; }
    else { assert LowMask(s) == 0x3fffffffffffffff; assert DeBruijnSlot(0x3fffffffffffffff) == 15; }
  }

  lemma TableInvertsFrom62(s: bv64)
    requires 62 <= s < 64
    ensures TableInverts(s)
  {
    if s == 62 { assert LowMask(s) == 0x7fffffffffffffff; assert DeBruijnSlot(0x7fffffffffffffff) == 31; }
    else { assert LowMask(s) == 0xffffffffffffffff; assert DeBruijnSlot(0xffffffffffffffff) == 63; }
  }

  /** The mask `b ^ (b - 1)` of a non-empty set is the low mask of its lowest square. */
  lemma LowestMask(b: bv64, s: bv64)
    requires IsLowest(b, s)
    ensures b ^ (b - 1) == LowMask(s)
    ensures b & (b - 1) == b ^ SquareBit(s)
  {
  }

  /** Clearing the lowest square of a non-empty set makes it smaller. */
  lemma ClearLowestShrinks(b: bv64)
    requires b != 0
    ensures b & (b - 1) < b
  {
  }

  /**
   * `pop_lsb`: for a non-empty set, returns its lowest square and the set
   * with exactly that square removed (the in-place update of `*bits`).
   */
  method PopLsb(bits: bv64) returns (rest: bv64, square: bv64)
    requires bits != 0
    ensures IsLowest(bits, square)
    ensures rest == bits ^ SquareBit(square)
    ensures !HasBit(rest, square)
  {
    ghost var s := Lowest(bits);
    LowestIsLowest(bits);
    LowestMask(bits, s);
    TableInvertsAll(s);
    rest := bits & (bits - 1);
    square := DeBruijnTable(DeBruijnSlot(bits ^ (bits - 1)));
  }
}
