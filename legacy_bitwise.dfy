// The older free-standing bitboard helpers that precede the `utils`
// module: the same one-step shifts, plus a position decoder and
// two-argument bit masks.
module LegacyBitwise {
  import B = Bitwise

  const NOT_A_FILE: bv64 := 0xfefe_fefe_fefe_fefe
  const NOT_H_FILE: bv64 := 0x7f7f_7f7f_7f7f_7f7f

  /** `to_bitboard_position`: the set holding exactly `position`. */
  function ToBitboardPosition(position: bv64): (b: bv64)
    requires position < 64
    ensures b == B.SquareBit(position)
  {
    1 << position
  }

  /**
   * `to_decimal_position` shifts the constant 1 right, so it is 1 only for
   * position 0 and 0 for every other position: it does not decode a bitboard.
   */
  function ToDecimalPosition(position: bv64): (r: bv64)
    requires position < 64
    ensures position == 0 ==> r == 1
    ensures position >= 1 ==> r == 0
  {
    1 >> position
  }

  function EastOne(b: bv64): bv64 { (b << 1) & NOT_A_FILE }
  function NoEaOne(b: bv64): bv64 { (b << 9) & NOT_A_FILE }
  function SoEaOne(b: bv64): bv64 { (b >> 7) & NOT_A_FILE }
  function WestOne(b: bv64): bv64 { (b >> 1) & NOT_H_FILE }
  function SoWeOne(b: bv64): bv64 { (b >> 9) & NOT_H_FILE }
  function NoWeOne(b: bv64): bv64 { (b << 7) & NOT_H_FILE }
  function SoutOne(b: bv64): bv64 { b >> 8 }
  function NortOne(b: bv64): bv64 { b << 8 }

  /** Each old step clears the file it wraps onto and agrees with the newer step of the same name. */
  lemma StepsAgree(b: bv64)
    ensures EastOne(b) & B.A_FILE == 0 && NoEaOne(b) & B.A_FILE == 0 && SoEaOne(b) & B.A_FILE == 0
    ensures WestOne(b) & B.H_FILE == 0 && SoWeOne(b) & B.H_FILE == 0 && NoWeOne(b) & B.H_FILE == 0
    ensures EastOne(b) == B.EastOne(b) && NoEaOne(b) == B.NoEaOne(b) && SoEaOne(b) == B.SoEaOne(b)
    ensures WestOne(b) == B.WestOne(b) && SoWeOne(b) == B.SoWeOne(b) && NoWeOne(b) == B.NoWeOne(b)
    ensures SoutOne(b) == B.SouthOne(b) && NortOne(b) == B.NorthOne(b)
  {
  }

  /** `upper_bits(b, square)`: the complement of `b`, shifted up by `square`. */
  function UpperBits(b: bv64, square: bv64): (r: bv64)
    requires square < 64
    ensures square == 0 ==> r == !b
  {
    (!b) << square
  }

  /** The shifted complement holds no square below `square`. */
  lemma UpperBitsClearBelow(b: bv64, square: bv64)
    requires square < 64
    ensures forall i: bv64 :: i < square ==> !B.HasBit(UpperBits(b, square), i)
  {
  }

  /** `lower_bits(b, square)` ignores `b`: it is the newer one-argument `lower_bits`. */
  function LowerBits(b: bv64, square: bv64): (r: bv64)
    requires square < 64
    ensures r == B.LowerBits(square)
  {
    (1 << square) - 1
  }

  /** Only with an empty `b` does the old `upper_bits` cover the newer one. */
  lemma UpperBitsOfEmpty(square: bv64)
    requires square < 64
    ensures UpperBits(0, square) == B.UpperBits(square) | B.SquareBit(square)
  {
  }

  /**
   * The unit test: from the starting white pawns (rank 2) with ranks 3..6
   * empty, one push reaches rank 3 and a second push rank 4.
   */
  lemma PawnPushExample()
    ensures NortOne(B.SquareBit(15)) == B.SquareBit(23)
    ensures
      var pawns: bv64 := 0x0000_0000_0000_ff00;
      var empty: bv64 := !0xffff_0000_0000_ffff;
      var single := NortOne(pawns) & empty;
      single == 0x0000_0000_00ff_0000 && NortOne(single) & empty == 0x0000_0000_ff00_0000
  {
  }
}
