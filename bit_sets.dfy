// A u64 word of the bitboard board and of its Zobrist hash, modelled as the
// set of the positions of its one bits: bit i is set exactly when i is in
// the set. `|` is union, `&` is intersection and `^` is symmetric difference.
module BitSets {
  /** A word as the set of its one-bit positions. */
  type Bits = set<nat>

  /** `a ^ b`: the bits set in exactly one of the two words. */
  function Xor(a: Bits, b: Bits): (r: Bits)
    ensures forall i :: i in r <==> (i in a <==> i !in b)
  {
    (a - b) + (b - a)
  }

  /** XORing a word in twice restores the original, and XOR with a non-zero word changes it. */
  lemma XorTwice(x: Bits, k: Bits)
    ensures Xor(Xor(x, k), k) == x
    ensures k != {} ==> Xor(x, k) != x
  {
    if k != {} {
      var i :| i in k;
      assert i in x <==> i !in Xor(x, k);
    }
  }

  /** XORing in bits that were just ORed into a word that lacked them takes them away again. */
  lemma XorUndoesOr(x: Bits, p: Bits)
    requires x * p == {}
    ensures Xor(x + p, p) == x
  {
    forall i | i in x ensures i !in p {
      assert i !in x * p;
    }
  }

  /** ORing back bits that were just XORed off a word that held them restores it. */
  lemma OrUndoesXor(x: Bits, p: Bits)
    requires p <= x
    ensures Xor(x, p) + p == x
  {
  }

  /** XOR with the zero word changes nothing. */
  lemma XorZero(x: Bits)
    ensures Xor(x, {}) == x
  {
  }

  /** Four words XORed into a hash one by one amount to their XOR taken at once. */
  lemma XorRegroup(h: Bits, a: Bits, b: Bits, c: Bits, d: Bits)
    ensures Xor(Xor(Xor(Xor(h, a), b), c), d) == Xor(h, Xor(Xor(Xor(a, b), c), d))
  {
  }

  /** Two words XORed into a hash in either order give the same hash. */
  lemma XorSwap(h: Bits, a: Bits, b: Bits)
    ensures Xor(Xor(h, a), b) == Xor(Xor(h, b), a)
  {
  }

  /** XOR onto the zero word gives the word itself. */
  lemma XorZeroLeft(x: Bits)
    ensures Xor({}, x) == x
  {
  }

  /** XOR is associative. */
  lemma XorAssoc(a: Bits, b: Bits, c: Bits)
    ensures Xor(Xor(a, b), c) == Xor(a, Xor(b, c))
  {
  }
}
