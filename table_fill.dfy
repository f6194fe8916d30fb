// Facts about filling a 64-entry table one square at a time, stated on
// sequences so that the loops that fill the move tables can use them
// without reasoning about bit patterns.
module TableFill {
  /**
   * Writing entry `n` of `a` (and nothing else) with the value `t` has
   * there extends a common prefix of `a` and `t` by one entry.
   */
  lemma PrefixExtends(a: seq<bv64>, b: seq<bv64>, t: seq<bv64>, n: nat)
    requires n < |a| == |b| <= |t|
    requires a[..n] == t[..n]
    requires forall i :: 0 <= i < |a| && i != n ==> b[i] == a[i]
    requires b[n] == t[n]
    ensures b[..n + 1] == t[..n + 1]
  {
    assert forall i :: 0 <= i < n ==> b[i] == a[..n][i];
  }

  /** A table that agrees with `t` on a prefix as long as itself agrees everywhere. */
  lemma PrefixWhole(a: seq<bv64>, t: seq<bv64>)
    requires |a| == |t|
    requires a[..|a|] == t[..|t|]
    ensures forall i :: 0 <= i < |a| ==> a[i] == t[i]
  {
    assert a == a[..|a|];
    assert t == t[..|t|];
  }
}
