// `move_generator/magics.rs`: the shipped magic numbers and shifts, the
// collision test of the magic search, and the filling of the magic lookup
// tables from the `(square, blockers) -> attacks` hash table.
module Magics {
  import opened Bitwise
  import opened BitboardSquares
  import opened Wrappers
  import MoveTables

  /** `u64::count_ones`. */
  function PopCount(b: bv64): nat
    decreases b
  {
    if b == 0 then 0
    else
      ClearLowestShrinks(b);
      1 + PopCount(b & (b - 1))
  }

  /** The count is the number of squares of the bitboard. */
  lemma {:induction false} PopCountCountsSquares(b: bv64)
    ensures PopCount(b) == |Squares(b)|
    decreases b
  {
    if b != 0 {
      ClearLowestShrinks(b);
      PopCountCountsSquares(b & (b - 1));
      SplitLowest(b);
    }
  }

  /** The slot of a blocker set: `blockers.wrapping_mul(magic) >> shift`, as a `usize`. */
  function MagicIndex(blockers: bv64, magic: bv64, shift: bv64): nat
    requires shift < 64
  {
    ((blockers * magic) >> shift) as nat
  }

  /** `is_collision`: the slot already holds a different, non-zero attack set. */
  predicate IsCollision(actual: seq<bv64>, index: nat, attacks: bv64)
    requires index < |actual|
  {
    actual[index] != 0 && actual[index] != attacks
  }

  /** The generator's hash table: `(square, blockers)` to the attack set. */
  type HashTable = map<(nat, bv64), bv64>

  /** Every listed blocker set of `square` is a key of the table. */
  predicate Listed(table: HashTable, square: nat, keys: seq<bv64>)
  {
    forall i :: 0 <= i < |keys| ==> (square, keys[i]) in table
  }

  /** Of the listed keys of `square`, the ones the source collects: all of that square's blocker sets, sorted. */
  predicate KeysOf(table: HashTable, square: nat, keys: seq<bv64>)
  {
    (forall i, j :: 0 <= i < j < |keys| ==> keys[i] < keys[j]) &&
    (forall key :: key in table && key.0 == square ==> key.1 in keys)
  }

  /** The slot of each key, in the order of the keys. */
  function SlotsOf(keys: seq<bv64>, magic: bv64, shift: bv64): (slots: seq<nat>)
    requires shift < 64
    ensures |slots| == |keys|
  {
    seq(|keys|, i requires 0 <= i < |keys| => MagicIndex(keys[i], magic, shift))
  }

  /** The attack set of each key, in the order of the keys. */
  function AttacksOf(table: HashTable, square: nat, keys: seq<bv64>): (attacks: seq<bv64>)
    requires Listed(table, square, keys)
    ensures |attacks| == |keys|
  {
    seq(|keys|, i requires 0 <= i < |keys| && Listed(table, square, keys) => table[(square, keys[i])])
  }

  /** `vec![0; n]`. */
  function Zeros(n: nat): (z: seq<bv64>)
    ensures |z| == n && forall j :: 0 <= j < n ==> z[j] == 0
  {
    seq(n, _ => 0)
  }

  /** No attack set is empty, as no slider attack set is. */
  predicate NonZero(attacks: seq<bv64>)
  {
    forall i :: 0 <= i < |attacks| ==> attacks[i] != 0
  }

  // ---------------------------------------------------------------
  // fill_magics_lookup_table
  // ---------------------------------------------------------------

  /** What filling one square's slots ends in: the slots, or the panic. */
  datatype Fill = Done(slots: seq<bv64>) | Conflict(index: nat) | OutOfRange(index: nat)

  /**
   * The key loop of `fill_magics_lookup_table` from `slots` on: each attack
   * set goes to its key's slot; a slot that is already non-zero panics, and
   * so does a slot past the end of the vector.
   */
  function Place(indices: seq<nat>, attacks: seq<bv64>, slots: seq<bv64>): Fill
    requires |indices| == |attacks|
  {
    if indices == [] then Done(slots)
    else if indices[0] >= |slots| then OutOfRange(indices[0])
    else if slots[indices[0]] != 0 then Conflict(indices[0])
    else Place(indices[1..], attacks[1..], slots[indices[0] := attacks[0]])
  }

  /** One square of `fill_magics_lookup_table`: its keys placed into a zeroed vector of their number. */
  function FillSquareSpec(table: HashTable, square: nat, keys: seq<bv64>, magic: bv64, shift: bv64): Fill
    requires shift < 64 && Listed(table, square, keys)
  {
    Place(SlotsOf(keys, magic, shift), AttacksOf(table, square, keys), Zeros(|keys|))
  }

  /** Each key has a slot of its own, inside `slots` and still empty. */
  predicate Lands(indices: seq<nat>, slots: seq<bv64>)
  {
    (forall i :: 0 <= i < |indices| ==> indices[i] < |slots| && slots[indices[i]] == 0) &&
    (forall i, j :: 0 <= i < j < |indices| ==> indices[i] != indices[j])
  }

  /** The fill gets through exactly when every key lands in a slot of its own that is still empty. */
  lemma {:induction false} PlaceDoneIff(indices: seq<nat>, attacks: seq<bv64>, slots: seq<bv64>)
    requires |indices| == |attacks| && NonZero(attacks)
    ensures Place(indices, attacks, slots).Done? <==> Lands(indices, slots)
    decreases |indices|
  {
    if indices != [] {
      assert NonZero(attacks[1..]) by {
        assert forall i :: 0 <= i < |attacks| - 1 ==> attacks[1..][i] == attacks[i + 1];
      }
      if indices[0] < |slots| && slots[indices[0]] == 0 {
        PlaceDoneIff(indices[1..], attacks[1..], slots[indices[0] := attacks[0]]);
        LandsStep(indices, attacks[0], slots);
      }
    }
  }

  /** Landing all keys is landing the first, then the rest in what it leaves. */
  lemma LandsStep(indices: seq<nat>, attack: bv64, slots: seq<bv64>)
    requires indices != [] && attack != 0
    requires indices[0] < |slots| && slots[indices[0]] == 0
    ensures Lands(indices, slots) <==> Lands(indices[1..], slots[indices[0] := attack])
  {
    var next := slots[indices[0] := attack];
    var rest := indices[1..];
    assert forall i :: 0 <= i < |rest| ==> rest[i] == indices[i + 1];
    if Lands(indices, slots) {
      forall i | 0 <= i < |rest|
        ensures rest[i] < |next| && next[rest[i]] == 0
      {
        assert indices[0] != indices[i + 1];
      }
      forall i, j | 0 <= i < j < |rest|
        ensures rest[i] != rest[j]
      {
        assert indices[i + 1] != indices[j + 1];
      }
    }
    if Lands(rest, next) {
      forall i | 0 <= i < |indices|
        ensures indices[i] < |slots| && slots[indices[i]] == 0
      {
        if i > 0 {
          assert next[rest[i - 1]] == 0;
        }
      }
      forall i, j | 0 <= i < j < |indices|
        ensures indices[i] != indices[j]
      {
        if i == 0 {
          assert next[rest[j - 1]] == 0;
        } else {
          assert rest[i - 1] != rest[j - 1];
        }
      }
    }
  }

  /** A fill that gets through puts every attack set in its key's slot and leaves every other slot as it was. */
  lemma {:induction false} PlaceStores(indices: seq<nat>, attacks: seq<bv64>, slots: seq<bv64>)
    requires |indices| == |attacks| && NonZero(attacks) && Place(indices, attacks, slots).Done?
    ensures |Place(indices, attacks, slots).slots| == |slots|
    ensures forall i :: 0 <= i < |indices| ==>
      indices[i] < |slots| && Place(indices, attacks, slots).slots[indices[i]] == attacks[i]
    ensures forall j :: 0 <= j < |slots| && j !in indices ==> Place(indices, attacks, slots).slots[j] == slots[j]
    decreases |indices|
  {
    if indices != [] {
      var next := slots[indices[0] := attacks[0]];
      var rest := indices[1..];
      assert NonZero(attacks[1..]) by {
        assert forall i :: 0 <= i < |attacks| - 1 ==> attacks[1..][i] == attacks[i + 1];
      }
      PlaceStores(rest, attacks[1..], next);
      PlaceDoneIff(rest, attacks[1..], next);
      var s := Place(indices, attacks, slots).slots;
      assert indices[0] !in rest by {
        forall i | 0 <= i < |rest|
          ensures rest[i] != indices[0]
        {
          assert next[rest[i]] == 0;
        }
      }
      forall i | 0 <= i < |indices|
        ensures indices[i] < |slots| && s[indices[i]] == attacks[i]
      {
        if i > 0 {
          assert rest[i - 1] == indices[i];
        }
      }
    }
  }

  /** Each slot is inside a vector of `n` slots and no two keys share one. */
  predicate Fits(indices: seq<nat>, n: nat)
  {
    (forall i :: 0 <= i < |indices| ==> indices[i] < n) &&
    (forall i, j :: 0 <= i < j < |indices| ==> indices[i] != indices[j])
  }

  /** The slot of key `i` is the magic slot of its blocker set. */
  lemma SlotOfKey(keys: seq<bv64>, magic: bv64, shift: bv64, i: nat)
    requires shift < 64 && i < |keys|
    ensures SlotsOf(keys, magic, shift)[i] == MagicIndex(keys[i], magic, shift)
  {
  }

  /**
   * The fill of one square gets through exactly when the magic sends its
   * keys to distinct slots inside a vector of their number.
   */
  lemma FillSquareDoneIff(table: HashTable, square: nat, keys: seq<bv64>, magic: bv64, shift: bv64)
    requires shift < 64 && Listed(table, square, keys) && NonZero(AttacksOf(table, square, keys))
    ensures FillSquareSpec(table, square, keys, magic, shift).Done? <==> Fits(SlotsOf(keys, magic, shift), |keys|)
  {
    var indices := SlotsOf(keys, magic, shift);
    PlaceDoneIff(indices, AttacksOf(table, square, keys), Zeros(|keys|));
    assert Lands(indices, Zeros(|keys|)) <==> Fits(indices, |keys|);
  }

  /**
   * After the fill of one square its vector has one slot per key, each
   * key's attack set sits in the key's slot, and the other slots are zero.
   */
  lemma FillSquareStores(table: HashTable, square: nat, keys: seq<bv64>, magic: bv64, shift: bv64)
    requires shift < 64 && Listed(table, square, keys) && NonZero(AttacksOf(table, square, keys))
    requires FillSquareSpec(table, square, keys, magic, shift).Done?
    ensures |FillSquareSpec(table, square, keys, magic, shift).slots| == |keys|
    ensures forall i :: 0 <= i < |keys| ==>
      SlotsOf(keys, magic, shift)[i] < |keys| &&
      FillSquareSpec(table, square, keys, magic, shift).slots[SlotsOf(keys, magic, shift)[i]] == table[(square, keys[i])]
    ensures forall j :: 0 <= j < |keys| && j !in SlotsOf(keys, magic, shift) ==>
      FillSquareSpec(table, square, keys, magic, shift).slots[j] == 0
  {
    PlaceStores(SlotsOf(keys, magic, shift), AttacksOf(table, square, keys), Zeros(|keys|));
  }

  /** The key loop at key i: out of range, a conflict, or key i placed and the loop going on with key i + 1. */
  lemma PlaceStep(indices: seq<nat>, attacks: seq<bv64>, slots: seq<bv64>, i: nat)
    requires |indices| == |attacks| && i < |indices|
    ensures indices[i] >= |slots| ==> Place(indices[i..], attacks[i..], slots) == OutOfRange(indices[i])
    ensures indices[i] < |slots| && slots[indices[i]] != 0 ==> Place(indices[i..], attacks[i..], slots) == Conflict(indices[i])
    ensures indices[i] < |slots| && slots[indices[i]] == 0 ==>
      Place(indices[i..], attacks[i..], slots) == Place(indices[i + 1..], attacks[i + 1..], slots[indices[i] := attacks[i]])
  {
    assert indices[i..][1..] == indices[i + 1..] && attacks[i..][1..] == attacks[i + 1..];
  }

  /** The body of the square loop of `fill_magics_lookup_table`. */
  method FillSquare(table: HashTable, square: nat, keys: seq<bv64>, magic: bv64, shift: bv64) returns (r: Fill)
    requires shift < 64 && Listed(table, square, keys)
    ensures r == FillSquareSpec(table, square, keys, magic, shift)
  {
    ghost var indices := SlotsOf(keys, magic, shift);
    ghost var attacks := AttacksOf(table, square, keys);
    var slots := new bv64[|keys|](_ => 0);
    assert slots[..] == Zeros(|keys|);
    var i := 0;
    while i < |keys|
      invariant 0 <= i <= |keys| && slots.Length == |keys|
      invariant Place(indices[i..], attacks[i..], slots[..]) == Place(indices, attacks, Zeros(|keys|))
    {
      var index := MagicIndex(keys[i], magic, shift);
      ghost var before := slots[..];
      PlaceStep(indices, attacks, before, i);
      if index >= slots.Length {
        return OutOfRange(index);
      }
      if slots[index] != 0 {
        return Conflict(index);
      }
      slots[index] := table[(square, keys[i])];
      assert slots[..] == before[index := attacks[i]];
      i := i + 1;
    }
    r := Done(slots[..]);
  }

  /**
   * `fill_magics_lookup_table`: square by square, the vector of the
   * square's slots; `Some(square)` is the square whose fill panicked.
   */
  method FillMagicsLookupTable(table: HashTable, lookupTable: array<seq<bv64>>, magics: seq<bv64>, shifts: seq<bv64>,
                               keysOf: seq<seq<bv64>>) returns (panicked: Option<nat>)
    requires lookupTable.Length == 64 && |magics| == 64 && |shifts| == 64 && |keysOf| == 64
    requires forall square :: 0 <= square < 64 ==>
      shifts[square] < 64 && Listed(table, square, keysOf[square]) && KeysOf(table, square, keysOf[square])
    modifies lookupTable
    ensures panicked.None? ==> forall square :: 0 <= square < 64 ==>
      FillSquareSpec(table, square, keysOf[square], magics[square], shifts[square]) == Done(lookupTable[square])
    ensures panicked.Some? ==>
      panicked.value < 64 && !FillSquareSpec(table, panicked.value, keysOf[panicked.value], magics[panicked.value], shifts[panicked.value]).Done?
  {
    for square := 0 to 64
      invariant forall sq :: 0 <= sq < square ==>
        FillSquareSpec(table, sq, keysOf[sq], magics[sq], shifts[sq]) == Done(lookupTable[sq])
    {
      var r := FillSquare(table, square, keysOf[square], magics[square], shifts[square]);
      if !r.Done? {
        return Some(square);
      }
      lookupTable[square] := r.slots;
    }
    panicked := None;
  }

  // ---------------------------------------------------------------
  // One candidate of find_magics
  // ---------------------------------------------------------------

  /** What trying one candidate magic ends in. */
  datatype Trial = Accepted(actual: seq<bv64>) | Rejected | TrialOutOfRange(index: nat)

  /**
   * The key loop `find_magics` runs for one candidate: a collision rejects
   * the candidate, while a key whose attack set equals the one already in
   * its slot may share that slot.
   */
  function Try(indices: seq<nat>, attacks: seq<bv64>, actual: seq<bv64>): Trial
    requires |indices| == |attacks|
  {
    if indices == [] then Accepted(actual)
    else if indices[0] >= |actual| then TrialOutOfRange(indices[0])
    else if IsCollision(actual, indices[0], attacks[0]) then Rejected
    else Try(indices[1..], attacks[1..], actual[indices[0] := attacks[0]])
  }

  /** One candidate tried on one square, from a zeroed vector as in `find_magics`. */
  function TrySquareSpec(table: HashTable, square: nat, keys: seq<bv64>, magic: bv64, shift: bv64): Trial
    requires shift < 64 && Listed(table, square, keys)
  {
    Try(SlotsOf(keys, magic, shift), AttacksOf(table, square, keys), Zeros(|keys|))
  }

  /** An accepted candidate never changes a slot that already held an attack set. */
  lemma {:induction false} TryKeeps(indices: seq<nat>, attacks: seq<bv64>, actual: seq<bv64>)
    requires |indices| == |attacks| && Try(indices, attacks, actual).Accepted?
    ensures |Try(indices, attacks, actual).actual| == |actual|
    ensures forall j :: 0 <= j < |actual| && actual[j] != 0 ==> Try(indices, attacks, actual).actual[j] == actual[j]
    decreases |indices|
  {
    if indices != [] {
      TryKeeps(indices[1..], attacks[1..], actual[indices[0] := attacks[0]]);
    }
  }

  /** `is_collision` is what makes the search sound: an accepted candidate finds every key's attack set in its slot. */
  lemma {:induction false} TryStores(indices: seq<nat>, attacks: seq<bv64>, actual: seq<bv64>)
    requires |indices| == |attacks| && NonZero(attacks) && Try(indices, attacks, actual).Accepted?
    ensures |Try(indices, attacks, actual).actual| == |actual|
    ensures forall i :: 0 <= i < |indices| ==>
      indices[i] < |actual| && Try(indices, attacks, actual).actual[indices[i]] == attacks[i]
    decreases |indices|
  {
    if indices != [] {
      var next := actual[indices[0] := attacks[0]];
      assert NonZero(attacks[1..]) by {
        assert forall i :: 0 <= i < |attacks| - 1 ==> attacks[1..][i] == attacks[i + 1];
      }
      TryStores(indices[1..], attacks[1..], next);
      TryKeeps(indices[1..], attacks[1..], next);
      forall i | 0 <= i < |indices|
        ensures indices[i] < |actual| && Try(indices, attacks, actual).actual[indices[i]] == attacks[i]
      {
        if i > 0 {
          assert indices[1..][i - 1] == indices[i];
        }
      }
    }
  }

  /** A magic the fill accepts is one the search accepts too, with the same slots. */
  lemma {:induction false} PlaceThenTry(indices: seq<nat>, attacks: seq<bv64>, slots: seq<bv64>)
    requires |indices| == |attacks| && Place(indices, attacks, slots).Done?
    ensures Try(indices, attacks, slots) == Accepted(Place(indices, attacks, slots).slots)
    decreases |indices|
  {
    if indices != [] {
      PlaceThenTry(indices[1..], attacks[1..], slots[indices[0] := attacks[0]]);
    }
  }

  /** The body of the candidate loop of `find_magics`, for one candidate magic. */
  method TryCandidate(table: HashTable, square: nat, keys: seq<bv64>, magic: bv64, shift: bv64) returns (t: Trial)
    requires shift < 64 && Listed(table, square, keys)
    ensures t == TrySquareSpec(table, square, keys, magic, shift)
  {
    ghost var indices := SlotsOf(keys, magic, shift);
    ghost var attacks := AttacksOf(table, square, keys);
    var actual := new bv64[|keys|](_ => 0);
    assert actual[..] == Zeros(|keys|);
    var i := 0;
    while i < |keys|
      invariant 0 <= i <= |keys| && actual.Length == |keys|
      invariant Try(indices[i..], attacks[i..], actual[..]) == Try(indices, attacks, Zeros(|keys|))
    {
      var index := MagicIndex(keys[i], magic, shift);
      var attack := table[(square, keys[i])];
      assert indices[i..][0] == index && attacks[i..][0] == attack;
      assert indices[i..][1..] == indices[i + 1..] && attacks[i..][1..] == attacks[i + 1..];
      if index >= actual.Length {
        return TrialOutOfRange(index);
      }
      if IsCollision(actual[..], index, attack) {
        return Rejected;
      }
      actual[index] := attack;
      i := i + 1;
    }
    t := Accepted(actual[..]);
  }

  /**
   * The converse fails: two blocker sets with the same attack set may share
   * a slot in the search, and then the fill panics on the second of them.
   */
  lemma SharedSlotExample()
    ensures TrySquareSpec(map[(0, 1) := 5, (0, 2) := 5], 0, [1, 2], 0x0100_0000_0000_0001, 63) == Accepted([5, 0])
    ensures FillSquareSpec(map[(0, 1) := 5, (0, 2) := 5], 0, [1, 2], 0x0100_0000_0000_0001, 63) == Conflict(0)
  {
    assert SlotsOf([1, 2], 0x0100_0000_0000_0001, 63) == [0, 0];
    assert AttacksOf(map[(0, 1) := 5, (0, 2) := 5], 0, [1, 2]) == [5, 5];
    assert Zeros(2) == [0, 0];
    assert Try([0, 0], [5, 5], [0, 0]) == Try([0], [5], [5, 0]);
    assert Try([0], [5], [5, 0]) == Try([], [], [5, 0]);
    assert Place([0, 0], [5, 5], [0, 0]) == Place([0], [5], [5, 0]);
  }

  // ---------------------------------------------------------------
  // The shipped tables
  // ---------------------------------------------------------------

  /** `generate_candidate_magic` keeps a magic with a bit in its top byte and one in its bottom byte. */
  predicate IsCandidate(magic: bv64)
  {
    magic & 0xFF00_0000_0000_0000 != 0 && magic & 0xFF != 0
  }

  /** Entry `square` of `ROOK_SHIFTS`. */
  function RookShiftAt(square: nat): nat
    requires square < 64
  {
    match square
    case 0 => 52
    case 1 => 53
    case 2 => 53
    case 3 => 53
    case 4 => 53
    case 5 => 53
    case 6 => 53
    case 7 => 52
    case 8 => 53
    case 9 => 54
    case 10 => 54
    case 11 => 54
    case 12 => 54
    case 13 => 54
    case 14 => 54
    case 15 => 53
    case 16 => 53
    case 17 => 54
    case 18 => 54
    case 19 => 54
    case 20 => 54
    case 21 => 54
    case 22 => 54
    case 23 => 53
    case 24 => 53
    case 25 => 54
    case 26 => 54
    case 27 => 54
    case 28 => 54
    case 29 => 54
    case 30 => 54
    case 31 => 53
    case 32 => 53
    case 33 => 54
    case 34 => 54
    case 35 => 54
    case 36 => 54
    case 37 => 54
    case 38 => 54
    case 39 => 53
    case 40 => 53
    case 41 => 54
    case 42 => 54
    case 43 => 54
    case 44 => 54
    case 45 => 54
    case 46 => 54
    case 47 => 53
    case 48 => 53
    case 49 => 54
    case 50 => 54
    case 51 => 54
    case 52 => 54
    case 53 => 54
    case 54 => 54
    case 55 => 53
    case 56 => 52
    case 57 => 53
    case 58 => 53
    case 59 => 53
    case 60 => 53
    case 61 => 53
    case 62 => 53
    case _ => 52
  }

  /** Entry `square` of `BISHOP_SHIFTS`. */
  function BishopShiftAt(square: nat): nat
    requires square < 64
  {
    match square
    case 0 => 58
    case 1 => 59
    case 2 => 59
    case 3 => 59
    case 4 => 59
    case 5 => 59
    case 6 => 59
    case 7 => 58
    case 8 => 59
    case 9 => 59
    case 10 => 59
    case 11 => 59
    case 12 => 59
    case 13 => 59
    case 14 => 59
    case 15 => 59
    case 16 => 59
    case 17 => 59
    case 18 => 57
    case 19 => 57
    case 20 => 57
    case 21 => 57
    case 22 => 59
    case 23 => 59
    case 24 => 59
    case 25 => 59
    case 26 => 57
    case 27 => 55
    case 28 => 55
    case 29 => 57
    case 30 => 59
    case 31 => 59
    case 32 => 59
    case 33 => 59
    case 34 => 57
    case 35 => 55
    case 36 => 55
    case 37 => 57
    case 38 => 59
    case 39 => 59
    case 40 => 59
    case 41 => 59
    case 42 => 57
    case 43 => 57
    case 44 => 57
    case 45 => 57
    case 46 => 59
    case 47 => 59
    case 48 => 59
    case 49 => 59
    case 50 => 59
    case 51 => 59
    case 52 => 59
    case 53 => 59
    case 54 => 59
    case 55 => 59
    case 56 => 58
    case 57 => 59
    case 58 => 59
    case 59 => 59
    case 60 => 59
    case 61 => 59
    case 62 => 59
    case _ => 58
  }
}
