// `move_generator/attack_data.rs`: what the opponent's pieces do to the
// side to move's king. One pass over the opponent's sliders, knights and
// pawns records the checking pieces, the squares a check can be blocked on,
// the squares the king may not step to, the pinned friendly pieces with the
// line each may still move along, and whether the king is in check or in
// double check.
//
// Every u64 word is a set of squares (`BitSets.Bits`); u64::MAX is the set
// of all 64 squares. A direction closure applied to a one-square word is a
// step along a ray, modelled by rank and file arithmetic.
module AttackData {
  import opened BitSets
  import opened BitboardEnums
  import opened BoardIndexes
  import B = Bitwise
  import P = Positions
  import BitBoard
  import opened Wrappers

  /** `u64::MAX`: every square. */
  const ALL: Bits := set s: nat | s < 64

  /** `[u64::MAX; 64]`: no piece pinned. */
  function NoPins(): (r: seq<Bits>)
    ensures |r| == 64 && forall p :: 0 <= p < 64 ==> r[p] == ALL
  {
    seq(64, _ => ALL)
  }

  // ---------------------------------------------------------------
  // Rays
  // ---------------------------------------------------------------

  /** A rank or file coordinate moved k steps by `delta`. */
  function Move(c: nat, delta: int, k: nat): int
  {
    if delta > 0 then c + k else if delta < 0 then c - k else c
  }

  /** How many steps a coordinate can take by `delta` and stay on the board (7 when it does not move). */
  function Room(c: nat, delta: int): nat
    requires c < 8
  {
    if delta > 0 then 7 - c else if delta < 0 then c else 7
  }

  /** The number of squares on the ray from `sq` in direction d before it leaves the board. */
  function RayLength(sq: nat, d: B.Direction): (n: nat)
    requires sq < 64
    ensures n <= 7
  {
    var rank, file := Room(sq / 8, B.RankDelta(d)), Room(sq % 8, B.FileDelta(d));
    if rank < file then rank else file
  }

  lemma SquareParts(rank: int, file: int)
    requires 0 <= rank < 8 && 0 <= file < 8
    ensures 0 <= 8 * rank + file < 64 && (8 * rank + file) / 8 == rank && (8 * rank + file) % 8 == file
  {
  }

  /** The square k steps from `sq` in direction d. */
  function At(sq: nat, d: B.Direction, k: nat): (t: nat)
    requires sq < 64 && k <= RayLength(sq, d)
    ensures t < 64
  {
    var rank, file := Move(sq / 8, B.RankDelta(d), k), Move(sq % 8, B.FileDelta(d), k);
    SquareParts(rank, file);
    8 * rank + file
  }

  /** The rank and file of the square k steps out. */
  lemma AtParts(sq: nat, d: B.Direction, k: nat)
    requires sq < 64 && k <= RayLength(sq, d)
    ensures At(sq, d, k) / 8 == Move(sq / 8, B.RankDelta(d), k) && At(sq, d, k) % 8 == Move(sq % 8, B.FileDelta(d), k)
  {
    SquareParts(Move(sq / 8, B.RankDelta(d), k), Move(sq % 8, B.FileDelta(d), k));
  }

  /** Zero steps stay on the starting square. */
  lemma AtStart(sq: nat, d: B.Direction)
    requires sq < 64
    ensures At(sq, d, 0) == sq
  {
    AtParts(sq, d, 0);
    assert sq == 8 * (sq / 8) + sq % 8;
  }

  /** Along a real direction the ray never revisits a square. */
  lemma AtInjective(sq: nat, d: B.Direction, i: nat, j: nat)
    requires sq < 64 && d != B.Stay && i <= RayLength(sq, d) && j <= RayLength(sq, d)
    requires At(sq, d, i) == At(sq, d, j)
    ensures i == j
  {
    AtParts(sq, d, i);
    AtParts(sq, d, j);
  }

  /** The ray from the square k steps out is the rest of the same ray. */
  lemma RayAhead(sq: nat, d: B.Direction, k: nat, j: nat)
    requires sq < 64 && d != B.Stay && k + j <= RayLength(sq, d)
    ensures RayLength(At(sq, d, k), d) == RayLength(sq, d) - k
    ensures At(At(sq, d, k), d, j) == At(sq, d, k + j)
  {
    RayLengthAhead(sq, d, k);
    AtAhead(sq, d, k, j);
  }

  /** The ray from the square k steps out is k steps shorter. */
  lemma RayLengthAhead(sq: nat, d: B.Direction, k: nat)
    requires sq < 64 && d != B.Stay && k <= RayLength(sq, d)
    ensures RayLength(At(sq, d, k), d) == RayLength(sq, d) - k
  {
    AtParts(sq, d, k);
  }

  /** j steps from the square k steps out land k + j steps out. */
  lemma AtAhead(sq: nat, d: B.Direction, k: nat, j: nat)
    requires sq < 64 && d != B.Stay && k + j <= RayLength(sq, d)
    requires RayLength(At(sq, d, k), d) == RayLength(sq, d) - k
    ensures At(At(sq, d, k), d, j) == At(sq, d, k + j)
  {
    var t := At(sq, d, k);
    AtParts(sq, d, k);
    var u := At(t, d, j);
    AtParts(t, d, j);
    AtParts(sq, d, k + j);
    assert u / 8 == At(sq, d, k + j) / 8 && u % 8 == At(sq, d, k + j) % 8;
    assert u == 8 * (u / 8) + u % 8;
    assert At(sq, d, k + j) == 8 * (At(sq, d, k + j) / 8) + At(sq, d, k + j) % 8;
  }

  /** Squares on one rank, file, diagonal or anti-diagonal: the lines a slider attacks along. */
  predicate Aligned(sq: nat, target: nat)
  {
    P.SameRank(sq, target) || P.SameFile(sq, target) || P.SameDiagonal(sq, target) || P.SameAntiDiagonal(sq, target)
  }

  /** The number of steps between two aligned squares: the larger of the rank and file distances. */
  function Distance(sq: nat, target: nat): nat
  {
    var dr, df := target / 8 - sq / 8, target % 8 - sq % 8;
    var r, f := if dr < 0 then -dr else dr, if df < 0 then -df else df;
    if r < f then f else r
  }

  /**
   * From a square aligned with another, the direction `get_direction_to_square`
   * picks reaches the other after `Distance` steps, without leaving the board.
   */
  lemma TargetOnRay(sq: nat, target: nat)
    requires sq < 64 && target < 64 && sq != target && Aligned(sq, target)
    ensures B.DirectionToSquare(sq, target) != B.Stay
    ensures 1 <= Distance(sq, target) <= RayLength(sq, B.DirectionToSquare(sq, target))
    ensures At(sq, B.DirectionToSquare(sq, target), Distance(sq, target)) == target
  {
    B.DirectionStayIffSame(sq, target);
    var d := B.DirectionToSquare(sq, target);
    var t := At(sq, d, Distance(sq, target));
    AtParts(sq, d, Distance(sq, target));
    assert t == 8 * (t / 8) + t % 8;
    assert target == 8 * (target / 8) + target % 8;
  }

  // ---------------------------------------------------------------
  // Direction closures on words
  // ---------------------------------------------------------------

  /**
   * A direction closure applied to a word: every square moved one step,
   * those stepping off the board dropped (`Bitwise` proves the same of the
   * shift-and-mask step functions on single squares).
   */
  function Stepped(b: Bits, d: B.Direction): Bits
  {
    set s | s in b && s < 64 && 1 <= RayLength(s, d) :: At(s, d, 1)
  }

  /** The one-square word k steps along the ray, or the empty word past the edge. */
  function Cell(sq: nat, d: B.Direction, k: nat): (r: Bits)
    requires sq < 64
    ensures r == {} <==> k > RayLength(sq, d)
  {
    if k <= RayLength(sq, d) then {At(sq, d, k)} else {}
  }

  /** A one-square word steps to its neighbour, or to the empty word at the edge. */
  lemma SteppedSingle(t: nat, d: B.Direction)
    requires t < 64
    ensures Stepped({t}, d) == if 1 <= RayLength(t, d) then {At(t, d, 1)} else {}
  {
    if 1 <= RayLength(t, d) {
      assert At(t, d, 1) in Stepped({t}, d);
    }
  }

  /** Stepping the word of the k-th ray square gives the word of the next one. */
  lemma SteppedCell(sq: nat, d: B.Direction, k: nat)
    requires sq < 64 && d != B.Stay
    ensures Stepped(Cell(sq, d, k), d) == Cell(sq, d, k + 1)
  {
    if k < RayLength(sq, d) {
      RayAhead(sq, d, k, 1);
      SteppedSingle(At(sq, d, k), d);
    } else if k == RayLength(sq, d) {
      RayAhead(sq, d, k, 0);
      SteppedSingle(At(sq, d, k), d);
    }
  }

  /** The start square's own word steps to the first ray square. */
  lemma SteppedStart(sq: nat, d: B.Direction)
    requires sq < 64 && d != B.Stay
    ensures Stepped({sq}, d) == Cell(sq, d, 1)
  {
    AtStart(sq, d);
    SteppedCell(sq, d, 0);
  }

  /** The squares at steps lo up to (not including) hi along the ray. */
  function RaySet(sq: nat, d: B.Direction, lo: nat, hi: nat): Bits
    requires sq < 64
  {
    set k: nat | lo <= k < hi && k <= RayLength(sq, d) :: At(sq, d, k)
  }

  /** A square of the range extended by one step is in the range or is that step's square. */
  lemma RaySetGrowInto(sq: nat, d: B.Direction, lo: nat, hi: nat)
    requires sq < 64 && lo <= hi <= RayLength(sq, d)
    ensures forall t :: t in RaySet(sq, d, lo, hi + 1) ==> t in RaySet(sq, d, lo, hi) || t == At(sq, d, hi)
  {
    forall t | t in RaySet(sq, d, lo, hi + 1)
      ensures t in RaySet(sq, d, lo, hi) || t == At(sq, d, hi)
    {
      var j: nat :| lo <= j < hi + 1 && j <= RayLength(sq, d) && t == At(sq, d, j);
      if j < hi {
        assert t in RaySet(sq, d, lo, hi);
      }
    }
  }

  /** Extending the range by one step adds that step's square. */
  lemma RaySetGrow(sq: nat, d: B.Direction, lo: nat, hi: nat)
    requires sq < 64 && lo <= hi <= RayLength(sq, d)
    ensures RaySet(sq, d, lo, hi + 1) == RaySet(sq, d, lo, hi) + {At(sq, d, hi)}
  {
    RaySetGrowInto(sq, d, lo, hi);
    assert At(sq, d, hi) in RaySet(sq, d, lo, hi + 1);
  }

  /** Any range ending past the edge holds the same squares. */
  lemma RaySetPastEdge(sq: nat, d: B.Direction, lo: nat, hi: nat)
    requires sq < 64 && RayLength(sq, d) < hi
    ensures RaySet(sq, d, lo, hi) == RaySet(sq, d, lo, 8)
  {
  }

  /** Taking away two words one after the other takes away their union. */
  lemma MinusBoth(a: Bits, b: Bits, c: Bits)
    ensures a - b - c == a - (b + c)
  {
  }

  // ---------------------------------------------------------------
  // The position as the attack data reads it
  // ---------------------------------------------------------------

  /** The eight bitboards of a position (slots as in `BoardIndexes`): squares on the board, colours apart. */
  predicate WellFormed(boards: seq<Bits>)
  {
    |boards| == 8 && (forall i :: 0 <= i < 8 ==> boards[i] <= ALL)
    && boards[WHITE_IDX] * boards[BLACK_IDX] == {}
  }

  /** `get_piece_positions`: the pieces of one kind (a slot index) and one colour. */
  function Pieces(boards: seq<Bits>, color: Color, kind: nat): (r: Bits)
    requires |boards| == 8 && kind < 8
    ensures r <= boards[kind] && r <= boards[ColorIndex(color)]
  {
    boards[kind] * boards[ColorIndex(color)]
  }

  /** `get_piece_type_by_bb_pos(..) != Empty`: some kind slot holds the square. */
  predicate Occupied(boards: seq<Bits>, s: nat)
    requires |boards| == 8
  {
    BitBoard.KindAt(boards, {s}, 0).Some?
  }

  /** `get_piece_color_by_bb_pos`: White when the white board holds the square, else Black. */
  function ColorAt(boards: seq<Bits>, s: nat): (c: Color)
    requires |boards| == 8
    ensures c == White <==> s in boards[WHITE_IDX]
  {
    assert s in boards[WHITE_IDX] ==> s in boards[WHITE_IDX] * {s};
    if boards[WHITE_IDX] * {s} != {} then White else Black
  }

  /**
   * What the move generator and the attack tables answer for the position:
   * `KNIGHT_MOVES`, `WHITE_PAWN_ATTACKS` and `BLACK_PAWN_ATTACKS` by square,
   * `get_orthogonal_attacks` and `get_diagonal_attacks` of an opponent piece
   * by its square, and the king's pawn zone
   * (`get_king_relevant_squares_related_to_enemy_pawns` of the king's word).
   */
  datatype Lookups = Lookups(
    knightMoves: seq<Bits>,
    whitePawnAttacks: seq<Bits>,
    blackPawnAttacks: seq<Bits>,
    orthogonal: seq<Bits>,
    diagonal: seq<Bits>,
    pawnZone: Bits)

  predicate LookupsFit(l: Lookups)
  {
    |l.knightMoves| == 64 && |l.whitePawnAttacks| == 64 && |l.blackPawnAttacks| == 64
    && |l.orthogonal| == 64 && |l.diagonal| == 64
    && l.pawnZone <= ALL
  }

  // ---------------------------------------------------------------
  // Lowest square first
  // ---------------------------------------------------------------

  lemma {:induction false} MinimumOf(b: Bits) returns (m: nat)
    requires b != {}
    ensures m in b && forall t :: t in b ==> m <= t
    decreases |b|
  {
    var x :| x in b;
    if b == {x} {
      m := x;
    } else {
      var rest := MinimumOf(b - {x});
      m := if x < rest then x else rest;
      forall t | t in b
        ensures m <= t
      {
        if t != x {
          assert t in b - {x};
        }
      }
    }
  }

  lemma MinimumExists(b: Bits)
    requires b != {}
    ensures exists s :: s in b && forall t :: t in b ==> s <= t
  {
    var m := MinimumOf(b);
  }

  /** A one-element word is the word of any of its squares. */
  lemma Single(b: Bits, x: nat)
    requires |b| == 1 && x in b
    ensures b == {x}
  {
    var rest := b - {x};
    assert b == rest + {x};
    assert |rest| == 0;
  }

  /** `pop_lsb`: the lowest square of a non-empty word. */
  function Lowest(b: Bits): (s: nat)
    requires b != {}
    ensures s in b && forall t :: t in b ==> s <= t
  {
    MinimumExists(b);
    var s :| s in b && forall t :: t in b ==> s <= t;
    s
  }

  // ---------------------------------------------------------------
  // The record and its passes, as values
  // ---------------------------------------------------------------

  /** The fields of `AttackData`, `friendly_pins_moves_bbs` as a sequence of 64 words. */
  datatype Data = Data(
    attack: Bits,
    defenders: Bits,
    pins: seq<Bits>,
    inCheck: bool,
    inDoubleCheck: bool,
    kingAllowed: Bits,
    kingBb: Bits,
    kingSquare: nat,
    side: Color)

  /** The king word is the one square `king_square`, and there are 64 pin entries. */
  predicate Located(a: Data)
  {
    a.kingSquare < 64 && a.kingBb == {a.kingSquare} && |a.pins| == 64
  }

  /** The record belongs to the position: its king is the side to move's only king. */
  predicate Fits(a: Data, boards: seq<Bits>)
  {
    Located(a) && WellFormed(boards) && a.kingBb == Pieces(boards, a.side, KINGS_IDX)
  }

  /** What no pass changes: the king, the side and the number of pin entries. */
  predicate Keeps(a: Data, r: Data)
  {
    r.kingBb == a.kingBb && r.kingSquare == a.kingSquare && r.side == a.side && |r.pins| == |a.pins|
  }

  /** `init`: nothing recorded, nothing pinned, every square allowed, the king located. */
  function Initial(boards: seq<Bits>, side: Color): (a: Data)
    requires WellFormed(boards) && |Pieces(boards, side, KINGS_IDX)| == 1
    ensures Fits(a, boards) && a.side == side
    ensures a.attack == {} && a.defenders == {} && !a.inCheck && !a.inDoubleCheck && a.kingAllowed == ALL
    ensures forall p :: 0 <= p < 64 ==> a.pins[p] == ALL
  {
    var kings := Pieces(boards, side, KINGS_IDX);
    var king := Lowest(kings);
    Single(kings, king);
    Data({}, {}, NoPins(), false, false, ALL, kings, king, side)
  }

  /** One more checking piece: double check exactly when there already was a check. */
  function Checked(a: Data): (r: Data)
    ensures r.inCheck && (r.inDoubleCheck <==> a.inCheck)
  {
    a.(inDoubleCheck := a.inCheck, inCheck := true)
  }

  /** `handle_knight_checks`: the opponent knights a knight's move from the king. */
  function KnightPass(a: Data, boards: seq<Bits>, l: Lookups): (r: Data)
    requires Fits(a, boards) && LookupsFit(l)
    ensures Keeps(a, r)
  {
    var attackers := Pieces(boards, Opponent(a.side), KNIGHTS_IDX) * l.knightMoves[a.kingSquare];
    if attackers == {} then a else Checked(a).(attack := a.attack + attackers)
  }

  /** The pawn attack table `handle_pawn_attacks` reads: the opponent's. */
  function OpponentPawnAttacks(side: Color, l: Lookups): (r: seq<Bits>)
    requires LookupsFit(l)
    ensures |r| == 64
  {
    if side == White then l.blackPawnAttacks else l.whitePawnAttacks
  }

  /** One opponent pawn: a check when it attacks the king, and its attacked squares are barred to the king. */
  function PawnStep(a: Data, table: seq<Bits>, sq: nat): (r: Data)
    requires sq < |table|
    ensures Keeps(a, r)
  {
    var a1 := if table[sq] * a.kingBb != {} then Checked(a).(attack := a.attack + {sq}) else a;
    a1.(kingAllowed := a1.kingAllowed - table[sq])
  }

  /** The pawns of `squares`, lowest square first. */
  function PawnFold(a: Data, table: seq<Bits>, squares: Bits): (r: Data)
    requires |table| == 64 && squares <= ALL
    ensures Keeps(a, r)
    decreases |squares|
  {
    if squares == {} then a
    else
      var sq := Lowest(squares);
      PawnFold(PawnStep(a, table, sq), table, squares - {sq})
  }

  /** The opponent pawns inside the king's pawn zone. */
  function ZonePawns(a: Data, boards: seq<Bits>, l: Lookups): (r: Bits)
    requires Fits(a, boards) && LookupsFit(l)
    ensures r <= ALL
  {
    l.pawnZone * Pieces(boards, Opponent(a.side), PAWNS_IDX)
  }

  /** `handle_pawn_attacks`: the zone's opponent pawns, lowest square first. */
  function PawnPass(a: Data, boards: seq<Bits>, l: Lookups): (r: Data)
    requires Fits(a, boards) && LookupsFit(l)
    ensures Keeps(a, r)
  {
    PawnFold(a, OpponentPawnAttacks(a.side, l), ZonePawns(a, boards, l))
  }

  /** The sliders `check_sliding_attacks` is called for. */
  predicate IsSlider(t: PieceType)
  {
    t == Rook || t == Bishop || t == Queen
  }

  /** The squares an opponent slider of kind t on `sq` attacks, as the move generator gives them. */
  function SliderAttacks(l: Lookups, t: PieceType, sq: nat): Bits
    requires LookupsFit(l) && sq < 64 && IsSlider(t)
  {
    if t == Queen then l.orthogonal[sq] + l.diagonal[sq]
    else if t == Rook then l.orthogonal[sq]
    else l.diagonal[sq]
  }

  /** The slider stands on a line it moves along through the king's square. */
  predicate OnLine(t: PieceType, sq: nat, king: nat)
  {
    var orthogonal := P.SameRank(sq, king) || P.SameFile(sq, king);
    var diagonal := P.SameDiagonal(sq, king) || P.SameAntiDiagonal(sq, king);
    if t == Queen then orthogonal || diagonal
    else if t == Rook then orthogonal
    else diagonal
  }

  /**
   * `handle_sliding_check`: the checker is recorded; the squares from it up
   * to the king (the king's own square when they are adjacent) are where the
   * check can be met; the squares behind the king on the same line are barred.
   */
  function SlidingCheck(a: Data, sq: nat): (r: Data)
    requires Located(a) && sq < 64 && sq != a.kingSquare && Aligned(sq, a.kingSquare)
    ensures Keeps(a, r)
  {
    var d, k := B.DirectionToSquare(sq, a.kingSquare), Distance(sq, a.kingSquare);
    Checked(a).(
      attack := a.attack + {sq},
      kingAllowed := a.kingAllowed - RaySet(sq, d, k + 1, 8),
      defenders := a.defenders + Cell(sq, d, 1) + RaySet(sq, d, 1, k))
  }

  /** `SlidingCheck` from its direction, distance, blocking squares and barred squares. */
  lemma SlidingCheckParts(a: Data, sq: nat, d: B.Direction, k: nat, path: Bits, allowed: Bits)
    requires Located(a) && sq < 64 && sq != a.kingSquare && Aligned(sq, a.kingSquare)
    requires d == B.DirectionToSquare(sq, a.kingSquare) && k == Distance(sq, a.kingSquare)
    requires path == Cell(sq, d, 1) + RaySet(sq, d, 1, k) && allowed == a.kingAllowed - RaySet(sq, d, k + 1, 8)
    ensures SlidingCheck(a, sq) == Checked(a).(attack := a.attack + {sq}, kingAllowed := allowed, defenders := a.defenders + path)
  {
  }

  /** The squares of the ray from `sq` in direction d, the starting square first. */
  function Ray(sq: nat, d: B.Direction): (r: seq<nat>)
    requires sq < 64
    ensures |r| == RayLength(sq, d) + 1 && forall k :: 0 <= k < |r| ==> r[k] == At(sq, d, k)
  {
    seq(RayLength(sq, d) + 1, k requires 0 <= k <= RayLength(sq, d) => At(sq, d, k))
  }

  /** The occupied squares among steps i up to (not including) k of a ray, as step numbers. */
  function Occupants(boards: seq<Bits>, ray: seq<nat>, i: nat, k: nat): (r: seq<nat>)
    requires |boards| == 8 && i <= k < |ray|
    ensures forall j :: 0 <= j < |r| ==> i <= r[j] < k
    decreases k - i
  {
    if i == k then []
    else (if Occupied(boards, ray[i]) then [i] else []) + Occupants(boards, ray, i + 1, k)
  }

  /** The step, from the slider towards the king, of the friendly piece it pins, if any. */
  function Pinned(boards: seq<Bits>, side: Color, sq: nat, king: nat): Option<nat>
    requires |boards| == 8 && sq < 64 && king < 64 && sq != king && Aligned(sq, king)
  {
    TargetOnRay(sq, king);
    var ray := Ray(sq, B.DirectionToSquare(sq, king));
    var occupants := Occupants(boards, ray, 1, Distance(sq, king));
    if |occupants| == 1 && ColorAt(boards, ray[occupants[0]]) == side then Some(occupants[0]) else None
  }

  /** `handle_pins`: a pinned friendly piece may only move along the line from the slider up to the king. */
  function PinWalk(a: Data, boards: seq<Bits>, sq: nat): (r: Data)
    requires Located(a) && |boards| == 8 && sq < 64 && sq != a.kingSquare && Aligned(sq, a.kingSquare)
    ensures Keeps(a, r)
  {
    TargetOnRay(sq, a.kingSquare);
    var d, k := B.DirectionToSquare(sq, a.kingSquare), Distance(sq, a.kingSquare);
    match Pinned(boards, a.side, sq, a.kingSquare)
    case None => a
    case Some(j) => a.(pins := a.pins[At(sq, d, j) := {sq} + RaySet(sq, d, 1, k)])
  }

  /** One opponent slider of `check_sliding_attacks`. */
  function SliderStep(a: Data, boards: seq<Bits>, l: Lookups, t: PieceType, sq: nat): (r: Data)
    requires Fits(a, boards) && LookupsFit(l) && IsSlider(t) && sq < 64 && sq != a.kingSquare
    ensures Keeps(a, r)
  {
    var attacks := SliderAttacks(l, t, sq);
    var a1 := a.(kingAllowed := a.kingAllowed - attacks);
    if !OnLine(t, sq, a.kingSquare) then a1
    else if attacks * a.kingBb != {} then SlidingCheck(a1, sq)
    else PinWalk(a1, boards, sq)
  }

  /** The sliders of `squares`, lowest square first. */
  function SliderFold(a: Data, boards: seq<Bits>, l: Lookups, t: PieceType, squares: Bits): (r: Data)
    requires Fits(a, boards) && LookupsFit(l) && IsSlider(t)
    requires squares <= ALL && a.kingSquare !in squares
    ensures Keeps(a, r)
    decreases |squares|
  {
    if squares == {} then a
    else
      var sq := Lowest(squares);
      SliderFold(SliderStep(a, boards, l, t, sq), boards, l, t, squares - {sq})
  }

  /** The opponent's pieces of kind t never stand on the king's square. */
  lemma OpponentApart(a: Data, boards: seq<Bits>, kind: nat)
    requires Fits(a, boards) && kind < 8
    ensures Pieces(boards, Opponent(a.side), kind) <= ALL && a.kingSquare !in Pieces(boards, Opponent(a.side), kind)
  {
    assert boards[kind] <= ALL;
    assert a.kingSquare in boards[ColorIndex(a.side)];
    assert boards[ColorIndex(Opponent(a.side))] * boards[ColorIndex(a.side)] == {} by {
      if a.side == Black {
        assert boards[WHITE_IDX] * boards[BLACK_IDX] == boards[BLACK_IDX] * boards[WHITE_IDX];
      }
    }
    assert a.kingSquare !in boards[ColorIndex(Opponent(a.side))] * boards[ColorIndex(a.side)];
  }

  /** `check_sliding_attacks`: the opponent's sliders of kind t, lowest square first. */
  function SliderPass(a: Data, boards: seq<Bits>, l: Lookups, t: PieceType): (r: Data)
    requires Fits(a, boards) && LookupsFit(l) && IsSlider(t)
    ensures Keeps(a, r)
  {
    OpponentApart(a, boards, PieceTypeIndex(t));
    SliderFold(a, boards, l, t, Pieces(boards, Opponent(a.side), PieceTypeIndex(t)))
  }

  /** The end of `calculate_attack_data`: no defence against a double check; u64::MAX for "no restriction". */
  function Finish(a: Data): (r: Data)
    ensures Keeps(a, r)
  {
    var a1 :=
      if a.inDoubleCheck then a.(defenders := {})
      else if a.defenders == {} && a.attack == {} then a.(defenders := ALL)
      else a;
    if a1.attack == {} then a1.(attack := ALL) else a1
  }

  /** `calculate_attack_data`: rooks, bishops, queens, knights, pawns, then the final adjustments. */
  function Calculate(boards: seq<Bits>, side: Color, l: Lookups): (r: Data)
    requires WellFormed(boards) && |Pieces(boards, side, KINGS_IDX)| == 1 && LookupsFit(l)
  {
    Finish(Passes(boards, side, l))
  }

  // ---------------------------------------------------------------
  // What the passes promise
  // ---------------------------------------------------------------

  /** The occupants of a ray segment are exactly its occupied steps, in increasing order. */
  lemma {:induction false} OccupantsMembers(boards: seq<Bits>, ray: seq<nat>, i: nat, k: nat)
    requires |boards| == 8 && i <= k < |ray|
    ensures forall x :: x in Occupants(boards, ray, i, k) <==> i <= x < k && Occupied(boards, ray[x])
    ensures forall x, y :: 0 <= x < y < |Occupants(boards, ray, i, k)| ==> Occupants(boards, ray, i, k)[x] < Occupants(boards, ray, i, k)[y]
    decreases k - i
  {
    if i < k {
      OccupantsMembers(boards, ray, i + 1, k);
    }
  }

  /** A ray segment with no occupied step has no occupants. */
  lemma {:induction false} OccupantsNone(boards: seq<Bits>, ray: seq<nat>, i: nat, k: nat)
    requires |boards| == 8 && i <= k < |ray|
    requires forall m :: i <= m < k ==> !Occupied(boards, ray[m])
    ensures Occupants(boards, ray, i, k) == []
    decreases k - i
  {
    if i < k {
      OccupantsNone(boards, ray, i + 1, k);
    }
  }

  /** A ray segment whose only occupied step is j has exactly that occupant. */
  lemma {:induction false} OccupantsSingle(boards: seq<Bits>, ray: seq<nat>, i: nat, k: nat, j: nat)
    requires |boards| == 8 && i <= j < k < |ray| && Occupied(boards, ray[j])
    requires forall m :: i <= m < k && m != j ==> !Occupied(boards, ray[m])
    ensures Occupants(boards, ray, i, k) == [j]
    decreases k - i
  {
    if i < j {
      OccupantsSingle(boards, ray, i + 1, k, j);
    } else {
      OccupantsNone(boards, ray, i + 1, k);
    }
  }

  /**
   * A slider pins the friendly piece on step j of its line to the king exactly
   * when that is the only occupied square strictly between them.
   */
  lemma PinnedMeans(boards: seq<Bits>, side: Color, sq: nat, king: nat, j: nat)
    requires |boards| == 8 && sq < 64 && king < 64 && sq != king && Aligned(sq, king)
    ensures var ray, k := Ray(sq, B.DirectionToSquare(sq, king)), Distance(sq, king);
      Pinned(boards, side, sq, king) == Some(j) <==>
        (1 <= j < k && j < |ray| && Occupied(boards, ray[j]) && ColorAt(boards, ray[j]) == side
         && forall m :: 1 <= m < k && m < |ray| && m != j ==> !Occupied(boards, ray[m]))
  {
    TargetOnRay(sq, king);
    var ray, k := Ray(sq, B.DirectionToSquare(sq, king)), Distance(sq, king);
    var occupants := Occupants(boards, ray, 1, k);
    OccupantsMembers(boards, ray, 1, k);
    if 1 <= j < k && Occupied(boards, ray[j]) && ColorAt(boards, ray[j]) == side
       && forall m :: 1 <= m < k && m < |ray| && m != j ==> !Occupied(boards, ray[m]) {
      OccupantsSingle(boards, ray, 1, k, j);
    }
    if Pinned(boards, side, sq, king) == Some(j) {
      assert occupants[0] in occupants;
      forall m | 1 <= m < k && m < |ray| && m != j
        ensures !Occupied(boards, ray[m])
      {
        assert Occupied(boards, ray[m]) ==> m in occupants;
      }
    }
  }

  /** Checking pieces are opponent pieces, and a check, a double check and blocking squares go together. */
  ghost predicate Coherent(a: Data, boards: seq<Bits>)
    requires |boards| == 8
  {
    && (a.inCheck <==> a.attack != {})
    && (a.inDoubleCheck ==> a.inCheck)
    && (a.defenders != {} ==> a.inCheck)
    && a.attack <= boards[ColorIndex(Opponent(a.side))]
  }

  /** A restricted square holds a friendly piece other than the king, which may stay where it is. */
  ghost predicate PinsSound(a: Data, boards: seq<Bits>)
    requires |boards| == 8
  {
    forall p :: 0 <= p < |a.pins| && a.pins[p] != ALL ==>
      p != a.kingSquare && Occupied(boards, p) && ColorAt(boards, p) == a.side && p in a.pins[p]
  }

  /** `handle_pins` only restricts a friendly piece that is the only one between the slider and the king. */
  lemma PinWalkSound(a: Data, boards: seq<Bits>, sq: nat)
    requires Located(a) && |boards| == 8 && sq < 64 && sq != a.kingSquare && Aligned(sq, a.kingSquare)
    requires PinsSound(a, boards)
    ensures PinsSound(PinWalk(a, boards, sq), boards)
  {
    TargetOnRay(sq, a.kingSquare);
    var d, k := B.DirectionToSquare(sq, a.kingSquare), Distance(sq, a.kingSquare);
    match Pinned(boards, a.side, sq, a.kingSquare)
    case None =>
    case Some(j) =>
      PinnedMeans(boards, a.side, sq, a.kingSquare, j);
      var p := At(sq, d, j);
      assert p == Ray(sq, d)[j];
      if p == a.kingSquare {
        AtInjective(sq, d, j, k);
      }
      assert p in RaySet(sq, d, 1, k);
  }

  /** One opponent slider keeps the record coherent, pins only what it pins, and bars what it attacks. */
  lemma SliderStepKeeps(a: Data, boards: seq<Bits>, l: Lookups, t: PieceType, sq: nat)
    requires Fits(a, boards) && LookupsFit(l) && IsSlider(t) && sq < 64 && sq != a.kingSquare
    requires sq in boards[ColorIndex(Opponent(a.side))] && Coherent(a, boards) && PinsSound(a, boards)
    ensures var r := SliderStep(a, boards, l, t, sq);
      Coherent(r, boards) && PinsSound(r, boards) && r.kingAllowed <= a.kingAllowed - SliderAttacks(l, t, sq)
  {
    var a1 := a.(kingAllowed := a.kingAllowed - SliderAttacks(l, t, sq));
    if OnLine(t, sq, a.kingSquare) && SliderAttacks(l, t, sq) * a.kingBb == {} {
      PinWalkSound(a1, boards, sq);
    }
  }

  /** The sliders of `squares`: the same, for every one of them. */
  lemma {:induction false} SliderFoldKeeps(a: Data, boards: seq<Bits>, l: Lookups, t: PieceType, squares: Bits)
    requires Fits(a, boards) && LookupsFit(l) && IsSlider(t) && squares <= ALL && a.kingSquare !in squares
    requires squares <= boards[ColorIndex(Opponent(a.side))] && Coherent(a, boards) && PinsSound(a, boards)
    ensures var r := SliderFold(a, boards, l, t, squares);
      Coherent(r, boards) && PinsSound(r, boards) && r.kingAllowed <= a.kingAllowed
      && forall sq :: sq in squares ==> SliderAttacks(l, t, sq) * r.kingAllowed == {}
    decreases |squares|
  {
    if squares != {} {
      var sq := Lowest(squares);
      var a1 := SliderStep(a, boards, l, t, sq);
      SliderStepKeeps(a, boards, l, t, sq);
      SliderFoldKeeps(a1, boards, l, t, squares - {sq});
    }
  }

  /** `check_sliding_attacks` for one kind: as above for all the opponent's sliders of that kind. */
  lemma SliderPassKeeps(a: Data, boards: seq<Bits>, l: Lookups, t: PieceType)
    requires Fits(a, boards) && LookupsFit(l) && IsSlider(t) && Coherent(a, boards) && PinsSound(a, boards)
    ensures var r := SliderPass(a, boards, l, t);
      Coherent(r, boards) && PinsSound(r, boards) && r.kingAllowed <= a.kingAllowed
      && forall sq :: sq in Pieces(boards, Opponent(a.side), PieceTypeIndex(t)) ==> SliderAttacks(l, t, sq) * r.kingAllowed == {}
  {
    OpponentApart(a, boards, PieceTypeIndex(t));
    SliderFoldKeeps(a, boards, l, t, Pieces(boards, Opponent(a.side), PieceTypeIndex(t)));
  }

  /** `handle_knight_checks` records the checking knights and changes nothing else but the check flags. */
  lemma KnightPassKeeps(a: Data, boards: seq<Bits>, l: Lookups)
    requires Fits(a, boards) && LookupsFit(l) && Coherent(a, boards)
    ensures var r := KnightPass(a, boards, l);
      Coherent(r, boards) && r.pins == a.pins && r.kingAllowed == a.kingAllowed && r.defenders == a.defenders
      && r.attack == a.attack + Pieces(boards, Opponent(a.side), KNIGHTS_IDX) * l.knightMoves[a.kingSquare]
  {
  }

  /** The pawns of `squares` keep the record coherent, leave the pins, and bar every square they attack. */
  lemma {:induction false} PawnFoldKeeps(a: Data, boards: seq<Bits>, table: seq<Bits>, squares: Bits)
    requires |boards| == 8 && |table| == 64 && squares <= ALL
    requires squares <= boards[ColorIndex(Opponent(a.side))] && Coherent(a, boards)
    ensures var r := PawnFold(a, table, squares);
      Coherent(r, boards) && r.pins == a.pins && r.defenders == a.defenders && r.kingAllowed <= a.kingAllowed
      && forall sq :: sq in squares ==> table[sq] * r.kingAllowed == {}
    decreases |squares|
  {
    if squares != {} {
      var sq := Lowest(squares);
      PawnFoldKeeps(PawnStep(a, table, sq), boards, table, squares - {sq});
    }
  }

  /** The three slider passes in turn keep the record coherent and bar every square an opponent slider attacks. */
  lemma SliderPassesKeep(a0: Data, boards: seq<Bits>, l: Lookups)
    requires Fits(a0, boards) && LookupsFit(l) && Coherent(a0, boards) && PinsSound(a0, boards)
    ensures var r, opponent := SliderPass(SliderPass(SliderPass(a0, boards, l, Rook), boards, l, Bishop), boards, l, Queen), Opponent(a0.side);
      Coherent(r, boards) && PinsSound(r, boards)
      && (forall sq :: sq in Pieces(boards, opponent, ROOKS_IDX) ==> SliderAttacks(l, Rook, sq) * r.kingAllowed == {})
      && (forall sq :: sq in Pieces(boards, opponent, BISHOPS_IDX) ==> SliderAttacks(l, Bishop, sq) * r.kingAllowed == {})
      && (forall sq :: sq in Pieces(boards, opponent, QUEENS_IDX) ==> SliderAttacks(l, Queen, sq) * r.kingAllowed == {})
  {
    var a1 := SliderPass(a0, boards, l, Rook);
    var a2 := SliderPass(a1, boards, l, Bishop);
    SliderPassKeeps(a0, boards, l, Rook);
    SliderPassKeeps(a1, boards, l, Bishop);
    SliderPassKeeps(a2, boards, l, Queen);
  }

  /** The record just before the final adjustments of `calculate_attack_data`. */
  function Passes(boards: seq<Bits>, side: Color, l: Lookups): (r: Data)
    requires WellFormed(boards) && |Pieces(boards, side, KINGS_IDX)| == 1 && LookupsFit(l)
    ensures Fits(r, boards) && r.side == side
  {
    var a0 := Initial(boards, side);
    var a3 := SliderPass(SliderPass(SliderPass(a0, boards, l, Rook), boards, l, Bishop), boards, l, Queen);
    PawnPass(KnightPass(a3, boards, l), boards, l)
  }

  /**
   * After the slider, knight and pawn passes the record is coherent, only
   * friendly pieces are restricted, and the king may not step onto any square
   * an opponent slider or a nearby opponent pawn attacks.
   */
  lemma PassesKeep(boards: seq<Bits>, side: Color, l: Lookups)
    requires WellFormed(boards) && |Pieces(boards, side, KINGS_IDX)| == 1 && LookupsFit(l)
    ensures var r, opponent := Passes(boards, side, l), Opponent(side);
      Coherent(r, boards) && PinsSound(r, boards)
      && (forall sq :: sq in Pieces(boards, opponent, ROOKS_IDX) ==> SliderAttacks(l, Rook, sq) * r.kingAllowed == {})
      && (forall sq :: sq in Pieces(boards, opponent, BISHOPS_IDX) ==> SliderAttacks(l, Bishop, sq) * r.kingAllowed == {})
      && (forall sq :: sq in Pieces(boards, opponent, QUEENS_IDX) ==> SliderAttacks(l, Queen, sq) * r.kingAllowed == {})
      && (forall sq :: sq in l.pawnZone * Pieces(boards, opponent, PAWNS_IDX) ==> OpponentPawnAttacks(side, l)[sq] * r.kingAllowed == {})
  {
    var a0 := Initial(boards, side);
    var a3 := SliderPass(SliderPass(SliderPass(a0, boards, l, Rook), boards, l, Bishop), boards, l, Queen);
    var a4 := KnightPass(a3, boards, l);
    SliderPassesKeep(a0, boards, l);
    KnightPassKeeps(a3, boards, l);
    assert ZonePawns(a4, boards, l) <= boards[ColorIndex(Opponent(side))];
    PawnFoldKeeps(a4, boards, OpponentPawnAttacks(side, l), ZonePawns(a4, boards, l));
  }

  /**
   * `calculate_attack_data`: in check exactly when the attack word is not
   * u64::MAX, and then it holds the checking opponent pieces; out of check
   * every square answers both the attack and the block question; in double
   * check no square blocks.
   */
  lemma CalculateChecks(boards: seq<Bits>, side: Color, l: Lookups)
    requires WellFormed(boards) && |Pieces(boards, side, KINGS_IDX)| == 1 && LookupsFit(l)
    ensures var r := Calculate(boards, side, l);
      && (r.inCheck <==> r.attack != ALL)
      && (r.inCheck ==> r.attack != {} && r.attack <= boards[ColorIndex(Opponent(side))])
      && (!r.inCheck ==> r.attack == ALL && r.defenders == ALL && !r.inDoubleCheck)
      && (r.inDoubleCheck ==> r.inCheck && r.defenders == {})
  {
    var a := Passes(boards, side, l);
    PassesKeep(boards, side, l);
    OpponentApart(a, boards, ColorIndex(Opponent(side)));
    assert a.kingSquare in ALL;
  }

  /** The sliders of `squares` record no checker but themselves, and forget none already recorded. */
  lemma {:induction false} SliderFoldAttack(a: Data, boards: seq<Bits>, l: Lookups, t: PieceType, squares: Bits)
    requires Fits(a, boards) && LookupsFit(l) && IsSlider(t) && squares <= ALL && a.kingSquare !in squares
    ensures var r := SliderFold(a, boards, l, t, squares);
      a.attack <= r.attack <= a.attack + squares
    decreases |squares|
  {
    if squares != {} {
      var sq := Lowest(squares);
      SliderFoldAttack(SliderStep(a, boards, l, t, sq), boards, l, t, squares - {sq});
    }
  }

  /** The pawn pass forgets no checker already recorded. */
  lemma {:induction false} PawnFoldGrows(a: Data, table: seq<Bits>, squares: Bits)
    requires |table| == 64 && squares <= ALL
    ensures a.attack <= PawnFold(a, table, squares).attack
    decreases |squares|
  {
    if squares != {} {
      var sq := Lowest(squares);
      PawnFoldGrows(PawnStep(a, table, sq), table, squares - {sq});
    }
  }

  /**
   * `calculate_attack_data`: a check given by no rook, bishop or queen (a
   * knight's or a pawn's) cannot be blocked, so no square is a blocking
   * square.
   */
  lemma CalculateLeaperCheckUnblockable(boards: seq<Bits>, side: Color, l: Lookups)
    requires WellFormed(boards) && |Pieces(boards, side, KINGS_IDX)| == 1 && LookupsFit(l)
    ensures var r, opponent := Calculate(boards, side, l), Opponent(side);
      r.inCheck && r.attack * (Pieces(boards, opponent, ROOKS_IDX) + Pieces(boards, opponent, BISHOPS_IDX) + Pieces(boards, opponent, QUEENS_IDX)) == {}
      ==> r.defenders == {}
  {
    var opponent := Opponent(side);
    var a0 := Initial(boards, side);
    var a1 := SliderPass(a0, boards, l, Rook);
    var a2 := SliderPass(a1, boards, l, Bishop);
    var a3 := SliderPass(a2, boards, l, Queen);
    var a4 := KnightPass(a3, boards, l);
    var a5 := PawnPass(a4, boards, l);
    var rooks, bishops, queens := Pieces(boards, opponent, ROOKS_IDX), Pieces(boards, opponent, BISHOPS_IDX), Pieces(boards, opponent, QUEENS_IDX);
    OpponentApart(a0, boards, ROOKS_IDX);
    OpponentApart(a1, boards, BISHOPS_IDX);
    OpponentApart(a2, boards, QUEENS_IDX);
    SliderFoldAttack(a0, boards, l, Rook, rooks);
    SliderFoldAttack(a1, boards, l, Bishop, bishops);
    SliderFoldAttack(a2, boards, l, Queen, queens);
    assert a3.attack <= rooks + bishops + queens;
    SliderPassesKeep(a0, boards, l);
    KnightPassKeeps(a3, boards, l);
    PawnFoldGrows(a4, OpponentPawnAttacks(side, l), ZonePawns(a4, boards, l));
    assert ZonePawns(a4, boards, l) <= boards[ColorIndex(opponent)];
    PawnFoldKeeps(a4, boards, OpponentPawnAttacks(side, l), ZonePawns(a4, boards, l));
    assert a3.attack <= a5.attack;
    if a5.inCheck && a5.attack * (rooks + bishops + queens) == {} {
      assert a3.attack == {};
      assert a5.defenders == {};
    }
  }

  /**
   * `calculate_attack_data`: only friendly pieces other than the king are
   * restricted, and the king may not step onto a square an opponent slider or
   * a nearby opponent pawn attacks.
   */
  lemma CalculateRestricts(boards: seq<Bits>, side: Color, l: Lookups)
    requires WellFormed(boards) && |Pieces(boards, side, KINGS_IDX)| == 1 && LookupsFit(l)
    ensures var r, opponent := Calculate(boards, side, l), Opponent(side);
      && (forall p :: 0 <= p < |r.pins| && r.pins[p] != ALL ==>
            p != r.kingSquare && Occupied(boards, p) && ColorAt(boards, p) == side && p in r.pins[p])
      && (forall sq :: sq in Pieces(boards, opponent, ROOKS_IDX) ==> SliderAttacks(l, Rook, sq) * r.kingAllowed == {})
      && (forall sq :: sq in Pieces(boards, opponent, BISHOPS_IDX) ==> SliderAttacks(l, Bishop, sq) * r.kingAllowed == {})
      && (forall sq :: sq in Pieces(boards, opponent, QUEENS_IDX) ==> SliderAttacks(l, Queen, sq) * r.kingAllowed == {})
      && (forall sq :: sq in l.pawnZone * Pieces(boards, opponent, PAWNS_IDX) ==> OpponentPawnAttacks(side, l)[sq] * r.kingAllowed == {})
  {
    PassesKeep(boards, side, l);
  }

  /**
   * `handle_sliding_check`: the squares strictly between the checker and the
   * king become blocking squares, and so does the king's own square when the
   * checker stands next to it; the squares behind the king are barred.
   */
  lemma SlidingCheckBlocks(a: Data, sq: nat)
    requires Located(a) && sq < 64 && sq != a.kingSquare && Aligned(sq, a.kingSquare)
    ensures var d, k, r := B.DirectionToSquare(sq, a.kingSquare), Distance(sq, a.kingSquare), SlidingCheck(a, sq);
      && (k == 1 ==> r.defenders == a.defenders + {a.kingSquare})
      && (k > 1 ==> r.defenders == a.defenders + RaySet(sq, d, 1, k))
      && r.kingAllowed == a.kingAllowed - RaySet(sq, d, k + 1, 8)
      && r.attack == a.attack + {sq}
  {
    TargetOnRay(sq, a.kingSquare);
    var d, k := B.DirectionToSquare(sq, a.kingSquare), Distance(sq, a.kingSquare);
    if k == 1 {
      assert RaySet(sq, d, 1, k) == {};
    } else {
      assert At(sq, d, 1) in RaySet(sq, d, 1, k);
    }
  }

  // ---------------------------------------------------------------
  // The record
  // ---------------------------------------------------------------

  class AttackData {
    var attack: Bits
    var defenders: Bits
    const pins: array<Bits>
    var inCheck: bool
    var inDoubleCheck: bool
    var kingAllowed: Bits
    var kingBb: Bits
    var kingSquare: nat
    var sideToMove: Color

    ghost predicate Valid()
      reads this
    {
      pins.Length == 64
    }

    /** The fields as a value. */
    function Snapshot(): Data
      reads this, pins
    {
      Data(attack, defenders, pins[..], inCheck, inDoubleCheck, kingAllowed, kingBb, kingSquare, sideToMove)
    }

    /** `AttackData::new`: empty words, no pins, White to move. */
    constructor ()
      ensures Valid() && fresh(pins)
      ensures Snapshot() == Data({}, {}, NoPins(), false, false, {}, {}, 0, White)
    {
      attack := {};
      defenders := {};
      pins := new Bits[64](_ => ALL);
      inCheck := false;
      inDoubleCheck := false;
      kingAllowed := {};
      kingBb := {};
      kingSquare := 0;
      sideToMove := White;
    }

    /** `init`. */
    method Init(boards: seq<Bits>, side: Color)
      requires Valid() && WellFormed(boards) && |Pieces(boards, side, KINGS_IDX)| == 1
      modifies this, pins
      ensures Valid() && Snapshot() == Initial(boards, side)
    {
      attack := {};
      defenders := {};
      for p := 0 to 64
        invariant forall q :: 0 <= q < p ==> pins[q] == ALL
        modifies pins
      {
        pins[p] := ALL;
      }
      assert pins[..] == NoPins();
      inCheck := false;
      inDoubleCheck := false;
      kingAllowed := ALL;
      sideToMove := side;
      kingBb := Pieces(boards, sideToMove, KINGS_IDX);
      kingSquare := Lowest(kingBb);
    }

    /** `handle_knight_checks`. */
    method HandleKnightChecks(boards: seq<Bits>, l: Lookups)
      requires Valid() && Fits(Snapshot(), boards) && LookupsFit(l)
      modifies this
      ensures Valid() && Snapshot() == KnightPass(old(Snapshot()), boards, l)
    {
      var possibleAttackers := l.knightMoves[kingSquare];
      var opponentKnights := Pieces(boards, Opponent(sideToMove), KNIGHTS_IDX);
      var attackers := opponentKnights * possibleAttackers;
      if attackers == {} {
        return;
      }
      inDoubleCheck := inCheck;
      inCheck := true;
      ghost var base := attack;
      ghost var all := attackers;
      while attackers != {}
        invariant attackers <= all && attack == base + (all - attackers)
        modifies this`attack
        decreases |attackers|
      {
        var attackerSquare := Lowest(attackers);
        attackers := attackers - {attackerSquare};
        attack := attack + {attackerSquare};
      }
    }

    /** `handle_pawn_attacks`. */
    method HandlePawnAttacks(boards: seq<Bits>, l: Lookups)
      requires Valid() && Fits(Snapshot(), boards) && LookupsFit(l)
      modifies this
      ensures Valid() && Snapshot() == PawnPass(old(Snapshot()), boards, l)
    {
      var pawnAttacks := if sideToMove == White then l.blackPawnAttacks else l.whitePawnAttacks;
      var relevantSquares := l.pawnZone;
      var opponentPawns := Pieces(boards, Opponent(sideToMove), PAWNS_IDX);
      var possibleAttackers := opponentPawns * relevantSquares;
      assert possibleAttackers == ZonePawns(Snapshot(), boards, l);
      ghost var start := Snapshot();
      ghost var target := PawnPass(start, boards, l);
      var attacked, allowed, check, doubleCheck := attack, kingAllowed, inCheck, inDoubleCheck;
      ghost var cur := start;
      while possibleAttackers != {}
        invariant possibleAttackers <= ALL
        invariant PawnFold(cur, pawnAttacks, possibleAttackers) == target
        invariant cur == start.(attack := attacked, kingAllowed := allowed, inCheck := check, inDoubleCheck := doubleCheck)
        modifies {}
        decreases |possibleAttackers|
      {
        var attackerSquare := Lowest(possibleAttackers);
        possibleAttackers := possibleAttackers - {attackerSquare};
        var attacks := pawnAttacks[attackerSquare];
        if attacks * kingBb != {} {
          doubleCheck := check;
          check := true;
          attacked := attacked + {attackerSquare};
        }
        allowed := allowed - attacks;
        cur := PawnStep(cur, pawnAttacks, attackerSquare);
      }
      attack, kingAllowed, inCheck, inDoubleCheck := attacked, allowed, check, doubleCheck;
    }

    /** `handle_sliding_check`. */
    method HandleSlidingCheck(sq: nat)
      requires Valid() && Located(Snapshot()) && sq < 64 && sq != kingSquare && Aligned(sq, kingSquare)
      modifies this
      ensures Valid() && Snapshot() == SlidingCheck(old(Snapshot()), sq)
    {
      ghost var a := Snapshot();
      attack := attack + {sq};
      inDoubleCheck := inCheck;
      inCheck := true;
      var direction := B.DirectionToSquare(sq, kingSquare);
      TargetOnRay(sq, kingSquare);
      ghost var k := Distance(sq, kingSquare);
      var pathToKing, current := PathToKing(sq, direction, kingBb, k);
      SteppedCell(sq, direction, k);
      current := Stepped(current, direction);
      var allowed := BarBeyond(sq, direction, kingAllowed, current, k);
      kingAllowed := allowed;
      defenders := defenders + pathToKing;
      assert pins[..] == a.pins;
      assert Snapshot() == Checked(a).(attack := a.attack + {sq}, kingAllowed := allowed, defenders := a.defenders + pathToKing);
      SlidingCheckParts(a, sq, direction, k, pathToKing, allowed);
    }

    /** `handle_pins`. */
    method HandlePins(boards: seq<Bits>, sq: nat)
      requires Valid() && Located(Snapshot()) && |boards| == 8 && sq < 64 && sq != kingSquare && Aligned(sq, kingSquare)
      modifies pins
      ensures Valid() && Snapshot() == PinWalk(old(Snapshot()), boards, sq)
    {
      ghost var a := Snapshot();
      var directionFn := B.DirectionToSquare(sq, kingSquare);
      TargetOnRay(sq, kingSquare);
      ghost var k := Distance(sq, kingSquare);
      var pathToKing, friendlyPin, blocked := ScanToKing(boards, sideToMove, sq, directionFn, kingBb, k);
      if blocked {
        return;
      }
      if friendlyPin != {} {
        var square := Lowest(friendlyPin);
        pins[square] := pathToKing;
      }
    }

    /** One opponent slider of `check_sliding_attacks`: bar its attacks, then a check or a possible pin. */
    method HandleSlider(boards: seq<Bits>, l: Lookups, t: PieceType, square: nat)
      requires Valid() && Fits(Snapshot(), boards) && LookupsFit(l) && IsSlider(t) && square < 64 && square != kingSquare
      modifies this, pins
      ensures Valid() && Snapshot() == SliderStep(old(Snapshot()), boards, l, t, square)
    {
      ghost var a := Snapshot();
      var sameOrthogonalRay := P.SameRank(square, kingSquare) || P.SameFile(square, kingSquare);
      var sameDiagonalRay := P.SameDiagonal(square, kingSquare) || P.SameAntiDiagonal(square, kingSquare);
      var attacks :=
        if t == Queen then l.orthogonal[square] + l.diagonal[square]
        else if t == Rook then l.orthogonal[square]
        else l.diagonal[square];
      var onRay :=
        if t == Queen then sameOrthogonalRay || sameDiagonalRay
        else if t == Rook then sameOrthogonalRay
        else sameDiagonalRay;
      assert attacks == SliderAttacks(l, t, square) && (onRay <==> OnLine(t, square, kingSquare));
      kingAllowed := kingAllowed - attacks;
      assert Snapshot() == a.(kingAllowed := a.kingAllowed - attacks);
      if !onRay {
        return;
      }
      if attacks * kingBb != {} {
        HandleSlidingCheck(square);
      } else {
        HandlePins(boards, square);
      }
    }

    /** `check_sliding_attacks`: the opponent's sliders of kind t, lowest square first. */
    method CheckSlidingAttacks(boards: seq<Bits>, l: Lookups, t: PieceType)
      requires Valid() && Fits(Snapshot(), boards) && LookupsFit(l) && IsSlider(t)
      modifies this, pins
      ensures Valid() && Snapshot() == SliderPass(old(Snapshot()), boards, l, t)
    {
      var opponent := Opponent(sideToMove);
      var opponentPieces := Pieces(boards, opponent, PieceTypeIndex(t));
      OpponentApart(Snapshot(), boards, PieceTypeIndex(t));
      ghost var target := SliderPass(Snapshot(), boards, l, t);
      while opponentPieces != {}
        invariant Valid() && Fits(Snapshot(), boards)
        invariant opponentPieces <= ALL && kingSquare !in opponentPieces
        invariant SliderFold(Snapshot(), boards, l, t, opponentPieces) == target
        decreases |opponentPieces|
      {
        var square := Lowest(opponentPieces);
        opponentPieces := opponentPieces - {square};
        HandleSlider(boards, l, t, square);
      }
    }

    /** `calculate_attack_data`. */
    method CalculateAttackData(boards: seq<Bits>, side: Color, l: Lookups)
      requires Valid() && WellFormed(boards) && |Pieces(boards, side, KINGS_IDX)| == 1 && LookupsFit(l)
      modifies this, pins
      ensures Valid() && Snapshot() == Calculate(boards, side, l)
    {
      Init(boards, side);
      CheckSlidingAttacks(boards, l, Rook);
      CheckSlidingAttacks(boards, l, Bishop);
      CheckSlidingAttacks(boards, l, Queen);
      HandleKnightChecks(boards, l);
      HandlePawnAttacks(boards, l);
      if inDoubleCheck {
        defenders := {};
      } else if defenders == {} && attack == {} {
        defenders := ALL;
      }
      if attack == {} {
        attack := ALL;
      }
    }
  }

  /**
   * The first loop of `handle_sliding_check`: from the checker towards the
   * king, collecting the squares passed (the first one even when it is the
   * king's), and stopping on the king's square.
   */
  method PathToKing(sq: nat, direction: B.Direction, kingBb: Bits, ghost k: nat) returns (pathToKing: Bits, current: Bits)
    requires sq < 64 && direction != B.Stay && 1 <= k <= RayLength(sq, direction) && kingBb == {At(sq, direction, k)}
    ensures pathToKing == Cell(sq, direction, 1) + RaySet(sq, direction, 1, k) && current == Cell(sq, direction, k)
  {
    SteppedStart(sq, direction);
    pathToKing := Stepped({sq}, direction);
    current := pathToKing;
    ghost var i := 1;
    while current * kingBb == {}
      invariant 1 <= i <= k && current == Cell(sq, direction, i)
      invariant pathToKing == Cell(sq, direction, 1) + RaySet(sq, direction, 1, i)
      decreases k - i
    {
      assert At(sq, direction, i) !in kingBb;
      RaySetGrow(sq, direction, 1, i);
      pathToKing := pathToKing + current;
      SteppedCell(sq, direction, i);
      current := Stepped(current, direction);
      i := i + 1;
    }
    assert At(sq, direction, i) in kingBb;
    AtInjective(sq, direction, i, k);
  }

  /** Barring the next square of the ray extends the barred stretch by one step. */
  lemma BarStep(sq: nat, d: B.Direction, kingAllowed: Bits, k: nat, i: nat)
    requires sq < 64 && k < i <= RayLength(sq, d)
    ensures kingAllowed - RaySet(sq, d, k + 1, i) - Cell(sq, d, i) == kingAllowed - RaySet(sq, d, k + 1, i + 1)
  {
    var cell, lo, hi := Cell(sq, d, i), RaySet(sq, d, k + 1, i), RaySet(sq, d, k + 1, i + 1);
    RaySetGrow(sq, d, k + 1, i);
    assert hi == lo + cell;
    MinusBoth(kingAllowed, lo, cell);
  }

  /**
   * The second loop of `handle_sliding_check`: every square behind the king,
   * from step k + 1 to the edge, is barred to it.
   */
  method BarBeyond(sq: nat, direction: B.Direction, kingAllowed: Bits, current: Bits, ghost k: nat) returns (allowed: Bits)
    requires sq < 64 && direction != B.Stay && k <= RayLength(sq, direction) && current == Cell(sq, direction, k + 1)
    ensures allowed == kingAllowed - RaySet(sq, direction, k + 1, 8)
  {
    allowed := kingAllowed;
    var next := current;
    ghost var i := k + 1;
    while next != {}
      invariant k < i <= 8 && next == Cell(sq, direction, i)
      invariant allowed == kingAllowed - RaySet(sq, direction, k + 1, i)
      decreases 8 - i
    {
      BarStep(sq, direction, kingAllowed, k, i);
      allowed := allowed - next;
      SteppedCell(sq, direction, i);
      next := Stepped(next, direction);
      i := i + 1;
    }
    RaySetPastEdge(sq, direction, k + 1, i);
  }

  /**
   * The loop of `handle_pins`: from the slider towards the king, noting the
   * first piece met as a friendly or an opponent pin candidate; meeting a
   * second piece ends `handle_pins` at once (`blocked`).
   */
  /** What the walk of `handle_pins` knows after looking at steps 1 up to (not including) i of a ray. */
  ghost predicate ScanState(boards: seq<Bits>, side: Color, ray: seq<nat>, k: nat, i: nat,
                            seen: seq<nat>, friendlyPin: Bits, opponentPin: Bits)
    requires |boards| == 8 && 1 <= i <= k < |ray|
  {
    && Occupants(boards, ray, 1, k) == seen + Occupants(boards, ray, i, k)
    && |seen| <= 1 && (forall j :: 0 <= j < |seen| ==> 1 <= seen[j] < i)
    && friendlyPin == (if |seen| == 1 && ColorAt(boards, ray[seen[0]]) == side then {ray[seen[0]]} else {})
    && opponentPin == (if |seen| == 1 && ColorAt(boards, ray[seen[0]]) != side then {ray[seen[0]]} else {})
  }

  /** One square of the walk of `handle_pins`: a second piece on the line blocks the pin. */
  method ScanSquare(boards: seq<Bits>, side: Color, ghost ray: seq<nat>, ghost k: nat, ghost i: nat, currentPos: Bits,
                    friendlyPin: Bits, opponentPin: Bits, ghost seen: seq<nat>)
    returns (friendlyPin': Bits, opponentPin': Bits, blocked: bool, ghost seen': seq<nat>)
    requires |boards| == 8 && 1 <= i < k < |ray|
    requires currentPos == {ray[i]}
    requires ScanState(boards, side, ray, k, i, seen, friendlyPin, opponentPin)
    ensures blocked ==> |Occupants(boards, ray, 1, k)| > 1
    ensures !blocked ==> ScanState(boards, side, ray, k, i + 1, seen', friendlyPin', opponentPin')
  {
    ghost var rest := Occupants(boards, ray, i + 1, k);
    assert Occupants(boards, ray, i, k) == (if Occupied(boards, ray[i]) then [i] else []) + rest;
    friendlyPin', opponentPin', blocked, seen' := friendlyPin, opponentPin, false, seen;
    var pieceType := BitBoard.KindAt(boards, currentPos, 0);
    if pieceType.Some? {
      assert Occupants(boards, ray, 1, k) == (seen + [i]) + rest;
      var pieceColor := if boards[WHITE_IDX] * currentPos != {} then White else Black;
      if friendlyPin != {} || opponentPin != {} {
        blocked := true;
        return;
      }
      if pieceColor == side {
        friendlyPin' := currentPos;
      } else {
        opponentPin' := currentPos;
      }
      seen' := seen + [i];
    } else {
      assert Occupants(boards, ray, 1, k) == seen + rest;
    }
  }

  /** Where the walk of `handle_pins` stands after i steps: on the i-th square, having passed the ones before. */
  ghost predicate Walked(sq: nat, d: B.Direction, k: nat, i: nat, currentPos: Bits, pathToKing: Bits)
  {
    sq < 64 && 1 <= i <= k <= RayLength(sq, d)
    && currentPos == {At(sq, d, i)} && pathToKing == {sq} + RaySet(sq, d, 1, i)
  }

  /**
   * One square of the walk of `handle_pins` short of the king: look at the piece on it, then step
   * on, the square left joining the path.
   */
  method WalkOn(boards: seq<Bits>, side: Color, ghost sq: nat, d: B.Direction, ghost k: nat, ghost i: nat,
                currentPos: Bits, pathToKing: Bits, friendlyPin: Bits, opponentPin: Bits, ghost seen: seq<nat>)
    returns (currentPos': Bits, pathToKing': Bits, friendlyPin': Bits, opponentPin': Bits, blocked: bool, ghost seen': seq<nat>)
    requires |boards| == 8 && d != B.Stay && i < k && Walked(sq, d, k, i, currentPos, pathToKing)
    requires ScanState(boards, side, Ray(sq, d), k, i, seen, friendlyPin, opponentPin)
    ensures blocked ==> |Occupants(boards, Ray(sq, d), 1, k)| > 1
    ensures !blocked ==> Walked(sq, d, k, i + 1, currentPos', pathToKing')
    ensures !blocked ==> ScanState(boards, side, Ray(sq, d), k, i + 1, seen', friendlyPin', opponentPin')
  {
    currentPos', pathToKing' := currentPos, pathToKing;
    friendlyPin', opponentPin', blocked, seen' := ScanSquare(boards, side, Ray(sq, d), k, i, currentPos, friendlyPin, opponentPin, seen);
    if blocked {
      return;
    }
    RaySetGrow(sq, d, 1, i);
    pathToKing' := pathToKing + currentPos;
    SteppedCell(sq, d, i);
    currentPos' := Stepped(currentPos, d);
  }

  /**
   * The walk of `handle_pins` from the slider towards the king: the squares passed, the friendly
   * piece met if it is the only piece between them, and whether two pieces block the line.
   */
  method ScanToKing(boards: seq<Bits>, side: Color, sq: nat, directionFn: B.Direction, kingBb: Bits, ghost k: nat)
    returns (pathToKing: Bits, friendlyPin: Bits, blocked: bool)
    requires |boards| == 8 && sq < 64 && directionFn != B.Stay && 1 <= k <= RayLength(sq, directionFn)
    requires kingBb == {At(sq, directionFn, k)}
    ensures var ray := Ray(sq, directionFn); var occupants := Occupants(boards, ray, 1, k);
      && (blocked <==> |occupants| > 1)
      && (!blocked ==> pathToKing == {sq} + RaySet(sq, directionFn, 1, k))
      && (!blocked ==> (friendlyPin != {} <==> |occupants| == 1 && ColorAt(boards, ray[occupants[0]]) == side))
      && (!blocked && friendlyPin != {} ==> friendlyPin == {ray[occupants[0]]})
  {
    pathToKing := {sq};
    SteppedStart(sq, directionFn);
    var currentPos := Stepped(pathToKing, directionFn);
    friendlyPin := {};
    var opponentPin: Bits := {};
    ghost var seen: seq<nat> := [];
    ghost var i := 1;
    while currentPos != {}
      invariant Walked(sq, directionFn, k, i, currentPos, pathToKing)
      invariant ScanState(boards, side, Ray(sq, directionFn), k, i, seen, friendlyPin, opponentPin)
      decreases k - i
    {
      if kingBb == currentPos {
        break;
      }
      assert i != k;
      currentPos, pathToKing, friendlyPin, opponentPin, blocked, seen :=
        WalkOn(boards, side, sq, directionFn, k, i, currentPos, pathToKing, friendlyPin, opponentPin, seen);
      if blocked {
        return;
      }
      i := i + 1;
    }
    ReachedKing(boards, side, sq, directionFn, k, i, currentPos, pathToKing, seen, friendlyPin, opponentPin);
    blocked := false;
  }

  /** The walk has come to the king's square: at most one piece stood on the way, and the path is the whole stretch. */
  lemma ReachedKing(boards: seq<Bits>, side: Color, sq: nat, d: B.Direction, k: nat, i: nat, currentPos: Bits,
                    pathToKing: Bits, seen: seq<nat>, friendlyPin: Bits, opponentPin: Bits)
    requires |boards| == 8 && d != B.Stay && Walked(sq, d, k, i, currentPos, pathToKing)
    requires ScanState(boards, side, Ray(sq, d), k, i, seen, friendlyPin, opponentPin)
    requires currentPos == {At(sq, d, k)}
    ensures var ray := Ray(sq, d); var occupants := Occupants(boards, ray, 1, k);
      && |occupants| <= 1
      && pathToKing == {sq} + RaySet(sq, d, 1, k)
      && (friendlyPin != {} <==> |occupants| == 1 && ColorAt(boards, ray[occupants[0]]) == side)
      && (friendlyPin != {} ==> friendlyPin == {ray[occupants[0]]})
  {
    AtInjective(sq, d, i, k);
  }
}
