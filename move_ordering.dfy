// The move-list preparation of `ai/ai_utils.rs` that the search relies on:
// the side to move's moves with every promotion expanded into one move per
// promotion piece, the squares the opponent's pieces reach, and the reorder
// of `get_sorted_moves` (sort by worth, then the best move of the previous
// search first).
module MoveOrdering {
  import opened PieceCodes
  import opened BitboardEnums
  import opened PieceMoves
  import opened Wrappers
  import MH = MoveHelpers

  /** The colour of the piece making a move, from its `u8` code. */
  predicate MoverIsWhite(m: PieceMove)
  {
    m.pieceValue >= 0 && IsWhitePiece(m.pieceValue)
  }

  // ---------------------------------------------------------------- the side's moves

  /** The moves of the pieces of the side to move, piece after piece. */
  function FriendlyMoves(pieces: seq<MH.Piece>, whiteMove: bool): (moves: seq<PieceMove>)
  {
    if |pieces| == 0 then []
    else (if pieces[0].white == whiteMove then pieces[0].moves else []) + FriendlyMoves(pieces[1..], whiteMove)
  }

  /** A move is collected exactly when some piece of the side to move has it. */
  lemma {:induction false} FriendlyMovesMembers(pieces: seq<MH.Piece>, whiteMove: bool, m: PieceMove)
    ensures m in FriendlyMoves(pieces, whiteMove)
      <==> exists i :: 0 <= i < |pieces| && pieces[i].white == whiteMove && m in pieces[i].moves
  {
    if |pieces| > 0 {
      FriendlyMovesMembers(pieces[1..], whiteMove, m);
      if m in FriendlyMoves(pieces[1..], whiteMove) {
        var i :| 0 <= i < |pieces[1..]| && pieces[1..][i].white == whiteMove && m in pieces[1..][i].moves;
        assert pieces[i + 1] == pieces[1..][i];
      }
      if exists i :: 0 <= i < |pieces| && pieces[i].white == whiteMove && m in pieces[i].moves {
        var i :| 0 <= i < |pieces| && pieces[i].white == whiteMove && m in pieces[i].moves;
        if i > 0 {
          assert pieces[1..][i - 1] == pieces[i];
        }
      }
    }
  }

  /** The target squares of a list of moves, in order. */
  function Targets(moves: seq<PieceMove>): (squares: seq<int>)
    ensures |squares| == |moves|
    ensures forall j :: 0 <= j < |moves| ==> squares[j] == moves[j].toPosition
  {
    if |moves| == 0 then [] else [moves[0].toPosition] + Targets(moves[1..])
  }

  /** Lines 146-154: the targets of the opponent's pieces other than pawns. */
  function AttackedPositions(pieces: seq<MH.Piece>, whiteMove: bool): (positions: seq<int>)
  {
    if |pieces| == 0 then []
    else
      (if pieces[0].white != whiteMove && GetPieceType(pieces[0].value) != Pawn then Targets(pieces[0].moves) else [])
      + AttackedPositions(pieces[1..], whiteMove)
  }

  /** An opponent's piece other than a pawn. */
  predicate Attacker(piece: MH.Piece, whiteMove: bool)
  {
    piece.white != whiteMove && GetPieceType(piece.value) != Pawn
  }

  /**
   * A square is attacked exactly when some move of an opponent's piece that
   * is not a pawn ends there; pawns' pushes do not count.
   */
  lemma {:induction false} AttackedPositionsMembers(pieces: seq<MH.Piece>, whiteMove: bool, q: int)
    ensures q in AttackedPositions(pieces, whiteMove)
      <==> exists i, j :: 0 <= i < |pieces| && Attacker(pieces[i], whiteMove)
                          && 0 <= j < |pieces[i].moves| && pieces[i].moves[j].toPosition == q
  {
    if |pieces| > 0 {
      AttackedPositionsMembers(pieces[1..], whiteMove, q);
      var head := if Attacker(pieces[0], whiteMove) then Targets(pieces[0].moves) else [];
      assert AttackedPositions(pieces, whiteMove) == head + AttackedPositions(pieces[1..], whiteMove);
      if q in head {
        var j :| 0 <= j < |head| && head[j] == q;
        assert pieces[0].moves[j].toPosition == q;
      }
      if q in AttackedPositions(pieces[1..], whiteMove) {
        var i, j :| 0 <= i < |pieces[1..]| && Attacker(pieces[1..][i], whiteMove)
                    && 0 <= j < |pieces[1..][i].moves| && pieces[1..][i].moves[j].toPosition == q;
        assert pieces[i + 1] == pieces[1..][i];
      }
      if exists i, j :: 0 <= i < |pieces| && Attacker(pieces[i], whiteMove)
                        && 0 <= j < |pieces[i].moves| && pieces[i].moves[j].toPosition == q {
        var i, j :| 0 <= i < |pieces| && Attacker(pieces[i], whiteMove)
                    && 0 <= j < |pieces[i].moves| && pieces[i].moves[j].toPosition == q;
        if i > 0 {
          assert pieces[1..][i - 1] == pieces[i];
        } else {
          assert head[j] == q;
        }
      }
    }
  }

  // ---------------------------------------------------------------- promotions

  /**
   * The four copies of a promotion move, one per promotion option of the
   * mover's colour in the order the options are listed; each copy differs
   * from the move in its promotion type alone.
   */
  function PromotionCopies(m: PieceMove): (copies: seq<PieceMove>)
    ensures |copies| == 4
    ensures forall k :: 0 <= k < 4 ==>
              copies[k].promotionType == GetPromotionOptions(MoverIsWhite(m))[k]
              && copies[k].(promotionType := m.promotionType) == m
  {
    var options := GetPromotionOptions(MoverIsWhite(m));
    [SetPromotionValue(m, options[0]), SetPromotionValue(m, options[1]),
     SetPromotionValue(m, options[2]), SetPromotionValue(m, options[3])]
  }

  /** The copies made for the promotion moves among `moves`, in the order of the moves. */
  function PromotionMoves(moves: seq<PieceMove>): (promotionMoves: seq<PieceMove>)
  {
    if |moves| == 0 then []
    else
      PromotionMoves(moves[..|moves| - 1])
      + (if moves[|moves| - 1].promotion then PromotionCopies(moves[|moves| - 1]) else [])
  }

  /** The moves that are not promotions, in their order (`retain`). */
  function Retained(moves: seq<PieceMove>): (kept: seq<PieceMove>)
  {
    if |moves| == 0 then []
    else Retained(moves[..|moves| - 1]) + (if moves[|moves| - 1].promotion then [] else [moves[|moves| - 1]])
  }

  /**
   * Lines 156-174: every promotion move is copied once per promotion option
   * of its colour; when there was any, the promotion moves are dropped and
   * the copies appended.
   */
  method ExpandPromotions(moves: seq<PieceMove>) returns (expanded: seq<PieceMove>)
    ensures expanded == Retained(moves) + PromotionMoves(moves)
  {
    var promotionMoves: seq<PieceMove> := [];
    for i := 0 to |moves|
      invariant promotionMoves == PromotionMoves(moves[..i])
    {
      assert moves[..i + 1][..i] == moves[..i];
      if moves[i].promotion {
        var options := GetPromotionOptions(MoverIsWhite(moves[i]));
        for k := 0 to 4
          invariant promotionMoves == PromotionMoves(moves[..i]) + PromotionCopies(moves[i])[..k]
        {
          promotionMoves := promotionMoves + [SetPromotionValue(moves[i], options[k])];
          assert PromotionCopies(moves[i])[..k + 1] == PromotionCopies(moves[i])[..k] + [PromotionCopies(moves[i])[k]];
        }
        assert PromotionCopies(moves[i])[..4] == PromotionCopies(moves[i]);
      }
    }
    assert moves[..|moves|] == moves;
    if |promotionMoves| > 0 {
      expanded := Retained(moves) + promotionMoves;
    } else {
      NoPromotionKeepsAll(moves);
      expanded := moves;
    }
  }

  /** Without any copy made, no move was a promotion and every move is kept. */
  lemma {:induction false} NoPromotionKeepsAll(moves: seq<PieceMove>)
    requires PromotionMoves(moves) == []
    ensures Retained(moves) == moves
  {
    if |moves| > 0 {
      var init := moves[..|moves| - 1];
      NoPromotionKeepsAll(init);
      assert init + [moves[|moves| - 1]] == moves;
    }
  }

  /** Each promotion move gives exactly four copies: the list grows by three per promotion. */
  lemma {:induction false} FourCopiesEach(moves: seq<PieceMove>)
    ensures |Retained(moves)| <= |moves|
    ensures |PromotionMoves(moves)| == 4 * (|moves| - |Retained(moves)|)
  {
    if |moves| > 0 {
      FourCopiesEach(moves[..|moves| - 1]);
    }
  }

  /** The retained moves are exactly the moves that are not promotions. */
  lemma {:induction false} RetainedMembers(moves: seq<PieceMove>, m: PieceMove)
    ensures m in Retained(moves) <==> m in moves && !m.promotion
  {
    if |moves| > 0 {
      var init := moves[..|moves| - 1];
      RetainedMembers(init, m);
      assert moves == init + [moves[|moves| - 1]];
    }
  }

  /** Every option of every promotion move appears among the copies. */
  lemma {:induction false} EveryOptionCopied(moves: seq<PieceMove>, i: nat, k: nat)
    requires i < |moves| && moves[i].promotion && k < 4
    ensures PromotionCopies(moves[i])[k] in PromotionMoves(moves)
  {
    var init := moves[..|moves| - 1];
    var last := if moves[|moves| - 1].promotion then PromotionCopies(moves[|moves| - 1]) else [];
    assert PromotionMoves(moves) == PromotionMoves(init) + last;
    if i < |moves| - 1 {
      assert init[i] == moves[i];
      EveryOptionCopied(init, i, k);
    } else {
      assert last[k] == PromotionCopies(moves[i])[k];
    }
  }

  /** Every copy comes from a promotion move and one of its colour's options. */
  lemma {:induction false} CopyOrigin(moves: seq<PieceMove>, j: nat) returns (i: nat, k: nat)
    requires j < |PromotionMoves(moves)|
    ensures i < |moves| && moves[i].promotion && k < 4
    ensures PromotionMoves(moves)[j] == PromotionCopies(moves[i])[k]
  {
    var init := moves[..|moves| - 1];
    var last := if moves[|moves| - 1].promotion then PromotionCopies(moves[|moves| - 1]) else [];
    assert PromotionMoves(moves) == PromotionMoves(init) + last;
    if j < |PromotionMoves(init)| {
      i, k := CopyOrigin(init, j);
      assert init[i] == moves[i];
    } else {
      i, k := |moves| - 1, j - |PromotionMoves(init)|;
    }
  }

  // ---------------------------------------------------------------- sorting

  /** The sort key of lines 67-71: the worth, reversed when maximising. */
  function SortKey(m: PieceMove, max: bool): (key: int)
    ensures max ==> key == -m.moveWorth
    ensures !max ==> key == m.moveWorth
  {
    if max then -m.moveWorth else m.moveWorth
  }

  /** Worth descending when maximising, ascending otherwise. */
  predicate SortedByWorth(moves: seq<PieceMove>, max: bool)
  {
    forall i, j :: 0 <= i < j < |moves| ==> SortKey(moves[i], max) <= SortKey(moves[j], max)
  }

  /** `m` placed before the first move of larger key (after the moves of equal or smaller key). */
  function Insert(m: PieceMove, sorted: seq<PieceMove>, max: bool): (r: seq<PieceMove>)
  {
    if |sorted| == 0 || SortKey(m, max) <= SortKey(sorted[0], max) then [m] + sorted
    else [sorted[0]] + Insert(m, sorted[1..], max)
  }

  /** `sort_by_key`: an insertion sort on the key, keeping equal keys in their order. */
  function SortByWorth(moves: seq<PieceMove>, max: bool): (sorted: seq<PieceMove>)
  {
    if |moves| == 0 then [] else Insert(moves[0], SortByWorth(moves[1..], max), max)
  }

  /** Inserting adds exactly the one move. */
  lemma {:induction false} InsertPermutes(m: PieceMove, sorted: seq<PieceMove>, max: bool)
    ensures multiset(Insert(m, sorted, max)) == multiset(sorted) + multiset{m}
  {
    if |sorted| > 0 && SortKey(m, max) > SortKey(sorted[0], max) {
      InsertPermutes(m, sorted[1..], max);
      assert sorted == [sorted[0]] + sorted[1..];
    }
  }

  /** No move of `moves` has a key below `key`. */
  predicate KeysFrom(key: int, moves: seq<PieceMove>, max: bool)
  {
    forall x :: x in moves ==> key <= SortKey(x, max)
  }

  /** Inserting keeps the list sorted. */
  lemma {:induction false} InsertSorted(m: PieceMove, sorted: seq<PieceMove>, max: bool)
    requires SortedByWorth(sorted, max)
    ensures SortedByWorth(Insert(m, sorted, max), max)
  {
    if |sorted| > 0 && SortKey(m, max) > SortKey(sorted[0], max) {
      var rest := Insert(m, sorted[1..], max);
      InsertSorted(m, sorted[1..], max);
      InsertPermutes(m, sorted[1..], max);
      assert KeysFrom(SortKey(sorted[0], max), rest, max) by {
        forall x | x in rest
          ensures SortKey(sorted[0], max) <= SortKey(x, max)
        {
          assert x in multiset(rest);
          if x != m {
            assert x in multiset(sorted[1..]);
            var j :| 0 <= j < |sorted[1..]| && sorted[1..][j] == x;
            assert sorted[j + 1] == x;
          }
        }
      }
      SortedCons(sorted[0], rest, max);
    }
  }

  /** A move in front of a sorted list whose keys are all at least its own keeps it sorted. */
  lemma SortedCons(first: PieceMove, rest: seq<PieceMove>, max: bool)
    requires SortedByWorth(rest, max) && KeysFrom(SortKey(first, max), rest, max)
    ensures SortedByWorth([first] + rest, max)
  {
    forall i, j | 0 <= i < j < |[first] + rest|
      ensures SortKey(([first] + rest)[i], max) <= SortKey(([first] + rest)[j], max)
    {
      if i == 0 {
        assert ([first] + rest)[j] == rest[j - 1];
      }
    }
  }

  /** The reorder of lines 67-72 yields a permutation of the moves, sorted by worth. */
  lemma {:induction false} SortByWorthSorts(moves: seq<PieceMove>, max: bool)
    ensures SortedByWorth(SortByWorth(moves, max), max)
    ensures multiset(SortByWorth(moves, max)) == multiset(moves)
  {
    if |moves| > 0 {
      SortByWorthSorts(moves[1..], max);
      InsertSorted(moves[0], SortByWorth(moves[1..], max), max);
      InsertPermutes(moves[0], SortByWorth(moves[1..], max), max);
      assert moves == [moves[0]] + moves[1..];
    }
  }

  // ---------------------------------------------------------------- best move first

  /** The index of the first move `eq` to `best`, if there is one. */
  function FirstEqual(moves: seq<PieceMove>, best: PieceMove): (r: Option<nat>)
    ensures r.Some? ==> r.value < |moves| && Eq(moves[r.value], best)
                        && forall j :: 0 <= j < r.value ==> !Eq(moves[j], best)
    ensures r.None? ==> forall j :: 0 <= j < |moves| ==> !Eq(moves[j], best)
  {
    if |moves| == 0 then None
    else if Eq(moves[0], best) then Some(0)
    else match FirstEqual(moves[1..], best)
      case None => None
      case Some(i) => Some(i + 1)
  }

  /**
   * Lines 74-84: the first move `eq` to the best move is removed and the
   * best move itself is put in front; without a best move, or with none
   * `eq` to it, the list is unchanged.
   */
  function BestFirst(moves: seq<PieceMove>, bestMove: Option<PieceMove>): (r: seq<PieceMove>)
  {
    match bestMove
    case None => moves
    case Some(best) =>
      match FirstEqual(moves, best)
      case None => moves
      case Some(i) => [best] + moves[..i] + moves[i + 1..]
  }

  /** The loop of lines 74-84: remove at the first `eq` index, insert the best move at 0, stop. */
  method PutBestMoveFirst(moves: seq<PieceMove>, bestMove: Option<PieceMove>) returns (reordered: seq<PieceMove>)
    ensures reordered == BestFirst(moves, bestMove)
  {
    reordered := moves;
    if bestMove.Some? {
      var best := bestMove.value;
      for i := 0 to |moves|
        invariant reordered == moves
        invariant forall j :: 0 <= j < i ==> !Eq(moves[j], best)
      {
        if Eq(reordered[i], best) {
          reordered := reordered[..i] + reordered[i + 1..];
          reordered := [best] + reordered;
          return;
        }
      }
    }
  }

  /** The reorder never changes the number of moves. */
  lemma BestFirstKeepsLength(moves: seq<PieceMove>, bestMove: Option<PieceMove>)
    ensures |BestFirst(moves, bestMove)| == |moves|
  {
  }

  /**
   * When some move is `eq` to the best move, the best move leads and the
   * others follow in their order with the first such move left out.
   */
  lemma BestFirstLeads(moves: seq<PieceMove>, best: PieceMove, i: nat)
    requires i < |moves| && Eq(moves[i], best) && forall j :: 0 <= j < i ==> !Eq(moves[j], best)
    ensures BestFirst(moves, Some(best))[0] == best
    ensures BestFirst(moves, Some(best))[1..] == moves[..i] + moves[i + 1..]
  {
    assert FirstEqual(moves, best) == Some(i);
  }

  /** The reorder swaps the first move `eq` to the best move for the best move itself. */
  lemma BestFirstExchanges(moves: seq<PieceMove>, best: PieceMove, i: nat)
    requires i < |moves| && Eq(moves[i], best) && forall j :: 0 <= j < i ==> !Eq(moves[j], best)
    ensures multiset(BestFirst(moves, Some(best))) == multiset(moves) - multiset{moves[i]} + multiset{best}
  {
    assert FirstEqual(moves, best) == Some(i);
    assert moves == moves[..i] + ([moves[i]] + moves[i + 1..]);
    Exchange(moves[..i], moves[i], moves[i + 1..], best);
  }

  /** Putting `y` in front in place of `x` trades one for the other in the multiset. */
  lemma Exchange(before: seq<PieceMove>, x: PieceMove, after: seq<PieceMove>, y: PieceMove)
    ensures multiset([y] + before + after) == multiset(before + ([x] + after)) - multiset{x} + multiset{y}
  {
    var a, b := multiset(before), multiset(after);
    assert multiset([y] + before + after) == multiset{y} + a + b;
    assert multiset(before + ([x] + after)) == a + (multiset{x} + b);
  }

  /** Without a move `eq` to the best move the list is left as it is. */
  lemma BestFirstAbsent(moves: seq<PieceMove>, best: PieceMove)
    requires forall j :: 0 <= j < |moves| ==> !Eq(moves[j], best)
    ensures BestFirst(moves, Some(best)) == moves
  {
  }

  /**
   * The reorder at the end of `get_sorted_moves`: sorted by worth, then the
   * best move first. Nothing is lost or gained but the best move's stand-in.
   */
  method ReorderMoves(moves: seq<PieceMove>, max: bool, bestMove: Option<PieceMove>) returns (reordered: seq<PieceMove>)
    ensures reordered == BestFirst(SortByWorth(moves, max), bestMove)
    ensures |reordered| == |moves|
    ensures bestMove.None? ==> SortedByWorth(reordered, max) && multiset(reordered) == multiset(moves)
  {
    var sorted := SortByWorth(moves, max);
    SortByWorthSorts(moves, max);
    assert |sorted| == |moves| by {
      assert |multiset(sorted)| == |multiset(moves)|;
    }
    reordered := PutBestMoveFirst(sorted, bestMove);
    BestFirstKeepsLength(sorted, bestMove);
  }
}
