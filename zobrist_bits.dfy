// `game_bit_board/zobrist/zobrist.rs`: the incremental Zobrist hash of the
// bitboard engine. Every update XORs keys into one u64, so each update is
// its own inverse. The hash and the keys are `BitSets.Bits` words.
//
// The keys come from a seeded random generator in the source; here they are
// a parameter of the constructor.
module BitZobrist {
  import opened BitboardEnums
  import opened ZobristIndex
  import opened BitSets
  import Positions

  /** The random keys: one per (square, piece column) and seven state keys. */
  datatype Keys = Keys(
    table: seq<seq<Bits>>,
    blackKingCastle: Bits,
    blackQueenCastle: Bits,
    blackEnPassant: Bits,
    whiteKingCastle: Bits,
    whiteQueenCastle: Bits,
    whiteEnPassant: Bits,
    whiteToMove: Bits)

  /** `vec![vec![0u64; 12]; 64]`: 64 rows of 12 columns. */
  ghost predicate WellFormed(keys: Keys)
  {
    |keys.table| == 64 && forall square :: 0 <= square < 64 ==> |keys.table[square]| == 12
  }

  /** The key of a piece on a square; an Empty square has none. */
  function SquareKey(keys: Keys, square: nat, color: Color, pieceType: PieceType): (k: Bits)
    requires WellFormed(keys) && square < 64
    ensures pieceType == Empty ==> k == {}
    ensures pieceType != Empty ==> k == keys.table[square][PieceIndex(color, pieceType)]
  {
    if pieceType == Empty then {} else keys.table[square][PieceIndex(color, pieceType)]
  }

  /**
   * What `update_hash_on_move` XORs into the hash: the mover's key at `from`
   * and at `to`, the captured piece's key (opponent colour) at `to`, and the
   * side-to-move key.
   */
  function MoveDelta(keys: Keys, captured: PieceType, color: Color, from: nat, moved: PieceType, to: nat): Bits
    requires WellFormed(keys) && from < 64 && to < 64 && moved != Empty
  {
    Xor(Xor(Xor(SquareKey(keys, from, color, moved), SquareKey(keys, to, color, moved)),
            SquareKey(keys, to, Opponent(color), captured)),
        keys.whiteToMove)
  }

  /** A capture adds exactly the captured piece's key at `to`, in the opponent's column. */
  lemma CaptureDelta(keys: Keys, captured: PieceType, color: Color, from: nat, moved: PieceType, to: nat)
    requires WellFormed(keys) && from < 64 && to < 64 && moved != Empty && captured != Empty
    ensures MoveDelta(keys, captured, color, from, moved, to)
         == Xor(MoveDelta(keys, Empty, color, from, moved, to), keys.table[to][PieceIndex(Opponent(color), captured)])
  {
  }

  /** A quiet move that stays on its square changes only the side to move. */
  lemma NullMoveDelta(keys: Keys, color: Color, square: nat, moved: PieceType)
    requires WellFormed(keys) && square < 64 && moved != Empty
    ensures MoveDelta(keys, Empty, color, square, moved, square) == keys.whiteToMove
  {
  }

  /** The squares' part of a position: the XOR of the keys of the pieces on squares 0 .. n - 1. */
  function SquaresHash(keys: Keys, pieces: seq<(Color, PieceType)>, n: nat): Bits
    requires WellFormed(keys) && |pieces| == 64 && n <= 64
  {
    if n == 0 then {}
    else Xor(SquaresHash(keys, pieces, n - 1), SquareKey(keys, n - 1, pieces[n - 1].0, pieces[n - 1].1))
  }

  /**
   * Changing the piece on one square changes the squares' hash by the old
   * piece's key and the new piece's key, and by nothing else.
   */
  lemma {:induction false} SquaresHashUpdate(keys: Keys, pieces: seq<(Color, PieceType)>, n: nat,
                                            square: nat, piece: (Color, PieceType))
    requires WellFormed(keys) && |pieces| == 64 && n <= 64 && square < 64
    ensures SquaresHash(keys, pieces[square := piece], n)
         == if square < n then
              Xor(Xor(SquaresHash(keys, pieces, n), SquareKey(keys, square, pieces[square].0, pieces[square].1)),
                  SquareKey(keys, square, piece.0, piece.1))
            else SquaresHash(keys, pieces, n)
  {
    if n > 0 {
      SquaresHashUpdate(keys, pieces, n - 1, square, piece);
    }
  }

  /**
   * What `compute_hash` reads from the board: the side to move, the four
   * castling rights, the en-passant position and the piece on each square.
   * The board type that provides them is not part of this model.
   */
  datatype Position = Position(
    whiteToMove: bool,
    blackKingCastle: bool,
    blackQueenCastle: bool,
    enPassant: bv64,
    whiteKingCastle: bool,
    whiteQueenCastle: bool,
    pieces: seq<(Color, PieceType)>)

  /** The key when the condition holds, else the zero word. */
  function KeyIf(held: bool, key: Bits): (k: Bits)
    ensures held ==> k == key
    ensures !held ==> k == {}
  {
    if held then key else {}
  }

  /**
   * The castling and en-passant keys XORed onto `acc` in the source's order:
   * Black's king and queen side, the two en-passant keys, White's king and
   * queen side.
   */
  function RightsHash(keys: Keys, p: Position, acc: Bits): Bits
  {
    var blackKing := Xor(acc, KeyIf(p.blackKingCastle, keys.blackKingCastle));
    var blackQueen := Xor(blackKing, KeyIf(p.blackQueenCastle, keys.blackQueenCastle));
    var blackEnPassant := Xor(blackQueen, KeyIf(Positions.IsEnPassantPosition(Black, p.enPassant), keys.blackEnPassant));
    var whiteEnPassant := Xor(blackEnPassant, KeyIf(Positions.IsEnPassantPosition(White, p.enPassant), keys.whiteEnPassant));
    var whiteKing := Xor(whiteEnPassant, KeyIf(p.whiteKingCastle, keys.whiteKingCastle));
    Xor(whiteKing, KeyIf(p.whiteQueenCastle, keys.whiteQueenCastle))
  }

  /** The state part of a position's hash: the side-to-move key when White moves, then the rights. */
  function StateHash(keys: Keys, p: Position): Bits
  {
    RightsHash(keys, p, KeyIf(p.whiteToMove, keys.whiteToMove))
  }

  /** The hash `compute_hash` computes from scratch. */
  function PositionHash(keys: Keys, p: Position): Bits
    requires WellFormed(keys) && |p.pieces| == 64
  {
    Xor(StateHash(keys, p), SquaresHash(keys, p.pieces, 64))
  }

  /**
   * The incremental update agrees with recomputation: moving a piece from
   * `from` to a different square `to` (capturing the opponent piece that
   * stood there, if any) and passing the move to the other side changes the
   * recomputed hash by exactly `MoveDelta`.
   */
  lemma MoveMatchesRecompute(keys: Keys, p: Position, from: nat, to: nat)
    requires WellFormed(keys) && |p.pieces| == 64 && from < 64 && to < 64 && from != to
    requires p.pieces[from].1 != Empty
    requires p.pieces[to].1 != Empty ==> p.pieces[to].0 == Opponent(p.pieces[from].0)
    ensures var moved := p.pieces[from];
      var after := p.(whiteToMove := !p.whiteToMove,
                      pieces := p.pieces[from := (moved.0, Empty)][to := moved]);
      PositionHash(keys, after)
        == Xor(PositionHash(keys, p), MoveDelta(keys, p.pieces[to].1, moved.0, from, moved.1, to))
  {
    var moved := p.pieces[from];
    var lifted := p.pieces[from := (moved.0, Empty)];
    var after := p.(whiteToMove := !p.whiteToMove, pieces := lifted[to := moved]);
    SquaresHashUpdate(keys, p.pieces, 64, from, (moved.0, Empty));
    SquaresHashUpdate(keys, lifted, 64, to, moved);
    XorZero(SquaresHash(keys, p.pieces, 64));
    var fromKey, toKey := SquareKey(keys, from, moved.0, moved.1), SquareKey(keys, to, moved.0, moved.1);
    var capturedKey := SquareKey(keys, to, Opponent(moved.0), p.pieces[to].1);
    assert SquareKey(keys, to, lifted[to].0, lifted[to].1) == capturedKey;
    assert SquaresHash(keys, after.pieces, 64)
        == Xor(Xor(Xor(SquaresHash(keys, p.pieces, 64), fromKey), capturedKey), toKey);
    StateHashFlipsSide(keys, p);
    XorMoveRegroup(StateHash(keys, p), SquaresHash(keys, p.pieces, 64), fromKey, toKey, capturedKey, keys.whiteToMove);
  }

  /** Passing the move to the other side toggles the side-to-move key in the state part. */
  lemma StateHashFlipsSide(keys: Keys, p: Position)
    ensures StateHash(keys, p.(whiteToMove := !p.whiteToMove)) == Xor(StateHash(keys, p), keys.whiteToMove)
  {
    var side := KeyIf(p.whiteToMove, keys.whiteToMove);
    assert KeyIf(!p.whiteToMove, keys.whiteToMove) == Xor(side, keys.whiteToMove);
    RightsHashCommutes(keys, p, side, keys.whiteToMove);
  }

  /** XORing a word into the accumulator before the rights is the same as XORing it in after. */
  lemma RightsHashCommutes(keys: Keys, p: Position, acc: Bits, w: Bits)
    ensures RightsHash(keys, p, Xor(acc, w)) == Xor(RightsHash(keys, p, acc), w)
  {
    var k1 := KeyIf(p.blackKingCastle, keys.blackKingCastle);
    var k2 := KeyIf(p.blackQueenCastle, keys.blackQueenCastle);
    var k3 := KeyIf(Positions.IsEnPassantPosition(Black, p.enPassant), keys.blackEnPassant);
    var k4 := KeyIf(Positions.IsEnPassantPosition(White, p.enPassant), keys.whiteEnPassant);
    var k5 := KeyIf(p.whiteKingCastle, keys.whiteKingCastle);
    var k6 := KeyIf(p.whiteQueenCastle, keys.whiteQueenCastle);
    XorSwap(acc, w, k1);
    XorSwap(Xor(acc, k1), w, k2);
    XorSwap(Xor(Xor(acc, k1), k2), w, k3);
    XorSwap(Xor(Xor(Xor(acc, k1), k2), k3), w, k4);
    XorSwap(Xor(Xor(Xor(Xor(acc, k1), k2), k3), k4), w, k5);
    XorSwap(Xor(Xor(Xor(Xor(Xor(acc, k1), k2), k3), k4), k5), w, k6);
  }

  /** The regrouping behind `MoveMatchesRecompute`. */
  lemma XorMoveRegroup(state: Bits, squares: Bits, fromKey: Bits, toKey: Bits, capturedKey: Bits, side: Bits)
    ensures Xor(Xor(state, side), Xor(Xor(Xor(squares, fromKey), capturedKey), toKey))
         == Xor(Xor(state, squares), Xor(Xor(Xor(fromKey, toKey), capturedKey), side))
  {
  }

  class Zobrist {
    const keys: Keys
    var hash: Bits

    ghost predicate Valid()
      reads this
    {
      WellFormed(keys)
    }

    /** `Zobrist::new` with the keys given: the hash starts at 0. */
    constructor (keys: Keys)
      requires WellFormed(keys)
      ensures Valid() && this.keys == keys && hash == {}
    {
      this.keys := keys;
      hash := {};
    }

    /**
     * `update_hash_on_move`. A moved kind of Empty has column 100, which the
     * source's 12-column rows cannot index, so the mover must be a piece.
     */
    method UpdateHashOnMove(captured: PieceType, color: Color, from: nat, moved: PieceType, to: nat)
      requires Valid() && from < 64 && to < 64 && moved != Empty
      modifies this
      ensures hash == Xor(old(hash), MoveDelta(keys, captured, color, from, moved, to))
    {
      var movedIndex := PieceIndex(color, moved);
      hash := Xor(hash, keys.table[from][movedIndex]);
      hash := Xor(hash, keys.table[to][movedIndex]);
      if captured != Empty {
        var capturedIndex := PieceIndex(Opponent(color), captured);
        hash := Xor(hash, keys.table[to][capturedIndex]);
      } else {
        XorZero(hash);
      }
      hash := Xor(hash, keys.whiteToMove);
      XorRegroup(old(hash), SquareKey(keys, from, color, moved), SquareKey(keys, to, color, moved),
                 SquareKey(keys, to, Opponent(color), captured), keys.whiteToMove);
    }

    /** `update_hash_on_black_en_passant_change`. */
    method UpdateHashOnBlackEnPassantChange()
      modifies this
      ensures hash == Xor(old(hash), keys.blackEnPassant)
    {
      hash := Xor(hash, keys.blackEnPassant);
    }

    /** `update_hash_on_white_en_passant_change`. */
    method UpdateHashOnWhiteEnPassantChange()
      modifies this
      ensures hash == Xor(old(hash), keys.whiteEnPassant)
    {
      hash := Xor(hash, keys.whiteEnPassant);
    }

    /** `update_hash_on_black_lose_king_side_castle`. */
    method UpdateHashOnBlackLoseKingSideCastle()
      modifies this
      ensures hash == Xor(old(hash), keys.blackKingCastle)
    {
      hash := Xor(hash, keys.blackKingCastle);
    }

    /** `update_hash_on_black_lose_queen_side_castle`. */
    method UpdateHashOnBlackLoseQueenSideCastle()
      modifies this
      ensures hash == Xor(old(hash), keys.blackQueenCastle)
    {
      hash := Xor(hash, keys.blackQueenCastle);
    }

    /** `update_hash_on_white_lose_king_side_castle`. */
    method UpdateHashOnWhiteLoseKingSideCastle()
      modifies this
      ensures hash == Xor(old(hash), keys.whiteKingCastle)
    {
      hash := Xor(hash, keys.whiteKingCastle);
    }

    /** `update_hash_on_white_lose_queen_side_castle`. */
    method UpdateHashOnWhiteLoseQueenSideCastle()
      modifies this
      ensures hash == Xor(old(hash), keys.whiteQueenCastle)
    {
      hash := Xor(hash, keys.whiteQueenCastle);
    }

    /** The state part of `compute_hash`: the side, castling and en-passant keys that apply. */
    method StateKeys(p: Position) returns (acc: Bits)
      ensures acc == StateHash(keys, p)
    {
      acc := XorIf({}, p.whiteToMove, keys.whiteToMove);
      XorZeroLeft(KeyIf(p.whiteToMove, keys.whiteToMove));
      acc := XorIf(acc, p.blackKingCastle, keys.blackKingCastle);
      acc := XorIf(acc, p.blackQueenCastle, keys.blackQueenCastle);
      acc := XorIf(acc, Positions.IsEnPassantPosition(Black, p.enPassant), keys.blackEnPassant);
      acc := XorIf(acc, Positions.IsEnPassantPosition(White, p.enPassant), keys.whiteEnPassant);
      acc := XorIf(acc, p.whiteKingCastle, keys.whiteKingCastle);
      acc := XorIf(acc, p.whiteQueenCastle, keys.whiteQueenCastle);
    }

    /** `compute_hash`: the hash of the position from scratch, stored and returned. */
    method ComputeHash(p: Position) returns (h: Bits)
      requires Valid() && |p.pieces| == 64
      modifies this
      ensures h == hash == PositionHash(keys, p)
    {
      var acc := StateKeys(p);
      ghost var state := acc;
      for square := 0 to 64
        invariant acc == Xor(state, SquaresHash(keys, p.pieces, square))
      {
        var (pieceColor, pieceType) := p.pieces[square];
        XorAssoc(state, SquaresHash(keys, p.pieces, square), SquareKey(keys, square, pieceColor, pieceType));
        if pieceType != Empty {
          acc := Xor(acc, keys.table[square][PieceIndex(pieceColor, pieceType)]);
        } else {
          XorZero(acc);
        }
      }
      hash := acc;
      return acc;
    }
  }

  /** `if held { hash ^= key }`. */
  method XorIf(hash: Bits, held: bool, key: Bits) returns (r: Bits)
    ensures r == Xor(hash, KeyIf(held, key))
  {
    r := hash;
    if held {
      r := Xor(r, key);
    } else {
      XorZero(r);
    }
  }

  /** A move update applied twice with the same arguments restores the hash. */
  method MoveTwiceRestores(z: Zobrist, captured: PieceType, color: Color, from: nat, moved: PieceType, to: nat)
    requires z.Valid() && from < 64 && to < 64 && moved != Empty
    modifies z
    ensures z.hash == old(z.hash)
  {
    z.UpdateHashOnMove(captured, color, from, moved, to);
    z.UpdateHashOnMove(captured, color, from, moved, to);
    XorTwice(old(z.hash), MoveDelta(z.keys, captured, color, from, moved, to));
  }
}
