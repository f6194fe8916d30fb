// `game/zobrist.rs`: the Zobrist hash of the array engine. Its keys have the
// same layout as the bitboard engine's (64 rows of 12 piece keys and seven
// state keys), so `BitZobrist.Keys` is reused; the seeded random generator
// that fills them is replaced by a parameter.
//
// A piece code picks its key column through `get_piece_index`, which lives
// in a file that is not part of this model; it is the parameter
// `pieceIndex`, and each use demands the column it gives be one of the 12.
module MailboxZobrist {
  import opened BitSets
  import BitZobrist

  type Keys = BitZobrist.Keys

  /** The position stand-in for INVALID_BOARD_POSITION: no en-passant square. */
  const INVALID_BOARD_POSITION: int := -1

  /** A column of the 12-wide key rows. */
  predicate Column(pieceIndex: int -> int, code: int)
  {
    0 <= pieceIndex(code) < 12
  }

  /** A code the hash can look up: the empty code, which has no key, or one with a column. */
  predicate Hashable(pieceIndex: int -> int, code: int)
  {
    code == 0 || Column(pieceIndex, code)
  }

  /** The key of a code on a square; the empty code has none. */
  function SquareKey(keys: Keys, pieceIndex: int -> int, square: nat, code: int): (k: Bits)
    requires BitZobrist.WellFormed(keys) && square < 64 && Hashable(pieceIndex, code)
    ensures code == 0 ==> k == {}
  {
    if code == 0 then {} else keys.table[square][pieceIndex(code)]
  }

  /**
   * What `update_hash_on_move` XORs into the hash: the moved code's key at
   * `from` and at `to` (looked up even for the empty code), the captured
   * code's key at `to` unless the square was empty, and the side-to-move key.
   */
  function MoveDelta(keys: Keys, pieceIndex: int -> int, from: nat, to: nat, moved: int, captured: int): Bits
    requires BitZobrist.WellFormed(keys) && from < 64 && to < 64
    requires Column(pieceIndex, moved) && Hashable(pieceIndex, captured)
  {
    Xor(Xor(Xor(keys.table[from][pieceIndex(moved)], keys.table[to][pieceIndex(moved)]),
            SquareKey(keys, pieceIndex, to, captured)),
        keys.whiteToMove)
  }

  /** A capture adds exactly the captured code's key at `to` to a quiet move's delta. */
  lemma CaptureDelta(keys: Keys, pieceIndex: int -> int, from: nat, to: nat, moved: int, captured: int)
    requires BitZobrist.WellFormed(keys) && from < 64 && to < 64
    requires Column(pieceIndex, moved) && Column(pieceIndex, captured) && captured != 0
    ensures MoveDelta(keys, pieceIndex, from, to, moved, captured)
         == Xor(MoveDelta(keys, pieceIndex, from, to, moved, 0), keys.table[to][pieceIndex(captured)])
  {
  }

  /** What `compute_hash` reads from the board state. */
  datatype Position = Position(
    whiteMove: bool,
    blackKingCastle: bool,
    blackQueenCastle: bool,
    blackEnPassant: int,
    whiteKingCastle: bool,
    whiteQueenCastle: bool,
    whiteEnPassant: int,
    squares: seq<int>)

  /** Every code on the 64 squares can be hashed. */
  ghost predicate HashableSquares(pieceIndex: int -> int, squares: seq<int>)
  {
    |squares| == 64 && forall i :: 0 <= i < 64 ==> Hashable(pieceIndex, squares[i])
  }

  /** The squares' part of the hash: the keys of the codes on squares 0 .. n - 1. */
  function SquaresHash(keys: Keys, pieceIndex: int -> int, squares: seq<int>, n: nat): Bits
    requires BitZobrist.WellFormed(keys) && HashableSquares(pieceIndex, squares) && n <= 64
  {
    if n == 0 then {}
    else Xor(SquaresHash(keys, pieceIndex, squares, n - 1), SquareKey(keys, pieceIndex, n - 1, squares[n - 1]))
  }

  /** Changing the code on one square changes the squares' hash by the old and the new code's keys only. */
  lemma {:induction false} SquaresHashUpdate(keys: Keys, pieceIndex: int -> int, squares: seq<int>, n: nat,
                                            square: nat, code: int)
    requires BitZobrist.WellFormed(keys) && HashableSquares(pieceIndex, squares) && n <= 64 && square < 64
    requires Hashable(pieceIndex, code)
    ensures HashableSquares(pieceIndex, squares[square := code])
    ensures SquaresHash(keys, pieceIndex, squares[square := code], n)
         == if square < n then
              Xor(Xor(SquaresHash(keys, pieceIndex, squares, n), SquareKey(keys, pieceIndex, square, squares[square])),
                  SquareKey(keys, pieceIndex, square, code))
            else SquaresHash(keys, pieceIndex, squares, n)
  {
    if n > 0 {
      SquaresHashUpdate(keys, pieceIndex, squares, n - 1, square, code);
    }
  }

  /** The key when the condition holds, else the zero word. */
  function KeyIf(held: bool, key: Bits): (k: Bits)
    ensures held ==> k == key
    ensures !held ==> k == {}
  {
    if held then key else {}
  }

  /**
   * The castling and en-passant keys XORed onto `acc` in the source's order:
   * Black's king side, queen side and en passant, then White's.
   */
  function RightsHash(keys: Keys, p: Position, acc: Bits): Bits
  {
    var blackKing := Xor(acc, KeyIf(p.blackKingCastle, keys.blackKingCastle));
    var blackQueen := Xor(blackKing, KeyIf(p.blackQueenCastle, keys.blackQueenCastle));
    var blackEnPassant := Xor(blackQueen, KeyIf(p.blackEnPassant != INVALID_BOARD_POSITION, keys.blackEnPassant));
    var whiteKing := Xor(blackEnPassant, KeyIf(p.whiteKingCastle, keys.whiteKingCastle));
    var whiteQueen := Xor(whiteKing, KeyIf(p.whiteQueenCastle, keys.whiteQueenCastle));
    Xor(whiteQueen, KeyIf(p.whiteEnPassant != INVALID_BOARD_POSITION, keys.whiteEnPassant))
  }

  /** The state part of the hash: the side-to-move key when White moves, then the rights. */
  function StateHash(keys: Keys, p: Position): Bits
  {
    RightsHash(keys, p, KeyIf(p.whiteMove, keys.whiteToMove))
  }

  /** The hash `compute_hash` computes from scratch. */
  function PositionHash(keys: Keys, pieceIndex: int -> int, p: Position): Bits
    requires BitZobrist.WellFormed(keys) && HashableSquares(pieceIndex, p.squares)
  {
    Xor(StateHash(keys, p), SquaresHash(keys, pieceIndex, p.squares, 64))
  }

  /** XORing a word into the accumulator before the rights is the same as XORing it in after. */
  lemma RightsHashCommutes(keys: Keys, p: Position, acc: Bits, w: Bits)
    ensures RightsHash(keys, p, Xor(acc, w)) == Xor(RightsHash(keys, p, acc), w)
  {
    var k1 := KeyIf(p.blackKingCastle, keys.blackKingCastle);
    var k2 := KeyIf(p.blackQueenCastle, keys.blackQueenCastle);
    var k3 := KeyIf(p.blackEnPassant != INVALID_BOARD_POSITION, keys.blackEnPassant);
    var k4 := KeyIf(p.whiteKingCastle, keys.whiteKingCastle);
    var k5 := KeyIf(p.whiteQueenCastle, keys.whiteQueenCastle);
    var k6 := KeyIf(p.whiteEnPassant != INVALID_BOARD_POSITION, keys.whiteEnPassant);
    XorSwap(acc, w, k1);
    XorSwap(Xor(acc, k1), w, k2);
    XorSwap(Xor(Xor(acc, k1), k2), w, k3);
    XorSwap(Xor(Xor(Xor(acc, k1), k2), k3), w, k4);
    XorSwap(Xor(Xor(Xor(Xor(acc, k1), k2), k3), k4), w, k5);
    XorSwap(Xor(Xor(Xor(Xor(Xor(acc, k1), k2), k3), k4), k5), w, k6);
  }

  /** Passing the move to the other side toggles the side-to-move key in the state part. */
  lemma StateHashFlipsSide(keys: Keys, p: Position)
    ensures StateHash(keys, p.(whiteMove := !p.whiteMove)) == Xor(StateHash(keys, p), keys.whiteToMove)
  {
    var side := KeyIf(p.whiteMove, keys.whiteToMove);
    assert KeyIf(!p.whiteMove, keys.whiteToMove) == Xor(side, keys.whiteToMove);
    RightsHashCommutes(keys, p, side, keys.whiteToMove);
  }

  /** The regrouping behind `MoveMatchesRecompute`. */
  lemma XorMoveRegroup(state: Bits, squares: Bits, fromKey: Bits, toKey: Bits, capturedKey: Bits, side: Bits)
    ensures Xor(Xor(state, side), Xor(Xor(Xor(squares, capturedKey), toKey), fromKey))
         == Xor(Xor(state, squares), Xor(Xor(Xor(fromKey, toKey), capturedKey), side))
  {
  }

  /**
   * The incremental update agrees with recomputation for a plain move: the
   * code on `from` moves unchanged to a different square `to`, replacing
   * whatever stood there, and the other side is to move.
   */
  lemma MoveMatchesRecompute(keys: Keys, pieceIndex: int -> int, p: Position, from: nat, to: nat)
    requires BitZobrist.WellFormed(keys) && HashableSquares(pieceIndex, p.squares)
    requires from < 64 && to < 64 && from != to && p.squares[from] != 0 && Column(pieceIndex, p.squares[from])
    ensures HashableSquares(pieceIndex, p.squares[to := p.squares[from]][from := 0])
    ensures PositionHash(keys, pieceIndex, p.(whiteMove := !p.whiteMove, squares := p.squares[to := p.squares[from]][from := 0]))
         == Xor(PositionHash(keys, pieceIndex, p), MoveDelta(keys, pieceIndex, from, to, p.squares[from], p.squares[to]))
  {
    var moved := p.squares[from];
    var placed := p.squares[to := moved];
    var after := placed[from := 0];
    SquaresHashUpdate(keys, pieceIndex, p.squares, 64, to, moved);
    SquaresHashUpdate(keys, pieceIndex, placed, 64, from, 0);
    var fromKey, toKey := keys.table[from][pieceIndex(moved)], keys.table[to][pieceIndex(moved)];
    var capturedKey := SquareKey(keys, pieceIndex, to, p.squares[to]);
    var squares := SquaresHash(keys, pieceIndex, p.squares, 64);
    assert SquareKey(keys, pieceIndex, from, placed[from]) == fromKey;
    XorZero(Xor(Xor(squares, capturedKey), toKey));
    assert SquaresHash(keys, pieceIndex, after, 64) == Xor(Xor(Xor(squares, capturedKey), toKey), fromKey);
    StateHashFlipsSide(keys, p);
    XorMoveRegroup(StateHash(keys, p), squares, fromKey, toKey, capturedKey, keys.whiteToMove);
  }

  class Zobrist {
    const keys: Keys
    /** `get_piece_index`. */
    const pieceIndex: int -> int
    var hash: Bits

    ghost predicate Valid()
      reads this
    {
      BitZobrist.WellFormed(keys)
    }

    /** `Zobrist::new` with the keys given: the hash starts at 0. */
    constructor (keys: Keys, pieceIndex: int -> int)
      requires BitZobrist.WellFormed(keys)
      ensures Valid() && this.keys == keys && this.pieceIndex == pieceIndex && hash == {}
    {
      this.keys := keys;
      this.pieceIndex := pieceIndex;
      hash := {};
    }

    /** `get_hash`. */
    function GetHash(): (h: Bits)
      reads this
      ensures h == hash
    {
      hash
    }

    /** `update_hash_on_move`. */
    method UpdateHashOnMove(from: nat, to: nat, moved: int, captured: int)
      requires Valid() && from < 64 && to < 64
      requires Column(pieceIndex, moved) && Hashable(pieceIndex, captured)
      modifies this
      ensures hash == Xor(old(hash), MoveDelta(keys, pieceIndex, from, to, moved, captured))
    {
      var movedIndex := pieceIndex(moved);
      hash := Xor(hash, keys.table[from][movedIndex]);
      hash := Xor(hash, keys.table[to][movedIndex]);
      if captured != 0 {
        var capturedIndex := pieceIndex(captured);
        hash := Xor(hash, keys.table[to][capturedIndex]);
      } else {
        XorZero(hash);
      }
      hash := Xor(hash, keys.whiteToMove);
      XorRegroup(old(hash), keys.table[from][movedIndex], keys.table[to][movedIndex],
                 SquareKey(keys, pieceIndex, to, captured), keys.whiteToMove);
    }

    /** `update_hash_on_black_en_passant_change`. */
    method UpdateHashOnBlackEnPassantChange()
      modifies this
      ensures hash == Xor(old(hash), keys.blackEnPassant)
    {
      hash := Xor(hash, keys.blackEnPassant);
    }

    /** `update_hash_on_white_en_passant_change`. */
    method UpdateHashOnWhiteEnPassantChange()
      modifies this
      ensures hash == Xor(old(hash), keys.whiteEnPassant)
    {
      hash := Xor(hash, keys.whiteEnPassant);
    }

    /** `update_hash_on_black_lose_rook_side_castle`. */
    method UpdateHashOnBlackLoseRookSideCastle()
      modifies this
      ensures hash == Xor(old(hash), keys.blackKingCastle)
    {
      hash := Xor(hash, keys.blackKingCastle);
    }

    /** `update_hash_on_black_lose_queen_side_castle`. */
    method UpdateHashOnBlackLoseQueenSideCastle()
      modifies this
      ensures hash == Xor(old(hash), keys.blackQueenCastle)
    {
      hash := Xor(hash, keys.blackQueenCastle);
    }

    /** `update_hash_on_white_lose_rook_side_castle`. */
    method UpdateHashOnWhiteLoseRookSideCastle()
      modifies this
      ensures hash == Xor(old(hash), keys.whiteKingCastle)
    {
      hash := Xor(hash, keys.whiteKingCastle);
    }

    /** `update_hash_on_white_lose_queen_side_castle`. */
    method UpdateHashOnWhiteLoseQueenSideCastle()
      modifies this
      ensures hash == Xor(old(hash), keys.whiteQueenCastle)
    {
      hash := Xor(hash, keys.whiteQueenCastle);
    }

    /** The state part of `compute_hash`. */
    method StateKeys(p: Position) returns (acc: Bits)
      ensures acc == StateHash(keys, p)
    {
      acc := XorIf({}, p.whiteMove, keys.whiteToMove);
      XorZeroLeft(KeyIf(p.whiteMove, keys.whiteToMove));
      acc := XorIf(acc, p.blackKingCastle, keys.blackKingCastle);
      acc := XorIf(acc, p.blackQueenCastle, keys.blackQueenCastle);
      acc := XorIf(acc, p.blackEnPassant != INVALID_BOARD_POSITION, keys.blackEnPassant);
      acc := XorIf(acc, p.whiteKingCastle, keys.whiteKingCastle);
      acc := XorIf(acc, p.whiteQueenCastle, keys.whiteQueenCastle);
      acc := XorIf(acc, p.whiteEnPassant != INVALID_BOARD_POSITION, keys.whiteEnPassant);
    }

    /** `compute_hash`: the hash of the position from scratch, stored and returned. */
    method ComputeHash(p: Position) returns (h: Bits)
      requires Valid() && HashableSquares(pieceIndex, p.squares)
      modifies this
      ensures h == hash == PositionHash(keys, pieceIndex, p)
    {
      var acc := StateKeys(p);
      ghost var state := acc;
      for square := 0 to 64
        invariant acc == Xor(state, SquaresHash(keys, pieceIndex, p.squares, square))
      {
        var code := p.squares[square];
        XorAssoc(state, SquaresHash(keys, pieceIndex, p.squares, square), SquareKey(keys, pieceIndex, square, code));
        if code != 0 {
          acc := Xor(acc, keys.table[square][pieceIndex(code)]);
        } else {
          XorZero(acc);
        }
      }
      hash := acc;
      return acc;
    }
  }

  /** `if held { hash ^= key }`. */
  method XorIf(hash: Bits, held: bool, key: Bits) returns (r: Bits)
    ensures r == Xor(hash, KeyIf(held, key))
  {
    r := hash;
    if held {
      r := Xor(r, key);
    } else {
      XorZero(r);
    }
  }

  /** A move update applied twice with the same arguments restores the hash. */
  method MoveTwiceRestores(z: Zobrist, from: nat, to: nat, moved: int, captured: int)
    requires z.Valid() && from < 64 && to < 64
    requires Column(z.pieceIndex, moved) && Hashable(z.pieceIndex, captured)
    modifies z
    ensures z.hash == old(z.hash)
  {
    z.UpdateHashOnMove(from, to, moved, captured);
    z.UpdateHashOnMove(from, to, moved, captured);
    XorTwice(old(z.hash), MoveDelta(z.keys, z.pieceIndex, from, to, moved, captured));
  }
}
