// `common/piece_move.rs`: the array engine's move record, its constructor,
// its notation-blind equality, its setters and its map deserialiser.
module PieceMoves {
  import opened Wrappers
  import PieceCodes
  import MailboxSquares

  predicate IsI8(x: int) { -128 <= x <= 127 }
  predicate IsU8(x: int) { 0 <= x <= 255 }
  predicate IsI32(x: int) { -0x8000_0000 <= x < 0x8000_0000 }

  /** A move as the engine and the web client exchange it. */
  datatype PieceMove = PieceMove(
    capture: bool,
    castle: bool,
    fromPosition: int,
    enPassant: bool,
    notation: string,
    moveWorth: int,
    pieceValue: int,
    putsKingInCheck: bool,
    promotion: bool,
    promotionType: int,
    toPosition: int)

  /** The field widths of the record: `i8` squares, `i32` worth, `u8` codes. */
  ghost predicate InRange(m: PieceMove)
  {
    IsI8(m.fromPosition) && IsI8(m.toPosition) && IsI32(m.moveWorth)
    && IsU8(m.pieceValue) && IsU8(m.promotionType)
  }

  /** `PieceMove::new`: a plain move, no flags, worth 0, no promotion type and no notation. */
  function New(fromPosition: int, pieceValue: int, toPosition: int): (m: PieceMove)
    requires IsI8(fromPosition) && IsU8(pieceValue) && IsI8(toPosition)
    ensures InRange(m)
    ensures m.fromPosition == fromPosition && m.pieceValue == pieceValue && m.toPosition == toPosition
    ensures !m.capture && !m.castle && !m.enPassant && !m.putsKingInCheck && !m.promotion
    ensures m.moveWorth == 0 && m.promotionType == PieceCodes.EMPTY_PIECE && m.notation == ""
  {
    PieceMove(false, false, fromPosition, false, "", 0, pieceValue, false, false, PieceCodes.EMPTY_PIECE, toPosition)
  }

  /** The inherent `eq`: every field except `notation`. */
  predicate Eq(m: PieceMove, other: PieceMove)
  {
    m.fromPosition == other.fromPosition
    && m.capture == other.capture
    && m.castle == other.castle
    && m.enPassant == other.enPassant
    && m.promotion == other.promotion
    && m.moveWorth == other.moveWorth
    && m.putsKingInCheck == other.putsKingInCheck
    && m.pieceValue == other.pieceValue
    && m.promotionType == other.promotionType
    && m.toPosition == other.toPosition
  }

  /**
   * `eq` is an equivalence that ignores the notation: it is the derived
   * `==` (which compares every field) with `notation` left out.
   */
  lemma EqIsNotationBlind(a: PieceMove, b: PieceMove, c: PieceMove, s: string)
    ensures Eq(a, a)
    ensures Eq(a, b) ==> Eq(b, a)
    ensures Eq(a, b) && Eq(b, c) ==> Eq(a, c)
    ensures Eq(a, a.(notation := s))
    ensures Eq(a, b) <==> a.(notation := "") == b.(notation := "")
  {
  }

  /** `set_puts_king_in_check`. */
  function SetPutsKingInCheck(m: PieceMove, putsKingInCheck: bool): (r: PieceMove)
    ensures r.putsKingInCheck == putsKingInCheck && r.(putsKingInCheck := m.putsKingInCheck) == m
  {
    m.(putsKingInCheck := putsKingInCheck)
  }

  /** `set_is_capture`. */
  function SetIsCapture(m: PieceMove, isCapture: bool): (r: PieceMove)
    ensures r.capture == isCapture && r.(capture := m.capture) == m
  {
    m.(capture := isCapture)
  }

  /** `set_is_en_passant`. */
  function SetIsEnPassant(m: PieceMove, isEnPassant: bool): (r: PieceMove)
    ensures r.enPassant == isEnPassant && r.(enPassant := m.enPassant) == m
  {
    m.(enPassant := isEnPassant)
  }

  /** `set_is_promotion`. */
  function SetIsPromotion(m: PieceMove, isPromotion: bool): (r: PieceMove)
    ensures r.promotion == isPromotion && r.(promotion := m.promotion) == m
  {
    m.(promotion := isPromotion)
  }

  /** `set_promotion_value`. */
  function SetPromotionValue(m: PieceMove, promotionType: int): (r: PieceMove)
    requires IsU8(promotionType)
    ensures r.promotionType == promotionType && r.(promotionType := m.promotionType) == m
    ensures InRange(m) ==> InRange(r)
  {
    m.(promotionType := promotionType)
  }

  /** A setter given the value the field already holds changes nothing; two setters of different fields commute. */
  lemma SettersCommute(m: PieceMove, c: bool, p: bool)
    ensures SetIsCapture(m, m.capture) == m && SetIsPromotion(m, m.promotion) == m
    ensures SetIsCapture(SetIsPromotion(m, p), c) == SetIsPromotion(SetIsCapture(m, c), p)
  {
  }

  /** `i32` addition as a release build performs it: two's-complement wrap-around. */
  function WrapI32(x: int): (r: int)
    ensures IsI32(r) && (r - x) % 0x1_0000_0000 == 0
    ensures IsI32(x) ==> r == x
  {
    (x + 0x8000_0000) % 0x1_0000_0000 - 0x8000_0000
  }

  /** `sum_to_move_worth`: adds to the worth and touches nothing else. */
  function SumToMoveWorth(m: PieceMove, value: int): (r: PieceMove)
    requires IsI32(value)
    ensures r.(moveWorth := m.moveWorth) == m
    ensures IsI32(m.moveWorth + value) ==> r.moveWorth == m.moveWorth + value
    ensures IsI32(r.moveWorth)
  {
    m.(moveWorth := WrapI32(m.moveWorth + value))
  }

  /** Worth added in two steps is worth added at once, while no sum overflows. */
  lemma SumToMoveWorthAdds(m: PieceMove, a: int, b: int)
    requires IsI32(a) && IsI32(b) && IsI32(a + b)
    requires IsI32(m.moveWorth) && IsI32(m.moveWorth + a) && IsI32(m.moveWorth + a + b)
    ensures SumToMoveWorth(SumToMoveWorth(m, a), b) == SumToMoveWorth(m, a + b)
    ensures Eq(SumToMoveWorth(m, 0), m)
  {
  }

  /** `get_notation`: the from and to square names, four characters. */
  function GetNotation(m: PieceMove): (s: string)
    requires 0 <= m.fromPosition < 64 && 0 <= m.toPosition < 64
    ensures |s| == 4
    ensures s[..2] == MailboxSquares.GetPositionNotation(m.fromPosition)
    ensures s[2..] == MailboxSquares.GetPositionNotation(m.toPosition)
  {
    MailboxSquares.GetMoveNotation(m.fromPosition, m.toPosition)
  }

  // ---------------------------------------------------------------------
  // Deserialisation from a map of named values.

  /** A value as the map format carries it. */
  datatype Value = Bool(b: bool) | Number(n: int) | Text(s: string)

  /**
   * A key of the map: one of the eleven names the deserialiser matches
   * (`"castle"`, `"fromPosition"`, ...), or any other text.
   */
  datatype Key =
    | Castle | FromPosition | Capture | EnPassant | Promotion | MoveWorth
    | PieceValue | PutsKingInCheck | PromotionType | ToPosition | Notation
    | Unknown(name: string)

  /** The name each known key is matched by. */
  function KeyName(k: Key): (name: string)
  {
    match k
    case Castle => "castle"
    case FromPosition => "fromPosition"
    case Capture => "capture"
    case EnPassant => "enPassant"
    case Promotion => "promotion"
    case MoveWorth => "moveWorth"
    case PieceValue => "pieceValue"
    case PutsKingInCheck => "putsKingInCheck"
    case PromotionType => "promotionType"
    case ToPosition => "toPosition"
    case Notation => "notation"
    case Unknown(name) => name
  }

  /** Whether `next_value` can read `v` as the type of the slot `key` fills. */
  predicate Fits(key: Key, v: Value)
  {
    match key
    case Castle | Capture | EnPassant | Promotion | PutsKingInCheck => v.Bool?
    case FromPosition | ToPosition => v.Number? && IsI8(v.n)
    case PieceValue | PromotionType => v.Number? && IsU8(v.n)
    case MoveWorth => v.Number? && IsI32(v.n)
    case Notation => v.Text?
    case Unknown(_) => false
  }

  /**
   * One turn of the key loop: a known key whose value reads fills (or
   * refills) its slot, and a known key whose value does not read aborts.
   * Any other key aborts too: its arm never calls `next_value`, so the
   * JSON reader behind `web::Json` meets the key's `:` where it expects
   * `,` or `}` when the loop asks for the next key.
   */
  function Accept(slots: map<Key, Value>, key: Key, v: Value): (r: Result<map<Key, Value>>)
  {
    if key.Unknown? then Err("expected `,` or `}`")
    else if Fits(key, v) then Ok(slots[key := v])
    else Err("invalid type for " + KeyName(key))
  }

  /** Every slot belongs to a known key and holds a value that key reads as. */
  predicate WellTyped(slots: map<Key, Value>)
  {
    forall k :: k in slots ==> !k.Unknown? && Fits(k, slots[k])
  }

  /** The slots after reading every entry in order. */
  function Fill(entries: seq<(Key, Value)>): (r: Result<map<Key, Value>>)
    ensures r.Ok? ==> WellTyped(r.value)
  {
    if entries == [] then Ok(map[])
    else
      var last := entries[|entries| - 1];
      match Fill(entries[..|entries| - 1])
      case Err(e) => Err(e)
      case Ok(slots) => Accept(slots, last.0, last.1)
  }

  /** The value of the last entry under `key`, if any. */
  function LastValue(entries: seq<(Key, Value)>, key: Key): (r: Option<Value>)
    ensures r.Some? <==> exists i :: 0 <= i < |entries| && entries[i].0 == key
  {
    if entries == [] then None
    else if entries[|entries| - 1].0 == key then Some(entries[|entries| - 1].1)
    else LastValue(entries[..|entries| - 1], key)
  }

  /** The entry at `i` is the last under its key, so its value is the one that counts. */
  lemma {:induction false} LastOccurrence(entries: seq<(Key, Value)>, i: nat, k: Key)
    requires i < |entries| && entries[i].0 == k
    requires forall j :: i < j < |entries| ==> entries[j].0 != k
    ensures LastValue(entries, k) == Some(entries[i].1)
  {
    if i < |entries| - 1 {
      LastOccurrence(entries[..|entries| - 1], i, k);
    }
  }

  /** Every entry is under a known key and holds a value that reads. */
  predicate AllFit(entries: seq<(Key, Value)>)
  {
    forall i :: 0 <= i < |entries| ==> Fits(entries[i].0, entries[i].1)
  }

  /** Filling fails exactly when some key is unknown or carries a value that does not read. */
  lemma {:induction false} FillFails(entries: seq<(Key, Value)>)
    ensures Fill(entries).Ok? <==> AllFit(entries)
  {
    if entries != [] {
      var front := entries[..|entries| - 1];
      FillFails(front);
      assert forall i :: 0 <= i < |front| ==> front[i] == entries[i];
    }
  }

  /** When filling succeeds, each known key's slot holds its last value, and only keys that occur have one. */
  lemma {:induction false} FillSlots(entries: seq<(Key, Value)>, k: Key)
    requires Fill(entries).Ok? && !k.Unknown?
    ensures k in Fill(entries).value <==> LastValue(entries, k).Some?
    ensures k in Fill(entries).value ==> Fill(entries).value[k] == LastValue(entries, k).value
  {
    if entries != [] {
      FillSlots(entries[..|entries| - 1], k);
    }
  }

  /** Once filling has failed, reading more entries keeps the same error. */
  lemma {:induction false} FillAbortStays(entries: seq<(Key, Value)>, i: nat)
    requires i <= |entries| && Fill(entries[..i]).Err?
    ensures Fill(entries) == Fill(entries[..i])
    decreases |entries| - i
  {
    if i < |entries| {
      assert entries[..i + 1][..i] == entries[..i];
      FillAbortStays(entries, i + 1);
    } else {
      assert entries[..i] == entries;
    }
  }

  /** A key the deserialiser does not know, wherever it appears, makes filling fail. */
  lemma UnknownKeyAborts(entries: seq<(Key, Value)>, i: nat, name: string, v: Value)
    requires i <= |entries|
    ensures Fill(entries[..i] + [(Unknown(name), v)] + entries[i..]).Err?
  {
    var longer := entries[..i] + [(Unknown(name), v)] + entries[i..];
    assert longer[i] == (Unknown(name), v);
    FillFails(longer);
  }

  /** The value a move shows under each known key. */
  function FieldValue(m: PieceMove, key: Key): (v: Option<Value>)
    ensures v.Some? <==> !key.Unknown?
  {
    match key
    case Capture => Some(Bool(m.capture))
    case Castle => Some(Bool(m.castle))
    case EnPassant => Some(Bool(m.enPassant))
    case FromPosition => Some(Number(m.fromPosition))
    case Notation => Some(Text(m.notation))
    case PutsKingInCheck => Some(Bool(m.putsKingInCheck))
    case MoveWorth => Some(Number(m.moveWorth))
    case PieceValue => Some(Number(m.pieceValue))
    case Promotion => Some(Bool(m.promotion))
    case PromotionType => Some(Number(m.promotionType))
    case ToPosition => Some(Number(m.toPosition))
    case Unknown(_) => None
  }

  /** The eleven keys show every field, so two moves that agree on all keys are equal. */
  lemma FieldsDetermine(m: PieceMove, n: PieceMove)
    requires forall k: Key :: !k.Unknown? ==> FieldValue(m, k) == FieldValue(n, k)
    ensures m == n
  {
    assert FieldValue(m, Capture) == FieldValue(n, Capture);
    assert FieldValue(m, Castle) == FieldValue(n, Castle);
    assert FieldValue(m, EnPassant) == FieldValue(n, EnPassant);
    assert FieldValue(m, FromPosition) == FieldValue(n, FromPosition);
    assert FieldValue(m, Notation) == FieldValue(n, Notation);
    assert FieldValue(m, PutsKingInCheck) == FieldValue(n, PutsKingInCheck);
    assert FieldValue(m, MoveWorth) == FieldValue(n, MoveWorth);
    assert FieldValue(m, PieceValue) == FieldValue(n, PieceValue);
    assert FieldValue(m, Promotion) == FieldValue(n, Promotion);
    assert FieldValue(m, PromotionType) == FieldValue(n, PromotionType);
    assert FieldValue(m, ToPosition) == FieldValue(n, ToPosition);
  }

  /** The missing-field checks, slot by slot in the order the source writes them. */
  function Finish(slots: map<Key, Value>): (r: Result<PieceMove>)
    requires WellTyped(slots)
  {
    if Castle !in slots then Err("castle")
    else if FromPosition !in slots then Err("from_position")
    else if Capture !in slots then Err("capture")
    else if EnPassant !in slots then Err("en_passant")
    else if Notation !in slots then Err("notation")
    else if Promotion !in slots then Err("promotion")
    else if PutsKingInCheck !in slots then Err("puts_king_in_check")
    else if MoveWorth !in slots then Err("move_worth")
    else if PieceValue !in slots then Err("piece_value")
    else if PromotionType !in slots then Err("promotion_type")
    else if ToPosition !in slots then Err("to_position")
    else Ok(PieceMove(
      capture := slots[Capture].b,
      castle := slots[Castle].b,
      fromPosition := slots[FromPosition].n,
      enPassant := slots[EnPassant].b,
      notation := slots[Notation].s,
      moveWorth := slots[MoveWorth].n,
      pieceValue := slots[PieceValue].n,
      putsKingInCheck := slots[PutsKingInCheck].b,
      promotion := slots[Promotion].b,
      promotionType := slots[PromotionType].n,
      toPosition := slots[ToPosition].n))
  }

  /** The checks pass exactly when every known key has a slot, and the record then shows each slot's value. */
  lemma FinishFields(slots: map<Key, Value>)
    requires WellTyped(slots)
    ensures Finish(slots).Ok? <==> forall k: Key :: !k.Unknown? ==> k in slots
    ensures Finish(slots).Ok? ==> InRange(Finish(slots).value)
    ensures Finish(slots).Ok? ==> forall k: Key :: !k.Unknown? ==> FieldValue(Finish(slots).value, k) == Some(slots[k])
  {
  }

  /** What `visit_map` produces from the entries. */
  function Deserialized(entries: seq<(Key, Value)>): (r: Result<PieceMove>)
  {
    match Fill(entries)
    case Err(e) => Err(e)
    case Ok(slots) => Finish(slots)
  }

  /** Every one of the eleven keys occurs. */
  ghost predicate AllKeysPresent(entries: seq<(Key, Value)>)
  {
    forall k: Key :: !k.Unknown? ==> LastValue(entries, k).Some?
  }

  /**
   * Deserialisation succeeds exactly when all eleven keys are present and
   * every known key's values read; the record then holds each key's last
   * value, within the field widths.
   */
  lemma DeserializeSucceeds(entries: seq<(Key, Value)>)
    ensures Deserialized(entries).Ok? <==> AllFit(entries) && AllKeysPresent(entries)
    ensures Deserialized(entries).Ok? ==> InRange(Deserialized(entries).value)
    ensures Deserialized(entries).Ok? ==>
      forall k: Key :: !k.Unknown? ==> FieldValue(Deserialized(entries).value, k) == LastValue(entries, k)
  {
    FillFails(entries);
    if Fill(entries).Ok? {
      var slots := Fill(entries).value;
      forall k: Key | !k.Unknown?
        ensures k in slots <==> LastValue(entries, k).Some?
        ensures k in slots ==> slots[k] == LastValue(entries, k).value
      {
        FillSlots(entries, k);
      }
      FinishFields(slots);
    }
  }

  /** A request whose move carries a key the deserialiser does not know is refused. */
  lemma DeserializeRejectsUnknown(entries: seq<(Key, Value)>, i: nat, name: string, v: Value)
    requires i <= |entries|
    ensures Deserialized(entries[..i] + [(Unknown(name), v)] + entries[i..]).Err?
  {
    UnknownKeyAborts(entries, i, name, v);
  }

  /**
   * `visit_map`: the loop fills one slot per known key, and the missing-field
   * checks follow.
   */
  method VisitMap(entries: seq<(Key, Value)>) returns (r: Result<PieceMove>)
    ensures r == Deserialized(entries)
  {
    var slots: map<Key, Value> := map[];
    var i := 0;
    while i < |entries|
      invariant i <= |entries|
      invariant Fill(entries[..i]) == Ok(slots)
    {
      var (key, v) := entries[i];
      assert entries[..i + 1][..i] == entries[..i];
      if key.Unknown? || !Fits(key, v) {
        r := if key.Unknown? then Err("expected `,` or `}`") else Err("invalid type for " + KeyName(key));
        FillAbortStays(entries, i + 1);
        assert entries[..|entries|] == entries;
        return;
      }
      slots := slots[key := v];
      i := i + 1;
    }
    assert entries[..i] == entries;
    r := Finish(slots);
  }

  /** The entries `serialize` writes, in its order; the notation is recomputed from the squares. */
  function Serialized(m: PieceMove): (entries: seq<(Key, Value)>)
    requires 0 <= m.fromPosition < 64 && 0 <= m.toPosition < 64
    ensures |entries| == 11
  {
    [(Capture, Bool(m.capture)), (Castle, Bool(m.castle)), (EnPassant, Bool(m.enPassant)),
     (FromPosition, Number(m.fromPosition)), (Notation, Text(GetNotation(m))),
     (PutsKingInCheck, Bool(m.putsKingInCheck)), (MoveWorth, Number(m.moveWorth)),
     (PieceValue, Number(m.pieceValue)), (Promotion, Bool(m.promotion)),
     (PromotionType, Number(m.promotionType)), (ToPosition, Number(m.toPosition))]
  }

  /** Every serialised value reads as its key's type. */
  lemma SerializedFits(m: PieceMove)
    requires InRange(m) && 0 <= m.fromPosition < 64 && 0 <= m.toPosition < 64
    ensures AllFit(Serialized(m))
  {
  }

  /** Each key occurs in the serialised entries, last with the field it names. */
  lemma SerializedShowsFields(m: PieceMove)
    requires 0 <= m.fromPosition < 64 && 0 <= m.toPosition < 64
    ensures forall k: Key :: !k.Unknown? ==> LastValue(Serialized(m), k) == FieldValue(m.(notation := GetNotation(m)), k)
  {
    var entries := Serialized(m);
    forall k: Key | !k.Unknown?
      ensures LastValue(entries, k) == FieldValue(m.(notation := GetNotation(m)), k)
    {
      var i := match k
        case Capture => 0 case Castle => 1 case EnPassant => 2 case FromPosition => 3
        case Notation => 4 case PutsKingInCheck => 5 case MoveWorth => 6 case PieceValue => 7
        case Promotion => 8 case PromotionType => 9 case _ => 10;
      LastOccurrence(entries, i, k);
    }
  }

  /**
   * A move serialised and read back is the same move with its notation
   * recomputed, so it is `eq` to the original.
   */
  lemma RoundTrip(m: PieceMove)
    requires InRange(m) && 0 <= m.fromPosition < 64 && 0 <= m.toPosition < 64
    ensures Deserialized(Serialized(m)) == Ok(m.(notation := GetNotation(m)))
    ensures Eq(Deserialized(Serialized(m)).value, m)
  {
    SerializedFits(m);
    SerializedShowsFields(m);
    DeserializeSucceeds(Serialized(m));
    FieldsDetermine(Deserialized(Serialized(m)).value, m.(notation := GetNotation(m)));
  }
}
