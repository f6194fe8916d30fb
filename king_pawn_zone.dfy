// `get_king_relevant_squares_related_to_enemy_pawns`: the squares round
// the king from which enemy pawns matter to the king's safety.
module KingZone {
  import opened Bitwise

  // ---------------------------------------------------------------
  // The king's pawn zone
  // ---------------------------------------------------------------

  /** `b` spread one and two files to each side, without wrapping round the board. */
  function FileSpread(b: bv64): bv64
  {
    b | WestOne(b) | WestOne(WestOne(b)) | EastOne(b) | EastOne(EastOne(b))
  }

  /**
   * The chains the source accumulates, section by section: the king's own
   * rank (two west, two east), one rank up (north, north-west and one
   * further west, north-east and one further east), two ranks up, one rank
   * down and two ranks down.
   */
  function SameRank(b: bv64): bv64 { WestOne(b) | WestOne(WestOne(b)) | EastOne(b) | EastOne(EastOne(b)) }

  function OneUp(b: bv64): bv64 { NorthOne(b) | NoWeOne(b) | WestOne(NoWeOne(b)) | NoEaOne(b) | EastOne(NoEaOne(b)) }

  function TwoUp(b: bv64): bv64
  {
    var n2 := NorthOne(NorthOne(b));
    n2 | WestOne(n2) | WestOne(WestOne(n2)) | EastOne(n2) | EastOne(EastOne(n2))
  }

  function OneDown(b: bv64): bv64 { SouthOne(b) | SoWeOne(b) | WestOne(SoWeOne(b)) | SoEaOne(b) | EastOne(SoEaOne(b)) }

  function TwoDown(b: bv64): bv64
  {
    var s2 := SouthOne(SouthOne(b));
    s2 | WestOne(s2) | WestOne(WestOne(s2)) | EastOne(s2) | EastOne(EastOne(s2))
  }

  /**
   * `get_king_relevant_squares_related_to_enemy_pawns`: every square the
   * source ORs into `positions`, section by section.
   */
  function KingPawnZone(initialPos: bv64): (positions: bv64)
  {
    SameRank(initialPos) | OneUp(initialPos) | TwoUp(initialPos) | OneDown(initialPos) | TwoDown(initialPos)
  }
}

// What the zone is, row by row, and that it leaves out the king itself.
module KingZoneFacts {
  import opened Bitwise
  import opened KingZone

  lemma SameRankSpread(b: bv64) ensures SameRank(b) | b == FileSpread(b) { }
  lemma OneUpSpread(b: bv64) ensures OneUp(b) == FileSpread(NorthOne(b))
  {
    NorthWest(b);
    NorthEast(b);
  }

  // A diagonal step is a step across the ranks and then along the rank.
  lemma NorthWest(b: bv64) ensures NoWeOne(b) == WestOne(NorthOne(b)) { }
  lemma NorthEast(b: bv64) ensures NoEaOne(b) == EastOne(NorthOne(b)) { }
  lemma SouthWest(b: bv64) ensures SoWeOne(b) == WestOne(SouthOne(b)) { }
  lemma SouthEast(b: bv64) ensures SoEaOne(b) == EastOne(SouthOne(b)) { }
  lemma OneDownSpread(b: bv64) ensures OneDown(b) == FileSpread(SouthOne(b))
  {
    SouthWest(b);
    SouthEast(b);
  }
  lemma TwoUpSpread(b: bv64) ensures TwoUp(b) == NorthOne(NorthOne(FileSpread(b))) { }
  lemma TwoDownSpread(b: bv64) ensures TwoDown(b) == SouthOne(SouthOne(FileSpread(b))) { }

  /**
   * Section by section, the zone is the king's squares spread two files each
   * way (less the king's squares on its own rank), then that spread moved
   * one and two ranks up and down: the 5x5 box round the king, cut off at
   * the edges of the board rather than wrapped round them.
   */
  lemma KingPawnZoneRows(b: bv64)
    ensures SameRank(b) | b == FileSpread(b)
    ensures OneUp(b) == FileSpread(NorthOne(b)) && TwoUp(b) == NorthOne(NorthOne(FileSpread(b)))
    ensures OneDown(b) == FileSpread(SouthOne(b)) && TwoDown(b) == SouthOne(SouthOne(FileSpread(b)))
  {
    SameRankSpread(b);
    OneUpSpread(b);
    TwoUpSpread(b);
    OneDownSpread(b);
    TwoDownSpread(b);
  }

  lemma SameRankAvoids(b: bv64) requires b & (b - 1) == 0 ensures SameRank(b) & b == 0 { }
  lemma OneUpAvoids(b: bv64) requires b & (b - 1) == 0 ensures OneUp(b) & b == 0 { }
  lemma TwoUpAvoids(b: bv64) requires b & (b - 1) == 0 ensures TwoUp(b) & b == 0 { }
  lemma OneDownAvoids(b: bv64) requires b & (b - 1) == 0 ensures OneDown(b) & b == 0 { }
  lemma TwoDownAvoids(b: bv64) requires b & (b - 1) == 0 ensures TwoDown(b) & b == 0 { }

  /** For a single king square no section comes back to the king's square. */
  lemma KingPawnZoneAvoidsKing(b: bv64)
    requires b & (b - 1) == 0
    ensures SameRank(b) & b == 0 && OneUp(b) & b == 0 && TwoUp(b) & b == 0
    ensures OneDown(b) & b == 0 && TwoDown(b) & b == 0
  {
    SameRankAvoids(b);
    OneUpAvoids(b);
    TwoUpAvoids(b);
    OneDownAvoids(b);
    TwoDownAvoids(b);
  }

  /** The zone of a king on e4 and of a king in the corner a1. */
  lemma KingPawnZoneExamples()
    ensures KingPawnZone(SquareBit(28)) == 0x0000_7c7c_6c7c_7c00
    ensures KingPawnZone(SquareBit(0)) == 0x0000_0000_0007_0706
  {
  }
}
