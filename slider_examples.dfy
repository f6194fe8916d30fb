// The generator's own expectations for the sliding pieces, worked through
// square by square on the specification functions.
module SliderExamples {
  import opened Bitwise
  import opened Sliders

  /** A bishop on d1, on an empty board and with enemies on b3 and a4 and a friendly piece on d2. */
  lemma BishopOnD1()
    ensures BishopMoves(0x0, 0x0, 0x8) == 0x8041221400
    ensures BishopMoves(0x1020000, 0x800, 0x8) == 0x8040221400
  {
    BishopOnD1Ray1();
    assert Walk(SoWeOne, 0x0, 0x0, 0x0, 8, 0x1020400) == 0x1020400;
    assert Walk(SoEaOne, 0x0, 0x0, 0x0, 8, 0x1020400) == 0x1020400;
    BishopOnD1Ray2();
    assert Slide(BISHOP_STEPS[1..][1..][1..][1..], 0x0, 0x0, 0x8, 0x8041221400) == 0x8041221400;
    assert Slide(BISHOP_STEPS[1..][1..][1..], 0x0, 0x0, 0x8, 0x1020400) == 0x8041221400;
    assert Slide(BISHOP_STEPS[1..][1..], 0x0, 0x0, 0x8, 0x1020400) == 0x8041221400;
    assert Slide(BISHOP_STEPS[1..], 0x0, 0x0, 0x8, 0x1020400) == 0x8041221400;
    assert Slide(BISHOP_STEPS, 0x0, 0x0, 0x8, 0x0) == 0x8041221400;
    BishopOnD1Ray3();
    assert Walk(SoWeOne, 0x0, 0x1020000, 0x800, 8, 0x20400) == 0x20400;
    assert Walk(SoEaOne, 0x0, 0x1020000, 0x800, 8, 0x20400) == 0x20400;
    BishopOnD1Ray4();
    assert Slide(BISHOP_STEPS[1..][1..][1..][1..], 0x1020000, 0x800, 0x8, 0x8040221400) == 0x8040221400;
    assert Slide(BISHOP_STEPS[1..][1..][1..], 0x1020000, 0x800, 0x8, 0x20400) == 0x8040221400;
    assert Slide(BISHOP_STEPS[1..][1..], 0x1020000, 0x800, 0x8, 0x20400) == 0x8040221400;
    assert Slide(BISHOP_STEPS[1..], 0x1020000, 0x800, 0x8, 0x20400) == 0x8040221400;
    assert Slide(BISHOP_STEPS, 0x1020000, 0x800, 0x8, 0x0) == 0x8040221400;
  }

  /** A rook on d1, on an empty board and with enemies on b3 and a4 and a friendly piece on d2. */
  lemma RookOnD1()
    ensures RookMoves(0x0, 0x0, 0x8) == 0x8080808080808F7
    ensures RookMoves(0x1020000, 0x800, 0x8) == 0xF7
  {
    RookOnD1Ray1();
    assert Walk(SouthOne, 0x0, 0x0, 0x0, 8, 0x808080808080800) == 0x808080808080800;
    RookOnD1Ray2();
    RookOnD1Ray3();
    assert Slide(ROOK_STEPS[1..][1..][1..][1..], 0x0, 0x0, 0x8, 0x8080808080808F7) == 0x8080808080808F7;
    assert Slide(ROOK_STEPS[1..][1..][1..], 0x0, 0x0, 0x8, 0x808080808080807) == 0x8080808080808F7;
    assert Slide(ROOK_STEPS[1..][1..], 0x0, 0x0, 0x8, 0x808080808080800) == 0x8080808080808F7;
    assert Slide(ROOK_STEPS[1..], 0x0, 0x0, 0x8, 0x808080808080800) == 0x8080808080808F7;
    assert Slide(ROOK_STEPS, 0x0, 0x0, 0x8, 0x0) == 0x8080808080808F7;
    assert Walk(NorthOne, 0x800, 0x1020000, 0x800, 8, 0x0) == 0x0;
    assert Walk(SouthOne, 0x0, 0x1020000, 0x800, 8, 0x0) == 0x0;
    RookOnD1Ray4();
    RookOnD1Ray5();
    assert Slide(ROOK_STEPS[1..][1..][1..][1..], 0x1020000, 0x800, 0x8, 0xF7) == 0xF7;
    assert Slide(ROOK_STEPS[1..][1..][1..], 0x1020000, 0x800, 0x8, 0x7) == 0xF7;
    assert Slide(ROOK_STEPS[1..][1..], 0x1020000, 0x800, 0x8, 0x0) == 0xF7;
    assert Slide(ROOK_STEPS[1..], 0x1020000, 0x800, 0x8, 0x0) == 0xF7;
    assert Slide(ROOK_STEPS, 0x1020000, 0x800, 0x8, 0x0) == 0xF7;
  }

  /** A queen on d1: the two expectations of the generator's own test. */
  lemma QueenOnD1()
    ensures QueenMoves(0x0, 0x0, 0x8) == 0x08080888492A1CF7
    ensures QueenMoves(0x1020000, 0x800, 0x8) == 0x00000080402214F7
  {
    BishopOnD1();
    RookOnD1();
  }

  /** A bishop on c1, on an empty board, with a friendly piece on d2 and with an enemy on d2. */
  lemma BishopOnC1()
    ensures BishopMoves(0x0, 0x0, 0x4) == 0x804020110A00
    ensures BishopMoves(0x0, 0x800, 0x4) == 0x10200
    ensures BishopMoves(0x800, 0x0, 0x4) == 0x10A00
  {
    BishopOnC1Ray1();
    assert Walk(SoWeOne, 0x0, 0x0, 0x0, 8, 0x10200) == 0x10200;
    assert Walk(SoEaOne, 0x0, 0x0, 0x0, 8, 0x10200) == 0x10200;
    BishopOnC1Ray2();
    assert Slide(BISHOP_STEPS[1..][1..][1..][1..], 0x0, 0x0, 0x4, 0x804020110A00) == 0x804020110A00;
    assert Slide(BISHOP_STEPS[1..][1..][1..], 0x0, 0x0, 0x4, 0x10200) == 0x804020110A00;
    assert Slide(BISHOP_STEPS[1..][1..], 0x0, 0x0, 0x4, 0x10200) == 0x804020110A00;
    assert Slide(BISHOP_STEPS[1..], 0x0, 0x0, 0x4, 0x10200) == 0x804020110A00;
    assert Slide(BISHOP_STEPS, 0x0, 0x0, 0x4, 0x0) == 0x804020110A00;
    BishopOnC1Ray3();
    assert Walk(SoWeOne, 0x0, 0x0, 0x800, 8, 0x10200) == 0x10200;
    assert Walk(SoEaOne, 0x0, 0x0, 0x800, 8, 0x10200) == 0x10200;
    assert Walk(NoEaOne, 0x800, 0x0, 0x800, 8, 0x10200) == 0x10200;
    assert Slide(BISHOP_STEPS[1..][1..][1..][1..], 0x0, 0x800, 0x4, 0x10200) == 0x10200;
    assert Slide(BISHOP_STEPS[1..][1..][1..], 0x0, 0x800, 0x4, 0x10200) == 0x10200;
    assert Slide(BISHOP_STEPS[1..][1..], 0x0, 0x800, 0x4, 0x10200) == 0x10200;
    assert Slide(BISHOP_STEPS[1..], 0x0, 0x800, 0x4, 0x10200) == 0x10200;
    assert Slide(BISHOP_STEPS, 0x0, 0x800, 0x4, 0x0) == 0x10200;
    BishopOnC1Ray4();
    assert Walk(SoWeOne, 0x0, 0x800, 0x0, 8, 0x10200) == 0x10200;
    assert Walk(SoEaOne, 0x0, 0x800, 0x0, 8, 0x10200) == 0x10200;
    assert Walk(NoEaOne, 0x800, 0x800, 0x0, 8, 0x10200) == 0x10A00;
    assert Slide(BISHOP_STEPS[1..][1..][1..][1..], 0x800, 0x0, 0x4, 0x10A00) == 0x10A00;
    assert Slide(BISHOP_STEPS[1..][1..][1..], 0x800, 0x0, 0x4, 0x10200) == 0x10A00;
    assert Slide(BISHOP_STEPS[1..][1..], 0x800, 0x0, 0x4, 0x10200) == 0x10A00;
    assert Slide(BISHOP_STEPS[1..], 0x800, 0x0, 0x4, 0x10200) == 0x10A00;
    assert Slide(BISHOP_STEPS, 0x800, 0x0, 0x4, 0x0) == 0x10A00;
  }

  /** A rook on a1 on an empty board. */
  lemma RookOnA1()
    ensures RookMoves(0x0, 0x0, 0x1) == 0x1010101010101FE
  {
    RookOnA1Ray1();
    assert Walk(SouthOne, 0x0, 0x0, 0x0, 8, 0x101010101010100) == 0x101010101010100;
    assert Walk(WestOne, 0x0, 0x0, 0x0, 8, 0x101010101010100) == 0x101010101010100;
    RookOnA1Ray2();
    assert Slide(ROOK_STEPS[1..][1..][1..][1..], 0x0, 0x0, 0x1, 0x1010101010101FE) == 0x1010101010101FE;
    assert Slide(ROOK_STEPS[1..][1..][1..], 0x0, 0x0, 0x1, 0x101010101010100) == 0x1010101010101FE;
    assert Slide(ROOK_STEPS[1..][1..], 0x0, 0x0, 0x1, 0x101010101010100) == 0x1010101010101FE;
    assert Slide(ROOK_STEPS[1..], 0x0, 0x0, 0x1, 0x101010101010100) == 0x1010101010101FE;
    assert Slide(ROOK_STEPS, 0x0, 0x0, 0x1, 0x0) == 0x1010101010101FE;
  }

  /** A rook on d5 below a full friendly rank 7 and rank 8. */
  lemma RookOnD5()
    ensures RookMoves(0x0, 0xFFFF000000000000, 0x800000000) == 0x8F708080808
  {
    RookOnD5Ray1();
    RookOnD5Ray2();
    RookOnD5Ray3();
    RookOnD5Ray4();
    assert Slide(ROOK_STEPS[1..][1..][1..][1..], 0x0, 0xFFFF000000000000, 0x800000000, 0x8F708080808) == 0x8F708080808;
    assert Slide(ROOK_STEPS[1..][1..][1..], 0x0, 0xFFFF000000000000, 0x800000000, 0x80708080808) == 0x8F708080808;
    assert Slide(ROOK_STEPS[1..][1..], 0x0, 0xFFFF000000000000, 0x800000000, 0x80008080808) == 0x8F708080808;
    assert Slide(ROOK_STEPS[1..], 0x0, 0xFFFF000000000000, 0x800000000, 0x80000000000) == 0x8F708080808;
    assert Slide(ROOK_STEPS, 0x0, 0xFFFF000000000000, 0x800000000, 0x0) == 0x8F708080808;
  }

  /** The same rook with enemies on ranks 1 to 3. */
  lemma RookOnD5Blocked()
    ensures RookMoves(0xFFF9F6, 0xFFFF000000000000, 0x800000000) == 0x8F708080000
  {
    RookOnD5BlockedRay1();
    RookOnD5BlockedRay2();
    RookOnD5BlockedRay3();
    RookOnD5BlockedRay4();
    assert Slide(ROOK_STEPS[1..][1..][1..][1..], 0xFFF9F6, 0xFFFF000000000000, 0x800000000, 0x8F708080000) == 0x8F708080000;
    assert Slide(ROOK_STEPS[1..][1..][1..], 0xFFF9F6, 0xFFFF000000000000, 0x800000000, 0x80708080000) == 0x8F708080000;
    assert Slide(ROOK_STEPS[1..][1..], 0xFFF9F6, 0xFFFF000000000000, 0x800000000, 0x80008080000) == 0x8F708080000;
    assert Slide(ROOK_STEPS[1..], 0xFFF9F6, 0xFFFF000000000000, 0x800000000, 0x80000000000) == 0x8F708080000;
    assert Slide(ROOK_STEPS, 0xFFF9F6, 0xFFFF000000000000, 0x800000000, 0x0) == 0x8F708080000;
  }

  // Single rays of the examples above, one walk each.

  lemma BishopOnD1Ray1()
    ensures Walk(NoWeOne, 0x400, 0x0, 0x0, 8, 0x0) == 0x1020400
  {
    assert Walk(NoWeOne, 0x0, 0x0, 0x0, 5, 0x1020400) == 0x1020400;
    assert Walk(NoWeOne, 0x1000000, 0x0, 0x0, 6, 0x20400) == 0x1020400;
    assert Walk(NoWeOne, 0x20000, 0x0, 0x0, 7, 0x400) == 0x1020400;
  }

  lemma BishopOnD1Ray2()
    ensures Walk(NoEaOne, 0x1000, 0x0, 0x0, 8, 0x1020400) == 0x8041221400
  {
    assert Walk(NoEaOne, 0x0, 0x0, 0x0, 4, 0x8041221400) == 0x8041221400;
    assert Walk(NoEaOne, 0x8000000000, 0x0, 0x0, 5, 0x41221400) == 0x8041221400;
    assert Walk(NoEaOne, 0x40000000, 0x0, 0x0, 6, 0x1221400) == 0x8041221400;
    assert Walk(NoEaOne, 0x200000, 0x0, 0x0, 7, 0x1021400) == 0x8041221400;
  }

  lemma BishopOnD1Ray3()
    ensures Walk(NoWeOne, 0x400, 0x1020000, 0x800, 8, 0x0) == 0x20400
  {
    assert Walk(NoWeOne, 0x20000, 0x1020000, 0x800, 7, 0x400) == 0x20400;
  }

  lemma BishopOnD1Ray4()
    ensures Walk(NoEaOne, 0x1000, 0x1020000, 0x800, 8, 0x20400) == 0x8040221400
  {
    assert Walk(NoEaOne, 0x0, 0x1020000, 0x800, 4, 0x8040221400) == 0x8040221400;
    assert Walk(NoEaOne, 0x8000000000, 0x1020000, 0x800, 5, 0x40221400) == 0x8040221400;
    assert Walk(NoEaOne, 0x40000000, 0x1020000, 0x800, 6, 0x221400) == 0x8040221400;
    assert Walk(NoEaOne, 0x200000, 0x1020000, 0x800, 7, 0x21400) == 0x8040221400;
  }

  lemma RookOnD1Ray1()
    ensures Walk(NorthOne, 0x800, 0x0, 0x0, 8, 0x0) == 0x808080808080800
  {
    assert Walk(NorthOne, 0x0, 0x0, 0x0, 1, 0x808080808080800) == 0x808080808080800;
    assert Walk(NorthOne, 0x800000000000000, 0x0, 0x0, 2, 0x8080808080800) == 0x808080808080800;
    assert Walk(NorthOne, 0x8000000000000, 0x0, 0x0, 3, 0x80808080800) == 0x808080808080800;
    assert Walk(NorthOne, 0x80000000000, 0x0, 0x0, 4, 0x808080800) == 0x808080808080800;
    assert Walk(NorthOne, 0x800000000, 0x0, 0x0, 5, 0x8080800) == 0x808080808080800;
    assert Walk(NorthOne, 0x8000000, 0x0, 0x0, 6, 0x80800) == 0x808080808080800;
    assert Walk(NorthOne, 0x80000, 0x0, 0x0, 7, 0x800) == 0x808080808080800;
  }

  lemma RookOnD1Ray2()
    ensures Walk(WestOne, 0x4, 0x0, 0x0, 8, 0x808080808080800) == 0x808080808080807
  {
    assert Walk(WestOne, 0x0, 0x0, 0x0, 5, 0x808080808080807) == 0x808080808080807;
    assert Walk(WestOne, 0x1, 0x0, 0x0, 6, 0x808080808080806) == 0x808080808080807;
    assert Walk(WestOne, 0x2, 0x0, 0x0, 7, 0x808080808080804) == 0x808080808080807;
  }

  lemma RookOnD1Ray3()
    ensures Walk(EastOne, 0x10, 0x0, 0x0, 8, 0x808080808080807) == 0x8080808080808F7
  {
    assert Walk(EastOne, 0x0, 0x0, 0x0, 4, 0x8080808080808F7) == 0x8080808080808F7;
    assert Walk(EastOne, 0x80, 0x0, 0x0, 5, 0x808080808080877) == 0x8080808080808F7;
    assert Walk(EastOne, 0x40, 0x0, 0x0, 6, 0x808080808080837) == 0x8080808080808F7;
    assert Walk(EastOne, 0x20, 0x0, 0x0, 7, 0x808080808080817) == 0x8080808080808F7;
  }

  lemma RookOnD1Ray4()
    ensures Walk(WestOne, 0x4, 0x1020000, 0x800, 8, 0x0) == 0x7
  {
    assert Walk(WestOne, 0x0, 0x1020000, 0x800, 5, 0x7) == 0x7;
    assert Walk(WestOne, 0x1, 0x1020000, 0x800, 6, 0x6) == 0x7;
    assert Walk(WestOne, 0x2, 0x1020000, 0x800, 7, 0x4) == 0x7;
  }

  lemma RookOnD1Ray5()
    ensures Walk(EastOne, 0x10, 0x1020000, 0x800, 8, 0x7) == 0xF7
  {
    assert Walk(EastOne, 0x0, 0x1020000, 0x800, 4, 0xF7) == 0xF7;
    assert Walk(EastOne, 0x80, 0x1020000, 0x800, 5, 0x77) == 0xF7;
    assert Walk(EastOne, 0x40, 0x1020000, 0x800, 6, 0x37) == 0xF7;
    assert Walk(EastOne, 0x20, 0x1020000, 0x800, 7, 0x17) == 0xF7;
  }

  lemma BishopOnC1Ray1()
    ensures Walk(NoWeOne, 0x200, 0x0, 0x0, 8, 0x0) == 0x10200
  {
    assert Walk(NoWeOne, 0x0, 0x0, 0x0, 6, 0x10200) == 0x10200;
    assert Walk(NoWeOne, 0x10000, 0x0, 0x0, 7, 0x200) == 0x10200;
  }

  lemma BishopOnC1Ray2()
    ensures Walk(NoEaOne, 0x800, 0x0, 0x0, 8, 0x10200) == 0x804020110A00
  {
    assert Walk(NoEaOne, 0x0, 0x0, 0x0, 3, 0x804020110A00) == 0x804020110A00;
    assert Walk(NoEaOne, 0x800000000000, 0x0, 0x0, 4, 0x4020110A00) == 0x804020110A00;
    assert Walk(NoEaOne, 0x4000000000, 0x0, 0x0, 5, 0x20110A00) == 0x804020110A00;
    assert Walk(NoEaOne, 0x20000000, 0x0, 0x0, 6, 0x110A00) == 0x804020110A00;
    assert Walk(NoEaOne, 0x100000, 0x0, 0x0, 7, 0x10A00) == 0x804020110A00;
  }

  lemma BishopOnC1Ray3()
    ensures Walk(NoWeOne, 0x200, 0x0, 0x800, 8, 0x0) == 0x10200
  {
    assert Walk(NoWeOne, 0x0, 0x0, 0x800, 6, 0x10200) == 0x10200;
    assert Walk(NoWeOne, 0x10000, 0x0, 0x800, 7, 0x200) == 0x10200;
  }

  lemma BishopOnC1Ray4()
    ensures Walk(NoWeOne, 0x200, 0x800, 0x0, 8, 0x0) == 0x10200
  {
    assert Walk(NoWeOne, 0x0, 0x800, 0x0, 6, 0x10200) == 0x10200;
    assert Walk(NoWeOne, 0x10000, 0x800, 0x0, 7, 0x200) == 0x10200;
  }

  lemma RookOnA1Ray1()
    ensures Walk(NorthOne, 0x100, 0x0, 0x0, 8, 0x0) == 0x101010101010100
  {
    assert Walk(NorthOne, 0x0, 0x0, 0x0, 1, 0x101010101010100) == 0x101010101010100;
    assert Walk(NorthOne, 0x100000000000000, 0x0, 0x0, 2, 0x1010101010100) == 0x101010101010100;
    assert Walk(NorthOne, 0x1000000000000, 0x0, 0x0, 3, 0x10101010100) == 0x101010101010100;
    assert Walk(NorthOne, 0x10000000000, 0x0, 0x0, 4, 0x101010100) == 0x101010101010100;
    assert Walk(NorthOne, 0x100000000, 0x0, 0x0, 5, 0x1010100) == 0x101010101010100;
    assert Walk(NorthOne, 0x1000000, 0x0, 0x0, 6, 0x10100) == 0x101010101010100;
    assert Walk(NorthOne, 0x10000, 0x0, 0x0, 7, 0x100) == 0x101010101010100;
  }

  lemma RookOnA1Ray2()
    ensures Walk(EastOne, 0x2, 0x0, 0x0, 8, 0x101010101010100) == 0x1010101010101FE
  {
    assert Walk(EastOne, 0x0, 0x0, 0x0, 1, 0x1010101010101FE) == 0x1010101010101FE;
    assert Walk(EastOne, 0x80, 0x0, 0x0, 2, 0x10101010101017E) == 0x1010101010101FE;
    assert Walk(EastOne, 0x40, 0x0, 0x0, 3, 0x10101010101013E) == 0x1010101010101FE;
    assert Walk(EastOne, 0x20, 0x0, 0x0, 4, 0x10101010101011E) == 0x1010101010101FE;
    assert Walk(EastOne, 0x10, 0x0, 0x0, 5, 0x10101010101010E) == 0x1010101010101FE;
    assert Walk(EastOne, 0x8, 0x0, 0x0, 6, 0x101010101010106) == 0x1010101010101FE;
    assert Walk(EastOne, 0x4, 0x0, 0x0, 7, 0x101010101010102) == 0x1010101010101FE;
  }

  lemma RookOnD5Ray1()
    ensures Walk(NorthOne, 0x80000000000, 0x0, 0xFFFF000000000000, 8, 0x0) == 0x80000000000
  {
    assert Walk(NorthOne, 0x8000000000000, 0x0, 0xFFFF000000000000, 7, 0x80000000000) == 0x80000000000;
  }

  lemma RookOnD5Ray2()
    ensures Walk(SouthOne, 0x8000000, 0x0, 0xFFFF000000000000, 8, 0x80000000000) == 0x80008080808
  {
    assert Walk(SouthOne, 0x0, 0x0, 0xFFFF000000000000, 4, 0x80008080808) == 0x80008080808;
    assert Walk(SouthOne, 0x8, 0x0, 0xFFFF000000000000, 5, 0x80008080800) == 0x80008080808;
    assert Walk(SouthOne, 0x800, 0x0, 0xFFFF000000000000, 6, 0x80008080000) == 0x80008080808;
    assert Walk(SouthOne, 0x80000, 0x0, 0xFFFF000000000000, 7, 0x80008000000) == 0x80008080808;
  }

  lemma RookOnD5Ray3()
    ensures Walk(WestOne, 0x400000000, 0x0, 0xFFFF000000000000, 8, 0x80008080808) == 0x80708080808
  {
    assert Walk(WestOne, 0x0, 0x0, 0xFFFF000000000000, 5, 0x80708080808) == 0x80708080808;
    assert Walk(WestOne, 0x100000000, 0x0, 0xFFFF000000000000, 6, 0x80608080808) == 0x80708080808;
    assert Walk(WestOne, 0x200000000, 0x0, 0xFFFF000000000000, 7, 0x80408080808) == 0x80708080808;
  }

  lemma RookOnD5Ray4()
    ensures Walk(EastOne, 0x1000000000, 0x0, 0xFFFF000000000000, 8, 0x80708080808) == 0x8F708080808
  {
    assert Walk(EastOne, 0x0, 0x0, 0xFFFF000000000000, 4, 0x8F708080808) == 0x8F708080808;
    assert Walk(EastOne, 0x8000000000, 0x0, 0xFFFF000000000000, 5, 0x87708080808) == 0x8F708080808;
    assert Walk(EastOne, 0x4000000000, 0x0, 0xFFFF000000000000, 6, 0x83708080808) == 0x8F708080808;
    assert Walk(EastOne, 0x2000000000, 0x0, 0xFFFF000000000000, 7, 0x81708080808) == 0x8F708080808;
  }

  lemma RookOnD5BlockedRay1()
    ensures Walk(NorthOne, 0x80000000000, 0xFFF9F6, 0xFFFF000000000000, 8, 0x0) == 0x80000000000
  {
    assert Walk(NorthOne, 0x8000000000000, 0xFFF9F6, 0xFFFF000000000000, 7, 0x80000000000) == 0x80000000000;
  }

  lemma RookOnD5BlockedRay2()
    ensures Walk(SouthOne, 0x8000000, 0xFFF9F6, 0xFFFF000000000000, 8, 0x80000000000) == 0x80008080000
  {
    assert Walk(SouthOne, 0x80000, 0xFFF9F6, 0xFFFF000000000000, 7, 0x80008000000) == 0x80008080000;
  }

  lemma RookOnD5BlockedRay3()
    ensures Walk(WestOne, 0x400000000, 0xFFF9F6, 0xFFFF000000000000, 8, 0x80008080000) == 0x80708080000
  {
    assert Walk(WestOne, 0x0, 0xFFF9F6, 0xFFFF000000000000, 5, 0x80708080000) == 0x80708080000;
    assert Walk(WestOne, 0x100000000, 0xFFF9F6, 0xFFFF000000000000, 6, 0x80608080000) == 0x80708080000;
    assert Walk(WestOne, 0x200000000, 0xFFF9F6, 0xFFFF000000000000, 7, 0x80408080000) == 0x80708080000;
  }

  lemma RookOnD5BlockedRay4()
    ensures Walk(EastOne, 0x1000000000, 0xFFF9F6, 0xFFFF000000000000, 8, 0x80708080000) == 0x8F708080000
  {
    assert Walk(EastOne, 0x0, 0xFFF9F6, 0xFFFF000000000000, 4, 0x8F708080000) == 0x8F708080000;
    assert Walk(EastOne, 0x8000000000, 0xFFF9F6, 0xFFFF000000000000, 5, 0x87708080000) == 0x8F708080000;
    assert Walk(EastOne, 0x4000000000, 0xFFF9F6, 0xFFFF000000000000, 6, 0x83708080000) == 0x8F708080000;
    assert Walk(EastOne, 0x2000000000, 0xFFF9F6, 0xFFFF000000000000, 7, 0x81708080000) == 0x8F708080000;
  }
}
