// The shipped shift tables of `move_generator/magics.rs` against the
// relevant-square masks: `find_magics` sets the shift of a square to 64 less
// the number of its relevant squares, so that `blockers * magic >> shift`
// indexes a table with one slot per blocker subset. Each square is checked
// by its own lemma so that the bit counts are evaluated one at a time.
module MagicShifts {
  import Magics
  import MoveTables

  /** Every entry of the shipped rook shift table is 64 less the number of relevant squares. */
  lemma RookShiftsMatchRelevant(sq: nat)
    requires sq < 64
    ensures Magics.RookShiftAt(sq) == 64 - Magics.PopCount(MoveTables.RookRelevantAt(sq))
  {
    if sq < 8 {
      RookShiftsOnRank1(sq);
    } else if sq < 16 {
      RookShiftsOnRank2(sq);
    } else if sq < 24 {
      RookShiftsOnRank3(sq);
    } else if sq < 32 {
      RookShiftsOnRank4(sq);
    } else if sq < 40 {
      RookShiftsOnRank5(sq);
    } else if sq < 48 {
      RookShiftsOnRank6(sq);
    } else if sq < 56 {
      RookShiftsOnRank7(sq);
    } else {
      RookShiftsOnRank8(sq);
    }
  }

  lemma RookShiftsOnRank1(sq: nat)
    requires 0 <= sq < 8
    ensures Magics.RookShiftAt(sq) == 64 - Magics.PopCount(MoveTables.RookRelevantAt(sq))
  {
    if sq == 0 {
      RookShift0();
    } else if sq == 1 {
      RookShift1();
    } else if sq == 2 {
      RookShift2();
    } else if sq == 3 {
      RookShift3();
    } else if sq == 4 {
      RookShift4();
    } else if sq == 5 {
      RookShift5();
    } else if sq == 6 {
      RookShift6();
    } else {
      assert sq == 7;
      RookShift7();
    }
  }

  lemma RookShiftsOnRank2(sq: nat)
    requires 8 <= sq < 16
    ensures Magics.RookShiftAt(sq) == 64 - Magics.PopCount(MoveTables.RookRelevantAt(sq))
  {
    if sq == 8 {
      RookShift8();
    } else if sq == 9 {
      RookShift9();
    } else if sq == 10 {
      RookShift10();
    } else if sq == 11 {
      RookShift11();
    } else if sq == 12 {
      RookShift12();
    } else if sq == 13 {
      RookShift13();
    } else if sq == 14 {
      RookShift14();
    } else {
      assert sq == 15;
      RookShift15();
    }
  }

  lemma RookShiftsOnRank3(sq: nat)
    requires 16 <= sq < 24
    ensures Magics.RookShiftAt(sq) == 64 - Magics.PopCount(MoveTables.RookRelevantAt(sq))
  {
    if sq == 16 {
      RookShift16();
    } else if sq == 17 {
      RookShift17();
    } else if sq == 18 {
      RookShift18();
    } else if sq == 19 {
      RookShift19();
    } else if sq == 20 {
      RookShift20();
    } else if sq == 21 {
      RookShift21();
    } else if sq == 22 {
      RookShift22();
    } else {
      assert sq == 23;
      RookShift23();
    }
  }

  lemma RookShiftsOnRank4(sq: nat)
    requires 24 <= sq < 32
    ensures Magics.RookShiftAt(sq) == 64 - Magics.PopCount(MoveTables.RookRelevantAt(sq))
  {
    if sq == 24 {
      RookShift24();
    } else if sq == 25 {
      RookShift25();
    } else if sq == 26 {
      RookShift26();
    } else if sq == 27 {
      RookShift27();
    } else if sq == 28 {
      RookShift28();
    } else if sq == 29 {
      RookShift29();
    } else if sq == 30 {
      RookShift30();
    } else {
      assert sq == 31;
      RookShift31();
    }
  }

  lemma RookShiftsOnRank5(sq: nat)
    requires 32 <= sq < 40
    ensures Magics.RookShiftAt(sq) == 64 - Magics.PopCount(MoveTables.RookRelevantAt(sq))
  {
    if sq == 32 {
      RookShift32();
    } else if sq == 33 {
      RookShift33();
    } else if sq == 34 {
      RookShift34();
    } else if sq == 35 {
      RookShift35();
    } else if sq == 36 {
      RookShift36();
    } else if sq == 37 {
      RookShift37();
    } else if sq == 38 {
      RookShift38();
    } else {
      assert sq == 39;
      RookShift39();
    }
  }

  lemma RookShiftsOnRank6(sq: nat)
    requires 40 <= sq < 48
    ensures Magics.RookShiftAt(sq) == 64 - Magics.PopCount(MoveTables.RookRelevantAt(sq))
  {
    if sq == 40 {
      RookShift40();
    } else if sq == 41 {
      RookShift41();
    } else if sq == 42 {
      RookShift42();
    } else if sq == 43 {
      RookShift43();
    } else if sq == 44 {
      RookShift44();
    } else if sq == 45 {
      RookShift45();
    } else if sq == 46 {
      RookShift46();
    } else {
      assert sq == 47;
      RookShift47();
    }
  }

  lemma RookShiftsOnRank7(sq: nat)
    requires 48 <= sq < 56
    ensures Magics.RookShiftAt(sq) == 64 - Magics.PopCount(MoveTables.RookRelevantAt(sq))
  {
    if sq == 48 {
      RookShift48();
    } else if sq == 49 {
      RookShift49();
    } else if sq == 50 {
      RookShift50();
    } else if sq == 51 {
      RookShift51();
    } else if sq == 52 {
      RookShift52();
    } else if sq == 53 {
      RookShift53();
    } else if sq == 54 {
      RookShift54();
    } else {
      assert sq == 55;
      RookShift55();
    }
  }

  lemma RookShiftsOnRank8(sq: nat)
    requires 56 <= sq < 64
    ensures Magics.RookShiftAt(sq) == 64 - Magics.PopCount(MoveTables.RookRelevantAt(sq))
  {
    if sq == 56 {
      RookShift56();
    } else if sq == 57 {
      RookShift57();
    } else if sq == 58 {
      RookShift58();
    } else if sq == 59 {
      RookShift59();
    } else if sq == 60 {
      RookShift60();
    } else if sq == 61 {
      RookShift61();
    } else if sq == 62 {
      RookShift62();
    } else {
      assert sq == 63;
      RookShift63();
    }
  }

  lemma RookShift0()
    ensures Magics.RookShiftAt(0) == 64 - Magics.PopCount(MoveTables.RookRelevantAt(0))
  {
  }

  lemma RookShift1()
    ensures Magics.RookShiftAt(1) == 64 - Magics.PopCount(MoveTables.RookRelevantAt(1))
  {
  }

  lemma RookShift2()
    ensures Magics.RookShiftAt(2) == 64 - Magics.PopCount(MoveTables.RookRelevantAt(2))
  {
  }

  lemma RookShift3()
    ensures Magics.RookShiftAt(3) == 64 - Magics.PopCount(MoveTables.RookRelevantAt(3))
  {
  }

  lemma RookShift4()
    ensures Magics.RookShiftAt(4) == 64 - Magics.PopCount(MoveTables.RookRelevantAt(4))
  {
  }

  lemma RookShift5()
    ensures Magics.RookShiftAt(5) == 64 - Magics.PopCount(MoveTables.RookRelevantAt(5))
  {
  }

  lemma RookShift6()
    ensures Magics.RookShiftAt(6) == 64 - Magics.PopCount(MoveTables.RookRelevantAt(6))
  {
  }

  lemma RookShift7()
    ensures Magics.RookShiftAt(7) == 64 - Magics.PopCount(MoveTables.RookRelevantAt(7))
  {
  }

  lemma RookShift8()
    ensures Magics.RookShiftAt(8) == 64 - Magics.PopCount(MoveTables.RookRelevantAt(8))
  {
  }

  lemma RookShift9()
    ensures Magics.RookShiftAt(9) == 64 - Magics.PopCount(MoveTables.RookRelevantAt(9))
  {
  }

  lemma RookShift10()
    ensures Magics.RookShiftAt(10) == 64 - Magics.PopCount(MoveTables.RookRelevantAt(10))
  {
  }

  lemma RookShift11()
    ensures Magics.RookShiftAt(11) == 64 - Magics.PopCount(MoveTables.RookRelevantAt(11))
  {
  }

  lemma RookShift12()
    ensures Magics.RookShiftAt(12) == 64 - Magics.PopCount(MoveTables.RookRelevantAt(12))
  {
  }

  lemma RookShift13()
    ensures Magics.RookShiftAt(13) == 64 - Magics.PopCount(MoveTables.RookRelevantAt(13))
  {
  }

  lemma RookShift14()
    ensures Magics.RookShiftAt(14) == 64 - Magics.PopCount(MoveTables.RookRelevantAt(14))
  {
  }

  lemma RookShift15()
    ensures Magics.RookShiftAt(15) == 64 - Magics.PopCount(MoveTables.RookRelevantAt(15))
  {
  }

  lemma RookShift16()
    ensures Magics.RookShiftAt(16) == 64 - Magics.PopCount(MoveTables.RookRelevantAt(16))
  {
  }

  lemma RookShift17()
    ensures Magics.RookShiftAt(17) == 64 - Magics.PopCount(MoveTables.RookRelevantAt(17))
  {
  }

  lemma RookShift18()
    ensures Magics.RookShiftAt(18) == 64 - Magics.PopCount(MoveTables.RookRelevantAt(18))
  {
  }

  lemma RookShift19()
    ensures Magics.RookShiftAt(19) == 64 - Magics.PopCount(MoveTables.RookRelevantAt(19))
  {
  }

  lemma RookShift20()
    ensures Magics.RookShiftAt(20) == 64 - Magics.PopCount(MoveTables.RookRelevantAt(20))
  {
  }

  lemma RookShift21()
    ensures Magics.RookShiftAt(21) == 64 - Magics.PopCount(MoveTables.RookRelevantAt(21))
  {
  }

  lemma RookShift22()
    ensures Magics.RookShiftAt(22) == 64 - Magics.PopCount(MoveTables.RookRelevantAt(22))
  {
  }

  lemma RookShift23()
    ensures Magics.RookShiftAt(23) == 64 - Magics.PopCount(MoveTables.RookRelevantAt(23))
  {
  }

  lemma RookShift24()
    ensures Magics.RookShiftAt(24) == 64 - Magics.PopCount(MoveTables.RookRelevantAt(24))
  {
  }

  lemma RookShift25()
    ensures Magics.RookShiftAt(25) == 64 - Magics.PopCount(MoveTables.RookRelevantAt(25))
  {
  }

  lemma RookShift26()
    ensures Magics.RookShiftAt(26) == 64 - Magics.PopCount(MoveTables.RookRelevantAt(26))
  {
  }

  lemma RookShift27()
    ensures Magics.RookShiftAt(27) == 64 - Magics.PopCount(MoveTables.RookRelevantAt(27))
  {
  }

  lemma RookShift28()
    ensures Magics.RookShiftAt(28) == 64 - Magics.PopCount(MoveTables.RookRelevantAt(28))
  {
  }

  lemma RookShift29()
    ensures Magics.RookShiftAt(29) == 64 - Magics.PopCount(MoveTables.RookRelevantAt(29))
  {
  }

  lemma RookShift30()
    ensures Magics.RookShiftAt(30) == 64 - Magics.PopCount(MoveTables.RookRelevantAt(30))
  {
  }

  lemma RookShift31()
    ensures Magics.RookShiftAt(31) == 64 - Magics.PopCount(MoveTables.RookRelevantAt(31))
  {
  }

  lemma RookShift32()
    ensures Magics.RookShiftAt(32) == 64 - Magics.PopCount(MoveTables.RookRelevantAt(32))
  {
  }

  lemma RookShift33()
    ensures Magics.RookShiftAt(33) == 64 - Magics.PopCount(MoveTables.RookRelevantAt(33))
  {
  }

  lemma RookShift34()
    ensures Magics.RookShiftAt(34) == 64 - Magics.PopCount(MoveTables.RookRelevantAt(34))
  {
  }

  lemma RookShift35()
    ensures Magics.RookShiftAt(35) == 64 - Magics.PopCount(MoveTables.RookRelevantAt(35))
  {
  }

  lemma RookShift36()
    ensures Magics.RookShiftAt(36) == 64 - Magics.PopCount(MoveTables.RookRelevantAt(36))
  {
  }

  lemma RookShift37()
    ensures Magics.RookShiftAt(37) == 64 - Magics.PopCount(MoveTables.RookRelevantAt(37))
  {
  }

  lemma RookShift38()
    ensures Magics.RookShiftAt(38) == 64 - Magics.PopCount(MoveTables.RookRelevantAt(38))
  {
  }

  lemma RookShift39()
    ensures Magics.RookShiftAt(39) == 64 - Magics.PopCount(MoveTables.RookRelevantAt(39))
  {
  }

  lemma RookShift40()
    ensures Magics.RookShiftAt(40) == 64 - Magics.PopCount(MoveTables.RookRelevantAt(40))
  {
  }

  lemma RookShift41()
    ensures Magics.RookShiftAt(41) == 64 - Magics.PopCount(MoveTables.RookRelevantAt(41))
  {
  }

  lemma RookShift42()
    ensures Magics.RookShiftAt(42) == 64 - Magics.PopCount(MoveTables.RookRelevantAt(42))
  {
  }

  lemma RookShift43()
    ensures Magics.RookShiftAt(43) == 64 - Magics.PopCount(MoveTables.RookRelevantAt(43))
  {
  }

  lemma RookShift44()
    ensures Magics.RookShiftAt(44) == 64 - Magics.PopCount(MoveTables.RookRelevantAt(44))
  {
  }

  lemma RookShift45()
    ensures Magics.RookShiftAt(45) == 64 - Magics.PopCount(MoveTables.RookRelevantAt(45))
  {
  }

  lemma RookShift46()
    ensures Magics.RookShiftAt(46) == 64 - Magics.PopCount(MoveTables.RookRelevantAt(46))
  {
  }

  lemma RookShift47()
    ensures Magics.RookShiftAt(47) == 64 - Magics.PopCount(MoveTables.RookRelevantAt(47))
  {
  }

  lemma RookShift48()
    ensures Magics.RookShiftAt(48) == 64 - Magics.PopCount(MoveTables.RookRelevantAt(48))
  {
  }

  lemma RookShift49()
    ensures Magics.RookShiftAt(49) == 64 - Magics.PopCount(MoveTables.RookRelevantAt(49))
  {
  }

  lemma RookShift50()
    ensures Magics.RookShiftAt(50) == 64 - Magics.PopCount(MoveTables.RookRelevantAt(50))
  {
  }

  lemma RookShift51()
    ensures Magics.RookShiftAt(51) == 64 - Magics.PopCount(MoveTables.RookRelevantAt(51))
  {
  }

  lemma RookShift52()
    ensures Magics.RookShiftAt(52) == 64 - Magics.PopCount(MoveTables.RookRelevantAt(52))
  {
  }

  lemma RookShift53()
    ensures Magics.RookShiftAt(53) == 64 - Magics.PopCount(MoveTables.RookRelevantAt(53))
  {
  }

  lemma RookShift54()
    ensures Magics.RookShiftAt(54) == 64 - Magics.PopCount(MoveTables.RookRelevantAt(54))
  {
  }

  lemma RookShift55()
    ensures Magics.RookShiftAt(55) == 64 - Magics.PopCount(MoveTables.RookRelevantAt(55))
  {
  }

  lemma RookShift56()
    ensures Magics.RookShiftAt(56) == 64 - Magics.PopCount(MoveTables.RookRelevantAt(56))
  {
  }

  lemma RookShift57()
    ensures Magics.RookShiftAt(57) == 64 - Magics.PopCount(MoveTables.RookRelevantAt(57))
  {
  }

  lemma RookShift58()
    ensures Magics.RookShiftAt(58) == 64 - Magics.PopCount(MoveTables.RookRelevantAt(58))
  {
  }

  lemma RookShift59()
    ensures Magics.RookShiftAt(59) == 64 - Magics.PopCount(MoveTables.RookRelevantAt(59))
  {
  }

  lemma RookShift60()
    ensures Magics.RookShiftAt(60) == 64 - Magics.PopCount(MoveTables.RookRelevantAt(60))
  {
  }

  lemma RookShift61()
    ensures Magics.RookShiftAt(61) == 64 - Magics.PopCount(MoveTables.RookRelevantAt(61))
  {
  }

  lemma RookShift62()
    ensures Magics.RookShiftAt(62) == 64 - Magics.PopCount(MoveTables.RookRelevantAt(62))
  {
  }

  lemma RookShift63()
    ensures Magics.RookShiftAt(63) == 64 - Magics.PopCount(MoveTables.RookRelevantAt(63))
  {
  }

  /** Every entry of the shipped bishop shift table is 64 less the number of relevant squares. */
  lemma BishopShiftsMatchRelevant(sq: nat)
    requires sq < 64
    ensures Magics.BishopShiftAt(sq) == 64 - Magics.PopCount(MoveTables.BishopRelevantAt(sq))
  {
    if sq < 8 {
      BishopShiftsOnRank1(sq);
    } else if sq < 16 {
      BishopShiftsOnRank2(sq);
    } else if sq < 24 {
      BishopShiftsOnRank3(sq);
    } else if sq < 32 {
      BishopShiftsOnRank4(sq);
    } else if sq < 40 {
      BishopShiftsOnRank5(sq);
    } else if sq < 48 {
      BishopShiftsOnRank6(sq);
    } else if sq < 56 {
      BishopShiftsOnRank7(sq);
    } else {
      BishopShiftsOnRank8(sq);
    }
  }

  lemma BishopShiftsOnRank1(sq: nat)
    requires 0 <= sq < 8
    ensures Magics.BishopShiftAt(sq) == 64 - Magics.PopCount(MoveTables.BishopRelevantAt(sq))
  {
    if sq == 0 {
      BishopShift0();
    } else if sq == 1 {
      BishopShift1();
    } else if sq == 2 {
      BishopShift2();
    } else if sq == 3 {
      BishopShift3();
    } else if sq == 4 {
      BishopShift4();
    } else if sq == 5 {
      BishopShift5();
    } else if sq == 6 {
      BishopShift6();
    } else {
      assert sq == 7;
      BishopShift7();
    }
  }

  lemma BishopShiftsOnRank2(sq: nat)
    requires 8 <= sq < 16
    ensures Magics.BishopShiftAt(sq) == 64 - Magics.PopCount(MoveTables.BishopRelevantAt(sq))
  {
    if sq == 8 {
      BishopShift8();
    } else if sq == 9 {
      BishopShift9();
    } else if sq == 10 {
      BishopShift10();
    } else if sq == 11 {
      BishopShift11();
    } else if sq == 12 {
      BishopShift12();
    } else if sq == 13 {
      BishopShift13();
    } else if sq == 14 {
      BishopShift14();
    } else {
      assert sq == 15;
      BishopShift15();
    }
  }

  lemma BishopShiftsOnRank3(sq: nat)
    requires 16 <= sq < 24
    ensures Magics.BishopShiftAt(sq) == 64 - Magics.PopCount(MoveTables.BishopRelevantAt(sq))
  {
    if sq == 16 {
      BishopShift16();
    } else if sq == 17 {
      BishopShift17();
    } else if sq == 18 {
      BishopShift18();
    } else if sq == 19 {
      BishopShift19();
    } else if sq == 20 {
      BishopShift20();
    } else if sq == 21 {
      BishopShift21();
    } else if sq == 22 {
      BishopShift22();
    } else {
      assert sq == 23;
      BishopShift23();
    }
  }

  lemma BishopShiftsOnRank4(sq: nat)
    requires 24 <= sq < 32
    ensures Magics.BishopShiftAt(sq) == 64 - Magics.PopCount(MoveTables.BishopRelevantAt(sq))
  {
    if sq == 24 {
      BishopShift24();
    } else if sq == 25 {
      BishopShift25();
    } else if sq == 26 {
      BishopShift26();
    } else if sq == 27 {
      BishopShift27();
    } else if sq == 28 {
      BishopShift28();
    } else if sq == 29 {
      BishopShift29();
    } else if sq == 30 {
      BishopShift30();
    } else {
      assert sq == 31;
      BishopShift31();
    }
  }

  lemma BishopShiftsOnRank5(sq: nat)
    requires 32 <= sq < 40
    ensures Magics.BishopShiftAt(sq) == 64 - Magics.PopCount(MoveTables.BishopRelevantAt(sq))
  {
    if sq == 32 {
      BishopShift32();
    } else if sq == 33 {
      BishopShift33();
    } else if sq == 34 {
      BishopShift34();
    } else if sq == 35 {
      BishopShift35();
    } else if sq == 36 {
      BishopShift36();
    } else if sq == 37 {
      BishopShift37();
    } else if sq == 38 {
      BishopShift38();
    } else {
      assert sq == 39;
      BishopShift39();
    }
  }

  lemma BishopShiftsOnRank6(sq: nat)
    requires 40 <= sq < 48
    ensures Magics.BishopShiftAt(sq) == 64 - Magics.PopCount(MoveTables.BishopRelevantAt(sq))
  {
    if sq == 40 {
      BishopShift40();
    } else if sq == 41 {
      BishopShift41();
    } else if sq == 42 {
      BishopShift42();
    } else if sq == 43 {
      BishopShift43();
    } else if sq == 44 {
      BishopShift44();
    } else if sq == 45 {
      BishopShift45();
    } else if sq == 46 {
      BishopShift46();
    } else {
      assert sq == 47;
      BishopShift47();
    }
  }

  lemma BishopShiftsOnRank7(sq: nat)
    requires 48 <= sq < 56
    ensures Magics.BishopShiftAt(sq) == 64 - Magics.PopCount(MoveTables.BishopRelevantAt(sq))
  {
    if sq == 48 {
      BishopShift48();
    } else if sq == 49 {
      BishopShift49();
    } else if sq == 50 {
      BishopShift50();
    } else if sq == 51 {
      BishopShift51();
    } else if sq == 52 {
      BishopShift52();
    } else if sq == 53 {
      BishopShift53();
    } else if sq == 54 {
      BishopShift54();
    } else {
      assert sq == 55;
      BishopShift55();
    }
  }

  lemma BishopShiftsOnRank8(sq: nat)
    requires 56 <= sq < 64
    ensures Magics.BishopShiftAt(sq) == 64 - Magics.PopCount(MoveTables.BishopRelevantAt(sq))
  {
    if sq == 56 {
      BishopShift56();
    } else if sq == 57 {
      BishopShift57();
    } else if sq == 58 {
      BishopShift58();
    } else if sq == 59 {
      BishopShift59();
    } else if sq == 60 {
      BishopShift60();
    } else if sq == 61 {
      BishopShift61();
    } else if sq == 62 {
      BishopShift62();
    } else {
      assert sq == 63;
      BishopShift63();
    }
  }

  lemma BishopShift0()
    ensures Magics.BishopShiftAt(0) == 64 - Magics.PopCount(MoveTables.BishopRelevantAt(0))
  {
  }

  lemma BishopShift1()
    ensures Magics.BishopShiftAt(1) == 64 - Magics.PopCount(MoveTables.BishopRelevantAt(1))
  {
  }

  lemma BishopShift2()
    ensures Magics.BishopShiftAt(2) == 64 - Magics.PopCount(MoveTables.BishopRelevantAt(2))
  {
  }

  lemma BishopShift3()
    ensures Magics.BishopShiftAt(3) == 64 - Magics.PopCount(MoveTables.BishopRelevantAt(3))
  {
  }

  lemma BishopShift4()
    ensures Magics.BishopShiftAt(4) == 64 - Magics.PopCount(MoveTables.BishopRelevantAt(4))
  {
  }

  lemma BishopShift5()
    ensures Magics.BishopShiftAt(5) == 64 - Magics.PopCount(MoveTables.BishopRelevantAt(5))
  {
  }

  lemma BishopShift6()
    ensures Magics.BishopShiftAt(6) == 64 - Magics.PopCount(MoveTables.BishopRelevantAt(6))
  {
  }

  lemma BishopShift7()
    ensures Magics.BishopShiftAt(7) == 64 - Magics.PopCount(MoveTables.BishopRelevantAt(7))
  {
  }

  lemma BishopShift8()
    ensures Magics.BishopShiftAt(8) == 64 - Magics.PopCount(MoveTables.BishopRelevantAt(8))
  {
  }

  lemma BishopShift9()
    ensures Magics.BishopShiftAt(9) == 64 - Magics.PopCount(MoveTables.BishopRelevantAt(9))
  {
  }

  lemma BishopShift10()
    ensures Magics.BishopShiftAt(10) == 64 - Magics.PopCount(MoveTables.BishopRelevantAt(10))
  {
  }

  lemma BishopShift11()
    ensures Magics.BishopShiftAt(11) == 64 - Magics.PopCount(MoveTables.BishopRelevantAt(11))
  {
  }

  lemma BishopShift12()
    ensures Magics.BishopShiftAt(12) == 64 - Magics.PopCount(MoveTables.BishopRelevantAt(12))
  {
  }

  lemma BishopShift13()
    ensures Magics.BishopShiftAt(13) == 64 - Magics.PopCount(MoveTables.BishopRelevantAt(13))
  {
  }

  lemma BishopShift14()
    ensures Magics.BishopShiftAt(14) == 64 - Magics.PopCount(MoveTables.BishopRelevantAt(14))
  {
  }

  lemma BishopShift15()
    ensures Magics.BishopShiftAt(15) == 64 - Magics.PopCount(MoveTables.BishopRelevantAt(15))
  {
  }

  lemma BishopShift16()
    ensures Magics.BishopShiftAt(16) == 64 - Magics.PopCount(MoveTables.BishopRelevantAt(16))
  {
  }

  lemma BishopShift17()
    ensures Magics.BishopShiftAt(17) == 64 - Magics.PopCount(MoveTables.BishopRelevantAt(17))
  {
  }

  lemma BishopShift18()
    ensures Magics.BishopShiftAt(18) == 64 - Magics.PopCount(MoveTables.BishopRelevantAt(18))
  {
  }

  lemma BishopShift19()
    ensures Magics.BishopShiftAt(19) == 64 - Magics.PopCount(MoveTables.BishopRelevantAt(19))
  {
  }

  lemma BishopShift20()
    ensures Magics.BishopShiftAt(20) == 64 - Magics.PopCount(MoveTables.BishopRelevantAt(20))
  {
  }

  lemma BishopShift21()
    ensures Magics.BishopShiftAt(21) == 64 - Magics.PopCount(MoveTables.BishopRelevantAt(21))
  {
  }

  lemma BishopShift22()
    ensures Magics.BishopShiftAt(22) == 64 - Magics.PopCount(MoveTables.BishopRelevantAt(22))
  {
  }

  lemma BishopShift23()
    ensures Magics.BishopShiftAt(23) == 64 - Magics.PopCount(MoveTables.BishopRelevantAt(23))
  {
  }

  lemma BishopShift24()
    ensures Magics.BishopShiftAt(24) == 64 - Magics.PopCount(MoveTables.BishopRelevantAt(24))
  {
  }

  lemma BishopShift25()
    ensures Magics.BishopShiftAt(25) == 64 - Magics.PopCount(MoveTables.BishopRelevantAt(25))
  {
  }

  lemma BishopShift26()
    ensures Magics.BishopShiftAt(26) == 64 - Magics.PopCount(MoveTables.BishopRelevantAt(26))
  {
  }

  lemma BishopShift27()
    ensures Magics.BishopShiftAt(27) == 64 - Magics.PopCount(MoveTables.BishopRelevantAt(27))
  {
  }

  lemma BishopShift28()
    ensures Magics.BishopShiftAt(28) == 64 - Magics.PopCount(MoveTables.BishopRelevantAt(28))
  {
  }

  lemma BishopShift29()
    ensures Magics.BishopShiftAt(29) == 64 - Magics.PopCount(MoveTables.BishopRelevantAt(29))
  {
  }

  lemma BishopShift30()
    ensures Magics.BishopShiftAt(30) == 64 - Magics.PopCount(MoveTables.BishopRelevantAt(30))
  {
  }

  lemma BishopShift31()
    ensures Magics.BishopShiftAt(31) == 64 - Magics.PopCount(MoveTables.BishopRelevantAt(31))
  {
  }

  lemma BishopShift32()
    ensures Magics.BishopShiftAt(32) == 64 - Magics.PopCount(MoveTables.BishopRelevantAt(32))
  {
  }

  lemma BishopShift33()
    ensures Magics.BishopShiftAt(33) == 64 - Magics.PopCount(MoveTables.BishopRelevantAt(33))
  {
  }

  lemma BishopShift34()
    ensures Magics.BishopShiftAt(34) == 64 - Magics.PopCount(MoveTables.BishopRelevantAt(34))
  {
  }

  lemma BishopShift35()
    ensures Magics.BishopShiftAt(35) == 64 - Magics.PopCount(MoveTables.BishopRelevantAt(35))
  {
  }

  lemma BishopShift36()
    ensures Magics.BishopShiftAt(36) == 64 - Magics.PopCount(MoveTables.BishopRelevantAt(36))
  {
  }

  lemma BishopShift37()
    ensures Magics.BishopShiftAt(37) == 64 - Magics.PopCount(MoveTables.BishopRelevantAt(37))
  {
  }

  lemma BishopShift38()
    ensures Magics.BishopShiftAt(38) == 64 - Magics.PopCount(MoveTables.BishopRelevantAt(38))
  {
  }

  lemma BishopShift39()
    ensures Magics.BishopShiftAt(39) == 64 - Magics.PopCount(MoveTables.BishopRelevantAt(39))
  {
  }

  lemma BishopShift40()
    ensures Magics.BishopShiftAt(40) == 64 - Magics.PopCount(MoveTables.BishopRelevantAt(40))
  {
  }

  lemma BishopShift41()
    ensures Magics.BishopShiftAt(41) == 64 - Magics.PopCount(MoveTables.BishopRelevantAt(41))
  {
  }

  lemma BishopShift42()
    ensures Magics.BishopShiftAt(42) == 64 - Magics.PopCount(MoveTables.BishopRelevantAt(42))
  {
  }

  lemma BishopShift43()
    ensures Magics.BishopShiftAt(43) == 64 - Magics.PopCount(MoveTables.BishopRelevantAt(43))
  {
  }

  lemma BishopShift44()
    ensures Magics.BishopShiftAt(44) == 64 - Magics.PopCount(MoveTables.BishopRelevantAt(44))
  {
  }

  lemma BishopShift45()
    ensures Magics.BishopShiftAt(45) == 64 - Magics.PopCount(MoveTables.BishopRelevantAt(45))
  {
  }

  lemma BishopShift46()
    ensures Magics.BishopShiftAt(46) == 64 - Magics.PopCount(MoveTables.BishopRelevantAt(46))
  {
  }

  lemma BishopShift47()
    ensures Magics.BishopShiftAt(47) == 64 - Magics.PopCount(MoveTables.BishopRelevantAt(47))
  {
  }

  lemma BishopShift48()
    ensures Magics.BishopShiftAt(48) == 64 - Magics.PopCount(MoveTables.BishopRelevantAt(48))
  {
  }

  lemma BishopShift49()
    ensures Magics.BishopShiftAt(49) == 64 - Magics.PopCount(MoveTables.BishopRelevantAt(49))
  {
  }

  lemma BishopShift50()
    ensures Magics.BishopShiftAt(50) == 64 - Magics.PopCount(MoveTables.BishopRelevantAt(50))
  {
  }

  lemma BishopShift51()
    ensures Magics.BishopShiftAt(51) == 64 - Magics.PopCount(MoveTables.BishopRelevantAt(51))
  {
  }

  lemma BishopShift52()
    ensures Magics.BishopShiftAt(52) == 64 - Magics.PopCount(MoveTables.BishopRelevantAt(52))
  {
  }

  lemma BishopShift53()
    ensures Magics.BishopShiftAt(53) == 64 - Magics.PopCount(MoveTables.BishopRelevantAt(53))
  {
  }

  lemma BishopShift54()
    ensures Magics.BishopShiftAt(54) == 64 - Magics.PopCount(MoveTables.BishopRelevantAt(54))
  {
  }

  lemma BishopShift55()
    ensures Magics.BishopShiftAt(55) == 64 - Magics.PopCount(MoveTables.BishopRelevantAt(55))
  {
  }

  lemma BishopShift56()
    ensures Magics.BishopShiftAt(56) == 64 - Magics.PopCount(MoveTables.BishopRelevantAt(56))
  {
  }

  lemma BishopShift57()
    ensures Magics.BishopShiftAt(57) == 64 - Magics.PopCount(MoveTables.BishopRelevantAt(57))
  {
  }

  lemma BishopShift58()
    ensures Magics.BishopShiftAt(58) == 64 - Magics.PopCount(MoveTables.BishopRelevantAt(58))
  {
  }

  lemma BishopShift59()
    ensures Magics.BishopShiftAt(59) == 64 - Magics.PopCount(MoveTables.BishopRelevantAt(59))
  {
  }

  lemma BishopShift60()
    ensures Magics.BishopShiftAt(60) == 64 - Magics.PopCount(MoveTables.BishopRelevantAt(60))
  {
  }

  lemma BishopShift61()
    ensures Magics.BishopShiftAt(61) == 64 - Magics.PopCount(MoveTables.BishopRelevantAt(61))
  {
  }

  lemma BishopShift62()
    ensures Magics.BishopShiftAt(62) == 64 - Magics.PopCount(MoveTables.BishopRelevantAt(62))
  {
  }

  lemma BishopShift63()
    ensures Magics.BishopShiftAt(63) == 64 - Magics.PopCount(MoveTables.BishopRelevantAt(63))
  {
  }
}
