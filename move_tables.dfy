// The precomputed tables of move_generator/contants.rs (square 0 = a1),
// how they relate to one another, and that the leaper and pawn tables are
// exactly what the precompute loops of the raw generator produce.
module MoveTables {
  import opened Bitwise
  import Leapers
  import Sliders
  import SliderExamples

  /** Entry `square` of `KNIGHT_MOVES`. */
  function KnightMovesAt(square: nat): bv64
    requires square < 64
  {
    match square
    case 0 => 0x0000000000020400
    case 1 => 0x0000000000050800
    case 2 => 0x00000000000A1100
    case 3 => 0x0000000000142200
    case 4 => 0x0000000000284400
    case 5 => 0x0000000000508800
    case 6 => 0x0000000000A01000
    case 7 => 0x0000000000402000
    case 8 => 0x0000000002040004
    case 9 => 0x0000000005080008
    case 10 => 0x000000000A110011
    case 11 => 0x0000000014220022
    case 12 => 0x0000000028440044
    case 13 => 0x0000000050880088
    case 14 => 0x00000000A0100010
    case 15 => 0x0000000040200020
    case 16 => 0x0000000204000402
    case 17 => 0x0000000508000805
    case 18 => 0x0000000A1100110A
    case 19 => 0x0000001422002214
    case 20 => 0x0000002844004428
    case 21 => 0x0000005088008850
    case 22 => 0x000000A0100010A0
    case 23 => 0x0000004020002040
    case 24 => 0x0000020400040200
    case 25 => 0x0000050800080500
    case 26 => 0x00000A1100110A00
    case 27 => 0x0000142200221400
    case 28 => 0x0000284400442800
    case 29 => 0x0000508800885000
    case 30 => 0x0000A0100010A000
    case 31 => 0x0000402000204000
    case 32 => 0x0002040004020000
    case 33 => 0x0005080008050000
    case 34 => 0x000A1100110A0000
    case 35 => 0x0014220022140000
    case 36 => 0x0028440044280000
    case 37 => 0x0050880088500000
    case 38 => 0x00A0100010A00000
    case 39 => 0x0040200020400000
    case 40 => 0x0204000402000000
    case 41 => 0x0508000805000000
    case 42 => 0x0A1100110A000000
    case 43 => 0x1422002214000000
    case 44 => 0x2844004428000000
    case 45 => 0x5088008850000000
    case 46 => 0xA0100010A0000000
    case 47 => 0x4020002040000000
    case 48 => 0x0400040200000000
    case 49 => 0x0800080500000000
    case 50 => 0x1100110A00000000
    case 51 => 0x2200221400000000
    case 52 => 0x4400442800000000
    case 53 => 0x8800885000000000
    case 54 => 0x100010A000000000
    case 55 => 0x2000204000000000
    case 56 => 0x0004020000000000
    case 57 => 0x0008050000000000
    case 58 => 0x00110A0000000000
    case 59 => 0x0022140000000000
    case 60 => 0x0044280000000000
    case 61 => 0x0088500000000000
    case 62 => 0x0010A00000000000
    case _ => 0x0020400000000000
  }

  /** Entry `square` of `KING_MOVES`. */
  function KingMovesAt(square: nat): bv64
    requires square < 64
  {
    match square
    case 0 => 0x0000000000000302
    case 1 => 0x0000000000000705
    case 2 => 0x0000000000000E0A
    case 3 => 0x0000000000001C14
    case 4 => 0x0000000000003828
    case 5 => 0x0000000000007050
    case 6 => 0x000000000000E0A0
    case 7 => 0x000000000000C040
    case 8 => 0x0000000000030203
    case 9 => 0x0000000000070507
    case 10 => 0x00000000000E0A0E
    case 11 => 0x00000000001C141C
    case 12 => 0x0000000000382838
    case 13 => 0x0000000000705070
    case 14 => 0x0000000000E0A0E0
    case 15 => 0x0000000000C040C0
    case 16 => 0x0000000003020300
    case 17 => 0x0000000007050700
    case 18 => 0x000000000E0A0E00
    case 19 => 0x000000001C141C00
    case 20 => 0x0000000038283800
    case 21 => 0x0000000070507000
    case 22 => 0x00000000E0A0E000
    case 23 => 0x00000000C040C000
    case 24 => 0x0000000302030000
    case 25 => 0x0000000705070000
    case 26 => 0x0000000E0A0E0000
    case 27 => 0x0000001C141C0000
    case 28 => 0x0000003828380000
    case 29 => 0x0000007050700000
    case 30 => 0x000000E0A0E00000
    case 31 => 0x000000C040C00000
    case 32 => 0x0000030203000000
    case 33 => 0x0000070507000000
    case 34 => 0x00000E0A0E000000
    case 35 => 0x00001C141C000000
    case 36 => 0x0000382838000000
    case 37 => 0x0000705070000000
    case 38 => 0x0000E0A0E0000000
    case 39 => 0x0000C040C0000000
    case 40 => 0x0003020300000000
    case 41 => 0x0007050700000000
    case 42 => 0x000E0A0E00000000
    case 43 => 0x001C141C00000000
    case 44 => 0x0038283800000000
    case 45 => 0x0070507000000000
    case 46 => 0x00E0A0E000000000
    case 47 => 0x00C040C000000000
    case 48 => 0x0302030000000000
    case 49 => 0x0705070000000000
    case 50 => 0x0E0A0E0000000000
    case 51 => 0x1C141C0000000000
    case 52 => 0x3828380000000000
    case 53 => 0x7050700000000000
    case 54 => 0xE0A0E00000000000
    case 55 => 0xC040C00000000000
    case 56 => 0x0203000000000000
    case 57 => 0x0507000000000000
    case 58 => 0x0A0E000000000000
    case 59 => 0x141C000000000000
    case 60 => 0x2838000000000000
    case 61 => 0x5070000000000000
    case 62 => 0xA0E0000000000000
    case _ => 0x40C0000000000000
  }

  /** Entry `square` of `WHITE_PAWN_ATTACKS`. */
  function WhitePawnAttacksAt(square: nat): bv64
    requires square < 64
  {
    match square
    case 0 => 0x0000000000000200
    case 1 => 0x0000000000000500
    case 2 => 0x0000000000000A00
    case 3 => 0x0000000000001400
    case 4 => 0x0000000000002800
    case 5 => 0x0000000000005000
    case 6 => 0x000000000000A000
    case 7 => 0x0000000000004000
    case 8 => 0x0000000000020000
    case 9 => 0x0000000000050000
    case 10 => 0x00000000000A0000
    case 11 => 0x0000000000140000
    case 12 => 0x0000000000280000
    case 13 => 0x0000000000500000
    case 14 => 0x0000000000A00000
    case 15 => 0x0000000000400000
    case 16 => 0x0000000002000000
    case 17 => 0x0000000005000000
    case 18 => 0x000000000A000000
    case 19 => 0x0000000014000000
    case 20 => 0x0000000028000000
    case 21 => 0x0000000050000000
    case 22 => 0x00000000A0000000
    case 23 => 0x0000000040000000
    case 24 => 0x0000000200000000
    case 25 => 0x0000000500000000
    case 26 => 0x0000000A00000000
    case 27 => 0x0000001400000000
    case 28 => 0x0000002800000000
    case 29 => 0x0000005000000000
    case 30 => 0x000000A000000000
    case 31 => 0x0000004000000000
    case 32 => 0x0000020000000000
    case 33 => 0x0000050000000000
    case 34 => 0x00000A0000000000
    case 35 => 0x0000140000000000
    case 36 => 0x0000280000000000
    case 37 => 0x0000500000000000
    case 38 => 0x0000A00000000000
    case 39 => 0x0000400000000000
    case 40 => 0x0002000000000000
    case 41 => 0x0005000000000000
    case 42 => 0x000A000000000000
    case 43 => 0x0014000000000000
    case 44 => 0x0028000000000000
    case 45 => 0x0050000000000000
    case 46 => 0x00A0000000000000
    case 47 => 0x0040000000000000
    case 48 => 0x0200000000000000
    case 49 => 0x0500000000000000
    case 50 => 0x0A00000000000000
    case 51 => 0x1400000000000000
    case 52 => 0x2800000000000000
    case 53 => 0x5000000000000000
    case 54 => 0xA000000000000000
    case 55 => 0x4000000000000000
    case 56 => 0x0000000000000000
    case 57 => 0x0000000000000000
    case 58 => 0x0000000000000000
    case 59 => 0x0000000000000000
    case 60 => 0x0000000000000000
    case 61 => 0x0000000000000000
    case 62 => 0x0000000000000000
    case _ => 0x0000000000000000
  }

  /** Entry `square` of `BLACK_PAWN_ATTACKS`. */
  function BlackPawnAttacksAt(square: nat): bv64
    requires square < 64
  {
    match square
    case 0 => 0x0000000000000000
    case 1 => 0x0000000000000000
    case 2 => 0x0000000000000000
    case 3 => 0x0000000000000000
    case 4 => 0x0000000000000000
    case 5 => 0x0000000000000000
    case 6 => 0x0000000000000000
    case 7 => 0x0000000000000000
    case 8 => 0x0000000000000002
    case 9 => 0x0000000000000005
    case 10 => 0x000000000000000A
    case 11 => 0x0000000000000014
    case 12 => 0x0000000000000028
    case 13 => 0x0000000000000050
    case 14 => 0x00000000000000A0
    case 15 => 0x0000000000000040
    case 16 => 0x0000000000000200
    case 17 => 0x0000000000000500
    case 18 => 0x0000000000000A00
    case 19 => 0x0000000000001400
    case 20 => 0x0000000000002800
    case 21 => 0x0000000000005000
    case 22 => 0x000000000000A000
    case 23 => 0x0000000000004000
    case 24 => 0x0000000000020000
    case 25 => 0x0000000000050000
    case 26 => 0x00000000000A0000
    case 27 => 0x0000000000140000
    case 28 => 0x0000000000280000
    case 29 => 0x0000000000500000
    case 30 => 0x0000000000A00000
    case 31 => 0x0000000000400000
    case 32 => 0x0000000002000000
    case 33 => 0x0000000005000000
    case 34 => 0x000000000A000000
    case 35 => 0x0000000014000000
    case 36 => 0x0000000028000000
    case 37 => 0x0000000050000000
    case 38 => 0x00000000A0000000
    case 39 => 0x0000000040000000
    case 40 => 0x0000000200000000
    case 41 => 0x0000000500000000
    case 42 => 0x0000000A00000000
    case 43 => 0x0000001400000000
    case 44 => 0x0000002800000000
    case 45 => 0x0000005000000000
    case 46 => 0x000000A000000000
    case 47 => 0x0000004000000000
    case 48 => 0x0000020000000000
    case 49 => 0x0000050000000000
    case 50 => 0x00000A0000000000
    case 51 => 0x0000140000000000
    case 52 => 0x0000280000000000
    case 53 => 0x0000500000000000
    case 54 => 0x0000A00000000000
    case 55 => 0x0000400000000000
    case 56 => 0x0002000000000000
    case 57 => 0x0005000000000000
    case 58 => 0x000A000000000000
    case 59 => 0x0014000000000000
    case 60 => 0x0028000000000000
    case 61 => 0x0050000000000000
    case 62 => 0x00A0000000000000
    case _ => 0x0040000000000000
  }

  /** Entry `square` of `WHITE_PAWN_MOVES` (pushes only). */
  function WhitePawnMovesAt(square: nat): bv64
    requires square < 64
  {
    match square
    case 0 => 0x0000000000000100
    case 1 => 0x0000000000000200
    case 2 => 0x0000000000000400
    case 3 => 0x0000000000000800
    case 4 => 0x0000000000001000
    case 5 => 0x0000000000002000
    case 6 => 0x0000000000004000
    case 7 => 0x0000000000008000
    case 8 => 0x0000000001010000
    case 9 => 0x0000000002020000
    case 10 => 0x0000000004040000
    case 11 => 0x0000000008080000
    case 12 => 0x0000000010100000
    case 13 => 0x0000000020200000
    case 14 => 0x0000000040400000
    case 15 => 0x0000000080800000
    case 16 => 0x0000000001000000
    case 17 => 0x0000000002000000
    case 18 => 0x0000000004000000
    case 19 => 0x0000000008000000
    case 20 => 0x0000000010000000
    case 21 => 0x0000000020000000
    case 22 => 0x0000000040000000
    case 23 => 0x0000000080000000
    case 24 => 0x0000000100000000
    case 25 => 0x0000000200000000
    case 26 => 0x0000000400000000
    case 27 => 0x0000000800000000
    case 28 => 0x0000001000000000
    case 29 => 0x0000002000000000
    case 30 => 0x0000004000000000
    case 31 => 0x0000008000000000
    case 32 => 0x0000010000000000
    case 33 => 0x0000020000000000
    case 34 => 0x0000040000000000
    case 35 => 0x0000080000000000
    case 36 => 0x0000100000000000
    case 37 => 0x0000200000000000
    case 38 => 0x0000400000000000
    case 39 => 0x0000800000000000
    case 40 => 0x0001000000000000
    case 41 => 0x0002000000000000
    case 42 => 0x0004000000000000
    case 43 => 0x0008000000000000
    case 44 => 0x0010000000000000
    case 45 => 0x0020000000000000
    case 46 => 0x0040000000000000
    case 47 => 0x0080000000000000
    case 48 => 0x0100000000000000
    case 49 => 0x0200000000000000
    case 50 => 0x0400000000000000
    case 51 => 0x0800000000000000
    case 52 => 0x1000000000000000
    case 53 => 0x2000000000000000
    case 54 => 0x4000000000000000
    case 55 => 0x8000000000000000
    case 56 => 0x0000000000000000
    case 57 => 0x0000000000000000
    case 58 => 0x0000000000000000
    case 59 => 0x0000000000000000
    case 60 => 0x0000000000000000
    case 61 => 0x0000000000000000
    case 62 => 0x0000000000000000
    case _ => 0x0000000000000000
  }

  /** Entry `square` of `BLACK_PAWN_MOVES` (pushes only). */
  function BlackPawnMovesAt(square: nat): bv64
    requires square < 64
  {
    match square
    case 0 => 0x0000000000000000
    case 1 => 0x0000000000000000
    case 2 => 0x0000000000000000
    case 3 => 0x0000000000000000
    case 4 => 0x0000000000000000
    case 5 => 0x0000000000000000
    case 6 => 0x0000000000000000
    case 7 => 0x0000000000000000
    case 8 => 0x0000000000000001
    case 9 => 0x0000000000000002
    case 10 => 0x0000000000000004
    case 11 => 0x0000000000000008
    case 12 => 0x0000000000000010
    case 13 => 0x0000000000000020
    case 14 => 0x0000000000000040
    case 15 => 0x0000000000000080
    case 16 => 0x0000000000000100
    case 17 => 0x0000000000000200
    case 18 => 0x0000000000000400
    case 19 => 0x0000000000000800
    case 20 => 0x0000000000001000
    case 21 => 0x0000000000002000
    case 22 => 0x0000000000004000
    case 23 => 0x0000000000008000
    case 24 => 0x0000000000010000
    case 25 => 0x0000000000020000
    case 26 => 0x0000000000040000
    case 27 => 0x0000000000080000
    case 28 => 0x0000000000100000
    case 29 => 0x0000000000200000
    case 30 => 0x0000000000400000
    case 31 => 0x0000000000800000
    case 32 => 0x0000000001000000
    case 33 => 0x0000000002000000
    case 34 => 0x0000000004000000
    case 35 => 0x0000000008000000
    case 36 => 0x0000000010000000
    case 37 => 0x0000000020000000
    case 38 => 0x0000000040000000
    case 39 => 0x0000000080000000
    case 40 => 0x0000000100000000
    case 41 => 0x0000000200000000
    case 42 => 0x0000000400000000
    case 43 => 0x0000000800000000
    case 44 => 0x0000001000000000
    case 45 => 0x0000002000000000
    case 46 => 0x0000004000000000
    case 47 => 0x0000008000000000
    case 48 => 0x0000010100000000
    case 49 => 0x0000020200000000
    case 50 => 0x0000040400000000
    case 51 => 0x0000080800000000
    case 52 => 0x0000101000000000
    case 53 => 0x0000202000000000
    case 54 => 0x0000404000000000
    case 55 => 0x0000808000000000
    case 56 => 0x0001000000000000
    case 57 => 0x0002000000000000
    case 58 => 0x0004000000000000
    case 59 => 0x0008000000000000
    case 60 => 0x0010000000000000
    case 61 => 0x0020000000000000
    case 62 => 0x0040000000000000
    case _ => 0x0080000000000000
  }

  /** Entry `square` of `BISHOP_MOVES`. */
  function BishopMovesAt(square: nat): bv64
    requires square < 64
  {
    match square
    case 0 => 0x8040201008040200
    case 1 => 0x0080402010080500
    case 2 => 0x0000804020110A00
    case 3 => 0x0000008041221400
    case 4 => 0x0000000182442800
    case 5 => 0x0000010204885000
    case 6 => 0x000102040810A000
    case 7 => 0x0102040810204000
    case 8 => 0x4020100804020002
    case 9 => 0x8040201008050005
    case 10 => 0x00804020110A000A
    case 11 => 0x0000804122140014
    case 12 => 0x0000018244280028
    case 13 => 0x0001020488500050
    case 14 => 0x0102040810A000A0
    case 15 => 0x0204081020400040
    case 16 => 0x2010080402000204
    case 17 => 0x4020100805000508
    case 18 => 0x804020110A000A11
    case 19 => 0x0080412214001422
    case 20 => 0x0001824428002844
    case 21 => 0x0102048850005088
    case 22 => 0x02040810A000A010
    case 23 => 0x0408102040004020
    case 24 => 0x1008040200020408
    case 25 => 0x2010080500050810
    case 26 => 0x4020110A000A1120
    case 27 => 0x8041221400142241
    case 28 => 0x0182442800284482
    case 29 => 0x0204885000508804
    case 30 => 0x040810A000A01008
    case 31 => 0x0810204000402010
    case 32 => 0x0804020002040810
    case 33 => 0x1008050005081020
    case 34 => 0x20110A000A112040
    case 35 => 0x4122140014224180
    case 36 => 0x8244280028448201
    case 37 => 0x0488500050880402
    case 38 => 0x0810A000A0100804
    case 39 => 0x1020400040201008
    case 40 => 0x0402000204081020
    case 41 => 0x0805000508102040
    case 42 => 0x110A000A11204080
    case 43 => 0x2214001422418000
    case 44 => 0x4428002844820100
    case 45 => 0x8850005088040201
    case 46 => 0x10A000A010080402
    case 47 => 0x2040004020100804
    case 48 => 0x0200020408102040
    case 49 => 0x0500050810204080
    case 50 => 0x0A000A1120408000
    case 51 => 0x1400142241800000
    case 52 => 0x2800284482010000
    case 53 => 0x5000508804020100
    case 54 => 0xA000A01008040201
    case 55 => 0x4000402010080402
    case 56 => 0x0002040810204080
    case 57 => 0x0005081020408000
    case 58 => 0x000A112040800000
    case 59 => 0x0014224180000000
    case 60 => 0x0028448201000000
    case 61 => 0x0050880402010000
    case 62 => 0x00A0100804020100
    case _ => 0x0040201008040201
  }

  /** Entry `square` of `ROOK_MOVES`. */
  function RookMovesAt(square: nat): bv64
    requires square < 64
  {
    match square
    case 0 => 0x01010101010101FE
    case 1 => 0x02020202020202FD
    case 2 => 0x04040404040404FB
    case 3 => 0x08080808080808F7
    case 4 => 0x10101010101010EF
    case 5 => 0x20202020202020DF
    case 6 => 0x40404040404040BF
    case 7 => 0x808080808080807F
    case 8 => 0x010101010101FE01
    case 9 => 0x020202020202FD02
    case 10 => 0x040404040404FB04
    case 11 => 0x080808080808F708
    case 12 => 0x101010101010EF10
    case 13 => 0x202020202020DF20
    case 14 => 0x404040404040BF40
    case 15 => 0x8080808080807F80
    case 16 => 0x0101010101FE0101
    case 17 => 0x0202020202FD0202
    case 18 => 0x0404040404FB0404
    case 19 => 0x0808080808F70808
    case 20 => 0x1010101010EF1010
    case 21 => 0x2020202020DF2020
    case 22 => 0x4040404040BF4040
    case 23 => 0x80808080807F8080
    case 24 => 0x01010101FE010101
    case 25 => 0x02020202FD020202
    case 26 => 0x04040404FB040404
    case 27 => 0x08080808F7080808
    case 28 => 0x10101010EF101010
    case 29 => 0x20202020DF202020
    case 30 => 0x40404040BF404040
    case 31 => 0x808080807F808080
    case 32 => 0x010101FE01010101
    case 33 => 0x020202FD02020202
    case 34 => 0x040404FB04040404
    case 35 => 0x080808F708080808
    case 36 => 0x101010EF10101010
    case 37 => 0x202020DF20202020
    case 38 => 0x404040BF40404040
    case 39 => 0x8080807F80808080
    case 40 => 0x0101FE0101010101
    case 41 => 0x0202FD0202020202
    case 42 => 0x0404FB0404040404
    case 43 => 0x0808F70808080808
    case 44 => 0x1010EF1010101010
    case 45 => 0x2020DF2020202020
    case 46 => 0x4040BF4040404040
    case 47 => 0x80807F8080808080
    case 48 => 0x01FE010101010101
    case 49 => 0x02FD020202020202
    case 50 => 0x04FB040404040404
    case 51 => 0x08F7080808080808
    case 52 => 0x10EF101010101010
    case 53 => 0x20DF202020202020
    case 54 => 0x40BF404040404040
    case 55 => 0x807F808080808080
    case 56 => 0xFE01010101010101
    case 57 => 0xFD02020202020202
    case 58 => 0xFB04040404040404
    case 59 => 0xF708080808080808
    case 60 => 0xEF10101010101010
    case 61 => 0xDF20202020202020
    case 62 => 0xBF40404040404040
    case _ => 0x7F80808080808080
  }

  /** Entry `square` of `QUEEN_MOVES`. */
  function QueenMovesAt(square: nat): bv64
    requires square < 64
  {
    match square
    case 0 => 0x81412111090503FE
    case 1 => 0x02824222120A07FD
    case 2 => 0x0404844424150EFB
    case 3 => 0x08080888492A1CF7
    case 4 => 0x10101011925438EF
    case 5 => 0x2020212224A870DF
    case 6 => 0x404142444850E0BF
    case 7 => 0x8182848890A0C07F
    case 8 => 0x412111090503FE03
    case 9 => 0x824222120A07FD07
    case 10 => 0x04844424150EFB0E
    case 11 => 0x080888492A1CF71C
    case 12 => 0x101011925438EF38
    case 13 => 0x20212224A870DF70
    case 14 => 0x4142444850E0BFE0
    case 15 => 0x82848890A0C07FC0
    case 16 => 0x2111090503FE0305
    case 17 => 0x4222120A07FD070A
    case 18 => 0x844424150EFB0E15
    case 19 => 0x0888492A1CF71C2A
    case 20 => 0x1011925438EF3854
    case 21 => 0x212224A870DF70A8
    case 22 => 0x42444850E0BFE050
    case 23 => 0x848890A0C07FC0A0
    case 24 => 0x11090503FE030509
    case 25 => 0x22120A07FD070A12
    case 26 => 0x4424150EFB0E1524
    case 27 => 0x88492A1CF71C2A49
    case 28 => 0x11925438EF385492
    case 29 => 0x2224A870DF70A824
    case 30 => 0x444850E0BFE05048
    case 31 => 0x8890A0C07FC0A090
    case 32 => 0x090503FE03050911
    case 33 => 0x120A07FD070A1222
    case 34 => 0x24150EFB0E152444
    case 35 => 0x492A1CF71C2A4988
    case 36 => 0x925438EF38549211
    case 37 => 0x24A870DF70A82422
    case 38 => 0x4850E0BFE0504844
    case 39 => 0x90A0C07FC0A09088
    case 40 => 0x0503FE0305091121
    case 41 => 0x0A07FD070A122242
    case 42 => 0x150EFB0E15244484
    case 43 => 0x2A1CF71C2A498808
    case 44 => 0x5438EF3854921110
    case 45 => 0xA870DF70A8242221
    case 46 => 0x50E0BFE050484442
    case 47 => 0xA0C07FC0A0908884
    case 48 => 0x03FE030509112141
    case 49 => 0x07FD070A12224282
    case 50 => 0x0EFB0E1524448404
    case 51 => 0x1CF71C2A49880808
    case 52 => 0x38EF385492111010
    case 53 => 0x70DF70A824222120
    case 54 => 0xE0BFE05048444241
    case 55 => 0xC07FC0A090888482
    case 56 => 0xFE03050911214181
    case 57 => 0xFD070A1222428202
    case 58 => 0xFB0E152444840404
    case 59 => 0xF71C2A4988080808
    case 60 => 0xEF38549211101010
    case 61 => 0xDF70A82422212020
    case 62 => 0xBFE0504844424140
    case _ => 0x7FC0A09088848281
  }

  /** Entry `square` of `BISHOP_RELEVANT_SQUARES`. */
  function BishopRelevantAt(square: nat): bv64
    requires square < 64
  {
    match square
    case 0 => 0x0040201008040200
    case 1 => 0x0000402010080400
    case 2 => 0x0000004020100A00
    case 3 => 0x0000000040221400
    case 4 => 0x0000000002442800
    case 5 => 0x0000000204085000
    case 6 => 0x0000020408102000
    case 7 => 0x0002040810204000
    case 8 => 0x0020100804020000
    case 9 => 0x0040201008040000
    case 10 => 0x00004020100A0000
    case 11 => 0x0000004022140000
    case 12 => 0x0000000244280000
    case 13 => 0x0000020408500000
    case 14 => 0x0002040810200000
    case 15 => 0x0004081020400000
    case 16 => 0x0010080402000200
    case 17 => 0x0020100804000400
    case 18 => 0x004020100A000A00
    case 19 => 0x0000402214001400
    case 20 => 0x0000024428002800
    case 21 => 0x0002040850005000
    case 22 => 0x0004081020002000
    case 23 => 0x0008102040004000
    case 24 => 0x0008040200020400
    case 25 => 0x0010080400040800
    case 26 => 0x0020100A000A1000
    case 27 => 0x0040221400142200
    case 28 => 0x0002442800284400
    case 29 => 0x0004085000500800
    case 30 => 0x0008102000201000
    case 31 => 0x0010204000402000
    case 32 => 0x0004020002040800
    case 33 => 0x0008040004081000
    case 34 => 0x00100A000A102000
    case 35 => 0x0022140014224000
    case 36 => 0x0044280028440200
    case 37 => 0x0008500050080400
    case 38 => 0x0010200020100800
    case 39 => 0x0020400040201000
    case 40 => 0x0002000204081000
    case 41 => 0x0004000408102000
    case 42 => 0x000A000A10204000
    case 43 => 0x0014001422400000
    case 44 => 0x0028002844020000
    case 45 => 0x0050005008040200
    case 46 => 0x0020002010080400
    case 47 => 0x0040004020100800
    case 48 => 0x0000020408102000
    case 49 => 0x0000040810204000
    case 50 => 0x00000A1020400000
    case 51 => 0x0000142240000000
    case 52 => 0x0000284402000000
    case 53 => 0x0000500804020000
    case 54 => 0x0000201008040200
    case 55 => 0x0000402010080400
    case 56 => 0x0002040810204000
    case 57 => 0x0004081020400000
    case 58 => 0x000A102040000000
    case 59 => 0x0014224000000000
    case 60 => 0x0028440200000000
    case 61 => 0x0050080402000000
    case 62 => 0x0020100804020000
    case _ => 0x0040201008040200
  }

  /** Entry `square` of `ROOK_RELEVANT_SQUARES`. */
  function RookRelevantAt(square: nat): bv64
    requires square < 64
  {
    match square
    case 0 => 0x000101010101017E
    case 1 => 0x000202020202027C
    case 2 => 0x000404040404047A
    case 3 => 0x0008080808080876
    case 4 => 0x001010101010106E
    case 5 => 0x002020202020205E
    case 6 => 0x004040404040403E
    case 7 => 0x008080808080807E
    case 8 => 0x0001010101017E00
    case 9 => 0x0002020202027C00
    case 10 => 0x0004040404047A00
    case 11 => 0x0008080808087600
    case 12 => 0x0010101010106E00
    case 13 => 0x0020202020205E00
    case 14 => 0x0040404040403E00
    case 15 => 0x0080808080807E00
    case 16 => 0x00010101017E0100
    case 17 => 0x00020202027C0200
    case 18 => 0x00040404047A0400
    case 19 => 0x0008080808760800
    case 20 => 0x00101010106E1000
    case 21 => 0x00202020205E2000
    case 22 => 0x00404040403E4000
    case 23 => 0x00808080807E8000
    case 24 => 0x000101017E010100
    case 25 => 0x000202027C020200
    case 26 => 0x000404047A040400
    case 27 => 0x0008080876080800
    case 28 => 0x001010106E101000
    case 29 => 0x002020205E202000
    case 30 => 0x004040403E404000
    case 31 => 0x008080807E808000
    case 32 => 0x0001017E01010100
    case 33 => 0x0002027C02020200
    case 34 => 0x0004047A04040400
    case 35 => 0x0008087608080800
    case 36 => 0x0010106E10101000
    case 37 => 0x0020205E20202000
    case 38 => 0x0040403E40404000
    case 39 => 0x0080807E80808000
    case 40 => 0x00017E0101010100
    case 41 => 0x00027C0202020200
    case 42 => 0x00047A0404040400
    case 43 => 0x0008760808080800
    case 44 => 0x00106E1010101000
    case 45 => 0x00205E2020202000
    case 46 => 0x00403E4040404000
    case 47 => 0x00807E8080808000
    case 48 => 0x007E010101010100
    case 49 => 0x007C020202020200
    case 50 => 0x007A040404040400
    case 51 => 0x0076080808080800
    case 52 => 0x006E101010101000
    case 53 => 0x005E202020202000
    case 54 => 0x003E404040404000
    case 55 => 0x007E808080808000
    case 56 => 0x7E01010101010100
    case 57 => 0x7C02020202020200
    case 58 => 0x7A04040404040400
    case 59 => 0x7608080808080800
    case 60 => 0x6E10101010101000
    case 61 => 0x5E20202020202000
    case 62 => 0x3E40404040404000
    case _ => 0x7E80808080808000
  }

  /** The bitboard holding only `square`, listed square by square. */
  function SquareBitListed(square: nat): bv64
    requires square < 64
  {
    match square
    case 0 => 0x1
    case 1 => 0x2
    case 2 => 0x4
    case 3 => 0x8
    case 4 => 0x10
    case 5 => 0x20
    case 6 => 0x40
    case 7 => 0x80
    case 8 => 0x100
    case 9 => 0x200
    case 10 => 0x400
    case 11 => 0x800
    case 12 => 0x1000
    case 13 => 0x2000
    case 14 => 0x4000
    case 15 => 0x8000
    case 16 => 0x10000
    case 17 => 0x20000
    case 18 => 0x40000
    case 19 => 0x80000
    case 20 => 0x100000
    case 21 => 0x200000
    case 22 => 0x400000
    case 23 => 0x800000
    case 24 => 0x1000000
    case 25 => 0x2000000
    case 26 => 0x4000000
    case 27 => 0x8000000
    case 28 => 0x10000000
    case 29 => 0x20000000
    case 30 => 0x40000000
    case 31 => 0x80000000
    case 32 => 0x100000000
    case 33 => 0x200000000
    case 34 => 0x400000000
    case 35 => 0x800000000
    case 36 => 0x1000000000
    case 37 => 0x2000000000
    case 38 => 0x4000000000
    case 39 => 0x8000000000
    case 40 => 0x10000000000
    case 41 => 0x20000000000
    case 42 => 0x40000000000
    case 43 => 0x80000000000
    case 44 => 0x100000000000
    case 45 => 0x200000000000
    case 46 => 0x400000000000
    case 47 => 0x800000000000
    case 48 => 0x1000000000000
    case 49 => 0x2000000000000
    case 50 => 0x4000000000000
    case 51 => 0x8000000000000
    case 52 => 0x10000000000000
    case 53 => 0x20000000000000
    case 54 => 0x40000000000000
    case 55 => 0x80000000000000
    case 56 => 0x100000000000000
    case 57 => 0x200000000000000
    case 58 => 0x400000000000000
    case 59 => 0x800000000000000
    case 60 => 0x1000000000000000
    case 61 => 0x2000000000000000
    case 62 => 0x4000000000000000
    case _ => 0x8000000000000000
  }

  // `*_PATH_TO_ROOK`: the squares between king and rook that castling needs empty.
  const WHITE_QUEEN_SIDE_PATH_TO_ROOK: bv64 := 0xe
  const WHITE_KING_SIDE_PATH_TO_ROOK: bv64 := 0x60
  const BLACK_QUEEN_SIDE_PATH_TO_ROOK: bv64 := 0xe00000000000000
  const BLACK_KING_SIDE_PATH_TO_ROOK: bv64 := 0x6000000000000000

  /** Every `KNIGHT_MOVES` entry is what `pre_compute_knight_moves` writes for that square into a zeroed table. */
  lemma KnightTableIsGenerated(sq: nat)
    requires sq < 64
    ensures KnightMovesAt(sq) == Leapers.KnightEntry(SquareBitAt(sq), 0)
  {
    if sq < 8 { KnightTableIsGeneratedOnRank1(sq); }
    else if sq < 16 { KnightTableIsGeneratedOnRank2(sq); }
    else if sq < 24 { KnightTableIsGeneratedOnRank3(sq); }
    else if sq < 32 { KnightTableIsGeneratedOnRank4(sq); }
    else if sq < 40 { KnightTableIsGeneratedOnRank5(sq); }
    else if sq < 48 { KnightTableIsGeneratedOnRank6(sq); }
    else if sq < 56 { KnightTableIsGeneratedOnRank7(sq); }
    else { KnightTableIsGeneratedOnRank8(sq); }
  }

  lemma KnightTableIsGeneratedOnRank1(sq: nat)
    requires 0 <= sq < 8
    ensures KnightMovesAt(sq) == Leapers.KnightEntry(SquareBitAt(sq), 0)
  {
    if sq == 0 { KnightTableIsGeneratedAt0(); }
    else if sq == 1 { KnightTableIsGeneratedAt1(); }
    else if sq == 2 { KnightTableIsGeneratedAt2(); }
    else if sq == 3 { KnightTableIsGeneratedAt3(); }
    else if sq == 4 { KnightTableIsGeneratedAt4(); }
    else if sq == 5 { KnightTableIsGeneratedAt5(); }
    else if sq == 6 { KnightTableIsGeneratedAt6(); }
    else { KnightTableIsGeneratedAt7(); }
  }

  lemma KnightTableIsGeneratedOnRank2(sq: nat)
    requires 8 <= sq < 16
    ensures KnightMovesAt(sq) == Leapers.KnightEntry(SquareBitAt(sq), 0)
  {
    if sq == 8 { KnightTableIsGeneratedAt8(); }
    else if sq == 9 { KnightTableIsGeneratedAt9(); }
    else if sq == 10 { KnightTableIsGeneratedAt10(); }
    else if sq == 11 { KnightTableIsGeneratedAt11(); }
    else if sq == 12 { KnightTableIsGeneratedAt12(); }
    else if sq == 13 { KnightTableIsGeneratedAt13(); }
    else if sq == 14 { KnightTableIsGeneratedAt14(); }
    else { KnightTableIsGeneratedAt15(); }
  }

  lemma KnightTableIsGeneratedOnRank3(sq: nat)
    requires 16 <= sq < 24
    ensures KnightMovesAt(sq) == Leapers.KnightEntry(SquareBitAt(sq), 0)
  {
    if sq == 16 { KnightTableIsGeneratedAt16(); }
    else if sq == 17 { KnightTableIsGeneratedAt17(); }
    else if sq == 18 { KnightTableIsGeneratedAt18(); }
    else if sq == 19 { KnightTableIsGeneratedAt19(); }
    else if sq == 20 { KnightTableIsGeneratedAt20(); }
    else if sq == 21 { KnightTableIsGeneratedAt21(); }
    else if sq == 22 { KnightTableIsGeneratedAt22(); }
    else { KnightTableIsGeneratedAt23(); }
  }

  lemma KnightTableIsGeneratedOnRank4(sq: nat)
    requires 24 <= sq < 32
    ensures KnightMovesAt(sq) == Leapers.KnightEntry(SquareBitAt(sq), 0)
  {
    if sq == 24 { KnightTableIsGeneratedAt24(); }
    else if sq == 25 { KnightTableIsGeneratedAt25(); }
    else if sq == 26 { KnightTableIsGeneratedAt26(); }
    else if sq == 27 { KnightTableIsGeneratedAt27(); }
    else if sq == 28 { KnightTableIsGeneratedAt28(); }
    else if sq == 29 { KnightTableIsGeneratedAt29(); }
    else if sq == 30 { KnightTableIsGeneratedAt30(); }
    else { KnightTableIsGeneratedAt31(); }
  }

  lemma KnightTableIsGeneratedOnRank5(sq: nat)
    requires 32 <= sq < 40
    ensures KnightMovesAt(sq) == Leapers.KnightEntry(SquareBitAt(sq), 0)
  {
    if sq == 32 { KnightTableIsGeneratedAt32(); }
    else if sq == 33 { KnightTableIsGeneratedAt33(); }
    else if sq == 34 { KnightTableIsGeneratedAt34(); }
    else if sq == 35 { KnightTableIsGeneratedAt35(); }
    else if sq == 36 { KnightTableIsGeneratedAt36(); }
    else if sq == 37 { KnightTableIsGeneratedAt37(); }
    else if sq == 38 { KnightTableIsGeneratedAt38(); }
    else { KnightTableIsGeneratedAt39(); }
  }

  lemma KnightTableIsGeneratedOnRank6(sq: nat)
    requires 40 <= sq < 48
    ensures KnightMovesAt(sq) == Leapers.KnightEntry(SquareBitAt(sq), 0)
  {
    if sq == 40 { KnightTableIsGeneratedAt40(); }
    else if sq == 41 { KnightTableIsGeneratedAt41(); }
    else if sq == 42 { KnightTableIsGeneratedAt42(); }
    else if sq == 43 { KnightTableIsGeneratedAt43(); }
    else if sq == 44 { KnightTableIsGeneratedAt44(); }
    else if sq == 45 { KnightTableIsGeneratedAt45(); }
    else if sq == 46 { KnightTableIsGeneratedAt46(); }
    else { KnightTableIsGeneratedAt47(); }
  }

  lemma KnightTableIsGeneratedOnRank7(sq: nat)
    requires 48 <= sq < 56
    ensures KnightMovesAt(sq) == Leapers.KnightEntry(SquareBitAt(sq), 0)
  {
    if sq == 48 { KnightTableIsGeneratedAt48(); }
    else if sq == 49 { KnightTableIsGeneratedAt49(); }
    else if sq == 50 { KnightTableIsGeneratedAt50(); }
    else if sq == 51 { KnightTableIsGeneratedAt51(); }
    else if sq == 52 { KnightTableIsGeneratedAt52(); }
    else if sq == 53 { KnightTableIsGeneratedAt53(); }
    else if sq == 54 { KnightTableIsGeneratedAt54(); }
    else { KnightTableIsGeneratedAt55(); }
  }

  lemma KnightTableIsGeneratedOnRank8(sq: nat)
    requires 56 <= sq < 64
    ensures KnightMovesAt(sq) == Leapers.KnightEntry(SquareBitAt(sq), 0)
  {
    if sq == 56 { KnightTableIsGeneratedAt56(); }
    else if sq == 57 { KnightTableIsGeneratedAt57(); }
    else if sq == 58 { KnightTableIsGeneratedAt58(); }
    else if sq == 59 { KnightTableIsGeneratedAt59(); }
    else if sq == 60 { KnightTableIsGeneratedAt60(); }
    else if sq == 61 { KnightTableIsGeneratedAt61(); }
    else if sq == 62 { KnightTableIsGeneratedAt62(); }
    else { KnightTableIsGeneratedAt63(); }
  }

  lemma KnightTableIsGeneratedAt0()
    ensures KnightMovesAt(0) == Leapers.KnightEntry(SquareBitAt(0), 0)
  {
    SquareBitAtAgrees(0);
    assert SquareBit(0) == 0x1;
  }

  lemma KnightTableIsGeneratedAt1()
    ensures KnightMovesAt(1) == Leapers.KnightEntry(SquareBitAt(1), 0)
  {
    SquareBitAtAgrees(1);
    assert SquareBit(1) == 0x2;
  }

  lemma KnightTableIsGeneratedAt2()
    ensures KnightMovesAt(2) == Leapers.KnightEntry(SquareBitAt(2), 0)
  {
    SquareBitAtAgrees(2);
    assert SquareBit(2) == 0x4;
  }

  lemma KnightTableIsGeneratedAt3()
    ensures KnightMovesAt(3) == Leapers.KnightEntry(SquareBitAt(3), 0)
  {
    SquareBitAtAgrees(3);
    assert SquareBit(3) == 0x8;
  }

  lemma KnightTableIsGeneratedAt4()
    ensures KnightMovesAt(4) == Leapers.KnightEntry(SquareBitAt(4), 0)
  {
    SquareBitAtAgrees(4);
    assert SquareBit(4) == 0x10;
  }

  lemma KnightTableIsGeneratedAt5()
    ensures KnightMovesAt(5) == Leapers.KnightEntry(SquareBitAt(5), 0)
  {
    SquareBitAtAgrees(5);
    assert SquareBit(5) == 0x20;
  }

  lemma KnightTableIsGeneratedAt6()
    ensures KnightMovesAt(6) == Leapers.KnightEntry(SquareBitAt(6), 0)
  {
    SquareBitAtAgrees(6);
    assert SquareBit(6) == 0x40;
  }

  lemma KnightTableIsGeneratedAt7()
    ensures KnightMovesAt(7) == Leapers.KnightEntry(SquareBitAt(7), 0)
  {
    SquareBitAtAgrees(7);
    assert SquareBit(7) == 0x80;
  }

  lemma KnightTableIsGeneratedAt8()
    ensures KnightMovesAt(8) == Leapers.KnightEntry(SquareBitAt(8), 0)
  {
    SquareBitAtAgrees(8);
    assert SquareBit(8) == 0x100;
  }

  lemma KnightTableIsGeneratedAt9()
    ensures KnightMovesAt(9) == Leapers.KnightEntry(SquareBitAt(9), 0)
  {
    SquareBitAtAgrees(9);
    assert SquareBit(9) == 0x200;
  }

  lemma KnightTableIsGeneratedAt10()
    ensures KnightMovesAt(10) == Leapers.KnightEntry(SquareBitAt(10), 0)
  {
    SquareBitAtAgrees(10);
    assert SquareBit(10) == 0x400;
  }

  lemma KnightTableIsGeneratedAt11()
    ensures KnightMovesAt(11) == Leapers.KnightEntry(SquareBitAt(11), 0)
  {
    SquareBitAtAgrees(11);
    assert SquareBit(11) == 0x800;
  }

  lemma KnightTableIsGeneratedAt12()
    ensures KnightMovesAt(12) == Leapers.KnightEntry(SquareBitAt(12), 0)
  {
    SquareBitAtAgrees(12);
    assert SquareBit(12) == 0x1000;
  }

  lemma KnightTableIsGeneratedAt13()
    ensures KnightMovesAt(13) == Leapers.KnightEntry(SquareBitAt(13), 0)
  {
    SquareBitAtAgrees(13);
    assert SquareBit(13) == 0x2000;
  }

  lemma KnightTableIsGeneratedAt14()
    ensures KnightMovesAt(14) == Leapers.KnightEntry(SquareBitAt(14), 0)
  {
    SquareBitAtAgrees(14);
    assert SquareBit(14) == 0x4000;
  }

  lemma KnightTableIsGeneratedAt15()
    ensures KnightMovesAt(15) == Leapers.KnightEntry(SquareBitAt(15), 0)
  {
    SquareBitAtAgrees(15);
    assert SquareBit(15) == 0x8000;
  }

  lemma KnightTableIsGeneratedAt16()
    ensures KnightMovesAt(16) == Leapers.KnightEntry(SquareBitAt(16), 0)
  {
    SquareBitAtAgrees(16);
    assert SquareBit(16) == 0x10000;
  }

  lemma KnightTableIsGeneratedAt17()
    ensures KnightMovesAt(17) == Leapers.KnightEntry(SquareBitAt(17), 0)
  {
    SquareBitAtAgrees(17);
    assert SquareBit(17) == 0x20000;
  }

  lemma KnightTableIsGeneratedAt18()
    ensures KnightMovesAt(18) == Leapers.KnightEntry(SquareBitAt(18), 0)
  {
    SquareBitAtAgrees(18);
    assert SquareBit(18) == 0x40000;
  }

  lemma KnightTableIsGeneratedAt19()
    ensures KnightMovesAt(19) == Leapers.KnightEntry(SquareBitAt(19), 0)
  {
    SquareBitAtAgrees(19);
    assert SquareBit(19) == 0x80000;
  }

  lemma KnightTableIsGeneratedAt20()
    ensures KnightMovesAt(20) == Leapers.KnightEntry(SquareBitAt(20), 0)
  {
    SquareBitAtAgrees(20);
    assert SquareBit(20) == 0x100000;
  }

  lemma KnightTableIsGeneratedAt21()
    ensures KnightMovesAt(21) == Leapers.KnightEntry(SquareBitAt(21), 0)
  {
    SquareBitAtAgrees(21);
    assert SquareBit(21) == 0x200000;
  }

  lemma KnightTableIsGeneratedAt22()
    ensures KnightMovesAt(22) == Leapers.KnightEntry(SquareBitAt(22), 0)
  {
    SquareBitAtAgrees(22);
    assert SquareBit(22) == 0x400000;
  }

  lemma KnightTableIsGeneratedAt23()
    ensures KnightMovesAt(23) == Leapers.KnightEntry(SquareBitAt(23), 0)
  {
    SquareBitAtAgrees(23);
    assert SquareBit(23) == 0x800000;
  }

  lemma KnightTableIsGeneratedAt24()
    ensures KnightMovesAt(24) == Leapers.KnightEntry(SquareBitAt(24), 0)
  {
    SquareBitAtAgrees(24);
    assert SquareBit(24) == 0x1000000;
  }

  lemma KnightTableIsGeneratedAt25()
    ensures KnightMovesAt(25) == Leapers.KnightEntry(SquareBitAt(25), 0)
  {
    SquareBitAtAgrees(25);
    assert SquareBit(25) == 0x2000000;
  }

  lemma KnightTableIsGeneratedAt26()
    ensures KnightMovesAt(26) == Leapers.KnightEntry(SquareBitAt(26), 0)
  {
    SquareBitAtAgrees(26);
    assert SquareBit(26) == 0x4000000;
  }

  lemma KnightTableIsGeneratedAt27()
    ensures KnightMovesAt(27) == Leapers.KnightEntry(SquareBitAt(27), 0)
  {
    SquareBitAtAgrees(27);
    assert SquareBit(27) == 0x8000000;
  }

  lemma KnightTableIsGeneratedAt28()
    ensures KnightMovesAt(28) == Leapers.KnightEntry(SquareBitAt(28), 0)
  {
    SquareBitAtAgrees(28);
    assert SquareBit(28) == 0x10000000;
  }

  lemma KnightTableIsGeneratedAt29()
    ensures KnightMovesAt(29) == Leapers.KnightEntry(SquareBitAt(29), 0)
  {
    SquareBitAtAgrees(29);
    assert SquareBit(29) == 0x20000000;
  }

  lemma KnightTableIsGeneratedAt30()
    ensures KnightMovesAt(30) == Leapers.KnightEntry(SquareBitAt(30), 0)
  {
    SquareBitAtAgrees(30);
    assert SquareBit(30) == 0x40000000;
  }

  lemma KnightTableIsGeneratedAt31()
    ensures KnightMovesAt(31) == Leapers.KnightEntry(SquareBitAt(31), 0)
  {
    SquareBitAtAgrees(31);
    assert SquareBit(31) == 0x80000000;
  }

  lemma KnightTableIsGeneratedAt32()
    ensures KnightMovesAt(32) == Leapers.KnightEntry(SquareBitAt(32), 0)
  {
    SquareBitAtAgrees(32);
    assert SquareBit(32) == 0x100000000;
  }

  lemma KnightTableIsGeneratedAt33()
    ensures KnightMovesAt(33) == Leapers.KnightEntry(SquareBitAt(33), 0)
  {
    SquareBitAtAgrees(33);
    assert SquareBit(33) == 0x200000000;
  }

  lemma KnightTableIsGeneratedAt34()
    ensures KnightMovesAt(34) == Leapers.KnightEntry(SquareBitAt(34), 0)
  {
    SquareBitAtAgrees(34);
    assert SquareBit(34) == 0x400000000;
  }

  lemma KnightTableIsGeneratedAt35()
    ensures KnightMovesAt(35) == Leapers.KnightEntry(SquareBitAt(35), 0)
  {
    SquareBitAtAgrees(35);
    assert SquareBit(35) == 0x800000000;
  }

  lemma KnightTableIsGeneratedAt36()
    ensures KnightMovesAt(36) == Leapers.KnightEntry(SquareBitAt(36), 0)
  {
    SquareBitAtAgrees(36);
    assert SquareBit(36) == 0x1000000000;
  }

  lemma KnightTableIsGeneratedAt37()
    ensures KnightMovesAt(37) == Leapers.KnightEntry(SquareBitAt(37), 0)
  {
    SquareBitAtAgrees(37);
    assert SquareBit(37) == 0x2000000000;
  }

  lemma KnightTableIsGeneratedAt38()
    ensures KnightMovesAt(38) == Leapers.KnightEntry(SquareBitAt(38), 0)
  {
    SquareBitAtAgrees(38);
    assert SquareBit(38) == 0x4000000000;
  }

  lemma KnightTableIsGeneratedAt39()
    ensures KnightMovesAt(39) == Leapers.KnightEntry(SquareBitAt(39), 0)
  {
    SquareBitAtAgrees(39);
    assert SquareBit(39) == 0x8000000000;
  }

  lemma KnightTableIsGeneratedAt40()
    ensures KnightMovesAt(40) == Leapers.KnightEntry(SquareBitAt(40), 0)
  {
    SquareBitAtAgrees(40);
    assert SquareBit(40) == 0x10000000000;
  }

  lemma KnightTableIsGeneratedAt41()
    ensures KnightMovesAt(41) == Leapers.KnightEntry(SquareBitAt(41), 0)
  {
    SquareBitAtAgrees(41);
    assert SquareBit(41) == 0x20000000000;
  }

  lemma KnightTableIsGeneratedAt42()
    ensures KnightMovesAt(42) == Leapers.KnightEntry(SquareBitAt(42), 0)
  {
    SquareBitAtAgrees(42);
    assert SquareBit(42) == 0x40000000000;
  }

  lemma KnightTableIsGeneratedAt43()
    ensures KnightMovesAt(43) == Leapers.KnightEntry(SquareBitAt(43), 0)
  {
    SquareBitAtAgrees(43);
    assert SquareBit(43) == 0x80000000000;
  }

  lemma KnightTableIsGeneratedAt44()
    ensures KnightMovesAt(44) == Leapers.KnightEntry(SquareBitAt(44), 0)
  {
    SquareBitAtAgrees(44);
    assert SquareBit(44) == 0x100000000000;
  }

  lemma KnightTableIsGeneratedAt45()
    ensures KnightMovesAt(45) == Leapers.KnightEntry(SquareBitAt(45), 0)
  {
    SquareBitAtAgrees(45);
    assert SquareBit(45) == 0x200000000000;
  }

  lemma KnightTableIsGeneratedAt46()
    ensures KnightMovesAt(46) == Leapers.KnightEntry(SquareBitAt(46), 0)
  {
    SquareBitAtAgrees(46);
    assert SquareBit(46) == 0x400000000000;
  }

  lemma KnightTableIsGeneratedAt47()
    ensures KnightMovesAt(47) == Leapers.KnightEntry(SquareBitAt(47), 0)
  {
    SquareBitAtAgrees(47);
    assert SquareBit(47) == 0x800000000000;
  }

  lemma KnightTableIsGeneratedAt48()
    ensures KnightMovesAt(48) == Leapers.KnightEntry(SquareBitAt(48), 0)
  {
    SquareBitAtAgrees(48);
    assert SquareBit(48) == 0x1000000000000;
  }

  lemma KnightTableIsGeneratedAt49()
    ensures KnightMovesAt(49) == Leapers.KnightEntry(SquareBitAt(49), 0)
  {
    SquareBitAtAgrees(49);
    assert SquareBit(49) == 0x2000000000000;
  }

  lemma KnightTableIsGeneratedAt50()
    ensures KnightMovesAt(50) == Leapers.KnightEntry(SquareBitAt(50), 0)
  {
    SquareBitAtAgrees(50);
    assert SquareBit(50) == 0x4000000000000;
  }

  lemma KnightTableIsGeneratedAt51()
    ensures KnightMovesAt(51) == Leapers.KnightEntry(SquareBitAt(51), 0)
  {
    SquareBitAtAgrees(51);
    assert SquareBit(51) == 0x8000000000000;
  }

  lemma KnightTableIsGeneratedAt52()
    ensures KnightMovesAt(52) == Leapers.KnightEntry(SquareBitAt(52), 0)
  {
    SquareBitAtAgrees(52);
    assert SquareBit(52) == 0x10000000000000;
  }

  lemma KnightTableIsGeneratedAt53()
    ensures KnightMovesAt(53) == Leapers.KnightEntry(SquareBitAt(53), 0)
  {
    SquareBitAtAgrees(53);
    assert SquareBit(53) == 0x20000000000000;
  }

  lemma KnightTableIsGeneratedAt54()
    ensures KnightMovesAt(54) == Leapers.KnightEntry(SquareBitAt(54), 0)
  {
    SquareBitAtAgrees(54);
    assert SquareBit(54) == 0x40000000000000;
  }

  lemma KnightTableIsGeneratedAt55()
    ensures KnightMovesAt(55) == Leapers.KnightEntry(SquareBitAt(55), 0)
  {
    SquareBitAtAgrees(55);
    assert SquareBit(55) == 0x80000000000000;
  }

  lemma KnightTableIsGeneratedAt56()
    ensures KnightMovesAt(56) == Leapers.KnightEntry(SquareBitAt(56), 0)
  {
    SquareBitAtAgrees(56);
    assert SquareBit(56) == 0x100000000000000;
  }

  lemma KnightTableIsGeneratedAt57()
    ensures KnightMovesAt(57) == Leapers.KnightEntry(SquareBitAt(57), 0)
  {
    SquareBitAtAgrees(57);
    assert SquareBit(57) == 0x200000000000000;
  }

  lemma KnightTableIsGeneratedAt58()
    ensures KnightMovesAt(58) == Leapers.KnightEntry(SquareBitAt(58), 0)
  {
    SquareBitAtAgrees(58);
    assert SquareBit(58) == 0x400000000000000;
  }

  lemma KnightTableIsGeneratedAt59()
    ensures KnightMovesAt(59) == Leapers.KnightEntry(SquareBitAt(59), 0)
  {
    SquareBitAtAgrees(59);
    assert SquareBit(59) == 0x800000000000000;
  }

  lemma KnightTableIsGeneratedAt60()
    ensures KnightMovesAt(60) == Leapers.KnightEntry(SquareBitAt(60), 0)
  {
    SquareBitAtAgrees(60);
    assert SquareBit(60) == 0x1000000000000000;
  }

  lemma KnightTableIsGeneratedAt61()
    ensures KnightMovesAt(61) == Leapers.KnightEntry(SquareBitAt(61), 0)
  {
    SquareBitAtAgrees(61);
    assert SquareBit(61) == 0x2000000000000000;
  }

  lemma KnightTableIsGeneratedAt62()
    ensures KnightMovesAt(62) == Leapers.KnightEntry(SquareBitAt(62), 0)
  {
    SquareBitAtAgrees(62);
    assert SquareBit(62) == 0x4000000000000000;
  }

  lemma KnightTableIsGeneratedAt63()
    ensures KnightMovesAt(63) == Leapers.KnightEntry(SquareBitAt(63), 0)
  {
    SquareBitAtAgrees(63);
    assert SquareBit(63) == 0x8000000000000000;
  }

  /** Every `KING_MOVES` entry is what `pre_compute_king_moves` writes for that square. */
  lemma KingTableIsGenerated(sq: nat)
    requires sq < 64
    ensures KingMovesAt(sq) == Leapers.KingMoves(0, SquareBitAt(sq))
  {
    if sq < 8 { KingTableIsGeneratedOnRank1(sq); }
    else if sq < 16 { KingTableIsGeneratedOnRank2(sq); }
    else if sq < 24 { KingTableIsGeneratedOnRank3(sq); }
    else if sq < 32 { KingTableIsGeneratedOnRank4(sq); }
    else if sq < 40 { KingTableIsGeneratedOnRank5(sq); }
    else if sq < 48 { KingTableIsGeneratedOnRank6(sq); }
    else if sq < 56 { KingTableIsGeneratedOnRank7(sq); }
    else { KingTableIsGeneratedOnRank8(sq); }
  }

  lemma KingTableIsGeneratedOnRank1(sq: nat)
    requires 0 <= sq < 8
    ensures KingMovesAt(sq) == Leapers.KingMoves(0, SquareBitAt(sq))
  {
    if sq == 0 { KingTableIsGeneratedAt0(); }
    else if sq == 1 { KingTableIsGeneratedAt1(); }
    else if sq == 2 { KingTableIsGeneratedAt2(); }
    else if sq == 3 { KingTableIsGeneratedAt3(); }
    else if sq == 4 { KingTableIsGeneratedAt4(); }
    else if sq == 5 { KingTableIsGeneratedAt5(); }
    else if sq == 6 { KingTableIsGeneratedAt6(); }
    else { KingTableIsGeneratedAt7(); }
  }

  lemma KingTableIsGeneratedOnRank2(sq: nat)
    requires 8 <= sq < 16
    ensures KingMovesAt(sq) == Leapers.KingMoves(0, SquareBitAt(sq))
  {
    if sq == 8 { KingTableIsGeneratedAt8(); }
    else if sq == 9 { KingTableIsGeneratedAt9(); }
    else if sq == 10 { KingTableIsGeneratedAt10(); }
    else if sq == 11 { KingTableIsGeneratedAt11(); }
    else if sq == 12 { KingTableIsGeneratedAt12(); }
    else if sq == 13 { KingTableIsGeneratedAt13(); }
    else if sq == 14 { KingTableIsGeneratedAt14(); }
    else { KingTableIsGeneratedAt15(); }
  }

  lemma KingTableIsGeneratedOnRank3(sq: nat)
    requires 16 <= sq < 24
    ensures KingMovesAt(sq) == Leapers.KingMoves(0, SquareBitAt(sq))
  {
    if sq == 16 { KingTableIsGeneratedAt16(); }
    else if sq == 17 { KingTableIsGeneratedAt17(); }
    else if sq == 18 { KingTableIsGeneratedAt18(); }
    else if sq == 19 { KingTableIsGeneratedAt19(); }
    else if sq == 20 { KingTableIsGeneratedAt20(); }
    else if sq == 21 { KingTableIsGeneratedAt21(); }
    else if sq == 22 { KingTableIsGeneratedAt22(); }
    else { KingTableIsGeneratedAt23(); }
  }

  lemma KingTableIsGeneratedOnRank4(sq: nat)
    requires 24 <= sq < 32
    ensures KingMovesAt(sq) == Leapers.KingMoves(0, SquareBitAt(sq))
  {
    if sq == 24 { KingTableIsGeneratedAt24(); }
    else if sq == 25 { KingTableIsGeneratedAt25(); }
    else if sq == 26 { KingTableIsGeneratedAt26(); }
    else if sq == 27 { KingTableIsGeneratedAt27(); }
    else if sq == 28 { KingTableIsGeneratedAt28(); }
    else if sq == 29 { KingTableIsGeneratedAt29(); }
    else if sq == 30 { KingTableIsGeneratedAt30(); }
    else { KingTableIsGeneratedAt31(); }
  }

  lemma KingTableIsGeneratedOnRank5(sq: nat)
    requires 32 <= sq < 40
    ensures KingMovesAt(sq) == Leapers.KingMoves(0, SquareBitAt(sq))
  {
    if sq == 32 { KingTableIsGeneratedAt32(); }
    else if sq == 33 { KingTableIsGeneratedAt33(); }
    else if sq == 34 { KingTableIsGeneratedAt34(); }
    else if sq == 35 { KingTableIsGeneratedAt35(); }
    else if sq == 36 { KingTableIsGeneratedAt36(); }
    else if sq == 37 { KingTableIsGeneratedAt37(); }
    else if sq == 38 { KingTableIsGeneratedAt38(); }
    else { KingTableIsGeneratedAt39(); }
  }

  lemma KingTableIsGeneratedOnRank6(sq: nat)
    requires 40 <= sq < 48
    ensures KingMovesAt(sq) == Leapers.KingMoves(0, SquareBitAt(sq))
  {
    if sq == 40 { KingTableIsGeneratedAt40(); }
    else if sq == 41 { KingTableIsGeneratedAt41(); }
    else if sq == 42 { KingTableIsGeneratedAt42(); }
    else if sq == 43 { KingTableIsGeneratedAt43(); }
    else if sq == 44 { KingTableIsGeneratedAt44(); }
    else if sq == 45 { KingTableIsGeneratedAt45(); }
    else if sq == 46 { KingTableIsGeneratedAt46(); }
    else { KingTableIsGeneratedAt47(); }
  }

  lemma KingTableIsGeneratedOnRank7(sq: nat)
    requires 48 <= sq < 56
    ensures KingMovesAt(sq) == Leapers.KingMoves(0, SquareBitAt(sq))
  {
    if sq == 48 { KingTableIsGeneratedAt48(); }
    else if sq == 49 { KingTableIsGeneratedAt49(); }
    else if sq == 50 { KingTableIsGeneratedAt50(); }
    else if sq == 51 { KingTableIsGeneratedAt51(); }
    else if sq == 52 { KingTableIsGeneratedAt52(); }
    else if sq == 53 { KingTableIsGeneratedAt53(); }
    else if sq == 54 { KingTableIsGeneratedAt54(); }
    else { KingTableIsGeneratedAt55(); }
  }

  lemma KingTableIsGeneratedOnRank8(sq: nat)
    requires 56 <= sq < 64
    ensures KingMovesAt(sq) == Leapers.KingMoves(0, SquareBitAt(sq))
  {
    if sq == 56 { KingTableIsGeneratedAt56(); }
    else if sq == 57 { KingTableIsGeneratedAt57(); }
    else if sq == 58 { KingTableIsGeneratedAt58(); }
    else if sq == 59 { KingTableIsGeneratedAt59(); }
    else if sq == 60 { KingTableIsGeneratedAt60(); }
    else if sq == 61 { KingTableIsGeneratedAt61(); }
    else if sq == 62 { KingTableIsGeneratedAt62(); }
    else { KingTableIsGeneratedAt63(); }
  }

  lemma KingTableIsGeneratedAt0()
    ensures KingMovesAt(0) == Leapers.KingMoves(0, SquareBitAt(0))
  {
    SquareBitAtAgrees(0);
    assert SquareBit(0) == 0x1;
  }

  lemma KingTableIsGeneratedAt1()
    ensures KingMovesAt(1) == Leapers.KingMoves(0, SquareBitAt(1))
  {
    SquareBitAtAgrees(1);
    assert SquareBit(1) == 0x2;
  }

  lemma KingTableIsGeneratedAt2()
    ensures KingMovesAt(2) == Leapers.KingMoves(0, SquareBitAt(2))
  {
    SquareBitAtAgrees(2);
    assert SquareBit(2) == 0x4;
  }

  lemma KingTableIsGeneratedAt3()
    ensures KingMovesAt(3) == Leapers.KingMoves(0, SquareBitAt(3))
  {
    SquareBitAtAgrees(3);
    assert SquareBit(3) == 0x8;
  }

  lemma KingTableIsGeneratedAt4()
    ensures KingMovesAt(4) == Leapers.KingMoves(0, SquareBitAt(4))
  {
    SquareBitAtAgrees(4);
    assert SquareBit(4) == 0x10;
  }

  lemma KingTableIsGeneratedAt5()
    ensures KingMovesAt(5) == Leapers.KingMoves(0, SquareBitAt(5))
  {
    SquareBitAtAgrees(5);
    assert SquareBit(5) == 0x20;
  }

  lemma KingTableIsGeneratedAt6()
    ensures KingMovesAt(6) == Leapers.KingMoves(0, SquareBitAt(6))
  {
    SquareBitAtAgrees(6);
    assert SquareBit(6) == 0x40;
  }

  lemma KingTableIsGeneratedAt7()
    ensures KingMovesAt(7) == Leapers.KingMoves(0, SquareBitAt(7))
  {
    SquareBitAtAgrees(7);
    assert SquareBit(7) == 0x80;
  }

  lemma KingTableIsGeneratedAt8()
    ensures KingMovesAt(8) == Leapers.KingMoves(0, SquareBitAt(8))
  {
    SquareBitAtAgrees(8);
    assert SquareBit(8) == 0x100;
  }

  lemma KingTableIsGeneratedAt9()
    ensures KingMovesAt(9) == Leapers.KingMoves(0, SquareBitAt(9))
  {
    SquareBitAtAgrees(9);
    assert SquareBit(9) == 0x200;
  }

  lemma KingTableIsGeneratedAt10()
    ensures KingMovesAt(10) == Leapers.KingMoves(0, SquareBitAt(10))
  {
    SquareBitAtAgrees(10);
    assert SquareBit(10) == 0x400;
  }

  lemma KingTableIsGeneratedAt11()
    ensures KingMovesAt(11) == Leapers.KingMoves(0, SquareBitAt(11))
  {
    SquareBitAtAgrees(11);
    assert SquareBit(11) == 0x800;
  }

  lemma KingTableIsGeneratedAt12()
    ensures KingMovesAt(12) == Leapers.KingMoves(0, SquareBitAt(12))
  {
    SquareBitAtAgrees(12);
    assert SquareBit(12) == 0x1000;
  }

  lemma KingTableIsGeneratedAt13()
    ensures KingMovesAt(13) == Leapers.KingMoves(0, SquareBitAt(13))
  {
    SquareBitAtAgrees(13);
    assert SquareBit(13) == 0x2000;
  }

  lemma KingTableIsGeneratedAt14()
    ensures KingMovesAt(14) == Leapers.KingMoves(0, SquareBitAt(14))
  {
    SquareBitAtAgrees(14);
    assert SquareBit(14) == 0x4000;
  }

  lemma KingTableIsGeneratedAt15()
    ensures KingMovesAt(15) == Leapers.KingMoves(0, SquareBitAt(15))
  {
    SquareBitAtAgrees(15);
    assert SquareBit(15) == 0x8000;
  }

  lemma KingTableIsGeneratedAt16()
    ensures KingMovesAt(16) == Leapers.KingMoves(0, SquareBitAt(16))
  {
    SquareBitAtAgrees(16);
    assert SquareBit(16) == 0x10000;
  }

  lemma KingTableIsGeneratedAt17()
    ensures KingMovesAt(17) == Leapers.KingMoves(0, SquareBitAt(17))
  {
    SquareBitAtAgrees(17);
    assert SquareBit(17) == 0x20000;
  }

  lemma KingTableIsGeneratedAt18()
    ensures KingMovesAt(18) == Leapers.KingMoves(0, SquareBitAt(18))
  {
    SquareBitAtAgrees(18);
    assert SquareBit(18) == 0x40000;
  }

  lemma KingTableIsGeneratedAt19()
    ensures KingMovesAt(19) == Leapers.KingMoves(0, SquareBitAt(19))
  {
    SquareBitAtAgrees(19);
    assert SquareBit(19) == 0x80000;
  }

  lemma KingTableIsGeneratedAt20()
    ensures KingMovesAt(20) == Leapers.KingMoves(0, SquareBitAt(20))
  {
    SquareBitAtAgrees(20);
    assert SquareBit(20) == 0x100000;
  }

  lemma KingTableIsGeneratedAt21()
    ensures KingMovesAt(21) == Leapers.KingMoves(0, SquareBitAt(21))
  {
    SquareBitAtAgrees(21);
    assert SquareBit(21) == 0x200000;
  }

  lemma KingTableIsGeneratedAt22()
    ensures KingMovesAt(22) == Leapers.KingMoves(0, SquareBitAt(22))
  {
    SquareBitAtAgrees(22);
    assert SquareBit(22) == 0x400000;
  }

  lemma KingTableIsGeneratedAt23()
    ensures KingMovesAt(23) == Leapers.KingMoves(0, SquareBitAt(23))
  {
    SquareBitAtAgrees(23);
    assert SquareBit(23) == 0x800000;
  }

  lemma KingTableIsGeneratedAt24()
    ensures KingMovesAt(24) == Leapers.KingMoves(0, SquareBitAt(24))
  {
    SquareBitAtAgrees(24);
    assert SquareBit(24) == 0x1000000;
  }

  lemma KingTableIsGeneratedAt25()
    ensures KingMovesAt(25) == Leapers.KingMoves(0, SquareBitAt(25))
  {
    SquareBitAtAgrees(25);
    assert SquareBit(25) == 0x2000000;
  }

  lemma KingTableIsGeneratedAt26()
    ensures KingMovesAt(26) == Leapers.KingMoves(0, SquareBitAt(26))
  {
    SquareBitAtAgrees(26);
    assert SquareBit(26) == 0x4000000;
  }

  lemma KingTableIsGeneratedAt27()
    ensures KingMovesAt(27) == Leapers.KingMoves(0, SquareBitAt(27))
  {
    SquareBitAtAgrees(27);
    assert SquareBit(27) == 0x8000000;
  }

  lemma KingTableIsGeneratedAt28()
    ensures KingMovesAt(28) == Leapers.KingMoves(0, SquareBitAt(28))
  {
    SquareBitAtAgrees(28);
    assert SquareBit(28) == 0x10000000;
  }

  lemma KingTableIsGeneratedAt29()
    ensures KingMovesAt(29) == Leapers.KingMoves(0, SquareBitAt(29))
  {
    SquareBitAtAgrees(29);
    assert SquareBit(29) == 0x20000000;
  }

  lemma KingTableIsGeneratedAt30()
    ensures KingMovesAt(30) == Leapers.KingMoves(0, SquareBitAt(30))
  {
    SquareBitAtAgrees(30);
    assert SquareBit(30) == 0x40000000;
  }

  lemma KingTableIsGeneratedAt31()
    ensures KingMovesAt(31) == Leapers.KingMoves(0, SquareBitAt(31))
  {
    SquareBitAtAgrees(31);
    assert SquareBit(31) == 0x80000000;
  }

  lemma KingTableIsGeneratedAt32()
    ensures KingMovesAt(32) == Leapers.KingMoves(0, SquareBitAt(32))
  {
    SquareBitAtAgrees(32);
    assert SquareBit(32) == 0x100000000;
  }

  lemma KingTableIsGeneratedAt33()
    ensures KingMovesAt(33) == Leapers.KingMoves(0, SquareBitAt(33))
  {
    SquareBitAtAgrees(33);
    assert SquareBit(33) == 0x200000000;
  }

  lemma KingTableIsGeneratedAt34()
    ensures KingMovesAt(34) == Leapers.KingMoves(0, SquareBitAt(34))
  {
    SquareBitAtAgrees(34);
    assert SquareBit(34) == 0x400000000;
  }

  lemma KingTableIsGeneratedAt35()
    ensures KingMovesAt(35) == Leapers.KingMoves(0, SquareBitAt(35))
  {
    SquareBitAtAgrees(35);
    assert SquareBit(35) == 0x800000000;
  }

  lemma KingTableIsGeneratedAt36()
    ensures KingMovesAt(36) == Leapers.KingMoves(0, SquareBitAt(36))
  {
    SquareBitAtAgrees(36);
    assert SquareBit(36) == 0x1000000000;
  }

  lemma KingTableIsGeneratedAt37()
    ensures KingMovesAt(37) == Leapers.KingMoves(0, SquareBitAt(37))
  {
    SquareBitAtAgrees(37);
    assert SquareBit(37) == 0x2000000000;
  }

  lemma KingTableIsGeneratedAt38()
    ensures KingMovesAt(38) == Leapers.KingMoves(0, SquareBitAt(38))
  {
    SquareBitAtAgrees(38);
    assert SquareBit(38) == 0x4000000000;
  }

  lemma KingTableIsGeneratedAt39()
    ensures KingMovesAt(39) == Leapers.KingMoves(0, SquareBitAt(39))
  {
    SquareBitAtAgrees(39);
    assert SquareBit(39) == 0x8000000000;
  }

  lemma KingTableIsGeneratedAt40()
    ensures KingMovesAt(40) == Leapers.KingMoves(0, SquareBitAt(40))
  {
    SquareBitAtAgrees(40);
    assert SquareBit(40) == 0x10000000000;
  }

  lemma KingTableIsGeneratedAt41()
    ensures KingMovesAt(41) == Leapers.KingMoves(0, SquareBitAt(41))
  {
    SquareBitAtAgrees(41);
    assert SquareBit(41) == 0x20000000000;
  }

  lemma KingTableIsGeneratedAt42()
    ensures KingMovesAt(42) == Leapers.KingMoves(0, SquareBitAt(42))
  {
    SquareBitAtAgrees(42);
    assert SquareBit(42) == 0x40000000000;
  }

  lemma KingTableIsGeneratedAt43()
    ensures KingMovesAt(43) == Leapers.KingMoves(0, SquareBitAt(43))
  {
    SquareBitAtAgrees(43);
    assert SquareBit(43) == 0x80000000000;
  }

  lemma KingTableIsGeneratedAt44()
    ensures KingMovesAt(44) == Leapers.KingMoves(0, SquareBitAt(44))
  {
    SquareBitAtAgrees(44);
    assert SquareBit(44) == 0x100000000000;
  }

  lemma KingTableIsGeneratedAt45()
    ensures KingMovesAt(45) == Leapers.KingMoves(0, SquareBitAt(45))
  {
    SquareBitAtAgrees(45);
    assert SquareBit(45) == 0x200000000000;
  }

  lemma KingTableIsGeneratedAt46()
    ensures KingMovesAt(46) == Leapers.KingMoves(0, SquareBitAt(46))
  {
    SquareBitAtAgrees(46);
    assert SquareBit(46) == 0x400000000000;
  }

  lemma KingTableIsGeneratedAt47()
    ensures KingMovesAt(47) == Leapers.KingMoves(0, SquareBitAt(47))
  {
    SquareBitAtAgrees(47);
    assert SquareBit(47) == 0x800000000000;
  }

  lemma KingTableIsGeneratedAt48()
    ensures KingMovesAt(48) == Leapers.KingMoves(0, SquareBitAt(48))
  {
    SquareBitAtAgrees(48);
    assert SquareBit(48) == 0x1000000000000;
  }

  lemma KingTableIsGeneratedAt49()
    ensures KingMovesAt(49) == Leapers.KingMoves(0, SquareBitAt(49))
  {
    SquareBitAtAgrees(49);
    assert SquareBit(49) == 0x2000000000000;
  }

  lemma KingTableIsGeneratedAt50()
    ensures KingMovesAt(50) == Leapers.KingMoves(0, SquareBitAt(50))
  {
    SquareBitAtAgrees(50);
    assert SquareBit(50) == 0x4000000000000;
  }

  lemma KingTableIsGeneratedAt51()
    ensures KingMovesAt(51) == Leapers.KingMoves(0, SquareBitAt(51))
  {
    SquareBitAtAgrees(51);
    assert SquareBit(51) == 0x8000000000000;
  }

  lemma KingTableIsGeneratedAt52()
    ensures KingMovesAt(52) == Leapers.KingMoves(0, SquareBitAt(52))
  {
    SquareBitAtAgrees(52);
    assert SquareBit(52) == 0x10000000000000;
  }

  lemma KingTableIsGeneratedAt53()
    ensures KingMovesAt(53) == Leapers.KingMoves(0, SquareBitAt(53))
  {
    SquareBitAtAgrees(53);
    assert SquareBit(53) == 0x20000000000000;
  }

  lemma KingTableIsGeneratedAt54()
    ensures KingMovesAt(54) == Leapers.KingMoves(0, SquareBitAt(54))
  {
    SquareBitAtAgrees(54);
    assert SquareBit(54) == 0x40000000000000;
  }

  lemma KingTableIsGeneratedAt55()
    ensures KingMovesAt(55) == Leapers.KingMoves(0, SquareBitAt(55))
  {
    SquareBitAtAgrees(55);
    assert SquareBit(55) == 0x80000000000000;
  }

  lemma KingTableIsGeneratedAt56()
    ensures KingMovesAt(56) == Leapers.KingMoves(0, SquareBitAt(56))
  {
    SquareBitAtAgrees(56);
    assert SquareBit(56) == 0x100000000000000;
  }

  lemma KingTableIsGeneratedAt57()
    ensures KingMovesAt(57) == Leapers.KingMoves(0, SquareBitAt(57))
  {
    SquareBitAtAgrees(57);
    assert SquareBit(57) == 0x200000000000000;
  }

  lemma KingTableIsGeneratedAt58()
    ensures KingMovesAt(58) == Leapers.KingMoves(0, SquareBitAt(58))
  {
    SquareBitAtAgrees(58);
    assert SquareBit(58) == 0x400000000000000;
  }

  lemma KingTableIsGeneratedAt59()
    ensures KingMovesAt(59) == Leapers.KingMoves(0, SquareBitAt(59))
  {
    SquareBitAtAgrees(59);
    assert SquareBit(59) == 0x800000000000000;
  }

  lemma KingTableIsGeneratedAt60()
    ensures KingMovesAt(60) == Leapers.KingMoves(0, SquareBitAt(60))
  {
    SquareBitAtAgrees(60);
    assert SquareBit(60) == 0x1000000000000000;
  }

  lemma KingTableIsGeneratedAt61()
    ensures KingMovesAt(61) == Leapers.KingMoves(0, SquareBitAt(61))
  {
    SquareBitAtAgrees(61);
    assert SquareBit(61) == 0x2000000000000000;
  }

  lemma KingTableIsGeneratedAt62()
    ensures KingMovesAt(62) == Leapers.KingMoves(0, SquareBitAt(62))
  {
    SquareBitAtAgrees(62);
    assert SquareBit(62) == 0x4000000000000000;
  }

  lemma KingTableIsGeneratedAt63()
    ensures KingMovesAt(63) == Leapers.KingMoves(0, SquareBitAt(63))
  {
    SquareBitAtAgrees(63);
    assert SquareBit(63) == 0x8000000000000000;
  }

  /** Every `WHITE_PAWN_ATTACKS` entry is what `pre_compute_pawn_attacks` writes with the two northern diagonal steps. */
  lemma WhitePawnAttacksAreGenerated(sq: nat)
    requires sq < 64
    ensures WhitePawnAttacksAt(sq) == Leapers.PawnAttacks(SquareBitAt(sq), true)
  {
    if sq < 8 { WhitePawnAttacksAreGeneratedOnRank1(sq); }
    else if sq < 16 { WhitePawnAttacksAreGeneratedOnRank2(sq); }
    else if sq < 24 { WhitePawnAttacksAreGeneratedOnRank3(sq); }
    else if sq < 32 { WhitePawnAttacksAreGeneratedOnRank4(sq); }
    else if sq < 40 { WhitePawnAttacksAreGeneratedOnRank5(sq); }
    else if sq < 48 { WhitePawnAttacksAreGeneratedOnRank6(sq); }
    else if sq < 56 { WhitePawnAttacksAreGeneratedOnRank7(sq); }
    else { WhitePawnAttacksAreGeneratedOnRank8(sq); }
  }

  lemma WhitePawnAttacksAreGeneratedOnRank1(sq: nat)
    requires 0 <= sq < 8
    ensures WhitePawnAttacksAt(sq) == Leapers.PawnAttacks(SquareBitAt(sq), true)
  {
    if sq == 0 { WhitePawnAttacksAreGeneratedAt0(); }
    else if sq == 1 { WhitePawnAttacksAreGeneratedAt1(); }
    else if sq == 2 { WhitePawnAttacksAreGeneratedAt2(); }
    else if sq == 3 { WhitePawnAttacksAreGeneratedAt3(); }
    else if sq == 4 { WhitePawnAttacksAreGeneratedAt4(); }
    else if sq == 5 { WhitePawnAttacksAreGeneratedAt5(); }
    else if sq == 6 { WhitePawnAttacksAreGeneratedAt6(); }
    else { WhitePawnAttacksAreGeneratedAt7(); }
  }

  lemma WhitePawnAttacksAreGeneratedOnRank2(sq: nat)
    requires 8 <= sq < 16
    ensures WhitePawnAttacksAt(sq) == Leapers.PawnAttacks(SquareBitAt(sq), true)
  {
    if sq == 8 { WhitePawnAttacksAreGeneratedAt8(); }
    else if sq == 9 { WhitePawnAttacksAreGeneratedAt9(); }
    else if sq == 10 { WhitePawnAttacksAreGeneratedAt10(); }
    else if sq == 11 { WhitePawnAttacksAreGeneratedAt11(); }
    else if sq == 12 { WhitePawnAttacksAreGeneratedAt12(); }
    else if sq == 13 { WhitePawnAttacksAreGeneratedAt13(); }
    else if sq == 14 { WhitePawnAttacksAreGeneratedAt14(); }
    else { WhitePawnAttacksAreGeneratedAt15(); }
  }

  lemma WhitePawnAttacksAreGeneratedOnRank3(sq: nat)
    requires 16 <= sq < 24
    ensures WhitePawnAttacksAt(sq) == Leapers.PawnAttacks(SquareBitAt(sq), true)
  {
    if sq == 16 { WhitePawnAttacksAreGeneratedAt16(); }
    else if sq == 17 { WhitePawnAttacksAreGeneratedAt17(); }
    else if sq == 18 { WhitePawnAttacksAreGeneratedAt18(); }
    else if sq == 19 { WhitePawnAttacksAreGeneratedAt19(); }
    else if sq == 20 { WhitePawnAttacksAreGeneratedAt20(); }
    else if sq == 21 { WhitePawnAttacksAreGeneratedAt21(); }
    else if sq == 22 { WhitePawnAttacksAreGeneratedAt22(); }
    else { WhitePawnAttacksAreGeneratedAt23(); }
  }

  lemma WhitePawnAttacksAreGeneratedOnRank4(sq: nat)
    requires 24 <= sq < 32
    ensures WhitePawnAttacksAt(sq) == Leapers.PawnAttacks(SquareBitAt(sq), true)
  {
    if sq == 24 { WhitePawnAttacksAreGeneratedAt24(); }
    else if sq == 25 { WhitePawnAttacksAreGeneratedAt25(); }
    else if sq == 26 { WhitePawnAttacksAreGeneratedAt26(); }
    else if sq == 27 { WhitePawnAttacksAreGeneratedAt27(); }
    else if sq == 28 { WhitePawnAttacksAreGeneratedAt28(); }
    else if sq == 29 { WhitePawnAttacksAreGeneratedAt29(); }
    else if sq == 30 { WhitePawnAttacksAreGeneratedAt30(); }
    else { WhitePawnAttacksAreGeneratedAt31(); }
  }

  lemma WhitePawnAttacksAreGeneratedOnRank5(sq: nat)
    requires 32 <= sq < 40
    ensures WhitePawnAttacksAt(sq) == Leapers.PawnAttacks(SquareBitAt(sq), true)
  {
    if sq == 32 { WhitePawnAttacksAreGeneratedAt32(); }
    else if sq == 33 { WhitePawnAttacksAreGeneratedAt33(); }
    else if sq == 34 { WhitePawnAttacksAreGeneratedAt34(); }
    else if sq == 35 { WhitePawnAttacksAreGeneratedAt35(); }
    else if sq == 36 { WhitePawnAttacksAreGeneratedAt36(); }
    else if sq == 37 { WhitePawnAttacksAreGeneratedAt37(); }
    else if sq == 38 { WhitePawnAttacksAreGeneratedAt38(); }
    else { WhitePawnAttacksAreGeneratedAt39(); }
  }

  lemma WhitePawnAttacksAreGeneratedOnRank6(sq: nat)
    requires 40 <= sq < 48
    ensures WhitePawnAttacksAt(sq) == Leapers.PawnAttacks(SquareBitAt(sq), true)
  {
    if sq == 40 { WhitePawnAttacksAreGeneratedAt40(); }
    else if sq == 41 { WhitePawnAttacksAreGeneratedAt41(); }
    else if sq == 42 { WhitePawnAttacksAreGeneratedAt42(); }
    else if sq == 43 { WhitePawnAttacksAreGeneratedAt43(); }
    else if sq == 44 { WhitePawnAttacksAreGeneratedAt44(); }
    else if sq == 45 { WhitePawnAttacksAreGeneratedAt45(); }
    else if sq == 46 { WhitePawnAttacksAreGeneratedAt46(); }
    else { WhitePawnAttacksAreGeneratedAt47(); }
  }

  lemma WhitePawnAttacksAreGeneratedOnRank7(sq: nat)
    requires 48 <= sq < 56
    ensures WhitePawnAttacksAt(sq) == Leapers.PawnAttacks(SquareBitAt(sq), true)
  {
    if sq == 48 { WhitePawnAttacksAreGeneratedAt48(); }
    else if sq == 49 { WhitePawnAttacksAreGeneratedAt49(); }
    else if sq == 50 { WhitePawnAttacksAreGeneratedAt50(); }
    else if sq == 51 { WhitePawnAttacksAreGeneratedAt51(); }
    else if sq == 52 { WhitePawnAttacksAreGeneratedAt52(); }
    else if sq == 53 { WhitePawnAttacksAreGeneratedAt53(); }
    else if sq == 54 { WhitePawnAttacksAreGeneratedAt54(); }
    else { WhitePawnAttacksAreGeneratedAt55(); }
  }

  lemma WhitePawnAttacksAreGeneratedOnRank8(sq: nat)
    requires 56 <= sq < 64
    ensures WhitePawnAttacksAt(sq) == Leapers.PawnAttacks(SquareBitAt(sq), true)
  {
    if sq == 56 { WhitePawnAttacksAreGeneratedAt56(); }
    else if sq == 57 { WhitePawnAttacksAreGeneratedAt57(); }
    else if sq == 58 { WhitePawnAttacksAreGeneratedAt58(); }
    else if sq == 59 { WhitePawnAttacksAreGeneratedAt59(); }
    else if sq == 60 { WhitePawnAttacksAreGeneratedAt60(); }
    else if sq == 61 { WhitePawnAttacksAreGeneratedAt61(); }
    else if sq == 62 { WhitePawnAttacksAreGeneratedAt62(); }
    else { WhitePawnAttacksAreGeneratedAt63(); }
  }

  lemma WhitePawnAttacksAreGeneratedAt0()
    ensures WhitePawnAttacksAt(0) == Leapers.PawnAttacks(SquareBitAt(0), true)
  {
    SquareBitAtAgrees(0);
    assert SquareBit(0) == 0x1;
  }

  lemma WhitePawnAttacksAreGeneratedAt1()
    ensures WhitePawnAttacksAt(1) == Leapers.PawnAttacks(SquareBitAt(1), true)
  {
    SquareBitAtAgrees(1);
    assert SquareBit(1) == 0x2;
  }

  lemma WhitePawnAttacksAreGeneratedAt2()
    ensures WhitePawnAttacksAt(2) == Leapers.PawnAttacks(SquareBitAt(2), true)
  {
    SquareBitAtAgrees(2);
    assert SquareBit(2) == 0x4;
  }

  lemma WhitePawnAttacksAreGeneratedAt3()
    ensures WhitePawnAttacksAt(3) == Leapers.PawnAttacks(SquareBitAt(3), true)
  {
    SquareBitAtAgrees(3);
    assert SquareBit(3) == 0x8;
  }

  lemma WhitePawnAttacksAreGeneratedAt4()
    ensures WhitePawnAttacksAt(4) == Leapers.PawnAttacks(SquareBitAt(4), true)
  {
    SquareBitAtAgrees(4);
    assert SquareBit(4) == 0x10;
  }

  lemma WhitePawnAttacksAreGeneratedAt5()
    ensures WhitePawnAttacksAt(5) == Leapers.PawnAttacks(SquareBitAt(5), true)
  {
    SquareBitAtAgrees(5);
    assert SquareBit(5) == 0x20;
  }

  lemma WhitePawnAttacksAreGeneratedAt6()
    ensures WhitePawnAttacksAt(6) == Leapers.PawnAttacks(SquareBitAt(6), true)
  {
    SquareBitAtAgrees(6);
    assert SquareBit(6) == 0x40;
  }

  lemma WhitePawnAttacksAreGeneratedAt7()
    ensures WhitePawnAttacksAt(7) == Leapers.PawnAttacks(SquareBitAt(7), true)
  {
    SquareBitAtAgrees(7);
    assert SquareBit(7) == 0x80;
  }

  lemma WhitePawnAttacksAreGeneratedAt8()
    ensures WhitePawnAttacksAt(8) == Leapers.PawnAttacks(SquareBitAt(8), true)
  {
    SquareBitAtAgrees(8);
    assert SquareBit(8) == 0x100;
  }

  lemma WhitePawnAttacksAreGeneratedAt9()
    ensures WhitePawnAttacksAt(9) == Leapers.PawnAttacks(SquareBitAt(9), true)
  {
    SquareBitAtAgrees(9);
    assert SquareBit(9) == 0x200;
  }

  lemma WhitePawnAttacksAreGeneratedAt10()
    ensures WhitePawnAttacksAt(10) == Leapers.PawnAttacks(SquareBitAt(10), true)
  {
    SquareBitAtAgrees(10);
    assert SquareBit(10) == 0x400;
  }

  lemma WhitePawnAttacksAreGeneratedAt11()
    ensures WhitePawnAttacksAt(11) == Leapers.PawnAttacks(SquareBitAt(11), true)
  {
    SquareBitAtAgrees(11);
    assert SquareBit(11) == 0x800;
  }

  lemma WhitePawnAttacksAreGeneratedAt12()
    ensures WhitePawnAttacksAt(12) == Leapers.PawnAttacks(SquareBitAt(12), true)
  {
    SquareBitAtAgrees(12);
    assert SquareBit(12) == 0x1000;
  }

  lemma WhitePawnAttacksAreGeneratedAt13()
    ensures WhitePawnAttacksAt(13) == Leapers.PawnAttacks(SquareBitAt(13), true)
  {
    SquareBitAtAgrees(13);
    assert SquareBit(13) == 0x2000;
  }

  lemma WhitePawnAttacksAreGeneratedAt14()
    ensures WhitePawnAttacksAt(14) == Leapers.PawnAttacks(SquareBitAt(14), true)
  {
    SquareBitAtAgrees(14);
    assert SquareBit(14) == 0x4000;
  }

  lemma WhitePawnAttacksAreGeneratedAt15()
    ensures WhitePawnAttacksAt(15) == Leapers.PawnAttacks(SquareBitAt(15), true)
  {
    SquareBitAtAgrees(15);
    assert SquareBit(15) == 0x8000;
  }

  lemma WhitePawnAttacksAreGeneratedAt16()
    ensures WhitePawnAttacksAt(16) == Leapers.PawnAttacks(SquareBitAt(16), true)
  {
    SquareBitAtAgrees(16);
    assert SquareBit(16) == 0x10000;
  }

  lemma WhitePawnAttacksAreGeneratedAt17()
    ensures WhitePawnAttacksAt(17) == Leapers.PawnAttacks(SquareBitAt(17), true)
  {
    SquareBitAtAgrees(17);
    assert SquareBit(17) == 0x20000;
  }

  lemma WhitePawnAttacksAreGeneratedAt18()
    ensures WhitePawnAttacksAt(18) == Leapers.PawnAttacks(SquareBitAt(18), true)
  {
    SquareBitAtAgrees(18);
    assert SquareBit(18) == 0x40000;
  }

  lemma WhitePawnAttacksAreGeneratedAt19()
    ensures WhitePawnAttacksAt(19) == Leapers.PawnAttacks(SquareBitAt(19), true)
  {
    SquareBitAtAgrees(19);
    assert SquareBit(19) == 0x80000;
  }

  lemma WhitePawnAttacksAreGeneratedAt20()
    ensures WhitePawnAttacksAt(20) == Leapers.PawnAttacks(SquareBitAt(20), true)
  {
    SquareBitAtAgrees(20);
    assert SquareBit(20) == 0x100000;
  }

  lemma WhitePawnAttacksAreGeneratedAt21()
    ensures WhitePawnAttacksAt(21) == Leapers.PawnAttacks(SquareBitAt(21), true)
  {
    SquareBitAtAgrees(21);
    assert SquareBit(21) == 0x200000;
  }

  lemma WhitePawnAttacksAreGeneratedAt22()
    ensures WhitePawnAttacksAt(22) == Leapers.PawnAttacks(SquareBitAt(22), true)
  {
    SquareBitAtAgrees(22);
    assert SquareBit(22) == 0x400000;
  }

  lemma WhitePawnAttacksAreGeneratedAt23()
    ensures WhitePawnAttacksAt(23) == Leapers.PawnAttacks(SquareBitAt(23), true)
  {
    SquareBitAtAgrees(23);
    assert SquareBit(23) == 0x800000;
  }

  lemma WhitePawnAttacksAreGeneratedAt24()
    ensures WhitePawnAttacksAt(24) == Leapers.PawnAttacks(SquareBitAt(24), true)
  {
    SquareBitAtAgrees(24);
    assert SquareBit(24) == 0x1000000;
  }

  lemma WhitePawnAttacksAreGeneratedAt25()
    ensures WhitePawnAttacksAt(25) == Leapers.PawnAttacks(SquareBitAt(25), true)
  {
    SquareBitAtAgrees(25);
    assert SquareBit(25) == 0x2000000;
  }

  lemma WhitePawnAttacksAreGeneratedAt26()
    ensures WhitePawnAttacksAt(26) == Leapers.PawnAttacks(SquareBitAt(26), true)
  {
    SquareBitAtAgrees(26);
    assert SquareBit(26) == 0x4000000;
  }

  lemma WhitePawnAttacksAreGeneratedAt27()
    ensures WhitePawnAttacksAt(27) == Leapers.PawnAttacks(SquareBitAt(27), true)
  {
    SquareBitAtAgrees(27);
    assert SquareBit(27) == 0x8000000;
  }

  lemma WhitePawnAttacksAreGeneratedAt28()
    ensures WhitePawnAttacksAt(28) == Leapers.PawnAttacks(SquareBitAt(28), true)
  {
    SquareBitAtAgrees(28);
    assert SquareBit(28) == 0x10000000;
  }

  lemma WhitePawnAttacksAreGeneratedAt29()
    ensures WhitePawnAttacksAt(29) == Leapers.PawnAttacks(SquareBitAt(29), true)
  {
    SquareBitAtAgrees(29);
    assert SquareBit(29) == 0x20000000;
  }

  lemma WhitePawnAttacksAreGeneratedAt30()
    ensures WhitePawnAttacksAt(30) == Leapers.PawnAttacks(SquareBitAt(30), true)
  {
    SquareBitAtAgrees(30);
    assert SquareBit(30) == 0x40000000;
  }

  lemma WhitePawnAttacksAreGeneratedAt31()
    ensures WhitePawnAttacksAt(31) == Leapers.PawnAttacks(SquareBitAt(31), true)
  {
    SquareBitAtAgrees(31);
    assert SquareBit(31) == 0x80000000;
  }

  lemma WhitePawnAttacksAreGeneratedAt32()
    ensures WhitePawnAttacksAt(32) == Leapers.PawnAttacks(SquareBitAt(32), true)
  {
    SquareBitAtAgrees(32);
    assert SquareBit(32) == 0x100000000;
  }

  lemma WhitePawnAttacksAreGeneratedAt33()
    ensures WhitePawnAttacksAt(33) == Leapers.PawnAttacks(SquareBitAt(33), true)
  {
    SquareBitAtAgrees(33);
    assert SquareBit(33) == 0x200000000;
  }

  lemma WhitePawnAttacksAreGeneratedAt34()
    ensures WhitePawnAttacksAt(34) == Leapers.PawnAttacks(SquareBitAt(34), true)
  {
    SquareBitAtAgrees(34);
    assert SquareBit(34) == 0x400000000;
  }

  lemma WhitePawnAttacksAreGeneratedAt35()
    ensures WhitePawnAttacksAt(35) == Leapers.PawnAttacks(SquareBitAt(35), true)
  {
    SquareBitAtAgrees(35);
    assert SquareBit(35) == 0x800000000;
  }

  lemma WhitePawnAttacksAreGeneratedAt36()
    ensures WhitePawnAttacksAt(36) == Leapers.PawnAttacks(SquareBitAt(36), true)
  {
    SquareBitAtAgrees(36);
    assert SquareBit(36) == 0x1000000000;
  }

  lemma WhitePawnAttacksAreGeneratedAt37()
    ensures WhitePawnAttacksAt(37) == Leapers.PawnAttacks(SquareBitAt(37), true)
  {
    SquareBitAtAgrees(37);
    assert SquareBit(37) == 0x2000000000;
  }

  lemma WhitePawnAttacksAreGeneratedAt38()
    ensures WhitePawnAttacksAt(38) == Leapers.PawnAttacks(SquareBitAt(38), true)
  {
    SquareBitAtAgrees(38);
    assert SquareBit(38) == 0x4000000000;
  }

  lemma WhitePawnAttacksAreGeneratedAt39()
    ensures WhitePawnAttacksAt(39) == Leapers.PawnAttacks(SquareBitAt(39), true)
  {
    SquareBitAtAgrees(39);
    assert SquareBit(39) == 0x8000000000;
  }

  lemma WhitePawnAttacksAreGeneratedAt40()
    ensures WhitePawnAttacksAt(40) == Leapers.PawnAttacks(SquareBitAt(40), true)
  {
    SquareBitAtAgrees(40);
    assert SquareBit(40) == 0x10000000000;
  }

  lemma WhitePawnAttacksAreGeneratedAt41()
    ensures WhitePawnAttacksAt(41) == Leapers.PawnAttacks(SquareBitAt(41), true)
  {
    SquareBitAtAgrees(41);
    assert SquareBit(41) == 0x20000000000;
  }

  lemma WhitePawnAttacksAreGeneratedAt42()
    ensures WhitePawnAttacksAt(42) == Leapers.PawnAttacks(SquareBitAt(42), true)
  {
    SquareBitAtAgrees(42);
    assert SquareBit(42) == 0x40000000000;
  }

  lemma WhitePawnAttacksAreGeneratedAt43()
    ensures WhitePawnAttacksAt(43) == Leapers.PawnAttacks(SquareBitAt(43), true)
  {
    SquareBitAtAgrees(43);
    assert SquareBit(43) == 0x80000000000;
  }

  lemma WhitePawnAttacksAreGeneratedAt44()
    ensures WhitePawnAttacksAt(44) == Leapers.PawnAttacks(SquareBitAt(44), true)
  {
    SquareBitAtAgrees(44);
    assert SquareBit(44) == 0x100000000000;
  }

  lemma WhitePawnAttacksAreGeneratedAt45()
    ensures WhitePawnAttacksAt(45) == Leapers.PawnAttacks(SquareBitAt(45), true)
  {
    SquareBitAtAgrees(45);
    assert SquareBit(45) == 0x200000000000;
  }

  lemma WhitePawnAttacksAreGeneratedAt46()
    ensures WhitePawnAttacksAt(46) == Leapers.PawnAttacks(SquareBitAt(46), true)
  {
    SquareBitAtAgrees(46);
    assert SquareBit(46) == 0x400000000000;
  }

  lemma WhitePawnAttacksAreGeneratedAt47()
    ensures WhitePawnAttacksAt(47) == Leapers.PawnAttacks(SquareBitAt(47), true)
  {
    SquareBitAtAgrees(47);
    assert SquareBit(47) == 0x800000000000;
  }

  lemma WhitePawnAttacksAreGeneratedAt48()
    ensures WhitePawnAttacksAt(48) == Leapers.PawnAttacks(SquareBitAt(48), true)
  {
    SquareBitAtAgrees(48);
    assert SquareBit(48) == 0x1000000000000;
  }

  lemma WhitePawnAttacksAreGeneratedAt49()
    ensures WhitePawnAttacksAt(49) == Leapers.PawnAttacks(SquareBitAt(49), true)
  {
    SquareBitAtAgrees(49);
    assert SquareBit(49) == 0x2000000000000;
  }

  lemma WhitePawnAttacksAreGeneratedAt50()
    ensures WhitePawnAttacksAt(50) == Leapers.PawnAttacks(SquareBitAt(50), true)
  {
    SquareBitAtAgrees(50);
    assert SquareBit(50) == 0x4000000000000;
  }

  lemma WhitePawnAttacksAreGeneratedAt51()
    ensures WhitePawnAttacksAt(51) == Leapers.PawnAttacks(SquareBitAt(51), true)
  {
    SquareBitAtAgrees(51);
    assert SquareBit(51) == 0x8000000000000;
  }

  lemma WhitePawnAttacksAreGeneratedAt52()
    ensures WhitePawnAttacksAt(52) == Leapers.PawnAttacks(SquareBitAt(52), true)
  {
    SquareBitAtAgrees(52);
    assert SquareBit(52) == 0x10000000000000;
  }

  lemma WhitePawnAttacksAreGeneratedAt53()
    ensures WhitePawnAttacksAt(53) == Leapers.PawnAttacks(SquareBitAt(53), true)
  {
    SquareBitAtAgrees(53);
    assert SquareBit(53) == 0x20000000000000;
  }

  lemma WhitePawnAttacksAreGeneratedAt54()
    ensures WhitePawnAttacksAt(54) == Leapers.PawnAttacks(SquareBitAt(54), true)
  {
    SquareBitAtAgrees(54);
    assert SquareBit(54) == 0x40000000000000;
  }

  lemma WhitePawnAttacksAreGeneratedAt55()
    ensures WhitePawnAttacksAt(55) == Leapers.PawnAttacks(SquareBitAt(55), true)
  {
    SquareBitAtAgrees(55);
    assert SquareBit(55) == 0x80000000000000;
  }

  lemma WhitePawnAttacksAreGeneratedAt56()
    ensures WhitePawnAttacksAt(56) == Leapers.PawnAttacks(SquareBitAt(56), true)
  {
    SquareBitAtAgrees(56);
    assert SquareBit(56) == 0x100000000000000;
  }

  lemma WhitePawnAttacksAreGeneratedAt57()
    ensures WhitePawnAttacksAt(57) == Leapers.PawnAttacks(SquareBitAt(57), true)
  {
    SquareBitAtAgrees(57);
    assert SquareBit(57) == 0x200000000000000;
  }

  lemma WhitePawnAttacksAreGeneratedAt58()
    ensures WhitePawnAttacksAt(58) == Leapers.PawnAttacks(SquareBitAt(58), true)
  {
    SquareBitAtAgrees(58);
    assert SquareBit(58) == 0x400000000000000;
  }

  lemma WhitePawnAttacksAreGeneratedAt59()
    ensures WhitePawnAttacksAt(59) == Leapers.PawnAttacks(SquareBitAt(59), true)
  {
    SquareBitAtAgrees(59);
    assert SquareBit(59) == 0x800000000000000;
  }

  lemma WhitePawnAttacksAreGeneratedAt60()
    ensures WhitePawnAttacksAt(60) == Leapers.PawnAttacks(SquareBitAt(60), true)
  {
    SquareBitAtAgrees(60);
    assert SquareBit(60) == 0x1000000000000000;
  }

  lemma WhitePawnAttacksAreGeneratedAt61()
    ensures WhitePawnAttacksAt(61) == Leapers.PawnAttacks(SquareBitAt(61), true)
  {
    SquareBitAtAgrees(61);
    assert SquareBit(61) == 0x2000000000000000;
  }

  lemma WhitePawnAttacksAreGeneratedAt62()
    ensures WhitePawnAttacksAt(62) == Leapers.PawnAttacks(SquareBitAt(62), true)
  {
    SquareBitAtAgrees(62);
    assert SquareBit(62) == 0x4000000000000000;
  }

  lemma WhitePawnAttacksAreGeneratedAt63()
    ensures WhitePawnAttacksAt(63) == Leapers.PawnAttacks(SquareBitAt(63), true)
  {
    SquareBitAtAgrees(63);
    assert SquareBit(63) == 0x8000000000000000;
  }

  /** Every `BLACK_PAWN_ATTACKS` entry is what `pre_compute_pawn_attacks` writes with the two southern diagonal steps. */
  lemma BlackPawnAttacksAreGenerated(sq: nat)
    requires sq < 64
    ensures BlackPawnAttacksAt(sq) == Leapers.PawnAttacks(SquareBitAt(sq), false)
  {
    if sq < 8 { BlackPawnAttacksAreGeneratedOnRank1(sq); }
    else if sq < 16 { BlackPawnAttacksAreGeneratedOnRank2(sq); }
    else if sq < 24 { BlackPawnAttacksAreGeneratedOnRank3(sq); }
    else if sq < 32 { BlackPawnAttacksAreGeneratedOnRank4(sq); }
    else if sq < 40 { BlackPawnAttacksAreGeneratedOnRank5(sq); }
    else if sq < 48 { BlackPawnAttacksAreGeneratedOnRank6(sq); }
    else if sq < 56 { BlackPawnAttacksAreGeneratedOnRank7(sq); }
    else { BlackPawnAttacksAreGeneratedOnRank8(sq); }
  }

  lemma BlackPawnAttacksAreGeneratedOnRank1(sq: nat)
    requires 0 <= sq < 8
    ensures BlackPawnAttacksAt(sq) == Leapers.PawnAttacks(SquareBitAt(sq), false)
  {
    if sq == 0 { BlackPawnAttacksAreGeneratedAt0(); }
    else if sq == 1 { BlackPawnAttacksAreGeneratedAt1(); }
    else if sq == 2 { BlackPawnAttacksAreGeneratedAt2(); }
    else if sq == 3 { BlackPawnAttacksAreGeneratedAt3(); }
    else if sq == 4 { BlackPawnAttacksAreGeneratedAt4(); }
    else if sq == 5 { BlackPawnAttacksAreGeneratedAt5(); }
    else if sq == 6 { BlackPawnAttacksAreGeneratedAt6(); }
    else { BlackPawnAttacksAreGeneratedAt7(); }
  }

  lemma BlackPawnAttacksAreGeneratedOnRank2(sq: nat)
    requires 8 <= sq < 16
    ensures BlackPawnAttacksAt(sq) == Leapers.PawnAttacks(SquareBitAt(sq), false)
  {
    if sq == 8 { BlackPawnAttacksAreGeneratedAt8(); }
    else if sq == 9 { BlackPawnAttacksAreGeneratedAt9(); }
    else if sq == 10 { BlackPawnAttacksAreGeneratedAt10(); }
    else if sq == 11 { BlackPawnAttacksAreGeneratedAt11(); }
    else if sq == 12 { BlackPawnAttacksAreGeneratedAt12(); }
    else if sq == 13 { BlackPawnAttacksAreGeneratedAt13(); }
    else if sq == 14 { BlackPawnAttacksAreGeneratedAt14(); }
    else { BlackPawnAttacksAreGeneratedAt15(); }
  }

  lemma BlackPawnAttacksAreGeneratedOnRank3(sq: nat)
    requires 16 <= sq < 24
    ensures BlackPawnAttacksAt(sq) == Leapers.PawnAttacks(SquareBitAt(sq), false)
  {
    if sq == 16 { BlackPawnAttacksAreGeneratedAt16(); }
    else if sq == 17 { BlackPawnAttacksAreGeneratedAt17(); }
    else if sq == 18 { BlackPawnAttacksAreGeneratedAt18(); }
    else if sq == 19 { BlackPawnAttacksAreGeneratedAt19(); }
    else if sq == 20 { BlackPawnAttacksAreGeneratedAt20(); }
    else if sq == 21 { BlackPawnAttacksAreGeneratedAt21(); }
    else if sq == 22 { BlackPawnAttacksAreGeneratedAt22(); }
    else { BlackPawnAttacksAreGeneratedAt23(); }
  }

  lemma BlackPawnAttacksAreGeneratedOnRank4(sq: nat)
    requires 24 <= sq < 32
    ensures BlackPawnAttacksAt(sq) == Leapers.PawnAttacks(SquareBitAt(sq), false)
  {
    if sq == 24 { BlackPawnAttacksAreGeneratedAt24(); }
    else if sq == 25 { BlackPawnAttacksAreGeneratedAt25(); }
    else if sq == 26 { BlackPawnAttacksAreGeneratedAt26(); }
    else if sq == 27 { BlackPawnAttacksAreGeneratedAt27(); }
    else if sq == 28 { BlackPawnAttacksAreGeneratedAt28(); }
    else if sq == 29 { BlackPawnAttacksAreGeneratedAt29(); }
    else if sq == 30 { BlackPawnAttacksAreGeneratedAt30(); }
    else { BlackPawnAttacksAreGeneratedAt31(); }
  }

  lemma BlackPawnAttacksAreGeneratedOnRank5(sq: nat)
    requires 32 <= sq < 40
    ensures BlackPawnAttacksAt(sq) == Leapers.PawnAttacks(SquareBitAt(sq), false)
  {
    if sq == 32 { BlackPawnAttacksAreGeneratedAt32(); }
    else if sq == 33 { BlackPawnAttacksAreGeneratedAt33(); }
    else if sq == 34 { BlackPawnAttacksAreGeneratedAt34(); }
    else if sq == 35 { BlackPawnAttacksAreGeneratedAt35(); }
    else if sq == 36 { BlackPawnAttacksAreGeneratedAt36(); }
    else if sq == 37 { BlackPawnAttacksAreGeneratedAt37(); }
    else if sq == 38 { BlackPawnAttacksAreGeneratedAt38(); }
    else { BlackPawnAttacksAreGeneratedAt39(); }
  }

  lemma BlackPawnAttacksAreGeneratedOnRank6(sq: nat)
    requires 40 <= sq < 48
    ensures BlackPawnAttacksAt(sq) == Leapers.PawnAttacks(SquareBitAt(sq), false)
  {
    if sq == 40 { BlackPawnAttacksAreGeneratedAt40(); }
    else if sq == 41 { BlackPawnAttacksAreGeneratedAt41(); }
    else if sq == 42 { BlackPawnAttacksAreGeneratedAt42(); }
    else if sq == 43 { BlackPawnAttacksAreGeneratedAt43(); }
    else if sq == 44 { BlackPawnAttacksAreGeneratedAt44(); }
    else if sq == 45 { BlackPawnAttacksAreGeneratedAt45(); }
    else if sq == 46 { BlackPawnAttacksAreGeneratedAt46(); }
    else { BlackPawnAttacksAreGeneratedAt47(); }
  }

  lemma BlackPawnAttacksAreGeneratedOnRank7(sq: nat)
    requires 48 <= sq < 56
    ensures BlackPawnAttacksAt(sq) == Leapers.PawnAttacks(SquareBitAt(sq), false)
  {
    if sq == 48 { BlackPawnAttacksAreGeneratedAt48(); }
    else if sq == 49 { BlackPawnAttacksAreGeneratedAt49(); }
    else if sq == 50 { BlackPawnAttacksAreGeneratedAt50(); }
    else if sq == 51 { BlackPawnAttacksAreGeneratedAt51(); }
    else if sq == 52 { BlackPawnAttacksAreGeneratedAt52(); }
    else if sq == 53 { BlackPawnAttacksAreGeneratedAt53(); }
    else if sq == 54 { BlackPawnAttacksAreGeneratedAt54(); }
    else { BlackPawnAttacksAreGeneratedAt55(); }
  }

  lemma BlackPawnAttacksAreGeneratedOnRank8(sq: nat)
    requires 56 <= sq < 64
    ensures BlackPawnAttacksAt(sq) == Leapers.PawnAttacks(SquareBitAt(sq), false)
  {
    if sq == 56 { BlackPawnAttacksAreGeneratedAt56(); }
    else if sq == 57 { BlackPawnAttacksAreGeneratedAt57(); }
    else if sq == 58 { BlackPawnAttacksAreGeneratedAt58(); }
    else if sq == 59 { BlackPawnAttacksAreGeneratedAt59(); }
    else if sq == 60 { BlackPawnAttacksAreGeneratedAt60(); }
    else if sq == 61 { BlackPawnAttacksAreGeneratedAt61(); }
    else if sq == 62 { BlackPawnAttacksAreGeneratedAt62(); }
    else { BlackPawnAttacksAreGeneratedAt63(); }
  }

  lemma BlackPawnAttacksAreGeneratedAt0()
    ensures BlackPawnAttacksAt(0) == Leapers.PawnAttacks(SquareBitAt(0), false)
  {
    SquareBitAtAgrees(0);
    assert SquareBit(0) == 0x1;
  }

  lemma BlackPawnAttacksAreGeneratedAt1()
    ensures BlackPawnAttacksAt(1) == Leapers.PawnAttacks(SquareBitAt(1), false)
  {
    SquareBitAtAgrees(1);
    assert SquareBit(1) == 0x2;
  }

  lemma BlackPawnAttacksAreGeneratedAt2()
    ensures BlackPawnAttacksAt(2) == Leapers.PawnAttacks(SquareBitAt(2), false)
  {
    SquareBitAtAgrees(2);
    assert SquareBit(2) == 0x4;
  }

  lemma BlackPawnAttacksAreGeneratedAt3()
    ensures BlackPawnAttacksAt(3) == Leapers.PawnAttacks(SquareBitAt(3), false)
  {
    SquareBitAtAgrees(3);
    assert SquareBit(3) == 0x8;
  }

  lemma BlackPawnAttacksAreGeneratedAt4()
    ensures BlackPawnAttacksAt(4) == Leapers.PawnAttacks(SquareBitAt(4), false)
  {
    SquareBitAtAgrees(4);
    assert SquareBit(4) == 0x10;
  }

  lemma BlackPawnAttacksAreGeneratedAt5()
    ensures BlackPawnAttacksAt(5) == Leapers.PawnAttacks(SquareBitAt(5), false)
  {
    SquareBitAtAgrees(5);
    assert SquareBit(5) == 0x20;
  }

  lemma BlackPawnAttacksAreGeneratedAt6()
    ensures BlackPawnAttacksAt(6) == Leapers.PawnAttacks(SquareBitAt(6), false)
  {
    SquareBitAtAgrees(6);
    assert SquareBit(6) == 0x40;
  }

  lemma BlackPawnAttacksAreGeneratedAt7()
    ensures BlackPawnAttacksAt(7) == Leapers.PawnAttacks(SquareBitAt(7), false)
  {
    SquareBitAtAgrees(7);
    assert SquareBit(7) == 0x80;
  }

  lemma BlackPawnAttacksAreGeneratedAt8()
    ensures BlackPawnAttacksAt(8) == Leapers.PawnAttacks(SquareBitAt(8), false)
  {
    SquareBitAtAgrees(8);
    assert SquareBit(8) == 0x100;
  }

  lemma BlackPawnAttacksAreGeneratedAt9()
    ensures BlackPawnAttacksAt(9) == Leapers.PawnAttacks(SquareBitAt(9), false)
  {
    SquareBitAtAgrees(9);
    assert SquareBit(9) == 0x200;
  }

  lemma BlackPawnAttacksAreGeneratedAt10()
    ensures BlackPawnAttacksAt(10) == Leapers.PawnAttacks(SquareBitAt(10), false)
  {
    SquareBitAtAgrees(10);
    assert SquareBit(10) == 0x400;
  }

  lemma BlackPawnAttacksAreGeneratedAt11()
    ensures BlackPawnAttacksAt(11) == Leapers.PawnAttacks(SquareBitAt(11), false)
  {
    SquareBitAtAgrees(11);
    assert SquareBit(11) == 0x800;
  }

  lemma BlackPawnAttacksAreGeneratedAt12()
    ensures BlackPawnAttacksAt(12) == Leapers.PawnAttacks(SquareBitAt(12), false)
  {
    SquareBitAtAgrees(12);
    assert SquareBit(12) == 0x1000;
  }

  lemma BlackPawnAttacksAreGeneratedAt13()
    ensures BlackPawnAttacksAt(13) == Leapers.PawnAttacks(SquareBitAt(13), false)
  {
    SquareBitAtAgrees(13);
    assert SquareBit(13) == 0x2000;
  }

  lemma BlackPawnAttacksAreGeneratedAt14()
    ensures BlackPawnAttacksAt(14) == Leapers.PawnAttacks(SquareBitAt(14), false)
  {
    SquareBitAtAgrees(14);
    assert SquareBit(14) == 0x4000;
  }

  lemma BlackPawnAttacksAreGeneratedAt15()
    ensures BlackPawnAttacksAt(15) == Leapers.PawnAttacks(SquareBitAt(15), false)
  {
    SquareBitAtAgrees(15);
    assert SquareBit(15) == 0x8000;
  }

  lemma BlackPawnAttacksAreGeneratedAt16()
    ensures BlackPawnAttacksAt(16) == Leapers.PawnAttacks(SquareBitAt(16), false)
  {
    SquareBitAtAgrees(16);
    assert SquareBit(16) == 0x10000;
  }

  lemma BlackPawnAttacksAreGeneratedAt17()
    ensures BlackPawnAttacksAt(17) == Leapers.PawnAttacks(SquareBitAt(17), false)
  {
    SquareBitAtAgrees(17);
    assert SquareBit(17) == 0x20000;
  }

  lemma BlackPawnAttacksAreGeneratedAt18()
    ensures BlackPawnAttacksAt(18) == Leapers.PawnAttacks(SquareBitAt(18), false)
  {
    SquareBitAtAgrees(18);
    assert SquareBit(18) == 0x40000;
  }

  lemma BlackPawnAttacksAreGeneratedAt19()
    ensures BlackPawnAttacksAt(19) == Leapers.PawnAttacks(SquareBitAt(19), false)
  {
    SquareBitAtAgrees(19);
    assert SquareBit(19) == 0x80000;
  }

  lemma BlackPawnAttacksAreGeneratedAt20()
    ensures BlackPawnAttacksAt(20) == Leapers.PawnAttacks(SquareBitAt(20), false)
  {
    SquareBitAtAgrees(20);
    assert SquareBit(20) == 0x100000;
  }

  lemma BlackPawnAttacksAreGeneratedAt21()
    ensures BlackPawnAttacksAt(21) == Leapers.PawnAttacks(SquareBitAt(21), false)
  {
    SquareBitAtAgrees(21);
    assert SquareBit(21) == 0x200000;
  }

  lemma BlackPawnAttacksAreGeneratedAt22()
    ensures BlackPawnAttacksAt(22) == Leapers.PawnAttacks(SquareBitAt(22), false)
  {
    SquareBitAtAgrees(22);
    assert SquareBit(22) == 0x400000;
  }

  lemma BlackPawnAttacksAreGeneratedAt23()
    ensures BlackPawnAttacksAt(23) == Leapers.PawnAttacks(SquareBitAt(23), false)
  {
    SquareBitAtAgrees(23);
    assert SquareBit(23) == 0x800000;
  }

  lemma BlackPawnAttacksAreGeneratedAt24()
    ensures BlackPawnAttacksAt(24) == Leapers.PawnAttacks(SquareBitAt(24), false)
  {
    SquareBitAtAgrees(24);
    assert SquareBit(24) == 0x1000000;
  }

  lemma BlackPawnAttacksAreGeneratedAt25()
    ensures BlackPawnAttacksAt(25) == Leapers.PawnAttacks(SquareBitAt(25), false)
  {
    SquareBitAtAgrees(25);
    assert SquareBit(25) == 0x2000000;
  }

  lemma BlackPawnAttacksAreGeneratedAt26()
    ensures BlackPawnAttacksAt(26) == Leapers.PawnAttacks(SquareBitAt(26), false)
  {
    SquareBitAtAgrees(26);
    assert SquareBit(26) == 0x4000000;
  }

  lemma BlackPawnAttacksAreGeneratedAt27()
    ensures BlackPawnAttacksAt(27) == Leapers.PawnAttacks(SquareBitAt(27), false)
  {
    SquareBitAtAgrees(27);
    assert SquareBit(27) == 0x8000000;
  }

  lemma BlackPawnAttacksAreGeneratedAt28()
    ensures BlackPawnAttacksAt(28) == Leapers.PawnAttacks(SquareBitAt(28), false)
  {
    SquareBitAtAgrees(28);
    assert SquareBit(28) == 0x10000000;
  }

  lemma BlackPawnAttacksAreGeneratedAt29()
    ensures BlackPawnAttacksAt(29) == Leapers.PawnAttacks(SquareBitAt(29), false)
  {
    SquareBitAtAgrees(29);
    assert SquareBit(29) == 0x20000000;
  }

  lemma BlackPawnAttacksAreGeneratedAt30()
    ensures BlackPawnAttacksAt(30) == Leapers.PawnAttacks(SquareBitAt(30), false)
  {
    SquareBitAtAgrees(30);
    assert SquareBit(30) == 0x40000000;
  }

  lemma BlackPawnAttacksAreGeneratedAt31()
    ensures BlackPawnAttacksAt(31) == Leapers.PawnAttacks(SquareBitAt(31), false)
  {
    SquareBitAtAgrees(31);
    assert SquareBit(31) == 0x80000000;
  }

  lemma BlackPawnAttacksAreGeneratedAt32()
    ensures BlackPawnAttacksAt(32) == Leapers.PawnAttacks(SquareBitAt(32), false)
  {
    SquareBitAtAgrees(32);
    assert SquareBit(32) == 0x100000000;
  }

  lemma BlackPawnAttacksAreGeneratedAt33()
    ensures BlackPawnAttacksAt(33) == Leapers.PawnAttacks(SquareBitAt(33), false)
  {
    SquareBitAtAgrees(33);
    assert SquareBit(33) == 0x200000000;
  }

  lemma BlackPawnAttacksAreGeneratedAt34()
    ensures BlackPawnAttacksAt(34) == Leapers.PawnAttacks(SquareBitAt(34), false)
  {
    SquareBitAtAgrees(34);
    assert SquareBit(34) == 0x400000000;
  }

  lemma BlackPawnAttacksAreGeneratedAt35()
    ensures BlackPawnAttacksAt(35) == Leapers.PawnAttacks(SquareBitAt(35), false)
  {
    SquareBitAtAgrees(35);
    assert SquareBit(35) == 0x800000000;
  }

  lemma BlackPawnAttacksAreGeneratedAt36()
    ensures BlackPawnAttacksAt(36) == Leapers.PawnAttacks(SquareBitAt(36), false)
  {
    SquareBitAtAgrees(36);
    assert SquareBit(36) == 0x1000000000;
  }

  lemma BlackPawnAttacksAreGeneratedAt37()
    ensures BlackPawnAttacksAt(37) == Leapers.PawnAttacks(SquareBitAt(37), false)
  {
    SquareBitAtAgrees(37);
    assert SquareBit(37) == 0x2000000000;
  }

  lemma BlackPawnAttacksAreGeneratedAt38()
    ensures BlackPawnAttacksAt(38) == Leapers.PawnAttacks(SquareBitAt(38), false)
  {
    SquareBitAtAgrees(38);
    assert SquareBit(38) == 0x4000000000;
  }

  lemma BlackPawnAttacksAreGeneratedAt39()
    ensures BlackPawnAttacksAt(39) == Leapers.PawnAttacks(SquareBitAt(39), false)
  {
    SquareBitAtAgrees(39);
    assert SquareBit(39) == 0x8000000000;
  }

  lemma BlackPawnAttacksAreGeneratedAt40()
    ensures BlackPawnAttacksAt(40) == Leapers.PawnAttacks(SquareBitAt(40), false)
  {
    SquareBitAtAgrees(40);
    assert SquareBit(40) == 0x10000000000;
  }

  lemma BlackPawnAttacksAreGeneratedAt41()
    ensures BlackPawnAttacksAt(41) == Leapers.PawnAttacks(SquareBitAt(41), false)
  {
    SquareBitAtAgrees(41);
    assert SquareBit(41) == 0x20000000000;
  }

  lemma BlackPawnAttacksAreGeneratedAt42()
    ensures BlackPawnAttacksAt(42) == Leapers.PawnAttacks(SquareBitAt(42), false)
  {
    SquareBitAtAgrees(42);
    assert SquareBit(42) == 0x40000000000;
  }

  lemma BlackPawnAttacksAreGeneratedAt43()
    ensures BlackPawnAttacksAt(43) == Leapers.PawnAttacks(SquareBitAt(43), false)
  {
    SquareBitAtAgrees(43);
    assert SquareBit(43) == 0x80000000000;
  }

  lemma BlackPawnAttacksAreGeneratedAt44()
    ensures BlackPawnAttacksAt(44) == Leapers.PawnAttacks(SquareBitAt(44), false)
  {
    SquareBitAtAgrees(44);
    assert SquareBit(44) == 0x100000000000;
  }

  lemma BlackPawnAttacksAreGeneratedAt45()
    ensures BlackPawnAttacksAt(45) == Leapers.PawnAttacks(SquareBitAt(45), false)
  {
    SquareBitAtAgrees(45);
    assert SquareBit(45) == 0x200000000000;
  }

  lemma BlackPawnAttacksAreGeneratedAt46()
    ensures BlackPawnAttacksAt(46) == Leapers.PawnAttacks(SquareBitAt(46), false)
  {
    SquareBitAtAgrees(46);
    assert SquareBit(46) == 0x400000000000;
  }

  lemma BlackPawnAttacksAreGeneratedAt47()
    ensures BlackPawnAttacksAt(47) == Leapers.PawnAttacks(SquareBitAt(47), false)
  {
    SquareBitAtAgrees(47);
    assert SquareBit(47) == 0x800000000000;
  }

  lemma BlackPawnAttacksAreGeneratedAt48()
    ensures BlackPawnAttacksAt(48) == Leapers.PawnAttacks(SquareBitAt(48), false)
  {
    SquareBitAtAgrees(48);
    assert SquareBit(48) == 0x1000000000000;
  }

  lemma BlackPawnAttacksAreGeneratedAt49()
    ensures BlackPawnAttacksAt(49) == Leapers.PawnAttacks(SquareBitAt(49), false)
  {
    SquareBitAtAgrees(49);
    assert SquareBit(49) == 0x2000000000000;
  }

  lemma BlackPawnAttacksAreGeneratedAt50()
    ensures BlackPawnAttacksAt(50) == Leapers.PawnAttacks(SquareBitAt(50), false)
  {
    SquareBitAtAgrees(50);
    assert SquareBit(50) == 0x4000000000000;
  }

  lemma BlackPawnAttacksAreGeneratedAt51()
    ensures BlackPawnAttacksAt(51) == Leapers.PawnAttacks(SquareBitAt(51), false)
  {
    SquareBitAtAgrees(51);
    assert SquareBit(51) == 0x8000000000000;
  }

  lemma BlackPawnAttacksAreGeneratedAt52()
    ensures BlackPawnAttacksAt(52) == Leapers.PawnAttacks(SquareBitAt(52), false)
  {
    SquareBitAtAgrees(52);
    assert SquareBit(52) == 0x10000000000000;
  }

  lemma BlackPawnAttacksAreGeneratedAt53()
    ensures BlackPawnAttacksAt(53) == Leapers.PawnAttacks(SquareBitAt(53), false)
  {
    SquareBitAtAgrees(53);
    assert SquareBit(53) == 0x20000000000000;
  }

  lemma BlackPawnAttacksAreGeneratedAt54()
    ensures BlackPawnAttacksAt(54) == Leapers.PawnAttacks(SquareBitAt(54), false)
  {
    SquareBitAtAgrees(54);
    assert SquareBit(54) == 0x40000000000000;
  }

  lemma BlackPawnAttacksAreGeneratedAt55()
    ensures BlackPawnAttacksAt(55) == Leapers.PawnAttacks(SquareBitAt(55), false)
  {
    SquareBitAtAgrees(55);
    assert SquareBit(55) == 0x80000000000000;
  }

  lemma BlackPawnAttacksAreGeneratedAt56()
    ensures BlackPawnAttacksAt(56) == Leapers.PawnAttacks(SquareBitAt(56), false)
  {
    SquareBitAtAgrees(56);
    assert SquareBit(56) == 0x100000000000000;
  }

  lemma BlackPawnAttacksAreGeneratedAt57()
    ensures BlackPawnAttacksAt(57) == Leapers.PawnAttacks(SquareBitAt(57), false)
  {
    SquareBitAtAgrees(57);
    assert SquareBit(57) == 0x200000000000000;
  }

  lemma BlackPawnAttacksAreGeneratedAt58()
    ensures BlackPawnAttacksAt(58) == Leapers.PawnAttacks(SquareBitAt(58), false)
  {
    SquareBitAtAgrees(58);
    assert SquareBit(58) == 0x400000000000000;
  }

  lemma BlackPawnAttacksAreGeneratedAt59()
    ensures BlackPawnAttacksAt(59) == Leapers.PawnAttacks(SquareBitAt(59), false)
  {
    SquareBitAtAgrees(59);
    assert SquareBit(59) == 0x800000000000000;
  }

  lemma BlackPawnAttacksAreGeneratedAt60()
    ensures BlackPawnAttacksAt(60) == Leapers.PawnAttacks(SquareBitAt(60), false)
  {
    SquareBitAtAgrees(60);
    assert SquareBit(60) == 0x1000000000000000;
  }

  lemma BlackPawnAttacksAreGeneratedAt61()
    ensures BlackPawnAttacksAt(61) == Leapers.PawnAttacks(SquareBitAt(61), false)
  {
    SquareBitAtAgrees(61);
    assert SquareBit(61) == 0x2000000000000000;
  }

  lemma BlackPawnAttacksAreGeneratedAt62()
    ensures BlackPawnAttacksAt(62) == Leapers.PawnAttacks(SquareBitAt(62), false)
  {
    SquareBitAtAgrees(62);
    assert SquareBit(62) == 0x4000000000000000;
  }

  lemma BlackPawnAttacksAreGeneratedAt63()
    ensures BlackPawnAttacksAt(63) == Leapers.PawnAttacks(SquareBitAt(63), false)
  {
    SquareBitAtAgrees(63);
    assert SquareBit(63) == 0x8000000000000000;
  }

  /** Every `WHITE_PAWN_MOVES` entry is what `pre_compute_pawn_moves` writes for white. */
  lemma WhitePawnPushesAreGenerated(sq: nat)
    requires sq < 64
    ensures WhitePawnMovesAt(sq) == Leapers.PawnPushes(SquareBitAt(sq), true)
  {
    if sq < 8 { WhitePawnPushesAreGeneratedOnRank1(sq); }
    else if sq < 16 { WhitePawnPushesAreGeneratedOnRank2(sq); }
    else if sq < 24 { WhitePawnPushesAreGeneratedOnRank3(sq); }
    else if sq < 32 { WhitePawnPushesAreGeneratedOnRank4(sq); }
    else if sq < 40 { WhitePawnPushesAreGeneratedOnRank5(sq); }
    else if sq < 48 { WhitePawnPushesAreGeneratedOnRank6(sq); }
    else if sq < 56 { WhitePawnPushesAreGeneratedOnRank7(sq); }
    else { WhitePawnPushesAreGeneratedOnRank8(sq); }
  }

  lemma WhitePawnPushesAreGeneratedOnRank1(sq: nat)
    requires 0 <= sq < 8
    ensures WhitePawnMovesAt(sq) == Leapers.PawnPushes(SquareBitAt(sq), true)
  {
    if sq == 0 { WhitePawnPushesAreGeneratedAt0(); }
    else if sq == 1 { WhitePawnPushesAreGeneratedAt1(); }
    else if sq == 2 { WhitePawnPushesAreGeneratedAt2(); }
    else if sq == 3 { WhitePawnPushesAreGeneratedAt3(); }
    else if sq == 4 { WhitePawnPushesAreGeneratedAt4(); }
    else if sq == 5 { WhitePawnPushesAreGeneratedAt5(); }
    else if sq == 6 { WhitePawnPushesAreGeneratedAt6(); }
    else { WhitePawnPushesAreGeneratedAt7(); }
  }

  lemma WhitePawnPushesAreGeneratedOnRank2(sq: nat)
    requires 8 <= sq < 16
    ensures WhitePawnMovesAt(sq) == Leapers.PawnPushes(SquareBitAt(sq), true)
  {
    if sq == 8 { WhitePawnPushesAreGeneratedAt8(); }
    else if sq == 9 { WhitePawnPushesAreGeneratedAt9(); }
    else if sq == 10 { WhitePawnPushesAreGeneratedAt10(); }
    else if sq == 11 { WhitePawnPushesAreGeneratedAt11(); }
    else if sq == 12 { WhitePawnPushesAreGeneratedAt12(); }
    else if sq == 13 { WhitePawnPushesAreGeneratedAt13(); }
    else if sq == 14 { WhitePawnPushesAreGeneratedAt14(); }
    else { WhitePawnPushesAreGeneratedAt15(); }
  }

  lemma WhitePawnPushesAreGeneratedOnRank3(sq: nat)
    requires 16 <= sq < 24
    ensures WhitePawnMovesAt(sq) == Leapers.PawnPushes(SquareBitAt(sq), true)
  {
    if sq == 16 { WhitePawnPushesAreGeneratedAt16(); }
    else if sq == 17 { WhitePawnPushesAreGeneratedAt17(); }
    else if sq == 18 { WhitePawnPushesAreGeneratedAt18(); }
    else if sq == 19 { WhitePawnPushesAreGeneratedAt19(); }
    else if sq == 20 { WhitePawnPushesAreGeneratedAt20(); }
    else if sq == 21 { WhitePawnPushesAreGeneratedAt21(); }
    else if sq == 22 { WhitePawnPushesAreGeneratedAt22(); }
    else { WhitePawnPushesAreGeneratedAt23(); }
  }

  lemma WhitePawnPushesAreGeneratedOnRank4(sq: nat)
    requires 24 <= sq < 32
    ensures WhitePawnMovesAt(sq) == Leapers.PawnPushes(SquareBitAt(sq), true)
  {
    if sq == 24 { WhitePawnPushesAreGeneratedAt24(); }
    else if sq == 25 { WhitePawnPushesAreGeneratedAt25(); }
    else if sq == 26 { WhitePawnPushesAreGeneratedAt26(); }
    else if sq == 27 { WhitePawnPushesAreGeneratedAt27(); }
    else if sq == 28 { WhitePawnPushesAreGeneratedAt28(); }
    else if sq == 29 { WhitePawnPushesAreGeneratedAt29(); }
    else if sq == 30 { WhitePawnPushesAreGeneratedAt30(); }
    else { WhitePawnPushesAreGeneratedAt31(); }
  }

  lemma WhitePawnPushesAreGeneratedOnRank5(sq: nat)
    requires 32 <= sq < 40
    ensures WhitePawnMovesAt(sq) == Leapers.PawnPushes(SquareBitAt(sq), true)
  {
    if sq == 32 { WhitePawnPushesAreGeneratedAt32(); }
    else if sq == 33 { WhitePawnPushesAreGeneratedAt33(); }
    else if sq == 34 { WhitePawnPushesAreGeneratedAt34(); }
    else if sq == 35 { WhitePawnPushesAreGeneratedAt35(); }
    else if sq == 36 { WhitePawnPushesAreGeneratedAt36(); }
    else if sq == 37 { WhitePawnPushesAreGeneratedAt37(); }
    else if sq == 38 { WhitePawnPushesAreGeneratedAt38(); }
    else { WhitePawnPushesAreGeneratedAt39(); }
  }

  lemma WhitePawnPushesAreGeneratedOnRank6(sq: nat)
    requires 40 <= sq < 48
    ensures WhitePawnMovesAt(sq) == Leapers.PawnPushes(SquareBitAt(sq), true)
  {
    if sq == 40 { WhitePawnPushesAreGeneratedAt40(); }
    else if sq == 41 { WhitePawnPushesAreGeneratedAt41(); }
    else if sq == 42 { WhitePawnPushesAreGeneratedAt42(); }
    else if sq == 43 { WhitePawnPushesAreGeneratedAt43(); }
    else if sq == 44 { WhitePawnPushesAreGeneratedAt44(); }
    else if sq == 45 { WhitePawnPushesAreGeneratedAt45(); }
    else if sq == 46 { WhitePawnPushesAreGeneratedAt46(); }
    else { WhitePawnPushesAreGeneratedAt47(); }
  }

  lemma WhitePawnPushesAreGeneratedOnRank7(sq: nat)
    requires 48 <= sq < 56
    ensures WhitePawnMovesAt(sq) == Leapers.PawnPushes(SquareBitAt(sq), true)
  {
    if sq == 48 { WhitePawnPushesAreGeneratedAt48(); }
    else if sq == 49 { WhitePawnPushesAreGeneratedAt49(); }
    else if sq == 50 { WhitePawnPushesAreGeneratedAt50(); }
    else if sq == 51 { WhitePawnPushesAreGeneratedAt51(); }
    else if sq == 52 { WhitePawnPushesAreGeneratedAt52(); }
    else if sq == 53 { WhitePawnPushesAreGeneratedAt53(); }
    else if sq == 54 { WhitePawnPushesAreGeneratedAt54(); }
    else { WhitePawnPushesAreGeneratedAt55(); }
  }

  lemma WhitePawnPushesAreGeneratedOnRank8(sq: nat)
    requires 56 <= sq < 64
    ensures WhitePawnMovesAt(sq) == Leapers.PawnPushes(SquareBitAt(sq), true)
  {
    if sq == 56 { WhitePawnPushesAreGeneratedAt56(); }
    else if sq == 57 { WhitePawnPushesAreGeneratedAt57(); }
    else if sq == 58 { WhitePawnPushesAreGeneratedAt58(); }
    else if sq == 59 { WhitePawnPushesAreGeneratedAt59(); }
    else if sq == 60 { WhitePawnPushesAreGeneratedAt60(); }
    else if sq == 61 { WhitePawnPushesAreGeneratedAt61(); }
    else if sq == 62 { WhitePawnPushesAreGeneratedAt62(); }
    else { WhitePawnPushesAreGeneratedAt63(); }
  }

  lemma WhitePawnPushesAreGeneratedAt0()
    ensures WhitePawnMovesAt(0) == Leapers.PawnPushes(SquareBitAt(0), true)
  {
    SquareBitAtAgrees(0);
    assert SquareBit(0) == 0x1;
  }

  lemma WhitePawnPushesAreGeneratedAt1()
    ensures WhitePawnMovesAt(1) == Leapers.PawnPushes(SquareBitAt(1), true)
  {
    SquareBitAtAgrees(1);
    assert SquareBit(1) == 0x2;
  }

  lemma WhitePawnPushesAreGeneratedAt2()
    ensures WhitePawnMovesAt(2) == Leapers.PawnPushes(SquareBitAt(2), true)
  {
    SquareBitAtAgrees(2);
    assert SquareBit(2) == 0x4;
  }

  lemma WhitePawnPushesAreGeneratedAt3()
    ensures WhitePawnMovesAt(3) == Leapers.PawnPushes(SquareBitAt(3), true)
  {
    SquareBitAtAgrees(3);
    assert SquareBit(3) == 0x8;
  }

  lemma WhitePawnPushesAreGeneratedAt4()
    ensures WhitePawnMovesAt(4) == Leapers.PawnPushes(SquareBitAt(4), true)
  {
    SquareBitAtAgrees(4);
    assert SquareBit(4) == 0x10;
  }

  lemma WhitePawnPushesAreGeneratedAt5()
    ensures WhitePawnMovesAt(5) == Leapers.PawnPushes(SquareBitAt(5), true)
  {
    SquareBitAtAgrees(5);
    assert SquareBit(5) == 0x20;
  }

  lemma WhitePawnPushesAreGeneratedAt6()
    ensures WhitePawnMovesAt(6) == Leapers.PawnPushes(SquareBitAt(6), true)
  {
    SquareBitAtAgrees(6);
    assert SquareBit(6) == 0x40;
  }

  lemma WhitePawnPushesAreGeneratedAt7()
    ensures WhitePawnMovesAt(7) == Leapers.PawnPushes(SquareBitAt(7), true)
  {
    SquareBitAtAgrees(7);
    assert SquareBit(7) == 0x80;
  }

  lemma WhitePawnPushesAreGeneratedAt8()
    ensures WhitePawnMovesAt(8) == Leapers.PawnPushes(SquareBitAt(8), true)
  {
    SquareBitAtAgrees(8);
    assert SquareBit(8) == 0x100;
  }

  lemma WhitePawnPushesAreGeneratedAt9()
    ensures WhitePawnMovesAt(9) == Leapers.PawnPushes(SquareBitAt(9), true)
  {
    SquareBitAtAgrees(9);
    assert SquareBit(9) == 0x200;
  }

  lemma WhitePawnPushesAreGeneratedAt10()
    ensures WhitePawnMovesAt(10) == Leapers.PawnPushes(SquareBitAt(10), true)
  {
    SquareBitAtAgrees(10);
    assert SquareBit(10) == 0x400;
  }

  lemma WhitePawnPushesAreGeneratedAt11()
    ensures WhitePawnMovesAt(11) == Leapers.PawnPushes(SquareBitAt(11), true)
  {
    SquareBitAtAgrees(11);
    assert SquareBit(11) == 0x800;
  }

  lemma WhitePawnPushesAreGeneratedAt12()
    ensures WhitePawnMovesAt(12) == Leapers.PawnPushes(SquareBitAt(12), true)
  {
    SquareBitAtAgrees(12);
    assert SquareBit(12) == 0x1000;
  }

  lemma WhitePawnPushesAreGeneratedAt13()
    ensures WhitePawnMovesAt(13) == Leapers.PawnPushes(SquareBitAt(13), true)
  {
    SquareBitAtAgrees(13);
    assert SquareBit(13) == 0x2000;
  }

  lemma WhitePawnPushesAreGeneratedAt14()
    ensures WhitePawnMovesAt(14) == Leapers.PawnPushes(SquareBitAt(14), true)
  {
    SquareBitAtAgrees(14);
    assert SquareBit(14) == 0x4000;
  }

  lemma WhitePawnPushesAreGeneratedAt15()
    ensures WhitePawnMovesAt(15) == Leapers.PawnPushes(SquareBitAt(15), true)
  {
    SquareBitAtAgrees(15);
    assert SquareBit(15) == 0x8000;
  }

  lemma WhitePawnPushesAreGeneratedAt16()
    ensures WhitePawnMovesAt(16) == Leapers.PawnPushes(SquareBitAt(16), true)
  {
    SquareBitAtAgrees(16);
    assert SquareBit(16) == 0x10000;
  }

  lemma WhitePawnPushesAreGeneratedAt17()
    ensures WhitePawnMovesAt(17) == Leapers.PawnPushes(SquareBitAt(17), true)
  {
    SquareBitAtAgrees(17);
    assert SquareBit(17) == 0x20000;
  }

  lemma WhitePawnPushesAreGeneratedAt18()
    ensures WhitePawnMovesAt(18) == Leapers.PawnPushes(SquareBitAt(18), true)
  {
    SquareBitAtAgrees(18);
    assert SquareBit(18) == 0x40000;
  }

  lemma WhitePawnPushesAreGeneratedAt19()
    ensures WhitePawnMovesAt(19) == Leapers.PawnPushes(SquareBitAt(19), true)
  {
    SquareBitAtAgrees(19);
    assert SquareBit(19) == 0x80000;
  }

  lemma WhitePawnPushesAreGeneratedAt20()
    ensures WhitePawnMovesAt(20) == Leapers.PawnPushes(SquareBitAt(20), true)
  {
    SquareBitAtAgrees(20);
    assert SquareBit(20) == 0x100000;
  }

  lemma WhitePawnPushesAreGeneratedAt21()
    ensures WhitePawnMovesAt(21) == Leapers.PawnPushes(SquareBitAt(21), true)
  {
    SquareBitAtAgrees(21);
    assert SquareBit(21) == 0x200000;
  }

  lemma WhitePawnPushesAreGeneratedAt22()
    ensures WhitePawnMovesAt(22) == Leapers.PawnPushes(SquareBitAt(22), true)
  {
    SquareBitAtAgrees(22);
    assert SquareBit(22) == 0x400000;
  }

  lemma WhitePawnPushesAreGeneratedAt23()
    ensures WhitePawnMovesAt(23) == Leapers.PawnPushes(SquareBitAt(23), true)
  {
    SquareBitAtAgrees(23);
    assert SquareBit(23) == 0x800000;
  }

  lemma WhitePawnPushesAreGeneratedAt24()
    ensures WhitePawnMovesAt(24) == Leapers.PawnPushes(SquareBitAt(24), true)
  {
    SquareBitAtAgrees(24);
    assert SquareBit(24) == 0x1000000;
  }

  lemma WhitePawnPushesAreGeneratedAt25()
    ensures WhitePawnMovesAt(25) == Leapers.PawnPushes(SquareBitAt(25), true)
  {
    SquareBitAtAgrees(25);
    assert SquareBit(25) == 0x2000000;
  }

  lemma WhitePawnPushesAreGeneratedAt26()
    ensures WhitePawnMovesAt(26) == Leapers.PawnPushes(SquareBitAt(26), true)
  {
    SquareBitAtAgrees(26);
    assert SquareBit(26) == 0x4000000;
  }

  lemma WhitePawnPushesAreGeneratedAt27()
    ensures WhitePawnMovesAt(27) == Leapers.PawnPushes(SquareBitAt(27), true)
  {
    SquareBitAtAgrees(27);
    assert SquareBit(27) == 0x8000000;
  }

  lemma WhitePawnPushesAreGeneratedAt28()
    ensures WhitePawnMovesAt(28) == Leapers.PawnPushes(SquareBitAt(28), true)
  {
    SquareBitAtAgrees(28);
    assert SquareBit(28) == 0x10000000;
  }

  lemma WhitePawnPushesAreGeneratedAt29()
    ensures WhitePawnMovesAt(29) == Leapers.PawnPushes(SquareBitAt(29), true)
  {
    SquareBitAtAgrees(29);
    assert SquareBit(29) == 0x20000000;
  }

  lemma WhitePawnPushesAreGeneratedAt30()
    ensures WhitePawnMovesAt(30) == Leapers.PawnPushes(SquareBitAt(30), true)
  {
    SquareBitAtAgrees(30);
    assert SquareBit(30) == 0x40000000;
  }

  lemma WhitePawnPushesAreGeneratedAt31()
    ensures WhitePawnMovesAt(31) == Leapers.PawnPushes(SquareBitAt(31), true)
  {
    SquareBitAtAgrees(31);
    assert SquareBit(31) == 0x80000000;
  }

  lemma WhitePawnPushesAreGeneratedAt32()
    ensures WhitePawnMovesAt(32) == Leapers.PawnPushes(SquareBitAt(32), true)
  {
    SquareBitAtAgrees(32);
    assert SquareBit(32) == 0x100000000;
  }

  lemma WhitePawnPushesAreGeneratedAt33()
    ensures WhitePawnMovesAt(33) == Leapers.PawnPushes(SquareBitAt(33), true)
  {
    SquareBitAtAgrees(33);
    assert SquareBit(33) == 0x200000000;
  }

  lemma WhitePawnPushesAreGeneratedAt34()
    ensures WhitePawnMovesAt(34) == Leapers.PawnPushes(SquareBitAt(34), true)
  {
    SquareBitAtAgrees(34);
    assert SquareBit(34) == 0x400000000;
  }

  lemma WhitePawnPushesAreGeneratedAt35()
    ensures WhitePawnMovesAt(35) == Leapers.PawnPushes(SquareBitAt(35), true)
  {
    SquareBitAtAgrees(35);
    assert SquareBit(35) == 0x800000000;
  }

  lemma WhitePawnPushesAreGeneratedAt36()
    ensures WhitePawnMovesAt(36) == Leapers.PawnPushes(SquareBitAt(36), true)
  {
    SquareBitAtAgrees(36);
    assert SquareBit(36) == 0x1000000000;
  }

  lemma WhitePawnPushesAreGeneratedAt37()
    ensures WhitePawnMovesAt(37) == Leapers.PawnPushes(SquareBitAt(37), true)
  {
    SquareBitAtAgrees(37);
    assert SquareBit(37) == 0x2000000000;
  }

  lemma WhitePawnPushesAreGeneratedAt38()
    ensures WhitePawnMovesAt(38) == Leapers.PawnPushes(SquareBitAt(38), true)
  {
    SquareBitAtAgrees(38);
    assert SquareBit(38) == 0x4000000000;
  }

  lemma WhitePawnPushesAreGeneratedAt39()
    ensures WhitePawnMovesAt(39) == Leapers.PawnPushes(SquareBitAt(39), true)
  {
    SquareBitAtAgrees(39);
    assert SquareBit(39) == 0x8000000000;
  }

  lemma WhitePawnPushesAreGeneratedAt40()
    ensures WhitePawnMovesAt(40) == Leapers.PawnPushes(SquareBitAt(40), true)
  {
    SquareBitAtAgrees(40);
    assert SquareBit(40) == 0x10000000000;
  }

  lemma WhitePawnPushesAreGeneratedAt41()
    ensures WhitePawnMovesAt(41) == Leapers.PawnPushes(SquareBitAt(41), true)
  {
    SquareBitAtAgrees(41);
    assert SquareBit(41) == 0x20000000000;
  }

  lemma WhitePawnPushesAreGeneratedAt42()
    ensures WhitePawnMovesAt(42) == Leapers.PawnPushes(SquareBitAt(42), true)
  {
    SquareBitAtAgrees(42);
    assert SquareBit(42) == 0x40000000000;
  }

  lemma WhitePawnPushesAreGeneratedAt43()
    ensures WhitePawnMovesAt(43) == Leapers.PawnPushes(SquareBitAt(43), true)
  {
    SquareBitAtAgrees(43);
    assert SquareBit(43) == 0x80000000000;
  }

  lemma WhitePawnPushesAreGeneratedAt44()
    ensures WhitePawnMovesAt(44) == Leapers.PawnPushes(SquareBitAt(44), true)
  {
    SquareBitAtAgrees(44);
    assert SquareBit(44) == 0x100000000000;
  }

  lemma WhitePawnPushesAreGeneratedAt45()
    ensures WhitePawnMovesAt(45) == Leapers.PawnPushes(SquareBitAt(45), true)
  {
    SquareBitAtAgrees(45);
    assert SquareBit(45) == 0x200000000000;
  }

  lemma WhitePawnPushesAreGeneratedAt46()
    ensures WhitePawnMovesAt(46) == Leapers.PawnPushes(SquareBitAt(46), true)
  {
    SquareBitAtAgrees(46);
    assert SquareBit(46) == 0x400000000000;
  }

  lemma WhitePawnPushesAreGeneratedAt47()
    ensures WhitePawnMovesAt(47) == Leapers.PawnPushes(SquareBitAt(47), true)
  {
    SquareBitAtAgrees(47);
    assert SquareBit(47) == 0x800000000000;
  }

  lemma WhitePawnPushesAreGeneratedAt48()
    ensures WhitePawnMovesAt(48) == Leapers.PawnPushes(SquareBitAt(48), true)
  {
    SquareBitAtAgrees(48);
    assert SquareBit(48) == 0x1000000000000;
  }

  lemma WhitePawnPushesAreGeneratedAt49()
    ensures WhitePawnMovesAt(49) == Leapers.PawnPushes(SquareBitAt(49), true)
  {
    SquareBitAtAgrees(49);
    assert SquareBit(49) == 0x2000000000000;
  }

  lemma WhitePawnPushesAreGeneratedAt50()
    ensures WhitePawnMovesAt(50) == Leapers.PawnPushes(SquareBitAt(50), true)
  {
    SquareBitAtAgrees(50);
    assert SquareBit(50) == 0x4000000000000;
  }

  lemma WhitePawnPushesAreGeneratedAt51()
    ensures WhitePawnMovesAt(51) == Leapers.PawnPushes(SquareBitAt(51), true)
  {
    SquareBitAtAgrees(51);
    assert SquareBit(51) == 0x8000000000000;
  }

  lemma WhitePawnPushesAreGeneratedAt52()
    ensures WhitePawnMovesAt(52) == Leapers.PawnPushes(SquareBitAt(52), true)
  {
    SquareBitAtAgrees(52);
    assert SquareBit(52) == 0x10000000000000;
  }

  lemma WhitePawnPushesAreGeneratedAt53()
    ensures WhitePawnMovesAt(53) == Leapers.PawnPushes(SquareBitAt(53), true)
  {
    SquareBitAtAgrees(53);
    assert SquareBit(53) == 0x20000000000000;
  }

  lemma WhitePawnPushesAreGeneratedAt54()
    ensures WhitePawnMovesAt(54) == Leapers.PawnPushes(SquareBitAt(54), true)
  {
    SquareBitAtAgrees(54);
    assert SquareBit(54) == 0x40000000000000;
  }

  lemma WhitePawnPushesAreGeneratedAt55()
    ensures WhitePawnMovesAt(55) == Leapers.PawnPushes(SquareBitAt(55), true)
  {
    SquareBitAtAgrees(55);
    assert SquareBit(55) == 0x80000000000000;
  }

  lemma WhitePawnPushesAreGeneratedAt56()
    ensures WhitePawnMovesAt(56) == Leapers.PawnPushes(SquareBitAt(56), true)
  {
    SquareBitAtAgrees(56);
    assert SquareBit(56) == 0x100000000000000;
  }

  lemma WhitePawnPushesAreGeneratedAt57()
    ensures WhitePawnMovesAt(57) == Leapers.PawnPushes(SquareBitAt(57), true)
  {
    SquareBitAtAgrees(57);
    assert SquareBit(57) == 0x200000000000000;
  }

  lemma WhitePawnPushesAreGeneratedAt58()
    ensures WhitePawnMovesAt(58) == Leapers.PawnPushes(SquareBitAt(58), true)
  {
    SquareBitAtAgrees(58);
    assert SquareBit(58) == 0x400000000000000;
  }

  lemma WhitePawnPushesAreGeneratedAt59()
    ensures WhitePawnMovesAt(59) == Leapers.PawnPushes(SquareBitAt(59), true)
  {
    SquareBitAtAgrees(59);
    assert SquareBit(59) == 0x800000000000000;
  }

  lemma WhitePawnPushesAreGeneratedAt60()
    ensures WhitePawnMovesAt(60) == Leapers.PawnPushes(SquareBitAt(60), true)
  {
    SquareBitAtAgrees(60);
    assert SquareBit(60) == 0x1000000000000000;
  }

  lemma WhitePawnPushesAreGeneratedAt61()
    ensures WhitePawnMovesAt(61) == Leapers.PawnPushes(SquareBitAt(61), true)
  {
    SquareBitAtAgrees(61);
    assert SquareBit(61) == 0x2000000000000000;
  }

  lemma WhitePawnPushesAreGeneratedAt62()
    ensures WhitePawnMovesAt(62) == Leapers.PawnPushes(SquareBitAt(62), true)
  {
    SquareBitAtAgrees(62);
    assert SquareBit(62) == 0x4000000000000000;
  }

  lemma WhitePawnPushesAreGeneratedAt63()
    ensures WhitePawnMovesAt(63) == Leapers.PawnPushes(SquareBitAt(63), true)
  {
    SquareBitAtAgrees(63);
    assert SquareBit(63) == 0x8000000000000000;
  }

  /** Every `BLACK_PAWN_MOVES` entry is what `pre_compute_pawn_moves` writes for black. */
  lemma BlackPawnPushesAreGenerated(sq: nat)
    requires sq < 64
    ensures BlackPawnMovesAt(sq) == Leapers.PawnPushes(SquareBitAt(sq), false)
  {
    if sq < 8 { BlackPawnPushesAreGeneratedOnRank1(sq); }
    else if sq < 16 { BlackPawnPushesAreGeneratedOnRank2(sq); }
    else if sq < 24 { BlackPawnPushesAreGeneratedOnRank3(sq); }
    else if sq < 32 { BlackPawnPushesAreGeneratedOnRank4(sq); }
    else if sq < 40 { BlackPawnPushesAreGeneratedOnRank5(sq); }
    else if sq < 48 { BlackPawnPushesAreGeneratedOnRank6(sq); }
    else if sq < 56 { BlackPawnPushesAreGeneratedOnRank7(sq); }
    else { BlackPawnPushesAreGeneratedOnRank8(sq); }
  }

  lemma BlackPawnPushesAreGeneratedOnRank1(sq: nat)
    requires 0 <= sq < 8
    ensures BlackPawnMovesAt(sq) == Leapers.PawnPushes(SquareBitAt(sq), false)
  {
    if sq == 0 { BlackPawnPushesAreGeneratedAt0(); }
    else if sq == 1 { BlackPawnPushesAreGeneratedAt1(); }
    else if sq == 2 { BlackPawnPushesAreGeneratedAt2(); }
    else if sq == 3 { BlackPawnPushesAreGeneratedAt3(); }
    else if sq == 4 { BlackPawnPushesAreGeneratedAt4(); }
    else if sq == 5 { BlackPawnPushesAreGeneratedAt5(); }
    else if sq == 6 { BlackPawnPushesAreGeneratedAt6(); }
    else { BlackPawnPushesAreGeneratedAt7(); }
  }

  lemma BlackPawnPushesAreGeneratedOnRank2(sq: nat)
    requires 8 <= sq < 16
    ensures BlackPawnMovesAt(sq) == Leapers.PawnPushes(SquareBitAt(sq), false)
  {
    if sq == 8 { BlackPawnPushesAreGeneratedAt8(); }
    else if sq == 9 { BlackPawnPushesAreGeneratedAt9(); }
    else if sq == 10 { BlackPawnPushesAreGeneratedAt10(); }
    else if sq == 11 { BlackPawnPushesAreGeneratedAt11(); }
    else if sq == 12 { BlackPawnPushesAreGeneratedAt12(); }
    else if sq == 13 { BlackPawnPushesAreGeneratedAt13(); }
    else if sq == 14 { BlackPawnPushesAreGeneratedAt14(); }
    else { BlackPawnPushesAreGeneratedAt15(); }
  }

  lemma BlackPawnPushesAreGeneratedOnRank3(sq: nat)
    requires 16 <= sq < 24
    ensures BlackPawnMovesAt(sq) == Leapers.PawnPushes(SquareBitAt(sq), false)
  {
    if sq == 16 { BlackPawnPushesAreGeneratedAt16(); }
    else if sq == 17 { BlackPawnPushesAreGeneratedAt17(); }
    else if sq == 18 { BlackPawnPushesAreGeneratedAt18(); }
    else if sq == 19 { BlackPawnPushesAreGeneratedAt19(); }
    else if sq == 20 { BlackPawnPushesAreGeneratedAt20(); }
    else if sq == 21 { BlackPawnPushesAreGeneratedAt21(); }
    else if sq == 22 { BlackPawnPushesAreGeneratedAt22(); }
    else { BlackPawnPushesAreGeneratedAt23(); }
  }

  lemma BlackPawnPushesAreGeneratedOnRank4(sq: nat)
    requires 24 <= sq < 32
    ensures BlackPawnMovesAt(sq) == Leapers.PawnPushes(SquareBitAt(sq), false)
  {
    if sq == 24 { BlackPawnPushesAreGeneratedAt24(); }
    else if sq == 25 { BlackPawnPushesAreGeneratedAt25(); }
    else if sq == 26 { BlackPawnPushesAreGeneratedAt26(); }
    else if sq == 27 { BlackPawnPushesAreGeneratedAt27(); }
    else if sq == 28 { BlackPawnPushesAreGeneratedAt28(); }
    else if sq == 29 { BlackPawnPushesAreGeneratedAt29(); }
    else if sq == 30 { BlackPawnPushesAreGeneratedAt30(); }
    else { BlackPawnPushesAreGeneratedAt31(); }
  }

  lemma BlackPawnPushesAreGeneratedOnRank5(sq: nat)
    requires 32 <= sq < 40
    ensures BlackPawnMovesAt(sq) == Leapers.PawnPushes(SquareBitAt(sq), false)
  {
    if sq == 32 { BlackPawnPushesAreGeneratedAt32(); }
    else if sq == 33 { BlackPawnPushesAreGeneratedAt33(); }
    else if sq == 34 { BlackPawnPushesAreGeneratedAt34(); }
    else if sq == 35 { BlackPawnPushesAreGeneratedAt35(); }
    else if sq == 36 { BlackPawnPushesAreGeneratedAt36(); }
    else if sq == 37 { BlackPawnPushesAreGeneratedAt37(); }
    else if sq == 38 { BlackPawnPushesAreGeneratedAt38(); }
    else { BlackPawnPushesAreGeneratedAt39(); }
  }

  lemma BlackPawnPushesAreGeneratedOnRank6(sq: nat)
    requires 40 <= sq < 48
    ensures BlackPawnMovesAt(sq) == Leapers.PawnPushes(SquareBitAt(sq), false)
  {
    if sq == 40 { BlackPawnPushesAreGeneratedAt40(); }
    else if sq == 41 { BlackPawnPushesAreGeneratedAt41(); }
    else if sq == 42 { BlackPawnPushesAreGeneratedAt42(); }
    else if sq == 43 { BlackPawnPushesAreGeneratedAt43(); }
    else if sq == 44 { BlackPawnPushesAreGeneratedAt44(); }
    else if sq == 45 { BlackPawnPushesAreGeneratedAt45(); }
    else if sq == 46 { BlackPawnPushesAreGeneratedAt46(); }
    else { BlackPawnPushesAreGeneratedAt47(); }
  }

  lemma BlackPawnPushesAreGeneratedOnRank7(sq: nat)
    requires 48 <= sq < 56
    ensures BlackPawnMovesAt(sq) == Leapers.PawnPushes(SquareBitAt(sq), false)
  {
    if sq == 48 { BlackPawnPushesAreGeneratedAt48(); }
    else if sq == 49 { BlackPawnPushesAreGeneratedAt49(); }
    else if sq == 50 { BlackPawnPushesAreGeneratedAt50(); }
    else if sq == 51 { BlackPawnPushesAreGeneratedAt51(); }
    else if sq == 52 { BlackPawnPushesAreGeneratedAt52(); }
    else if sq == 53 { BlackPawnPushesAreGeneratedAt53(); }
    else if sq == 54 { BlackPawnPushesAreGeneratedAt54(); }
    else { BlackPawnPushesAreGeneratedAt55(); }
  }

  lemma BlackPawnPushesAreGeneratedOnRank8(sq: nat)
    requires 56 <= sq < 64
    ensures BlackPawnMovesAt(sq) == Leapers.PawnPushes(SquareBitAt(sq), false)
  {
    if sq == 56 { BlackPawnPushesAreGeneratedAt56(); }
    else if sq == 57 { BlackPawnPushesAreGeneratedAt57(); }
    else if sq == 58 { BlackPawnPushesAreGeneratedAt58(); }
    else if sq == 59 { BlackPawnPushesAreGeneratedAt59(); }
    else if sq == 60 { BlackPawnPushesAreGeneratedAt60(); }
    else if sq == 61 { BlackPawnPushesAreGeneratedAt61(); }
    else if sq == 62 { BlackPawnPushesAreGeneratedAt62(); }
    else { BlackPawnPushesAreGeneratedAt63(); }
  }

  lemma BlackPawnPushesAreGeneratedAt0()
    ensures BlackPawnMovesAt(0) == Leapers.PawnPushes(SquareBitAt(0), false)
  {
    SquareBitAtAgrees(0);
    assert SquareBit(0) == 0x1;
  }

  lemma BlackPawnPushesAreGeneratedAt1()
    ensures BlackPawnMovesAt(1) == Leapers.PawnPushes(SquareBitAt(1), false)
  {
    SquareBitAtAgrees(1);
    assert SquareBit(1) == 0x2;
  }

  lemma BlackPawnPushesAreGeneratedAt2()
    ensures BlackPawnMovesAt(2) == Leapers.PawnPushes(SquareBitAt(2), false)
  {
    SquareBitAtAgrees(2);
    assert SquareBit(2) == 0x4;
  }

  lemma BlackPawnPushesAreGeneratedAt3()
    ensures BlackPawnMovesAt(3) == Leapers.PawnPushes(SquareBitAt(3), false)
  {
    SquareBitAtAgrees(3);
    assert SquareBit(3) == 0x8;
  }

  lemma BlackPawnPushesAreGeneratedAt4()
    ensures BlackPawnMovesAt(4) == Leapers.PawnPushes(SquareBitAt(4), false)
  {
    SquareBitAtAgrees(4);
    assert SquareBit(4) == 0x10;
  }

  lemma BlackPawnPushesAreGeneratedAt5()
    ensures BlackPawnMovesAt(5) == Leapers.PawnPushes(SquareBitAt(5), false)
  {
    SquareBitAtAgrees(5);
    assert SquareBit(5) == 0x20;
  }

  lemma BlackPawnPushesAreGeneratedAt6()
    ensures BlackPawnMovesAt(6) == Leapers.PawnPushes(SquareBitAt(6), false)
  {
    SquareBitAtAgrees(6);
    assert SquareBit(6) == 0x40;
  }

  lemma BlackPawnPushesAreGeneratedAt7()
    ensures BlackPawnMovesAt(7) == Leapers.PawnPushes(SquareBitAt(7), false)
  {
    SquareBitAtAgrees(7);
    assert SquareBit(7) == 0x80;
  }

  lemma BlackPawnPushesAreGeneratedAt8()
    ensures BlackPawnMovesAt(8) == Leapers.PawnPushes(SquareBitAt(8), false)
  {
    SquareBitAtAgrees(8);
    assert SquareBit(8) == 0x100;
  }

  lemma BlackPawnPushesAreGeneratedAt9()
    ensures BlackPawnMovesAt(9) == Leapers.PawnPushes(SquareBitAt(9), false)
  {
    SquareBitAtAgrees(9);
    assert SquareBit(9) == 0x200;
  }

  lemma BlackPawnPushesAreGeneratedAt10()
    ensures BlackPawnMovesAt(10) == Leapers.PawnPushes(SquareBitAt(10), false)
  {
    SquareBitAtAgrees(10);
    assert SquareBit(10) == 0x400;
  }

  lemma BlackPawnPushesAreGeneratedAt11()
    ensures BlackPawnMovesAt(11) == Leapers.PawnPushes(SquareBitAt(11), false)
  {
    SquareBitAtAgrees(11);
    assert SquareBit(11) == 0x800;
  }

  lemma BlackPawnPushesAreGeneratedAt12()
    ensures BlackPawnMovesAt(12) == Leapers.PawnPushes(SquareBitAt(12), false)
  {
    SquareBitAtAgrees(12);
    assert SquareBit(12) == 0x1000;
  }

  lemma BlackPawnPushesAreGeneratedAt13()
    ensures BlackPawnMovesAt(13) == Leapers.PawnPushes(SquareBitAt(13), false)
  {
    SquareBitAtAgrees(13);
    assert SquareBit(13) == 0x2000;
  }

  lemma BlackPawnPushesAreGeneratedAt14()
    ensures BlackPawnMovesAt(14) == Leapers.PawnPushes(SquareBitAt(14), false)
  {
    SquareBitAtAgrees(14);
    assert SquareBit(14) == 0x4000;
  }

  lemma BlackPawnPushesAreGeneratedAt15()
    ensures BlackPawnMovesAt(15) == Leapers.PawnPushes(SquareBitAt(15), false)
  {
    SquareBitAtAgrees(15);
    assert SquareBit(15) == 0x8000;
  }

  lemma BlackPawnPushesAreGeneratedAt16()
    ensures BlackPawnMovesAt(16) == Leapers.PawnPushes(SquareBitAt(16), false)
  {
    SquareBitAtAgrees(16);
    assert SquareBit(16) == 0x10000;
  }

  lemma BlackPawnPushesAreGeneratedAt17()
    ensures BlackPawnMovesAt(17) == Leapers.PawnPushes(SquareBitAt(17), false)
  {
    SquareBitAtAgrees(17);
    assert SquareBit(17) == 0x20000;
  }

  lemma BlackPawnPushesAreGeneratedAt18()
    ensures BlackPawnMovesAt(18) == Leapers.PawnPushes(SquareBitAt(18), false)
  {
    SquareBitAtAgrees(18);
    assert SquareBit(18) == 0x40000;
  }

  lemma BlackPawnPushesAreGeneratedAt19()
    ensures BlackPawnMovesAt(19) == Leapers.PawnPushes(SquareBitAt(19), false)
  {
    SquareBitAtAgrees(19);
    assert SquareBit(19) == 0x80000;
  }

  lemma BlackPawnPushesAreGeneratedAt20()
    ensures BlackPawnMovesAt(20) == Leapers.PawnPushes(SquareBitAt(20), false)
  {
    SquareBitAtAgrees(20);
    assert SquareBit(20) == 0x100000;
  }

  lemma BlackPawnPushesAreGeneratedAt21()
    ensures BlackPawnMovesAt(21) == Leapers.PawnPushes(SquareBitAt(21), false)
  {
    SquareBitAtAgrees(21);
    assert SquareBit(21) == 0x200000;
  }

  lemma BlackPawnPushesAreGeneratedAt22()
    ensures BlackPawnMovesAt(22) == Leapers.PawnPushes(SquareBitAt(22), false)
  {
    SquareBitAtAgrees(22);
    assert SquareBit(22) == 0x400000;
  }

  lemma BlackPawnPushesAreGeneratedAt23()
    ensures BlackPawnMovesAt(23) == Leapers.PawnPushes(SquareBitAt(23), false)
  {
    SquareBitAtAgrees(23);
    assert SquareBit(23) == 0x800000;
  }

  lemma BlackPawnPushesAreGeneratedAt24()
    ensures BlackPawnMovesAt(24) == Leapers.PawnPushes(SquareBitAt(24), false)
  {
    SquareBitAtAgrees(24);
    assert SquareBit(24) == 0x1000000;
  }

  lemma BlackPawnPushesAreGeneratedAt25()
    ensures BlackPawnMovesAt(25) == Leapers.PawnPushes(SquareBitAt(25), false)
  {
    SquareBitAtAgrees(25);
    assert SquareBit(25) == 0x2000000;
  }

  lemma BlackPawnPushesAreGeneratedAt26()
    ensures BlackPawnMovesAt(26) == Leapers.PawnPushes(SquareBitAt(26), false)
  {
    SquareBitAtAgrees(26);
    assert SquareBit(26) == 0x4000000;
  }

  lemma BlackPawnPushesAreGeneratedAt27()
    ensures BlackPawnMovesAt(27) == Leapers.PawnPushes(SquareBitAt(27), false)
  {
    SquareBitAtAgrees(27);
    assert SquareBit(27) == 0x8000000;
  }

  lemma BlackPawnPushesAreGeneratedAt28()
    ensures BlackPawnMovesAt(28) == Leapers.PawnPushes(SquareBitAt(28), false)
  {
    SquareBitAtAgrees(28);
    assert SquareBit(28) == 0x10000000;
  }

  lemma BlackPawnPushesAreGeneratedAt29()
    ensures BlackPawnMovesAt(29) == Leapers.PawnPushes(SquareBitAt(29), false)
  {
    SquareBitAtAgrees(29);
    assert SquareBit(29) == 0x20000000;
  }

  lemma BlackPawnPushesAreGeneratedAt30()
    ensures BlackPawnMovesAt(30) == Leapers.PawnPushes(SquareBitAt(30), false)
  {
    SquareBitAtAgrees(30);
    assert SquareBit(30) == 0x40000000;
  }

  lemma BlackPawnPushesAreGeneratedAt31()
    ensures BlackPawnMovesAt(31) == Leapers.PawnPushes(SquareBitAt(31), false)
  {
    SquareBitAtAgrees(31);
    assert SquareBit(31) == 0x80000000;
  }

  lemma BlackPawnPushesAreGeneratedAt32()
    ensures BlackPawnMovesAt(32) == Leapers.PawnPushes(SquareBitAt(32), false)
  {
    SquareBitAtAgrees(32);
    assert SquareBit(32) == 0x100000000;
  }

  lemma BlackPawnPushesAreGeneratedAt33()
    ensures BlackPawnMovesAt(33) == Leapers.PawnPushes(SquareBitAt(33), false)
  {
    SquareBitAtAgrees(33);
    assert SquareBit(33) == 0x200000000;
  }

  lemma BlackPawnPushesAreGeneratedAt34()
    ensures BlackPawnMovesAt(34) == Leapers.PawnPushes(SquareBitAt(34), false)
  {
    SquareBitAtAgrees(34);
    assert SquareBit(34) == 0x400000000;
  }

  lemma BlackPawnPushesAreGeneratedAt35()
    ensures BlackPawnMovesAt(35) == Leapers.PawnPushes(SquareBitAt(35), false)
  {
    SquareBitAtAgrees(35);
    assert SquareBit(35) == 0x800000000;
  }

  lemma BlackPawnPushesAreGeneratedAt36()
    ensures BlackPawnMovesAt(36) == Leapers.PawnPushes(SquareBitAt(36), false)
  {
    SquareBitAtAgrees(36);
    assert SquareBit(36) == 0x1000000000;
  }

  lemma BlackPawnPushesAreGeneratedAt37()
    ensures BlackPawnMovesAt(37) == Leapers.PawnPushes(SquareBitAt(37), false)
  {
    SquareBitAtAgrees(37);
    assert SquareBit(37) == 0x2000000000;
  }

  lemma BlackPawnPushesAreGeneratedAt38()
    ensures BlackPawnMovesAt(38) == Leapers.PawnPushes(SquareBitAt(38), false)
  {
    SquareBitAtAgrees(38);
    assert SquareBit(38) == 0x4000000000;
  }

  lemma BlackPawnPushesAreGeneratedAt39()
    ensures BlackPawnMovesAt(39) == Leapers.PawnPushes(SquareBitAt(39), false)
  {
    SquareBitAtAgrees(39);
    assert SquareBit(39) == 0x8000000000;
  }

  lemma BlackPawnPushesAreGeneratedAt40()
    ensures BlackPawnMovesAt(40) == Leapers.PawnPushes(SquareBitAt(40), false)
  {
    SquareBitAtAgrees(40);
    assert SquareBit(40) == 0x10000000000;
  }

  lemma BlackPawnPushesAreGeneratedAt41()
    ensures BlackPawnMovesAt(41) == Leapers.PawnPushes(SquareBitAt(41), false)
  {
    SquareBitAtAgrees(41);
    assert SquareBit(41) == 0x20000000000;
  }

  lemma BlackPawnPushesAreGeneratedAt42()
    ensures BlackPawnMovesAt(42) == Leapers.PawnPushes(SquareBitAt(42), false)
  {
    SquareBitAtAgrees(42);
    assert SquareBit(42) == 0x40000000000;
  }

  lemma BlackPawnPushesAreGeneratedAt43()
    ensures BlackPawnMovesAt(43) == Leapers.PawnPushes(SquareBitAt(43), false)
  {
    SquareBitAtAgrees(43);
    assert SquareBit(43) == 0x80000000000;
  }

  lemma BlackPawnPushesAreGeneratedAt44()
    ensures BlackPawnMovesAt(44) == Leapers.PawnPushes(SquareBitAt(44), false)
  {
    SquareBitAtAgrees(44);
    assert SquareBit(44) == 0x100000000000;
  }

  lemma BlackPawnPushesAreGeneratedAt45()
    ensures BlackPawnMovesAt(45) == Leapers.PawnPushes(SquareBitAt(45), false)
  {
    SquareBitAtAgrees(45);
    assert SquareBit(45) == 0x200000000000;
  }

  lemma BlackPawnPushesAreGeneratedAt46()
    ensures BlackPawnMovesAt(46) == Leapers.PawnPushes(SquareBitAt(46), false)
  {
    SquareBitAtAgrees(46);
    assert SquareBit(46) == 0x400000000000;
  }

  lemma BlackPawnPushesAreGeneratedAt47()
    ensures BlackPawnMovesAt(47) == Leapers.PawnPushes(SquareBitAt(47), false)
  {
    SquareBitAtAgrees(47);
    assert SquareBit(47) == 0x800000000000;
  }

  lemma BlackPawnPushesAreGeneratedAt48()
    ensures BlackPawnMovesAt(48) == Leapers.PawnPushes(SquareBitAt(48), false)
  {
    SquareBitAtAgrees(48);
    assert SquareBit(48) == 0x1000000000000;
  }

  lemma BlackPawnPushesAreGeneratedAt49()
    ensures BlackPawnMovesAt(49) == Leapers.PawnPushes(SquareBitAt(49), false)
  {
    SquareBitAtAgrees(49);
    assert SquareBit(49) == 0x2000000000000;
  }

  lemma BlackPawnPushesAreGeneratedAt50()
    ensures BlackPawnMovesAt(50) == Leapers.PawnPushes(SquareBitAt(50), false)
  {
    SquareBitAtAgrees(50);
    assert SquareBit(50) == 0x4000000000000;
  }

  lemma BlackPawnPushesAreGeneratedAt51()
    ensures BlackPawnMovesAt(51) == Leapers.PawnPushes(SquareBitAt(51), false)
  {
    SquareBitAtAgrees(51);
    assert SquareBit(51) == 0x8000000000000;
  }

  lemma BlackPawnPushesAreGeneratedAt52()
    ensures BlackPawnMovesAt(52) == Leapers.PawnPushes(SquareBitAt(52), false)
  {
    SquareBitAtAgrees(52);
    assert SquareBit(52) == 0x10000000000000;
  }

  lemma BlackPawnPushesAreGeneratedAt53()
    ensures BlackPawnMovesAt(53) == Leapers.PawnPushes(SquareBitAt(53), false)
  {
    SquareBitAtAgrees(53);
    assert SquareBit(53) == 0x20000000000000;
  }

  lemma BlackPawnPushesAreGeneratedAt54()
    ensures BlackPawnMovesAt(54) == Leapers.PawnPushes(SquareBitAt(54), false)
  {
    SquareBitAtAgrees(54);
    assert SquareBit(54) == 0x40000000000000;
  }

  lemma BlackPawnPushesAreGeneratedAt55()
    ensures BlackPawnMovesAt(55) == Leapers.PawnPushes(SquareBitAt(55), false)
  {
    SquareBitAtAgrees(55);
    assert SquareBit(55) == 0x80000000000000;
  }

  lemma BlackPawnPushesAreGeneratedAt56()
    ensures BlackPawnMovesAt(56) == Leapers.PawnPushes(SquareBitAt(56), false)
  {
    SquareBitAtAgrees(56);
    assert SquareBit(56) == 0x100000000000000;
  }

  lemma BlackPawnPushesAreGeneratedAt57()
    ensures BlackPawnMovesAt(57) == Leapers.PawnPushes(SquareBitAt(57), false)
  {
    SquareBitAtAgrees(57);
    assert SquareBit(57) == 0x200000000000000;
  }

  lemma BlackPawnPushesAreGeneratedAt58()
    ensures BlackPawnMovesAt(58) == Leapers.PawnPushes(SquareBitAt(58), false)
  {
    SquareBitAtAgrees(58);
    assert SquareBit(58) == 0x400000000000000;
  }

  lemma BlackPawnPushesAreGeneratedAt59()
    ensures BlackPawnMovesAt(59) == Leapers.PawnPushes(SquareBitAt(59), false)
  {
    SquareBitAtAgrees(59);
    assert SquareBit(59) == 0x800000000000000;
  }

  lemma BlackPawnPushesAreGeneratedAt60()
    ensures BlackPawnMovesAt(60) == Leapers.PawnPushes(SquareBitAt(60), false)
  {
    SquareBitAtAgrees(60);
    assert SquareBit(60) == 0x1000000000000000;
  }

  lemma BlackPawnPushesAreGeneratedAt61()
    ensures BlackPawnMovesAt(61) == Leapers.PawnPushes(SquareBitAt(61), false)
  {
    SquareBitAtAgrees(61);
    assert SquareBit(61) == 0x2000000000000000;
  }

  lemma BlackPawnPushesAreGeneratedAt62()
    ensures BlackPawnMovesAt(62) == Leapers.PawnPushes(SquareBitAt(62), false)
  {
    SquareBitAtAgrees(62);
    assert SquareBit(62) == 0x4000000000000000;
  }

  lemma BlackPawnPushesAreGeneratedAt63()
    ensures BlackPawnMovesAt(63) == Leapers.PawnPushes(SquareBitAt(63), false)
  {
    SquareBitAtAgrees(63);
    assert SquareBit(63) == 0x8000000000000000;
  }

  /** `SquareBitListed` agrees with the bitboard of a square. */
  lemma SquareBitIsListed(sq: nat)
    requires sq < 64
    ensures SquareBitListed(sq) == SquareBitAt(sq)
  {
    if sq < 8 { SquareBitIsListedOnRank1(sq); }
    else if sq < 16 { SquareBitIsListedOnRank2(sq); }
    else if sq < 24 { SquareBitIsListedOnRank3(sq); }
    else if sq < 32 { SquareBitIsListedOnRank4(sq); }
    else if sq < 40 { SquareBitIsListedOnRank5(sq); }
    else if sq < 48 { SquareBitIsListedOnRank6(sq); }
    else if sq < 56 { SquareBitIsListedOnRank7(sq); }
    else { SquareBitIsListedOnRank8(sq); }
  }

  lemma SquareBitIsListedOnRank1(sq: nat)
    requires 0 <= sq < 8
    ensures SquareBitListed(sq) == SquareBitAt(sq)
  {
    if sq == 0 { SquareBitIsListedAt0(); }
    else if sq == 1 { SquareBitIsListedAt1(); }
    else if sq == 2 { SquareBitIsListedAt2(); }
    else if sq == 3 { SquareBitIsListedAt3(); }
    else if sq == 4 { SquareBitIsListedAt4(); }
    else if sq == 5 { SquareBitIsListedAt5(); }
    else if sq == 6 { SquareBitIsListedAt6(); }
    else { SquareBitIsListedAt7(); }
  }

  lemma SquareBitIsListedOnRank2(sq: nat)
    requires 8 <= sq < 16
    ensures SquareBitListed(sq) == SquareBitAt(sq)
  {
    if sq == 8 { SquareBitIsListedAt8(); }
    else if sq == 9 { SquareBitIsListedAt9(); }
    else if sq == 10 { SquareBitIsListedAt10(); }
    else if sq == 11 { SquareBitIsListedAt11(); }
    else if sq == 12 { SquareBitIsListedAt12(); }
    else if sq == 13 { SquareBitIsListedAt13(); }
    else if sq == 14 { SquareBitIsListedAt14(); }
    else { SquareBitIsListedAt15(); }
  }

  lemma SquareBitIsListedOnRank3(sq: nat)
    requires 16 <= sq < 24
    ensures SquareBitListed(sq) == SquareBitAt(sq)
  {
    if sq == 16 { SquareBitIsListedAt16(); }
    else if sq == 17 { SquareBitIsListedAt17(); }
    else if sq == 18 { SquareBitIsListedAt18(); }
    else if sq == 19 { SquareBitIsListedAt19(); }
    else if sq == 20 { SquareBitIsListedAt20(); }
    else if sq == 21 { SquareBitIsListedAt21(); }
    else if sq == 22 { SquareBitIsListedAt22(); }
    else { SquareBitIsListedAt23(); }
  }

  lemma SquareBitIsListedOnRank4(sq: nat)
    requires 24 <= sq < 32
    ensures SquareBitListed(sq) == SquareBitAt(sq)
  {
    if sq == 24 { SquareBitIsListedAt24(); }
    else if sq == 25 { SquareBitIsListedAt25(); }
    else if sq == 26 { SquareBitIsListedAt26(); }
    else if sq == 27 { SquareBitIsListedAt27(); }
    else if sq == 28 { SquareBitIsListedAt28(); }
    else if sq == 29 { SquareBitIsListedAt29(); }
    else if sq == 30 { SquareBitIsListedAt30(); }
    else { SquareBitIsListedAt31(); }
  }

  lemma SquareBitIsListedOnRank5(sq: nat)
    requires 32 <= sq < 40
    ensures SquareBitListed(sq) == SquareBitAt(sq)
  {
    if sq == 32 { SquareBitIsListedAt32(); }
    else if sq == 33 { SquareBitIsListedAt33(); }
    else if sq == 34 { SquareBitIsListedAt34(); }
    else if sq == 35 { SquareBitIsListedAt35(); }
    else if sq == 36 { SquareBitIsListedAt36(); }
    else if sq == 37 { SquareBitIsListedAt37(); }
    else if sq == 38 { SquareBitIsListedAt38(); }
    else { SquareBitIsListedAt39(); }
  }

  lemma SquareBitIsListedOnRank6(sq: nat)
    requires 40 <= sq < 48
    ensures SquareBitListed(sq) == SquareBitAt(sq)
  {
    if sq == 40 { SquareBitIsListedAt40(); }
    else if sq == 41 { SquareBitIsListedAt41(); }
    else if sq == 42 { SquareBitIsListedAt42(); }
    else if sq == 43 { SquareBitIsListedAt43(); }
    else if sq == 44 { SquareBitIsListedAt44(); }
    else if sq == 45 { SquareBitIsListedAt45(); }
    else if sq == 46 { SquareBitIsListedAt46(); }
    else { SquareBitIsListedAt47(); }
  }

  lemma SquareBitIsListedOnRank7(sq: nat)
    requires 48 <= sq < 56
    ensures SquareBitListed(sq) == SquareBitAt(sq)
  {
    if sq == 48 { SquareBitIsListedAt48(); }
    else if sq == 49 { SquareBitIsListedAt49(); }
    else if sq == 50 { SquareBitIsListedAt50(); }
    else if sq == 51 { SquareBitIsListedAt51(); }
    else if sq == 52 { SquareBitIsListedAt52(); }
    else if sq == 53 { SquareBitIsListedAt53(); }
    else if sq == 54 { SquareBitIsListedAt54(); }
    else { SquareBitIsListedAt55(); }
  }

  lemma SquareBitIsListedOnRank8(sq: nat)
    requires 56 <= sq < 64
    ensures SquareBitListed(sq) == SquareBitAt(sq)
  {
    if sq == 56 { SquareBitIsListedAt56(); }
    else if sq == 57 { SquareBitIsListedAt57(); }
    else if sq == 58 { SquareBitIsListedAt58(); }
    else if sq == 59 { SquareBitIsListedAt59(); }
    else if sq == 60 { SquareBitIsListedAt60(); }
    else if sq == 61 { SquareBitIsListedAt61(); }
    else if sq == 62 { SquareBitIsListedAt62(); }
    else { SquareBitIsListedAt63(); }
  }

  lemma SquareBitIsListedAt0()
    ensures SquareBitListed(0) == SquareBitAt(0)
  {
    SquareBitAtAgrees(0);
    assert SquareBit(0) == 0x1;
  }

  lemma SquareBitIsListedAt1()
    ensures SquareBitListed(1) == SquareBitAt(1)
  {
    SquareBitAtAgrees(1);
    assert SquareBit(1) == 0x2;
  }

  lemma SquareBitIsListedAt2()
    ensures SquareBitListed(2) == SquareBitAt(2)
  {
    SquareBitAtAgrees(2);
    assert SquareBit(2) == 0x4;
  }

  lemma SquareBitIsListedAt3()
    ensures SquareBitListed(3) == SquareBitAt(3)
  {
    SquareBitAtAgrees(3);
    assert SquareBit(3) == 0x8;
  }

  lemma SquareBitIsListedAt4()
    ensures SquareBitListed(4) == SquareBitAt(4)
  {
    SquareBitAtAgrees(4);
    assert SquareBit(4) == 0x10;
  }

  lemma SquareBitIsListedAt5()
    ensures SquareBitListed(5) == SquareBitAt(5)
  {
    SquareBitAtAgrees(5);
    assert SquareBit(5) == 0x20;
  }

  lemma SquareBitIsListedAt6()
    ensures SquareBitListed(6) == SquareBitAt(6)
  {
    SquareBitAtAgrees(6);
    assert SquareBit(6) == 0x40;
  }

  lemma SquareBitIsListedAt7()
    ensures SquareBitListed(7) == SquareBitAt(7)
  {
    SquareBitAtAgrees(7);
    assert SquareBit(7) == 0x80;
  }

  lemma SquareBitIsListedAt8()
    ensures SquareBitListed(8) == SquareBitAt(8)
  {
    SquareBitAtAgrees(8);
    assert SquareBit(8) == 0x100;
  }

  lemma SquareBitIsListedAt9()
    ensures SquareBitListed(9) == SquareBitAt(9)
  {
    SquareBitAtAgrees(9);
    assert SquareBit(9) == 0x200;
  }

  lemma SquareBitIsListedAt10()
    ensures SquareBitListed(10) == SquareBitAt(10)
  {
    SquareBitAtAgrees(10);
    assert SquareBit(10) == 0x400;
  }

  lemma SquareBitIsListedAt11()
    ensures SquareBitListed(11) == SquareBitAt(11)
  {
    SquareBitAtAgrees(11);
    assert SquareBit(11) == 0x800;
  }

  lemma SquareBitIsListedAt12()
    ensures SquareBitListed(12) == SquareBitAt(12)
  {
    SquareBitAtAgrees(12);
    assert SquareBit(12) == 0x1000;
  }

  lemma SquareBitIsListedAt13()
    ensures SquareBitListed(13) == SquareBitAt(13)
  {
    SquareBitAtAgrees(13);
    assert SquareBit(13) == 0x2000;
  }

  lemma SquareBitIsListedAt14()
    ensures SquareBitListed(14) == SquareBitAt(14)
  {
    SquareBitAtAgrees(14);
    assert SquareBit(14) == 0x4000;
  }

  lemma SquareBitIsListedAt15()
    ensures SquareBitListed(15) == SquareBitAt(15)
  {
    SquareBitAtAgrees(15);
    assert SquareBit(15) == 0x8000;
  }

  lemma SquareBitIsListedAt16()
    ensures SquareBitListed(16) == SquareBitAt(16)
  {
    SquareBitAtAgrees(16);
    assert SquareBit(16) == 0x10000;
  }

  lemma SquareBitIsListedAt17()
    ensures SquareBitListed(17) == SquareBitAt(17)
  {
    SquareBitAtAgrees(17);
    assert SquareBit(17) == 0x20000;
  }

  lemma SquareBitIsListedAt18()
    ensures SquareBitListed(18) == SquareBitAt(18)
  {
    SquareBitAtAgrees(18);
    assert SquareBit(18) == 0x40000;
  }

  lemma SquareBitIsListedAt19()
    ensures SquareBitListed(19) == SquareBitAt(19)
  {
    SquareBitAtAgrees(19);
    assert SquareBit(19) == 0x80000;
  }

  lemma SquareBitIsListedAt20()
    ensures SquareBitListed(20) == SquareBitAt(20)
  {
    SquareBitAtAgrees(20);
    assert SquareBit(20) == 0x100000;
  }

  lemma SquareBitIsListedAt21()
    ensures SquareBitListed(21) == SquareBitAt(21)
  {
    SquareBitAtAgrees(21);
    assert SquareBit(21) == 0x200000;
  }

  lemma SquareBitIsListedAt22()
    ensures SquareBitListed(22) == SquareBitAt(22)
  {
    SquareBitAtAgrees(22);
    assert SquareBit(22) == 0x400000;
  }

  lemma SquareBitIsListedAt23()
    ensures SquareBitListed(23) == SquareBitAt(23)
  {
    SquareBitAtAgrees(23);
    assert SquareBit(23) == 0x800000;
  }

  lemma SquareBitIsListedAt24()
    ensures SquareBitListed(24) == SquareBitAt(24)
  {
    SquareBitAtAgrees(24);
    assert SquareBit(24) == 0x1000000;
  }

  lemma SquareBitIsListedAt25()
    ensures SquareBitListed(25) == SquareBitAt(25)
  {
    SquareBitAtAgrees(25);
    assert SquareBit(25) == 0x2000000;
  }

  lemma SquareBitIsListedAt26()
    ensures SquareBitListed(26) == SquareBitAt(26)
  {
    SquareBitAtAgrees(26);
    assert SquareBit(26) == 0x4000000;
  }

  lemma SquareBitIsListedAt27()
    ensures SquareBitListed(27) == SquareBitAt(27)
  {
    SquareBitAtAgrees(27);
    assert SquareBit(27) == 0x8000000;
  }

  lemma SquareBitIsListedAt28()
    ensures SquareBitListed(28) == SquareBitAt(28)
  {
    SquareBitAtAgrees(28);
    assert SquareBit(28) == 0x10000000;
  }

  lemma SquareBitIsListedAt29()
    ensures SquareBitListed(29) == SquareBitAt(29)
  {
    SquareBitAtAgrees(29);
    assert SquareBit(29) == 0x20000000;
  }

  lemma SquareBitIsListedAt30()
    ensures SquareBitListed(30) == SquareBitAt(30)
  {
    SquareBitAtAgrees(30);
    assert SquareBit(30) == 0x40000000;
  }

  lemma SquareBitIsListedAt31()
    ensures SquareBitListed(31) == SquareBitAt(31)
  {
    SquareBitAtAgrees(31);
    assert SquareBit(31) == 0x80000000;
  }

  lemma SquareBitIsListedAt32()
    ensures SquareBitListed(32) == SquareBitAt(32)
  {
    SquareBitAtAgrees(32);
    assert SquareBit(32) == 0x100000000;
  }

  lemma SquareBitIsListedAt33()
    ensures SquareBitListed(33) == SquareBitAt(33)
  {
    SquareBitAtAgrees(33);
    assert SquareBit(33) == 0x200000000;
  }

  lemma SquareBitIsListedAt34()
    ensures SquareBitListed(34) == SquareBitAt(34)
  {
    SquareBitAtAgrees(34);
    assert SquareBit(34) == 0x400000000;
  }

  lemma SquareBitIsListedAt35()
    ensures SquareBitListed(35) == SquareBitAt(35)
  {
    SquareBitAtAgrees(35);
    assert SquareBit(35) == 0x800000000;
  }

  lemma SquareBitIsListedAt36()
    ensures SquareBitListed(36) == SquareBitAt(36)
  {
    SquareBitAtAgrees(36);
    assert SquareBit(36) == 0x1000000000;
  }

  lemma SquareBitIsListedAt37()
    ensures SquareBitListed(37) == SquareBitAt(37)
  {
    SquareBitAtAgrees(37);
    assert SquareBit(37) == 0x2000000000;
  }

  lemma SquareBitIsListedAt38()
    ensures SquareBitListed(38) == SquareBitAt(38)
  {
    SquareBitAtAgrees(38);
    assert SquareBit(38) == 0x4000000000;
  }

  lemma SquareBitIsListedAt39()
    ensures SquareBitListed(39) == SquareBitAt(39)
  {
    SquareBitAtAgrees(39);
    assert SquareBit(39) == 0x8000000000;
  }

  lemma SquareBitIsListedAt40()
    ensures SquareBitListed(40) == SquareBitAt(40)
  {
    SquareBitAtAgrees(40);
    assert SquareBit(40) == 0x10000000000;
  }

  lemma SquareBitIsListedAt41()
    ensures SquareBitListed(41) == SquareBitAt(41)
  {
    SquareBitAtAgrees(41);
    assert SquareBit(41) == 0x20000000000;
  }

  lemma SquareBitIsListedAt42()
    ensures SquareBitListed(42) == SquareBitAt(42)
  {
    SquareBitAtAgrees(42);
    assert SquareBit(42) == 0x40000000000;
  }

  lemma SquareBitIsListedAt43()
    ensures SquareBitListed(43) == SquareBitAt(43)
  {
    SquareBitAtAgrees(43);
    assert SquareBit(43) == 0x80000000000;
  }

  lemma SquareBitIsListedAt44()
    ensures SquareBitListed(44) == SquareBitAt(44)
  {
    SquareBitAtAgrees(44);
    assert SquareBit(44) == 0x100000000000;
  }

  lemma SquareBitIsListedAt45()
    ensures SquareBitListed(45) == SquareBitAt(45)
  {
    SquareBitAtAgrees(45);
    assert SquareBit(45) == 0x200000000000;
  }

  lemma SquareBitIsListedAt46()
    ensures SquareBitListed(46) == SquareBitAt(46)
  {
    SquareBitAtAgrees(46);
    assert SquareBit(46) == 0x400000000000;
  }

  lemma SquareBitIsListedAt47()
    ensures SquareBitListed(47) == SquareBitAt(47)
  {
    SquareBitAtAgrees(47);
    assert SquareBit(47) == 0x800000000000;
  }

  lemma SquareBitIsListedAt48()
    ensures SquareBitListed(48) == SquareBitAt(48)
  {
    SquareBitAtAgrees(48);
    assert SquareBit(48) == 0x1000000000000;
  }

  lemma SquareBitIsListedAt49()
    ensures SquareBitListed(49) == SquareBitAt(49)
  {
    SquareBitAtAgrees(49);
    assert SquareBit(49) == 0x2000000000000;
  }

  lemma SquareBitIsListedAt50()
    ensures SquareBitListed(50) == SquareBitAt(50)
  {
    SquareBitAtAgrees(50);
    assert SquareBit(50) == 0x4000000000000;
  }

  lemma SquareBitIsListedAt51()
    ensures SquareBitListed(51) == SquareBitAt(51)
  {
    SquareBitAtAgrees(51);
    assert SquareBit(51) == 0x8000000000000;
  }

  lemma SquareBitIsListedAt52()
    ensures SquareBitListed(52) == SquareBitAt(52)
  {
    SquareBitAtAgrees(52);
    assert SquareBit(52) == 0x10000000000000;
  }

  lemma SquareBitIsListedAt53()
    ensures SquareBitListed(53) == SquareBitAt(53)
  {
    SquareBitAtAgrees(53);
    assert SquareBit(53) == 0x20000000000000;
  }

  lemma SquareBitIsListedAt54()
    ensures SquareBitListed(54) == SquareBitAt(54)
  {
    SquareBitAtAgrees(54);
    assert SquareBit(54) == 0x40000000000000;
  }

  lemma SquareBitIsListedAt55()
    ensures SquareBitListed(55) == SquareBitAt(55)
  {
    SquareBitAtAgrees(55);
    assert SquareBit(55) == 0x80000000000000;
  }

  lemma SquareBitIsListedAt56()
    ensures SquareBitListed(56) == SquareBitAt(56)
  {
    SquareBitAtAgrees(56);
    assert SquareBit(56) == 0x100000000000000;
  }

  lemma SquareBitIsListedAt57()
    ensures SquareBitListed(57) == SquareBitAt(57)
  {
    SquareBitAtAgrees(57);
    assert SquareBit(57) == 0x200000000000000;
  }

  lemma SquareBitIsListedAt58()
    ensures SquareBitListed(58) == SquareBitAt(58)
  {
    SquareBitAtAgrees(58);
    assert SquareBit(58) == 0x400000000000000;
  }

  lemma SquareBitIsListedAt59()
    ensures SquareBitListed(59) == SquareBitAt(59)
  {
    SquareBitAtAgrees(59);
    assert SquareBit(59) == 0x800000000000000;
  }

  lemma SquareBitIsListedAt60()
    ensures SquareBitListed(60) == SquareBitAt(60)
  {
    SquareBitAtAgrees(60);
    assert SquareBit(60) == 0x1000000000000000;
  }

  lemma SquareBitIsListedAt61()
    ensures SquareBitListed(61) == SquareBitAt(61)
  {
    SquareBitAtAgrees(61);
    assert SquareBit(61) == 0x2000000000000000;
  }

  lemma SquareBitIsListedAt62()
    ensures SquareBitListed(62) == SquareBitAt(62)
  {
    SquareBitAtAgrees(62);
    assert SquareBit(62) == 0x4000000000000000;
  }

  lemma SquareBitIsListedAt63()
    ensures SquareBitListed(63) == SquareBitAt(63)
  {
    SquareBitAtAgrees(63);
    assert SquareBit(63) == 0x8000000000000000;
  }

  /** A queen moves like a bishop or a rook: each `QUEEN_MOVES` entry is the union of the other two. */
  lemma QueenIsBishopOrRook(sq: nat)
    requires sq < 64
    ensures QueenMovesAt(sq) == BishopMovesAt(sq) | RookMovesAt(sq)
  {
    if sq < 8 { QueenIsBishopOrRookOnRank1(sq); }
    else if sq < 16 { QueenIsBishopOrRookOnRank2(sq); }
    else if sq < 24 { QueenIsBishopOrRookOnRank3(sq); }
    else if sq < 32 { QueenIsBishopOrRookOnRank4(sq); }
    else if sq < 40 { QueenIsBishopOrRookOnRank5(sq); }
    else if sq < 48 { QueenIsBishopOrRookOnRank6(sq); }
    else if sq < 56 { QueenIsBishopOrRookOnRank7(sq); }
    else { QueenIsBishopOrRookOnRank8(sq); }
  }

  lemma QueenIsBishopOrRookOnRank1(sq: nat)
    requires 0 <= sq < 8
    ensures QueenMovesAt(sq) == BishopMovesAt(sq) | RookMovesAt(sq)
  {
  }

  lemma QueenIsBishopOrRookOnRank2(sq: nat)
    requires 8 <= sq < 16
    ensures QueenMovesAt(sq) == BishopMovesAt(sq) | RookMovesAt(sq)
  {
  }

  lemma QueenIsBishopOrRookOnRank3(sq: nat)
    requires 16 <= sq < 24
    ensures QueenMovesAt(sq) == BishopMovesAt(sq) | RookMovesAt(sq)
  {
  }

  lemma QueenIsBishopOrRookOnRank4(sq: nat)
    requires 24 <= sq < 32
    ensures QueenMovesAt(sq) == BishopMovesAt(sq) | RookMovesAt(sq)
  {
  }

  lemma QueenIsBishopOrRookOnRank5(sq: nat)
    requires 32 <= sq < 40
    ensures QueenMovesAt(sq) == BishopMovesAt(sq) | RookMovesAt(sq)
  {
  }

  lemma QueenIsBishopOrRookOnRank6(sq: nat)
    requires 40 <= sq < 48
    ensures QueenMovesAt(sq) == BishopMovesAt(sq) | RookMovesAt(sq)
  {
  }

  lemma QueenIsBishopOrRookOnRank7(sq: nat)
    requires 48 <= sq < 56
    ensures QueenMovesAt(sq) == BishopMovesAt(sq) | RookMovesAt(sq)
  {
  }

  lemma QueenIsBishopOrRookOnRank8(sq: nat)
    requires 56 <= sq < 64
    ensures QueenMovesAt(sq) == BishopMovesAt(sq) | RookMovesAt(sq)
  {
  }

  /** The blocker squares that index the bishop's lookup table lie on its empty-board moves. */
  lemma BishopRelevantWithinMoves(sq: nat)
    requires sq < 64
    ensures Within(BishopRelevantAt(sq), BishopMovesAt(sq))
  {
    if sq < 8 { BishopRelevantWithinMovesOnRank1(sq); }
    else if sq < 16 { BishopRelevantWithinMovesOnRank2(sq); }
    else if sq < 24 { BishopRelevantWithinMovesOnRank3(sq); }
    else if sq < 32 { BishopRelevantWithinMovesOnRank4(sq); }
    else if sq < 40 { BishopRelevantWithinMovesOnRank5(sq); }
    else if sq < 48 { BishopRelevantWithinMovesOnRank6(sq); }
    else if sq < 56 { BishopRelevantWithinMovesOnRank7(sq); }
    else { BishopRelevantWithinMovesOnRank8(sq); }
  }

  lemma BishopRelevantWithinMovesOnRank1(sq: nat)
    requires 0 <= sq < 8
    ensures Within(BishopRelevantAt(sq), BishopMovesAt(sq))
  {
  }

  lemma BishopRelevantWithinMovesOnRank2(sq: nat)
    requires 8 <= sq < 16
    ensures Within(BishopRelevantAt(sq), BishopMovesAt(sq))
  {
  }

  lemma BishopRelevantWithinMovesOnRank3(sq: nat)
    requires 16 <= sq < 24
    ensures Within(BishopRelevantAt(sq), BishopMovesAt(sq))
  {
  }

  lemma BishopRelevantWithinMovesOnRank4(sq: nat)
    requires 24 <= sq < 32
    ensures Within(BishopRelevantAt(sq), BishopMovesAt(sq))
  {
  }

  lemma BishopRelevantWithinMovesOnRank5(sq: nat)
    requires 32 <= sq < 40
    ensures Within(BishopRelevantAt(sq), BishopMovesAt(sq))
  {
  }

  lemma BishopRelevantWithinMovesOnRank6(sq: nat)
    requires 40 <= sq < 48
    ensures Within(BishopRelevantAt(sq), BishopMovesAt(sq))
  {
  }

  lemma BishopRelevantWithinMovesOnRank7(sq: nat)
    requires 48 <= sq < 56
    ensures Within(BishopRelevantAt(sq), BishopMovesAt(sq))
  {
  }

  lemma BishopRelevantWithinMovesOnRank8(sq: nat)
    requires 56 <= sq < 64
    ensures Within(BishopRelevantAt(sq), BishopMovesAt(sq))
  {
  }

  /** The blocker squares that index the rook's lookup table lie on its empty-board moves. */
  lemma RookRelevantWithinMoves(sq: nat)
    requires sq < 64
    ensures Within(RookRelevantAt(sq), RookMovesAt(sq))
  {
    if sq < 8 { RookRelevantWithinMovesOnRank1(sq); }
    else if sq < 16 { RookRelevantWithinMovesOnRank2(sq); }
    else if sq < 24 { RookRelevantWithinMovesOnRank3(sq); }
    else if sq < 32 { RookRelevantWithinMovesOnRank4(sq); }
    else if sq < 40 { RookRelevantWithinMovesOnRank5(sq); }
    else if sq < 48 { RookRelevantWithinMovesOnRank6(sq); }
    else if sq < 56 { RookRelevantWithinMovesOnRank7(sq); }
    else { RookRelevantWithinMovesOnRank8(sq); }
  }

  lemma RookRelevantWithinMovesOnRank1(sq: nat)
    requires 0 <= sq < 8
    ensures Within(RookRelevantAt(sq), RookMovesAt(sq))
  {
  }

  lemma RookRelevantWithinMovesOnRank2(sq: nat)
    requires 8 <= sq < 16
    ensures Within(RookRelevantAt(sq), RookMovesAt(sq))
  {
  }

  lemma RookRelevantWithinMovesOnRank3(sq: nat)
    requires 16 <= sq < 24
    ensures Within(RookRelevantAt(sq), RookMovesAt(sq))
  {
  }

  lemma RookRelevantWithinMovesOnRank4(sq: nat)
    requires 24 <= sq < 32
    ensures Within(RookRelevantAt(sq), RookMovesAt(sq))
  {
  }

  lemma RookRelevantWithinMovesOnRank5(sq: nat)
    requires 32 <= sq < 40
    ensures Within(RookRelevantAt(sq), RookMovesAt(sq))
  {
  }

  lemma RookRelevantWithinMovesOnRank6(sq: nat)
    requires 40 <= sq < 48
    ensures Within(RookRelevantAt(sq), RookMovesAt(sq))
  {
  }

  lemma RookRelevantWithinMovesOnRank7(sq: nat)
    requires 48 <= sq < 56
    ensures Within(RookRelevantAt(sq), RookMovesAt(sq))
  {
  }

  lemma RookRelevantWithinMovesOnRank8(sq: nat)
    requires 56 <= sq < 64
    ensures Within(RookRelevantAt(sq), RookMovesAt(sq))
  {
  }

  /** A bishop's blocker squares never lie on the edge of the board: a piece there cannot stop the ray early. */
  lemma BishopRelevantOffEdges(sq: nat)
    requires sq < 64
    ensures BishopRelevantAt(sq) & (A_FILE | H_FILE | FIRST_RANK | EIGHTH_RANK) == 0
  {
    if sq < 8 { BishopRelevantOffEdgesOnRank1(sq); }
    else if sq < 16 { BishopRelevantOffEdgesOnRank2(sq); }
    else if sq < 24 { BishopRelevantOffEdgesOnRank3(sq); }
    else if sq < 32 { BishopRelevantOffEdgesOnRank4(sq); }
    else if sq < 40 { BishopRelevantOffEdgesOnRank5(sq); }
    else if sq < 48 { BishopRelevantOffEdgesOnRank6(sq); }
    else if sq < 56 { BishopRelevantOffEdgesOnRank7(sq); }
    else { BishopRelevantOffEdgesOnRank8(sq); }
  }

  lemma BishopRelevantOffEdgesOnRank1(sq: nat)
    requires 0 <= sq < 8
    ensures BishopRelevantAt(sq) & (A_FILE | H_FILE | FIRST_RANK | EIGHTH_RANK) == 0
  {
  }

  lemma BishopRelevantOffEdgesOnRank2(sq: nat)
    requires 8 <= sq < 16
    ensures BishopRelevantAt(sq) & (A_FILE | H_FILE | FIRST_RANK | EIGHTH_RANK) == 0
  {
  }

  lemma BishopRelevantOffEdgesOnRank3(sq: nat)
    requires 16 <= sq < 24
    ensures BishopRelevantAt(sq) & (A_FILE | H_FILE | FIRST_RANK | EIGHTH_RANK) == 0
  {
  }

  lemma BishopRelevantOffEdgesOnRank4(sq: nat)
    requires 24 <= sq < 32
    ensures BishopRelevantAt(sq) & (A_FILE | H_FILE | FIRST_RANK | EIGHTH_RANK) == 0
  {
  }

  lemma BishopRelevantOffEdgesOnRank5(sq: nat)
    requires 32 <= sq < 40
    ensures BishopRelevantAt(sq) & (A_FILE | H_FILE | FIRST_RANK | EIGHTH_RANK) == 0
  {
  }

  lemma BishopRelevantOffEdgesOnRank6(sq: nat)
    requires 40 <= sq < 48
    ensures BishopRelevantAt(sq) & (A_FILE | H_FILE | FIRST_RANK | EIGHTH_RANK) == 0
  {
  }

  lemma BishopRelevantOffEdgesOnRank7(sq: nat)
    requires 48 <= sq < 56
    ensures BishopRelevantAt(sq) & (A_FILE | H_FILE | FIRST_RANK | EIGHTH_RANK) == 0
  {
  }

  lemma BishopRelevantOffEdgesOnRank8(sq: nat)
    requires 56 <= sq < 64
    ensures BishopRelevantAt(sq) & (A_FILE | H_FILE | FIRST_RANK | EIGHTH_RANK) == 0
  {
  }

  /** No knight table entry holds the square it is indexed by. */
  lemma KnightSkipsListedSquare(sq: nat)
    requires sq < 64
    ensures Disjoint(KnightMovesAt(sq), SquareBitListed(sq))
  {
    if sq < 8 { KnightSkipsListedSquareOnRank1(sq); }
    else if sq < 16 { KnightSkipsListedSquareOnRank2(sq); }
    else if sq < 24 { KnightSkipsListedSquareOnRank3(sq); }
    else if sq < 32 { KnightSkipsListedSquareOnRank4(sq); }
    else if sq < 40 { KnightSkipsListedSquareOnRank5(sq); }
    else if sq < 48 { KnightSkipsListedSquareOnRank6(sq); }
    else if sq < 56 { KnightSkipsListedSquareOnRank7(sq); }
    else { KnightSkipsListedSquareOnRank8(sq); }
  }

  lemma KnightSkipsListedSquareOnRank1(sq: nat)
    requires 0 <= sq < 8
    ensures Disjoint(KnightMovesAt(sq), SquareBitListed(sq))
  {
  }

  lemma KnightSkipsListedSquareOnRank2(sq: nat)
    requires 8 <= sq < 16
    ensures Disjoint(KnightMovesAt(sq), SquareBitListed(sq))
  {
  }

  lemma KnightSkipsListedSquareOnRank3(sq: nat)
    requires 16 <= sq < 24
    ensures Disjoint(KnightMovesAt(sq), SquareBitListed(sq))
  {
  }

  lemma KnightSkipsListedSquareOnRank4(sq: nat)
    requires 24 <= sq < 32
    ensures Disjoint(KnightMovesAt(sq), SquareBitListed(sq))
  {
  }

  lemma KnightSkipsListedSquareOnRank5(sq: nat)
    requires 32 <= sq < 40
    ensures Disjoint(KnightMovesAt(sq), SquareBitListed(sq))
  {
  }

  lemma KnightSkipsListedSquareOnRank6(sq: nat)
    requires 40 <= sq < 48
    ensures Disjoint(KnightMovesAt(sq), SquareBitListed(sq))
  {
  }

  lemma KnightSkipsListedSquareOnRank7(sq: nat)
    requires 48 <= sq < 56
    ensures Disjoint(KnightMovesAt(sq), SquareBitListed(sq))
  {
  }

  lemma KnightSkipsListedSquareOnRank8(sq: nat)
    requires 56 <= sq < 64
    ensures Disjoint(KnightMovesAt(sq), SquareBitListed(sq))
  {
  }

  /** No king table entry holds the square it is indexed by. */
  lemma KingSkipsListedSquare(sq: nat)
    requires sq < 64
    ensures Disjoint(KingMovesAt(sq), SquareBitListed(sq))
  {
    if sq < 8 { KingSkipsListedSquareOnRank1(sq); }
    else if sq < 16 { KingSkipsListedSquareOnRank2(sq); }
    else if sq < 24 { KingSkipsListedSquareOnRank3(sq); }
    else if sq < 32 { KingSkipsListedSquareOnRank4(sq); }
    else if sq < 40 { KingSkipsListedSquareOnRank5(sq); }
    else if sq < 48 { KingSkipsListedSquareOnRank6(sq); }
    else if sq < 56 { KingSkipsListedSquareOnRank7(sq); }
    else { KingSkipsListedSquareOnRank8(sq); }
  }

  lemma KingSkipsListedSquareOnRank1(sq: nat)
    requires 0 <= sq < 8
    ensures Disjoint(KingMovesAt(sq), SquareBitListed(sq))
  {
  }

  lemma KingSkipsListedSquareOnRank2(sq: nat)
    requires 8 <= sq < 16
    ensures Disjoint(KingMovesAt(sq), SquareBitListed(sq))
  {
  }

  lemma KingSkipsListedSquareOnRank3(sq: nat)
    requires 16 <= sq < 24
    ensures Disjoint(KingMovesAt(sq), SquareBitListed(sq))
  {
  }

  lemma KingSkipsListedSquareOnRank4(sq: nat)
    requires 24 <= sq < 32
    ensures Disjoint(KingMovesAt(sq), SquareBitListed(sq))
  {
  }

  lemma KingSkipsListedSquareOnRank5(sq: nat)
    requires 32 <= sq < 40
    ensures Disjoint(KingMovesAt(sq), SquareBitListed(sq))
  {
  }

  lemma KingSkipsListedSquareOnRank6(sq: nat)
    requires 40 <= sq < 48
    ensures Disjoint(KingMovesAt(sq), SquareBitListed(sq))
  {
  }

  lemma KingSkipsListedSquareOnRank7(sq: nat)
    requires 48 <= sq < 56
    ensures Disjoint(KingMovesAt(sq), SquareBitListed(sq))
  {
  }

  lemma KingSkipsListedSquareOnRank8(sq: nat)
    requires 56 <= sq < 64
    ensures Disjoint(KingMovesAt(sq), SquareBitListed(sq))
  {
  }

  /** No bishop table entry holds the square it is indexed by. */
  lemma BishopSkipsListedSquare(sq: nat)
    requires sq < 64
    ensures Disjoint(BishopMovesAt(sq), SquareBitListed(sq))
  {
    if sq < 8 { BishopSkipsListedSquareOnRank1(sq); }
    else if sq < 16 { BishopSkipsListedSquareOnRank2(sq); }
    else if sq < 24 { BishopSkipsListedSquareOnRank3(sq); }
    else if sq < 32 { BishopSkipsListedSquareOnRank4(sq); }
    else if sq < 40 { BishopSkipsListedSquareOnRank5(sq); }
    else if sq < 48 { BishopSkipsListedSquareOnRank6(sq); }
    else if sq < 56 { BishopSkipsListedSquareOnRank7(sq); }
    else { BishopSkipsListedSquareOnRank8(sq); }
  }

  lemma BishopSkipsListedSquareOnRank1(sq: nat)
    requires 0 <= sq < 8
    ensures Disjoint(BishopMovesAt(sq), SquareBitListed(sq))
  {
  }

  lemma BishopSkipsListedSquareOnRank2(sq: nat)
    requires 8 <= sq < 16
    ensures Disjoint(BishopMovesAt(sq), SquareBitListed(sq))
  {
  }

  lemma BishopSkipsListedSquareOnRank3(sq: nat)
    requires 16 <= sq < 24
    ensures Disjoint(BishopMovesAt(sq), SquareBitListed(sq))
  {
  }

  lemma BishopSkipsListedSquareOnRank4(sq: nat)
    requires 24 <= sq < 32
    ensures Disjoint(BishopMovesAt(sq), SquareBitListed(sq))
  {
  }

  lemma BishopSkipsListedSquareOnRank5(sq: nat)
    requires 32 <= sq < 40
    ensures Disjoint(BishopMovesAt(sq), SquareBitListed(sq))
  {
  }

  lemma BishopSkipsListedSquareOnRank6(sq: nat)
    requires 40 <= sq < 48
    ensures Disjoint(BishopMovesAt(sq), SquareBitListed(sq))
  {
  }

  lemma BishopSkipsListedSquareOnRank7(sq: nat)
    requires 48 <= sq < 56
    ensures Disjoint(BishopMovesAt(sq), SquareBitListed(sq))
  {
  }

  lemma BishopSkipsListedSquareOnRank8(sq: nat)
    requires 56 <= sq < 64
    ensures Disjoint(BishopMovesAt(sq), SquareBitListed(sq))
  {
  }

  /** No rook table entry holds the square it is indexed by. */
  lemma RookSkipsListedSquare(sq: nat)
    requires sq < 64
    ensures Disjoint(RookMovesAt(sq), SquareBitListed(sq))
  {
    if sq < 8 { RookSkipsListedSquareOnRank1(sq); }
    else if sq < 16 { RookSkipsListedSquareOnRank2(sq); }
    else if sq < 24 { RookSkipsListedSquareOnRank3(sq); }
    else if sq < 32 { RookSkipsListedSquareOnRank4(sq); }
    else if sq < 40 { RookSkipsListedSquareOnRank5(sq); }
    else if sq < 48 { RookSkipsListedSquareOnRank6(sq); }
    else if sq < 56 { RookSkipsListedSquareOnRank7(sq); }
    else { RookSkipsListedSquareOnRank8(sq); }
  }

  lemma RookSkipsListedSquareOnRank1(sq: nat)
    requires 0 <= sq < 8
    ensures Disjoint(RookMovesAt(sq), SquareBitListed(sq))
  {
  }

  lemma RookSkipsListedSquareOnRank2(sq: nat)
    requires 8 <= sq < 16
    ensures Disjoint(RookMovesAt(sq), SquareBitListed(sq))
  {
  }

  lemma RookSkipsListedSquareOnRank3(sq: nat)
    requires 16 <= sq < 24
    ensures Disjoint(RookMovesAt(sq), SquareBitListed(sq))
  {
  }

  lemma RookSkipsListedSquareOnRank4(sq: nat)
    requires 24 <= sq < 32
    ensures Disjoint(RookMovesAt(sq), SquareBitListed(sq))
  {
  }

  lemma RookSkipsListedSquareOnRank5(sq: nat)
    requires 32 <= sq < 40
    ensures Disjoint(RookMovesAt(sq), SquareBitListed(sq))
  {
  }

  lemma RookSkipsListedSquareOnRank6(sq: nat)
    requires 40 <= sq < 48
    ensures Disjoint(RookMovesAt(sq), SquareBitListed(sq))
  {
  }

  lemma RookSkipsListedSquareOnRank7(sq: nat)
    requires 48 <= sq < 56
    ensures Disjoint(RookMovesAt(sq), SquareBitListed(sq))
  {
  }

  lemma RookSkipsListedSquareOnRank8(sq: nat)
    requires 56 <= sq < 64
    ensures Disjoint(RookMovesAt(sq), SquareBitListed(sq))
  {
  }

  /** No knight, king, bishop or rook table entry holds the square it is indexed by. */
  lemma TablesSkipOwnSquare(sq: nat)
    requires sq < 64
    ensures Disjoint(KnightMovesAt(sq), SquareBitAt(sq))
    ensures Disjoint(KingMovesAt(sq), SquareBitAt(sq))
    ensures Disjoint(BishopMovesAt(sq), SquareBitAt(sq))
    ensures Disjoint(RookMovesAt(sq), SquareBitAt(sq))
  {
    KnightSkipsListedSquare(sq);
    KingSkipsListedSquare(sq);
    BishopSkipsListedSquare(sq);
    RookSkipsListedSquare(sq);
    SquareBitIsListed(sq);
  }

  /** A pawn on its starting rank may push two squares: the table entry holds the square two ranks ahead. */
  lemma DoublePushListed(sq: nat)
    requires sq < 64
    ensures 8 <= sq < 16 ==> Within(SquareBitListed(sq + 16), WhitePawnMovesAt(sq))
    ensures 48 <= sq < 56 ==> Within(SquareBitListed(sq - 16), BlackPawnMovesAt(sq))
  {
    if 8 <= sq < 16 { WhiteDoublePush(sq); } else if 48 <= sq < 56 { BlackDoublePush(sq); }
  }

  lemma WhiteDoublePush(sq: nat)
    requires 8 <= sq < 16
    ensures Within(SquareBitListed(sq + 16), WhitePawnMovesAt(sq))
  {
  }

  lemma BlackDoublePush(sq: nat)
    requires 48 <= sq < 56
    ensures Within(SquareBitListed(sq - 16), BlackPawnMovesAt(sq))
  {
  }

  /** A pawn on its starting rank may push two squares: the table entry holds the square two ranks ahead. */
  lemma PawnTablesHoldDoublePush(sq: nat)
    requires sq < 64
    ensures 8 <= sq < 16 ==> Within(SquareBitAt(sq + 16), WhitePawnMovesAt(sq))
    ensures 48 <= sq < 56 ==> Within(SquareBitAt(sq - 16), BlackPawnMovesAt(sq))
  {
    DoublePushListed(sq);
    if 8 <= sq < 16 { SquareBitIsListed(sq + 16); } else if 48 <= sq < 56 { SquareBitIsListed(sq - 16); }
  }

  /** A pawn on its last rank has no push and no capture in the tables. */
  lemma NoPawnMovesOnLastRank(sq: nat)
    requires sq < 64
    ensures sq >= 56 ==> WhitePawnMovesAt(sq) == 0 && WhitePawnAttacksAt(sq) == 0
    ensures sq < 8 ==> BlackPawnMovesAt(sq) == 0 && BlackPawnAttacksAt(sq) == 0
  {
    if sq >= 56 { WhiteLastRank(sq); } else if sq < 8 { BlackLastRank(sq); }
  }

  lemma WhiteLastRank(sq: nat)
    requires 56 <= sq < 64
    ensures WhitePawnMovesAt(sq) == 0 && WhitePawnAttacksAt(sq) == 0
  {
  }

  lemma BlackLastRank(sq: nat)
    requires sq < 8
    ensures BlackPawnMovesAt(sq) == 0 && BlackPawnAttacksAt(sq) == 0
  {
  }

  /**
   * The empty-board entries of the slider tables agree with the ray
   * generator on the squares worked out in `SliderExamples`.
   */
  lemma SliderEntriesMatchGenerator()
    ensures RookMovesAt(0) == Sliders.RookMoves(0, 0, SquareBitAt(0))
    ensures RookMovesAt(3) == Sliders.RookMoves(0, 0, SquareBitAt(3))
    ensures BishopMovesAt(2) == Sliders.BishopMoves(0, 0, SquareBitAt(2))
    ensures BishopMovesAt(3) == Sliders.BishopMoves(0, 0, SquareBitAt(3))
    ensures QueenMovesAt(3) == Sliders.QueenMoves(0, 0, SquareBitAt(3))
  {
    SliderExamples.RookOnA1();
    SliderExamples.RookOnD1();
    SliderExamples.BishopOnC1();
    SliderExamples.BishopOnD1();
    SliderExamples.QueenOnD1();
    SquareBitAtAgrees(3);
    assert SquareBitAt(0) == 0x1 && SquareBitAt(2) == 0x4 && SquareBitAt(3) == 0x8;
  }

  /** The castling paths are the squares strictly between king and rook (b-d, f-g). */
  lemma CastlingPaths()
    ensures WHITE_QUEEN_SIDE_PATH_TO_ROOK == SquareBitAt(1) | SquareBitAt(2) | SquareBitAt(3)
    ensures WHITE_KING_SIDE_PATH_TO_ROOK == SquareBitAt(5) | SquareBitAt(6)
    ensures BLACK_QUEEN_SIDE_PATH_TO_ROOK == SquareBitAt(57) | SquareBitAt(58) | SquareBitAt(59)
    ensures BLACK_KING_SIDE_PATH_TO_ROOK == SquareBitAt(61) | SquareBitAt(62)
  {
    SquareBitAtAgrees(1); SquareBitAtAgrees(2); SquareBitAtAgrees(3);
    SquareBitAtAgrees(5); SquareBitAtAgrees(6);
    SquareBitAtAgrees(57); SquareBitAtAgrees(58); SquareBitAtAgrees(59);
    SquareBitAtAgrees(61); SquareBitAtAgrees(62);
  }
}
