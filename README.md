# RustMate core in Dafny

RustMate is a chess engine written in Rust (`ai-engine`) with two React clients (`rust-mate-web` and `web-application`). This project models the engine's core and the clients' board state machines in Dafny. It proves properties of the model.

The engine holds two board representations, and the model keeps them apart.

- **The bitboard engine** (`game_bit_board/`). A position is eight 64-bit words: one per colour (White, Black) and one per piece kind (pawns to kings), a square's piece being where its colour word and its kind word meet. Square a1 is bit 0 and h8 is bit 63. The model covers:
  - the bit-twiddling helpers (`Bitwise`, `BitboardSquares`, `Positions`);
  - the packed 16-bit move (`MoveCodec`, `LegacyMove`, `PromotionFlags`);
  - the board's `place_piece`, `remove_piece` and `move_piece` (`BitBoard`);
  - the leaper tables (`Leapers`, `MoveTables`);
  - the sliding-piece ray walks and relevant-square masks (`Sliders`, `RelevantSquares`, `SliderTables`);
  - the magic lookup tables (`Magics`, `MagicShifts`);
  - the check, pin and discovered-check analysis (`AttackData`, `DiscoveredCheck`);
  - the incremental Zobrist hash (`BitZobrist`, `ZobristIndex`).
- **The array engine** (`game/`, `common/`, `ai/`). A position is a 64-entry array of piece codes. Square a8 is index 0 and h1 is index 63. Piece codes are a colour bit (Black 8, White 16) or-ed with a kind (Empty 0 to Rook 6). The model covers:
  - the board state with its setters, castling rights, captures and hash (`MailboxState`, `MailboxBoardState`);
  - FEN loading and printing (`FenLoading`, `BoardFen`, `FenPieces`);
  - making and undoing moves with the history stack (`MailboxGame`, `MailboxBoard`);
  - the Zobrist keys (`MailboxZobrist`);
  - the move-generation helpers (`MoveHelpers`);
  - the AI's move ordering and pawn-structure tests (`MoveOrdering`, `PawnStructure`);
  - the transposition table (`TranspositionTables`);
  - the `PieceMove` record and its JSON decoding (`PieceMoves`).
- **The two web clients** (`Board.tsx`). Each is a state machine:
  - a piece is selected and its moves highlighted, or the highlight is toggled off;
  - a move is posted and the board shown optimistically;
  - the AI is asked and the board is locked until it answers;
  - a FEN is loaded.

  HTTP answers are events given to the model as parameters (`RustMateWebBoard`, `WebApplicationBoard`, `WebCommon`).

Values that the source draws at random are parameters of the model: the Zobrist key tables and the magic numbers. The model's properties hold for every choice of them.

Code that works in place is modelled in imperative Dafny, each part against a specification function whose properties are proved as lemmas:

- the board classes, the Zobrist hasher and the attack data (`class` with `modifies`);
- the loops that fill tables or pop bits (`while` with invariants).

Pure helpers are functions with lemmas.

## Model

| member | source | states |
|---|---|---|
| BitboardSquares.SquaresMembers | ai-engine/src/game_bit_board/utils/bitwise_utils.rs:101-106 | popping the lowest bit until the word is empty visits exactly the squares whose bit is set |
| BitboardSquares.SquaresAscend | ai-engine/src/game_bit_board/utils/bitwise_utils.rs:101-106 | the popped squares come out in strictly ascending order |
| BitboardSquares.PopSplits | ai-engine/src/game_bit_board/utils/bitwise_utils.rs:101-106 | one pop yields the lowest square, and clearing it with `^` leaves the list of the remaining squares |
| BitboardSquares.ClearLowestBit | ai-engine/src/game_bit_board/utils/bitwise_utils.rs:101-106 | `bits &= bits - 1` clears exactly the lowest set bit, the same as XORing that square's bit |
| BitboardText.AlgebraicToSquare | ai-engine/src/game_bit_board/utils/utils.rs:8-12 | text shorter than two characters is the panic; otherwise rank digit times 8 plus the file letter's offset, the name of a real square giving a square below 64 |
| BitboardText.SquareToAlgebraic | ai-engine/src/game_bit_board/utils/utils.rs:14-23 | a two-character name: file letter `'a' + square % 8`, rank digit `'1' + square / 8`, both in range for a board square; the `u8` overflow of the rank digit is excluded by the requires (see Left out) |
| BitboardText.AlgebraicRoundTrip | ai-engine/src/game_bit_board/utils/utils.rs:8-23 | naming any board square and reading the name back gives the square |
| BitboardText.SquareNameRoundTrip | ai-engine/src/game_bit_board/utils/utils.rs:8-23 | reading any well-formed square name and naming the result gives the name back |
| BitboardText.PieceLetter | ai-engine/src/game_bit_board/utils/utils.rs:44-61 | one character: "." exactly for Empty, upper case for White, lower case for Black |
| BitboardText.PieceSymbol | ai-engine/src/game_bit_board/utils/utils.rs:25-42 | one character: "." exactly for Empty, a white figurine for White and a black one for Black |
| BitboardText.PieceFromLetter | ai-engine/src/game_bit_board/utils/utils.rs:63-79 | an Empty answer is always Black; otherwise the colour is White exactly for an upper-case letter |
| BitboardText.PieceLetterRoundTrip | ai-engine/src/game_bit_board/utils/utils.rs:44-79 | decoding the letter of any of the twelve pieces gives the piece back |
| BitboardText.PieceLettersDistinct | ai-engine/src/game_bit_board/utils/utils.rs:44-61 | the twelve pieces have twelve different letters |
| BitboardText.UnknownLetter | ai-engine/src/game_bit_board/utils/utils.rs:63-79 | any character that is not a piece letter decodes to (Black, Empty) |
| BitboardText.IsPawnInInitialPosition | ai-engine/src/game_bit_board/utils/utils.rs:81-84 | true exactly for a single White square on rank 2 or a single Black square on rank 7 |
| BoardIndexes.IsWhitePawnPromotion | ai-engine/src/game_bit_board/board_utils.rs:25-27 | true exactly for White moving from a rank-7 square to a rank-8 square |
| BoardIndexes.IsBlackPawnPromotion | ai-engine/src/game_bit_board/board_utils.rs:29-31 | true exactly for Black moving from a rank-2 square to a rank-1 square |
| BoardIndexes.IsPawnPromotion | ai-engine/src/game_bit_board/board_utils.rs:33-35 | true exactly when either colour's promotion test holds |
| BoardIndexes.ColorIndex | ai-engine/src/game_bit_board/utils/board_utils.rs:25-30 | a colour slot below 2, the White slot exactly for White |
| BoardIndexes.PieceTypeIndex | ai-engine/src/game_bit_board/utils/board_utils.rs:32-42 | a real kind gets a piece slot in 2..=7; Empty, and only Empty, gets `usize::MAX` |
| BoardIndexes.PieceTypeFromIndex | ai-engine/src/game_bit_board/utils/board_utils.rs:44-54 | a real kind exactly for the piece slots 2..=7, Empty for every other index |
| BoardIndexes.PieceTypeRoundTrip | ai-engine/src/game_bit_board/utils/board_utils.rs:32-54 | every real kind comes back from its slot, as the tests at lines 77-104 check kind by kind |
| BoardIndexes.PieceIndexRoundTrip | ai-engine/src/game_bit_board/utils/board_utils.rs:32-54 | every piece slot comes back from its kind |
| BoardIndexes.ColorAndPieceSlotsDisjoint | ai-engine/src/game_bit_board/utils/board_utils.rs:25-42 | no colour slot is a piece slot |
| BoardIndexes.PieceTypeIndexInjective | ai-engine/src/game_bit_board/utils/board_utils.rs:32-42 | different kinds have different slots |
| BoardIndexes.CastlingRightFlag | ai-engine/src/game_bit_board/utils/board_utils.rs:62-70 | the flag is a White flag exactly for White and a king-side flag exactly for the king side |
| BoardIndexes.CastlingRightFlagBijective | ai-engine/src/game_bit_board/utils/board_utils.rs:62-70 | every castling flag belongs to exactly one (colour, side) pair |
| Decimal.ToDecimal | ai-engine/src/game/board_fen_utils.rs:26-37 | `to_string` of a count: all digits, no leading zero, a single digit exactly below 10 |
| Decimal.Parse | ai-engine/src/game/board_state.rs:177-190 | `parse::<usize>`: the digits' value when it fits in 64 bits; empty text, or text with a non-digit and no leading '+', is an error |
| Decimal.DigitsValueOfToDecimal | ai-engine/src/game/board_fen_utils.rs:26-30 | the digits written for a count denote that count |
| Decimal.ParseToDecimal | ai-engine/src/game/board_state.rs:177-190 | parsing the text written for any 64-bit count gives the count back, so the clocks survive a write and a read |
| Bitwise.PopLsb | ai-engine/src/game_bit_board/utils/bitwise_utils.rs:93-106 | `pop_lsb` answers the lowest set square of a non-empty word and leaves the word with exactly that square cleared |
| Bitwise.TableInvertsAll | ai-engine/src/game_bit_board/utils/bitwise_utils.rs:93-106 | the De Bruijn multiply-and-shift of `b ^ (b - 1)` indexes the entry of `DEBRUIJ_T` that holds the lowest square, for each of the 64 squares |
| Bitwise.LowestMask | ai-engine/src/game_bit_board/utils/bitwise_utils.rs:102-106 | `b ^ (b - 1)` is the mask of bits up to the lowest square, and `b & (b - 1)` is `b` with that square cleared |
| Bitwise.LowestUnique | ai-engine/src/game_bit_board/utils/bitwise_utils.rs:102-106 | a word has one lowest square |
| Bitwise.SquareBitMembers | ai-engine/src/game_bit_board/utils/bitwise_utils.rs:23-24 | `1 << square` holds exactly that square |
| Bitwise.StepFileMasks | ai-engine/src/game_bit_board/utils/bitwise_utils.rs:26-61 | the eastward steps never land on the a-file and the westward steps never on the h-file, so no step wraps round the board edge |
| Bitwise.EastStep | ai-engine/src/game_bit_board/utils/bitwise_utils.rs:38-39 | `east_one` of a square is the square to its right, or nothing on the h-file |
| Bitwise.WestStep | ai-engine/src/game_bit_board/utils/bitwise_utils.rs:47-48 | `west_one` of a square is the square to its left, or nothing on the a-file |
| Bitwise.NorthStep | ai-engine/src/game_bit_board/utils/bitwise_utils.rs:59-60 | `north_one` of a square is the square above it, or nothing on rank 8 |
| Bitwise.SouthStep | ai-engine/src/game_bit_board/utils/bitwise_utils.rs:56-57 | `south_one` of a square is the square below it, or nothing on rank 1 |
| Bitwise.NoEaStep | ai-engine/src/game_bit_board/utils/bitwise_utils.rs:41-42 | `no_ea_one` of a square is its up-right neighbour, or nothing on rank 8 or the h-file |
| Bitwise.NoWeStep | ai-engine/src/game_bit_board/utils/bitwise_utils.rs:53-54 | `no_we_one` of a square is its up-left neighbour, or nothing on rank 8 or the a-file |
| Bitwise.SoEaStep | ai-engine/src/game_bit_board/utils/bitwise_utils.rs:44-45 | `so_ea_one` of a square is its down-right neighbour, or nothing on rank 1 or the h-file |
| Bitwise.SoWeStep | ai-engine/src/game_bit_board/utils/bitwise_utils.rs:50-51 | `so_we_one` of a square is its down-left neighbour, or nothing on rank 1 or the a-file |
| Bitwise.StepExamples | ai-engine/src/game_bit_board/utils/bitwise_utils.rs:135-189 | the expectations of the step tests: each step of e2, and the steps that fall off the board |
| Bitwise.DirectionToSquare | ai-engine/src/game_bit_board/utils/bitwise_utils.rs:1-21 | the chosen step moves the rank by the sign of the rank difference and the file by the sign of the file difference; the identity is chosen exactly for the same square |
| Bitwise.DirectionStayIffSame | ai-engine/src/game_bit_board/utils/bitwise_utils.rs:1-21 | for board squares the identity step is chosen exactly when the two squares are equal |
| Bitwise.UpperBitsMembers | ai-engine/src/game_bit_board/utils/bitwise_utils.rs:62-63 | `!1 << square` holds exactly the squares above `square` |
| Bitwise.LowerBitsMembers | ai-engine/src/game_bit_board/utils/bitwise_utils.rs:65-66 | `(1 << square) - 1` holds exactly the squares below `square`, and one more is the square's own bit |
| Bitwise.UpperLowerPartition | ai-engine/src/game_bit_board/utils/bitwise_utils.rs:62-66 | the squares above, the squares below and the square itself are disjoint and cover the board |
| Bitwise.UpperLowerExamples | ai-engine/src/game_bit_board/utils/bitwise_utils.rs:191-199 | the expectations of `test_upper_bits` and `test_lower_bits` for square 15 |
| LegacyBitwise.ToBitboardPosition | ai-engine/src/game_bit_board/bitwise_utils.rs:1 | `1 << position` is the square's bit |
| LegacyBitwise.ToDecimalPosition | ai-engine/src/game_bit_board/bitwise_utils.rs:3 | `1 >> position` is 1 for position 0 and 0 for every other square: it does not decode a position |
| LegacyBitwise.StepsAgree | ai-engine/src/game_bit_board/bitwise_utils.rs:5-22 | the eight older one-step shifts keep off the wrapped file and equal the newer ones step for step |
| LegacyBitwise.UpperBitsClearBelow | ai-engine/src/game_bit_board/bitwise_utils.rs:24 | `(!b) << square` has no square below `square` |
| LegacyBitwise.UpperBitsOfEmpty | ai-engine/src/game_bit_board/bitwise_utils.rs:24 | on the empty board the older `upper_bits` is the newer one plus the square itself |
| LegacyBitwise.LowerBits | ai-engine/src/game_bit_board/bitwise_utils.rs:26 | the older `lower_bits` ignores its board argument and equals the newer one |
| LegacyBitwise.PawnPushExample | ai-engine/src/game_bit_board/bitwise_utils.rs:39-60 | the expectations of `test_nort_one`: one step from h2, and the single and double pushes of the White pawns |
| Positions.SquareAt | ai-engine/src/game_bit_board/positions.rs:7-77 | the `Squares` constant for a file and rank is below 64, its file is the square modulo 8 and its rank the square divided by 8 |
| Positions.SquareName | ai-engine/src/game_bit_board/positions.rs:88-156 | a board square's name is two characters, upper-case file letter `'A' + square % 8` and rank digit `'1' + square / 8`; the name is empty exactly off the board |
| Positions.SquareNameInjective | ai-engine/src/game_bit_board/positions.rs:88-156 | two board squares with the same name are the same square |
| Positions.SquareNameExamples | ai-engine/src/game_bit_board/positions.rs:88-156 | a1, e4 and h8 are named "A1", "E4" and "H8"; square 64 gets "" |
| Positions.RowSquareIndexes | ai-engine/src/game_bit_board/positions.rs:79-86 | `Squares::ROW_k` lists the eight squares of rank k from file a to file h |
| Positions.InRowSquares | ai-engine/src/game_bit_board/positions.rs:235-242 | a bitboard is one of `BBPositions::ROW_k` exactly when it holds a single square and that square is on rank k |
| Positions.RowSquaresShape | ai-engine/src/game_bit_board/positions.rs:235-242 | each entry of `BBPositions::ROW_k` is a single square of rank k, each next entry is the previous shifted left by one, and together they make the rank mask `ROW_k_BB` |
| Positions.GetRowBbIsHighestRank | ai-engine/src/game_bit_board/positions.rs:244-263 | a non-zero answer of `get_row_bb` is one of the eight rank masks, meets the bitboard, and no square of the bitboard lies above that rank |
| Positions.GetRowBbZero | ai-engine/src/game_bit_board/positions.rs:253-263 | `get_row_bb` answers 0 exactly for the empty bitboard |
| Positions.IsEnPassantPosition | ai-engine/src/game_bit_board/positions.rs:265-271 | for White the answer is yes exactly when the bitboard is a single square of rank 3, for Black of rank 6 |
| Positions.LineRelations | ai-engine/src/game_bit_board/positions.rs:274-288 | two board squares share rank and file only when equal; on a shared diagonal they are a whole number of 9-steps apart, on an anti-diagonal of 7-steps |
| Positions.LineRelationsEquivalences | ai-engine/src/game_bit_board/positions.rs:274-288 | each of the four relations is reflexive, symmetric and transitive |
| Positions.LineRelationExamples | ai-engine/src/game_bit_board/positions.rs:291-323 | the outcomes the module's tests assert for `same_rank`, `same_file`, `same_diagonal` and `same_anti_diagonal` |
| BitBoard.LandingType | ai-engine/src/game_bit_board/board.rs:63-71 | the piece lands as itself, except a pawn reaching the last rank, which lands as a queen |
| BitBoard.KindAtIsFirst | ai-engine/src/game_bit_board/board.rs:82-91 | the kind found at a position is the first piece-kind slot (pawns, knights, bishops, rooks, queens, kings) that meets it; none exactly when no kind slot meets it |
| BitBoard.InitialColorsDisjoint | ai-engine/src/game_bit_board/board.rs:28-48 | in the starting position no square is both black and white |
| BitBoard.InitialKindsDisjoint | ai-engine/src/game_bit_board/board.rs:28-48 | in the starting position no square holds two kinds of piece |
| BitBoard.InitialKindsCoverColors | ai-engine/src/game_bit_board/board.rs:28-48 | in the starting position the squares holding some kind are exactly the squares holding some colour |
| BitBoard.PlacedSlots | ai-engine/src/game_bit_board/board.rs:50-54 | placing adds the position to its colour's slot and its kind's slot and changes no other slot |
| BitBoard.RemovedClears | ai-engine/src/game_bit_board/board.rs:56-61 | removing a present piece takes the position out of its colour's and kind's slot and changes no other slot |
| BitBoard.RemoveUndoesPlace | ai-engine/src/game_bit_board/board.rs:50-61 | removing what was just placed on free squares restores every slot |
| BitBoard.PlaceUndoesRemove | ai-engine/src/game_bit_board/board.rs:50-61 | placing back what was just removed restores every slot |
| BitBoard.MovedSlots | ai-engine/src/game_bit_board/board.rs:63-71 | a move takes the piece off `from` in its colour and kind, puts the colour on `to` and the landing kind on `to`, and changes no slot of another colour or kind |
| BitBoard.PromotionLandsQueen | ai-engine/src/game_bit_board/board.rs:63-71 | a pawn reaching the last rank leaves the pawn slot on neither square and the queen slot holds the target |
| BitBoard.PlacedIsFound | ai-engine/src/game_bit_board/board.rs:50-91 | after placing a piece on an empty position, the type lookup finds that kind there and the colour lookup that colour |
| BitBoard.Board.New | ai-engine/src/game_bit_board/board.rs:16-20 | `Board::new` holds the starting position |
| BitBoard.Board.Cleared | ai-engine/src/game_bit_board/board.rs:22-26 | `Board::empty` holds no pieces |
| BitBoard.Board.Reset | ai-engine/src/game_bit_board/board.rs:28-48 | whatever was there, the board afterwards holds the starting position |
| BitBoard.Board.PlacePiece | ai-engine/src/game_bit_board/board.rs:50-54 | the new slots are `Placed` of the old ones (see PlacedSlots) |
| BitBoard.Board.RemovePiece | ai-engine/src/game_bit_board/board.rs:56-61 | the new slots are `Removed` of the old ones (see RemovedClears) |
| BitBoard.Board.MovePiece | ai-engine/src/game_bit_board/board.rs:63-71 | the new slots are `Moved` of the old ones (see MovedSlots, PromotionLandsQueen) |
| BitBoard.Board.GetPieceColorFromPosition | ai-engine/src/game_bit_board/board.rs:73-80 | White exactly when the white slot meets the position, Black otherwise |
| BitBoard.Board.GetPieceTypeFromPosition | ai-engine/src/game_bit_board/board.rs:82-91 | the answer is the first kind slot meeting the position (see KindAtIsFirst); none where the source panics |
| BoardFen.Flush | ai-engine/src/game/board_fen_utils.rs:35-40 | afterwards no empty run is pending; a pending run is appended as its decimal count, otherwise the text is unchanged |
| BoardFen.GetPiecesFen | ai-engine/src/game/board_fen_utils.rs:42-65 | the loop over the 64 squares yields the piece field of `PiecesFen`, with the trailing empty run of the last rank flushed (see Findings) |
| BoardFen.AsWrittenDropsLastRun | ai-engine/src/game/board_fen_utils.rs:42-65 | a run is still pending after the last square exactly when h1's square is empty, and the corrected field is the as-written field plus that run's count |
| BoardFen.PiecesFenAsWritten | ai-engine/src/game/board_fen_utils.rs:42-65 | the piece field as written, the last pending run never flushed; `AsWrittenDropsLastRun` and `TrailingRunLost` show what it loses (see Findings) |
| BoardFen.TrailingRunLost | ai-engine/src/game/board_fen_utils.rs:42-65 | for a lone black king on a8 the as-written field is "k7/8/8/8/8/8/8/" and the corrected one "k7/8/8/8/8/8/8/8" |
| BoardFen.PiecesFenIsJoin | ai-engine/src/game/board_fen_utils.rs:42-65 | the piece field is the eight rank texts joined by '/' |
| BoardFen.RankFenReadsBack | ai-engine/src/game/board_fen_utils.rs:35-65 | expanding a rank's text (digits as runs of empty squares, letters as pieces) gives the rank's cells back |
| BoardFen.RankFenCounts | ai-engine/src/game/board_fen_utils.rs:35-65 | a rank text has no two digits in a row and only FEN piece letters and digits |
| BoardFen.PiecesFenRanks | ai-engine/src/game/board_fen_utils.rs:42-65 | splitting the piece field at '/' gives the eight rank texts, and the field contains no whitespace |
| BoardFen.PiecesFenReadsBack | ai-engine/src/game/board_fen_utils.rs:42-65 | loading the piece field onto an empty board puts every square back as it was |
| BoardFen.ColorFen | ai-engine/src/game/board_fen_utils.rs:67-73 | "w" or "b", and loading it back gives the same side to move |
| BoardFen.CastleFenLetters | ai-engine/src/game/board_fen_utils.rs:75-99 | "-" exactly when no castling right is held; otherwise letters in KQkq order, each present exactly when its right is held |
| BoardFen.GetCastleFen | ai-engine/src/game/board_fen_utils.rs:75-99 | the method builds the castling field `CastleFen` (see CastleFenLetters) |
| BoardFen.CastleFenReadsBack | ai-engine/src/game/board_fen_utils.rs:75-99 | loading the castling field gives back all four rights, and the king-moved flags are set exactly when the field is "-" |
| BoardFen.EnPassantFen | ai-engine/src/game/board_fen_utils.rs:101-112 | "-" exactly when neither colour has an en passant square; otherwise the black square's name if there is one, else the white square's |
| BoardFen.EnPassantFenReadsBack | ai-engine/src/game/board_fen_utils.rs:101-112 | for en passant squares the engine records, loading the field back gives the same black and white en passant squares |
| BoardFen.GetPositionFen | ai-engine/src/game/board_fen_utils.rs:7-33 | the method builds `PositionFen`: the six fields joined by spaces, with the corrected piece field whose last empty run is flushed (see Findings; as written the run after h1 is dropped) |
| BoardFen.PositionFenFields | ai-engine/src/game/board_fen_utils.rs:7-33 | splitting the position FEN at whitespace gives exactly its six fields |
| BoardFen.PositionFenReadsBack | ai-engine/src/game/board_fen_utils.rs:7-112 | for any state whose squares hold piece codes, whose en passant squares are ones the engine records and whose clocks fit a usize, the corrected writer (last empty run flushed) and the corrected en passant reader (White's row 6) together restore, on loading the FEN into a new board, squares, side to move, castling rights, en passant squares and both clocks (see Findings; as written the trip fails for every White en passant square, `EnPassantAsWrittenMisplaces`, and whenever h1 is empty, `TrailingRunLost`) |
| BoardFen.LoadOntoEmpty | ai-engine/src/game/board_state.rs:156-175 | loading a state's FEN, written with the corrected piece field, onto any empty board with the corrected en passant reader restores the recorded fields (see Findings) |
| FenLoading.Skips | ai-engine/src/game/board_state.rs:259-275 | a digit n of a piece row stands for n cells that leave the board as it is |
| FenLoading.PlaceRowOverlay | ai-engine/src/game/board_state.rs:259-275 | placing one row of the piece field ends at the start square plus the row's expanded width and writes exactly the row's expanded cells over the board from the start square |
| FenLoading.PlaceRowFrame | ai-engine/src/game/board_state.rs:259-275 | placing a row changes nothing but the squares and the two king positions |
| FenLoading.PlaceRowKings | ai-engine/src/game/board_state.rs:98-106 | after a row is placed, each king position is the old one or a square at or after the row start that holds that king |
| FenLoading.PlaceLetterIsPlacePiece | ai-engine/src/game/board_state.rs:259-275 | a piece letter is placed with `place_piece` of its FEN piece value |
| FenLoading.PlaceRowsOverlay | ai-engine/src/game/board_state.rs:249-257 | the rows of the piece field, placed one after another, write their concatenated cells from the first square and change nothing else but the king positions |
| FenLoading.OverlayConcat | ai-engine/src/game/board_state.rs:249-275 | writing two runs of cells one after the other equals writing their concatenation |
| FenLoading.LoadActiveColor | ai-engine/src/game/board_state.rs:241-247 | White moves exactly when the field is not "b", and nothing else changes |
| FenLoading.LoadCastling | ai-engine/src/game/board_state.rs:222-239 | "-" clears all four rights and marks both kings as moved; otherwise each right is held exactly when its letter occurs and both kings are marked as not moved; nothing else changes |
| FenLoading.LoadPieces | ai-engine/src/game/board_state.rs:249-275 | the rows split at '/' placed from square 0 (a8), digits skipping squares; the result has 64 squares, and `PiecesFenReadsBack` proves the written field loads back square for square |
| FenLoading.EnPassantExactlyOne | ai-engine/src/game/board_state.rs:193-220 | "-" exactly clears both en passant squares; anything else sets at most one of them, and nothing but they changes |
| FenLoading.LoadEnPassantAsWritten | ai-engine/src/game/board_state.rs:193-220 | the loader as written, White's square computed with row 4; `EnPassantAsWrittenMisplaces` shows "e3" landing on e5 (see Findings) |
| FenLoading.SquareNeverInvalid | ai-engine/src/game/board_state.rs:193-220 | a named square, after the `u8` arithmetic and the cast to `i8`, is never the invalid position -1 |
| FenLoading.AsI8 | ai-engine/src/game/board_state.rs:203-213 | the `as i8` cast: a value of the signed byte range equal to the byte or the byte minus 256 |
| FenLoading.EnPassantAsWrittenMisplaces | ai-engine/src/game/board_state.rs:193-220 | as written, "e3" is loaded as White's square 28, which `get_position_notation` names "e5"; the square named "e3" is 44 |
| FenLoading.LoadEnPassant | ai-engine/src/game/board_state.rs:193-220 | the loader with White's row corrected to 6 (see Findings); `LoadEnPassantReadsNotation` proves every rank-3 and rank-6 name read back as its square |
| FenLoading.LoadEnPassantReadsNotation | ai-engine/src/game/board_state.rs:193-220 | the corrected loader reads the name of any rank-3 square back as White's en passant square and of any rank-6 square as Black's, clearing the other |
| FenLoading.ClockValue | ai-engine/src/game/board_state.rs:177-191 | a clock field that reads as a decimal `usize` gives its value, anything else 0 |
| FenLoading.LoadPosition | ai-engine/src/game/board_state.rs:156-175 | the loaded state's hash is the Zobrist hash of its position computed afresh; the en passant field is read by the corrected `LoadEnPassant` (White's row 6, see Findings); with PositionFenReadsBack, loading a record written by the corrected writer restores the recorded fields |
| FenPieces.ToLower | ai-engine/src/common/fen_utils.rs:13-31 | the result is never an upper-case letter |
| FenPieces.GetFenPieceValue | ai-engine/src/common/fen_utils.rs:13-31 | every character gives a black or white code whose kind part is a piece kind (Empty for an unknown letter) |
| FenPieces.LetterRoundTrip | ai-engine/src/common/fen_utils.rs:13-49 | the letter of the value of any of the twelve piece letters is that letter, and the value is white exactly for an upper-case letter |
| FenPieces.CodeRoundTrip | ai-engine/src/common/fen_utils.rs:13-49 | the value of the letter of any white or black piece code is that code |
| FenPieces.UnknownLetter | ai-engine/src/common/fen_utils.rs:13-31 | a character that is not a piece letter gives the bare colour code (white for upper case), which is not the empty square and is written back as '-' |
| FenPieces.PieceFenOnlyPieces | ai-engine/src/common/fen_utils.rs:33-49 | the letter is '-' exactly for a code of kind Empty; every other code gets a piece letter |
| FenPieces.TranslatePiecesToFen | ai-engine/src/common/fen_utils.rs:6-11 | one letter per piece, in order, each the piece's FEN letter |
| KingZoneFacts.KingPawnZoneRows | ai-engine/src/game_bit_board/move_generator/utils.rs:166-292 | each of the five shift groups of the zone is the king's file spread (two files each side, no wrap) moved zero, one or two ranks up or down |
| KingZone.KingPawnZone | ai-engine/src/game_bit_board/move_generator/utils.rs:166-292 | the zone is the union of the five shift groups the source ORs together; `KingPawnZoneRows` says what each group is and `KingPawnZoneAvoidsKing` that none holds the king's square |
| KingZoneFacts.KingPawnZoneAvoidsKing | ai-engine/src/game_bit_board/move_generator/utils.rs:166-292 | for a single square, no group of the zone contains the king's own square |
| KingZoneFacts.KingPawnZoneExamples | ai-engine/src/game_bit_board/move_generator/utils.rs:166-292 | the zones of e4 and a1 are the given masks |
| Leapers.KingMoves | ai-engine/src/game_bit_board/move_generator/raw_move_generator.rs:267-277 | the king's moves never include a friendly square |
| Leapers.KingNeverStays | ai-engine/src/game_bit_board/move_generator/raw_move_generator.rs:267-277 | from a single square the king never stays where it is |
| Leapers.KingStaysNearFile | ai-engine/src/game_bit_board/move_generator/raw_move_generator.rs:267-277 | a king on file a never reaches file h, and one on file h never reaches file a: the steps do not wrap round the board |
| Leapers.GetKnightMoves | ai-engine/src/game_bit_board/move_generator/raw_move_generator.rs:317-335 | the four jumps of one half (north or south) ORed into the moves already there |
| Leapers.KnightMovesKeep | ai-engine/src/game_bit_board/move_generator/raw_move_generator.rs:317-335 | `get_knight_moves` only adds squares: every square already in the moves stays |
| Leapers.NorthWestJump | ai-engine/src/game_bit_board/move_generator/raw_move_generator.rs:317-335 | the jump built from one-step shifts equals the textbook shift by 6 masked with the files that cannot wrap |
| Leapers.NorthEastJump | ai-engine/src/game_bit_board/move_generator/raw_move_generator.rs:317-335 | the same identity for the shift by 10 |
| Leapers.NorthNorthWestJump | ai-engine/src/game_bit_board/move_generator/raw_move_generator.rs:317-335 | the same identity for the shift by 15 |
| Leapers.NorthNorthEastJump | ai-engine/src/game_bit_board/move_generator/raw_move_generator.rs:317-335 | the same identity for the shift by 17 |
| Leapers.SouthWestJump | ai-engine/src/game_bit_board/move_generator/raw_move_generator.rs:317-335 | the same identity for the right shift by 10 |
| Leapers.SouthEastJump | ai-engine/src/game_bit_board/move_generator/raw_move_generator.rs:317-335 | the same identity for the right shift by 6 |
| Leapers.SouthSouthWestJump | ai-engine/src/game_bit_board/move_generator/raw_move_generator.rs:317-335 | the same identity for the right shift by 17 |
| Leapers.SouthSouthEastJump | ai-engine/src/game_bit_board/move_generator/raw_move_generator.rs:317-335 | the same identity for the right shift by 15 |
| Leapers.KnightStaysNearFile | ai-engine/src/game_bit_board/move_generator/raw_move_generator.rs:294-335 | a knight on files a-b never lands on files g-h, and the other way round |
| Leapers.PreComputeKingMoves | ai-engine/src/game_bit_board/move_generator/raw_move_generator.rs:281-290 | afterwards entry sq of the table is the king's moves from square sq, for all 64 squares |
| Leapers.PreComputeKnightMoves | ai-engine/src/game_bit_board/move_generator/raw_move_generator.rs:294-313 | afterwards entry sq is what it held ORed with both halves of the knight's jumps from square sq |
| Leapers.PreComputePawnAttacks | ai-engine/src/game_bit_board/move_generator/raw_move_generator.rs:339-347 | afterwards entry sq holds the two diagonal steps from square sq |
| Leapers.PawnMovesAt | ai-engine/src/game_bit_board/move_generator/raw_move_generator.rs:351-363 | one loop body of `pre_compute_pawn_moves`: entry square gets the pushes and no other entry changes |
| Leapers.PreComputePawnMoves | ai-engine/src/game_bit_board/move_generator/raw_move_generator.rs:351-363 | afterwards entry sq holds the pawn pushes from square sq |
| Leapers.PawnPushSquares | ai-engine/src/game_bit_board/move_generator/raw_move_generator.rs:351-363 | a pawn pushes one square forward, two from its starting rank, and not at all from the last rank, for either colour |
| LegacyMove.WithFlags | ai-engine/src/game_bit_board/_move.rs:104-110 | the packed move reads back its from square, to square and flags (each masked to its field width) and has no en passant data |
| LegacyMove.FromTo | ai-engine/src/game_bit_board/_move.rs:93-93 | a plain move: flags normal, from and to masked to six bits |
| LegacyMove.WithFlagsRoundTrip | ai-engine/src/game_bit_board/_move.rs:104-118 | for in-range fields, `get_flags`, `get_from` and `get_to` give back what `with_flags` packed |
| LegacyMove.WithFlagsExamples | ai-engine/src/game_bit_board/_move.rs:166-185 | `from_to(12, 28)` reads back 12, 28 and no flags, and is a normal move; `with_flags(KING_CASTLE, 4, 6)` reads back 4, 6 and `KING_CASTLE` |
| LegacyMove.AsU64 | ai-engine/src/game_bit_board/_move.rs:112-112 | the 16-bit word widened without change |
| LegacyMove.GetFlags | ai-engine/src/game_bit_board/_move.rs:114-114 | the top four bits of the word |
| LegacyMove.Kind | ai-engine/src/game_bit_board/_move.rs:120-146 | the move's kind is unknown exactly for the unused flag values 6 and 7 |
| LegacyMove.Eq | ai-engine/src/game_bit_board/_move.rs:39-44 | equal exactly when word and both en passant fields are equal |
| LegacyMove.Ne | ai-engine/src/game_bit_board/_move.rs:46-50 | `ne` is the negation of `eq` |
| LegacyMove.SetEnPassantBbPosition | ai-engine/src/game_bit_board/_move.rs:148-150 | only the en passant position changes |
| LegacyMove.SetEnPassantBbPieceSquare | ai-engine/src/game_bit_board/_move.rs:154-156 | only the en passant piece square changes |
| LegacyMove.FlagName | ai-engine/src/game_bit_board/_move.rs:53-83 | the flag's name in `fmt` is "UNKNOWN FLAG" exactly for the unused flag values |
| LegacyMove.FlagNamesDistinct | ai-engine/src/game_bit_board/_move.rs:53-83 | different flag kinds get different names |
| LegacyMove.Display | ai-engine/src/game_bit_board/_move.rs:53-83 | the text starts with the from/to/flag head and ends with the en passant piece square in decimal |
| MagicShifts.RookShiftsMatchRelevant | ai-engine/src/game_bit_board/move_generator/magics.rs:73-77 | for every one of the 64 squares the shipped rook shift is 64 less the number of the square's relevant rook squares |
| MagicShifts.BishopShiftsMatchRelevant | ai-engine/src/game_bit_board/move_generator/magics.rs:145-149 | for every one of the 64 squares the shipped bishop shift is 64 less the number of the square's relevant bishop squares |
| Magics.PopCountCountsSquares | ai-engine/src/game_bit_board/move_generator/magics.rs:166-218 | the bit count the shifts are compared with is the number of squares set in the word |
| Magics.PlaceDoneIff | ai-engine/src/game_bit_board/move_generator/magics.rs:220-256 | the key loop of the fill gets through exactly when every key's slot is inside the vector, still empty, and no two keys share a slot |
| Magics.PlaceStores | ai-engine/src/game_bit_board/move_generator/magics.rs:220-256 | after a fill that gets through, each key's attack set sits in the key's slot and the vector keeps its length |
| Magics.FillSquareDoneIff | ai-engine/src/game_bit_board/move_generator/magics.rs:220-256 | one square's fill gets through exactly when the magic sends its keys to distinct slots inside a vector of their number |
| Magics.FillSquareStores | ai-engine/src/game_bit_board/move_generator/magics.rs:220-256 | after one square's fill, each key's attack set is in the key's slot and every other slot is zero |
| Magics.FillSquare | ai-engine/src/game_bit_board/move_generator/magics.rs:226-254 | the loop over one square's keys ends exactly as the key-by-key specification does: the filled vector, or the panic on a conflict or an index past the end |
| Magics.FillMagicsLookupTable | ai-engine/src/game_bit_board/move_generator/magics.rs:220-256 | without a panic every square's vector is its fill; a reported panic names a square whose fill does not get through |
| Magics.TryCandidate | ai-engine/src/game_bit_board/move_generator/magics.rs:166-218 | the loop trying one candidate magic ends as the specification does: accepted with its slots, rejected on a collision, or out of range |
| Magics.TryKeeps | ai-engine/src/game_bit_board/move_generator/magics.rs:152-154 | an accepted candidate never overwrites a slot that already held an attack set |
| Magics.TryStores | ai-engine/src/game_bit_board/move_generator/magics.rs:152-218 | `is_collision` makes the search sound: an accepted candidate finds every key's attack set in its slot |
| Magics.PlaceThenTry | ai-engine/src/game_bit_board/move_generator/magics.rs:152-256 | a magic the fill accepts is also accepted by the search, with the same slots |
| Magics.SharedSlotExample | ai-engine/src/game_bit_board/move_generator/magics.rs:152-256 | the converse fails: two keys with the same attack set may share a slot in the search, and the fill then panics on that slot |
| MailboxSquares.GetPositionLineNumber | ai-engine/src/common/board_utils.rs:4-6 | on the board the line is 8 less the row, between 1 and 8 (square 0 is a8) |
| MailboxSquares.GetPositionColumnNumber | ai-engine/src/common/board_utils.rs:9-11 | on the board the column is the square modulo 8; a negative position gives a column below 8 only when Rust's truncating remainder is 0, otherwise the `usize` cast wraps it far out of range |
| MailboxSquares.LineAndColumnBijective | ai-engine/src/common/board_utils.rs:4-11 | line and column together determine the square; a8 is line 8 column 0 and h1 line 1 column 7 |
| MailboxSquares.GetPositionNotation | ai-engine/src/common/board_utils.rs:13-20 | a board square is named by the file letter `'a' + column` and the line digit |
| MailboxSquares.NotationInjective | ai-engine/src/common/board_utils.rs:13-20 | every board square gets a two-character name, and distinct squares get distinct names |
| MailboxSquares.NotationExamples | ai-engine/src/common/board_utils.rs:13-20 | square 0 is "a8", 63 is "h1" and 36 is "e4" |
| MailboxSquares.GetMoveNotation | ai-engine/src/common/board_utils.rs:22-29 | four characters: the from square's name followed by the to square's |
| MailboxState.New | ai-engine/src/game/board_state.rs:37-70 | an empty board, White to move, all four castling rights, no en passant square, kings recorded on e8 and e1, and a hash that agrees with the position |
| MailboxState.GetPiece | ai-engine/src/game/board_state.rs:90-96 | a position off the board reads as the empty square |
| MailboxState.PlacePieceWrites | ai-engine/src/game/board_state.rs:98-106 | the square holds the code, every other square is unchanged, a king's code moves that king's recorded square, and nothing else changes |
| MailboxState.MovePiece | ai-engine/src/game/board_state.rs:108-150 | the state after `move_piece`, 64 squares kept; `MoveSquares`, `MoveClocks`, `MoveCaptures` and `MoveKeepsHash` prove the squares, clocks, capture lists and hash |
| MailboxState.MoveSquares | ai-engine/src/game/board_state.rs:108-150 | the moved code stands on the target, the origin is emptied, all other squares are unchanged, and a king's code moves its recorded square |
| MailboxState.MoveClocks | ai-engine/src/game/board_state.rs:108-150 | the turn passes and the full-move number grows after Black's move, except on the castling rook's step; the half-move clock restarts on a capture or pawn move, otherwise counts one more, and the rook's step leaves it |
| MailboxState.MoveCaptures | ai-engine/src/game/board_state.rs:108-150 | a captured White code is appended to Black's list, any other real piece to White's; an empty target appends nothing |
| MailboxState.MoveKeepsHash | ai-engine/src/game/board_state.rs:108-150 | for an ordinary move of the code on the origin, the incrementally updated hash is the hash of the new position |
| MailboxState.SetBlackEnPassant | ai-engine/src/game/board_state.rs:381-387 | only Black's en passant square (and the hash) change, to the given value |
| MailboxState.SetWhiteEnPassant | ai-engine/src/game/board_state.rs:389-395 | only White's en passant square (and the hash) change, to the given value |
| MailboxState.EnPassantSettersUndo | ai-engine/src/game/board_state.rs:381-395 | setting the old value back restores the whole state, hash included |
| MailboxState.BlackEnPassantKeepsHash | ai-engine/src/game/board_state.rs:381-387 | setting or clearing Black's en passant square keeps the hash in agreement with the position |
| MailboxState.WhiteEnPassantKeepsHash | ai-engine/src/game/board_state.rs:389-395 | setting or clearing White's en passant square keeps the hash in agreement with the position |
| MailboxState.UpdateCastlingAbility | ai-engine/src/game/board_state.rs:421-457 | the squares never change |
| MailboxState.CastlingAbilityScope | ai-engine/src/game/board_state.rs:421-457 | only the four rook corners a8, h8, a1 and h1, each with its own colour and side, change anything; the named right is then cleared and nothing but it and the hash changes |
| MailboxState.CastlingAbilityIdempotent | ai-engine/src/game/board_state.rs:421-457 | updating twice with the same arguments is the same as updating once |
| MailboxState.CastlingAbilityKeepsHash | ai-engine/src/game/board_state.rs:421-457 | the hash still agrees with the position after a right is lost |
| MailboxBoardState.BoardState.constructor | ai-engine/src/game/board_state.rs:37-70 | the new object's snapshot is `MailboxState.New`: empty board, White to move, all rights, hash agreeing |
| MailboxBoardState.BoardState.Of | ai-engine/src/game/board_state.rs:36-70 | an object whose snapshot is the given state (what `clone` copies) |
| MailboxBoardState.BoardState.GetPiece | ai-engine/src/game/board_state.rs:90-96 | the code the snapshot function `MailboxState.GetPiece` reads: off the board, the empty square |
| MailboxBoardState.BoardState.PlacePiece | ai-engine/src/game/board_state.rs:98-106 | the object afterwards is `MailboxState.PlacePiece` of its old snapshot (see PlacePieceWrites) |
| MailboxBoardState.BoardState.MovePiece | ai-engine/src/game/board_state.rs:108-150 | the object afterwards is `MailboxState.MovePiece` of its old snapshot (see MoveSquares, MoveClocks, MoveCaptures, MoveKeepsHash) |
| MailboxBoardState.BoardState.Relocate | ai-engine/src/game/board_state.rs:108-150 | the two square writes of `move_piece`: the piece placed on the target, then the origin emptied |
| MailboxBoardState.BoardState.AdvanceTurn | ai-engine/src/game/board_state.rs:108-150 | the turn, full-move and half-move updates of `move_piece`, skipped for the castling rook's step |
| MailboxBoardState.BoardState.PassTurn | ai-engine/src/game/board_state.rs:108-150 | the side changes, Black's move counts a full move, and a pawn move restarts the half-move clock |
| MailboxBoardState.BoardState.RecordCapture | ai-engine/src/game/board_state.rs:108-150 | a real piece on the target restarts the half-move clock and goes to the capturer's list |
| MailboxBoardState.BoardState.UpdateHashOnMove | ai-engine/src/game/board_state.rs:108-150 | the hash is XORed with the keys of the moved and the captured codes on their squares and of the side to move |
| MailboxBoardState.BoardState.SetHalfMoves | ai-engine/src/game/board_state.rs:313-319 | only the half-move clock changes |
| MailboxBoardState.BoardState.SetWhiteMove | ai-engine/src/game/board_state.rs:365-367 | only the side to move changes |
| MailboxBoardState.BoardState.IncrementFullMoves | ai-engine/src/game/board_state.rs:369-371 | the full-move number grows by one and nothing else changes |
| MailboxBoardState.BoardState.AppendBlackCapture | ai-engine/src/game/board_state.rs:373-375 | the code is appended to Black's captures and nothing else changes |
| MailboxBoardState.BoardState.AppendWhiteCapture | ai-engine/src/game/board_state.rs:377-379 | the code is appended to White's captures and nothing else changes |
| MailboxBoardState.BoardState.SetWinner | ai-engine/src/game/board_state.rs:361-363 | only the winner changes |
| MailboxBoardState.BoardState.SetBlackKingMoved | ai-engine/src/game/board_state.rs:397-399 | only Black's king-moved flag changes |
| MailboxBoardState.BoardState.SetWhiteKingMoved | ai-engine/src/game/board_state.rs:401-403 | only White's king-moved flag changes |
| MailboxBoardState.BoardState.SetWhiteAbleToKingSideCastle | ai-engine/src/game/board_state.rs:405-407 | only that right changes |
| MailboxBoardState.BoardState.SetWhiteAbleToQueenSideCastle | ai-engine/src/game/board_state.rs:409-411 | only that right changes |
| MailboxBoardState.BoardState.SetBlackAbleToKingSideCastle | ai-engine/src/game/board_state.rs:413-415 | only that right changes |
| MailboxBoardState.BoardState.SetBlackAbleToQueenSideCastle | ai-engine/src/game/board_state.rs:417-419 | only that right changes |
| MailboxBoardState.BoardState.SetBlackEnPassant | ai-engine/src/game/board_state.rs:381-387 | the object afterwards is `MailboxState.SetBlackEnPassant` of its old snapshot: the value set and its key toggled when the square appears or disappears |
| MailboxBoardState.BoardState.SetWhiteEnPassant | ai-engine/src/game/board_state.rs:389-395 | the object afterwards is `MailboxState.SetWhiteEnPassant` of its old snapshot |
| MailboxBoardState.BoardState.HashBlackEnPassantChange | ai-engine/src/game/board_state.rs:381-387 | only the hash changes, by Black's en passant key |
| MailboxBoardState.BoardState.HashWhiteEnPassantChange | ai-engine/src/game/board_state.rs:389-395 | only the hash changes, by White's en passant key |
| MailboxBoardState.BoardState.SetBlackEnPassantField | ai-engine/src/game/board_state.rs:381-387 | only Black's en passant square changes |
| MailboxBoardState.BoardState.SetWhiteEnPassantField | ai-engine/src/game/board_state.rs:389-395 | only White's en passant square changes |
| MailboxBoardState.BoardState.UpdateCastlingAbility | ai-engine/src/game/board_state.rs:421-457 | the object afterwards is `MailboxState.UpdateCastlingAbility` of its old snapshot (see CastlingAbilityScope) |
| MailboxBoardState.BoardState.LoseBlackQueenSideCastle | ai-engine/src/game/board_state.rs:423-430 | the right is cleared, and the hash toggled by its key when the right was held |
| MailboxBoardState.BoardState.LoseBlackKingSideCastle | ai-engine/src/game/board_state.rs:431-438 | the right is cleared, and the hash toggled by its key when the right was held |
| MailboxBoardState.BoardState.LoseWhiteQueenSideCastle | ai-engine/src/game/board_state.rs:439-446 | the right is cleared, and the hash toggled by its key when the right was held |
| MailboxBoardState.BoardState.LoseWhiteKingSideCastle | ai-engine/src/game/board_state.rs:447-454 | the right is cleared, and the hash toggled by its key when the right was held |
| MailboxBoardState.BoardState.HashBlackLoseQueenSideCastle | ai-engine/src/game/board_state.rs:426-426 | only the hash changes, by the right's key |
| MailboxBoardState.BoardState.HashBlackLoseKingSideCastle | ai-engine/src/game/board_state.rs:434-434 | only the hash changes, by the right's key |
| MailboxBoardState.BoardState.HashWhiteLoseQueenSideCastle | ai-engine/src/game/board_state.rs:442-442 | only the hash changes, by the right's key |
| MailboxBoardState.BoardState.HashWhiteLoseKingSideCastle | ai-engine/src/game/board_state.rs:450-450 | only the hash changes, by the right's key |
| MailboxBoardState.BoardState.LoadPosition | ai-engine/src/game/board_state.rs:156-175 | the object afterwards is `FenLoading.LoadPosition` of its old snapshot, which reads the en passant field with the corrected `LoadEnPassant` (see Findings, LoadOntoEmpty, PositionFenReadsBack) |
| MailboxBoardState.BoardState.LoadClocks | ai-engine/src/game/board_state.rs:165-172 | each clock is read from its field when the record has one and is otherwise kept |
| MailboxBoardState.BoardState.RecomputeHash | ai-engine/src/game/board_state.rs:174-174 | the hash becomes the Zobrist hash of the position, computed afresh |
| MailboxBoardState.BoardState.LoadHalfMoveClock | ai-engine/src/game/board_state.rs:177-183 | the half-move clock is the field's `usize` value, or 0 |
| MailboxBoardState.BoardState.LoadFullMoveNumber | ai-engine/src/game/board_state.rs:185-191 | the full-move number is the field's `usize` value, or 0 |
| MailboxBoardState.BoardState.LoadEnPassant | ai-engine/src/game/board_state.rs:193-220 | the object afterwards is the corrected `FenLoading.LoadEnPassant` of its old snapshot (see Findings) |
| MailboxBoardState.BoardState.LoadCastling | ai-engine/src/game/board_state.rs:222-239 | the object afterwards is `FenLoading.LoadCastling` of its old snapshot |
| MailboxBoardState.BoardState.ClearCastling | ai-engine/src/game/board_state.rs:223-230 | the "-" branch: all four rights cleared and both kings marked as moved |
| MailboxBoardState.BoardState.GrantCastling | ai-engine/src/game/board_state.rs:231-238 | the other branch: each right from its letter, both kings marked as not moved |
| MailboxBoardState.BoardState.GrantWhiteCastling | ai-engine/src/game/board_state.rs:231-238 | White's two rights from 'K' and 'Q', White's king not moved |
| MailboxBoardState.BoardState.GrantBlackCastling | ai-engine/src/game/board_state.rs:231-238 | Black's two rights from 'k' and 'q', Black's king not moved |
| MailboxBoardState.BoardState.LoadActiveColor | ai-engine/src/game/board_state.rs:241-247 | the object afterwards is `FenLoading.LoadActiveColor` of its old snapshot |
| MailboxBoardState.BoardState.LoadPieces | ai-engine/src/game/board_state.rs:249-257 | the object afterwards is `FenLoading.LoadPieces` of its old snapshot (see PlaceRowsOverlay, PiecesFenReadsBack) |
| MailboxBoardState.BoardState.PlaceLetter | ai-engine/src/game/board_state.rs:259-275 | one letter of a row placed as `place_piece` of its FEN value |
| MailboxBoardState.BoardState.GenerateRowPiecesFen | ai-engine/src/game/board_state.rs:259-275 | the loop over one row ends where `FenLoading.PlaceRow` ends, on the same state and square |
| MailboxBoardState.Loaded | ai-engine/src/game/board.rs:258-264 | a fresh board state with the record loaded into a new state |
| MailboxBoard.InitialState | ai-engine/src/game/board.rs:21-30 | the state `Board::new` starts from (the initial FEN loaded into a new state) has a hash agreeing with its position |
| MailboxBoard.InitialBoardState | ai-engine/src/game/board.rs:21-30 | a fresh board state holding that initial state |
| MailboxBoard.Board.constructor | ai-engine/src/game/board.rs:21-30 | a board in the initial state with an empty history |
| MailboxBoard.Board.SetWinner | ai-engine/src/game/board.rs:46-56 | only the winner changes, to the code `set_winner` computes from check and side to move |
| MailboxBoard.Board.GetWinnerFen | ai-engine/src/game/board.rs:58-65 | one of 'w', 'b', 'd' or '-' |
| MailboxBoard.Board.IsGameFinished | ai-engine/src/game/board.rs:278-280 | finished exactly when the winner is Black, White or a draw |
| MailboxBoard.Board.MovePiece | ai-engine/src/game/board.rs:67-71 | the old state is pushed on the history and the state becomes `MailboxGame.MakeMove` of it |
| MailboxBoard.Board.UndoLastMove | ai-engine/src/game/board.rs:73-77 | with an empty history nothing changes; otherwise the last saved state is popped and restored |
| MailboxBoard.Board.MoveThenUndo | ai-engine/src/game/board.rs:67-77 | a move followed by an undo leaves the state and the history as they were |
| MailboxBoard.Board.MakeMove | ai-engine/src/game/board.rs:87-125 | the state afterwards and the result are those of `MailboxGame.MakeMove` |
| MailboxBoard.Board.Finish | ai-engine/src/game/board.rs:87-125 | the closing steps of `_make_move` (the piece moved, the state updated) as `MailboxGame.Finish` computes them |
| MailboxBoard.Board.HandleStateUpdateAfter | ai-engine/src/game/board.rs:127-147 | the state afterwards is `UpdateAfter` of the old one |
| MailboxBoard.Board.HandleKingMove | ai-engine/src/game/board.rs:149-166 | the state afterwards is `MailboxGame.HandleKingMove` of the old one |
| MailboxBoard.Board.MarkKingMoved | ai-engine/src/game/board.rs:149-166 | only the moving side's king-moved flag is set |
| MailboxBoard.Board.Castle | ai-engine/src/game/board.rs:168-213 | the state and the result are those of `MailboxGame.Castle` |
| MailboxBoard.Board.ClearCastlingRights | ai-engine/src/game/board.rs:168-213 | both rights of the castling side are cleared |
| MailboxBoard.Board.CaptureEnPassant | ai-engine/src/game/board.rs:215-233 | the state afterwards is `MailboxGame.CaptureEnPassant` of the old one |
| MailboxBoard.Board.TakeBlackPawn | ai-engine/src/game/board.rs:215-233 | White's branch: the black pawn behind Black's en passant square is taken |
| MailboxBoard.Board.TakeWhitePawn | ai-engine/src/game/board.rs:215-233 | Black's branch: the white pawn behind White's en passant square is taken |
| MailboxBoard.Board.HandleEnPassant | ai-engine/src/game/board.rs:235-256 | the state afterwards is `MailboxGame.HandleEnPassant` of the old one |
| MailboxBoard.Board.LoadPosition | ai-engine/src/game/board.rs:258-264 | the state becomes the record loaded into a new state by the loader with the corrected en passant reader (see Findings), the history is kept |
| MailboxBoard.InitialFenLoadable | ai-engine/src/common/contants.rs:5-5 | the initial FEN is a record the loader accepts |
| MailboxZobrist.SquareKey | ai-engine/src/game/zobrist.rs:60-83 | an empty square contributes no key |
| MailboxZobrist.CaptureDelta | ai-engine/src/game/zobrist.rs:60-83 | a capture adds exactly the captured code's key on the target to a quiet move's delta |
| MailboxZobrist.SquaresHashUpdate | ai-engine/src/game/zobrist.rs:109-149 | writing one square changes the squares' hash by the old code's key out and the new code's key in |
| MailboxZobrist.KeyIf | ai-engine/src/game/zobrist.rs:109-149 | a held right or present en passant square contributes its key, otherwise nothing |
| MailboxZobrist.StateHashFlipsSide | ai-engine/src/game/zobrist.rs:109-149 | changing the side to move changes the hash by exactly the side key |
| MailboxZobrist.MoveMatchesRecompute | ai-engine/src/game/zobrist.rs:60-149 | for a move of the code on the origin to another square, the incremental update gives the hash `compute_hash` computes for the new position |
| MailboxZobrist.Zobrist.constructor | ai-engine/src/game/zobrist.rs:23-54 | a hasher over the given keys with hash zero |
| MailboxZobrist.Zobrist.GetHash | ai-engine/src/game/zobrist.rs:56-58 | the current hash |
| MailboxZobrist.Zobrist.UpdateHashOnMove | ai-engine/src/game/zobrist.rs:60-83 | the hash is XORed with the move's delta: the moved code's keys on both squares, the captured code's key on the target, and the side key |
| MailboxZobrist.Zobrist.UpdateHashOnBlackEnPassantChange | ai-engine/src/game/zobrist.rs:85-87 | the hash is XORed with Black's en passant key |
| MailboxZobrist.Zobrist.UpdateHashOnWhiteEnPassantChange | ai-engine/src/game/zobrist.rs:89-91 | the hash is XORed with White's en passant key |
| MailboxZobrist.Zobrist.UpdateHashOnBlackLoseRookSideCastle | ai-engine/src/game/zobrist.rs:93-95 | the hash is XORed with Black's king-side castling key |
| MailboxZobrist.Zobrist.UpdateHashOnBlackLoseQueenSideCastle | ai-engine/src/game/zobrist.rs:97-99 | the hash is XORed with Black's queen-side castling key |
| MailboxZobrist.Zobrist.UpdateHashOnWhiteLoseRookSideCastle | ai-engine/src/game/zobrist.rs:101-103 | the hash is XORed with White's king-side castling key |
| MailboxZobrist.Zobrist.UpdateHashOnWhiteLoseQueenSideCastle | ai-engine/src/game/zobrist.rs:105-107 | the hash is XORed with White's queen-side castling key |
| MailboxZobrist.Zobrist.StateKeys | ai-engine/src/game/zobrist.rs:109-149 | the state part of `compute_hash`: side, rights and en passant keys accumulated as `StateHash` |
| MailboxZobrist.Zobrist.ComputeHash | ai-engine/src/game/zobrist.rs:109-149 | the stored and returned hash is the position's hash: every occupied square's key, then the state keys |
| MailboxZobrist.MoveTwiceRestores | ai-engine/src/game/zobrist.rs:60-83 | applying the same move update twice restores the hash |
| MailboxGame.ValidateMovePieces | ai-engine/src/game/board.rs:283-294 | no error exactly when a piece stands on the origin and no king on the target; the two messages for the two refusals |
| MailboxGame.MakeMoveRefusals | ai-engine/src/game/board.rs:87-125 | the move is refused exactly for an origin or target off the board, an empty origin, a king on the target, or a promotion without a piece, each with its own message, and a refused move leaves the state unchanged |
| MailboxGame.MakeMove | ai-engine/src/game/board.rs:87-125 | a refused move leaves the state as it was |
| MailboxGame.OrdinaryMoveKeepsHash | ai-engine/src/game/board.rs:87-125 | an ordinary move of a non-king onto a square without a king succeeds and keeps the hash in agreement with the position |
| MailboxGame.HandleEnPassant | ai-engine/src/game/board.rs:235-256 | the squares are not changed |
| MailboxGame.EnPassantSquaresAfter | ai-engine/src/game/board.rs:235-256 | after a move White's en passant square is the square behind a white double step and Black's behind a black one, otherwise none; nothing else but the hash changes |
| MailboxGame.EnPassantKeepsHash | ai-engine/src/game/board.rs:235-256 | the en passant bookkeeping keeps the hash in agreement with the position |
| MailboxGame.CaptureEnPassant | ai-engine/src/game/board.rs:215-233 | the en passant capture's state, 64 squares kept; `CaptureEnPassantTakesPawn` and `CaptureEnPassantBooks` prove what it removes, books and clears |
| MailboxGame.CaptureEnPassantTakesPawn | ai-engine/src/game/board.rs:215-233 | the taken pawn's square is emptied and every other square is unchanged |
| MailboxGame.CaptureEnPassantBooks | ai-engine/src/game/board.rs:215-233 | the taken pawn goes to the capturer's list and the opponent's en passant square is cleared |
| MailboxGame.UpdateAfter | ai-engine/src/game/board.rs:127-147 | the squares are not changed |
| MailboxGame.UpdateAfterKeepsHash | ai-engine/src/game/board.rs:127-147 | the state update after a move keeps the hash in agreement with the position |
| MailboxGame.HandleKingMove | ai-engine/src/game/board.rs:149-166 | the board keeps 64 squares |
| MailboxGame.KingMoveEffects | ai-engine/src/game/board.rs:149-166 | the king is marked as moved; a two-square step of an unmoved king castles and clears both of its side's rights; otherwise only the flag changes |
| MailboxGame.Castle | ai-engine/src/game/board.rs:168-213 | the board keeps 64 squares |
| MailboxGame.CastleClearsRights | ai-engine/src/game/board.rs:168-213 | after castling both rights of the castling side are cleared |
| MailboxGame.CastleMovesRook | ai-engine/src/game/board.rs:168-213 | when the rook can move, castling succeeds, the rook stands on its new square, its corner is empty, and the side to move is kept |
| MailboxGame.CastleDepthDrops | ai-engine/src/game/board.rs:168-213 | the castling depth of the rook's step is below that of the king's two-square move, so the recursion through `castle` ends |
| MailboxGame.RookStep | ai-engine/src/game/board.rs:168-213 | the rook's move record: its squares and code, no en passant, no promotion |
| MailboxGame.MakeMoveLosesRights | ai-engine/src/game/board.rs:87-213 | no move, however nested its castlings, grants a castling right |
| MailboxGame.KingMoveLosesRights | ai-engine/src/game/board.rs:149-166 | a king move never grants a castling right |
| MailboxGame.CastleLosesRights | ai-engine/src/game/board.rs:168-213 | castling never grants a right and clears the castling side's |
| MailboxGame.FinishLosesRights | ai-engine/src/game/board.rs:87-125 | the closing steps of a move never grant a right |
| MailboxGame.MovePieceKeepsRights | ai-engine/src/game/board_state.rs:108-150 | `move_piece` leaves every castling right as it was |
| MailboxGame.UpdateAfterLosesRights | ai-engine/src/game/board.rs:127-147 | the state update never grants a right |
| MailboxGame.CaptureKeepsRights | ai-engine/src/game/board.rs:215-233 | an en passant capture never grants a right |
| MailboxGame.CastlingAbilityLosesRights | ai-engine/src/game/board_state.rs:421-457 | `update_castling_ability` never grants a right |
| MailboxGame.WinnerCode | ai-engine/src/game/board.rs:46-56 | the winner is Black, White or a draw (both codes) |
| MailboxGame.WinnerFen | ai-engine/src/game/board.rs:58-65 | one of 'w', 'b', 'd', '-', and '-' exactly for a code that is no result |
| MailboxGame.WinnerReadsBack | ai-engine/src/game/board.rs:46-65 | the letter of the recorded winner is 'd' without check, otherwise the side that did not have to move: never '-' |
| MoveCodec.WithFlags | ai-engine/src/game_bit_board/_move/_move.rs:104-114 | the packed word carries the low four bits of the flags in its top nibble; both en passant fields start at 0; colour and piece type are kept |
| MoveCodec.WithFlagsFrom | ai-engine/src/game_bit_board/_move/_move.rs:104-114 | `get_from` of a built move is the low six bits of the given origin |
| MoveCodec.WithFlagsTo | ai-engine/src/game_bit_board/_move/_move.rs:104-114 | `get_to` of a built move is the low six bits of the given target |
| MoveCodec.FromTo | ai-engine/src/game_bit_board/_move/_move.rs:91-93 | `from_to` builds a normal move (flag 0) whose origin and target read back as the low six bits of the arguments |
| MoveCodec.WithFlagsRoundTrip | ai-engine/src/game_bit_board/_move/_move.rs:104-126 | for a flag below 16 and squares below 64, `get_flags`, `get_from` and `get_to` give back exactly what `with_flags` was given |
| MoveCodec.AsU64 | ai-engine/src/game_bit_board/_move/_move.rs:120 | the widened word is below 2^16 and equals the packed 16-bit move |
| MoveCodec.GetFlags | ai-engine/src/game_bit_board/_move/_move.rs:122 | the flags are the top four bits of the word, so below 16 |
| MoveCodec.PackFlags | ai-engine/src/game_bit_board/_move/_move.rs:104-114 | the top nibble of the packed word is the flag's low four bits |
| MoveCodec.PackFrom | ai-engine/src/game_bit_board/_move/_move.rs:104-114 | bits 6 to 11 of the packed word are the origin's low six bits |
| MoveCodec.PackTo | ai-engine/src/game_bit_board/_move/_move.rs:104-114 | bits 0 to 5 of the packed word are the target's low six bits |
| MoveCodec.PackUnpack | ai-engine/src/game_bit_board/_move/_move.rs:104-126 | every 16-bit word is the packing of its own flags, origin and target fields |
| MoveCodec.PackInjective | ai-engine/src/game_bit_board/_move/_move.rs:104-114 | on in-range fields two packings are equal exactly when flags, origin and target are all equal |
| MoveCodec.KindOfFlag | ai-engine/src/game_bit_board/_move/_move.rs:128-154 | a flag names no move kind exactly when it is 6, 7 or above 15 |
| MoveCodec.Kind | ai-engine/src/game_bit_board/_move/_move.rs:128-154 | a move's kind is unknown exactly when its flags are 6 or 7 |
| MoveCodec.FlagPredicatesExclusive | ai-engine/src/game_bit_board/_move/_move.rs:128-154 | each `is_*` predicate holds exactly when the move's kind is the matching one, so at most one of them holds |
| MoveCodec.PromotionRanges | ai-engine/src/game_bit_board/_move/_move.rs:156-158 | `is_promotion` means flags of at least 8; `is_promo_capture` means flags of at least 12, and implies a promotion |
| MoveCodec.Eq | ai-engine/src/game_bit_board/_move/_move.rs:42-48 | two moves are equal exactly when word, colour, piece type and both en passant fields agree |
| MoveCodec.Ne | ai-engine/src/game_bit_board/_move/_move.rs:50-56 | `ne` is the negation of `eq` |
| MoveCodec.SetEnPassantBbPosition | ai-engine/src/game_bit_board/_move/_move.rs:160-162 | the en passant position is set; every other field is unchanged |
| MoveCodec.SetEnPassantBbPieceSquare | ai-engine/src/game_bit_board/_move/_move.rs:166-168 | the en passant piece square is set; every other field is unchanged |
| MoveCodec.DecodeSquare | ai-engine/src/game_bit_board/_move/_move.rs:219-223 | the first letter is the file `a`..`h` of the index modulo 8; the rest is the decimal rank (index / 8) + 1; on a board square the name has two characters |
| MoveCodec.PromotionPiece | ai-engine/src/game_bit_board/_move/_move.rs:225-233 | each promotion flag, quiet or capturing, maps to its letter `n`, `b`, `r` or `q`; every other flag maps to the empty string |
| MoveCodec.ToAlgebraicNotation | ai-engine/src/game_bit_board/_move/_move.rs:172-217 | the notation is the origin name then the target name, with a fifth letter from `nbrq` exactly when the move is a promotion |
| MoveGenUtils.PopMoves | ai-engine/src/game_bit_board/move_generator/utils.rs:47-67 | popping the lowest target adds its move first, then the moves for the remaining targets, and the remaining word has fewer squares |
| MoveGenUtils.CreateMoves | ai-engine/src/game_bit_board/move_generator/utils.rs:47-67 | the loop appends to the list, in square order, one move per set bit of the attack word |
| MoveGenUtils.CreateMove | ai-engine/src/game_bit_board/move_generator/utils.rs:55-63 | one loop step builds the move for that target |
| MoveGenUtils.MoveToSquares | ai-engine/src/game_bit_board/move_generator/utils.rs:55-63 | a created move goes from the origin to the target and keeps colour and piece type |
| MoveGenUtils.MoveToFlags | ai-engine/src/game_bit_board/move_generator/utils.rs:55-63 | a created move is a capture exactly when an opponent piece is on the target, and is otherwise a normal move |
| MoveGenUtils.MovesFromLength | ai-engine/src/game_bit_board/move_generator/utils.rs:47-67 | exactly one move is created per set bit |
| MoveGenUtils.MovesFromSquares | ai-engine/src/game_bit_board/move_generator/utils.rs:47-67 | the k-th created move is the move to the k-th set square |
| MoveGenUtils.CreatedMoves | ai-engine/src/game_bit_board/move_generator/utils.rs:47-67 | the created moves target strictly increasing squares; each starts at the origin and is a capture exactly when an opponent piece is on its target |
| MoveGenUtils.CreatedMovesCover | ai-engine/src/game_bit_board/move_generator/utils.rs:47-67 | a board square is among the targets exactly when its bit is set in the attack word |
| MoveGenUtils.SquaresBetween | ai-engine/src/game_bit_board/move_generator/utils.rs:125-131 | equal or adjacent squares have nothing between them |
| MoveGenUtils.SquaresBetweenMembers | ai-engine/src/game_bit_board/move_generator/utils.rs:125-131 | a square is in the result exactly when it lies strictly between the two; the order of the arguments does not matter |
| MoveGenUtils.ClosestAsWrittenMissesNearest | ai-engine/src/game_bit_board/move_generator/utils.rs:133-147 | as written, with base 25 and pieces on 24 and 31, the search returns 31 although 24 is nearer |
| MoveGenUtils.ClosestAsWritten | ai-engine/src/game_bit_board/move_generator/utils.rs:133-147 | the search as written, a square replacing the answer when its distance is below the answer's square index; `ClosestAsWrittenMissesNearest` shows it missing the nearer square (see Findings) |
| MoveGenUtils.GetClosestSquare | ai-engine/src/game_bit_board/move_generator/utils.rs:133-147 | the corrected loop returns the nearest square of the word, the first one on ties in square order |
| MoveGenUtils.NearestIsMinimal | ai-engine/src/game_bit_board/move_generator/utils.rs:133-147 | no listed square and not the starting value is nearer to the base than the answer |
| MoveGenUtils.ClosestSquareIsListed | ai-engine/src/game_bit_board/move_generator/utils.rs:133-147 | for an empty word the answer is the sentinel `usize::MAX`; otherwise it is one of the word's squares |
| MoveGenUtils.ClosestSquareIsNearest | ai-engine/src/game_bit_board/move_generator/utils.rs:133-147 | no square set in the word is nearer to the base than the answer |
| MoveGenUtils.PromotionSquareIsLastRank | ai-engine/src/game_bit_board/move_generator/utils.rs:157-163 | a square is a promotion square exactly when it is on rank 8 for White or rank 1 for Black; a pawn step from the seventh (second) rank lands on one |
| DiscoveredCheck.RankSquares | ai-engine/src/game_bit_board/move_generator/utils.rs:69-123 | a square is in the rank's set exactly when it lies on that rank |
| DiscoveredCheck.HighestRow | ai-engine/src/game_bit_board/move_generator/utils.rs:69-123 | the rank looked up for the king is a set of board squares |
| DiscoveredCheck.HighestRowOfSquare | ai-engine/src/game_bit_board/move_generator/utils.rs:69-123 | for the king's own square, the rank looked up is the king's rank |
| DiscoveredCheck.ClosestIn | ai-engine/src/game_bit_board/move_generator/utils.rs:133-147 | the search as written, a square replacing the answer when its distance is below the answer's square index, answers its start value or one of the squares |
| DiscoveredCheck.ClosestInFinds | ai-engine/src/game_bit_board/move_generator/utils.rs:133-147 | over board squares the search answers one of them when there are any, and `usize::MAX` when there are none |
| DiscoveredCheck.ClosestInHighest | ai-engine/src/game_bit_board/move_generator/utils.rs:133-147 | for squares of one rank off the first rank, the search answers the highest of them, whatever their distances |
| DiscoveredCheck.ClosestInKeepsZero | ai-engine/src/game_bit_board/move_generator/utils.rs:133-147 | once the answer is square 0 no square replaces it, since no distance is below 0 |
| DiscoveredCheck.FirstRankKeepsCorner | ai-engine/src/game_bit_board/move_generator/utils.rs:133-147 | whenever a1 is among the squares the search answers a1, even when a nearer square exists (king on e1, rooks on a1 and h1: h1 is nearer, a1 is answered) |
| DiscoveredCheck.IsEnPassantDiscoveredCheck | ai-engine/src/game_bit_board/move_generator/utils.rs:69-123 | a yes needs the capture to be the side to move's, on its king's rank, with an opponent rook or queen on that rank |
| DiscoveredCheck.DiscoveredCheckSound | ai-engine/src/game_bit_board/move_generator/utils.rs:69-123 | a yes answer means the side to move captures on its king's rank, and an opponent rook or queen on that rank has nothing between it and the king except the two pawns the capture takes |
| DiscoveredCheck.CornerQueenIgnored | ai-engine/src/game_bit_board/move_generator/utils.rs:69-123 | with a queen on a1 the answer is yes although a knight still shields the king, because a queen on square 0 is skipped |
| DiscoveredCheck.ExposedLowRookMissed | ai-engine/src/game_bit_board/move_generator/utils.rs:69-123 | only the rook the search picks, the highest on the rank, is looked at: a lower rook that the capture exposes is missed and the answer is no |
| DiscoveredCheck.FarRookPicked | ai-engine/src/game_bit_board/move_generator/utils.rs:69-123 | with rooks on both sides of the king the search picks the farther, higher one, and the capture exposing it gives yes |
| AttackData.NoPins | ai-engine/src/game_bit_board/move_generator/attack_data.rs:42-53 | the fresh pin table has 64 entries, each the full board (no restriction) |
| AttackData.Pieces | ai-engine/src/game_bit_board/move_generator/attack_data.rs:141-147 | a colour's pieces of one kind are both of that kind and of that colour |
| AttackData.ColorAt | ai-engine/src/game_bit_board/move_generator/attack_data.rs:327-332 | a square is read as White exactly when it is in White's word |
| AttackData.Lowest | ai-engine/src/game_bit_board/move_generator/attack_data.rs:156-157 | `pop_lsb` takes the lowest square of a non-empty word |
| AttackData.TargetOnRay | ai-engine/src/game_bit_board/move_generator/attack_data.rs:287-299 | from a slider to an aligned king, the direction is a real step and the king lies on that ray at the distance between them |
| AttackData.Cell | ai-engine/src/game_bit_board/move_generator/attack_data.rs:292-306 | one step along a ray from a square gives nothing exactly when the ray has run off the board |
| AttackData.SteppedCell | ai-engine/src/game_bit_board/move_generator/attack_data.rs:292-306 | stepping the k-th cell of a ray gives its (k+1)-th cell |
| AttackData.Initial | ai-engine/src/game_bit_board/move_generator/attack_data.rs:42-53 | `init`: the king is the side to move's only king, nothing is recorded, every square is allowed and no piece is pinned |
| AttackData.Checked | ai-engine/src/game_bit_board/move_generator/attack_data.rs:153-154 | a new check sets `in_check` and makes it a double check exactly when a check was already recorded |
| AttackData.KnightPass | ai-engine/src/game_bit_board/move_generator/attack_data.rs:141-161 | the knight pass keeps the king, the side and the pin table's size |
| AttackData.KnightPassKeeps | ai-engine/src/game_bit_board/move_generator/attack_data.rs:141-161 | the knight pass adds exactly the opponent knights a knight's jump from the king to the checkers; pins, allowed squares and blocking squares are unchanged; check flags stay consistent |
| AttackData.PawnPass | ai-engine/src/game_bit_board/move_generator/attack_data.rs:163-196 | the pawn pass keeps the king, the side and the pin table's size |
| AttackData.PawnFoldKeeps | ai-engine/src/game_bit_board/move_generator/attack_data.rs:182-195 | every pawn looked at bars all the squares it attacks from the king; only the pawns attacking the king become checkers, pins and blocking squares are unchanged |
| AttackData.SlidingCheck | ai-engine/src/game_bit_board/move_generator/attack_data.rs:287-310 | handling a sliding check keeps the king, the side and the pin table's size |
| AttackData.SlidingCheckParts | ai-engine/src/game_bit_board/move_generator/attack_data.rs:287-310 | the check adds the slider to the checkers, the ray from its first step up to the king to the blocking squares, and bars the ray beyond the king |
| AttackData.SlidingCheckBlocks | ai-engine/src/game_bit_board/move_generator/attack_data.rs:287-310 | the blocking squares gain the squares strictly between checker and king, or the king's own square when the checker is adjacent; the squares behind the king are barred; the checker is recorded |
| AttackData.PathToKing | ai-engine/src/game_bit_board/move_generator/attack_data.rs:292-299 | the first loop ends on the king, having collected the first step and the squares before the king |
| AttackData.BarBeyond | ai-engine/src/game_bit_board/move_generator/attack_data.rs:301-307 | the second loop bars exactly the ray squares past the king |
| AttackData.PinWalk | ai-engine/src/game_bit_board/move_generator/attack_data.rs:312-365 | handling pins keeps the king, the side and the pin table's size |
| AttackData.ScanToKing | ai-engine/src/game_bit_board/move_generator/attack_data.rs:318-353 | the walk stops early exactly when two or more pieces stand between slider and king; otherwise the path is the slider plus the squares before the king, and a friendly pin is found exactly when the one piece between them is the side to move's |
| AttackData.ReachedKing | ai-engine/src/game_bit_board/move_generator/attack_data.rs:318-353 | on reaching the king at most one piece stood between; the path and the friendly pin are as in ScanToKing |
| AttackData.PinnedMeans | ai-engine/src/game_bit_board/move_generator/attack_data.rs:312-365 | a piece is reported pinned exactly when it is the only piece between slider and king and belongs to the side to move |
| AttackData.PinWalkSound | ai-engine/src/game_bit_board/move_generator/attack_data.rs:355-359 | a restricted pin entry always belongs to a friendly piece other than the king, and its line contains the piece's own square |
| AttackData.SliderStep | ai-engine/src/game_bit_board/move_generator/attack_data.rs:210-284 | one slider step keeps the king, the side and the pin table's size |
| AttackData.SliderStepKeeps | ai-engine/src/game_bit_board/move_generator/attack_data.rs:210-284 | after one opponent slider the king may not step onto any square it attacks; check flags and pins stay sound |
| AttackData.SliderFoldKeeps | ai-engine/src/game_bit_board/move_generator/attack_data.rs:210-284 | after the loop, no square any of the looked-at sliders attacks is allowed to the king |
| AttackData.SliderPass | ai-engine/src/game_bit_board/move_generator/attack_data.rs:198-285 | the pass over one slider kind keeps the king, the side and the pin table's size |
| AttackData.SliderPassKeeps | ai-engine/src/game_bit_board/move_generator/attack_data.rs:198-285 | every opponent slider of the given kind has all its attacked squares barred from the king; check flags and pins stay sound |
| AttackData.SliderPassesKeep | ai-engine/src/game_bit_board/move_generator/attack_data.rs:55-62 | after the rook, bishop and queen passes, every opponent slider's attacks are barred from the king |
| AttackData.Passes | ai-engine/src/game_bit_board/move_generator/attack_data.rs:55-66 | the five passes from `init` keep the record tied to the position |
| AttackData.PassesKeep | ai-engine/src/game_bit_board/move_generator/attack_data.rs:55-66 | after all passes, sliders' and nearby pawns' attacks are barred from the king and the check flags and pins are sound |
| AttackData.Finish | ai-engine/src/game_bit_board/move_generator/attack_data.rs:68-82 | the final adjustments keep the king, the side and the pin table's size |
| AttackData.CalculateChecks | ai-engine/src/game_bit_board/move_generator/attack_data.rs:55-139 | in check exactly when the checkers are not the full board; checkers are opponent pieces; out of check the checkers and blocking squares are the full board; in double check nothing blocks |
| AttackData.CalculateLeaperCheckUnblockable | ai-engine/src/game_bit_board/move_generator/attack_data.rs:55-75 | a check in which no checker is a rook, bishop or queen (a knight's or a pawn's check) leaves no blocking square, as the pawn-check test expects |
| AttackData.SliderFoldAttack | ai-engine/src/game_bit_board/move_generator/attack_data.rs:210-284 | the slider loop records no checker but the sliders it looks at, and forgets no checker already recorded |
| AttackData.PawnFoldGrows | ai-engine/src/game_bit_board/move_generator/attack_data.rs:163-196 | the pawn loop forgets no checker already recorded |
| AttackData.CalculateRestricts | ai-engine/src/game_bit_board/move_generator/attack_data.rs:55-139 | only friendly non-king pieces are pinned, and no square an opponent slider or nearby opponent pawn attacks is allowed to the king |
| AttackData.AttackData.constructor | ai-engine/src/game_bit_board/move_generator/attack_data.rs:28-40 | `new`: empty words, no pins, no check, nothing allowed, king on 0, White to move |
| AttackData.AttackData.Init | ai-engine/src/game_bit_board/move_generator/attack_data.rs:42-53 | the object's state becomes `Initial` of the position |
| AttackData.AttackData.HandleKnightChecks | ai-engine/src/game_bit_board/move_generator/attack_data.rs:141-161 | the object's state becomes the knight pass of its old state |
| AttackData.AttackData.HandlePawnAttacks | ai-engine/src/game_bit_board/move_generator/attack_data.rs:163-196 | the object's state becomes the pawn pass of its old state |
| AttackData.AttackData.HandleSlidingCheck | ai-engine/src/game_bit_board/move_generator/attack_data.rs:287-310 | the object's state becomes the sliding-check update of its old state |
| AttackData.AttackData.HandlePins | ai-engine/src/game_bit_board/move_generator/attack_data.rs:312-365 | the object's state becomes the pin walk of its old state |
| AttackData.AttackData.HandleSlider | ai-engine/src/game_bit_board/move_generator/attack_data.rs:215-283 | the object's state becomes one slider step of its old state |
| AttackData.AttackData.CheckSlidingAttacks | ai-engine/src/game_bit_board/move_generator/attack_data.rs:198-285 | the object's state becomes the slider pass of its old state |
| AttackData.AttackData.CalculateAttackData | ai-engine/src/game_bit_board/move_generator/attack_data.rs:55-139 | the object's state becomes `Calculate` of the position, for which CalculateChecks and CalculateRestricts hold |
| MoveHelpers.Abs | ai-engine/src/game/move_generator_helper.rs:51 | the absolute value is the value or its negation, never negative |
| MoveHelpers.IsPawnFirstMove | ai-engine/src/game/move_generator_helper.rs:7-17 | White on 48..55 or Black on 8..15; `PawnFirstMoveIsHomeRank` proves this is the colour's home rank |
| MoveHelpers.PawnFirstMoveIsHomeRank | ai-engine/src/game/move_generator_helper.rs:7-17 | a pawn is on its first move exactly when it stands on its home rank: 48..55 for White, 8..15 for Black |
| MoveHelpers.AnyTargetsFindsMove | ai-engine/src/game/move_generator_helper.rs:19-23 | the `any` scan is true exactly when some move goes to the position |
| MoveHelpers.PositionIsNotAttacked | ai-engine/src/game/move_generator_helper.rs:19-23 | no opponent move targets the position; `NotAttackedIffNoMoveThere` states it over every move |
| MoveHelpers.NotAttackedIffNoMoveThere | ai-engine/src/game/move_generator_helper.rs:19-23 | a position is not attacked exactly when no opponent move goes to it |
| MoveHelpers.IsKingInCheck | ai-engine/src/game/move_generator_helper.rs:25-42 | the loop answers true exactly when some non-empty piece of the other colour has a move to the king's square |
| MoveHelpers.Path | ai-engine/src/game/move_generator_helper.rs:54-65 | the squares visited from the start, `count` of them, the first being the start |
| MoveHelpers.PathStopsBeforeEnd | ai-engine/src/game/move_generator_helper.rs:54-65 | with a positive step, every visited square lies from the start (inclusive) up to the end (exclusive) |
| MoveHelpers.Steps | ai-engine/src/game/move_generator_helper.rs:57-61 | the number of steps is the one that takes the start exactly to the end |
| MoveHelpers.IsPathClear | ai-engine/src/game/move_generator_helper.rs:54-65 | the loop answers true exactly when every square from the start up to, but not including, the end is empty |
| MoveHelpers.GetAdjacentPosition | ai-engine/src/game/move_generator_helper.rs:100-126 | the answer is the new position or -1 |
| MoveHelpers.AdjacentIsNeighbour | ai-engine/src/game/move_generator_helper.rs:100-126 | for a one-square step the answer is valid exactly when the new square is on the board and at most one rank and one file away, so no wrap around the a or h file |
| MoveHelpers.GetLineDistanceBetweenPositions | ai-engine/src/game/move_generator_helper.rs:136-145 | the difference of the two rank starts divided by 8; `LineDistanceIsRowDifference` proves it the absolute row difference and symmetric |
| MoveHelpers.LineDistanceIsRowDifference | ai-engine/src/game/move_generator_helper.rs:136-145 | the line distance is the absolute difference of the two rows, and is symmetric |
| MoveHelpers.GetKnightMove | ai-engine/src/game/move_generator_helper.rs:128-134 | the new position is returned exactly when the line distance equals the expected number of lines (or it is -1 already); otherwise -1 |
| MoveHelpers.KnightMoveIsJump | ai-engine/src/game/move_generator_helper.rs:128-134 | with the line counts the generator uses, a knight offset is accepted exactly when it is a real knight jump, two by one or one by two |
| MoveOrdering.FriendlyMovesMembers | ai-engine/src/ai/ai_utils.rs:140-144 | a move is collected exactly when it belongs to some piece of the side to move |
| MoveOrdering.Targets | ai-engine/src/ai/ai_utils.rs:152-153 | the target of each move, in the same order |
| MoveOrdering.AttackedPositionsMembers | ai-engine/src/ai/ai_utils.rs:146-154 | a square is listed as attacked exactly when some opponent piece other than a pawn has a move to it |
| MoveOrdering.PromotionCopies | ai-engine/src/ai/ai_utils.rs:161-168 | a promotion move becomes four copies that differ from it only in the promotion piece, one per option of the mover's colour |
| MoveOrdering.ExpandPromotions | ai-engine/src/ai/ai_utils.rs:156-174 | the moves that are not promotions, in order, then the copies of every promotion move |
| MoveOrdering.NoPromotionKeepsAll | ai-engine/src/ai/ai_utils.rs:171-174 | without promotions the list is unchanged |
| MoveOrdering.FourCopiesEach | ai-engine/src/ai/ai_utils.rs:156-174 | each promotion move is replaced by exactly four moves |
| MoveOrdering.RetainedMembers | ai-engine/src/ai/ai_utils.rs:172 | a move is kept exactly when it is in the list and is not a promotion |
| MoveOrdering.EveryOptionCopied | ai-engine/src/ai/ai_utils.rs:161-168 | every promotion option of every promotion move appears among the added moves |
| MoveOrdering.CopyOrigin | ai-engine/src/ai/ai_utils.rs:161-168 | every added move is one of the copies of some promotion move |
| MoveOrdering.SortKey | ai-engine/src/ai/ai_utils.rs:67-71 | the sort key is the move's worth, negated when maximising |
| MoveOrdering.SortByWorth | ai-engine/src/ai/ai_utils.rs:67-71 | `sort_by_key` on the worth key, stable for equal keys; `SortByWorthSorts` proves the result ordered (descending when maximising) and a permutation of the input |
| MoveOrdering.InsertPermutes | ai-engine/src/ai/ai_utils.rs:67-71 | inserting a move adds exactly that move |
| MoveOrdering.InsertSorted | ai-engine/src/ai/ai_utils.rs:67-71 | inserting into a sorted list keeps it sorted |
| MoveOrdering.SortByWorthSorts | ai-engine/src/ai/ai_utils.rs:67-71 | the sorted list is ordered by worth, descending when maximising and ascending otherwise, and is a permutation of the input |
| MoveOrdering.FirstEqual | ai-engine/src/ai/ai_utils.rs:76-83 | the scan finds the first move equal to the best move, or reports that none is equal |
| MoveOrdering.BestFirst | ai-engine/src/ai/ai_utils.rs:73-84 | the best move put in front in place of the first entry `eq` to it, the list unchanged otherwise; `BestFirstLeads`, `BestFirstExchanges` and `BestFirstAbsent` prove it |
| MoveOrdering.PutBestMoveFirst | ai-engine/src/ai/ai_utils.rs:73-84 | the loop's result is the list with the first equal entry removed and the best move put in front |
| MoveOrdering.BestFirstKeepsLength | ai-engine/src/ai/ai_utils.rs:73-84 | moving the best move to the front keeps the length |
| MoveOrdering.BestFirstLeads | ai-engine/src/ai/ai_utils.rs:76-83 | the best move leads, followed by the other moves in their order |
| MoveOrdering.BestFirstExchanges | ai-engine/src/ai/ai_utils.rs:76-83 | the result holds the same moves except that the equal entry is exchanged for the best move itself |
| MoveOrdering.BestFirstAbsent | ai-engine/src/ai/ai_utils.rs:73-84 | when no entry equals the best move the list is unchanged |
| MoveOrdering.ReorderMoves | ai-engine/src/ai/ai_utils.rs:67-84 | the reorder is the sort followed by the best-first step; it keeps the length, and without a best move it is a sorted permutation |
| MoveTables.KnightTableIsGenerated | ai-engine/src/game_bit_board/move_generator/contants.rs:84-93 | every entry of `KNIGHT_MOVES` is the knight jump set the precompute loop of the raw generator produces for that square |
| MoveTables.KingTableIsGenerated | ai-engine/src/game_bit_board/move_generator/contants.rs:95-104 | every entry of `KING_MOVES` is the king neighbourhood the raw generator produces for that square |
| MoveTables.WhitePawnAttacksAreGenerated | ai-engine/src/game_bit_board/move_generator/contants.rs:61-70 | every entry of `WHITE_PAWN_ATTACKS` is the white pawn capture set the raw generator produces |
| MoveTables.BlackPawnAttacksAreGenerated | ai-engine/src/game_bit_board/move_generator/contants.rs:16-25 | every entry of `BLACK_PAWN_ATTACKS` is the black pawn capture set the raw generator produces |
| MoveTables.WhitePawnPushesAreGenerated | ai-engine/src/game_bit_board/move_generator/contants.rs:73-82 | every entry of `WHITE_PAWN_MOVES` is the white single and double push set the raw generator produces |
| MoveTables.BlackPawnPushesAreGenerated | ai-engine/src/game_bit_board/move_generator/contants.rs:28-37 | every entry of `BLACK_PAWN_MOVES` is the black push set the raw generator produces |
| MoveTables.QueenIsBishopOrRook | ai-engine/src/game_bit_board/move_generator/contants.rs:39-48 | every queen entry is the union of the bishop and rook entries of the same square |
| MoveTables.BishopRelevantWithinMoves | ai-engine/src/game_bit_board/move_generator/contants.rs:106-115 | the bishop relevant squares of a square are among its bishop moves |
| MoveTables.RookRelevantWithinMoves | ai-engine/src/game_bit_board/move_generator/contants.rs:117-126 | the rook relevant squares of a square are among its rook moves |
| MoveTables.BishopRelevantOffEdges | ai-engine/src/game_bit_board/move_generator/contants.rs:106-115 | bishop relevant squares never lie on the board's edge files or ranks |
| MoveTables.TablesSkipOwnSquare | ai-engine/src/game_bit_board/move_generator/contants.rs:5-104 | no knight, king, bishop or rook entry contains its own square |
| MoveTables.PawnTablesHoldDoublePush | ai-engine/src/game_bit_board/move_generator/contants.rs:28-82 | a pawn on its home rank can push two squares |
| MoveTables.NoPawnMovesOnLastRank | ai-engine/src/game_bit_board/move_generator/contants.rs:16-82 | a pawn on the last rank for its colour has no pushes and no captures |
| MoveTables.SliderEntriesMatchGenerator | ai-engine/src/game_bit_board/move_generator/contants.rs:5-59 | sample rook and bishop entries equal the empty-board sliding moves the raw generator computes |
| MoveTables.CastlingPaths | ai-engine/src/game_bit_board/move_generator/contants.rs:128-132 | each castling path constant holds exactly the squares between king and rook |
| PromotionFlags.PromotionFlagsFromSymbol | ai-engine/src/game_bit_board/_move/move_utils.rs:5-13 | a promotion letter in either case gives a promotion flag from 8 to 11 and its capture flag four higher; any other character gives (0, 0) |
| PromotionFlags.PieceTypeFromPromotionFlag | ai-engine/src/game_bit_board/_move/move_utils.rs:15-23 | only flags 8 to 15 name a piece, never a pawn or a king; every other flag gives Empty |
| PromotionFlags.CaptureVariantSamePiece | ai-engine/src/game_bit_board/_move/move_utils.rs:15-23 | a promotion flag and its capture variant name the same piece |
| PromotionFlags.PromotionFlagsRoundTrip | ai-engine/src/game_bit_board/_move/move_utils.rs:5-23 | the flags read from a letter map back to the piece that letter names |
| PromotionFlags.PromotionPieceAgrees | ai-engine/src/game_bit_board/_move/move_utils.rs:5-23 | the letter `promotion_piece` writes for a promotion flag reads back, through the flag table, to the same piece |
| PawnAttackLookup.LookUpPawnAttacks | ai-engine/src/game_bit_board/move_generator/utils.rs:149-155 | the table read gives the capture squares a pawn of that colour has from the square |
| PawnStructure.Forward | ai-engine/src/ai/ai_utils.rs:380 | a pawn's forward step is -8 for White and +8 for Black |
| PawnStructure.ProbeMeansNeighbour | ai-engine/src/ai/ai_utils.rs:348-377 | the k-th probe finds a pawn exactly when a friendly pawn stands on that neighbouring square without wrapping |
| PawnStructure.NoPawnFromMeans | ai-engine/src/ai/ai_utils.rs:360-376 | the loop from probe k on finds nothing exactly when none of the remaining neighbours holds a friendly pawn |
| PawnStructure.ProbesCoverNeighbours | ai-engine/src/ai/ai_utils.rs:349-358 | the eight probes cover every square touching the pawn |
| PawnStructure.IsIsolatedPawn | ai-engine/src/ai/ai_utils.rs:348-377 | no probe of the eight neighbours finds a pawn of the same colour; `IsolatedIffNoTouchingPawn` proves this is "no touching square holds such a pawn" |
| PawnStructure.IsolatedIffNoTouchingPawn | ai-engine/src/ai/ai_utils.rs:348-377 | a pawn is isolated exactly when no square touching it holds a pawn of its colour |
| PawnStructure.DiagonalVerdict | ai-engine/src/ai/ai_utils.rs:402-413 | the four-way branch answers blocked exactly when each diagonal square is empty or holds a piece of the pawn's own colour |
| PawnStructure.IsBlockedPawnAsWritten | ai-engine/src/ai/ai_utils.rs:379-417 | as written: a pawn with an empty square ahead is never blocked |
| PawnStructure.BlockedAsWrittenProbesOwnRow | ai-engine/src/ai/ai_utils.rs:390-400 | as written, a black pawn on a7 (square 8) blocked by a white pawn on a6 probes h7 (square 15), at the far end of its own rank, instead of b6 (square 17); with a white knight on h7 and b6 empty it answers not blocked, where the corrected version answers blocked |
| PawnStructure.IsBlockedPawn | ai-engine/src/ai/ai_utils.rs:379-417 | corrected probes: a pawn with an empty square ahead is never blocked |
| PawnStructure.DiagonallyAheadSquares | ai-engine/src/ai/ai_utils.rs:390-400 | the corrected probes are the two squares diagonally ahead of the pawn, leaving out a side that would wrap around the board's edge |
| PawnStructure.BlockedAsWrittenProbesTwoRowsAhead | ai-engine/src/ai/ai_utils.rs:390-400 | as written, a black pawn on h7 (square 15) blocked by a white pawn on h6 probes a5 (square 24), two rows ahead on the a file, instead of g6 (square 22); with a white knight on g6 and a5 empty it answers blocked, where the corrected version answers not blocked |
| PawnStructure.BlockedVersionsAgreeOffEdges | ai-engine/src/ai/ai_utils.rs:379-417 | for a black pawn off the a and h files the code as written and the corrected version give the same answer |
| PawnStructure.BlockedIffNoCapture | ai-engine/src/ai/ai_utils.rs:379-417 | a pawn is blocked exactly when the square ahead is occupied and no square diagonally ahead holds an opponent piece |
| PawnStructure.BlockedVersionsAgreeForWhite | ai-engine/src/ai/ai_utils.rs:379-417 | for White the code as written and the corrected version give the same answer |
| PawnStructure.IsDoubledPawn | ai-engine/src/ai/ai_utils.rs:419-442 | the loop's answer is the scan along the file from the square ahead |
| PawnStructure.DoubledHasPawnAhead | ai-engine/src/ai/ai_utils.rs:419-442 | a doubled pawn has a friendly pawn on its own file ahead of it |
| PawnStructure.EmptyFileNotDoubled | ai-engine/src/ai/ai_utils.rs:419-442 | a pawn with nothing ahead on its file is not doubled |
| PawnStructure.NextSquareDoubles | ai-engine/src/ai/ai_utils.rs:434-437 | a friendly pawn directly ahead makes the pawn doubled |
| PieceCodes.KindValue | ai-engine/src/common/contants.rs:19-31 | a kind's value is below 8 and is 0 only for Empty, so it never shares a bit with a colour value |
| PieceCodes.GetPieceType | ai-engine/src/common/piece_utils.rs:20-31 | a code names a piece kind exactly when it is one of the twelve piece codes, 9 to 14 or 17 to 22; every other byte is Empty |
| PieceCodes.GetPieceTypeOfCode | ai-engine/src/common/piece_utils.rs:20-31 | the kind read from the code of a colour and kind is that kind |
| PieceCodes.GetPieceTypeOnlyPieces | ai-engine/src/common/piece_utils.rs:20-31 | a code has a kind other than Empty exactly when it is a piece code |
| PieceCodes.IsPieceOfTypeCodes | ai-engine/src/common/piece_utils.rs:8-10 | a piece is of a kind exactly when it is the white or the black code of that kind |
| PieceCodes.KindWorth | ai-engine/src/common/contants.rs:10-15 | a kind's worth is never negative and is 0 only for Empty |
| PieceCodes.GetPieceWorth | ai-engine/src/common/piece_utils.rs:33-43 | the worth table of the twelve piece codes, 0 for any other code; `WorthIsKindWorth` proves it the worth of the code's kind |
| PieceCodes.WorthIsKindWorth | ai-engine/src/common/piece_utils.rs:33-43 | a code's worth is the worth of its kind, 0 for anything that is not a piece |
| PieceCodes.IsWhitePiece | ai-engine/src/common/piece_utils.rs:45-48 | the code lies from White bishop to White rook; `IsWhitePieceCodes` proves this exactly the White piece codes |
| PieceCodes.IsWhitePieceCodes | ai-engine/src/common/piece_utils.rs:46-48 | the code of a colour and kind is read as white exactly when the colour is White and the kind is a piece |
| PieceCodes.IsSameColorEquivalence | ai-engine/src/common/piece_utils.rs:51-53 | same colour is reflexive, symmetric and transitive; the empty square counts as black |
| PieceCodes.GetPromotionOptions | ai-engine/src/common/piece_utils.rs:12-18 | four distinct options, all of the requested colour |
| PieceCodes.PromotionOptionKinds | ai-engine/src/common/piece_utils.rs:12-18 | the options are the bishop, knight, queen and rook of that colour, in that order |
| PieceMoves.New | ai-engine/src/common/piece_move.rs:143-157 | a new move has the given squares and piece, every flag false, worth 0, no promotion piece and an empty notation |
| PieceMoves.EqIsNotationBlind | ai-engine/src/common/piece_move.rs:159-170 | `eq` is an equivalence that compares every field except the notation |
| PieceMoves.SetPutsKingInCheck | ai-engine/src/common/piece_move.rs:208-210 | only the check flag changes, to the given value |
| PieceMoves.SetIsCapture | ai-engine/src/common/piece_move.rs:212-214 | only the capture flag changes, to the given value |
| PieceMoves.SetIsEnPassant | ai-engine/src/common/piece_move.rs:216-218 | only the en passant flag changes, to the given value |
| PieceMoves.SetIsPromotion | ai-engine/src/common/piece_move.rs:220-222 | only the promotion flag changes, to the given value |
| PieceMoves.SetPromotionValue | ai-engine/src/common/piece_move.rs:224-226 | only the promotion piece changes, to the given value |
| PieceMoves.SettersCommute | ai-engine/src/common/piece_move.rs:212-222 | setting a flag to its own value changes nothing, and the capture and promotion setters commute |
| PieceMoves.WrapI32 | ai-engine/src/common/piece_move.rs:228-230 | a sum is brought back into the i32 range modulo 2^32, and a value already in range is left alone |
| PieceMoves.SumToMoveWorth | ai-engine/src/common/piece_move.rs:228-230 | only the worth changes; it grows by the value when the sum fits an i32, and always stays an i32 |
| PieceMoves.SumToMoveWorthAdds | ai-engine/src/common/piece_move.rs:228-230 | two additions equal one addition of the sum, and adding 0 gives an equal move |
| PieceMoves.GetNotation | ai-engine/src/common/piece_move.rs:232-234 | the notation is the origin's name followed by the target's name |
| PieceMoves.Fill | ai-engine/src/common/piece_move.rs:59-135 | the fields the visitor has read each hold a value of the right type |
| PieceMoves.LastValue | ai-engine/src/common/piece_move.rs:59-135 | a key has a value exactly when it occurs in the map |
| PieceMoves.LastOccurrence | ai-engine/src/common/piece_move.rs:59-135 | a key read twice keeps its last value |
| PieceMoves.FillFails | ai-engine/src/common/piece_move.rs:59-135 | reading the map fails exactly when some value does not fit its field's type |
| PieceMoves.FillSlots | ai-engine/src/common/piece_move.rs:59-135 | after a successful read each known key holds the value of its last occurrence, and only the keys that occur are set |
| PieceMoves.FillAbortStays | ai-engine/src/common/piece_move.rs:59-135 | once a read has failed, later entries do not change the error |
| PieceMoves.UnknownKeyAborts | ai-engine/src/common/piece_move.rs:59-135 | an unknown key anywhere in the map makes the read fail |
| PieceMoves.FieldValue | ai-engine/src/common/piece_move.rs:9-21 | every known key names a field of the move |
| PieceMoves.FieldsDetermine | ai-engine/src/common/piece_move.rs:9-21 | two moves that agree on every field are the same move |
| PieceMoves.FinishFields | ai-engine/src/common/piece_move.rs:120-134 | the move is built exactly when every field was read, and its fields are the values read |
| PieceMoves.DeserializeSucceeds | ai-engine/src/common/piece_move.rs:46-139 | deserialising succeeds exactly when every value fits and every field is present; each field of the result is the last value given for it |
| PieceMoves.DeserializeRejectsUnknown | ai-engine/src/common/piece_move.rs:46-139 | a map with an unknown key is rejected |
| PieceMoves.VisitMap | ai-engine/src/common/piece_move.rs:59-135 | the visitor's loop over the map's entries gives the deserialised result |
| PieceMoves.Serialized | ai-engine/src/common/piece_move.rs:24-42 | serialising writes eleven fields |
| PieceMoves.SerializedFits | ai-engine/src/common/piece_move.rs:24-42 | every value written fits the type its field is read back as |
| PieceMoves.SerializedShowsFields | ai-engine/src/common/piece_move.rs:24-42 | each field written is the move's own value, with the notation recomputed from its squares |
| PieceMoves.RoundTrip | ai-engine/src/common/piece_move.rs:24-139 | deserialising what was serialised gives the move back with its notation recomputed, hence a move `eq` to the original |
| RelevantSquares.RayMembers | ai-engine/src/game_bit_board/move_generator/raw_move_generator.rs:94-128 | a square is on the walked ray exactly when it lies beyond the start in that direction before the edge files and ranks |
| RelevantSquares.BishopRelevantMembers | ai-engine/src/game_bit_board/move_generator/raw_move_generator.rs:81-134 | a bishop's relevant squares are exactly the squares off the board's edge on a diagonal through the square, other than the square itself |
| RelevantSquares.WalkDiagonal | ai-engine/src/game_bit_board/move_generator/raw_move_generator.rs:94-128 | each while loop ORs exactly the squares of its ray into the mask |
| RelevantSquares.BishopRelevantMask | ai-engine/src/game_bit_board/move_generator/raw_move_generator.rs:84-130 | one square's mask is the OR of its bishop relevant squares |
| RelevantSquares.GenerateBishopRelevantSquares | ai-engine/src/game_bit_board/move_generator/raw_move_generator.rs:81-134 | the table has one entry per square, each that square's bishop mask |
| RelevantSquares.HorizontalMembers | ai-engine/src/game_bit_board/move_generator/raw_move_generator.rs:146-151 | the rank loop takes the squares on the rank in files b to g other than the square's own file |
| RelevantSquares.VerticalMembers | ai-engine/src/game_bit_board/move_generator/raw_move_generator.rs:154-159 | the file loop takes the squares on the file in ranks 2 to 7 other than the square's own rank |
| RelevantSquares.RookRelevantMembers | ai-engine/src/game_bit_board/move_generator/raw_move_generator.rs:136-165 | a rook's relevant squares are exactly the squares off the edge of its rank and file, other than the square itself |
| RelevantSquares.RookRelevantMask | ai-engine/src/game_bit_board/move_generator/raw_move_generator.rs:139-161 | one square's mask is the OR of its rook relevant squares |
| RelevantSquares.GenerateRookRelevantSquares | ai-engine/src/game_bit_board/move_generator/raw_move_generator.rs:136-165 | the table has one entry per square, each that square's rook mask |
| RustMateWebBoard.GetPieceMove | rust-mate-web/src/Board/Board.tsx:29-31 | the first move to the position if there is one; none exactly when no move goes there |
| RustMateWebBoard.GetPieceMoveFindsFirst | rust-mate-web/src/Board/Board.tsx:29-31 | when move i is the first to the position, `find` returns it |
| RustMateWebBoard.MarksOnTargets | rust-mate-web/src/Board/Board.tsx:79-95 | every class a piece's moves toggle is on one of the moves' target cells |
| RustMateWebBoard.BoardPage.constructor | rust-mate-web/src/Board/Board.tsx:34-50 | nothing selected, no last move, not waiting, no AI answer, an empty board with White to move and no marks |
| RustMateWebBoard.BoardPage.TogglePieceAvailableMoves | rust-mate-web/src/Board/Board.tsx:74-96 | the page becomes the toggled-marks state of its old state: each target cell toggles its capture or empty receptor class and its piece button's disabled class |
| RustMateWebBoard.BoardPage.OnPieceSelect | rust-mate-web/src/Board/Board.tsx:52-72 | the page becomes the piece-selected state of its old state |
| RustMateWebBoard.BoardPage.OnMovePiece | rust-mate-web/src/Board/Board.tsx:98-130 | the page, the posted move and the capture sound are the move-click result of the old state |
| RustMateWebBoard.BoardPage.OnMoveAnswer | rust-mate-web/src/Board/Board.tsx:141-150 | the server's board replaces the page's board; an error answer changes nothing |
| RustMateWebBoard.BoardPage.LoadFen | rust-mate-web/src/Board/Board.tsx:152-167 | with no input field nothing is posted; otherwise the trimmed input is posted, or the initial position when it is blank |
| RustMateWebBoard.BoardPage.OnFenAnswer | rust-mate-web/src/Board/Board.tsx:168-177 | the answered board replaces the page's board and the last AI answer is cleared |
| RustMateWebBoard.BoardPage.OnBoardFetched | rust-mate-web/src/Board/Board.tsx:132-139 | the fetched board replaces the page's board; nothing else changes |
| RustMateWebBoard.ToggleMoveMarks | rust-mate-web/src/Board/Board.tsx:79-95 | the loop toggles the marks of every move, in order |
| RustMateWebBoard.SelectTwiceRestores | rust-mate-web/src/Board/Board.tsx:52-72 | selecting a piece and then selecting it again gives back the page as it was |
| RustMateWebBoard.SelectOtherSwitches | rust-mate-web/src/Board/Board.tsx:62-71 | selecting another piece makes it the selected one, clearing the old piece's marks and showing the new piece's |
| RustMateWebBoard.SelectIgnored | rust-mate-web/src/Board/Board.tsx:52-61 | while waiting for the AI, or for a piece of the side not to move, selection changes nothing |
| RustMateWebBoard.SelectTouchesTargetsOnly | rust-mate-web/src/Board/Board.tsx:74-96 | selection never changes the marks of a cell that neither the old nor the new piece can move to |
| RustMateWebBoard.LegalClickPosts | rust-mate-web/src/Board/Board.tsx:98-130 | clicking a target of the selected piece posts the first move to it, clears the selection and records the move's origin |
| RustMateWebBoard.IllegalClickIgnored | rust-mate-web/src/Board/Board.tsx:98-109 | a click with nothing selected, or on a cell the selected piece cannot reach, changes nothing and posts nothing |
| RustMateWebBoard.MoveAnswerReplacesOrKeeps | rust-mate-web/src/Board/Board.tsx:141-150 | a successful move answer replaces the board; a failed one leaves the page unchanged |
| RustMateWebBoard.CellPositionBijective | rust-mate-web/src/Board/Board.tsx:212-215 | the cell layout maps row and column one-to-one onto the squares 0 to 63 |
| SliderExamples.BishopOnD1 | ai-engine/src/game_bit_board/move_generator/move_generator.rs:239-267 | the bishop on d1 reaches the squares the generator's test expects, on an empty board and with blockers |
| SliderExamples.RookOnD1 | ai-engine/src/game_bit_board/move_generator/move_generator.rs:270-299 | the rook on d1 reaches the expected squares, on an empty board and with blockers |
| SliderExamples.QueenOnD1 | ai-engine/src/game_bit_board/move_generator/move_generator.rs:216-236 | the queen on d1 reaches the expected squares, on an empty board and with blockers |
| SliderExamples.BishopOnC1 | ai-engine/src/game_bit_board/move_generator/move_generator.rs:239-267 | the bishop on c1 covers both diagonals on an empty board, stops before a friendly piece on d2 and takes an enemy one there |
| SliderExamples.RookOnA1 | ai-engine/src/game_bit_board/move_generator/move_generator.rs:270-299 | the rook on a1 covers its file and rank on an empty board |
| SliderExamples.RookOnD5 | ai-engine/src/game_bit_board/move_generator/move_generator.rs:270-299 | the rook on d5 below friendly pieces filling ranks 7 and 8 goes up only to d6 |
| SliderExamples.RookOnD5Blocked | ai-engine/src/game_bit_board/move_generator/move_generator.rs:270-299 | with enemies on ranks 1 to 3 as well, the same rook goes down only to d3, which it can take |
| SliderTables.PreComputeSliderMoves | ai-engine/src/game_bit_board/move_generator/raw_move_generator.rs:239-251 | entry sq of the table is the slider's moves from sq on an empty board |
| SliderTables.PreComputeBishopMoves | ai-engine/src/game_bit_board/move_generator/raw_move_generator.rs:253-255 | the bishop table holds each square's empty-board bishop moves |
| SliderTables.PreComputeQueenMoves | ai-engine/src/game_bit_board/move_generator/raw_move_generator.rs:257-259 | the queen table holds each square's empty-board queen moves |
| SliderTables.PreComputeRookMoves | ai-engine/src/game_bit_board/move_generator/raw_move_generator.rs:261-263 | the rook table holds each square's empty-board rook moves |
| SliderTables.SetSquaresMembers | ai-engine/src/game_bit_board/move_generator/raw_move_generator.rs:22-26 | a square is collected exactly when its bit is set |
| SliderTables.SetSquaresDistinct | ai-engine/src/game_bit_board/move_generator/raw_move_generator.rs:22-26 | the collected squares are pairwise distinct |
| SliderTables.CollectSquares | ai-engine/src/game_bit_board/move_generator/raw_move_generator.rs:20-26 | the loop collects the set squares in increasing order |
| SliderTables.PatternBlocker | ai-engine/src/game_bit_board/move_generator/raw_move_generator.rs:32-38 | the inner loop builds the blocker word of one pattern |
| SliderTables.GetBlockersBitboards | ai-engine/src/game_bit_board/move_generator/raw_move_generator.rs:19-42 | the result is the list of blocker words for the patterns 0 to 2^n - 1 |
| SliderTables.PatternFromBit | ai-engine/src/game_bit_board/move_generator/raw_move_generator.rs:34-38 | a collected square is in a pattern's blocker word exactly when the pattern's matching bit is 1 |
| SliderTables.PatternsDiffer | ai-engine/src/game_bit_board/move_generator/raw_move_generator.rs:28-31 | two different patterns below 2^n differ in one of their first n bits |
| SliderTables.BlockersSelectSquares | ai-engine/src/game_bit_board/move_generator/raw_move_generator.rs:19-42 | blocker word p holds the k-th collected square exactly when bit k of p is 1 |
| SliderTables.BlockersOfProperties | ai-engine/src/game_bit_board/move_generator/raw_move_generator.rs:19-42 | there are 2^n blocker words for n set squares, each within the mask, the first one empty, and no two equal |
| SliderTables.CreateLookupTable | ai-engine/src/game_bit_board/move_generator/raw_move_generator.rs:44-65 | the table has an entry exactly for each square and each blocker subset of its relevant moves, holding the slider's moves with those blockers |
| SliderTables.InsertBlockers | ai-engine/src/game_bit_board/move_generator/raw_move_generator.rs:56-61 | inserting one square's blockers adds exactly those keys, with their generated moves, and keeps every other entry |
| Sliders.IterUnrolled | ai-engine/src/game_bit_board/move_generator/raw_move_generator.rs:225-236 | eight applications of a step are the step applied eight times |
| Sliders.StepsLeaveBoard | ai-engine/src/game_bit_board/move_generator/raw_move_generator.rs:225-236 | each of the eight one-square shifts clears any word after eight applications, so every ray walk ends |
| Sliders.WalkGrows | ai-engine/src/game_bit_board/move_generator/raw_move_generator.rs:227-228 | a walk only adds squares to the moves collected so far |
| Sliders.WalkAvoidsFriendly | ai-engine/src/game_bit_board/move_generator/raw_move_generator.rs:227 | walking a single-square step never adds a friendly square |
| Sliders.WalkStops | ai-engine/src/game_bit_board/move_generator/raw_move_generator.rs:227 | the walk stops, adding nothing, at the board's edge or on a friendly piece |
| Sliders.WalkCaptures | ai-engine/src/game_bit_board/move_generator/raw_move_generator.rs:228-233 | an enemy square is added and ends the walk |
| Sliders.WalkContinues | ai-engine/src/game_bit_board/move_generator/raw_move_generator.rs:228-235 | an empty square is added and the walk goes on from it |
| Sliders.WalkEndsOnFirstEnemy | ai-engine/src/game_bit_board/move_generator/raw_move_generator.rs:225-236 | when the first occupied square along the ray is an enemy, the walk equals a free walk up to and including it |
| Sliders.WalkTakesFirstEnemy | ai-engine/src/game_bit_board/move_generator/raw_move_generator.rs:225-236 | the first enemy along an open run is among the moves |
| Sliders.WalkEndsBeforeFriendly | ai-engine/src/game_bit_board/move_generator/raw_move_generator.rs:225-236 | when the first occupied square along the ray is friendly, the walk equals a free walk that stops just before it |
| Sliders.WalkWithinFreeWalk | ai-engine/src/game_bit_board/move_generator/raw_move_generator.rs:225-236 | blockers only shorten a walk: its squares are among those of the empty-board walk |
| Sliders.GenerateSlidingMoves | ai-engine/src/game_bit_board/move_generator/raw_move_generator.rs:221-237 | the loop adds to the moves exactly the walk from the first step of the start square |
| Sliders.StepsKeepSingle | ai-engine/src/game_bit_board/move_generator/raw_move_generator.rs:186-206 | every step function maps a single square to at most one square |
| Sliders.PieceStepsSlide | ai-engine/src/game_bit_board/move_generator/raw_move_generator.rs:186-206 | the rook's and the bishop's four steps each keep a single square single and leave the board |
| Sliders.SlideGrows | ai-engine/src/game_bit_board/move_generator/raw_move_generator.rs:186-196 | the walks in turn only add squares |
| Sliders.SlideAvoidsFriendly | ai-engine/src/game_bit_board/move_generator/raw_move_generator.rs:186-196 | for a single start square, no direction adds a friendly square |
| Sliders.SlideWithinFreeSlide | ai-engine/src/game_bit_board/move_generator/raw_move_generator.rs:186-196 | with blockers, the moves are among the empty-board moves |
| Sliders.GenerateSlides | ai-engine/src/game_bit_board/move_generator/raw_move_generator.rs:186-196 | the loop over the steps gives the walks in turn from an empty move word |
| Sliders.GenerateRookMoves | ai-engine/src/game_bit_board/move_generator/raw_move_generator.rs:181-199 | the rook's moves are its walks north, south, west and east |
| Sliders.GenerateBishopMoves | ai-engine/src/game_bit_board/move_generator/raw_move_generator.rs:201-219 | the bishop's moves are its four diagonal walks |
| Sliders.GenerateQueenMoves | ai-engine/src/game_bit_board/move_generator/raw_move_generator.rs:167-179 | the queen's moves are the union of the bishop's and the rook's |
| Sliders.SlidersAvoidFriendly | ai-engine/src/game_bit_board/move_generator/raw_move_generator.rs:167-219 | from a single square, no rook, bishop or queen move lands on a friendly piece |
| Sliders.RookWithinEmptyBoard | ai-engine/src/game_bit_board/move_generator/raw_move_generator.rs:181-199 | a rook's moves with blockers are among its empty-board moves |
| Sliders.RookMoves | ai-engine/src/game_bit_board/move_generator/raw_move_generator.rs:181-199 | the four orthogonal ray walks from the square; the `Walk*` lemmas say where each ray stops and `RookWithinEmptyBoard` that blockers only shorten it |
| Sliders.BishopWithinEmptyBoard | ai-engine/src/game_bit_board/move_generator/raw_move_generator.rs:201-219 | a bishop's moves with blockers are among its empty-board moves |
| Sliders.BishopMoves | ai-engine/src/game_bit_board/move_generator/raw_move_generator.rs:201-219 | the four diagonal ray walks from the square; `BishopWithinEmptyBoard` proves blockers only shorten them |
| Sliders.QueenMoves | ai-engine/src/game_bit_board/move_generator/raw_move_generator.rs:167-179 | the union of the bishop's and the rook's moves from the square, as `generate_queen_moves` ORs them |
| Strings.SplitWhitespace | ai-engine/src/game/board_state.rs:157 | `split_whitespace` gives only non-empty words without whitespace |
| Strings.SplitJoin | ai-engine/src/game/board_state.rs:157 | splitting words joined by single spaces gives the words back |
| Strings.Split | ai-engine/src/game/board_state.rs:250 | `split` gives at least one piece, none holding the separator |
| Strings.JoinSplit | ai-engine/src/game/board_state.rs:250 | joining the pieces with the separator gives the string back |
| Strings.SplitJoinPieces | ai-engine/src/game/board_state.rs:250 | splitting pieces joined by the separator gives the pieces back |
| Strings.SplitNoSep | ai-engine/src/game/board_state.rs:250 | a string without the separator is one piece |
| Strings.SplitPrefix | ai-engine/src/game/board_state.rs:250 | the piece before the first separator comes first, followed by the pieces of the rest |
| TranspositionTables.TranspositionTable.constructor | ai-engine/src/ai/transposition_table.rs:25-30 | a new table has no entries and no hits |
| TranspositionTables.TranspositionTable.Store | ai-engine/src/ai/transposition_table.rs:32-35 | the table becomes the old table with the entry stored under the hash |
| TranspositionTables.TranspositionTable.Retrieve | ai-engine/src/ai/transposition_table.rs:37-45 | the answer and the new table are the retrieval from the old table |
| TranspositionTables.TranspositionTable.GetHits | ai-engine/src/ai/transposition_table.rs:47-49 | the answer is the hit count |
| TranspositionTables.StoreThenRetrieve | ai-engine/src/ai/transposition_table.rs:32-45 | retrieving a hash just stored gives the stored entry |
| TranspositionTables.StoreKeepsOthers | ai-engine/src/ai/transposition_table.rs:32-45 | storing under one hash leaves what every other hash retrieves unchanged |
| TranspositionTables.RetrieveCounts | ai-engine/src/ai/transposition_table.rs:37-45 | retrieval never changes the entries, finds an entry exactly when the hash is stored, and counts a hit exactly then |
| TranspositionTables.HitsOnlyGrow | ai-engine/src/ai/transposition_table.rs:32-49 | over any run of stores and retrievals the hit count grows by the number of successful retrievals, so it never falls |
| TranspositionTables.StoredStays | ai-engine/src/ai/transposition_table.rs:32-35 | once stored, a hash stays in the table whatever follows |
| WebApplicationBoard.EmptyPieceAsWritten | web-application/src/Board/Board.tsx:29-42 | as written, the placeholder put on a vacated square has no moves and the given position, but its missing FEN letter makes it look occupied to the move highlighter |
| WebApplicationBoard.EmptyPiece | web-application/src/Board/Board.tsx:29-42 | the corrected placeholder has the given position and no moves, and looks empty |
| WebApplicationBoard.FirstTo | web-application/src/Board/Board.tsx:55-57 | the index of the first move to the square, or none exactly when no move goes there |
| WebApplicationBoard.PieceSelected | web-application/src/Board/Board.tsx:76-95 | selection keeps the board and its generation and leaves the page ready |
| WebApplicationBoard.PromotionAsked | web-application/src/Board/Board.tsx:134-136 | a promotion move is sent as a white queen promotion; nothing else about the move changes |
| WebApplicationBoard.BoardPage.constructor | web-application/src/Board/Board.tsx:60-74 | nothing selected, not waiting, no AI answer, an empty board with White to move, no marks |
| WebApplicationBoard.BoardPage.TogglePieceAvailableMoves | web-application/src/Board/Board.tsx:97-117 | the page becomes the toggled-marks state: each target cell toggles its receptor class and its piece button's disabled class |
| WebApplicationBoard.BoardPage.OnPieceSelect | web-application/src/Board/Board.tsx:76-95 | the page becomes the piece-selected state of its old state |
| WebApplicationBoard.BoardPage.OnMovePiece | web-application/src/Board/Board.tsx:119-165 | the page, the posted move and the capture sound are the move-click result of the old state, whose optimistic board holds the corrected empty placeholder with the empty-square FEN text on the vacated origin, where the source's `get_empty_piece` has `fen: null` (see Findings) |
| WebApplicationBoard.BoardPage.OnMoveAnswer | web-application/src/Board/Board.tsx:194-209 | the answered board replaces the board; an error answer keeps it and clears the waiting flag |
| WebApplicationBoard.BoardPage.GetAiMove | web-application/src/Board/Board.tsx:176-178 | asking for the AI's move sets the waiting flag |
| WebApplicationBoard.BoardPage.OnAiMoveSettled | web-application/src/Board/Board.tsx:189-191 | when the request settles the waiting flag is cleared |
| WebApplicationBoard.BoardPage.OnAiBoardFetched | web-application/src/Board/Board.tsx:182-187 | the fetched board replaces the board and the AI's answer is kept; the sound follows the AI move's capture flag |
| WebApplicationBoard.BoardPage.LoadFen | web-application/src/Board/Board.tsx:211-228 | with no input field nothing is posted; otherwise the trimmed input is posted, or the initial position when it is blank |
| WebApplicationBoard.BoardPage.OnFenAnswer | web-application/src/Board/Board.tsx:229-236 | the answered board replaces the board and the last AI answer is cleared |
| WebApplicationBoard.BoardPage.OnBoardFetched | web-application/src/Board/Board.tsx:167-174 | the fetched board replaces the board object |
| WebApplicationBoard.ToggleMoveMarks | web-application/src/Board/Board.tsx:102-116 | the loop toggles the marks of every move, in order |
| WebApplicationBoard.OptimisticBoardMovesOnePiece | web-application/src/Board/Board.tsx:138-147 | the copied board puts the corrected empty placeholder (the empty-square FEN text, not the source's `fen: null`; see Findings) on the origin, the moved piece on the target, and leaves every other square and the side to move as they were |
| WebApplicationBoard.LegalClickPosts | web-application/src/Board/Board.tsx:119-165 | clicking a target of the selected piece posts the first move to it, clears the selection and shows the move at once on the optimistic board with the corrected empty placeholder (see Findings) |
| WebApplicationBoard.IllegalClickIgnored | web-application/src/Board/Board.tsx:119-131 | while waiting, with nothing selected, or on a cell the selected piece cannot reach, a click changes nothing and posts nothing |
| WebApplicationBoard.SelectTwiceRestores | web-application/src/Board/Board.tsx:76-95 | selecting a piece and then the same piece again gives back the page as it was |
| WebApplicationBoard.SelectIgnored | web-application/src/Board/Board.tsx:76-84 | while waiting for the AI, or for a piece of the side not to move, selection changes nothing |
| WebApplicationBoard.StaleSelectionSwitches | web-application/src/Board/Board.tsx:85-93 | after the board object is replaced, selecting the piece on the same square counts as selecting another piece, because the old object is not the new one |
| WebApplicationBoard.AiLockout | web-application/src/Board/Board.tsx:176-209 | while the AI is thinking, selection and clicks change nothing and settling the request unlocks the board; a failed move answer also unlocks it and keeps the optimistic board |
| WebApplicationBoard.VacatedSquareAsWritten | web-application/src/Board/Board.tsx:97-117 | as written, a move back to the vacated origin marks it as a capture and disables its button |
| WebApplicationBoard.VacatedSquareLooksEmpty | web-application/src/Board/Board.tsx:97-117 | with the corrected placeholder, the vacated origin is marked as an empty receptor only |
| WebCommon.TrimCutsSpacesOnly | web-application/src/Board/Board.tsx:221-222 | `trim` removes exactly the leading and trailing JavaScript white space and keeps the middle |
| WebCommon.TrimBlankIffAllSpaces | web-application/src/Board/Board.tsx:221 | the trimmed input is blank exactly when every character is white space |
| WebCommon.TrimIdempotent | web-application/src/Board/Board.tsx:221-222 | trimming twice is trimming once |
| WebCommon.FenToLoad | web-application/src/Board/Board.tsx:220-223 | the trimmed input, or the initial FEN when it is blank; `FenToLoadNeverBlank` proves the posted text never blank and without surrounding white space |
| WebCommon.FenToLoadNeverBlank | web-application/src/Board/Board.tsx:220-222 | the FEN posted is never blank and has no surrounding white space: the initial position for blank input, the trimmed input otherwise |
| WebCommon.InitialFenNotBlank | rust-mate-web/src/Board/constants.ts:3 | the initial position is a non-blank text without surrounding white space |
| WebCommon.LeadingSpaces | web-application/src/Board/Board.tsx:221 | the count of white-space characters that `trim` cuts from the start: all of them are white space and the next one is not |
| WebCommon.TrailingSpaces | web-application/src/Board/Board.tsx:221 | the count of white-space characters that `trim` cuts from the end: all of them are white space and the one before is not |
| WebCommon.Trim | web-application/src/Board/Board.tsx:221 | `String.prototype.trim`; `TrimCutsSpacesOnly`, `TrimBlankIffAllSpaces` and `TrimIdempotent` prove that it cuts exactly the white space at both ends |
| WebCommon.InitialFenEnds | rust-mate-web/src/Board/constants.ts:3 | the start position's record begins with Black's rook and ends with the move number 1 |
| WebCommon.ToggleFirstOrLast | web-application/src/Board/Board.tsx:102-116 | a toggle made before a run of toggles can equally be made after it |
| WebCommon.Toggle | web-application/src/Board/Board.tsx:109 | `classList.toggle` flips exactly one class |
| WebCommon.ToggleAllElsewhere | web-application/src/Board/Board.tsx:102-116 | a class not toggled by any move is left as it was |
| WebCommon.ToggleCommutes | web-application/src/Board/Board.tsx:102-116 | the order of two toggles does not matter |
| WebCommon.ToggleAllTwice | web-application/src/Board/Board.tsx:88-94 | toggling the same moves twice restores the classes, which is why selecting a piece twice clears its marks |
| BitZobrist.SquareKey | ai-engine/src/game_bit_board/zobrist/zobrist.rs:108-153 | the key of an empty square is nothing; otherwise it is the table entry of the square and the piece's column |
| BitZobrist.CaptureDelta | ai-engine/src/game_bit_board/zobrist/zobrist.rs:62-82 | a capture also removes the captured piece's key from the target |
| BitZobrist.NullMoveDelta | ai-engine/src/game_bit_board/zobrist/zobrist.rs:62-82 | moving a piece onto its own square only flips the side to move |
| BitZobrist.SquaresHashUpdate | ai-engine/src/game_bit_board/zobrist/zobrist.rs:108-153 | changing one square's piece changes the squares part of the hash by that square's old and new keys only |
| BitZobrist.KeyIf | ai-engine/src/game_bit_board/zobrist/zobrist.rs:108-153 | a held right or flag contributes its key, otherwise nothing |
| BitZobrist.MoveMatchesRecompute | ai-engine/src/game_bit_board/zobrist/zobrist.rs:62-153 | the incremental update after a quiet move or a capture equals the full recomputation of the new position |
| BitZobrist.StateHashFlipsSide | ai-engine/src/game_bit_board/zobrist/zobrist.rs:108-153 | flipping the side to move flips the side key in the hash |
| BitZobrist.RightsHashCommutes | ai-engine/src/game_bit_board/zobrist/zobrist.rs:108-153 | the castling and en passant keys can be XORed in any order |
| BitZobrist.Zobrist.constructor | ai-engine/src/game_bit_board/zobrist/zobrist.rs:27-58 | the keys are the given table and the hash starts empty |
| BitZobrist.Zobrist.UpdateHashOnMove | ai-engine/src/game_bit_board/zobrist/zobrist.rs:62-82 | the hash is XORed with the move's delta: the mover's keys on both squares, any captured piece's key, and the side key |
| BitZobrist.Zobrist.UpdateHashOnBlackEnPassantChange | ai-engine/src/game_bit_board/zobrist/zobrist.rs:84-86 | the hash is XORed with the black en passant key |
| BitZobrist.Zobrist.UpdateHashOnWhiteEnPassantChange | ai-engine/src/game_bit_board/zobrist/zobrist.rs:88-90 | the hash is XORed with the white en passant key |
| BitZobrist.Zobrist.UpdateHashOnBlackLoseKingSideCastle | ai-engine/src/game_bit_board/zobrist/zobrist.rs:92-94 | the hash is XORed with the black king-side castling key |
| BitZobrist.Zobrist.UpdateHashOnBlackLoseQueenSideCastle | ai-engine/src/game_bit_board/zobrist/zobrist.rs:96-98 | the hash is XORed with the black queen-side castling key |
| BitZobrist.Zobrist.UpdateHashOnWhiteLoseKingSideCastle | ai-engine/src/game_bit_board/zobrist/zobrist.rs:100-102 | the hash is XORed with the white king-side castling key |
| BitZobrist.Zobrist.UpdateHashOnWhiteLoseQueenSideCastle | ai-engine/src/game_bit_board/zobrist/zobrist.rs:104-106 | the hash is XORed with the white queen-side castling key |
| BitZobrist.Zobrist.StateKeys | ai-engine/src/game_bit_board/zobrist/zobrist.rs:110-122 | the loop over the state flags gives the side, castling and en passant part of the hash |
| BitZobrist.Zobrist.ComputeHash | ai-engine/src/game_bit_board/zobrist/zobrist.rs:108-153 | the hash becomes, and is returned as, the full hash of the position |
| BitZobrist.XorIf | ai-engine/src/game_bit_board/zobrist/zobrist.rs:110-122 | a conditional XOR adds the key exactly when the flag holds |
| BitZobrist.MoveTwiceRestores | ai-engine/src/game_bit_board/zobrist/zobrist.rs:62-82 | applying the same move update twice gives back the old hash |
| ZobristIndex.KindOffset | ai-engine/src/game_bit_board/zobrist/zobrist_utils.rs:8-20 | each piece kind has a column offset below 6 |
| ZobristIndex.PieceIndex | ai-engine/src/game_bit_board/zobrist/zobrist_utils.rs:22-44 | an empty piece gets the index 100; any real piece gets a column below 12, below 6 exactly for White |
| ZobristIndex.BlackIsWhitePlusSix | ai-engine/src/game_bit_board/zobrist/zobrist_utils.rs:8-44 | a black piece's column is its white counterpart's plus 6, and the white column is the kind's offset |
| ZobristIndex.PieceIndexInjective | ai-engine/src/game_bit_board/zobrist/zobrist_utils.rs:22-44 | two real pieces share a column only when colour and kind agree |
| ZobristIndex.PieceIndexOnto | ai-engine/src/game_bit_board/zobrist/zobrist_utils.rs:22-44 | every column below 12 belongs to some real piece |

## Left out

- BitboardText.SquareToAlgebraic: `requires (square / 8) % 256 <= 255 - '1'` stands in for the panic a debug build raises when `b'1' + rank` overflows `u8` (squares from 1656 up, after the `as u8` cast of `square / 8`); a release build wraps the byte, and the model does not capture that wrapped name.
- The FEN round trip (`BoardFen.PositionFenReadsBack`, `BoardFen.LoadOntoEmpty`) and the loaders built on `FenLoading.LoadEnPassant` use the corrected writer and en passant reader; for the code as written the trip fails for every White en passant square and every position with an empty h1 (see Findings).
- WebApplicationBoard.OptimisticBoardMovesOnePiece, `WebApplicationBoard.BoardPage.OnMovePiece` and `WebApplicationBoard.LegalClickPosts` place the corrected empty placeholder on the vacated origin; the source's placeholder with `fen: null` is modelled only by `EmptyPieceAsWritten` and `VacatedSquareAsWritten` (see Findings).
- Networking: the actix HTTP handlers and the Flask API. In the clients, every HTTP call is an event whose answer (ok or error) is a parameter.
- Concurrency: the rayon search, the move counter, and the global state behind a mutex.
- Floating point: the position tables, the evaluation, the end-game weight, and the worth added to each move in `get_sorted_moves`. Move worth is an integer key.
- Randomness: `Zobrist::new` in both engines and the magic search `find_magics`. Their keys and magic numbers are parameters, and the properties hold for every choice.
- Perft (`moves_counter.rs`): it depends on the move generator, undo and hash of the bitboard board, which are not part of this model.
- Printing, `Display`, size estimates (`estimated_size`, `estimated_memory_usage_kb`), and serde's `Serialize` output.
- DOM and effects: rendering, audio, `alert`, `console.error`, and `setAITime` in `web-application`, which only posts a number. The highlight classes are modelled as a set of (square, class) marks.
- The numeric values of `SquareOffset` come from code that is not part of this model. Only `is_diagonal_offset` is modelled.
- `is_the_same_diagonal` and `is_king_straight_attacked_by_sliding_piece` in `move_generator_helper.rs` are not modelled. The rest of that file is.
- The `attack_data.rs` unit tests are not replayed. Their outcomes depend on the bitboard move generator, which is not part of this model.
- `create_bishop_lookup_table` and `create_rook_lookup_table` are thin wrappers and are not modelled separately. What they compute is `Magics.FillMagicsLookupTable`.
- MailboxBoardState.BoardState.PlacePiece: `requires IsValidPosition`, where the source panics on an index outside the array.
- MailboxBoardState.BoardState.MovePiece: the same requirement stands in for the same panic; it also applies to `Relocate` and `UpdateHashOnMove`.
- MailboxGame.MakeMove: `EnPassantSafe` stands in for the panic when the victim square of an en passant capture is off the board.
- FenLoading.LoadPosition: `Loadable`, `RowFits` and `EnPassantFits` exclude FEN text on which `to_digit` or an index panics. Non-ASCII digits are read as letters.
- MailboxBoardState.BoardState.LoadPosition: the same `Loadable` requirement stands in for the same panics.
- TranspositionTables.TranspositionTable.Retrieve: `requires hits < U64_MAX`, where a debug build panics on the overflowing hit counter.
- MoveHelpers.IsPathClear: `Reaches` excludes the inputs where the source loops without end or overflows its `i8` counter.
- MoveHelpers.GetAdjacentPosition: its `i8` bounds stand in for the arithmetic overflow panic of a debug build.
- MoveHelpers.GetLineDistanceBetweenPositions: the same holds for its `i8` bounds.
- PieceMoves.SumToMoveWorth: wraps at 32 bits, as a release build does. A debug build panics instead.
- TranspositionTables.TranspositionTable.Store: `Entry.value` is an `f32` in the source and an integer here.
- Bitwise.PopLsb: requires a non-empty word. On an empty word the source's `trailing_zeros` gives 64 and the shift panics.
- DiscoveredCheck.IsEnPassantDiscoveredCheck: `requires kingSquare < 64`. The king square is always a real square in the source.
- DiscoveredCheck.DiscoveredCheckSound: stated only for a king that is not on the first rank. A king on the first rank is not covered by this lemma.
- DiscoveredCheck.IsEnPassantDiscoveredCheck: keeps the source as written, without a correction. It uses the closest-square search as written (`ClosestIn`). Off the first rank the search picks the highest rook and the highest queen of the king's rank (`ClosestInHighest`), so a lower rook or queen that the capture exposes is missed (`ExposedLowRookMissed`). On the first rank a square replaces the answer only when its distance to the king is below the answer's index, and a piece on a1 is popped first and never replaced: with the king on e1 and rooks on a1 and h1 the search keeps a1 (`FirstRankKeepsCorner`). A queen picked on square 0 is never looked at (`CornerQueenIgnored`).
- BitBoard.Board.GetPieceTypeFromPosition: returns `None` where the source panics on a square no kind occupies.
- MoveGenUtils.SquaresBetween: its own ensures covers only equal and adjacent squares and symmetry. Full membership is proved in `SquaresBetweenMembers`.
- MoveTables.SliderEntriesMatchGenerator: checks sample squares only. The full 64-square comparison is beyond the solver's budget. The leaper and pawn tables are compared on all 64 squares.
- PieceMoves.DeserializeRejectsUnknown: the JSON map access is idealised as a list of key and value pairs. An unknown key fails the whole read, because the `_ => {}` arm never consumes the value.
- LegacyBitwise.ToBitboardPosition: `requires position < 64`. The source shifts `1 << position` on a `u64`, which panics in a debug build (and masks the shift in a release build) from 64 up.
- LegacyBitwise.ToDecimalPosition: `requires position < 64`, for the same shift-overflow panic of `1 >> position`.
- BitBoard.Board.PlacePiece: `requires pieceType != Empty`. For `Empty`, `get_piece_type_index` (board_utils.rs:52) gives `usize::MAX` and indexing the eight words with it panics.
- BitBoard.Board.RemovePiece: the same `Empty` requirement stands in for the same panic.
- BitBoard.Board.MovePiece: the same `Empty` requirement stands in for the same panic.
- BitZobrist.Zobrist.UpdateHashOnMove: `requires moved != Empty`. For `Empty`, `get_piece_index` gives column 100 and indexing a key row of 12 with it panics.
- MailboxZobrist.Zobrist: the array engine's `get_piece_index` lives in `game/zobrist_utils.rs`, which is not part of this model. It is the parameter `pieceIndex`, and the hash properties hold for every choice of it that keeps the columns it is asked for inside a key row (`Column`, `Hashable`).
- FenPieces.GetFenPieceValue: tests and folds letter case for ASCII only. Rust's `is_uppercase` and `to_lowercase` are Unicode: U+212A (Kelvin sign) gives a white king (18) in the source and 8 here, and 'É' gives 16 in the source and 8 here.
- FenPieces.ToLower: folds ASCII letters only, for the same reason.
- FenPieces.UnknownLetter: holds for the ASCII case folding of the model; with Unicode case folding some non-ASCII letters map onto piece letters.
- FenLoading.LoadPosition: reads piece letters with the ASCII case folding of `GetFenPieceValue`, so a non-ASCII letter in the piece field is read as an empty square of one colour code rather than as the source's piece.
- AttackData.Initial: `requires` exactly one king of the side to move. The source takes the lowest king square when there are several, and `pop_lsb` fails on a board with none; the passes and their lemmas are stated only for one king.
- MoveTables.RookRelevantAt: the literal `ROOK_RELEVANT_SQUARES` table is not proved equal, square by square, to the generator's mask (`RelevantSquares.RookMask`); that comparison is beyond the solver's budget in this model. The shift lemmas of `MagicShifts` are stated against the table entries.
- MoveTables.BishopRelevantAt: the same holds for `BISHOP_RELEVANT_SQUARES` and `RelevantSquares.BishopMask`.

## Findings

| source | as written | input that shows it | evidently intended | confidence | as-written member | corrected member |
|---|---|---|---|---|---|---|
| ai-engine/src/game_bit_board/move_generator/utils.rs:133-147 | `get_closest_square` compares the distance of each candidate with the best square's index, not with the best distance | base 25, pieces on 24 and 31: returns 31 although 24 is one square away | return the nearest set square | high, not executed | MoveGenUtils.ClosestAsWrittenMissesNearest | MoveGenUtils.ClosestSquareIsNearest |
| ai-engine/src/game/board_state.rs:193-220 | `load_en_passant` puts White's en passant target on row 4 from the top | FEN field "e3" gives square 28, which the engine names "e5"; the square named "e3" is 44 | read the named square back (row 6 for White) | high, not executed | FenLoading.EnPassantAsWrittenMisplaces | FenLoading.LoadEnPassantReadsNotation |
| ai-engine/src/game/board_fen_utils.rs:42-65 | `get_pieces_fen` writes a pending run of empty squares only when a piece or a rank end follows, never after the last square | a lone black king on a8 gives "k7/8/8/8/8/8/8/" | "k7/8/8/8/8/8/8/8", which the loader reads back | high, not executed | BoardFen.TrailingRunLost | BoardFen.PiecesFenReadsBack |
| ai-engine/src/ai/ai_utils.rs:379-417 | `is_blocked_pawn` steps Black's diagonal probes the wrong way while keeping White's edge tests: an a-file black pawn probes the h-file square of its own row, an h-file black pawn probes the a-file square two rows ahead, and black pawns on the other files probe the right two squares | a black pawn on a7 blocked by a white pawn on a6 probes h7 instead of b6; one on h7 blocked on h6 probes a5 instead of g6 | probe the two squares diagonally ahead | medium, not executed | PawnStructure.BlockedAsWrittenProbesTwoRowsAhead | PawnStructure.BlockedIffNoCapture |
| web-application/src/Board/Board.tsx:29-42 | the placeholder left on a vacated square has `fen: null`, not the empty-square text, so the highlighter treats it as a piece | move a piece, then select a piece that can move back to the vacated square: the square is marked `capture-receptor` and a `disabled` class is toggled on it | mark the vacated square `empty-receptor` | medium, not executed | WebApplicationBoard.VacatedSquareAsWritten | WebApplicationBoard.VacatedSquareLooksEmpty |
