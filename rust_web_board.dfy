// `rust-mate-web/src/Board/Board.tsx`: the board page of the first web
// client. Its React state cells (selected square, last move, waiting flag,
// last AI answer, board) are the fields of a class, the classes its handlers
// toggle on the cells are a set of marks, and each handler is a method
// proved against a function on the page's state. HTTP calls are outputs
// (what is posted) and inputs (the answer, as a separate event).
module RustMateWebBoard {
  import opened Wrappers
  import opened WebCommon

  const INVALID_POSITION: int := -1

  /** The text of an empty square's piece. */
  const EMPTY_FEN: string := "."

  /** `TPieceType.Empty`. */
  const EMPTY_TYPE: int := 0

  datatype Color = Black | White

  /** A move as this client receives it: flag bits and the two squares. */
  datatype WebMove = WebMove(flags: bv32, from: int, to: int)

  /** A square's piece as this client receives it. */
  datatype WebPiece = WebPiece(color: Color, position: int, moves: seq<WebMove>, kind: int, fen: string)

  /** The board as the engine sends it, the parts the handlers read. */
  datatype WebBoard = WebBoard(pieces: seq<WebPiece>, siteToMove: Color)

  /** The engine's answer to an AI move request. */
  datatype AiResponse = AiResponse(depth: int, duration: int, evaluation: int, aiMove: WebMove)

  /** Sixty-four squares whose moves all end on the board: the handlers index by both. */
  predicate Indexable(b: WebBoard)
  {
    |b.pieces| == 64
    && forall p, k :: 0 <= p < 64 && 0 <= k < |b.pieces[p].moves| ==> 0 <= b.pieces[p].moves[k].to < 64
  }

  /** `getPieceMove` (lines 29-31): the first move ending at the position. */
  function GetPieceMove(moves: seq<WebMove>, position: int): (r: Option<WebMove>)
    ensures r.Some? ==> r.value in moves && r.value.to == position
    ensures r.None? <==> forall i :: 0 <= i < |moves| ==> moves[i].to != position
  {
    if |moves| == 0 then None
    else if moves[0].to == position then Some(moves[0])
    else GetPieceMove(moves[1..], position)
  }

  /** The move found is the first one ending at the position. */
  lemma {:induction false} GetPieceMoveFindsFirst(moves: seq<WebMove>, position: int, i: nat)
    requires i < |moves| && moves[i].to == position
    requires forall j :: 0 <= j < i ==> moves[j].to != position
    ensures GetPieceMove(moves, position) == Some(moves[i])
  {
    if i > 0 {
      GetPieceMoveFindsFirst(moves[1..], position, i - 1);
    }
  }

  // ---------------------------------------------------------------- highlights

  /**
   * Lines 79-95: the marks one move toggles: the target cell's receptor
   * class (capture when a piece stands there), and `disabled` on the piece
   * button the cell shows when its square is not empty.
   */
  function MoveMarks(b: WebBoard, move: WebMove): (marks: seq<Mark>)
    requires Indexable(b) && 0 <= move.to < 64
  {
    var target := b.pieces[move.to];
    [(move.to, if target.kind != EMPTY_TYPE then CaptureReceptor else EmptyReceptor)]
    + (if target.fen != EMPTY_FEN then [(move.to, Disabled)] else [])
  }

  /** The marks a list of moves toggles, in order. */
  function MovesMarks(b: WebBoard, moves: seq<WebMove>): (marks: seq<Mark>)
    requires Indexable(b) && forall k :: 0 <= k < |moves| ==> 0 <= moves[k].to < 64
  {
    if |moves| == 0 then [] else MovesMarks(b, moves[..|moves| - 1]) + MoveMarks(b, moves[|moves| - 1])
  }

  /** Every toggled mark sits on the target of one of the moves. */
  lemma {:induction false} MarksOnTargets(b: WebBoard, moves: seq<WebMove>, m: Mark)
    requires Indexable(b) && forall k :: 0 <= k < |moves| ==> 0 <= moves[k].to < 64
    requires m in MovesMarks(b, moves)
    ensures exists k :: 0 <= k < |moves| && moves[k].to == m.0
  {
    var init := moves[..|moves| - 1];
    if m in MovesMarks(b, init) {
      MarksOnTargets(b, init, m);
      var k :| 0 <= k < |init| && init[k].to == m.0;
      assert moves[k] == init[k];
    } else {
      assert moves[|moves| - 1].to == m.0;
    }
  }

  /** The page's state: the React cells and the classes on the cells. */
  datatype View = View(
    selectedPiecePos: int,
    lastMovePos: int,
    isWaitingForAI: bool,
    lastAIResponse: Option<AiResponse>,
    board: WebBoard,
    classes: set<Mark>)

  /** A square is selected or none is. */
  predicate SelectionOk(v: View)
  {
    v.selectedPiecePos == INVALID_POSITION || 0 <= v.selectedPiecePos < 64
  }

  /** Lines 74-96: the highlights of the moves of the piece at `position` switched, unless waiting. */
  function ToggledMoves(v: View, position: int): (r: View)
    requires Indexable(v.board) && 0 <= position < 64
  {
    if v.isWaitingForAI then v
    else v.(classes := ToggleAll(v.classes, MovesMarks(v.board, v.board.pieces[position].moves)))
  }

  /**
   * Lines 52-72: a click on a piece. Ignored while waiting or when the piece
   * is not of the side to move; the selected piece is deselected; another
   * piece is selected, switching the old highlights off first.
   */
  function PieceSelected(v: View, piece: WebPiece): (r: View)
    requires Indexable(v.board) && SelectionOk(v) && 0 <= piece.position < 64
  {
    if v.isWaitingForAI || v.board.siteToMove != piece.color then v
    else if v.selectedPiecePos == piece.position then
      ToggledMoves(v.(selectedPiecePos := INVALID_POSITION), piece.position)
    else
      var cleared := if v.selectedPiecePos != INVALID_POSITION then ToggledMoves(v, v.selectedPiecePos) else v;
      ToggledMoves(cleared.(selectedPiecePos := piece.position), piece.position)
  }

  /** Line 124: the move's flags carry the capture bit. */
  predicate IsCapture(move: WebMove, captureFlag: bv32)
  {
    move.flags & captureFlag != 0
  }

  /** What a click on a cell leads to: the new state, the move posted, and whether the capture sound plays. */
  datatype Click = Click(view: View, posted: Option<WebMove>, captureSound: bool)

  /**
   * Lines 98-130: a click on a cell. Without a selection, or when no move of
   * the selected piece ends there, nothing happens. Otherwise the selection
   * is cleared, the piece's button enabled and its highlights switched off,
   * the move posted with its sound, and its origin remembered.
   */
  function MoveClicked(v: View, cellPosition: int, captureFlag: bv32): (r: Click)
    requires Indexable(v.board) && SelectionOk(v)
  {
    if v.selectedPiecePos == INVALID_POSITION then Click(v, None, false)
    else
      match GetPieceMove(v.board.pieces[v.selectedPiecePos].moves, cellPosition)
      case None => Click(v, None, false)
      case Some(move) =>
        var selected := v.selectedPiecePos;
        var enabled := v.(selectedPiecePos := INVALID_POSITION, classes := v.classes - {(selected, Disabled)});
        Click(ToggledMoves(enabled, selected).(lastMovePos := move.from), Some(move), IsCapture(move, captureFlag))
  }

  /** Lines 141-150: the answer to a posted move; a failure only logs. */
  function MoveAnswered(v: View, response: Option<WebBoard>): (r: View)
  {
    match response
    case Some(data) => v.(board := data)
    case None => v
  }

  /** Lines 165-177: the answer to a posted FEN; the last AI answer is forgotten. */
  function FenAnswered(v: View, data: WebBoard): (r: View)
  {
    v.(board := data, lastAIResponse := None)
  }

  /** The page's state in place: one field per React state cell, plus the cells' classes. */
  class BoardPage {
    var selectedPiecePos: int
    var lastMovePos: int
    var isWaitingForAI: bool
    var lastAIResponse: Option<AiResponse>
    var board: WebBoard
    var classes: set<Mark>
    /** The `CAPTURE` bit of a move's flags. */
    const captureFlag: bv32

    function Clone(): (v: View)
      reads this
    {
      View(selectedPiecePos, lastMovePos, isWaitingForAI, lastAIResponse, board, classes)
    }

    /** Lines 34-50: nothing selected, not waiting, an empty board with White to move. */
    constructor(captureFlag: bv32)
      ensures Clone() == View(INVALID_POSITION, INVALID_POSITION, false, None, WebBoard([], White), {})
      ensures this.captureFlag == captureFlag
    {
      selectedPiecePos := INVALID_POSITION;
      lastMovePos := INVALID_POSITION;
      isWaitingForAI := false;
      lastAIResponse := None;
      board := WebBoard([], White);
      classes := {};
      this.captureFlag := captureFlag;
    }

    /** Lines 74-96: the highlights of the piece's moves switched, unless waiting. */
    method TogglePieceAvailableMoves(position: int)
      requires Indexable(board) && 0 <= position < 64
      modifies this
      ensures Clone() == ToggledMoves(old(Clone()), position)
    {
      if isWaitingForAI {
        return;
      }
      classes := ToggleMoveMarks(board, board.pieces[position].moves, classes);
    }

    method OnPieceSelect(piece: WebPiece)
      requires Indexable(board) && SelectionOk(Clone()) && 0 <= piece.position < 64
      modifies this
      ensures Clone() == PieceSelected(old(Clone()), piece)
    {
      if isWaitingForAI {
        return;
      }
      if board.siteToMove != piece.color {
        return;
      }
      if selectedPiecePos == piece.position {
        selectedPiecePos := INVALID_POSITION;
      } else {
        if selectedPiecePos != INVALID_POSITION {
          TogglePieceAvailableMoves(selectedPiecePos);
        }
        selectedPiecePos := piece.position;
      }
      TogglePieceAvailableMoves(piece.position);
    }

    method OnMovePiece(cellPosition: int) returns (posted: Option<WebMove>, captureSound: bool)
      requires Indexable(board) && SelectionOk(Clone())
      modifies this
      ensures Click(Clone(), posted, captureSound) == MoveClicked(old(Clone()), cellPosition, captureFlag)
    {
      posted, captureSound := None, false;
      if selectedPiecePos == INVALID_POSITION {
        return;
      }
      var move := GetPieceMove(board.pieces[selectedPiecePos].moves, cellPosition);
      if move.None? {
        return;
      }
      var selected := selectedPiecePos;
      selectedPiecePos := INVALID_POSITION;
      classes := classes - {(selected, Disabled)};
      captureSound := IsCapture(move.value, captureFlag);
      TogglePieceAvailableMoves(selected);
      posted := move;
      lastMovePos := move.value.from;
    }

    /** The answer to the move post: `Some` board on success, `None` on failure. */
    method OnMoveAnswer(response: Option<WebBoard>)
      modifies this
      ensures Clone() == MoveAnswered(old(Clone()), response)
    {
      if response.Some? {
        board := response.value;
      }
    }

    /** Lines 152-163: the FEN posted, none when the input element is missing; the state is untouched. */
    method LoadFen(input: Option<string>) returns (fen: Option<string>)
      ensures input.None? ==> fen.None?
      ensures input.Some? ==> fen == Some(FenToLoad(input.value))
    {
      if input.None? {
        return None;
      }
      var value := INITIAL_FEN;
      if Trim(input.value) != "" {
        value := Trim(input.value);
      }
      fen := Some(value);
    }

    method OnFenAnswer(data: WebBoard)
      modifies this
      ensures Clone() == FenAnswered(old(Clone()), data)
    {
      board := data;
      lastAIResponse := None;
    }

    /** Lines 132-139: the board fetched when the page opens. */
    method OnBoardFetched(data: WebBoard)
      modifies this
      ensures Clone() == old(Clone()).(board := data)
    {
      board := data;
    }
  }

  /** The `forEach` of lines 79-95: each move's marks toggled in turn. */
  method ToggleMoveMarks(b: WebBoard, moves: seq<WebMove>, classes: set<Mark>) returns (toggled: set<Mark>)
    requires Indexable(b) && forall k :: 0 <= k < |moves| ==> 0 <= moves[k].to < 64
    ensures toggled == ToggleAll(classes, MovesMarks(b, moves))
  {
    toggled := classes;
    for i := 0 to |moves|
      invariant forall k :: 0 <= k < i ==> moves[..i][k] == moves[k]
      invariant toggled == ToggleAll(classes, MovesMarks(b, moves[..i]))
    {
      var toPosition := moves[i].to;
      var capturedPiece := b.pieces[toPosition];
      var className := if capturedPiece.kind != EMPTY_TYPE then CaptureReceptor else EmptyReceptor;
      toggled := Toggle(toggled, (toPosition, className));
      if capturedPiece.fen != EMPTY_FEN {
        toggled := Toggle(toggled, (toPosition, Disabled));
      }
      assert moves[..i + 1][..i] == moves[..i];
      ToggleTwoMarks(classes, MovesMarks(b, moves[..i]), MoveMarks(b, moves[i]));
    }
    assert moves[..|moves|] == moves;
  }

  /** One loop step: toggling the marks of one more move one by one. */
  lemma ToggleTwoMarks(marks: set<Mark>, done: seq<Mark>, next: seq<Mark>)
    requires 1 <= |next| <= 2
    ensures ToggleAll(marks, done + next)
            == if |next| == 1 then Toggle(ToggleAll(marks, done), next[0])
               else Toggle(Toggle(ToggleAll(marks, done), next[0]), next[1])
  {
    var all := done + next;
    assert all[..|all| - 1] == done + next[..|next| - 1];
    if |next| == 2 {
      assert (done + next[..1])[..|done|] == done;
    }
  }

  // ---------------------------------------------------------------- properties

  /**
   * Clicking a piece of the side to move twice, with nothing selected
   * before, leaves the page as it was: the highlights switched on by the
   * first click are switched off by the second.
   */
  lemma SelectTwiceRestores(v: View, piece: WebPiece)
    requires Indexable(v.board) && 0 <= piece.position < 64
    requires v.selectedPiecePos == INVALID_POSITION && !v.isWaitingForAI && v.board.siteToMove == piece.color
    ensures PieceSelected(PieceSelected(v, piece), piece) == v
  {
    var marks := MovesMarks(v.board, v.board.pieces[piece.position].moves);
    ToggleAllTwice(v.classes, marks);
  }

  /**
   * Clicking another piece of the side to move moves the selection to it,
   * with the old piece's highlights switched before the new one's.
   */
  lemma SelectOtherSwitches(v: View, piece: WebPiece)
    requires Indexable(v.board) && SelectionOk(v) && 0 <= piece.position < 64
    requires !v.isWaitingForAI && v.board.siteToMove == piece.color
    requires v.selectedPiecePos != INVALID_POSITION && v.selectedPiecePos != piece.position
    ensures PieceSelected(v, piece).selectedPiecePos == piece.position
    ensures PieceSelected(v, piece).classes
            == ToggleAll(ToggleAll(v.classes, MovesMarks(v.board, v.board.pieces[v.selectedPiecePos].moves)),
                         MovesMarks(v.board, v.board.pieces[piece.position].moves))
  {
  }

  /** While waiting for the engine, or for a piece of the other side, a click on a piece changes nothing. */
  lemma SelectIgnored(v: View, piece: WebPiece)
    requires Indexable(v.board) && SelectionOk(v) && 0 <= piece.position < 64
    requires v.isWaitingForAI || v.board.siteToMove != piece.color
    ensures PieceSelected(v, piece) == v
  {
  }

  /** A click changes classes only on the squares the clicked and the previously selected piece can reach. */
  lemma SelectTouchesTargetsOnly(v: View, piece: WebPiece, m: Mark)
    requires Indexable(v.board) && SelectionOk(v) && 0 <= piece.position < 64
    requires forall k :: 0 <= k < |v.board.pieces[piece.position].moves| ==> v.board.pieces[piece.position].moves[k].to != m.0
    requires v.selectedPiecePos != INVALID_POSITION ==>
               forall k :: 0 <= k < |v.board.pieces[v.selectedPiecePos].moves| ==> v.board.pieces[v.selectedPiecePos].moves[k].to != m.0
    ensures m in PieceSelected(v, piece).classes <==> m in v.classes
  {
    var own := v.board.pieces[piece.position].moves;
    if m in MovesMarks(v.board, own) {
      MarksOnTargets(v.board, own, m);
    }
    ToggleAllElsewhere(v.classes, MovesMarks(v.board, own), m);
    if v.selectedPiecePos != INVALID_POSITION {
      var previous := v.board.pieces[v.selectedPiecePos].moves;
      if m in MovesMarks(v.board, previous) {
        MarksOnTargets(v.board, previous, m);
      }
      var cleared := ToggleAll(v.classes, MovesMarks(v.board, previous));
      ToggleAllElsewhere(v.classes, MovesMarks(v.board, previous), m);
      ToggleAllElsewhere(cleared, MovesMarks(v.board, own), m);
    }
  }

  /**
   * A click on a cell that the selected piece can move to clears the
   * selection, posts the first such move, remembers its origin, and plays
   * the capture sound exactly when the move's flags carry the capture bit.
   */
  lemma LegalClickPosts(v: View, cellPosition: int, captureFlag: bv32, i: nat)
    requires Indexable(v.board) && SelectionOk(v) && v.selectedPiecePos != INVALID_POSITION
    requires i < |v.board.pieces[v.selectedPiecePos].moves|
    requires v.board.pieces[v.selectedPiecePos].moves[i].to == cellPosition
    requires forall j :: 0 <= j < i ==> v.board.pieces[v.selectedPiecePos].moves[j].to != cellPosition
    ensures MoveClicked(v, cellPosition, captureFlag).posted == Some(v.board.pieces[v.selectedPiecePos].moves[i])
    ensures MoveClicked(v, cellPosition, captureFlag).view.selectedPiecePos == INVALID_POSITION
    ensures MoveClicked(v, cellPosition, captureFlag).view.lastMovePos == v.board.pieces[v.selectedPiecePos].moves[i].from
    ensures MoveClicked(v, cellPosition, captureFlag).view.board == v.board
    ensures MoveClicked(v, cellPosition, captureFlag).captureSound
            <==> IsCapture(v.board.pieces[v.selectedPiecePos].moves[i], captureFlag)
  {
    GetPieceMoveFindsFirst(v.board.pieces[v.selectedPiecePos].moves, cellPosition, i);
  }

  /** A click with nothing selected, or on a cell no move of the selected piece reaches, changes nothing. */
  lemma IllegalClickIgnored(v: View, cellPosition: int, captureFlag: bv32)
    requires Indexable(v.board) && SelectionOk(v)
    requires v.selectedPiecePos != INVALID_POSITION ==>
               forall k :: 0 <= k < |v.board.pieces[v.selectedPiecePos].moves| ==> v.board.pieces[v.selectedPiecePos].moves[k].to != cellPosition
    ensures MoveClicked(v, cellPosition, captureFlag) == Click(v, None, false)
  {
  }


  /** A successful post replaces the board wholesale; a failed one leaves the page as it was. */
  lemma MoveAnswerReplacesOrKeeps(v: View, response: Option<WebBoard>)
    ensures response.Some? ==> MoveAnswered(v, response) == v.(board := response.value)
    ensures response.None? ==> MoveAnswered(v, response) == v
  {
  }

  // ---------------------------------------------------------------- cells

  /** Lines 212-215: the square shown at a row and column of the grid. */
  function CellPosition(row: int, column: int): (position: int)
  {
    row * 8 + (7 - column)
  }

  /** The row and column a square is shown at. */
  function CellOf(position: int): (cell: (int, int))
  {
    (position / 8, 7 - position % 8)
  }

  /** The grid's 64 cells show the 64 squares, each exactly once. */
  lemma CellPositionBijective(row: int, column: int, position: int)
    ensures 0 <= row < 8 && 0 <= column < 8 ==>
              0 <= CellPosition(row, column) < 64 && CellOf(CellPosition(row, column)) == (row, column)
    ensures 0 <= position < 64 ==>
              0 <= CellOf(position).0 < 8 && 0 <= CellOf(position).1 < 8
              && CellPosition(CellOf(position).0, CellOf(position).1) == position
  {
  }
}
