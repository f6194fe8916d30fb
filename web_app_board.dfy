// `web-application/src/Board/Board.tsx`: the board page of the second web
// client. Besides selecting and moving like the first client, it updates a
// deep copy of the board at once when a move is made (before the engine
// answers), asks the engine for its move while locking the board, and
// identifies the selected piece by object identity. Object identity is
// modelled by a generation number that grows whenever the board object is
// replaced, plus the square index the piece was rendered at.
module WebApplicationBoard {
  import opened Wrappers
  import opened WebCommon
  import opened PieceMoves

  /** The text of an empty square's piece. */
  const EMPTY_FEN: string := "."

  /** `TPieceColor.White | TPieceType.Queen`, the promotion the client always asks for. */
  const WHITE_QUEEN: int := 21

  /** A square's piece as this client receives it; `fen` may be `null`. */
  datatype WebPiece = WebPiece(fen: Option<string>, moves: seq<PieceMove>, position: int, value: int, white: bool)

  /** The board as the engine sends it, the parts the handlers read. */
  datatype WebBoard = WebBoard(pieces: seq<WebPiece>, whiteMove: bool)

  /** The engine's answer to an AI move request. */
  datatype AiResponse = AiResponse(depth: int, duration: int, evaluation: int, aiMove: PieceMove)

  /** A square whose cell shows a piece button: anything but the empty-square text (line 313). */
  predicate ShowsPiece(piece: WebPiece)
  {
    piece.fen != Some(EMPTY_FEN)
  }

  /**
   * Lines 37-42 as written: the piece left on a vacated square, with a
   * `null` text, which the cell then takes for a piece.
   */
  function EmptyPieceAsWritten(position: int): (piece: WebPiece)
    ensures piece.position == position && piece.moves == []
    ensures ShowsPiece(piece)
  {
    WebPiece(None, [], position, 0, false)
  }

  /** The piece left on a vacated square, with the empty-square text the cells test for. */
  function EmptyPiece(position: int): (piece: WebPiece)
    ensures piece.position == position && piece.moves == []
    ensures !ShowsPiece(piece)
  {
    WebPiece(Some(EMPTY_FEN), [], position, 0, false)
  }

  /** Every move of the list ends on the board. */
  predicate OnBoard(moves: seq<PieceMove>)
  {
    forall k :: 0 <= k < |moves| ==> 0 <= moves[k].toPosition < 64
  }

  /** Sixty-four pieces with positions and move targets on the board: the handlers index by all three. */
  predicate Indexable(b: WebBoard)
  {
    |b.pieces| == 64 && forall p :: 0 <= p < 64 ==> 0 <= b.pieces[p].position < 64 && OnBoard(b.pieces[p].moves)
  }

  /** The index of the first move ending at the position (`find` of line 56). */
  function FirstTo(moves: seq<PieceMove>, position: int): (r: Option<nat>)
    ensures r.Some? ==> r.value < |moves| && moves[r.value].toPosition == position
                        && forall j :: 0 <= j < r.value ==> moves[j].toPosition != position
    ensures r.None? <==> forall j :: 0 <= j < |moves| ==> moves[j].toPosition != position
  {
    if |moves| == 0 then None
    else if moves[0].toPosition == position then Some(0)
    else match FirstTo(moves[1..], position)
      case None => None
      case Some(i) => Some(i + 1)
  }

  // ---------------------------------------------------------------- highlights

  /**
   * Lines 102-116: the marks one move toggles: the target cell's receptor
   * class (capture when the square shows a piece), and `disabled` on that
   * piece's button.
   */
  function MoveMarks(b: WebBoard, move: PieceMove): (marks: seq<Mark>)
    requires |b.pieces| == 64 && 0 <= move.toPosition < 64
  {
    var target := b.pieces[move.toPosition];
    [(move.toPosition, if ShowsPiece(target) then CaptureReceptor else EmptyReceptor)]
    + (if ShowsPiece(target) then [(move.toPosition, Disabled)] else [])
  }

  /** The marks a list of moves toggles, in order. */
  function MovesMarks(b: WebBoard, moves: seq<PieceMove>): (marks: seq<Mark>)
    requires |b.pieces| == 64 && OnBoard(moves)
  {
    if |moves| == 0 then [] else MovesMarks(b, moves[..|moves| - 1]) + MoveMarks(b, moves[|moves| - 1])
  }

  /** The selected piece: the board generation and the square it was clicked on, and the piece itself. */
  datatype Selected = Selected(generation: nat, slot: int, piece: WebPiece)

  /** The page's state: the React cells, the board's generation, and the classes on the cells. */
  datatype View = View(
    selectedPiece: Option<Selected>,
    generation: nat,
    isWaitingForAI: bool,
    lastAIResponse: Option<AiResponse>,
    board: WebBoard,
    classes: set<Mark>)

  /** The selected piece, if any, sits on a square and moves to squares. */
  predicate SelectionOk(v: View)
  {
    v.selectedPiece.Some? ==>
      0 <= v.selectedPiece.value.piece.position < 64 && OnBoard(v.selectedPiece.value.piece.moves)
  }

  /** The handlers' common demand: an indexable board and a usable selection. */
  predicate Ready(v: View)
  {
    Indexable(v.board) && SelectionOk(v)
  }

  /** Lines 97-117: the highlights of a piece's moves switched, unless waiting. */
  function ToggledMoves(v: View, piece: WebPiece): (r: View)
    requires |v.board.pieces| == 64 && OnBoard(piece.moves)
  {
    if v.isWaitingForAI then v
    else v.(classes := ToggleAll(v.classes, MovesMarks(v.board, piece.moves)))
  }

  /** The clicked piece is the selected object: same board object, same square. */
  predicate IsSelected(v: View, slot: int)
  {
    v.selectedPiece.Some? && v.selectedPiece.value.generation == v.generation && v.selectedPiece.value.slot == slot
  }

  /**
   * Lines 76-95: a click on the piece of square `slot`. Ignored while waiting
   * or for a piece of the other side; the selected piece is deselected;
   * another piece is selected, switching the old highlights off first.
   */
  function PieceSelected(v: View, slot: int): (r: View)
    requires Ready(v) && 0 <= slot < 64
    ensures Ready(r) && r.board == v.board && r.generation == v.generation
  {
    var piece := v.board.pieces[slot];
    if v.isWaitingForAI || v.board.whiteMove != piece.white then v
    else if IsSelected(v, slot) then ToggledMoves(v.(selectedPiece := None), piece)
    else
      var cleared := if v.selectedPiece.Some? then ToggledMoves(v, v.selectedPiece.value.piece) else v;
      ToggledMoves(cleared.(selectedPiece := Some(Selected(v.generation, slot, piece))), piece)
  }

  /** Lines 134-136: promotions ask for a White queen, whatever the mover's colour. */
  function PromotionAsked(move: PieceMove): (r: PieceMove)
    ensures r.promotion ==> r.promotionType == WHITE_QUEEN
    ensures r.(promotionType := move.promotionType) == move
  {
    if move.promotion then move.(promotionType := WHITE_QUEEN) else move
  }

  /**
   * Lines 138-147: the copy of the board the client shows at once: the
   * source square emptied, the moved piece (with its position updated) on
   * the target square. The source square gets the corrected placeholder
   * `EmptyPiece`, whose FEN text is the empty square's; line 140 places
   * `get_empty_piece`, whose `fen` is null (`EmptyPieceAsWritten`).
   */
  function OptimisticBoard(b: WebBoard, moved: WebPiece, from: int, to: int): (r: WebBoard)
    requires |b.pieces| == 64 && 0 <= from < 64 && 0 <= to < 64
  {
    b.(pieces := b.pieces[from := EmptyPiece(from)][to := moved.(position := to)])
  }

  /** What a click on a cell leads to: the new state, the move posted, and whether the capture sound plays. */
  datatype Click = Click(view: View, posted: Option<PieceMove>, captureSound: bool)

  /**
   * Lines 119-165: a click on a cell. Ignored while waiting, without a
   * selection, or when no move of the selected piece ends there. Otherwise
   * the move (a promotion asking for a queen) is posted, and the board is
   * replaced by the optimistic copy; the highlights of the piece's moves
   * are switched off against the board shown until then.
   */
  function MoveClicked(v: View, cellPosition: int): (r: Click)
    requires Ready(v) && 0 <= cellPosition < 64
  {
    if v.isWaitingForAI || v.selectedPiece.None? then Click(v, None, false)
    else
      var selected := v.selectedPiece.value.piece;
      match FirstTo(selected.moves, cellPosition)
      case None => Click(v, None, false)
      case Some(i) =>
        var pieceMove := PromotionAsked(selected.moves[i]);
        var moved := selected.(moves := selected.moves[i := pieceMove]);
        var shown := v.(selectedPiece := None, classes := v.classes - {(selected.position, Disabled)});
        var toggled := ToggledMoves(shown, moved);
        var copied := toggled.(board := OptimisticBoard(v.board, moved, selected.position, cellPosition),
                               generation := v.generation + 1);
        Click(copied, Some(pieceMove), pieceMove.capture)
  }

  /** Lines 194-209: the answer to a posted move; a failure only unlocks, keeping the optimistic board. */
  function MoveAnswered(v: View, response: Option<WebBoard>): (r: View)
  {
    match response
    case Some(data) => v.(board := data, generation := v.generation + 1)
    case None => v.(isWaitingForAI := false)
  }

  /** Lines 176-177: asking the engine to move locks the board. */
  function AiMoveAsked(v: View): (r: View)
  {
    v.(isWaitingForAI := true)
  }

  /** Lines 189-191: the engine's answer, or its failure, unlocks the board. */
  function AiMoveSettled(v: View): (r: View)
  {
    v.(isWaitingForAI := false)
  }

  /** Lines 183-187: the board fetched after the engine's move, and the engine's answer kept. */
  function AiBoardFetched(v: View, data: WebBoard, aiResponse: AiResponse): (r: View)
  {
    v.(board := data, generation := v.generation + 1, lastAIResponse := Some(aiResponse))
  }

  /** Lines 230-236: the answer to a posted FEN; the last AI answer is forgotten. */
  function FenAnswered(v: View, data: WebBoard): (r: View)
  {
    v.(board := data, generation := v.generation + 1, lastAIResponse := None)
  }

  /** Lines 167-174: a board fetched from the engine. */
  function BoardFetched(v: View, data: WebBoard): (r: View)
  {
    v.(board := data, generation := v.generation + 1)
  }

  /** The page's state in place: one field per React state cell, plus the board's generation and the cells' classes. */
  class BoardPage {
    var selectedPiece: Option<Selected>
    var generation: nat
    var isWaitingForAI: bool
    var lastAIResponse: Option<AiResponse>
    var board: WebBoard
    var classes: set<Mark>

    function Clone(): (v: View)
      reads this
    {
      View(selectedPiece, generation, isWaitingForAI, lastAIResponse, board, classes)
    }

    /** Lines 60-74: nothing selected, not waiting, an empty board with White to move. */
    constructor()
      ensures Clone() == View(None, 0, false, None, WebBoard([], true), {})
    {
      selectedPiece := None;
      generation := 0;
      isWaitingForAI := false;
      lastAIResponse := None;
      board := WebBoard([], true);
      classes := {};
    }

    /** Lines 97-117: the highlights of the piece's moves switched, unless waiting. */
    method TogglePieceAvailableMoves(piece: WebPiece)
      requires |board.pieces| == 64 && OnBoard(piece.moves)
      modifies this
      ensures Clone() == ToggledMoves(old(Clone()), piece)
    {
      if isWaitingForAI {
        return;
      }
      classes := ToggleMoveMarks(board, piece.moves, classes);
    }

    method OnPieceSelect(slot: int)
      requires Ready(Clone()) && 0 <= slot < 64
      modifies this
      ensures Clone() == PieceSelected(old(Clone()), slot)
    {
      if isWaitingForAI {
        return;
      }
      var piece := board.pieces[slot];
      if board.whiteMove != piece.white {
        return;
      }
      if selectedPiece.Some? && selectedPiece.value.generation == generation && selectedPiece.value.slot == slot {
        selectedPiece := None;
      } else {
        if selectedPiece.Some? {
          TogglePieceAvailableMoves(selectedPiece.value.piece);
        }
        selectedPiece := Some(Selected(generation, slot, piece));
      }
      TogglePieceAvailableMoves(piece);
    }

    method OnMovePiece(cellPosition: int) returns (posted: Option<PieceMove>, captureSound: bool)
      requires Ready(Clone()) && 0 <= cellPosition < 64
      modifies this
      ensures Click(Clone(), posted, captureSound) == MoveClicked(old(Clone()), cellPosition)
    {
      posted, captureSound := None, false;
      if isWaitingForAI || selectedPiece.None? {
        return;
      }
      var selected := selectedPiece.value.piece;
      var position := selected.position;
      var index := FirstTo(selected.moves, cellPosition);
      if index.None? {
        return;
      }
      var pieceMove := PromotionAsked(selected.moves[index.value]);
      var moved := selected.(moves := selected.moves[index.value := pieceMove]);
      var copyBoard := OptimisticBoard(board, moved, position, cellPosition);
      selectedPiece := None;
      classes := classes - {(position, Disabled)};
      captureSound := pieceMove.capture;
      TogglePieceAvailableMoves(moved);
      board, generation := copyBoard, generation + 1;
      posted := Some(pieceMove);
    }

    /** The answer to the move post: `Some` board on success, `None` on failure. */
    method OnMoveAnswer(response: Option<WebBoard>)
      modifies this
      ensures Clone() == MoveAnswered(old(Clone()), response)
    {
      if response.Some? {
        board, generation := response.value, generation + 1;
      } else {
        isWaitingForAI := false;
      }
    }

    method GetAiMove()
      modifies this
      ensures Clone() == AiMoveAsked(old(Clone()))
    {
      isWaitingForAI := true;
    }

    method OnAiMoveSettled()
      modifies this
      ensures Clone() == AiMoveSettled(old(Clone()))
    {
      isWaitingForAI := false;
    }

    /** Returns whether the capture sound plays. */
    method OnAiBoardFetched(data: WebBoard, aiResponse: AiResponse) returns (captureSound: bool)
      modifies this
      ensures Clone() == AiBoardFetched(old(Clone()), data, aiResponse)
      ensures captureSound == aiResponse.aiMove.capture
    {
      board, generation := data, generation + 1;
      captureSound := aiResponse.aiMove.capture;
      lastAIResponse := Some(aiResponse);
    }

    /** Lines 211-224: the FEN posted, none when the input element is missing; the state is untouched. */
    method LoadFen(input: Option<string>) returns (fen: Option<string>)
      ensures input.None? ==> fen.None?
      ensures input.Some? ==> fen == Some(FenToLoad(input.value))
    {
      if input.None? {
        return None;
      }
      var value := INITIAL_FEN;
      if Trim(input.value) != "" {
        value := Trim(input.value);
      }
      fen := Some(value);
    }

    method OnFenAnswer(data: WebBoard)
      modifies this
      ensures Clone() == FenAnswered(old(Clone()), data)
    {
      board, generation := data, generation + 1;
      lastAIResponse := None;
    }

    method OnBoardFetched(data: WebBoard)
      modifies this
      ensures Clone() == BoardFetched(old(Clone()), data)
    {
      board, generation := data, generation + 1;
    }
  }

  /** The `forEach` of lines 102-116: each move's marks toggled in turn. */
  method ToggleMoveMarks(b: WebBoard, moves: seq<PieceMove>, classes: set<Mark>) returns (toggled: set<Mark>)
    requires |b.pieces| == 64 && OnBoard(moves)
    ensures toggled == ToggleAll(classes, MovesMarks(b, moves))
  {
    toggled := classes;
    for i := 0 to |moves|
      invariant forall k :: 0 <= k < i ==> moves[..i][k] == moves[k]
      invariant toggled == ToggleAll(classes, MovesMarks(b, moves[..i]))
    {
      var toPosition := moves[i].toPosition;
      var className := if b.pieces[toPosition].fen != Some(EMPTY_FEN) then CaptureReceptor else EmptyReceptor;
      toggled := Toggle(toggled, (toPosition, className));
      if ShowsPiece(b.pieces[toPosition]) {
        toggled := Toggle(toggled, (toPosition, Disabled));
      }
      assert moves[..i + 1][..i] == moves[..i];
      ToggleSteps(classes, MovesMarks(b, moves[..i]), MoveMarks(b, moves[i]));
    }
    assert moves[..|moves|] == moves;
  }

  /** One loop step: toggling the marks of one more move one by one. */
  lemma ToggleSteps(marks: set<Mark>, done: seq<Mark>, next: seq<Mark>)
    requires 1 <= |next| <= 2
    ensures ToggleAll(marks, done + next)
            == if |next| == 1 then Toggle(ToggleAll(marks, done), next[0])
               else Toggle(Toggle(ToggleAll(marks, done), next[0]), next[1])
  {
    var all := done + next;
    assert all[..|all| - 1] == done + next[..|next| - 1];
    if |next| == 2 {
      assert (done + next[..1])[..|done|] == done;
    }
  }

  // ---------------------------------------------------------------- properties

  /**
   * The optimistic copy empties the source square, puts the moved piece,
   * with its new position, on the target square, and leaves every other
   * square as it was.
   */
  lemma OptimisticBoardMovesOnePiece(b: WebBoard, moved: WebPiece, from: int, to: int, q: int)
    requires |b.pieces| == 64 && 0 <= from < 64 && 0 <= to < 64 && from != to && 0 <= q < 64
    ensures |OptimisticBoard(b, moved, from, to).pieces| == 64
    ensures OptimisticBoard(b, moved, from, to).whiteMove == b.whiteMove
    ensures q == from ==> OptimisticBoard(b, moved, from, to).pieces[q] == EmptyPiece(from)
    ensures q == to ==> OptimisticBoard(b, moved, from, to).pieces[q] == moved.(position := to)
    ensures q != from && q != to ==> OptimisticBoard(b, moved, from, to).pieces[q] == b.pieces[q]
  {
  }

  /**
   * A click on a cell that the selected piece can move to posts the first
   * such move, a promotion asking for a White queen whatever the colour;
   * the selection is cleared, the capture sound follows the move's capture
   * flag, and the board becomes the optimistic copy.
   */
  lemma LegalClickPosts(v: View, cellPosition: int, i: nat)
    requires Ready(v) && 0 <= cellPosition < 64 && !v.isWaitingForAI && v.selectedPiece.Some?
    requires i < |v.selectedPiece.value.piece.moves| && v.selectedPiece.value.piece.moves[i].toPosition == cellPosition
    requires forall j :: 0 <= j < i ==> v.selectedPiece.value.piece.moves[j].toPosition != cellPosition
    ensures MoveClicked(v, cellPosition).posted == Some(PromotionAsked(v.selectedPiece.value.piece.moves[i]))
    ensures v.selectedPiece.value.piece.moves[i].promotion ==> MoveClicked(v, cellPosition).posted.value.promotionType == WHITE_QUEEN
    ensures MoveClicked(v, cellPosition).captureSound == v.selectedPiece.value.piece.moves[i].capture
    ensures MoveClicked(v, cellPosition).view.selectedPiece.None?
    ensures MoveClicked(v, cellPosition).view.board.pieces[v.selectedPiece.value.piece.position]
            == (if cellPosition == v.selectedPiece.value.piece.position then MoveClicked(v, cellPosition).view.board.pieces[cellPosition]
                else EmptyPiece(v.selectedPiece.value.piece.position))
    ensures MoveClicked(v, cellPosition).view.board.pieces[cellPosition].position == cellPosition
  {
    assert FirstTo(v.selectedPiece.value.piece.moves, cellPosition) == Some(i);
  }

  /** While waiting, without a selection, or on a cell the selected piece cannot reach, a click changes nothing. */
  lemma IllegalClickIgnored(v: View, cellPosition: int)
    requires Ready(v) && 0 <= cellPosition < 64
    requires !v.isWaitingForAI && v.selectedPiece.Some? ==>
               forall k :: 0 <= k < |v.selectedPiece.value.piece.moves| ==> v.selectedPiece.value.piece.moves[k].toPosition != cellPosition
    ensures MoveClicked(v, cellPosition) == Click(v, None, false)
  {
  }

  /**
   * Clicking the selected piece again deselects it and switches its
   * highlights back: after selecting a piece with nothing selected, a second
   * click on it restores the page.
   */
  lemma SelectTwiceRestores(v: View, slot: int)
    requires Ready(v) && 0 <= slot < 64 && v.selectedPiece.None? && !v.isWaitingForAI
    requires v.board.whiteMove == v.board.pieces[slot].white
    ensures PieceSelected(PieceSelected(v, slot), slot) == v
  {
    ToggleAllTwice(v.classes, MovesMarks(v.board, v.board.pieces[slot].moves));
  }

  /** A piece of the other side, or any piece while waiting, cannot be selected. */
  lemma SelectIgnored(v: View, slot: int)
    requires Ready(v) && 0 <= slot < 64
    requires v.isWaitingForAI || v.board.whiteMove != v.board.pieces[slot].white
    ensures PieceSelected(v, slot) == v
  {
  }

  /**
   * A piece selected on an earlier board object is never the clicked one:
   * after the board is replaced, a click on the same square selects afresh,
   * switching the old piece's highlights first.
   */
  lemma StaleSelectionSwitches(v: View, data: WebBoard, slot: int)
    requires Ready(v) && v.selectedPiece.Some? && v.selectedPiece.value.generation == v.generation && !v.isWaitingForAI
    requires Indexable(data) && 0 <= slot < 64 && data.whiteMove == data.pieces[slot].white
    ensures var w := BoardFetched(v, data);
            Ready(w) && PieceSelected(w, slot).selectedPiece == Some(Selected(w.generation, slot, data.pieces[slot]))
  {
  }

  /**
   * The board stays locked from the AI request until its answer settles,
   * whatever the answer; a failed move post unlocks it too but keeps the
   * optimistic board.
   */
  lemma AiLockout(v: View, slot: int, cellPosition: int)
    requires Ready(v) && 0 <= slot < 64 && 0 <= cellPosition < 64
    ensures var locked := AiMoveAsked(v);
            locked.isWaitingForAI && PieceSelected(locked, slot) == locked
            && MoveClicked(locked, cellPosition) == Click(locked, None, false)
            && !AiMoveSettled(locked).isWaitingForAI
    ensures MoveAnswered(v, None).board == v.board && !MoveAnswered(v, None).isWaitingForAI
  {
  }

  /**
   * The vacated square as written: its `null` text makes a later highlight
   * mark it as a capture target and toggle a piece button on it.
   */
  lemma VacatedSquareAsWritten(b: WebBoard, from: int, move: PieceMove)
    requires |b.pieces| == 64 && 0 <= from < 64 && move.toPosition == from
    ensures var shown := b.(pieces := b.pieces[from := EmptyPieceAsWritten(from)]);
            MoveMarks(shown, move) == [(from, CaptureReceptor), (from, Disabled)]
  {
  }

  /** With the empty-square text, a vacated square is highlighted as an empty target. */
  lemma VacatedSquareLooksEmpty(b: WebBoard, moved: WebPiece, from: int, to: int, move: PieceMove)
    requires |b.pieces| == 64 && 0 <= from < 64 && 0 <= to < 64 && from != to && move.toPosition == from
    ensures MoveMarks(OptimisticBoard(b, moved, from, to), move) == [(from, EmptyReceptor)]
  {
    OptimisticBoardMovesOnePiece(b, moved, from, to, from);
  }
}
