/**
 * Whole gestures on the board: a press, moves and a release in a row, and what
 * they leave on the board and the undo history.
 */
module Scenarios {
  import opened Wrappers
  import opened Geometry
  import opened Entities
  import opened Roster
  import opened Drawings
  import History
  import opened CoachLab

  /** The board is at rest: no editor open, no gesture under way, nothing selected. */
  predicate AtRest(b: Board)
    reads b
  {
    !b.Busy() && b.Session() == NoGesture && b.selectedPlayer == None && b.selectedDrawing == None
  }

  /** Clicking a player selects it; with no move in between, the release commits nothing. */
  method ClickPlayer(b: Board, id: string, newId: string)
    requires b.Valid() && AtRest(b) && b.tool == Select
    requires FindPlayer(b.players, id).Some?
    requires FreshId(b.drawings, newId)
    modifies b
    ensures b.Valid()
    ensures b.Current() == old(b.Current()) && b.history == old(b.history)
    ensures b.selectedPlayer == Some(id) && b.Session() == NoGesture
  {
    var p := FindPlayer(b.players, id).value;
    b.PointerDown(p.Pos(), None, None, Some(PlayerHit(id)));
    b.PointerUp(newId);
  }

  /** Pressing on a player grabs it at offset zero and captures the board; nothing else happens yet. */
  method GrabPlayer(b: Board, id: string)
    requires b.Valid() && AtRest(b) && b.tool == Select
    requires FindPlayer(b.players, id).Some?
    modifies b
    ensures b.Valid() && !b.Busy()
    ensures b.Current() == old(b.Current()) && b.history == old(b.history) && b.pending == Some(old(b.Current()))
    ensures b.Session() == NoGesture.(dragging := Some(Drag(PlayerHit(id), Point(0.0, 0.0))))
    ensures b.selectedPlayer == Some(id)
  {
    var p := FindPlayer(b.players, id).value;
    b.PointerDown(p.Pos(), None, None, Some(PlayerHit(id)));
  }

  /** A move while a player is grabbed at offset zero takes it to the pointer, clamped to the pitch. */
  method MoveGrabbed(b: Board, id: string, to: Point)
    requires b.Valid() && !b.Busy()
    requires b.Session() == NoGesture.(dragging := Some(Drag(PlayerHit(id), Point(0.0, 0.0))))
    modifies b
    ensures b.Valid() && !b.Busy()
    ensures b.players == MovePlayer(old(b.players), id, DragTarget(b.pitch, to, Point(0.0, 0.0)))
    ensures b.ball == old(b.ball) && b.drawings == old(b.drawings)
    ensures b.history == old(b.history) && b.pending == old(b.pending)
    ensures b.Session() == old(b.Session()).(hasMoved := true)
  {
    b.PointerMove(to, []);
  }

  /**
   * Dragging a player to `to` puts it there (clamped to the pitch), leaves every
   * other player where it was, and puts the board from before the press on the history.
   */
  method DragPlayer(b: Board, id: string, to: Point, newId: string)
    requires b.Valid() && AtRest(b) && b.tool == Select
    requires FindPlayer(b.players, id).Some?
    requires FreshId(b.drawings, newId)
    modifies b
    ensures b.Valid()
    ensures b.history == History.Push(old(b.history), old(b.Current()))
    ensures b.players == MovePlayer(old(b.players), id, DragTarget(b.pitch, to, Point(0.0, 0.0)))
    ensures b.ball == old(b.ball) && b.drawings == old(b.drawings)
    ensures b.Session() == NoGesture && !b.Busy()
  {
    GrabPlayer(b, id);
    MoveGrabbed(b, id, to);
    b.PointerUp(newId);
  }

  /** A drag undone right after is as if it never happened, when the history had room. */
  method DragThenUndo(b: Board, id: string, to: Point, newId: string)
    requires b.Valid() && AtRest(b) && b.tool == Select
    requires FindPlayer(b.players, id).Some?
    requires FreshId(b.drawings, newId)
    requires |b.history| < History.Capacity
    modifies b
    ensures b.Valid()
    ensures b.Current() == old(b.Current()) && b.history == old(b.history)
  {
    DragPlayer(b, id, to, newId);
    History.UndoAfterPush(b.Current(), old(b.history), old(b.Current()));
    b.KeyUndo();
  }

  /** A press with a shape tool and a move: the preview runs from the press point to the pointer. */
  method Stroke(b: Board, kind: Kind, from: Point, to: Point)
    requires b.Valid() && AtRest(b) && b.tool == Pen(kind) && kind != TextLabel
    modifies b
    ensures b.Valid() && b.color == old(b.color) && b.filled == old(b.filled)
    ensures b.Current() == old(b.Current()) && b.history == old(b.history) && b.pending == Some(old(b.Current()))
    ensures b.Session() == NoGesture.(isDrawing := true, drawStart := Some(from),
                                      preview := Some(Preview(from, to, kind, b.color, b.filled)))
  {
    b.PointerDown(from, None, None, None);
    b.PointerMove(to, []);
  }

  /** A stroke no longer than `MinLength` draws nothing and commits nothing. */
  method ShortStroke(b: Board, kind: Kind, from: Point, to: Point, newId: string)
    requires b.Valid() && AtRest(b) && b.tool == Pen(kind) && kind != TextLabel
    requires !LongEnough(Preview(from, to, kind, b.color, b.filled))
    requires FreshId(b.drawings, newId)
    modifies b
    ensures b.Valid()
    ensures b.Current() == old(b.Current()) && b.history == old(b.history)
    ensures b.Session() == NoGesture
  {
    Stroke(b, kind, from, to);
    b.PointerUp(newId);
  }

  /** A longer stroke becomes one new drawing, and the board before it goes on the history. */
  method LongStroke(b: Board, kind: Kind, from: Point, to: Point, newId: string)
    requires b.Valid() && AtRest(b) && b.tool == Pen(kind) && kind != TextLabel
    requires LongEnough(Preview(from, to, kind, b.color, b.filled))
    requires FreshId(b.drawings, newId)
    modifies b
    ensures b.Valid()
    ensures b.drawings == old(b.drawings) + [NewShape(Preview(from, to, kind, old(b.color), old(b.filled)), newId)]
    ensures b.history == History.Push(old(b.history), old(b.Current()))
    ensures b.players == old(b.players) && b.ball == old(b.ball)
    ensures b.Session() == NoGesture
  {
    Stroke(b, kind, from, to);
    b.PointerUp(newId);
  }

  /** Placing text that is only white space adds nothing and commits nothing. */
  method BlankText(b: Board, at: Point, value: string, newId: string)
    requires b.Valid() && AtRest(b) && b.tool == TextTool
    requires IsBlank(value)
    requires FreshId(b.drawings, newId)
    modifies b
    ensures b.Valid()
    ensures b.Current() == old(b.Current()) && b.history == old(b.history)
    ensures b.pendingText == None
  {
    b.PointerDown(at, None, None, None);
    b.SetPendingTextValue(value);
    b.CommitText(newId);
  }
}
