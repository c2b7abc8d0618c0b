/**
 * The tactical board: the entities (players, ball, drawings), the undo history
 * with its pending-snapshot slot, the selection, and the pointer-gesture state
 * the three pointer handlers share. Each handler is one atomic step.
 *
 * The renderer's hit tests (`findDrawingAtPoint`, `findHandleAtPoint`,
 * `findPlayerAtPoint`), its `getHandlePoints` and the id generator are not part
 * of this model: their results are parameters of the handlers.
 */
module CoachLab {
  import opened Wrappers
  import opened Geometry
  import opened Entities
  import History
  import Formations
  import opened Roster
  import opened Drawings

  /** A drag in progress: what is dragged and the grab offset (press point minus entity position). */
  datatype Drag = Drag(target: Hit, offset: Point)

  /** A handle drag in progress: which drawing and which of its handles. */
  datatype HandleDrag = HandleDrag(drawingId: string, index: nat)

  datatype Selection = Selection(player: Option<string>, drawing: Option<string>)

  /** The transient pointer-session state. */
  datatype Gesture = Gesture(
    dragging: Option<Drag>,
    handle: Option<HandleDrag>,
    isDrawing: bool,
    drawStart: Option<Point>,
    preview: Option<Preview>,
    hasMoved: bool)

  const NoGesture: Gesture := Gesture(None, None, false, None, None, false)

  /** Everything the handlers change, as one value: the constructor states the whole initial state with it. */
  datatype State = State(
    board: Snapshot,
    history: seq<Snapshot>,
    pending: Option<Snapshot>,
    selection: Selection,
    gesture: Gesture,
    textAt: Option<Point>,
    textValue: string)

  const TextTool: Tool := Pen(TextLabel)

  /** A board state as the board keeps it: the 22 standard players in order, distinct drawing ids. */
  predicate SnapshotOk(s: Snapshot) {
    StandardRoster(s.players) && UniqueIds(s.drawings)
  }

  class Board {
    const pitch: Pitch

    var players: seq<Player>
    var ball: Point
    var drawings: seq<Drawing>

    var history: seq<Snapshot>
    /** The snapshot captured at the last press, waiting for a commit. */
    var pending: Option<Snapshot>

    var selectedPlayer: Option<string>
    var selectedDrawing: Option<string>

    var dragging: Option<Drag>
    var draggingHandle: Option<HandleDrag>
    var isDrawing: bool
    var drawStart: Option<Point>
    var currentDraw: Option<Preview>
    var hasMoved: bool

    /** Where a text label is being placed, and the text typed so far. */
    var pendingText: Option<Point>
    var pendingTextValue: string
    /** The player whose name is being edited in the roster panel. */
    var editingName: Option<string>

    var tool: Tool
    var color: string
    var filled: bool

    function Current(): Snapshot
      reads this`players, this`ball, this`drawings
    {
      Snapshot(players, ball, drawings)
    }

    function Session(): Gesture
      reads this
    {
      Gesture(dragging, draggingHandle, isDrawing, drawStart, currentDraw, hasMoved)
    }

    function Full(): State
      reads this
    {
      State(Current(), history, pending, Selection(selectedPlayer, selectedDrawing), Session(), pendingText, pendingTextValue)
    }

    /** While a name or a text label is being edited, the board ignores pointer presses and shortcuts. */
    predicate Busy()
      reads this
    {
      editingName.Some? || pendingText.Some?
    }

    /** The selection names a player or a drawing, never both. */
    ghost predicate SelectionOk()
      reads this`selectedPlayer, this`selectedDrawing
    {
      !(selectedPlayer.Some? && selectedDrawing.Some?)
    }

    ghost predicate BoardOk()
      reads this`players, this`ball, this`drawings
    {
      SnapshotOk(Current())
    }

    /** The history stays within capacity and holds, like the pending slot, only board states. */
    ghost predicate HistoryOk()
      reads this`history, this`pending
    {
      |history| <= History.Capacity
      && (forall s :: s in history ==> SnapshotOk(s))
      && (pending.Some? ==> SnapshotOk(pending.value))
    }

    ghost predicate Valid()
      reads this
    {
      pitch.Valid() && SelectionOk() && BoardOk() && HistoryOk()
    }

    constructor (pitch: Pitch)
      requires pitch.Valid()
      ensures Valid() && this.pitch == pitch
      ensures Full() == State(Snapshot(InitialPlayers(pitch), pitch.Center(), []), [], None,
                              Selection(None, None), NoGesture, None, "")
      ensures editingName == None && tool == Select && color == "#ffffff" && !filled
    {
      this.pitch := pitch;
      players := InitialPlayers(pitch);
      ball := pitch.Center();
      drawings := [];
      history := [];
      pending := None;
      selectedPlayer, selectedDrawing := None, None;
      dragging, draggingHandle := None, None;
      isDrawing, drawStart, currentDraw, hasMoved := false, None, None, false;
      pendingText, pendingTextValue := None, "";
      editingName := None;
      tool, color, filled := Select, "#ffffff", false;
    }

    // ------------------------------------------------------------ history

    method CaptureHistory()
      requires Valid()
      modifies this`pending
      ensures Valid()
      ensures pending == Some(Current())
    {
      pending := Some(Current());
    }

    /** Pushes the pending snapshot, if any, and empties the slot. */
    method CommitHistory()
      requires Valid()
      modifies this`history, this`pending
      ensures Valid()
      ensures history == History.Commit(old(history), old(pending)) && pending == None
    {
      if pending.Some? {
        history := History.Push(history, pending.value);
        pending := None;
      }
    }

    /** Restores the newest snapshot verbatim and drops it; a no-op on an empty history. */
    method Undo()
      requires Valid()
      modifies this`players, this`ball, this`drawings, this`history
      ensures Valid()
      ensures (Current(), history) == History.Undo(old(Current()), old(history))
    {
      if |history| == 0 {
        return;
      }
      var last := history[|history| - 1];
      assert last in history;
      players, ball, drawings := last.players, last.ball, last.drawings;
      history := history[..|history| - 1];
    }

    /** Commits the press snapshot and appends the new drawing `d`. */
    method AddDrawing(d: Drawing)
      requires Valid()
      requires FreshId(drawings, d.id)
      modifies this`history, this`pending, this`drawings
      ensures Valid()
      ensures history == History.Commit(old(history), old(pending)) && pending == None
      ensures drawings == old(drawings) + [d]
    {
      CommitHistory();
      AppendFreshKeepsUnique(drawings, d);
      drawings := drawings + [d];
    }

    // ------------------------------------------------------------ pointer handlers

    /** The select tool's first choice: a handle of the selected drawing, when that drawing exists. */
    predicate OnHandle(handleHit: Option<nat>)
      reads this
    {
      selectedDrawing.Some? && Present(drawings, selectedDrawing.value) && handleHit.Some?
    }

    /** The hit test only reports players that are on the board. */
    predicate HitOk(playerHit: Option<Hit>)
      reads this
    {
      playerHit.Some? && playerHit.value.PlayerHit? ==> FindPlayer(players, playerHit.value.id).Some?
    }

    /** The position of the hit entity. */
    function HitPos(h: Hit): Point
      reads this
      requires HitOk(Some(h))
    {
      match h
      case PlayerHit(id) => FindPlayer(players, id).value.Pos()
      case BallHit => ball
    }

    /**
     * Pointer press at `at`. `drawHit` is the topmost drawing under the point,
     * `handleHit` the handle of the selected drawing under it and `playerHit` the
     * player or ball under it, as the renderer's hit tests report them. Unless
     * an editor is open, the board before the press is captured as pending.
     */
    method PointerDown(at: Point, drawHit: Option<string>, handleHit: Option<nat>, playerHit: Option<Hit>)
      requires Valid()
      requires drawHit.Some? ==> Present(drawings, drawHit.value)
      requires HitOk(playerHit)
      modifies this`pending, this`history, this`drawings, this`selectedPlayer, this`selectedDrawing,
               this`dragging, this`draggingHandle, this`isDrawing, this`drawStart, this`currentDraw,
               this`pendingText, this`pendingTextValue
      ensures Valid()
      ensures old(Busy()) ==> unchanged(this)
      // the eraser removes the hit drawing, with the board before it on the history
      ensures !old(Busy()) && tool == Eraser ==>
                unchanged(this`selectedPlayer, this`selectedDrawing, this`dragging, this`draggingHandle,
                          this`isDrawing, this`drawStart, this`currentDraw, this`pendingText, this`pendingTextValue)
                && if drawHit.Some? then
                     drawings == Erase(old(drawings), drawHit.value)
                     && history == History.Push(old(history), old(Current())) && pending == None
                   else
                     drawings == old(drawings) && history == old(history) && pending == Some(old(Current()))
      // the select tool takes a handle, else a drawing, else a player or the ball, else nothing
      ensures !old(Busy()) && tool == Select ==>
                unchanged(this`drawings, this`history, this`isDrawing, this`drawStart, this`currentDraw,
                          this`pendingText, this`pendingTextValue)
                && pending == Some(old(Current()))
                && if old(OnHandle(handleHit)) then
                     selectedPlayer == old(selectedPlayer) && selectedDrawing == old(selectedDrawing)
                     && draggingHandle == Some(HandleDrag(old(selectedDrawing).value, handleHit.value)) && dragging == old(dragging)
                   else if drawHit.Some? then
                     selectedPlayer == None && selectedDrawing == drawHit
                     && draggingHandle == old(draggingHandle) && dragging == old(dragging)
                   else if playerHit.Some? then
                     selectedPlayer == (if playerHit.value.PlayerHit? then Some(playerHit.value.id) else None)
                     && selectedDrawing == None && draggingHandle == old(draggingHandle)
                     && dragging == Some(Drag(playerHit.value, Sub(at, old(HitPos(playerHit.value)))))
                   else
                     selectedPlayer == None && selectedDrawing == None
                     && draggingHandle == old(draggingHandle) && dragging == old(dragging)
      // the text tool opens the placement overlay at the press point;
      // a shape tool starts a preview of zero length there
      ensures !old(Busy()) && tool.Pen? ==>
                var kind := tool.kind;
                unchanged(this`drawings, this`history, this`selectedPlayer, this`selectedDrawing,
                          this`dragging, this`draggingHandle)
                && pending == Some(old(Current()))
                && if kind == TextLabel then
                     pendingText == Some(at) && pendingTextValue == ""
                     && unchanged(this`isDrawing, this`drawStart, this`currentDraw)
                   else
                     isDrawing && drawStart == Some(at) && currentDraw == Some(Preview(at, at, kind, color, filled))
                     && unchanged(this`pendingText, this`pendingTextValue)
    {
      if Busy() {
        return;
      }
      match tool
      case Eraser => PressEraser(drawHit);
      case Select => PressSelect(at, drawHit, handleHit, playerHit);
      case Pen(kind) => PressPen(at, kind);
    }

    /** The eraser's press. */
    method PressEraser(drawHit: Option<string>)
      requires Valid()
      modifies this`pending, this`history, this`drawings
      ensures Valid()
      ensures unchanged(this`selectedPlayer, this`selectedDrawing, this`dragging, this`draggingHandle,
                          this`isDrawing, this`drawStart, this`currentDraw, this`pendingText, this`pendingTextValue)
                && if drawHit.Some? then
                     drawings == Erase(old(drawings), drawHit.value)
                     && history == History.Push(old(history), old(Current())) && pending == None
                   else
                     drawings == old(drawings) && history == old(history) && pending == Some(old(Current()))
    {
      CaptureHistory();
      if drawHit.Some? {
        CommitHistory();
        EraseKeepsUnique(drawings, drawHit.value);
        drawings := Erase(drawings, drawHit.value);
      }
    }

    /** The select tool's press. */
    method PressSelect(at: Point, drawHit: Option<string>, handleHit: Option<nat>, playerHit: Option<Hit>)
      requires Valid()
      requires HitOk(playerHit)
      modifies this`pending, this`selectedPlayer, this`selectedDrawing, this`dragging, this`draggingHandle
      ensures Valid()
      ensures unchanged(this`drawings, this`history, this`isDrawing, this`drawStart, this`currentDraw,
                          this`pendingText, this`pendingTextValue)
                && pending == Some(old(Current()))
                && if old(OnHandle(handleHit)) then
                     selectedPlayer == old(selectedPlayer) && selectedDrawing == old(selectedDrawing)
                     && draggingHandle == Some(HandleDrag(old(selectedDrawing).value, handleHit.value)) && dragging == old(dragging)
                   else if drawHit.Some? then
                     selectedPlayer == None && selectedDrawing == drawHit
                     && draggingHandle == old(draggingHandle) && dragging == old(dragging)
                   else if playerHit.Some? then
                     selectedPlayer == (if playerHit.value.PlayerHit? then Some(playerHit.value.id) else None)
                     && selectedDrawing == None && draggingHandle == old(draggingHandle)
                     && dragging == Some(Drag(playerHit.value, Sub(at, old(HitPos(playerHit.value)))))
                   else
                     selectedPlayer == None && selectedDrawing == None
                     && draggingHandle == old(draggingHandle) && dragging == old(dragging)
    {
      CaptureHistory();
      if OnHandle(handleHit) {
        draggingHandle := Some(HandleDrag(selectedDrawing.value, handleHit.value));
      } else if drawHit.Some? {
        selectedDrawing, selectedPlayer := drawHit, None;
      } else if playerHit.Some? {
        var h := playerHit.value;
        selectedDrawing := None;
        selectedPlayer := if h.PlayerHit? then Some(h.id) else None;
        dragging := Some(Drag(h, Sub(at, HitPos(h))));
      } else {
        selectedPlayer, selectedDrawing := None, None;
      }
    }

    /** A press with the text tool or a shape tool of kind `kind`. */
    method PressPen(at: Point, kind: Kind)
      requires Valid()
      modifies this`pending, this`isDrawing, this`drawStart, this`currentDraw, this`pendingText, this`pendingTextValue
      ensures Valid()
      ensures unchanged(this`drawings, this`history, this`selectedPlayer, this`selectedDrawing,
                          this`dragging, this`draggingHandle)
                && pending == Some(old(Current()))
                && if kind == TextLabel then
                     pendingText == Some(at) && pendingTextValue == ""
                     && unchanged(this`isDrawing, this`drawStart, this`currentDraw)
                   else
                     isDrawing && drawStart == Some(at) && currentDraw == Some(Preview(at, at, kind, color, filled))
                     && unchanged(this`pendingText, this`pendingTextValue)
    {
      CaptureHistory();
      if kind == TextLabel {
        pendingText, pendingTextValue := Some(at), "";
      } else {
        isDrawing, drawStart := true, Some(at);
        currentDraw := Some(Preview(at, at, kind, color, filled));
      }
    }

    /** What the handle edit needs of `handles`, the renderer's handle list for the dragged drawing. */
    predicate HandlesOk(handles: seq<Point>)
      reads this
    {
      draggingHandle.Some? ==>
        forall d :: d in drawings && d.id == draggingHandle.value.drawingId ==>
          HandlesFit(d.kind, draggingHandle.value.index, handles)
    }

    /**
     * Pointer move to `at`: a dragged player or the ball follows the pointer,
     * clamped to the pitch; a dragged handle reshapes its drawing; a preview
     * stretches its end to the pointer. Any drag marks the gesture as moved.
     */
    method PointerMove(at: Point, handles: seq<Point>)
      requires Valid()
      requires HandlesOk(handles)
      modifies this`players, this`ball, this`drawings, this`hasMoved, this`currentDraw
      ensures Valid()
      ensures hasMoved == (old(hasMoved) || dragging.Some? || draggingHandle.Some?)
      ensures dragging.Some? && dragging.value.target.PlayerHit? ==>
                players == MovePlayer(old(players), dragging.value.target.id, DragTarget(pitch, at, dragging.value.offset))
                && ball == old(ball)
      ensures dragging.Some? && dragging.value.target.BallHit? ==>
                ball == DragTarget(pitch, at, dragging.value.offset) && players == old(players)
      ensures dragging.None? ==> players == old(players) && ball == old(ball)
      ensures draggingHandle.Some? ==>
                drawings == EditDrawings(old(drawings), draggingHandle.value.drawingId, draggingHandle.value.index, handles, at)
      ensures draggingHandle.None? ==> drawings == old(drawings)
      ensures if isDrawing && drawStart.Some? && old(currentDraw).Some?
              then currentDraw == Some(old(currentDraw).value.(end := at))
              else currentDraw == old(currentDraw)
    {
      if dragging.Some? {
        hasMoved := true;
        FollowPointer(at);
      }
      if draggingHandle.Some? {
        hasMoved := true;
        EditHandleAt(at, handles);
      }
      if isDrawing && drawStart.Some? && currentDraw.Some? {
        currentDraw := Some(currentDraw.value.(end := at));
      }
    }

    /** The dragged player or the ball goes to the pointer less the grab offset, clamped to the pitch. */
    method FollowPointer(at: Point)
      requires Valid() && dragging.Some?
      modifies this`players, this`ball
      ensures Valid()
      ensures dragging.value.target.PlayerHit? ==>
                players == MovePlayer(old(players), dragging.value.target.id, DragTarget(pitch, at, dragging.value.offset))
                && ball == old(ball)
      ensures dragging.value.target.BallHit? ==>
                ball == DragTarget(pitch, at, dragging.value.offset) && players == old(players)
    {
      var target := DragTarget(pitch, at, dragging.value.offset);
      if dragging.value.target.PlayerHit? {
        players := MovePlayer(players, dragging.value.target.id, target);
      } else {
        ball := target;
      }
    }

    /** The dragged handle goes to the pointer. */
    method EditHandleAt(at: Point, handles: seq<Point>)
      requires Valid() && draggingHandle.Some?
      requires HandlesOk(handles)
      modifies this`drawings
      ensures Valid()
      ensures drawings == EditDrawings(old(drawings), draggingHandle.value.drawingId, draggingHandle.value.index, handles, at)
    {
      var dh := draggingHandle.value;
      EditKeepsUnique(drawings, dh.drawingId, dh.index, handles, at);
      drawings := EditDrawings(drawings, dh.drawingId, dh.index, handles, at);
    }

    /** A preview is open. */
    predicate Stroking()
      reads this
    {
      isDrawing && currentDraw.Some?
    }

    /** The open preview is long enough to become a drawing. */
    predicate StrokeKept()
      reads this
    {
      Stroking() && LongEnough(currentDraw.value)
    }

    /** A player, the ball or a handle was dragged and a move arrived since the press. */
    predicate DragMoved()
      reads this
    {
      (dragging.Some? || draggingHandle.Some?) && hasMoved
    }

    /** Ends the stroke, if one is open: a long enough preview becomes drawing `newId`. */
    method EndStroke(newId: string)
      requires Valid()
      requires FreshId(drawings, newId)
      modifies this`history, this`pending, this`drawings, this`currentDraw, this`isDrawing, this`drawStart
      ensures Valid()
      ensures old(Stroking()) ==> !isDrawing && drawStart == None && currentDraw == None
      ensures !old(Stroking()) ==> isDrawing == old(isDrawing) && drawStart == old(drawStart) && currentDraw == old(currentDraw)
      ensures old(StrokeKept()) ==>
                drawings == old(drawings) + [NewShape(old(currentDraw).value, newId)]
                && history == History.Commit(old(history), old(pending)) && pending == None
      ensures !old(StrokeKept()) ==> drawings == old(drawings) && history == old(history) && pending == old(pending)
    {
      if isDrawing && currentDraw.Some? {
        var pv := currentDraw.value;
        if LongEnough(pv) {
          AddDrawing(NewShape(pv, newId));
        }
        currentDraw, isDrawing, drawStart := None, false, None;
      }
    }

    /**
     * Pointer release (and pointer cancel, which the board treats the same).
     * A preview longer than `MinLength` becomes drawing `newId` and commits the
     * press snapshot; a drag commits it only if a move arrived. The gesture ends.
     */
    method PointerUp(newId: string)
      requires Valid()
      requires FreshId(drawings, newId)
      modifies this`dragging, this`draggingHandle, this`history, this`pending, this`drawings,
               this`currentDraw, this`isDrawing, this`drawStart, this`hasMoved
      ensures Valid()
      ensures dragging == None && draggingHandle == None && !hasMoved
      ensures old(Stroking()) ==> !isDrawing && drawStart == None && currentDraw == None
      ensures !old(Stroking()) ==> isDrawing == old(isDrawing) && drawStart == old(drawStart) && currentDraw == old(currentDraw)
      ensures old(StrokeKept()) ==> drawings == old(drawings) + [NewShape(old(currentDraw).value, newId)]
      ensures !old(StrokeKept()) ==> drawings == old(drawings)
      ensures old(StrokeKept() || DragMoved()) ==> history == History.Commit(old(history), old(pending)) && pending == None
      ensures !old(StrokeKept() || DragMoved()) ==> history == old(history) && pending == old(pending)
    {
      var moved := DragMoved();
      EndStroke(newId);
      if moved {
        CommitHistory();
      }
      dragging, draggingHandle, hasMoved := None, None, false;
    }

    /** The text overlay's input changed. */
    method SetPendingTextValue(value: string)
      requires Valid()
      modifies this`pendingTextValue
      ensures Valid()
      ensures pendingTextValue == value
    {
      pendingTextValue := value;
    }

    /** Escape in the text overlay closes it without a label. */
    method CancelText()
      requires Valid()
      modifies this`pendingText
      ensures Valid()
      ensures pendingText == None
    {
      pendingText := None;
    }

    /**
     * Confirms the text overlay: a value that is not blank after trimming becomes
     * text label `newId` at the placement point and commits the press snapshot;
     * otherwise the overlay just closes. "Empty after trimming" is tested as
     * `IsBlank`, which `TrimEmptyIffBlank` shows to be the same condition.
     */
    method CommitText(newId: string)
      requires Valid()
      requires FreshId(drawings, newId)
      modifies this`pendingText, this`pendingTextValue, this`history, this`pending, this`drawings
      ensures Valid()
      ensures pendingText == None
      ensures old(pendingText).None? || IsBlank(old(pendingTextValue)) ==>
                history == old(history) && pending == old(pending) && drawings == old(drawings)
                && pendingTextValue == old(pendingTextValue)
      ensures old(pendingText).Some? && !IsBlank(old(pendingTextValue)) ==>
                history == History.Commit(old(history), old(pending)) && pending == None
                && drawings == old(drawings) + [NewText(old(pendingText).value, old(pendingTextValue), color, newId)]
                && pendingTextValue == ""
    {
      if pendingText.None? || IsBlank(pendingTextValue) {
        pendingText := None;
        return;
      }
      AddDrawing(NewText(pendingText.value, pendingTextValue, color, newId));
      pendingText, pendingTextValue := None, "";
    }

    // ------------------------------------------------------------ keyboard

    /** Ctrl/Cmd+Z: undo, unless a name or text label is being edited. */
    method KeyUndo()
      requires Valid()
      modifies this`players, this`ball, this`drawings, this`history
      ensures Valid()
      ensures old(Busy()) ==> Current() == old(Current()) && history == old(history)
      ensures !old(Busy()) ==> (Current(), history) == History.Undo(old(Current()), old(history))
    {
      if Busy() {
        return;
      }
      Undo();
    }

    /** Escape: clear the selection, unless a name or text label is being edited; gestures go on. */
    method KeyEscape()
      requires Valid()
      modifies this`selectedPlayer, this`selectedDrawing
      ensures Valid()
      ensures old(Busy()) ==> selectedPlayer == old(selectedPlayer) && selectedDrawing == old(selectedDrawing)
      ensures !old(Busy()) ==> selectedPlayer == None && selectedDrawing == None
    {
      if Busy() {
        return;
      }
      selectedPlayer, selectedDrawing := None, None;
    }

    // ------------------------------------------------------------ board actions

    method ClearDrawings()
      requires Valid()
      modifies this`history, this`drawings
      ensures Valid()
      ensures history == History.Push(old(history), old(Current())) && drawings == []
    {
      history := History.Push(history, Current());
      drawings := [];
    }

    /** Back to the starting board; the board before it goes on the history. */
    method ClearAll()
      requires Valid()
      modifies this`history, this`players, this`ball, this`drawings
      ensures Valid()
      ensures history == History.Push(old(history), old(Current()))
      ensures Current() == Snapshot(InitialPlayers(pitch), pitch.Center(), [])
    {
      history := History.Push(history, Current());
      drawings := [];
      players := InitialPlayers(pitch);
      ball := pitch.Center();
    }

    method BallToCenter()
      requires Valid()
      modifies this`history, this`ball
      ensures Valid()
      ensures history == History.Push(old(history), old(Current())) && ball == pitch.Center()
    {
      history := History.Push(history, Current());
      ball := pitch.Center();
    }

    method ApplyFormation(team: Team, f: Formations.Formation)
      requires Valid()
      modifies this`history, this`players
      ensures Valid()
      ensures history == History.Push(old(history), old(Current()))
      ensures players == Roster.ApplyFormation(pitch, old(players), team, Formations.Template(f))
    {
      history := History.Push(history, Current());
      players := Roster.ApplyFormation(pitch, players, team, Formations.Template(f));
    }

    method ResetToBorder(team: Team)
      requires Valid()
      modifies this`history, this`players
      ensures Valid()
      ensures history == History.Push(old(history), old(Current()))
      ensures players == ResetTeamToBorder(pitch, old(players), team)
    {
      history := History.Push(history, Current());
      players := ResetTeamToBorder(pitch, players, team);
    }

    // ------------------------------------------------------------ roster panel

    method ResetAllNames()
      requires Valid()
      modifies this`players
      ensures Valid()
      ensures players == Roster.ResetAllNames(old(players))
    {
      players := Roster.ResetAllNames(players);
    }

    method TogglePlayerVisibility(id: string)
      requires Valid()
      modifies this`players
      ensures Valid()
      ensures players == ToggleVisibility(old(players), id)
    {
      players := ToggleVisibility(players, id);
    }

    method UpdatePlayerName(id: string, name: string)
      requires Valid()
      modifies this`players
      ensures Valid()
      ensures players == Rename(old(players), id, name)
    {
      players := Rename(players, id, name);
    }

    method BeginNameEdit(id: string)
      requires Valid()
      modifies this`editingName
      ensures Valid()
      ensures editingName == Some(id)
    {
      editingName := Some(id);
    }

    method EndNameEdit()
      requires Valid()
      modifies this`editingName
      ensures Valid()
      ensures editingName == None
    {
      editingName := None;
    }

    // ------------------------------------------------------------ toolbar

    method ChangeTool(t: Tool)
      requires Valid()
      modifies this`tool
      ensures Valid()
      ensures tool == t
    {
      tool := t;
    }

    method ChangeColor(c: string)
      requires Valid()
      modifies this`color
      ensures Valid()
      ensures color == c
    {
      color := c;
    }

    method ToggleFilled()
      requires Valid()
      modifies this`filled
      ensures Valid()
      ensures filled == !old(filled)
    {
      filled := !filled;
    }
  }
}
