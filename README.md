# Coach Lab tactical board, modelled in Dafny

Coach Lab is a browser tactical board for football coaches. Its engine lives in
`components/coach-lab/coach-lab-app.tsx` and keeps:

- 22 players (two teams of eleven) and a ball on a pitch of logical size
  `PITCH_W × PITCH_H`;
- the coach's drawings: lines, arrows, curved arrows, rectangles, circles,
  triangles, zones and text labels;
- a bounded undo history of board snapshots;
- the state of the pointer gesture in progress.

This project models that engine in five parts, each one a Dafny module:

- `History` (`history.dfy`): the undo stack. It holds at most 50 snapshots,
  newest last. The pointer handlers capture the board into a *pending* slot on
  a press. They push it when the press erased a drawing, the release kept a
  shape, a text label is placed, or a drag received a move event. Undo
  restores the newest snapshot verbatim.
- `CoachLab` (`board.dfy`): the `Board` class. Its fields are the
  component's state and refs. Its methods are the pointer, keyboard, toolbar
  and roster-panel handlers, each one atomic step. `Valid()` is the invariant
  every handler preserves:
  - the selection names a player or a drawing, never both;
  - the history holds at most 50 entries;
  - the board, every history entry and the pending snapshot keep the 22
    standard players in order and have distinct drawing ids.
- `Drawings` (`drawings.dfy`): the per-drawing transforms. These are the
  eraser's filter, the commit of a sketched shape or a text label, the
  "blank after trimming" test, and the per-kind handle edit.
- `Roster` (`roster.dfy`): the per-player transforms. These are the border
  layout and the initial roster, the formation projection, and the per-id
  updates (drag, visibility, rename, reset names).
- `Formations` (`formations.dfy`): the catalogue of 24 templates and the
  picker's groups.

Datatypes for players, drawings, previews and snapshots are in `entities.dfy`;
points, the pitch and clamping are in `geometry.dfy`. `scenarios.dfy` chains
handler calls into whole gestures: a click, a drag, a drag followed by undo, a
short stroke, a long stroke, and blank text.

Inputs to the model:

- The pitch size comes from the renderer module, and its value is not part of
  this model. The model takes it as a `Pitch(w, h)` value with `w, h > 30`, so
  that the margins `PL=15`, `PR=w-15`, `PT=15`, `PB=h-15` are ordered.
- The renderer's hit tests (`findDrawingAtPoint`, `findHandleAtPoint`,
  `findPlayerAtPoint`) and its `getHandlePoints` are not part of this model.
  Their results are parameters of the handlers. The preconditions say only what
  the code relies on: a reported drawing exists, and a reported player can be
  found by id.
- The random id generator becomes a `newId` parameter that no drawing uses yet
  (`FreshId`).
- Coordinates are real numbers. `Math.hypot(dx, dy) > 6` becomes `dx² + dy² > 36`
  (`LongEnough`, related to the length by `LongEnoughIsLength`).
- Absent optional drawing fields (`points`, `text`, `filled` on text labels)
  are the empty sequence, the empty string and `false`.

Three behaviours of the code are easy to misread, and the model follows the code:

- The circle handle edit sets the two half-axes independently, as `|x-cx|` and
  `|y-cy|` (lines 327-333). It does not force a square bounding box.
- A drag or handle drag commits its press snapshot when any move event arrived
  (lines 299, 310, 382), whether or not the position changed.
- Pointer cancel runs the release handler (line 760). A cancelled stroke longer
  than 6 units is therefore committed like a released one.

## Model

| member | source | states |
|---|---|---|
| Geometry.Pitch.Center | components/coach-lab/coach-lab-app.tsx:101 | the ball's starting point lies strictly inside the pitch and is its centre (equidistant from opposite edges) |
| Geometry.Clamp | components/coach-lab/coach-lab-app.tsx:300 | `max(lo, min(hi, v))` lies in `[lo, hi]`, is `v` inside the range and the nearer end outside it |
| Geometry.DragTarget | components/coach-lab/coach-lab-app.tsx:300 | each axis of pointer minus grab offset is clamped independently to `[0,w]×[0,h]`; the result is on the pitch and equals pointer minus offset whenever that is already on the pitch |
| Geometry.DragKeepsGrabPoint | components/coach-lab/coach-lab-app.tsx:271-273 | with the offset recorded at press, a dragged entity moves by exactly the pointer's displacement while staying on the pitch |
| History.Push | components/coach-lab/coach-lab-app.tsx:203 | the stack keeps at most 50 entries; the new snapshot is last; below capacity it is appended; at capacity the newest 49 old entries are kept in order; nothing else enters |
| History.Commit | components/coach-lab/coach-lab-app.tsx:201-206 | with no pending snapshot the history is unchanged, otherwise the pending snapshot is pushed |
| History.Undo | components/coach-lab/coach-lab-app.tsx:208-216 | an empty history is a no-op; otherwise the restored board is the last entry and the new history is the rest (`rest + [restored] == old history`) |
| History.UndoAfterPush | components/coach-lab/coach-lab-app.tsx:203-215 | below capacity, undo right after a push returns the pushed snapshot and the previous history |
| History.PushAllBounded | components/coach-lab/coach-lab-app.tsx:203 | however many snapshots are committed, the history stays within 50 |
| History.PushAllNoEviction | components/coach-lab/coach-lab-app.tsx:203 | while the total stays within 50, successive commits append in order |
| History.PushAllKeepsRecent | components/coach-lab/coach-lab-app.tsx:203 | after committing up to 50 snapshots, the newest entries are exactly those snapshots in order |
| History.UndoTimesPops | components/coach-lab/coach-lab-app.tsx:208-216 | n undos against a history ending in n given snapshots pop exactly those and restore the oldest of them |
| History.UndoTimesLast | components/coach-lab/coach-lab-app.tsx:208-216 | the (n+1)-th undo acts on the state and history the first n left |
| History.UndoRestores | components/coach-lab/coach-lab-app.tsx:237 | after k ≤ 50 committed gestures, k undos restore the board from before the first gesture; without eviction the history is restored too, and one more undo on an emptied history changes nothing |
| Formations.Template | components/coach-lab/coach-lab-app.tsx:23-48 | every template has 11 entries, each coordinate in [0,1] |
| Formations.FlattenGroups | components/coach-lab/coach-lab-app.tsx:50-55 | the picker's four groups, read in order, list exactly the 24 formations of `Listed` |
| Formations.GroupsListEachOnce | components/coach-lab/coach-lab-app.tsx:50-55 | the groups name 24 templates, every template appears, and none appears twice |
| Roster.Digits | components/coach-lab/coach-lab-app.tsx:65 | the decimal rendering of a shirt number is non-empty and has one digit exactly when the number is below 10 |
| Roster.DigitsInjective | components/coach-lab/coach-lab-app.tsx:65 | different numbers render differently |
| Roster.PlayerIdInjective | components/coach-lab/coach-lab-app.tsx:65 | the id `${team}${number}` determines team and number |
| Roster.FindPlayer | components/coach-lab/coach-lab-app.tsx:271-272 | a found player is on the board with that id; when none is found no player has it |
| Roster.MakeTeamOnBorder | components/coach-lab/coach-lab-app.tsx:62-75 | 11 players numbered 1..11 with ids from team and number; only number 1 is goalkeeper; all visible, unnamed, without photo; in the team's border column `PL+22` or `PR-22`, at `y = PT + i·(PB-PT)/10`, within `[PT,PB]`, strictly increasing, from `PT` to `PB` |
| Roster.InitialPlayers | components/coach-lab/coach-lab-app.tsx:77-79 | 22 players, team A's border layout then team B's; the standard identities by position; all ids distinct |
| Roster.BorderTeamsStandard | components/coach-lab/coach-lab-app.tsx:62-79 | team A's border layout followed by team B's has the standard identities: slot i is team A below 11, shirt `i%11+1`, id from team and shirt, goalkeeper exactly at shirt 1 |
| Roster.StandardRosterUnique | components/coach-lab/coach-lab-app.tsx:65 | a roster with the standard identities never has two players with one id |
| Roster.ResetTeamToBorder | components/coach-lab/coach-lab-app.tsx:429-436 | the same roster; the other team untouched; every player of the team at its border column and the row for its number, nothing else changed |
| Roster.ResetMatchesInitial | components/coach-lab/coach-lab-app.tsx:429-436 | on the board's roster a reset puts each player of the team exactly where the initial layout has it |
| Roster.ResetOrdersByNumber | components/coach-lab/coach-lab-app.tsx:433-434 | after a reset, players of one team share a column and a higher number is strictly lower down |
| Roster.Scale | components/coach-lab/coach-lab-app.tsx:421-422 | `lo + a·(hi-lo)` for `a` in [0,1] lies in `[lo, hi]` |
| Roster.Projected | components/coach-lab/coach-lab-app.tsx:421-423 | a template entry projects into the playable margins; y is scaled between PT and PB; x is scaled between PL and PR, mirrored as `PITCH_W - rawX` for team B |
| Roster.ApplyFormation | components/coach-lab/coach-lab-app.tsx:417-424 | same roster; players of the other team or without an entry untouched; every other player of the team at the projection of the entry for its number, within the margins, only x and y changed |
| Roster.FormationIgnoresPriorPositions | components/coach-lab/coach-lab-app.tsx:417-424 | where a formation puts a player depends only on who the player is, not where it stood |
| Roster.FormationIdempotent | components/coach-lab/coach-lab-app.tsx:414-424 | applying a formation twice gives the same players as applying it once |
| Roster.MovePlayer | components/coach-lab/coach-lab-app.tsx:301-303 | the dragged player goes to the target with only x and y changed; every other player is unchanged |
| Roster.ToggleVisibility | components/coach-lab/coach-lab-app.tsx:442-444 | only the player with the id flips visibility, no other field or player changes |
| Roster.ToggleTwiceRestores | components/coach-lab/coach-lab-app.tsx:442-444 | toggling twice restores the roster |
| Roster.Rename | components/coach-lab/coach-lab-app.tsx:446-448 | only the player with the id changes, and only its name |
| Roster.RenameLastWins | components/coach-lab/coach-lab-app.tsx:446-448 | of two renames the later one wins |
| Roster.ResetAllNames | components/coach-lab/coach-lab-app.tsx:438-440 | every name is cleared and nothing else changes |
| Roster.ResetAllNamesIdempotent | components/coach-lab/coach-lab-app.tsx:438-440 | clearing names twice is clearing them once |
| Roster.ResetAllNamesErasesRename | components/coach-lab/coach-lab-app.tsx:438-448 | a rename followed by clearing all names gives the same roster as clearing alone |
| Drawings.AppendFreshKeepsUnique | components/coach-lab/coach-lab-app.tsx:375 | appending a drawing with an unused id keeps drawing ids distinct |
| Drawings.Erase | components/coach-lab/coach-lab-app.tsx:245 | a drawing survives exactly when it was there and its id differs from the erased one |
| Drawings.EraseAbsent | components/coach-lab/coach-lab-app.tsx:245 | erasing an id no drawing has changes nothing |
| Drawings.EraseRemovesExactlyOne | components/coach-lab/coach-lab-app.tsx:243-246 | with distinct ids, erasing the k-th drawing's id removes exactly that drawing and keeps the rest in order |
| Drawings.EraseKeepsUnique | components/coach-lab/coach-lab-app.tsx:245 | erasing keeps drawing ids distinct |
| Drawings.LongEnoughIsLength | components/coach-lab/coach-lab-app.tsx:353-355 | for the stroke's length `len ≥ 0` with `len² = dx²+dy²`, the squared test holds exactly when `len > 6` |
| Drawings.NewShape | components/coach-lab/coach-lab-app.tsx:357-374 | the new drawing takes id, kind, start, end, color and filled from the preview, stroke width 2.5 and no text; a triangle gets the vertices (mid x, start.y), (start.x, end.y), end; other kinds get no points |
| Drawings.NewText | components/coach-lab/coach-lab-app.tsx:393 | a text label anchored at the placement point at both ends, with the typed text, the current color, stroke width 2.5, unfilled, no points |
| Drawings.TrimStart | components/coach-lab/coach-lab-app.tsx:391 | the result is a suffix that starts with no white space; all that was cut is white space |
| Drawings.TrimEnd | components/coach-lab/coach-lab-app.tsx:391 | the result is a prefix that ends with no white space; all that was cut is white space |
| Drawings.TrimEmptyIffBlank | components/coach-lab/coach-lab-app.tsx:391 | a value trims to the empty string exactly when every character is white space |
| Drawings.EditHandle | components/coach-lab/coach-lab-app.tsx:314-335 | id and style kept. Box corner handle: that corner goes to the pointer and the opposite corner stays; other box handles set start and end to handles 0 and 2. Circle: centre kept, start ≤ end, pointer on a corner. Triangle: only that vertex moves. Curved arrow: endpoints kept, control point is handle 1. Line, arrow, text: handle 0 moves only start, any other handle only end |
| Drawings.EditDrawings | components/coach-lab/coach-lab-app.tsx:312-336 | only the drawing with the id is edited, by `EditHandle`; every other drawing is unchanged; ids are kept |
| CoachLab.Board.constructor | components/coach-lab/coach-lab-app.tsx:97-127 | the initial roster, the ball at the centre, no drawings, empty history and pending slot, nothing selected, no gesture, select tool, white, unfilled |
| CoachLab.Board.CaptureHistory | components/coach-lab/coach-lab-app.tsx:193-199 | the pending slot holds the current board |
| CoachLab.Board.CommitHistory | components/coach-lab/coach-lab-app.tsx:201-206 | the history becomes `Commit(history, pending)` and the pending slot is emptied |
| CoachLab.Board.Undo | components/coach-lab/coach-lab-app.tsx:208-216 | board and history become `History.Undo` of the old ones: the last snapshot restored verbatim and popped, nothing on an empty history |
| CoachLab.Board.PointerDown | components/coach-lab/coach-lab-app.tsx:232-293 | ignored while a name or text edit is open, otherwise captures the board. Eraser: a hit drawing is erased and the capture pushed. Select: a handle of the selected drawing starts a handle drag; else a hit drawing is selected alone; else a hit player (or the ball) is selected alone and its drag starts with offset press minus position; else the selection is cleared. Text: the overlay opens at the press point, empty. Shape: a zero-length preview starts there. Every field not named stays |
| CoachLab.Board.PointerMove | components/coach-lab/coach-lab-app.tsx:295-342 | a player or ball drag moves the dragged entity to `DragTarget` of pointer and offset, and only it; a handle drag applies `EditDrawings`; either marks the gesture moved; an open preview's end follows the pointer |
| CoachLab.Board.PointerUp | components/coach-lab/coach-lab-app.tsx:344-385 | drags end and the moved flag is reset. An open preview ends; if longer than 6 it becomes `NewShape` with the fresh id. The capture is committed exactly when a shape was kept or a drag received a move; otherwise history and drawings are unchanged |
| CoachLab.Board.SetPendingTextValue | components/coach-lab/coach-lab-app.tsx:768 | the overlay's value is the typed text |
| CoachLab.Board.CancelText | components/coach-lab/coach-lab-app.tsx:770 | Escape closes the overlay |
| CoachLab.Board.CommitText | components/coach-lab/coach-lab-app.tsx:390-396 | the overlay closes. Blank text or no overlay: history, pending slot and drawings unchanged. Otherwise the capture is committed, a `NewText` label is appended and the value cleared |
| CoachLab.Board.KeyUndo | components/coach-lab/coach-lab-app.tsx:178-181 | while a name or text edit is open nothing happens, else exactly `Undo` |
| CoachLab.Board.KeyEscape | components/coach-lab/coach-lab-app.tsx:178-185 | while a name or text edit is open nothing happens, else both selections are cleared |
| CoachLab.Board.ClearDrawings | components/coach-lab/coach-lab-app.tsx:405 | the current board is pushed and the drawings are emptied |
| CoachLab.Board.ClearAll | components/coach-lab/coach-lab-app.tsx:406-411 | the current board is pushed; the board becomes the initial roster, the ball at the centre, no drawings |
| CoachLab.Board.BallToCenter | components/coach-lab/coach-lab-app.tsx:412 | the current board is pushed and the ball goes to the centre |
| CoachLab.Board.ApplyFormation | components/coach-lab/coach-lab-app.tsx:414-427 | the current board is pushed and the players become `Roster.ApplyFormation` with the formation's template |
| CoachLab.Board.ResetToBorder | components/coach-lab/coach-lab-app.tsx:429-436 | the current board is pushed and the players become `ResetTeamToBorder` of the team |
| CoachLab.Board.ResetAllNames | components/coach-lab/coach-lab-app.tsx:438-440 | the players become `Roster.ResetAllNames`, with no history entry |
| CoachLab.Board.TogglePlayerVisibility | components/coach-lab/coach-lab-app.tsx:442-444 | the players become `ToggleVisibility`, with no history entry |
| CoachLab.Board.UpdatePlayerName | components/coach-lab/coach-lab-app.tsx:446-448 | the players become `Rename`, with no history entry |
| CoachLab.Board.BeginNameEdit | components/coach-lab/coach-lab-app.tsx:645 | a name edit is open for the player |
| CoachLab.Board.EndNameEdit | components/coach-lab/coach-lab-app.tsx:638-639 | the name edit is closed |
| CoachLab.Board.ChangeTool | components/coach-lab/coach-lab-app.tsx:399 | the tool is set |
| CoachLab.Board.ChangeColor | components/coach-lab/coach-lab-app.tsx:400 | the colour is set |
| CoachLab.Board.ToggleFilled | components/coach-lab/coach-lab-app.tsx:401 | the fill flag flips |
| Scenarios.ClickPlayer | components/coach-lab/coach-lab-app.tsx:267-273 | a press and release on a player with no move selects it and leaves board and history unchanged |
| Scenarios.DragPlayer | components/coach-lab/coach-lab-app.tsx:298-307 | press, move and release on a player put it at the clamped pointer, leave everything else, and push exactly the board captured at the press |
| Scenarios.DragThenUndo | components/coach-lab/coach-lab-app.tsx:208-216 | a drag undone right after leaves board and history as before, when the history had room |
| Scenarios.ShortStroke | components/coach-lab/coach-lab-app.tsx:352-380 | a stroke no longer than 6 adds no drawing and no history |
| Scenarios.LongStroke | components/coach-lab/coach-lab-app.tsx:352-380 | a longer stroke appends exactly `NewShape` of the preview and pushes the board captured at the press |
| Scenarios.BlankText | components/coach-lab/coach-lab-app.tsx:390-391 | placing text that is only white space adds nothing and commits nothing |

## Left out

- Rendering, and the renderer's coordinate mapping, player radius and hit tests,
  are not part of this model. The pitch size is a parameter, and the hit-test
  results and handle lists are handler parameters.
- Canvas plumbing, the screenshot and the asynchronous photo upload are left
  out. They are DOM and file I/O.
- React scheduling is left out. Each handler is one atomic step; ref syncing
  through effects, batched `setState` updaters and the focus timeout are not
  modelled.
- CoachLab.Board.CommitHistory: pushes the captured snapshot, which is the
  evident intent of line 203. As written, the deferred updater reads
  `pendingHistoryRef` after line 204 has cleared it. What it then pushes depends
  on when React runs the updater, and that timing is outside this model.
- The random id generator is left out. A fresh, unused id is a parameter.
- Floating point is left out: coordinates are reals, and the length test is
  squared.
- Team-name editing, the formation picker's open/closed state, the editing-name
  text box, sidebars, cursor, overlay position and the notes box are left out.
  They are UI state with no board logic. The name edit is only open or closed,
  which is all the pointer and keyboard gates read.
- `app/page.tsx` and `app/layout.tsx` are left out. They are page chrome with
  no logic.
- CoachLab.Board.PointerMove / Drawings.EditHandle: the handle list is taken as a
  fresh value and edited as `handles[idx := p]`. The in-place write into the
  renderer's array at line 315 is not modelled. If the renderer returned a
  drawing's own `points` array, that write would also change the drawing held by
  the pending snapshot and the history, and undo would not restore it.
- CoachLab.Board.PointerMove: requires the handle list for a curved arrow to
  have a control handle at index 1, and the dragged index to be in the list.
  The renderer's lists are not part of this model. What the code does with a
  shorter list (an `undefined` point) is not modelled.
