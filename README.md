# Laser-Chess piece movement, modelled in Dafny

This project models the move logic of one chess piece in the Laser-Chess Unity
game (`BasePiece`). A piece that starts being dragged probes the eight
neighbouring cells. It asks the board to classify each one, and it collects
the free cells and the cells held by the other team in its highlighted list.
While the drag goes on, the piece's target is the first highlighted cell under
the pointer. When the drag ends, the piece either returns to its cell or moves
to the target. A move captures whatever stood on the target and hands the turn
to the other team. Cells and pieces refer to each other: a cell's occupant
(`mCurrentPiece`) and a piece's current cell (`mCurrentCell`). `Place`,
`Kill`, `Reset` and `Move` keep the two in step.

How the model is built:

- `Grid` holds coordinates, team colours, the cell classification and the
  eight probe offsets in the order `CheckPathing` uses them.
- `Rules` holds a snapshot of the game as a value (`World`). Cells are named
  by coordinate and pieces by index, so each reference becomes a lookup. Every
  `BasePiece` operation is a function on that snapshot.
- `Candidates`, `Occupancy` and `Selection` prove what those functions promise:
  - which cells are highlighted;
  - how the two kinds of reference stay consistent (`Rules.Consistent`);
  - what one whole drag does, with any number of `OnDrag` events.
- `Chessboard.Board` is the mutable state. Its fields are the cells'
  occupants, the pieces' fields and the turn switches made so far. Each method
  updates those fields step by step, as the C# method does. The methods from
  `Place` to `Move` are tied by their postconditions to the `Rules` function
  of the same name. `OnBeginDrag` is tied to `Rules.CheckPathing`, `OnDrag` to
  `Rules.Drag` and `OnEndDrag` to `Rules.EndDrag`. `Setup` and `SwitchSides`
  state their effect on the fields directly.
  `OnDrag` keeps the source's loop, including its early `break`.
- `Scenarios` replays drags on an 8 x 8 board with the piece at (3, 3), the
  pointer on (4, 4), and one of three neighbours on (4, 4): none, an enemy,
  or an ally.

Where the code and a natural reading of it part ways, the model follows the code:

- **Drag target.** The loop in `OnDrag` breaks at the first highlighted cell
  under the pointer, and that cell becomes the target. Each `OnDrag` event
  sets the target afresh, so only the last pointer position of a drag
  matters.
- **Reset overwrites.** `Reset` does not clear a foreign piece standing on the
  original cell. `Place` overwrites that cell's occupant, and the displaced
  piece keeps a stale current cell (`Occupancy.ResetOverwritesOccupant`).
- **Reset after a capture.** Resetting a piece that was captured empties the
  cell it was captured on, which its capturer now holds
  (`Occupancy.ResetAfterCaptureUnseatsCapturer`).
- **Consistency needs assumptions.** Consistency survives `Reset` and `Move`
  only under the conditions stated in their lemmas.

## Model

| member | source | states |
|---|---|---|
| `Grid.DirectionsAreKingSteps` | Unity/Assets/Scripts/Pieces/BasePiece.cs:96-110 | each of the eight offsets probed by CheckPathing moves exactly one king step (Chebyshev distance 1) from any cell |
| `Grid.DirectionsDistinct` | Unity/Assets/Scripts/Pieces/BasePiece.cs:96-110 | the eight offsets are pairwise different, so no neighbour is probed twice |
| `Rules.ValidateCell` | Unity/Assets/Scripts/Pieces/BasePiece.cs:76-89 | the classification is OutOfBounds exactly off the board, Free exactly on an empty board cell, and Enemy exactly on a board cell held by a piece of the other colour; Free and Enemy therefore imply the cell is on the board |
| `Rules.Place` | Unity/Assets/Scripts/Pieces/BasePiece.cs:33-46 | placing keeps every cell and piece reference on the board and leaves the piece with a current cell |
| `Rules.Kill` | Unity/Assets/Scripts/Pieces/BasePiece.cs:54-59 | killing keeps the snapshot well formed, and the piece keeps the same current cell |
| `Rules.Reset` | Unity/Assets/Scripts/Pieces/BasePiece.cs:48-52 | Kill then Place on the original cell keeps the snapshot well formed and the piece placed |
| `Rules.RemovePiece` | Unity/Assets/Scripts/Pieces/BasePiece.cs:136-137 | removing the target's occupant keeps the snapshot well formed |
| `Rules.CreateCellPath` | Unity/Assets/Scripts/Pieces/BasePiece.cs:62-91 | one probe keeps the snapshot well formed (every highlighted cell is a board cell), changes no occupant and adds no piece |
| `Rules.CheckPathing` | Unity/Assets/Scripts/Pieces/BasePiece.cs:93-112 | the eight probes keep the snapshot well formed and the piece placed, change no occupant and add no piece |
| `Rules.Path` | Unity/Assets/Scripts/Pieces/BasePiece.cs:93-112 | the cells probing a list of offsets adds: at most as many cells as offsets, each free or an enemy, each the current cell moved by one of the offsets |
| `Rules.ClearCells` | Unity/Assets/Scripts/Pieces/BasePiece.cs:123-132 | the highlighted list is empty afterwards and the snapshot stays well formed |
| `Rules.Move` | Unity/Assets/Scripts/Pieces/BasePiece.cs:134-150 | moving keeps the snapshot well formed and the piece placed |
| `Rules.FirstHit` | Unity/Assets/Scripts/Pieces/BasePiece.cs:177-188 | the index where the OnDrag loop breaks: the first cell under the pointer; no earlier cell is under it; the list length when none is |
| `Rules.Drag` | Unity/Assets/Scripts/Pieces/BasePiece.cs:177-188 | target selection keeps the snapshot well formed and changes nothing but the piece's target: no occupant, no other piece, no other field |
| `Rules.EndDrag` | Unity/Assets/Scripts/Pieces/BasePiece.cs:191-209 | revert or commit keeps the snapshot well formed and the piece placed |
| `Candidates.CreateCellPathAppends` | Unity/Assets/Scripts/Pieces/BasePiece.cs:62-91 | CreateCellPath(dx, dy) appends exactly the cell at current + (dx, dy) when it is free or an enemy and otherwise changes nothing; nothing further along the direction is looked at and nothing but the list changes |
| `Candidates.ProbeFrom` | Unity/Assets/Scripts/Pieces/BasePiece.cs:62-91 | a probe made after earlier probes appends to the list built so far the same cell, if any, that it adds on the original snapshot, since the classification does not look at the list |
| `Candidates.PathEight` | Unity/Assets/Scripts/Pieces/BasePiece.cs:96-110 | the candidate list is the concatenation of the eight single-probe results, in the source's order |
| `Candidates.CheckPathingHits` | Unity/Assets/Scripts/Pieces/BasePiece.cs:93-112 | CheckPathing appends the eight single-probe results, in order, to the existing list |
| `Candidates.CheckPathingAppendsPath` | Unity/Assets/Scripts/Pieces/BasePiece.cs:93-112 | CheckPathing appends Path over the eight offsets to whatever the list held, without clearing it |
| `Candidates.CheckPathingGrows` | Unity/Assets/Scripts/Pieces/BasePiece.cs:93-112 | the old list stays a prefix, the list grows by at most 8, and no occupant, no other piece and no other field of the piece changes |
| `Candidates.PathAdjacent` | Unity/Assets/Scripts/Pieces/BasePiece.cs:65-89 | every added cell is at Chebyshev distance 1 from the piece, is not its own cell, is on the board, and is classified neither Friendly nor OutOfBounds |
| `Candidates.EmptyNeighbourhood` | Unity/Assets/Scripts/Pieces/BasePiece.cs:62-112 | with no piece on any probed neighbour the added cells are exactly the probed neighbours on the board, so their number is the number of in-bounds neighbours |
| `Candidates.PathLocal` | Unity/Assets/Scripts/Pieces/BasePiece.cs:62-91 | two boards that agree on which probed neighbours are occupied, and by which team, give the same candidates |
| `Occupancy.ConsistentIff` | Unity/Assets/Scripts/Pieces/BasePiece.cs:36-38 | under the consistency invariant a cell holds a piece exactly when the piece is active and names that cell as its current cell |
| `Occupancy.ConsistentOneCellPerPiece` | Unity/Assets/Scripts/Pieces/BasePiece.cs:140-144 | under the consistency invariant no piece occupies two cells |
| `Occupancy.PlaceEffects` | Unity/Assets/Scripts/Pieces/BasePiece.cs:33-46 | Place(c) sets both current and original cell to c, makes c's occupant the piece, activates it, and changes no other cell or piece |
| `Occupancy.PlacePreservesConsistency` | Unity/Assets/Scripts/Pieces/BasePiece.cs:33-46 | Place keeps the references in step when c is empty or already the piece's and the piece stands on no other cell |
| `Occupancy.KillEffects` | Unity/Assets/Scripts/Pieces/BasePiece.cs:54-59 | Kill empties the current cell and deactivates the piece, keeps its current and original cell, and changes no other cell or piece |
| `Occupancy.KillPreservesConsistency` | Unity/Assets/Scripts/Pieces/BasePiece.cs:54-59 | Kill keeps the references in step when the current cell is empty or holds the piece |
| `Occupancy.ResetRestores` | Unity/Assets/Scripts/Pieces/BasePiece.cs:48-52 | Reset ends with the piece active on its unchanged original cell, whose occupant is the piece |
| `Occupancy.ResetPreservesConsistency` | Unity/Assets/Scripts/Pieces/BasePiece.cs:48-52 | Reset keeps the references in step when both the current and the original cell are empty or held by the piece |
| `Occupancy.ResetOverwritesOccupant` | Unity/Assets/Scripts/Pieces/BasePiece.cs:48-56 | when another piece stands on the original cell, Reset overwrites that cell's occupant; the displaced piece stays active with a stale current cell and consistency is lost |
| `Occupancy.MoveEffects` | Unity/Assets/Scripts/Pieces/BasePiece.cs:134-150 | on any snapshot, consistent or not, with a target other than the current cell: the current cell becomes the former target, the target holds the piece, the former cell is empty, the target is cleared, any previous occupant of the target is deactivated (the piece itself only if it was that occupant), and no other cell or piece changes |
| `Occupancy.CaptureDeactivatesOnlyVictim` | Unity/Assets/Scripts/Pieces/BasePiece.cs:136-137 | on any snapshot, Move deactivates exactly the target's occupant; every other piece, the mover included, keeps its active flag |
| `Occupancy.MovePreservesConsistency` | Unity/Assets/Scripts/Pieces/BasePiece.cs:134-150 | Move keeps the references in step for an active piece whose target is not its own cell |
| `Occupancy.MoveOntoOwnCellDeactivates` | Unity/Assets/Scripts/Pieces/BasePiece.cs:137-144 | a target equal to the piece's own cell would deactivate the piece while it holds the cell, breaking consistency |
| `Occupancy.ResetAfterCaptureUnseatsCapturer` | Unity/Assets/Scripts/Pieces/BasePiece.cs:48-56 | resetting a captured piece empties the cell it was captured on, so the capturer stays active on a cell that no longer holds it |
| `Selection.ConsistentSameRefs` | Unity/Assets/Scripts/Pieces/BasePiece.cs:170-189 | changing only lists and targets cannot break consistency |
| `Selection.DragSelectsFirst` | Unity/Assets/Scripts/Pieces/BasePiece.cs:177-188 | OnDrag changes only the piece's target; over an empty list nothing; otherwise the target is the first listed cell under the pointer, and none exactly when no listed cell is under it |
| `Selection.DragTargetHighlighted` | Unity/Assets/Scripts/Pieces/BasePiece.cs:177-188 | after OnDrag over a non-empty list the target is none or one of the highlighted cells |
| `Selection.EndDragReverts` | Unity/Assets/Scripts/Pieces/BasePiece.cs:197-202 | without a target OnEndDrag does not switch sides, changes no occupant, no cell of the piece and no other piece, and empties the list |
| `Selection.EndDragCommits` | Unity/Assets/Scripts/Pieces/BasePiece.cs:204-207 | with a target OnEndDrag switches sides, the piece holds the target and has left its cell, the target is forgotten, the list is empty and consistency is kept |
| `Selection.EndDragIdle` | Unity/Assets/Scripts/Pieces/BasePiece.cs:191-209 | OnEndDrag always leaves the piece with no target and an empty list |
| `Selection.SelectingKeepsBoard` | Unity/Assets/Scripts/Pieces/BasePiece.cs:161-189 | OnBeginDrag then OnDrag change no occupant and no other piece, and of the piece only its list and target |
| `Selection.CandidatesKeepBoard` | Unity/Assets/Scripts/Pieces/BasePiece.cs:161-168 | building the candidate list keeps the snapshot well formed and consistent, changes no occupant and leaves the piece active and on its cell |
| `Selection.PickedCandidate` | Unity/Assets/Scripts/Pieces/BasePiece.cs:177-188 | a target OnDrag picks from candidates of king-step offsets is a neighbour at distance 1, was free or an enemy when probed, and is under the pointer |
| `Selection.DragRoundFrom` | Unity/Assets/Scripts/Pieces/BasePiece.cs:161-209 | a drag with one OnDrag event over the candidates of any king-step offsets ends consistent and idle; a commit lands on a reachable neighbour under the pointer |
| `Selection.DragRound` | Unity/Assets/Scripts/Pieces/BasePiece.cs:161-209 | a drag with one OnDrag event, from an idle consistent position, ends consistent and idle; it either moves to a neighbour that was free or an enemy and under the pointer, emptying the old cell, or changes no occupant and leaves the piece where it was |
| `Selection.DragOverrides` | Unity/Assets/Scripts/Pieces/BasePiece.cs:170-189 | a later OnDrag overrides an earlier one: two events in a row give what the second alone gives |
| `Selection.Drags` | Unity/Assets/Scripts/Pieces/BasePiece.cs:170-189 | a run of OnDrag events keeps the snapshot well formed and changes no occupant, no other piece and no field of the piece but its target |
| `Selection.DragsKeepLast` | Unity/Assets/Scripts/Pieces/BasePiece.cs:170-189 | after any non-empty run of OnDrag events the state is what the last event alone gives |
| `Selection.DragSession` | Unity/Assets/Scripts/Pieces/BasePiece.cs:161-209 | a whole drag with any number of OnDrag events ends consistent and idle. A commit needs at least one event; it lands on a neighbour that was free or an enemy and is under the last pointer position, and it empties the old cell. Otherwise no occupant changes and the piece stays where it was |
| `Scenarios.EmptyNeighbourHit` | Unity/Assets/Scripts/Pieces/BasePiece.cs:62-91 | with the piece at (3, 3), the probe towards an empty on-board neighbour adds exactly that neighbour |
| `Scenarios.SettingHits` | Unity/Assets/Scripts/Pieces/BasePiece.cs:96-110 | the eight probes from (3, 3) add (4,3), (2,3), (3,4), (3,2), then (4,4) exactly when it is free or an enemy, then (2,4), (2,2), (4,2) |
| `Scenarios.SettingCandidates` | Unity/Assets/Scripts/Pieces/BasePiece.cs:93-112 | on an 8 x 8 board with the piece at (3, 3), the list is the eight neighbours in probe order, with (4, 4) exactly when it is free or an enemy |
| `Scenarios.AloneCandidates` | Unity/Assets/Scripts/Pieces/BasePiece.cs:93-112 | with no neighbour occupied all eight neighbours are listed, (4,3),(2,3),(3,4),(3,2),(4,4),(2,4),(2,2),(4,2) |
| `Scenarios.DragOntoDiag` | Unity/Assets/Scripts/Pieces/BasePiece.cs:177-188 | with the pointer on (4, 4), the fifth listed cell, OnDrag targets (4, 4) |
| `Scenarios.DragMissesDiag` | Unity/Assets/Scripts/Pieces/BasePiece.cs:177-188 | with the pointer on (4, 4) and (4, 4) not listed, OnDrag leaves the target unset |
| `Scenarios.AloneMovesToDiag` | Unity/Assets/Scripts/Pieces/BasePiece.cs:161-209 | dragging onto the empty (4, 4) moves the piece there and empties (3, 3) |
| `Scenarios.CommitOntoDiag` | Unity/Assets/Scripts/Pieces/BasePiece.cs:204-207 | committing a drag from (3, 3) onto (4, 4) held by another piece deactivates that piece, leaves the dragged piece holding (4, 4), empties (3, 3) and keeps consistency |
| `Scenarios.EnemyCaptured` | Unity/Assets/Scripts/Pieces/BasePiece.cs:161-209 | an enemy on (4, 4) is classified Enemy and listed; dragging onto it deactivates it and the piece holds (4, 4) |
| `Scenarios.AllyExcluded` | Unity/Assets/Scripts/Pieces/BasePiece.cs:161-209 | an ally on (4, 4) is classified Friendly and not listed; OnDrag with the pointer on it leaves the target unset and OnEndDrag changes no occupant |
| `Chessboard.Board.Setup` | Unity/Assets/Scripts/Pieces/BasePiece.cs:12-31 | creating the piece object, with the field initial values of lines 12-21, and then Setup's colour assignment: a new active piece of the given team, on no cell and with no target and an empty list, is appended; nothing else changes |
| `Chessboard.Board.Place` | Unity/Assets/Scripts/Pieces/BasePiece.cs:33-46 | the field updates of Place, in the source's order, give Rules.Place of the old state |
| `Chessboard.Board.Kill` | Unity/Assets/Scripts/Pieces/BasePiece.cs:54-59 | the field updates of Kill give Rules.Kill of the old state |
| `Chessboard.Board.Reset` | Unity/Assets/Scripts/Pieces/BasePiece.cs:48-52 | calling Kill then Place on the original cell gives Rules.Reset of the old state |
| `Chessboard.Board.RemovePiece` | Unity/Assets/Scripts/Pieces/BasePiece.cs:136-137 | emptying the cell and deactivating its occupant gives Rules.RemovePiece of the old state |
| `Chessboard.Board.CreateCellPath` | Unity/Assets/Scripts/Pieces/BasePiece.cs:62-91 | the early-return branches of CreateCellPath give Rules.CreateCellPath of the old state |
| `Chessboard.Board.CheckPathing` | Unity/Assets/Scripts/Pieces/BasePiece.cs:93-112 | the eight calls give Rules.CheckPathing of the old state |
| `Chessboard.Board.ClearCells` | Unity/Assets/Scripts/Pieces/BasePiece.cs:123-132 | emptying the list gives Rules.ClearCells of the old state |
| `Chessboard.Board.Move` | Unity/Assets/Scripts/Pieces/BasePiece.cs:134-150 | RemovePiece, clearing the current cell, switching cells and clearing the target, in that order, give Rules.Move of the old state |
| `Chessboard.Board.SwitchSides` | Unity/Assets/Scripts/Pieces/BasePiece.cs:206 | the team colour is appended to the record of turn switches |
| `Chessboard.Board.OnBeginDrag` | Unity/Assets/Scripts/Pieces/BasePiece.cs:161-168 | beginning a drag gives Rules.CheckPathing of the old state |
| `Chessboard.Board.OnDrag` | Unity/Assets/Scripts/Pieces/BasePiece.cs:170-189 | the loop that breaks at the first cell under the pointer gives Rules.Drag of the old state, without touching occupants or turn switches |
| `Chessboard.Board.OnEndDrag` | Unity/Assets/Scripts/Pieces/BasePiece.cs:191-209 | ending a drag gives Rules.EndDrag of the old state and records the piece's colour as a turn switch exactly once when there was a target, never otherwise |

## Left out

- Presentation is not modelled, because it has no effect on the game state. This covers `transform.position` updates, the drag offset `eventData.delta`, sprite and `Image` colours in `Setup`, `ShowCells` and the outline toggling in `ClearCells`, and `Debug.Log`.
- Screen-space hit testing (`RectTransformUtility.RectangleContainsScreenPoint` with `Input.mousePosition`) becomes the parameter `contains: Coord -> bool`. It is a UI call outside the game logic.
- Board.ValidateCell, Cell.RemovePiece and PieceManager.SwitchSides are not part of this model. Each gets the contract the call sites need:
  - ValidateCell: off the board, empty, same team, or other team. Free and Enemy imply a board cell, because the code indexes `mAllCells` in exactly those cases.
  - RemovePiece: empties the cell and deactivates its occupant, if any.
  - SwitchSides: the colour is appended to `Board.switched`.
- `mIsFirstMove` and `mMovement` are not modelled, because nothing in `BasePiece` reads or updates them.
- The default colour `Color.clear` and the piece-manager handle of `Setup` are not modelled; a team is one of two colours.
- `CellState.None` is not modelled, because its only use is an initial value that is overwritten at once.
- `OnPointerClick` is not modelled, because it does nothing. The `EventTrigger` base calls are not modelled, because they are framework event routing.
- Rules.Kill, Rules.CreateCellPath and Chessboard.Board.Move: a null `mCurrentCell` or `mTargetCell` would throw in the source. The model instead requires a placed piece, and for Move a target; `OnEndDrag` checks for the target before calling Move.
- Chessboard.Board: the pieces live in one sequence indexed by piece, with a parameter `p` in place of `this`. Object identity and aliasing between `Cell` and `BasePiece` objects are expressed as index lookups rather than references.
- Rules.Place, Rules.Kill, Rules.Reset, Rules.RemovePiece, Rules.ClearCells, Rules.Move and Rules.EndDrag: their own contracts state only well-formedness and sizes. Rules.CreateCellPath and Rules.CheckPathing add only that occupants are unchanged. The lemmas in Candidates, Occupancy and Selection state their effects.
