/** The move logic of one BasePiece, as functions on a snapshot of the game:
    every cell's occupant (Cell.mCurrentPiece) and every piece's fields.
    Cells are named by their coordinate and pieces by their index, so the
    cell -> piece -> cell references become two lookups. */
module Rules {
  import opened Grid

  type PieceId = nat

  /** The fields of one BasePiece object. */
  datatype Piece = Piece(
    color: Color,              // mColor
    current: Option<Coord>,    // mCurrentCell
    original: Option<Coord>,   // mOriginalCell
    target: Option<Coord>,     // mTargetCell
    highlighted: seq<Coord>,   // mHighlightedCells
    active: bool)              // gameObject active flag

  /** A width x height board: the occupant of each occupied cell, and the pieces. */
  datatype World = World(width: nat, height: nat, occupant: map<Coord, PieceId>, pieces: seq<Piece>)

  predicate OnBoard(w: World, c: Coord)
  {
    InBounds(w.width, w.height, c)
  }

  predicate CellRef(width: nat, height: nat, o: Option<Coord>)
  {
    o.Some? ==> InBounds(width, height, o.value)
  }

  /** Every cell a piece refers to is a cell of the board, and a piece has a
      current cell exactly when it has an original one (Place sets both). */
  predicate PieceWf(width: nat, height: nat, r: Piece)
  {
    && CellRef(width, height, r.current)
    && CellRef(width, height, r.original)
    && CellRef(width, height, r.target)
    && r.current.Some? == r.original.Some?
    && forall i :: 0 <= i < |r.highlighted| ==> InBounds(width, height, r.highlighted[i])
  }

  /** The snapshot only mentions board cells and existing pieces. */
  predicate Wf(w: World)
  {
    && (forall c :: c in w.occupant ==> OnBoard(w, c) && w.occupant[c] < |w.pieces|)
    && (forall q :: 0 <= q < |w.pieces| ==> PieceWf(w.width, w.height, w.pieces[q]))
  }

  /** Piece p exists and has been placed on a cell. */
  predicate Placed(w: World, p: PieceId)
  {
    p < |w.pieces| && w.pieces[p].current.Some?
  }

  function Current(w: World, p: PieceId): Coord
    requires Placed(w, p)
  {
    w.pieces[p].current.value
  }

  /** The back-references agree: a cell's occupant is an active piece whose
      current cell is that cell, and an active placed piece occupies its
      current cell. */
  predicate Consistent(w: World)
    requires Wf(w)
  {
    && (forall c :: c in w.occupant ==>
          w.pieces[w.occupant[c]].active && w.pieces[w.occupant[c]].current == Some(c))
    && (forall q :: 0 <= q < |w.pieces| && w.pieces[q].active && w.pieces[q].current.Some? ==>
          Holds(w, w.pieces[q].current.value, q))
  }

  /** Cell c's occupant is piece q. */
  predicate Holds(w: World, c: Coord, q: PieceId)
  {
    c in w.occupant && w.occupant[c] == q
  }

  /** Cell c is empty or already held by p. */
  predicate FreeOrHeldBy(w: World, c: Coord, p: PieceId)
  {
    c !in w.occupant || w.occupant[c] == p
  }

  /** Board.ValidateCell(x, y, piece), which this model takes to classify a
      coordinate against the team of piece p: off the board, empty, held by
      the same team, or held by the other team. */
  function ValidateCell(w: World, c: Coord, p: PieceId): (s: CellState)
    requires Wf(w) && p < |w.pieces|
    ensures s == OutOfBounds <==> !OnBoard(w, c)
    ensures s == Free <==> OnBoard(w, c) && c !in w.occupant
    ensures s == Enemy <==>
      OnBoard(w, c) && c in w.occupant && w.pieces[w.occupant[c]].color != w.pieces[p].color
  {
    if !OnBoard(w, c) then OutOfBounds
    else if c !in w.occupant then Free
    else if w.pieces[w.occupant[c]].color == w.pieces[p].color then Friendly
    else Enemy
  }

  /** CreateCellPath adds a cell exactly when it is free or holds an enemy. */
  predicate Reachable(w: World, p: PieceId, c: Coord)
    requires Wf(w) && p < |w.pieces|
  {
    var s := ValidateCell(w, c, p);
    s == Free || s == Enemy
  }

  /** The snapshot with piece p's record replaced. */
  function SetPiece(w: World, p: PieceId, r: Piece): World
    requires p < |w.pieces|
  {
    w.(pieces := w.pieces[p := r])
  }

  /** Place(newCell): both cells of p become c, c's occupant becomes p, p is activated. */
  function Place(w: World, p: PieceId, c: Coord): (r: World)
    requires Wf(w) && p < |w.pieces| && OnBoard(w, c)
    ensures Wf(r) && Placed(r, p)
  {
    var piece := w.pieces[p].(current := Some(c), original := Some(c), active := true);
    w.(occupant := w.occupant[c := p], pieces := w.pieces[p := piece])
  }

  /** Kill(): the current cell loses its occupant, whoever that is, and p is deactivated. */
  function Kill(w: World, p: PieceId): (r: World)
    requires Wf(w) && Placed(w, p)
    ensures Wf(r) && Placed(r, p)
    ensures Current(r, p) == Current(w, p)
  {
    var cur := Current(w, p);
    w.(occupant := w.occupant - {cur}, pieces := w.pieces[p := w.pieces[p].(active := false)])
  }

  /** Reset(): Kill, then Place on the original cell. */
  function Reset(w: World, p: PieceId): (r: World)
    requires Wf(w) && Placed(w, p)
    ensures Wf(r) && Placed(r, p)
  {
    var k := Kill(w, p);
    Place(k, p, k.pieces[p].original.value)
  }

  /** Cell.RemovePiece, which this model takes to empty the cell and
      deactivate the piece that was on it, if any. */
  function RemovePiece(w: World, c: Coord): (r: World)
    requires Wf(w)
    ensures Wf(r)
  {
    if c in w.occupant then
      var q := w.occupant[c];
      w.(occupant := w.occupant - {c}, pieces := w.pieces[q := w.pieces[q].(active := false)])
    else w
  }

  /** CreateCellPath(dx, dy): classify the one neighbour at offset (dx, dy)
      and append it to the highlighted list when it is an enemy or free. */
  function CreateCellPath(w: World, p: PieceId, dx: int, dy: int): (r: World)
    requires Wf(w) && Placed(w, p)
    ensures Wf(r) && Placed(r, p)
    ensures r.occupant == w.occupant && |r.pieces| == |w.pieces|
  {
    var c := Step(Current(w, p), (dx, dy));
    var state := ValidateCell(w, c, p);
    if state == Enemy then SetPiece(w, p, w.pieces[p].(highlighted := w.pieces[p].highlighted + [c]))
    else if state != Free then w
    else SetPiece(w, p, w.pieces[p].(highlighted := w.pieces[p].highlighted + [c]))
  }

  /** CheckPathing(): the eight single-step probes, in the source's order. */
  function CheckPathing(w: World, p: PieceId): (r: World)
    requires Wf(w) && Placed(w, p)
    ensures Wf(r) && Placed(r, p)
    ensures r.occupant == w.occupant && |r.pieces| == |w.pieces|
  {
    var w1 := CreateCellPath(w, p, 1, 0);
    var w2 := CreateCellPath(w1, p, -1, 0);
    var w3 := CreateCellPath(w2, p, 0, 1);
    var w4 := CreateCellPath(w3, p, 0, -1);
    var w5 := CreateCellPath(w4, p, 1, 1);
    var w6 := CreateCellPath(w5, p, -1, 1);
    var w7 := CreateCellPath(w6, p, -1, -1);
    CreateCellPath(w7, p, 1, -1)
  }

  /** Reference definition of what probing `dirs` from p's cell adds, in order:
      each neighbour that is free or holds an enemy. */
  function Path(w: World, p: PieceId, dirs: seq<(int, int)>): (r: seq<Coord>)
    requires Wf(w) && Placed(w, p)
    ensures |r| <= |dirs|
    ensures forall c :: c in r ==>
      Reachable(w, p, c) && exists i :: 0 <= i < |dirs| && c == Step(Current(w, p), dirs[i])
    decreases |dirs|
  {
    if dirs == [] then []
    else
      var c := Step(Current(w, p), dirs[0]);
      var rest := Path(w, p, dirs[1..]);
      assert forall c' :: c' in rest ==> exists i :: 0 <= i < |dirs| && c' == Step(Current(w, p), dirs[i]) by {
        forall c' | c' in rest
          ensures exists i :: 0 <= i < |dirs| && c' == Step(Current(w, p), dirs[i])
        {
          var j :| 0 <= j < |dirs| - 1 && c' == Step(Current(w, p), dirs[1..][j]);
          assert c' == Step(Current(w, p), dirs[j + 1]);
        }
      }
      (if Reachable(w, p, c) then [c] else []) + rest
  }

  /** ClearCells(): the highlighted list is emptied. */
  function ClearCells(w: World, p: PieceId): (r: World)
    requires Wf(w) && p < |w.pieces|
    ensures Wf(r) && |r.pieces| == |w.pieces| && r.pieces[p].highlighted == []
  {
    SetPiece(w, p, w.pieces[p].(highlighted := []))
  }

  /** Move(): remove whatever is on the target, leave the current cell,
      occupy the target and forget it as a target. */
  function Move(w: World, p: PieceId): (r: World)
    requires Wf(w) && Placed(w, p) && w.pieces[p].target.Some?
    ensures Wf(r) && Placed(r, p) && |r.pieces| == |w.pieces|
  {
    var t := w.pieces[p].target.value;
    var w1 := RemovePiece(w, t);
    var cur := Current(w1, p);
    var piece := w1.pieces[p].(current := Some(t), target := None);
    w1.(occupant := (w1.occupant - {cur})[t := p], pieces := w1.pieces[p := piece])
  }

  /** Index of the first cell the pointer is over; |cells| when there is none. */
  function FirstHit(cells: seq<Coord>, contains: Coord -> bool): (k: nat)
    ensures k <= |cells|
    ensures k < |cells| ==> contains(cells[k])
    ensures forall j :: 0 <= j < k ==> !contains(cells[j])
    decreases |cells|
  {
    if cells == [] then 0
    else if contains(cells[0]) then 0
    else 1 + FirstHit(cells[1..], contains)
  }

  /** The target selection of OnDrag: over a non-empty highlighted list the
      target becomes the first cell under the pointer, or none; over an empty
      list the loop body never runs. */
  function Drag(w: World, p: PieceId, contains: Coord -> bool): (r: World)
    requires Wf(w) && p < |w.pieces|
    ensures Wf(r) && r.occupant == w.occupant && |r.pieces| == |w.pieces|
    ensures r.pieces[p] == w.pieces[p].(target := r.pieces[p].target)
    ensures forall q :: 0 <= q < |w.pieces| && q != p ==> r.pieces[q] == w.pieces[q]
  {
    var cells := w.pieces[p].highlighted;
    if cells == [] then w
    else
      var k := FirstHit(cells, contains);
      SetPiece(w, p, w.pieces[p].(target := if k < |cells| then Some(cells[k]) else None))
  }

  /** OnEndDrag: without a target revert and clear the list; with one, Move
      (SwitchSides is recorded by the caller) and clear the list. */
  function EndDrag(w: World, p: PieceId): (r: World)
    requires Wf(w) && Placed(w, p)
    ensures Wf(r) && Placed(r, p) && |r.pieces| == |w.pieces|
  {
    if w.pieces[p].target.None? then ClearCells(w, p)
    else ClearCells(Move(w, p), p)
  }

  /** Whether OnEndDrag calls SwitchSides. */
  predicate Commits(w: World, p: PieceId)
    requires p < |w.pieces|
  {
    w.pieces[p].target.Some?
  }

  /** No drag in progress: no target and nothing highlighted. */
  predicate Idle(w: World, p: PieceId)
    requires p < |w.pieces|
  {
    w.pieces[p].target.None? && w.pieces[p].highlighted == []
  }
}
