/** The drag protocol: OnBeginDrag builds the highlighted list, OnDrag picks
    the target under the pointer, OnEndDrag commits or reverts. */
module Selection {
  import opened Grid
  import opened Rules
  import opened Candidates
  import opened Occupancy

  /** Two snapshots that agree on every cell's occupant and on every piece's
      active flag and current cell agree on Consistent. */
  lemma ConsistentSameRefs(w: World, w': World)
    requires Wf(w) && Wf(w') && Consistent(w)
    requires w'.occupant == w.occupant && |w'.pieces| == |w.pieces|
    requires forall q :: 0 <= q < |w.pieces| ==>
      w'.pieces[q].active == w.pieces[q].active && w'.pieces[q].current == w.pieces[q].current
    ensures Consistent(w')
  {
    forall q | 0 <= q < |w'.pieces| && w'.pieces[q].active && w'.pieces[q].current.Some?
      ensures Holds(w', w'.pieces[q].current.value, q)
    {
      assert Holds(w, w.pieces[q].current.value, q);
    }
  }

  /** OnDrag changes only p's target. Over an empty list it changes nothing;
      otherwise the target is the first highlighted cell under the pointer,
      and none exactly when the pointer is over no highlighted cell. */
  lemma DragSelectsFirst(w: World, p: PieceId, contains: Coord -> bool)
    requires Wf(w) && p < |w.pieces|
    ensures var cells, r := w.pieces[p].highlighted, Drag(w, p, contains);
      && r.occupant == w.occupant && |r.pieces| == |w.pieces|
      && (forall q :: 0 <= q < |w.pieces| && q != p ==> r.pieces[q] == w.pieces[q])
      && r.pieces[p] == w.pieces[p].(target := r.pieces[p].target)
      && (cells == [] ==> r == w)
      && (cells != [] ==>
            (r.pieces[p].target.None? <==> forall i :: 0 <= i < |cells| ==> !contains(cells[i])))
      && (cells != [] && r.pieces[p].target.Some? ==>
            exists k :: 0 <= k < |cells| && cells[k] == r.pieces[p].target.value && contains(cells[k])
              && forall j :: 0 <= j < k ==> !contains(cells[j]))
  {
    var cells := w.pieces[p].highlighted;
    if cells != [] {
      var k := FirstHit(cells, contains);
      if k < |cells| {
        assert exists i :: 0 <= i < |cells| && contains(cells[i]);
      }
    }
  }

  /** After OnDrag over a non-empty list the target is none or one of the
      highlighted cells. */
  lemma DragTargetHighlighted(w: World, p: PieceId, contains: Coord -> bool)
    requires Wf(w) && p < |w.pieces| && w.pieces[p].highlighted != []
    ensures var t := Drag(w, p, contains).pieces[p].target;
      t.None? || t.value in w.pieces[p].highlighted
  {
  }

  /** OnEndDrag without a target reverts: no occupant, no cell of p and no
      other piece changes, SwitchSides is not called, the list is emptied. */
  lemma EndDragReverts(w: World, p: PieceId)
    requires Wf(w) && Placed(w, p) && w.pieces[p].target.None?
    ensures var r := EndDrag(w, p);
      && !Commits(w, p)
      && r.occupant == w.occupant && |r.pieces| == |w.pieces|
      && (forall q :: 0 <= q < |w.pieces| && q != p ==> r.pieces[q] == w.pieces[q])
      && r.pieces[p] == w.pieces[p].(highlighted := [])
  {
  }

  /** OnEndDrag with a target commits: SwitchSides is called, p occupies the
      target and has left its cell, the target is forgotten, the list is
      emptied, and the references stay in step. */
  lemma EndDragCommits(w: World, p: PieceId)
    requires Wf(w) && Consistent(w) && Placed(w, p) && w.pieces[p].active
    requires w.pieces[p].target.Some? && w.pieces[p].target.value != Current(w, p)
    ensures var t, r := w.pieces[p].target.value, EndDrag(w, p);
      && Commits(w, p)
      && r.pieces[p].current == Some(t) && Holds(r, t, p)
      && Current(w, p) !in r.occupant
      && Idle(r, p)
      && Consistent(r)
  {
    MoveEffects(w, p);
    MovePreservesConsistency(w, p);
    ConsistentSameRefs(Move(w, p), EndDrag(w, p));
  }

  /** OnEndDrag always leaves p with no target and an empty list. */
  lemma EndDragIdle(w: World, p: PieceId)
    requires Wf(w) && Placed(w, p)
    ensures Idle(EndDrag(w, p), p)
  {
  }

  /** OnBeginDrag followed by OnDrag changes no occupant and no piece other
      than p, and of p only its list and its target. */
  lemma SelectingKeepsBoard(w: World, p: PieceId, contains: Coord -> bool)
    requires Wf(w) && Consistent(w) && Placed(w, p)
    ensures var w2 := Drag(CheckPathing(w, p), p, contains);
      && Wf(w2) && Consistent(w2) && Placed(w2, p)
      && w2.occupant == w.occupant && |w2.pieces| == |w.pieces|
      && (forall q :: 0 <= q < |w.pieces| && q != p ==> w2.pieces[q] == w.pieces[q])
      && w2.pieces[p] == w.pieces[p].(highlighted := w2.pieces[p].highlighted, target := w2.pieces[p].target)
  {
    var w1 := CheckPathing(w, p);
    CheckPathingGrows(w, p);
    ConsistentSameRefs(w, w1);
    DragSelectsFirst(w1, p, contains);
    ConsistentSameRefs(w1, Drag(w1, p, contains));
  }

  /** Listing the candidates of `dirs` keeps the board and the references as
      they were. */
  lemma CandidatesKeepBoard(w: World, w1: World, p: PieceId, dirs: seq<(int, int)>)
    requires Wf(w) && Consistent(w) && Placed(w, p)
    requires w1 == WithHighlighted(w, p, Path(w, p, dirs))
    ensures Wf(w1) && Placed(w1, p) && Consistent(w1)
    ensures w1.occupant == w.occupant && w1.pieces[p].active == w.pieces[p].active
    ensures Current(w1, p) == Current(w, p)
  {
    var cells := Path(w, p, dirs);
    forall i | 0 <= i < |cells| ensures OnBoard(w, cells[i]) {
      assert cells[i] in cells;
    }
    assert PieceWf(w.width, w.height, w1.pieces[p]);
    ConsistentSameRefs(w, w1);
  }

  /** A target OnDrag picks from the candidates of king-step offsets is a
      neighbour, was free or held an enemy, and is under the pointer. */
  lemma PickedCandidate(w: World, w1: World, p: PieceId, dirs: seq<(int, int)>, contains: Coord -> bool)
    requires Wf(w) && Placed(w, p) && Wf(w1) && p < |w1.pieces|
    requires forall i :: 0 <= i < |dirs| ==> Chebyshev(Step(Current(w, p), dirs[i]), Current(w, p)) == 1
    requires w1.pieces[p].highlighted == Path(w, p, dirs)
    requires Drag(w1, p, contains).pieces[p].target.Some? && w1.pieces[p].highlighted != []
    ensures var t := Drag(w1, p, contains).pieces[p].target.value;
      Chebyshev(t, Current(w, p)) == 1 && Reachable(w, p, t) && contains(t)
  {
    var t := Drag(w1, p, contains).pieces[p].target.value;
    DragSelectsFirst(w1, p, contains);
    assert t in Path(w, p, dirs);
    var i :| 0 <= i < |dirs| && t == Step(Current(w, p), dirs[i]);
  }

  /** DragRound for any set of king-step offsets, starting from the list
      that probing them builds from an idle state. */
  lemma DragRoundFrom(w: World, w1: World, p: PieceId, dirs: seq<(int, int)>, contains: Coord -> bool)
    requires Wf(w) && Consistent(w) && Placed(w, p) && w.pieces[p].active && Idle(w, p)
    requires forall i :: 0 <= i < |dirs| ==> Chebyshev(Step(Current(w, p), dirs[i]), Current(w, p)) == 1
    requires w1 == WithHighlighted(w, p, Path(w, p, dirs))
    ensures Wf(w1) && Placed(w1, p)
    ensures var w2 := Drag(w1, p, contains);
      var r := EndDrag(w2, p);
      && Consistent(r) && Idle(r, p)
      && (Commits(w2, p) ==>
            && Chebyshev(Current(r, p), Current(w, p)) == 1
            && Reachable(w, p, Current(r, p))
            && contains(Current(r, p))
            && Holds(r, Current(r, p), p)
            && Current(w, p) !in r.occupant)
      && (!Commits(w2, p) ==> r.occupant == w.occupant && Current(r, p) == Current(w, p))
  {
    CandidatesKeepBoard(w, w1, p, dirs);
    var w2 := Drag(w1, p, contains);
    ConsistentSameRefs(w1, w2);
    if Commits(w2, p) {
      PickedCandidate(w, w1, p, dirs, contains);
      EndDragCommits(w2, p);
    } else {
      EndDragReverts(w2, p);
      ConsistentSameRefs(w2, EndDrag(w2, p));
    }
  }

  /** One whole drag from an idle, consistent position: either it commits a
      move to a neighbour that was free or held an enemy when the drag began
      and that the pointer was over, or it changes no occupant and leaves p
      where it was. Either way the references stay in step and p ends idle. */
  lemma DragRound(w: World, p: PieceId, contains: Coord -> bool)
    requires Wf(w) && Consistent(w) && Placed(w, p) && w.pieces[p].active && Idle(w, p)
    ensures var w1 := CheckPathing(w, p);
      var w2 := Drag(w1, p, contains);
      var r := EndDrag(w2, p);
      && Consistent(r) && Idle(r, p)
      && (Commits(w2, p) ==>
            && Chebyshev(Current(r, p), Current(w, p)) == 1
            && Reachable(w, p, Current(r, p))
            && contains(Current(r, p))
            && Holds(r, Current(r, p), p)
            && Current(w, p) !in r.occupant)
      && (!Commits(w2, p) ==> r.occupant == w.occupant && Current(r, p) == Current(w, p))
  {
    CheckPathingAppendsPath(w, p);
    assert w.pieces[p].highlighted + Path(w, p, DIRECTIONS) == Path(w, p, DIRECTIONS);
    DirectionsAreKingSteps(Current(w, p));
    DragRoundFrom(w, CheckPathing(w, p), p, DIRECTIONS, contains);
  }

  /** A later OnDrag overrides an earlier one: the target depends only on the
      last pointer position. */
  lemma DragOverrides(w: World, p: PieceId, c1: Coord -> bool, c2: Coord -> bool)
    requires Wf(w) && p < |w.pieces|
    ensures Drag(Drag(w, p, c1), p, c2) == Drag(w, p, c2)
  {
  }

  /** The OnDrag events of one drag, one hit test per pointer move, in order. */
  function Drags(w: World, p: PieceId, moves: seq<Coord -> bool>): (r: World)
    requires Wf(w) && p < |w.pieces|
    ensures Wf(r) && r.occupant == w.occupant && |r.pieces| == |w.pieces|
    ensures r.pieces[p] == w.pieces[p].(target := r.pieces[p].target)
    ensures forall q :: 0 <= q < |w.pieces| && q != p ==> r.pieces[q] == w.pieces[q]
    decreases |moves|
  {
    if moves == [] then w else Drags(Drag(w, p, moves[0]), p, moves[1..])
  }

  /** After any non-empty run of OnDrag events the state is what the last
      one alone would give. */
  lemma {:induction false} DragsKeepLast(w: World, p: PieceId, moves: seq<Coord -> bool>)
    requires Wf(w) && p < |w.pieces| && moves != []
    ensures Drags(w, p, moves) == Drag(w, p, moves[|moves| - 1])
    decreases |moves|
  {
    var w' := Drag(w, p, moves[0]);
    if |moves| > 1 {
      DragsKeepLast(w', p, moves[1..]);
      DragOverrides(w, p, moves[0], moves[|moves| - 1]);
    }
  }

  /** A whole drag with any number of OnDrag events. With none the drag
      reverts; otherwise it behaves as DragRound under the last pointer
      position. */
  lemma DragSession(w: World, p: PieceId, moves: seq<Coord -> bool>)
    requires Wf(w) && Consistent(w) && Placed(w, p) && w.pieces[p].active && Idle(w, p)
    ensures var w1 := CheckPathing(w, p);
      var w2 := Drags(w1, p, moves);
      var r := EndDrag(w2, p);
      && Consistent(r) && Idle(r, p)
      && (Commits(w2, p) ==>
            && moves != []
            && Chebyshev(Current(r, p), Current(w, p)) == 1
            && Reachable(w, p, Current(r, p))
            && moves[|moves| - 1](Current(r, p))
            && Holds(r, Current(r, p), p)
            && Current(w, p) !in r.occupant)
      && (!Commits(w2, p) ==> r.occupant == w.occupant && Current(r, p) == Current(w, p))
  {
    var w1 := CheckPathing(w, p);
    CheckPathingGrows(w, p);
    if moves == [] {
      var nowhere := (c: Coord) => false;
      DragSelectsFirst(w1, p, nowhere);
      assert Drag(w1, p, nowhere) == w1;
      DragRound(w, p, nowhere);
    } else {
      DragsKeepLast(w1, p, moves);
      DragRound(w, p, moves[|moves| - 1]);
    }
  }
}
