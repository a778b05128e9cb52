/** The three drags on an 8 x 8 board with piece p at (3, 3): no neighbour,
    an enemy at (4, 4), an ally at (4, 4); the pointer rests on (4, 4). */
module Scenarios {
  import opened Grid
  import opened Rules
  import opened Candidates
  import opened Occupancy
  import opened Selection

  const HOME := Coord(3, 3)
  const DIAG := Coord(4, 4)

  /** The pointer rests on (4, 4). */
  function OverDiag(c: Coord): bool
  {
    c == DIAG
  }

  /** An 8 x 8 board with p idle at (3, 3) and no piece on a neighbour of
      (3, 3) other than, possibly, (4, 4). */
  predicate Setting(w: World, p: PieceId)
  {
    && Wf(w) && Placed(w, p) && Current(w, p) == HOME && Idle(w, p)
    && w.width == 8 && w.height == 8
    && forall c :: c in w.occupant && c != HOME && c != DIAG ==> Chebyshev(c, HOME) != 1
  }

  /** A neighbour c of (3, 3) other than (4, 4) is empty, so its probe adds it. */
  lemma EmptyNeighbourHit(w: World, p: PieceId, d: (int, int), c: Coord)
    requires Setting(w, p)
    requires c == Step(HOME, d) && c != DIAG && Chebyshev(c, HOME) == 1 && InBounds(8, 8, c)
    ensures Hit(w, p, d) == [c]
  {
  }

  /** What each of the eight probes from (3, 3) adds. */
  lemma SettingHits(w: World, p: PieceId)
    requires Setting(w, p)
    ensures Hit(w, p, (1, 0)) == [Coord(4, 3)] && Hit(w, p, (-1, 0)) == [Coord(2, 3)]
    ensures Hit(w, p, (0, 1)) == [Coord(3, 4)] && Hit(w, p, (0, -1)) == [Coord(3, 2)]
    ensures Hit(w, p, (1, 1)) == if Reachable(w, p, DIAG) then [DIAG] else []
    ensures Hit(w, p, (-1, 1)) == [Coord(2, 4)] && Hit(w, p, (-1, -1)) == [Coord(2, 2)]
    ensures Hit(w, p, (1, -1)) == [Coord(4, 2)]
  {
    EmptyNeighbourHit(w, p, (1, 0), Coord(4, 3));
    EmptyNeighbourHit(w, p, (-1, 0), Coord(2, 3));
    EmptyNeighbourHit(w, p, (0, 1), Coord(3, 4));
    EmptyNeighbourHit(w, p, (0, -1), Coord(3, 2));
    EmptyNeighbourHit(w, p, (-1, 1), Coord(2, 4));
    EmptyNeighbourHit(w, p, (-1, -1), Coord(2, 2));
    EmptyNeighbourHit(w, p, (1, -1), Coord(4, 2));
  }

  /** CheckPathing lists the eight neighbours in the order of the probes,
      (4, 4) included exactly when it is free or holds an enemy. */
  lemma SettingCandidates(w: World, p: PieceId)
    requires Setting(w, p)
    ensures Reachable(w, p, DIAG) ==> (CheckPathing(w, p).pieces[p].highlighted ==
      [Coord(4, 3), Coord(2, 3), Coord(3, 4), Coord(3, 2), Coord(4, 4), Coord(2, 4), Coord(2, 2), Coord(4, 2)])
    ensures !Reachable(w, p, DIAG) ==> (CheckPathing(w, p).pieces[p].highlighted ==
      [Coord(4, 3), Coord(2, 3), Coord(3, 4), Coord(3, 2), Coord(2, 4), Coord(2, 2), Coord(4, 2)])
  {
    SettingHits(w, p);
    CheckPathingHits(w, p);
    assert [] + [Coord(4, 3)] == [Coord(4, 3)];
    Flat8(Coord(4, 3), Coord(2, 3), Coord(3, 4), Coord(3, 2), DIAG, Coord(2, 4), Coord(2, 2), Coord(4, 2));
    Flat7(Coord(4, 3), Coord(2, 3), Coord(3, 4), Coord(3, 2), Coord(2, 4), Coord(2, 2), Coord(4, 2));
  }

  lemma Flat8(a: Coord, b: Coord, c: Coord, d: Coord, e: Coord, f: Coord, g: Coord, h: Coord)
    ensures [a] + ([b] + ([c] + ([d] + ([e] + ([f] + ([g] + [h])))))) == [a, b, c, d, e, f, g, h]
  {
  }

  lemma Flat7(a: Coord, b: Coord, c: Coord, d: Coord, f: Coord, g: Coord, h: Coord)
    ensures [a] + ([b] + ([c] + ([d] + ([] + ([f] + ([g] + [h])))))) == [a, b, c, d, f, g, h]
  {
  }

  /** With (4, 4) empty too, all eight neighbours are listed. */
  lemma AloneCandidates(w: World, p: PieceId)
    requires Setting(w, p) && DIAG !in w.occupant
    ensures CheckPathing(w, p).pieces[p].highlighted ==
      [Coord(4, 3), Coord(2, 3), Coord(3, 4), Coord(3, 2), Coord(4, 4), Coord(2, 4), Coord(2, 2), Coord(4, 2)]
  {
    SettingCandidates(w, p);
  }

  /** With the pointer on (4, 4), OnDrag selects (4, 4) from a list that
      holds it fifth, after four other cells. */
  lemma DragOntoDiag(w1: World, p: PieceId)
    requires Wf(w1) && p < |w1.pieces|
    requires w1.pieces[p].highlighted ==
      [Coord(4, 3), Coord(2, 3), Coord(3, 4), Coord(3, 2), Coord(4, 4), Coord(2, 4), Coord(2, 2), Coord(4, 2)]
    ensures Drag(w1, p, OverDiag).pieces[p].target == Some(DIAG)
  {
    var cells := w1.pieces[p].highlighted;
    assert OverDiag(cells[4]);
    assert FirstHit(cells, OverDiag) == 4;
  }

  /** With the pointer on (4, 4), OnDrag selects nothing from a list without it. */
  lemma DragMissesDiag(w1: World, p: PieceId)
    requires Wf(w1) && p < |w1.pieces|
    requires w1.pieces[p].highlighted ==
      [Coord(4, 3), Coord(2, 3), Coord(3, 4), Coord(3, 2), Coord(2, 4), Coord(2, 2), Coord(4, 2)]
    ensures Drag(w1, p, OverDiag).pieces[p].target.None?
  {
    var cells := w1.pieces[p].highlighted;
    assert forall i :: 0 <= i < |cells| ==> !OverDiag(cells[i]);
  }

  /** Dragging onto the empty (4, 4) moves p there and empties (3, 3). */
  lemma AloneMovesToDiag(w: World, p: PieceId)
    requires Setting(w, p) && DIAG !in w.occupant && Consistent(w) && w.pieces[p].active
    ensures var w2 := Drag(CheckPathing(w, p), p, OverDiag);
      var r := EndDrag(w2, p);
      && w2.pieces[p].target == Some(DIAG)
      && r.pieces[p].current == Some(DIAG) && Holds(r, DIAG, p) && HOME !in r.occupant
      && Consistent(r)
  {
    AloneCandidates(w, p);
    DragOntoDiag(CheckPathing(w, p), p);
    DragRound(w, p, OverDiag);
  }

  /** Committing a drag onto (4, 4) held by another piece q deactivates q
      and leaves p holding (4, 4) and (3, 3) empty. */
  lemma CommitOntoDiag(w2: World, p: PieceId, q: PieceId)
    requires Wf(w2) && Consistent(w2) && Placed(w2, p) && w2.pieces[p].active
    requires Current(w2, p) == HOME && w2.pieces[p].target == Some(DIAG) && Holds(w2, DIAG, q)
    ensures var r := EndDrag(w2, p);
      && !r.pieces[q].active
      && r.pieces[p].current == Some(DIAG) && Holds(r, DIAG, p) && HOME !in r.occupant
      && Consistent(r)
  {
    EndDragCommits(w2, p);
    CaptureDeactivatesOnlyVictim(w2, p, q);
  }

  /** An enemy on (4, 4) is classified Enemy and listed; dragging onto it
      captures it: it is deactivated and p holds (4, 4). */
  lemma EnemyCaptured(w: World, p: PieceId)
    requires Setting(w, p) && Consistent(w) && w.pieces[p].active
    requires DIAG in w.occupant && w.pieces[w.occupant[DIAG]].color != w.pieces[p].color
    ensures ValidateCell(w, DIAG, p) == Enemy
    ensures CheckPathing(w, p).pieces[p].highlighted ==
      [Coord(4, 3), Coord(2, 3), Coord(3, 4), Coord(3, 2), Coord(4, 4), Coord(2, 4), Coord(2, 2), Coord(4, 2)]
    ensures var r := EndDrag(Drag(CheckPathing(w, p), p, OverDiag), p);
      && !r.pieces[w.occupant[DIAG]].active
      && r.pieces[p].current == Some(DIAG) && Holds(r, DIAG, p) && HOME !in r.occupant
      && Consistent(r)
  {
    assert ValidateCell(w, DIAG, p) == Enemy;
    SettingCandidates(w, p);
    var w1 := CheckPathing(w, p);
    DragOntoDiag(w1, p);
    SelectingKeepsBoard(w, p, OverDiag);
    CommitOntoDiag(Drag(w1, p, OverDiag), p, w.occupant[DIAG]);
  }

  /** An ally on (4, 4) is not listed, so with the pointer on it OnDrag
      selects nothing and OnEndDrag changes no cell. */
  lemma AllyExcluded(w: World, p: PieceId)
    requires Setting(w, p) && Consistent(w) && w.pieces[p].active
    requires DIAG in w.occupant && w.pieces[w.occupant[DIAG]].color == w.pieces[p].color
    ensures ValidateCell(w, DIAG, p) == Friendly
    ensures CheckPathing(w, p).pieces[p].highlighted ==
      [Coord(4, 3), Coord(2, 3), Coord(3, 4), Coord(3, 2), Coord(2, 4), Coord(2, 2), Coord(4, 2)]
    ensures var w2 := Drag(CheckPathing(w, p), p, OverDiag);
      && w2.pieces[p].target.None?
      && EndDrag(w2, p).occupant == w.occupant
  {
    SettingCandidates(w, p);
    DragMissesDiag(CheckPathing(w, p), p);
    DragRound(w, p, OverDiag);
  }
}
