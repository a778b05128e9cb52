/** What Place, Kill, Reset and Move do to the two kinds of reference: a
    cell's occupant and a piece's current cell. */
module Occupancy {
  import opened Grid
  import opened Rules

  /** Under Consistent, a cell holds a piece exactly when that piece is active
      and its current cell is the cell. */
  lemma ConsistentIff(w: World, c: Coord, q: PieceId)
    requires Wf(w) && Consistent(w) && q < |w.pieces|
    ensures Holds(w, c, q) <==> w.pieces[q].active && w.pieces[q].current == Some(c)
  {
    if w.pieces[q].active && w.pieces[q].current == Some(c) {
      assert Holds(w, w.pieces[q].current.value, q);
    }
  }

  /** Under Consistent no piece occupies two cells. */
  lemma ConsistentOneCellPerPiece(w: World, c1: Coord, c2: Coord)
    requires Wf(w) && Consistent(w)
    requires c1 in w.occupant && c2 in w.occupant && w.occupant[c1] == w.occupant[c2]
    ensures c1 == c2
  {
    assert w.pieces[w.occupant[c1]].current == Some(c1);
    assert w.pieces[w.occupant[c2]].current == Some(c2);
  }

  /** Place(c): both cells of p are c, c holds p, p is active; no other cell
      and no other piece changes. */
  lemma PlaceEffects(w: World, p: PieceId, c: Coord)
    requires Wf(w) && p < |w.pieces| && OnBoard(w, c)
    ensures var r := Place(w, p, c);
      && r.pieces[p].current == Some(c) && r.pieces[p].original == Some(c)
      && r.pieces[p].active && Holds(r, c, p)
      && r.pieces[p].color == w.pieces[p].color
      && (forall c' :: c' != c ==> (c' in r.occupant <==> c' in w.occupant))
      && (forall c' :: c' != c && c' in w.occupant ==> r.occupant[c'] == w.occupant[c'])
      && |r.pieces| == |w.pieces|
      && (forall q :: 0 <= q < |w.pieces| && q != p ==> r.pieces[q] == w.pieces[q])
  {
  }

  /** Place keeps the references in step when c is empty (or already p's)
      and p is not standing on some other cell. */
  lemma PlacePreservesConsistency(w: World, p: PieceId, c: Coord)
    requires Wf(w) && Consistent(w) && p < |w.pieces| && OnBoard(w, c)
    requires FreeOrHeldBy(w, c, p)
    requires !w.pieces[p].active || w.pieces[p].current.None? || w.pieces[p].current == Some(c)
    ensures Consistent(Place(w, p, c))
  {
    var r := Place(w, p, c);
    forall q | 0 <= q < |r.pieces| && r.pieces[q].active && r.pieces[q].current.Some?
      ensures Holds(r, r.pieces[q].current.value, q)
    {
      if q != p {
        assert Holds(w, w.pieces[q].current.value, q);
      }
    }
  }

  /** Kill(): p's current cell is emptied and p deactivated; p keeps both of
      its cells; nothing else changes. */
  lemma KillEffects(w: World, p: PieceId)
    requires Wf(w) && Placed(w, p)
    ensures var r := Kill(w, p);
      && Current(w, p) !in r.occupant
      && !r.pieces[p].active
      && r.pieces[p] == w.pieces[p].(active := false)
      && (forall c :: c != Current(w, p) ==> (c in r.occupant <==> c in w.occupant))
      && (forall c :: c != Current(w, p) && c in w.occupant ==> r.occupant[c] == w.occupant[c])
      && |r.pieces| == |w.pieces|
      && (forall q :: 0 <= q < |w.pieces| && q != p ==> r.pieces[q] == w.pieces[q])
  {
  }

  /** Kill keeps the references in step as long as p's current cell is empty
      or holds p itself, which is always so for an active piece. */
  lemma KillPreservesConsistency(w: World, p: PieceId)
    requires Wf(w) && Consistent(w) && Placed(w, p)
    requires FreeOrHeldBy(w, Current(w, p), p)
    ensures Consistent(Kill(w, p))
  {
    var r := Kill(w, p);
    forall q | 0 <= q < |r.pieces| && r.pieces[q].active && r.pieces[q].current.Some?
      ensures Holds(r, r.pieces[q].current.value, q)
    {
      assert Holds(w, w.pieces[q].current.value, q);
    }
  }

  /** Reset(): p ends active on its unchanged original cell, which holds p. */
  lemma ResetRestores(w: World, p: PieceId)
    requires Wf(w) && Placed(w, p)
    ensures var r := Reset(w, p);
      && r.pieces[p].active
      && r.pieces[p].original == w.pieces[p].original
      && r.pieces[p].current == w.pieces[p].original
      && Holds(r, w.pieces[p].original.value, p)
  {
  }

  /** Reset keeps the references in step when both p's current cell and its
      original cell are empty or held by p. */
  lemma ResetPreservesConsistency(w: World, p: PieceId)
    requires Wf(w) && Consistent(w) && Placed(w, p)
    requires FreeOrHeldBy(w, Current(w, p), p)
    requires FreeOrHeldBy(w, w.pieces[p].original.value, p)
    ensures Consistent(Reset(w, p))
  {
    KillPreservesConsistency(w, p);
    PlacePreservesConsistency(Kill(w, p), p, w.pieces[p].original.value);
  }

  /** Reset does not clear a piece that has moved onto p's original cell:
      Place overwrites the cell's occupant, and the displaced piece stays
      active with its current cell still naming that cell. */
  lemma ResetOverwritesOccupant(w: World, p: PieceId, q: PieceId)
    requires Wf(w) && Consistent(w) && Placed(w, p) && q != p
    requires Holds(w, w.pieces[p].original.value, q)
    requires Current(w, p) != w.pieces[p].original.value
    ensures var r := Reset(w, p);
      && Holds(r, w.pieces[p].original.value, p)
      && r.pieces[q].active
      && r.pieces[q].current == w.pieces[p].original
      && !Consistent(r)
  {
    var o := w.pieces[p].original.value;
    var r := Reset(w, p);
    assert r.pieces[q] == w.pieces[q];
    assert w.pieces[q].active && w.pieces[q].current == Some(o);
    assert !Holds(r, r.pieces[q].current.value, q);
  }

  /** Move(): the target's previous occupant (if any) is removed and
      deactivated, p leaves its cell and occupies the target, the target is
      forgotten; no other cell and no other piece changes. This holds on any
      snapshot, consistent or not; p itself is deactivated only when the
      target's occupant was p. */
  lemma MoveEffects(w: World, p: PieceId)
    requires Wf(w) && Placed(w, p) && w.pieces[p].target.Some?
    requires w.pieces[p].target.value != Current(w, p)
    ensures var t, cur, r := w.pieces[p].target.value, Current(w, p), Move(w, p);
      && r.pieces[p] == w.pieces[p].(current := Some(t), target := None,
                                     active := w.pieces[p].active && !Holds(w, t, p))
      && Holds(r, t, p)
      && cur !in r.occupant
      && (forall c :: c != t && c != cur ==> (c in r.occupant <==> c in w.occupant))
      && (forall c :: c != t && c != cur && c in w.occupant ==> r.occupant[c] == w.occupant[c])
      && |r.pieces| == |w.pieces|
      && (t in w.occupant && w.occupant[t] != p ==>
            r.pieces[w.occupant[t]] == w.pieces[w.occupant[t]].(active := false))
      && (forall q :: 0 <= q < |w.pieces| && q != p && !Holds(w, t, q) ==> r.pieces[q] == w.pieces[q])
  {
  }

  /** A capture deactivates exactly the target's occupant, on any snapshot:
      every other piece, the mover included, keeps its active flag. */
  lemma CaptureDeactivatesOnlyVictim(w: World, p: PieceId, q: PieceId)
    requires Wf(w) && Placed(w, p) && w.pieces[p].target.Some?
    requires q < |w.pieces|
    ensures Move(w, p).pieces[q].active <==>
      (w.pieces[q].active && !Holds(w, w.pieces[p].target.value, q))
  {
  }

  /** Move keeps the references in step when p is active and the target is
      not p's own cell. */
  lemma MovePreservesConsistency(w: World, p: PieceId)
    requires Wf(w) && Consistent(w) && Placed(w, p) && w.pieces[p].active
    requires w.pieces[p].target.Some? && w.pieces[p].target.value != Current(w, p)
    ensures Consistent(Move(w, p))
  {
    var t, cur, r := w.pieces[p].target.value, Current(w, p), Move(w, p);
    assert Holds(w, cur, p);
    MoveEffects(w, p);
    forall c | c in r.occupant
      ensures r.pieces[r.occupant[c]].active && r.pieces[r.occupant[c]].current == Some(c)
    {
      if c != t {
        assert w.pieces[w.occupant[c]].current == Some(c);
      }
    }
    forall q | 0 <= q < |r.pieces| && r.pieces[q].active && r.pieces[q].current.Some?
      ensures Holds(r, r.pieces[q].current.value, q)
    {
      if q != p {
        assert Holds(w, w.pieces[q].current.value, q);
        assert w.pieces[q].current.value != t;
        assert w.pieces[q].current.value != cur;
      }
    }
  }

  /** Without the second condition Move goes wrong: a target equal to p's own
      cell makes RemovePiece deactivate p itself, which then holds the cell
      while inactive. */
  lemma MoveOntoOwnCellDeactivates(w: World, p: PieceId)
    requires Wf(w) && Consistent(w) && Placed(w, p) && w.pieces[p].active
    requires w.pieces[p].target == Some(Current(w, p))
    ensures Holds(Move(w, p), Current(w, p), p) && !Move(w, p).pieces[p].active
    ensures !Consistent(Move(w, p))
  {
    assert Holds(w, Current(w, p), p);
  }

  /** Resetting a piece that was captured empties the cell it was captured
      on, which now holds the capturer: Kill clears the captured piece's
      current cell, and capture never updated that reference. */
  lemma ResetAfterCaptureUnseatsCapturer(w: World, p: PieceId, q: PieceId)
    requires Wf(w) && Consistent(w) && Placed(w, p) && w.pieces[p].active
    requires w.pieces[p].target.Some? && w.pieces[p].target.value != Current(w, p)
    requires Holds(w, w.pieces[p].target.value, q)
    ensures var m := Move(w, p);
      Wf(m) && Placed(m, q) &&
      var r := Reset(m, q);
      && r.pieces[p].active && r.pieces[p].current == w.pieces[p].target
      && !Holds(r, w.pieces[p].target.value, p)
      && !Consistent(r)
  {
    var t := w.pieces[p].target.value;
    assert q != p by { assert w.pieces[p].current != Some(t); }
    assert w.pieces[q].current == Some(t);
    var m := Move(w, p);
    assert m.pieces[q].current == Some(t);
    var r := Reset(m, q);
    assert r.pieces[p] == m.pieces[p];
    assert !Holds(r, r.pieces[p].current.value, p);
  }
}
