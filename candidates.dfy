/** What CreateCellPath and CheckPathing add to the highlighted list. */
module Candidates {
  import opened Grid
  import opened Rules

  /** Piece p's snapshot with its highlighted list replaced. */
  function WithHighlighted(w: World, p: PieceId, hl: seq<Coord>): World
    requires p < |w.pieces|
  {
    SetPiece(w, p, w.pieces[p].(highlighted := hl))
  }

  /** The in-bounds cells among the neighbours at the offsets `dirs`, in order. */
  function OnBoardSteps(w: World, from: Coord, dirs: seq<(int, int)>): seq<Coord>
    decreases |dirs|
  {
    if dirs == [] then []
    else
      var c := Step(from, dirs[0]);
      (if OnBoard(w, c) then [c] else []) + OnBoardSteps(w, from, dirs[1..])
  }

  /** CreateCellPath(dx, dy) appends exactly the one cell at offset (dx, dy)
      when it is free or holds an enemy, and otherwise changes nothing; it
      never looks further along the direction. */
  lemma CreateCellPathAppends(w: World, p: PieceId, dx: int, dy: int)
    requires Wf(w) && Placed(w, p)
    ensures var c := Step(Current(w, p), (dx, dy));
      CreateCellPath(w, p, dx, dy)
        == WithHighlighted(w, p, w.pieces[p].highlighted + (if Reachable(w, p, c) then [c] else []))
  {
    var c := Step(Current(w, p), (dx, dy));
    if !Reachable(w, p, c) {
      assert w.pieces[p].highlighted + [] == w.pieces[p].highlighted;
      assert w.pieces[p := w.pieces[p]] == w.pieces;
    }
  }

  /** What probing the one offset d adds. */
  function Hit(w: World, p: PieceId, d: (int, int)): seq<Coord>
    requires Wf(w) && Placed(w, p)
  {
    var c := Step(Current(w, p), d);
    if Reachable(w, p, c) then [c] else []
  }

  /** A probe made after earlier probes have filled the list with hl appends
      what the same probe adds on the original snapshot. */
  lemma ProbeFrom(w: World, p: PieceId, hl: seq<Coord>, d: (int, int))
    requires Wf(w) && Placed(w, p)
    requires forall i :: 0 <= i < |hl| ==> OnBoard(w, hl[i])
    ensures Wf(WithHighlighted(w, p, hl)) && Placed(WithHighlighted(w, p, hl), p)
    ensures CreateCellPath(WithHighlighted(w, p, hl), p, d.0, d.1) == WithHighlighted(w, p, hl + Hit(w, p, d))
    ensures forall i :: 0 <= i < |hl + Hit(w, p, d)| ==> OnBoard(w, (hl + Hit(w, p, d))[i])
  {
    var w' := WithHighlighted(w, p, hl);
    assert PieceWf(w.width, w.height, w'.pieces[p]);
    var c := Step(Current(w, p), d);
    assert ValidateCell(w', c, p) == ValidateCell(w, c, p);
    if !Reachable(w, p, c) {
      assert hl + [] == hl;
    }
  }

  /** Regrouping nine lists. */
  lemma Regroup(hl: seq<Coord>, a: seq<Coord>, b: seq<Coord>, c: seq<Coord>, d: seq<Coord>,
                e: seq<Coord>, f: seq<Coord>, g: seq<Coord>, h: seq<Coord>)
    ensures hl + a + b + c + d + e + f + g + h == hl + (a + (b + (c + (d + (e + (f + (g + h)))))))
  {
  }

  /** Path over one offset and a rest, unfolded. */
  lemma PathCons(w: World, p: PieceId, d: (int, int), rest: seq<(int, int)>)
    requires Wf(w) && Placed(w, p)
    ensures Path(w, p, [d] + rest) == Hit(w, p, d) + Path(w, p, rest)
  {
    assert ([d] + rest)[1..] == rest;
  }

  /** Path over four offsets and a rest, unfolded. */
  lemma PathFour(w: World, p: PieceId, a: (int, int), b: (int, int), c: (int, int), d: (int, int),
                 rest: seq<(int, int)>)
    requires Wf(w) && Placed(w, p)
    ensures Path(w, p, [a, b, c, d] + rest)
      == Hit(w, p, a) + (Hit(w, p, b) + (Hit(w, p, c) + (Hit(w, p, d) + Path(w, p, rest))))
  {
    assert [a, b, c, d] + rest == [a] + ([b] + ([c] + ([d] + rest)));
    PathCons(w, p, d, rest);
    PathCons(w, p, c, [d] + rest);
    PathCons(w, p, b, [c] + ([d] + rest));
    PathCons(w, p, a, [b] + ([c] + ([d] + rest)));
  }

  /** Path over eight offsets, one probe at a time. */
  lemma PathOfEight(w: World, p: PieceId, a: (int, int), b: (int, int), c: (int, int), d: (int, int),
                    e: (int, int), f: (int, int), g: (int, int), h: (int, int))
    requires Wf(w) && Placed(w, p)
    ensures Path(w, p, [a, b, c, d, e, f, g, h])
      == Hit(w, p, a) + (Hit(w, p, b) + (Hit(w, p, c) + (Hit(w, p, d)
       + (Hit(w, p, e) + (Hit(w, p, f) + (Hit(w, p, g) + Hit(w, p, h)))))))
  {
    assert [a, b, c, d, e, f, g, h] == [a, b, c, d] + [e, f, g, h];
    PathFour(w, p, a, b, c, d, [e, f, g, h]);
    assert [e, f, g, h] == [e, f, g, h] + [];
    PathFour(w, p, e, f, g, h, []);
    assert Hit(w, p, h) + Path(w, p, []) == Hit(w, p, h);
  }

  /** Path over the eight directions, one probe at a time. */
  lemma PathEight(w: World, p: PieceId)
    requires Wf(w) && Placed(w, p)
    ensures Path(w, p, DIRECTIONS)
      == Hit(w, p, (1, 0)) + (Hit(w, p, (-1, 0)) + (Hit(w, p, (0, 1)) + (Hit(w, p, (0, -1))
       + (Hit(w, p, (1, 1)) + (Hit(w, p, (-1, 1)) + (Hit(w, p, (-1, -1)) + Hit(w, p, (1, -1))))))))
  {
    PathOfEight(w, p, (1, 0), (-1, 0), (0, 1), (0, -1), (1, 1), (-1, 1), (-1, -1), (1, -1));
  }

  /** CheckPathing appends, probe by probe, what each of the eight offsets adds. */
  lemma CheckPathingHits(w: World, p: PieceId)
    requires Wf(w) && Placed(w, p)
    ensures CheckPathing(w, p) == WithHighlighted(w, p, w.pieces[p].highlighted
      + (Hit(w, p, (1, 0)) + (Hit(w, p, (-1, 0)) + (Hit(w, p, (0, 1)) + (Hit(w, p, (0, -1))
      + (Hit(w, p, (1, 1)) + (Hit(w, p, (-1, 1)) + (Hit(w, p, (-1, -1)) + Hit(w, p, (1, -1))))))))))
  {
    var h0 := w.pieces[p].highlighted;
    assert w == WithHighlighted(w, p, h0) by {
      assert w.pieces[p := w.pieces[p]] == w.pieces;
    }
    var h1 := h0 + Hit(w, p, (1, 0));
    var w1 := CreateCellPath(w, p, 1, 0);
    ProbeFrom(w, p, h0, (1, 0));
    assert w1 == WithHighlighted(w, p, h1);
    var h2 := h1 + Hit(w, p, (-1, 0));
    var w2 := CreateCellPath(w1, p, -1, 0);
    ProbeFrom(w, p, h1, (-1, 0));
    assert w2 == WithHighlighted(w, p, h2);
    var h3 := h2 + Hit(w, p, (0, 1));
    var w3 := CreateCellPath(w2, p, 0, 1);
    ProbeFrom(w, p, h2, (0, 1));
    assert w3 == WithHighlighted(w, p, h3);
    var h4 := h3 + Hit(w, p, (0, -1));
    var w4 := CreateCellPath(w3, p, 0, -1);
    ProbeFrom(w, p, h3, (0, -1));
    assert w4 == WithHighlighted(w, p, h4);
    var h5 := h4 + Hit(w, p, (1, 1));
    var w5 := CreateCellPath(w4, p, 1, 1);
    ProbeFrom(w, p, h4, (1, 1));
    assert w5 == WithHighlighted(w, p, h5);
    var h6 := h5 + Hit(w, p, (-1, 1));
    var w6 := CreateCellPath(w5, p, -1, 1);
    ProbeFrom(w, p, h5, (-1, 1));
    assert w6 == WithHighlighted(w, p, h6);
    var h7 := h6 + Hit(w, p, (-1, -1));
    var w7 := CreateCellPath(w6, p, -1, -1);
    ProbeFrom(w, p, h6, (-1, -1));
    assert w7 == WithHighlighted(w, p, h7);
    var h8 := h7 + Hit(w, p, (1, -1));
    assert CheckPathing(w, p) == WithHighlighted(w, p, h8) by { ProbeFrom(w, p, h7, (1, -1)); }
    Regroup(h0, Hit(w, p, (1, 0)), Hit(w, p, (-1, 0)), Hit(w, p, (0, 1)), Hit(w, p, (0, -1)),
            Hit(w, p, (1, 1)), Hit(w, p, (-1, 1)), Hit(w, p, (-1, -1)), Hit(w, p, (1, -1)));
  }

  /** CheckPathing appends Path over the eight directions to whatever the list
      already held: nothing is cleared, the old entries stay a prefix. */
  lemma CheckPathingAppendsPath(w: World, p: PieceId)
    requires Wf(w) && Placed(w, p)
    ensures CheckPathing(w, p) == WithHighlighted(w, p, w.pieces[p].highlighted + Path(w, p, DIRECTIONS))
  {
    CheckPathingHits(w, p);
    PathEight(w, p);
  }

  /** CheckPathing keeps the old list as a prefix, adds at most eight cells
      and changes nothing else. */
  lemma CheckPathingGrows(w: World, p: PieceId)
    requires Wf(w) && Placed(w, p)
    ensures var r := CheckPathing(w, p);
      && r.occupant == w.occupant
      && |r.pieces| == |w.pieces|
      && (forall q :: 0 <= q < |w.pieces| && q != p ==> r.pieces[q] == w.pieces[q])
      && r.pieces[p] == w.pieces[p].(highlighted := r.pieces[p].highlighted)
      && w.pieces[p].highlighted <= r.pieces[p].highlighted
      && |r.pieces[p].highlighted| <= |w.pieces[p].highlighted| + 8
  {
    CheckPathingAppendsPath(w, p);
  }

  /** Every cell CheckPathing adds is one king step from the piece, on the
      board, and free or held by the other team: never the piece's own cell,
      a friendly cell or an off-board coordinate. */
  lemma PathAdjacent(w: World, p: PieceId)
    requires Wf(w) && Placed(w, p)
    ensures forall c :: c in Path(w, p, DIRECTIONS) ==>
      && Chebyshev(c, Current(w, p)) == 1
      && c != Current(w, p)
      && OnBoard(w, c)
      && ValidateCell(w, c, p) != Friendly
      && ValidateCell(w, c, p) != OutOfBounds
  {
    DirectionsAreKingSteps(Current(w, p));
  }

  /** With no piece on any probed neighbour, the candidates are exactly the
      probed neighbours that lie on the board. */
  lemma {:induction false} EmptyNeighbourhood(w: World, p: PieceId, dirs: seq<(int, int)>)
    requires Wf(w) && Placed(w, p)
    requires forall i :: 0 <= i < |dirs| ==> Step(Current(w, p), dirs[i]) !in w.occupant
    ensures Path(w, p, dirs) == OnBoardSteps(w, Current(w, p), dirs)
    decreases |dirs|
  {
    if dirs != [] {
      assert Step(Current(w, p), dirs[0]) !in w.occupant;
      forall i | 0 <= i < |dirs[1..]| ensures Step(Current(w, p), dirs[1..][i]) !in w.occupant {
        assert dirs[1..][i] == dirs[i + 1];
      }
      EmptyNeighbourhood(w, p, dirs[1..]);
    }
  }

  /** Only the probed neighbours matter: two boards that agree on which of
      them are occupied, and by which team, yield the same candidates. */
  lemma {:induction false} PathLocal(w: World, w': World, p: PieceId, dirs: seq<(int, int)>)
    requires Wf(w) && Placed(w, p) && Wf(w') && Placed(w', p)
    requires w'.width == w.width && w'.height == w.height
    requires Current(w', p) == Current(w, p) && w'.pieces[p].color == w.pieces[p].color
    requires forall i :: 0 <= i < |dirs| ==>
      var c := Step(Current(w, p), dirs[i]);
      && (c in w.occupant <==> c in w'.occupant)
      && (c in w.occupant ==> w.pieces[w.occupant[c]].color == w'.pieces[w'.occupant[c]].color)
    ensures Path(w', p, dirs) == Path(w, p, dirs)
    decreases |dirs|
  {
    if dirs != [] {
      var c := Step(Current(w, p), dirs[0]);
      assert ValidateCell(w', c, p) == ValidateCell(w, c, p);
      forall i | 0 <= i < |dirs[1..]|
        ensures var c := Step(Current(w, p), dirs[1..][i]);
          && (c in w.occupant <==> c in w'.occupant)
          && (c in w.occupant ==> w.pieces[w.occupant[c]].color == w'.pieces[w'.occupant[c]].color)
      {
        assert dirs[1..][i] == dirs[i + 1];
      }
      PathLocal(w, w', p, dirs[1..]);
    }
  }
}
