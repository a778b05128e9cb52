/** The mutable game state the BasePiece methods work on. Board.pieces[p]
    holds the fields of BasePiece object p, Board.occupant holds each cell's
    mCurrentPiece, and each BasePiece method is a Board method whose
    parameter p stands for `this`. Every method is specified by the Rules
    function of the same name, whose properties the Candidates, Occupancy and
    Selection modules prove. */
module Chessboard {
  import opened Grid
  import Rules

  class Board {
    const width: nat
    const height: nat
    var occupant: map<Coord, Rules.PieceId>
    var pieces: seq<Rules.Piece>
    /** The colours handed to PieceManager.SwitchSides, oldest first. */
    var switched: seq<Color>

    function State(): Rules.World
      reads this
    {
      Rules.World(width, height, occupant, pieces)
    }

    ghost predicate Valid()
      reads this
    {
      Rules.Wf(State())
    }

    /** An empty width x height board with no pieces. */
    constructor (width: nat, height: nat)
      ensures Valid()
      ensures State() == Rules.World(width, height, map[], []) && switched == []
    {
      this.width, this.height := width, height;
      occupant, pieces, switched := map[], [], [];
    }

    /** Creating a piece object and calling Setup on it: the new record has
        the fields' initial values (no cells, no target, an empty list,
        active) and Setup's colour. */
    method Setup(color: Color) returns (p: Rules.PieceId)
      requires Valid()
      modifies this
      ensures Valid()
      ensures p == |old(pieces)|
      ensures pieces == old(pieces) + [Rules.Piece(color, None, None, None, [], true)]
      ensures occupant == old(occupant) && switched == old(switched)
    {
      p := |pieces|;
      pieces := pieces + [Rules.Piece(color, None, None, None, [], true)];
    }

    method Place(p: Rules.PieceId, c: Coord)
      requires Valid() && p < |pieces| && InBounds(width, height, c)
      modifies this
      ensures Valid()
      ensures State() == Rules.Place(old(State()), p, c) && switched == old(switched)
    {
      pieces := pieces[p := pieces[p].(current := Some(c))];
      pieces := pieces[p := pieces[p].(original := Some(c))];
      occupant := occupant[c := p];
      pieces := pieces[p := pieces[p].(active := true)];
    }

    method Kill(p: Rules.PieceId)
      requires Valid() && Rules.Placed(State(), p)
      modifies this
      ensures Valid()
      ensures State() == Rules.Kill(old(State()), p) && switched == old(switched)
    {
      occupant := occupant - {pieces[p].current.value};
      pieces := pieces[p := pieces[p].(active := false)];
    }

    method Reset(p: Rules.PieceId)
      requires Valid() && Rules.Placed(State(), p)
      modifies this
      ensures Valid()
      ensures State() == Rules.Reset(old(State()), p) && switched == old(switched)
    {
      Kill(p);
      Place(p, pieces[p].original.value);
    }

    /** Cell.RemovePiece on cell c. */
    method RemovePiece(c: Coord)
      requires Valid()
      modifies this
      ensures Valid()
      ensures State() == Rules.RemovePiece(old(State()), c) && switched == old(switched)
    {
      if c in occupant {
        var q := occupant[c];
        occupant := occupant - {c};
        pieces := pieces[q := pieces[q].(active := false)];
      }
    }

    method CreateCellPath(p: Rules.PieceId, dx: int, dy: int)
      requires Valid() && Rules.Placed(State(), p)
      modifies this
      ensures Valid()
      ensures State() == Rules.CreateCellPath(old(State()), p, dx, dy) && switched == old(switched)
    {
      var c := Step(pieces[p].current.value, (dx, dy));
      var state := Rules.ValidateCell(State(), c, p);
      if state == Enemy {
        pieces := pieces[p := pieces[p].(highlighted := pieces[p].highlighted + [c])];
        return;
      }
      if state != Free {
        return;
      }
      pieces := pieces[p := pieces[p].(highlighted := pieces[p].highlighted + [c])];
    }

    method CheckPathing(p: Rules.PieceId)
      requires Valid() && Rules.Placed(State(), p)
      modifies this
      ensures Valid()
      ensures State() == Rules.CheckPathing(old(State()), p) && switched == old(switched)
    {
      CreateCellPath(p, 1, 0);
      CreateCellPath(p, -1, 0);
      CreateCellPath(p, 0, 1);
      CreateCellPath(p, 0, -1);
      CreateCellPath(p, 1, 1);
      CreateCellPath(p, -1, 1);
      CreateCellPath(p, -1, -1);
      CreateCellPath(p, 1, -1);
    }

    method ClearCells(p: Rules.PieceId)
      requires Valid() && p < |pieces|
      modifies this
      ensures Valid()
      ensures State() == Rules.ClearCells(old(State()), p) && switched == old(switched)
    {
      pieces := pieces[p := pieces[p].(highlighted := [])];
    }

    method Move(p: Rules.PieceId)
      requires Valid() && Rules.Placed(State(), p) && pieces[p].target.Some?
      modifies this
      ensures Valid()
      ensures State() == Rules.Move(old(State()), p) && switched == old(switched)
    {
      var t := pieces[p].target.value;
      RemovePiece(t);
      occupant := occupant - {pieces[p].current.value};
      pieces := pieces[p := pieces[p].(current := Some(t))];
      occupant := occupant[t := p];
      pieces := pieces[p := pieces[p].(target := None)];
    }

    /** PieceManager.SwitchSides(color), recorded as an event. */
    method SwitchSides(color: Color)
      modifies this`switched
      ensures switched == old(switched) + [color]
    {
      switched := switched + [color];
    }

    method OnBeginDrag(p: Rules.PieceId)
      requires Valid() && Rules.Placed(State(), p)
      modifies this
      ensures Valid()
      ensures State() == Rules.CheckPathing(old(State()), p) && switched == old(switched)
    {
      CheckPathing(p);
    }

    /** The target-tracking loop of OnDrag; `contains` is the hit test of a
        cell against the pointer position. */
    method OnDrag(p: Rules.PieceId, contains: Coord -> bool)
      requires Valid() && p < |pieces|
      modifies this
      ensures Valid()
      ensures State() == Rules.Drag(old(State()), p, contains) && switched == old(switched)
    {
      var cells := pieces[p].highlighted;
      var i := 0;
      while i < |cells|
        invariant 0 <= i <= |cells|
        invariant occupant == old(occupant) && switched == old(switched)
        invariant |pieces| == |old(pieces)|
        invariant pieces == old(pieces)[p := old(pieces)[p].(target := pieces[p].target)]
        invariant pieces[p].target == if i == 0 then old(pieces)[p].target else None
        invariant forall j :: 0 <= j < i ==> !contains(cells[j])
      {
        if contains(cells[i]) {
          pieces := pieces[p := pieces[p].(target := Some(cells[i]))];
          assert Rules.FirstHit(cells, contains) == i;
          break;
        }
        pieces := pieces[p := pieces[p].(target := None)];
        i := i + 1;
      }
    }

    method OnEndDrag(p: Rules.PieceId)
      requires Valid() && Rules.Placed(State(), p)
      modifies this
      ensures Valid()
      ensures State() == Rules.EndDrag(old(State()), p)
      ensures switched == old(switched) + if Rules.Commits(old(State()), p) then [old(pieces)[p].color] else []
    {
      if pieces[p].target.None? {
        ClearCells(p);
        return;
      }
      Move(p);
      SwitchSides(pieces[p].color);
      ClearCells(p);
    }
  }
}
