/** Board coordinates, team colours, the cell classification and the eight
    single-step directions a piece probes. */
module Grid {

  datatype Option<T> = None | Some(value: T)

  /** A cell's board position (Cell.mBoardPosition). */
  datatype Coord = Coord(x: int, y: int)

  /** A team colour (BasePiece.mColor); the game has two teams. */
  datatype Color = White | Black

  /** What Board.ValidateCell reports about a coordinate, relative to a piece. */
  datatype CellState = Friendly | Enemy | Free | OutOfBounds

  function Step(c: Coord, d: (int, int)): Coord
  {
    Coord(c.x + d.0, c.y + d.1)
  }

  function Abs(n: int): nat
  {
    if n < 0 then -n else n
  }

  /** King-move distance: the larger of the two coordinate differences. */
  function Chebyshev(a: Coord, b: Coord): (r: nat)
    ensures r == 0 <==> a == b
  {
    var dx, dy := Abs(a.x - b.x), Abs(a.y - b.y);
    if dx < dy then dy else dx
  }

  predicate InBounds(width: int, height: int, c: Coord)
  {
    0 <= c.x < width && 0 <= c.y < height
  }

  /** The offsets CheckPathing hands to CreateCellPath, in its order:
      horizontal, vertical, upper diagonal, lower diagonal. */
  const DIRECTIONS: seq<(int, int)> :=
    [(1, 0), (-1, 0), (0, 1), (0, -1), (1, 1), (-1, 1), (-1, -1), (1, -1)]

  /** Every probed offset moves exactly one king step away. */
  lemma DirectionsAreKingSteps(c: Coord)
    ensures forall i :: 0 <= i < |DIRECTIONS| ==> Chebyshev(Step(c, DIRECTIONS[i]), c) == 1
  {
    forall i | 0 <= i < |DIRECTIONS|
      ensures Chebyshev(Step(c, DIRECTIONS[i]), c) == 1
    {
      var d := DIRECTIONS[i];
      assert -1 <= d.0 <= 1 && -1 <= d.1 <= 1 && d != (0, 0);
    }
  }

  /** The eight offsets are pairwise different, so each neighbour is probed once. */
  lemma DirectionsDistinct()
    ensures forall i, j :: 0 <= i < j < |DIRECTIONS| ==> DIRECTIONS[i] != DIRECTIONS[j]
  {
  }
}
