/**
 * The score of a board (`Field::update_score`): per side, the signed points
 * of its walls and the absolute points of the cells it holds as region.
 */
module Scoring {
  import opened MachineInt
  import opened Board

  const Zero := Score(0, 0)

  function Plus(a: Score, b: Score): Score
  {
    Score(a.tile + b.tile, a.region + b.region)
  }

  /** What one tile adds to the score of `side`. */
  function Worth(t: Tile, side: bool): (r: Score)
    ensures t.state == Wall(side) ==> r == Score(t.point, 0)
    ensures t.state == Position(side) ==> r == Score(0, Abs(t.point))
    ensures t.state != Wall(side) && t.state != Position(side) ==> r == Zero
  {
    match t.state
    case Wall(s) => if s == side then Score(t.point, 0) else Zero
    case Position(s) => if s == side then Score(0, Abs(t.point)) else Zero
    case Neutral => Zero
  }

  /** The score of the first `n` tiles of a column. */
  function ColumnSum(col: seq<Tile>, side: bool, n: nat): Score
    requires n <= |col|
  {
    if n == 0 then Zero else Plus(ColumnSum(col, side, n - 1), Worth(col[n - 1], side))
  }

  /** The score of the first `n` columns of a grid. */
  function GridSum(g: Grid, side: bool, n: nat): Score
    requires n <= |g|
  {
    if n == 0 then Zero else Plus(GridSum(g, side, n - 1), ColumnSum(g[n - 1], side, |g[n - 1]|))
  }

  /** The score of `side` on the whole board. */
  function GridScore(g: Grid, side: bool): Score
  {
    GridSum(g, side, |g|)
  }

  /** Region points are absolute values, so a column's region score is never negative. */
  lemma {:induction false} ColumnRegionNonNegative(col: seq<Tile>, side: bool, n: nat)
    requires n <= |col|
    ensures ColumnSum(col, side, n).region >= 0
  {
    if n > 0 {
      ColumnRegionNonNegative(col, side, n - 1);
    }
  }

  /** The region score of a side is never negative. */
  lemma {:induction false} GridRegionNonNegative(g: Grid, side: bool, n: nat)
    requires n <= |g|
    ensures GridSum(g, side, n).region >= 0
  {
    if n > 0 {
      GridRegionNonNegative(g, side, n - 1);
      ColumnRegionNonNegative(g[n - 1], side, |g[n - 1]|);
    }
  }

  /** Changing one tile of a column changes its score by the difference of the two tiles' worth. */
  lemma {:induction false} ColumnSumUpdate(col: seq<Tile>, side: bool, n: nat, y: nat, t: Tile)
    requires n <= |col| && y < |col|
    ensures var d := if y < n then Worth(t, side).tile - Worth(col[y], side).tile else 0;
            var e := if y < n then Worth(t, side).region - Worth(col[y], side).region else 0;
            ColumnSum(col[y := t], side, n) == Score(ColumnSum(col, side, n).tile + d, ColumnSum(col, side, n).region + e)
  {
    if n > 0 {
      ColumnSumUpdate(col, side, n - 1, y, t);
    }
  }

  /**
   * Changing one tile of a board changes the score of each side by the
   * difference of the two tiles' worth, and by nothing else.
   */
  lemma {:induction false} GridSumUpdate(g: Grid, side: bool, n: nat, x: nat, y: nat, t: Tile)
    requires n <= |g| && x < |g| && y < |g[x]|
    ensures var d := if x < n then Worth(t, side).tile - Worth(g[x][y], side).tile else 0;
            var e := if x < n then Worth(t, side).region - Worth(g[x][y], side).region else 0;
            GridSum(g[x := g[x][y := t]], side, n) == Score(GridSum(g, side, n).tile + d, GridSum(g, side, n).region + e)
  {
    if n > 0 {
      GridSumUpdate(g, side, n - 1, x, y, t);
      if n - 1 == x {
        ColumnSumUpdate(g[x], side, |g[x]|, y, t);
      }
    }
  }

  /** A side with no walls on the board has no tile score. */
  lemma {:induction false} NoWallsNoTileScore(g: Grid, side: bool, n: nat)
    requires n <= |g|
    requires forall x, y :: 0 <= x < |g| && 0 <= y < |g[x]| ==> g[x][y].state != Wall(side)
    ensures GridSum(g, side, n).tile == 0
  {
    if n > 0 {
      NoWallsNoTileScore(g, side, n - 1);
      NoWallsColumn(g[n - 1], side, |g[n - 1]|);
    }
  }

  lemma {:induction false} NoWallsColumn(col: seq<Tile>, side: bool, n: nat)
    requires n <= |col|
    requires forall y :: 0 <= y < |col| ==> col[y].state != Wall(side)
    ensures ColumnSum(col, side, n).tile == 0
  {
    if n > 0 {
      NoWallsColumn(col, side, n - 1);
    }
  }
}
