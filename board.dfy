/**
 * The value types of the board (src/field.rs): signed points, index points,
 * tile states, tiles and scores, plus the rectangular grid of tiles that the
 * board keeps as a vector of columns (`tiles[x][y]`).
 */
module Board {
  import opened MachineInt

  /** A signed coordinate pair; both coordinates are `i8`. */
  datatype Point = Point(x: I8, y: I8) {

    /** `Point::usize`: each coordinate is cast with `as usize`. */
    function Usize(): (r: PointUsize)
      ensures x >= 0 && y >= 0 ==> r == PointUsize(x, y)
    {
      PointUsize(AsUsize(x), AsUsize(y))
    }

    /**
     * `Point::neighbor`: Chebyshev distance at most one. The source computes
     * `(self.x - other.x).abs()` in `i8`, which panics on overflow, hence the
     * precondition.
     */
    function Neighbor(other: Point): (r: bool)
      requires -127 <= x - other.x <= 127 && -127 <= y - other.y <= 127
      ensures r <==> -1 <= x - other.x <= 1 && -1 <= y - other.y <= 1
    {
      Max(Abs(x - other.x), Abs(y - other.y)) <= 1
    }

    /** `impl Add for Point`: coordinate-wise `i8` addition, which panics on overflow. */
    function Add(other: Point): (r: Point)
      requires -128 <= x + other.x < 128 && -128 <= y + other.y < 128
      ensures r.x - x == other.x && r.y - y == other.y
      ensures -1 <= other.x <= 1 && -1 <= other.y <= 1 ==> r.Neighbor(this) && this.Neighbor(r)
    {
      Point(x + other.x, y + other.y)
    }
  }

  /** An unsigned index pair into the tile grid. */
  datatype PointUsize = PointUsize(x: nat, y: nat) {

    /** `PointUsize::normal`: each coordinate is cast with `as i8`. */
    function Normal(): (r: Point)
      ensures x < 128 && y < 128 ==> r == Point(x, y)
    {
      Point(AsI8(x), AsI8(y))
    }
  }

  /** Neighbouring is reflexive. */
  lemma NeighborReflexive(p: Point)
    ensures p.Neighbor(p)
  {
  }

  /** Neighbouring is symmetric. */
  lemma NeighborSymmetric(p: Point, q: Point)
    requires -127 <= p.x - q.x <= 127 && -127 <= p.y - q.y <= 127
    ensures p.Neighbor(q) <==> q.Neighbor(p)
  {
  }

  /** The two conversions are inverse on the coordinates a board can have. */
  lemma UsizeNormalRoundTrip(p: PointUsize)
    requires p.x < 128 && p.y < 128
    ensures p.Normal().Usize() == p
  {
  }

  datatype State = Neutral | Position(side: bool) | Wall(side: bool) {

    /** `State::is_wall`: a wall of either side. */
    predicate IsWall()
      ensures IsWall() <==> this == Wall(false) || this == Wall(true)
      ensures IsWall() ==> !IsPosition()
    {
      Wall?
    }

    /** `State::is_position`: an agent of either side. */
    predicate IsPosition()
      ensures IsPosition() <==> this == Position(false) || this == Position(true)
    {
      Position?
    }
  }

  datatype Tile = Tile(state: State, point: I8)

  /** The score of one side: points of its walls and points of its enclosed region. */
  datatype Score = Score(tile: int, region: int) {

    /** `Score::sum`. */
    function Sum(): int
    {
      tile + region
    }
  }

  /** A side that does at least as well on walls and on region does at least as well in total. */
  lemma SumMonotone(a: Score, b: Score)
    requires a.tile <= b.tile && a.region <= b.region
    ensures a.Sum() <= b.Sum()
    ensures a.Sum() == b.Sum() <==> a == b
  {
  }

  /** `TeamData` (declared in src/api/parse.rs): a team id and its agent ids. */
  datatype TeamData = TeamData(teamId: U32, agentId: seq<U32>)

  /** The board's tiles, `tiles[x][y]`, one vector per column. */
  type Grid = seq<seq<Tile>>

  /** `side as usize`: the row of a per-side table. */
  function SideIndex(side: bool): nat
  {
    if side then 1 else 0
  }

  /** All columns as long as the first. */
  ghost predicate Rectangular(g: Grid)
  {
    forall x :: 0 <= x < |g| ==> |g[x]| == |g[0]|
  }

  /**
   * A non-empty rectangle of tiles whose every cell can be named by an `i8`
   * point: the source converts between `usize` indices and `i8` points.
   */
  ghost predicate Shaped(g: Grid)
  {
    0 < |g| < 128 && |g[0]| < 128 && Rectangular(g)
  }

  /** `Field::width`: the number of columns. */
  function Width(g: Grid): (r: nat)
    ensures Shaped(g) ==> 0 < r < 128
  {
    |g|
  }

  /** `Field::height`: the length of the first column, which on a rectangle is every column's. */
  function Height(g: Grid): (r: nat)
    requires |g| > 0
    ensures Shaped(g) ==> r < 128
    ensures Rectangular(g) ==> forall x :: 0 <= x < |g| ==> |g[x]| == r
  {
    |g[0]|
  }

  predicate InGrid(g: Grid, p: PointUsize)
    requires |g| > 0
  {
    p.x < |g| && p.y < |g[0]|
  }

  /**
   * `Field::inside`: the point lies on the board. The source tests
   * `0 <= min(x, y)` and compares the `usize` casts with the width and height.
   */
  function Inside(g: Grid, pos: Point): (r: bool)
    requires |g| > 0
    ensures r <==> 0 <= pos.x < |g| && 0 <= pos.y < |g[0]|
  {
    0 <= Min(pos.x, pos.y) && AsUsize(pos.x) < |g| && AsUsize(pos.y) < |g[0]|
  }

  /** The tile at an index point. */
  function At(g: Grid, p: PointUsize): Tile
    requires Shaped(g) && InGrid(g, p)
  {
    g[p.x][p.y]
  }

  /** All index points of the grid. */
  ghost function Cells(g: Grid): set<PointUsize>
    requires |g| > 0
  {
    set x: nat, y: nat | x < |g| && y < |g[0]| :: PointUsize(x, y)
  }

  /** Two grids with the same shape in which exactly the same cells hold which walls. */
  ghost predicate SameWalls(g: Grid, h: Grid)
  {
    Shaped(g) && Shaped(h) && |g| == |h| && |g[0]| == |h[0]| &&
    forall x, y :: 0 <= x < |g| && 0 <= y < |g[0]| ==>
      (g[x][y].state.IsWall() || h[x][y].state.IsWall() ==> g[x][y].state == h[x][y].state)
  }
}
