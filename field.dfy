/**
 * The game board `Field` (src/field.rs): the tiles, the agents of both
 * sides, the turn counter and the two scores, with the region update that
 * turns enclosed cells into positions and the score update.
 */
module Field {
  import opened Wrappers
  import opened MachineInt
  import opened Board
  import opened Region
  import opened Scoring

  // ---------------------------------------------------------------------------
  // What `update_region` does to a board

  /** The tile at `(x, y)` after the region update. */
  ghost function UpdatedTile(g: Grid, x: nat, y: nat): Tile
    requires Shaped(g) && x < |g| && y < |g[0]|
  {
    var t := g[x][y];
    var p := PointUsize(x, y);
    if t.state.IsWall() then t
    else if RegionValue(g, false, p) < RegionValue(g, true, p) then Tile(Position(false), t.point)
    else if RegionValue(g, false, p) > RegionValue(g, true, p) then Tile(Position(true), t.point)
    else t
  }

  /** The whole board after the region update. */
  ghost function RegionUpdated(g: Grid): Grid
    requires Shaped(g)
  {
    seq(|g|, x requires 0 <= x < |g| => seq(|g[0]|, y requires 0 <= y < |g[0]| => UpdatedTile(g, x, y)))
  }

  /**
   * The region update keeps the shape, every wall and every point; a cell
   * that is not a wall becomes `Position(false)` exactly when side `false`
   * gives it the smaller region, `Position(true)` exactly when side `true`
   * does, and keeps its state on a tie.
   */
  lemma RegionUpdatedCell(g: Grid, x: nat, y: nat)
    requires Shaped(g) && x < |g| && y < |g[0]|
    ensures RegionUpdated(g)[x][y].point == g[x][y].point
    ensures var p := PointUsize(x, y);
            var rf, rt := RegionValue(g, false, p), RegionValue(g, true, p);
            var s, s' := g[x][y].state, RegionUpdated(g)[x][y].state;
            (s.IsWall() ==> s' == s) &&
            (!s.IsWall() ==> (s' == Position(false) <==> rf < rt || (rf == rt && s == Position(false)))) &&
            (!s.IsWall() ==> (s' == Position(true) <==> rf > rt || (rf == rt && s == Position(true)))) &&
            (!s.IsWall() && rf == rt ==> s' == s)
  {
  }

  /** The region update keeps the shape of the board and every wall. */
  lemma RegionUpdatedWalls(g: Grid)
    requires Shaped(g)
    ensures Shaped(RegionUpdated(g)) && SameWalls(g, RegionUpdated(g))
  {
  }

  /** Applying the region update twice is the same as applying it once. */
  lemma RegionUpdateIdempotent(g: Grid)
    requires Shaped(g)
    ensures Shaped(RegionUpdated(g)) && RegionUpdated(RegionUpdated(g)) == RegionUpdated(g)
  {
    var h := RegionUpdated(g);
    RegionUpdatedWalls(g);
    forall x, y | 0 <= x < |g| && 0 <= y < |g[0]|
      ensures RegionUpdated(h)[x][y] == h[x][y]
    {
      RegionValueSameWalls(g, h, false, PointUsize(x, y));
      RegionValueSameWalls(g, h, true, PointUsize(x, y));
      assert UpdatedTile(h, x, y) == h[x][y];
    }
    assert forall x :: 0 <= x < |g| ==> RegionUpdated(h)[x] == h[x];
  }

  // ---------------------------------------------------------------------------
  // Building a board from the server's data

  /** The state `from_data` gives a cell from the team id in `walls`: team 0's walls are side `false`. */
  function InitialState(wall: U32, teams: seq<TeamData>): (r: State)
    requires |teams| >= 2
    ensures r == Wall(false) <==> wall == teams[0].teamId
    ensures r == Wall(true) <==> wall != teams[0].teamId && wall == teams[1].teamId
    ensures r == Neutral <==> wall != teams[0].teamId && wall != teams[1].teamId
    ensures !r.IsPosition()
  {
    if wall == teams[0].teamId then Wall(false)
    else if wall == teams[1].teamId then Wall(true)
    else Neutral
  }

  /** Well-formed input for `from_data`: a board of `width` columns of `height` cells. */
  predicate FitsData(width: nat, height: nat, walls: seq<seq<U32>>, points: seq<seq<I8>>)
  {
    |walls| >= width && |points| >= width &&
    (forall x :: 0 <= x < width ==> |walls[x]| >= height) &&
    (forall x :: 0 <= x < width ==> |points[x]| >= height)
  }

  /** The tiles `from_data` builds before the region update. */
  function InitialTiles(width: nat, height: nat, teams: seq<TeamData>,
                        walls: seq<seq<U32>>, points: seq<seq<I8>>): (g: Grid)
    requires |teams| >= 2 && FitsData(width, height, walls, points)
    ensures |g| == width && forall x :: 0 <= x < width ==> |g[x]| == height
    ensures forall x, y :: 0 <= x < width && 0 <= y < height ==>
              g[x][y].point == points[x][y] && g[x][y].state == InitialState(walls[x][y], teams)
  {
    seq(width, x requires 0 <= x < width =>
      seq(height, y requires 0 <= y < height => Tile(InitialState(walls[x][y], teams), points[x][y])))
  }

  // ---------------------------------------------------------------------------
  // The board

  class Field {
    var nowTurn: U8
    var finalTurn: U8
    var tiles: Grid
    var agents: seq<seq<Option<Point>>>
    var scores: seq<Score>

    /** `Field::from_data`: build the tiles, copy the agents, then update the regions and the scores. */
    constructor FromData(width: nat, height: nat, teamData: seq<TeamData>,
                         walls: seq<seq<U32>>, points: seq<seq<I8>>,
                         agents: seq<seq<Option<Point>>>, nowTurn: U8, finalTurn: U8)
      requires 0 < width < 128 && height < 128 && |teamData| >= 2
      requires FitsData(width, height, walls, points)
      ensures tiles == RegionUpdated(InitialTiles(width, height, teamData, walls, points))
      ensures scores == [GridScore(tiles, false), GridScore(tiles, true)]
      ensures this.agents == agents && this.nowTurn == nowTurn && this.finalTurn == finalTurn
    {
      this.nowTurn := nowTurn;
      this.finalTurn := finalTurn;
      tiles := InitialTiles(width, height, teamData, walls, points);
      this.agents := agents;
      scores := [Zero, Zero];
      new;
      ghost var g := tiles;
      UpdateRegion();
      RegionUpdatedWalls(g);
      UpdateScore();
    }

    /** A copy of the board (`#[derive(Clone)]`). */
    method Clone() returns (f: Field)
      ensures fresh(f)
      ensures f.nowTurn == nowTurn && f.finalTurn == finalTurn && f.tiles == tiles
      ensures f.agents == agents && f.scores == scores
    {
      f := new Field.Copy(nowTurn, finalTurn, tiles, agents, scores);
    }

    constructor Copy(nowTurn: U8, finalTurn: U8, tiles: Grid, agents: seq<seq<Option<Point>>>, scores: seq<Score>)
      ensures this.nowTurn == nowTurn && this.finalTurn == finalTurn && this.tiles == tiles
      ensures this.agents == agents && this.scores == scores
    {
      this.nowTurn, this.finalTurn, this.tiles := nowTurn, finalTurn, tiles;
      this.agents, this.scores := agents, scores;
    }

    /** `Field::agent_count`: the length of side `false`'s agent table, which must exist. */
    function AgentCount(): (r: nat)
      reads this
      requires |agents| > 0
      ensures r == |agents[0]|
    {
      |agents[0]|
    }

    /** `Field::score`. */
    function ScoreOf(side: bool): (r: Score)
      reads this
      requires SideIndex(side) < |scores|
      ensures r == scores[SideIndex(side)]
    {
      scores[SideIndex(side)]
    }

    /** `Field::tile`. */
    function TileAt(pos: PointUsize): (r: Tile)
      reads this
      requires pos.x < |tiles| && pos.y < |tiles[pos.x]|
      ensures r == tiles[pos.x][pos.y]
    {
      tiles[pos.x][pos.y]
    }

    /** `Field::agent`. */
    function Agent(side: bool, id: nat): (r: Option<Point>)
      reads this
      requires SideIndex(side) < |agents| && id < |agents[SideIndex(side)]|
      ensures r == agents[SideIndex(side)][id]
    {
      agents[SideIndex(side)][id]
    }

    /** `Field::set_state`: the addressed tile takes the new state and keeps its point; nothing else changes. */
    method SetState(pos: PointUsize, state: State)
      modifies this
      requires pos.x < |tiles| && pos.y < |tiles[pos.x]|
      ensures tiles == old(tiles)[pos.x := old(tiles)[pos.x][pos.y := Tile(state, old(tiles)[pos.x][pos.y].point)]]
      ensures nowTurn == old(nowTurn) && finalTurn == old(finalTurn)
      ensures agents == old(agents) && scores == old(scores)
    {
      tiles := tiles[pos.x := tiles[pos.x][pos.y := Tile(state, tiles[pos.x][pos.y].point)]];
    }

    /** `Field::set_agent`: only the addressed agent slot changes. */
    method SetAgent(side: bool, id: nat, pos: Option<Point>)
      modifies this
      requires SideIndex(side) < |agents| && id < |agents[SideIndex(side)]|
      ensures agents == old(agents)[SideIndex(side) := old(agents)[SideIndex(side)][id := pos]]
      ensures nowTurn == old(nowTurn) && finalTurn == old(finalTurn)
      ensures tiles == old(tiles) && scores == old(scores)
    {
      agents := agents[SideIndex(side) := agents[SideIndex(side)][id := pos]];
    }

    /**
     * `Field::update_turn`: the source asserts that the last turn has not
     * been reached, and the `u8` increment panics past 255.
     */
    method UpdateTurn()
      modifies this
      requires nowTurn != finalTurn && nowTurn < 0xFF
      ensures nowTurn == old(nowTurn) + 1
      ensures finalTurn == old(finalTurn) && tiles == old(tiles)
      ensures agents == old(agents) && scores == old(scores)
    {
      nowTurn := nowTurn + 1;
    }

    /**
     * `Field::update_region`: computes both sides' regions on the board as
     * it is, then gives every non-wall cell to the side with the smaller
     * region value.
     */
    method UpdateRegion()
      modifies this
      requires Shaped(tiles)
      ensures tiles == RegionUpdated(old(tiles))
      ensures nowTurn == old(nowTurn) && finalTurn == old(finalTurn)
      ensures agents == old(agents) && scores == old(scores)
    {
      ghost var g := tiles;
      var elm0 := CalcRegion(tiles, false);
      var elm1 := CalcRegion(tiles, true);
      var w, h := Width(tiles), Height(tiles);
      for i := 0 to w
        invariant |tiles| == w && forall x :: 0 <= x < w ==> |tiles[x]| == h
        invariant forall x, y :: 0 <= x < w && 0 <= y < h ==>
                    tiles[x][y] == if x < i then UpdatedTile(g, x, y) else g[x][y]
        invariant nowTurn == old(nowTurn) && finalTurn == old(finalTurn)
        invariant agents == old(agents) && scores == old(scores)
      {
        for j := 0 to h
          invariant |tiles| == w && forall x :: 0 <= x < w ==> |tiles[x]| == h
          invariant forall x, y :: 0 <= x < w && 0 <= y < h ==>
                      tiles[x][y] == if x < i || (x == i && y < j) then UpdatedTile(g, x, y) else g[x][y]
          invariant nowTurn == old(nowTurn) && finalTurn == old(finalTurn)
          invariant agents == old(agents) && scores == old(scores)
        {
          var pos := PointUsize(i, j);
          if TileAt(pos).state.IsWall() {
          } else if elm0[i][j] < elm1[i][j] {
            SetState(pos, Position(false));
          } else if elm0[i][j] > elm1[i][j] {
            SetState(pos, Position(true));
          }
        }
      }
      assert forall x :: 0 <= x < w ==> tiles[x] == RegionUpdated(g)[x];
    }

    /**
     * `Field::update_score`: adds up, per side, the points of its walls and
     * the absolute points of its positions; nothing but the scores changes.
     */
    method UpdateScore()
      modifies this
      requires Rectangular(tiles)
      ensures scores == [GridScore(tiles, false), GridScore(tiles, true)]
      ensures tiles == old(tiles) && agents == old(agents)
      ensures nowTurn == old(nowTurn) && finalTurn == old(finalTurn)
    {
      var tilePoint: seq<int> := [0, 0];
      var regionPoint: seq<int> := [0, 0];
      var w := |tiles|;
      for i := 0 to w
        invariant |tilePoint| == 2 && |regionPoint| == 2
        invariant tilePoint[0] == GridSum(tiles, false, i).tile && tilePoint[1] == GridSum(tiles, true, i).tile
        invariant regionPoint[0] == GridSum(tiles, false, i).region && regionPoint[1] == GridSum(tiles, true, i).region
      {
        var h := Height(tiles);
        for j := 0 to h
          invariant |tilePoint| == 2 && |regionPoint| == 2
          invariant tilePoint[0] == GridSum(tiles, false, i).tile + ColumnSum(tiles[i], false, j).tile
          invariant tilePoint[1] == GridSum(tiles, true, i).tile + ColumnSum(tiles[i], true, j).tile
          invariant regionPoint[0] == GridSum(tiles, false, i).region + ColumnSum(tiles[i], false, j).region
          invariant regionPoint[1] == GridSum(tiles, true, i).region + ColumnSum(tiles[i], true, j).region
        {
          var tile := TileAt(PointUsize(i, j));
          match tile.state {
            case Wall(side) =>
              tilePoint := tilePoint[SideIndex(side) := tilePoint[SideIndex(side)] + tile.point];
            case Position(side) =>
              regionPoint := regionPoint[SideIndex(side) := regionPoint[SideIndex(side)] + Abs(tile.point)];
            case Neutral =>
          }
        }
      }
      scores := [Score(tilePoint[0], regionPoint[0]), Score(tilePoint[1], regionPoint[1])];
    }
  }
}
