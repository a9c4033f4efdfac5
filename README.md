# procon2020-comp: board, beam search and annealing, input conversion, turn holder

This is a Dafny model of the decision core of a game client for the 2020
Japanese programming contest (procon). Two teams of agents move on a grid of
scored tiles. An agent can move, put a wall on a tile, or remove a wall. A
side scores the points under its walls. It also scores the absolute points of
the cells it encloses, its "region".

The model covers four source files:

- **The board** (`src/field.rs`). The value types are in `board.dfy`, with
  Rust's integer casts in `machine_int.dfy`. The mutable `Field` is a class in
  `field.dfy`. Its tiles, agents and scores are `seq` fields that its methods
  reassign.
  - The region flood fill (`calc_region`) is an imperative BFS in
    `region.dfy`. It is proved against a reachability definition of the
    4-connected component a cell belongs to.
  - Scoring is in `scoring.dfy`.
  - `update_region` is stated through a pure description of the updated grid
    (`Field.RegionUpdated`).
- **The "social distance" solver** (`src/algorithms/social_distance.rs`).
  - `beam.dfy` holds the beam search. It covers the layered arena of
    `DpState`s with `(prev_turn, prev_idx)` back-pointers, path
    reconstruction, the successor rule, and the de-duplication and cap of
    `reduce_cand`.
  - `anneal.dfy` holds `calc_score`, `distance_eval` and the simulated
    annealing over one plan per agent, with its undo stack.
  - `social_distance.dfy` holds `solve`/`move_confirm`, which tie the two
    together.
  - Scores are `real`s. The board's answers (`base::make_neighbors`,
    `base::point`, whether a tile is an opponent wall) are an `Env` value.
    The random draws of the annealing are a list of `Draw`s.
- **Input conversion** (`src/api/parse.rs`), in `parse.dfy`. JSON values are
  a small `Json` datatype. The model covers:
  - `to_result`;
  - the first-error-wins `err_ret_vec!`;
  - the transposing `parse_2d_list`;
  - `get_team_data`;
  - the 1-based to 0-based agent positions.
- **The turn holder** (`src/simulator.rs`), the class `Simulator` in
  `simulator.dfy`.

`Score::sum` is `Board.Score.Sum`. `is_wall` and `is_position` are the
predicates `Board.State.IsWall` and `Board.State.IsPosition`. `width` and
`height` are `Board.Width` and `Board.Height`.

Three defects of the solver are recorded under "## Findings". Each is modelled
twice: once as written, and once corrected. `SocialDistance.Solve` uses the
corrected versions.

## Model

| member | source | states |
|---|---|---|
| MachineInt.AsU32 | src/api/parse.rs:113 | `as u32` keeps the value modulo 2^32 and is the identity below 2^32 |
| MachineInt.AsI8 | src/field.rs:46-51 | `as i8` keeps the value modulo 256 and is the identity on -128..127 |
| MachineInt.AsUsize | src/field.rs:24-29 | `as usize` on an `i8` is the identity on non-negative values; a negative one becomes a huge index |
| Board.Point.Usize | src/field.rs:24-29 | a point with non-negative coordinates converts to the same index pair |
| Board.Point.Neighbor | src/field.rs:30-32 | `neighbor` holds exactly when both coordinate differences are within one (Chebyshev distance at most 1); the `i8` subtraction must not overflow |
| Board.Point.Add | src/field.rs:35-40 | the sum is coordinate-wise (`i8`, no overflow); adding a unit step gives a neighbour of the point, both ways round |
| Board.PointUsize.Normal | src/field.rs:46-51 | an index pair below 128 converts to the same signed point |
| Board.NeighborReflexive | src/field.rs:30-32 | every point neighbours itself |
| Board.NeighborSymmetric | src/field.rs:30-32 | `p` neighbours `q` exactly when `q` neighbours `p` |
| Board.UsizeNormalRoundTrip | src/field.rs:24-51 | `normal` then `usize` gives back every index pair a board can have |
| Board.State.IsWall | src/field.rs:86-92 | `is_wall` holds exactly for a wall of either side, and never for an agent position |
| Board.State.IsPosition | src/field.rs:93-99 | `is_position` holds exactly for an agent position of either side |
| Board.SumMonotone | src/field.rs:67-69 | `Score::sum` is monotone: better on walls and on region means at least as good a sum, equal only for equal scores |
| Board.Width | src/field.rs:214-216 | `width` is the number of columns, between 1 and 127 on a board |
| Board.Height | src/field.rs:217-219 | `height` reads the first column, and on a rectangular board that is every column's length (below 128 on a board) |
| Board.Inside | src/field.rs:244-247 | `inside(p)` holds exactly when `0 <= p.x < width` and `0 <= p.y < height` |
| Region.ReachSym | src/field.rs:315-336 | reachability through the flood fill's 4-neighbour steps is symmetric |
| Region.ReachTrans | src/field.rs:315-336 | reachability is transitive |
| Region.ComponentClosed | src/field.rs:315-336 | a component contains only open cells and every open 4-neighbour of its cells |
| Region.ComponentOfMember | src/field.rs:306-339 | every cell of a component has that same component, so one BFS labels a whole component |
| Region.RegionValueSameWalls | src/field.rs:298-302 | a cell's region value depends only on where the side's walls are |
| Region.SameComponentSameValue | src/field.rs:338-348 | cells of the same component get equal region values |
| Region.Visit | src/field.rs:315-336 | one direction of the BFS: outside the board sets the border flag; an open unlabelled neighbour is labelled and queued; the search invariant is kept |
| Region.Explore | src/field.rs:303-339 | one BFS labels exactly the component of its seed with the new label, counts its size and flags it exactly when it touches the border; no other label changes |
| Region.ScanCell | src/field.rs:296-340 | one step of the outer scan keeps every scanned open cell labelled and the label sizes correct |
| Region.RegionFromLabels | src/field.rs:342-348 | mapping the labels through the component sizes gives every cell its region value |
| Region.CalcRegion | src/field.rs:291-349 | `calc_region` gives every cell the size of its component of cells that are not the side's walls, `width*height` when that component touches the border, and `width*height` for the side's own walls |
| Scoring.Worth | src/field.rs:273-277 | a wall of the side adds its signed point to the tile score, a region cell of the side adds the point's absolute value to the region score, anything else adds nothing |
| Scoring.GridRegionNonNegative | src/field.rs:275 | a side's region score is never negative |
| Scoring.GridSumUpdate | src/field.rs:270-279 | changing one tile changes a side's score by exactly the difference of that tile's worths |
| Scoring.NoWallsNoTileScore | src/field.rs:274 | a side without walls has tile score 0 |
| Field.RegionUpdatedCell | src/field.rs:252-266 | after `update_region` a wall is unchanged; a non-wall cell is `Position(false)` iff `region(false) < region(true)` or on a tie it already was, symmetrically for `true`, and unchanged on a tie; points never change |
| Field.RegionUpdatedWalls | src/field.rs:256-258 | `update_region` keeps the grid's shape and every wall |
| Field.RegionUpdateIdempotent | src/field.rs:252-266 | a second `update_region` changes nothing |
| Field.InitialState | src/field.rs:187-195 | a tile is `Wall(false)` iff its wall id is team 0's, else `Wall(true)` iff it is team 1's, else `Neutral` |
| Field.InitialTiles | src/field.rs:183-200 | the grid has `width` columns of `height` tiles, each with the point copied from `points[x][y]` and the state from its wall id |
| Field.Field.FromData | src/field.rs:170-210 | `from_data` builds the initial tiles, applies the region update, then scores the board; agents and turns are copied |
| Field.Field.Clone | src/field.rs:111-118 | a clone is a fresh board with equal fields |
| Field.Field.Copy | src/field.rs:111-118 | the board built from its five fields holds exactly them |
| Field.Field.AgentCount | src/field.rs:220-222 | `agent_count` is the length of side 0's agent table |
| Field.Field.ScoreOf | src/field.rs:223-225 | `score(side)` is the entry `side as usize` of the scores |
| Field.Field.TileAt | src/field.rs:232-234 | `tile(pos)` is `tiles[pos.x][pos.y]` |
| Field.Field.Agent | src/field.rs:235-237 | `agent(side, id)` is `agents[side as usize][id]` |
| Field.Field.SetState | src/field.rs:238-240 | only the addressed tile's state changes; its point and everything else stay |
| Field.Field.SetAgent | src/field.rs:241-243 | only the addressed agent slot changes |
| Field.Field.UpdateTurn | src/field.rs:248-251 | the turn must not be the final one and goes up by exactly one; nothing else changes |
| Field.Field.UpdateRegion | src/field.rs:252-266 | the tiles become `RegionUpdated` of the old tiles (see `Field.RegionUpdatedCell`); turns, agents and scores are unchanged |
| Field.Field.UpdateScore | src/field.rs:267-290 | each side's score becomes the board's score for it (walls' signed points, region cells' absolute points); tiles, agents and turns are unchanged |
| Simulator.StayTable | src/simulator.rs:28 | the action table has two rows of `n` actions, all `StayAct` |
| Simulator.Simulator.Make | src/simulator.rs:25-30 | `make` keeps a fresh copy equal to the given board and an all-stay table of two rows of `agent_count` |
| Simulator.Simulator.GetField | src/simulator.rs:31-33 | `get_field` returns the stored board |
| Simulator.Simulator.ChangeTurn | src/simulator.rs:34-37 | `change_turn` applies the region update to the board, leaves turn, agents and scores alone, and resets the table to all stays |
| Parse.ToResult | src/api/parse.rs:10-15 | `Some(v)` gives `Ok(v)`, `None` gives `Err("couldn't parse " + target)` |
| Parse.CollectResults | src/api/parse.rs:54-65 | `err_ret_vec!`: `Ok` of all values in order exactly when every entry is `Ok`, otherwise the first `Err` in list order |
| Parse.CollectTwo | src/api/parse.rs:99-124 | over two results: the first error wins, else both values |
| Parse.ParseRow | src/api/parse.rs:73-86 | a row parses exactly when it is an array of integers, giving them in order; otherwise the error names the list |
| Parse.ParseRows | src/api/parse.rs:71-89 | the list parses exactly when it is an array whose every row parses |
| Parse.ParseMatrix | src/api/parse.rs:67-97 | `parse_2d_list` fails exactly when the rows do and otherwise returns their transpose (`out[j][i] = in[i][j]`), with every entry in the target type's range |
| Parse.CopyRow | src/api/parse.rs:92-94 | the inner loop copies row `i` of the input into column `i` of the output and leaves every other entry as it was |
| Parse.TransposeTwice | src/api/parse.rs:90-95 | transposing a rectangular matrix twice gives it back |
| Parse.EntriesInRange | src/api/parse.rs:79-83 | the entries passed the `try_from` cast, so each lies in the target range |
| Parse.AgentIds | src/api/parse.rs:104-116 | a missing `agents` array gives no ids; otherwise every `agentID` in order, cast to `u32`, or the error `agentID` |
| Parse.TeamOf | src/api/parse.rs:101-121 | a missing `teamID` is an error naming the team; otherwise the id cast to `u32` with the team's agent ids |
| Parse.GetTeamData | src/api/parse.rs:99-125 | exactly teams 0 and 1 are read; the first team's error wins, else both teams in order |
| Parse.AgentPos | src/api/parse.rs:161-171 | server `(x, y)` becomes `Point(x-1, y-1)`; `x == 0` means not on the board; a missing `x` or `y` is an error naming it |
| Parse.MissingXIgnoresY | src/api/parse.rs:162-165 | an agent with no `x` is the `x` error even when its `y` (128) would overflow the cast, so that `y` is admitted |
| Parse.TeamAgents | src/api/parse.rs:154-173 | a team without an `agents` array is an error; otherwise one position per agent in order |
| Parse.AgentTable | src/api/parse.rs:152-176 | the agent table is both teams' positions; it is `Ok` exactly when both teams convert |
| Beam.Root | src/algorithms/social_distance.rs:331-340 | the start state is at the start, has no back-pointer, and has used exactly the start tile |
| Beam.From | src/algorithms/social_distance.rs:72-94 | `DpState::from`: score plus `add_score`, the new position, `used` plus the new position, the first non-stay action frozen, the given back-pointer |
| Beam.CalcBase | src/algorithms/social_distance.rs:405-414 | `None` exactly when the board gives no value; 0 on a tile already used; otherwise the board's value |
| Beam.Marks | src/algorithms/social_distance.rs:216-223 | following back-pointers fills `turn + 1` slots, the last with the state's position and the first with the root's |
| Beam.TraceStep | src/algorithms/social_distance.rs:219-223 | one step back along the chain marks the parent's position at its layer and keeps the slots above agreeing with `Marks` |
| Beam.TraceDone | src/algorithms/social_distance.rs:219-223 | once the root is reached, the vector is exactly `Marks` of the state |
| Beam.LastMark | src/algorithms/social_distance.rs:224-231 | the carried value is the slot itself when filled, and is always defined once slot 0 is |
| Beam.PosesShape | src/algorithms/social_distance.rs:215-233 | a path has `turn + 1` positions, ends at the state's position, and repeats the previous position on a layer skipped by a removal |
| Beam.PosesFrame | src/algorithms/social_distance.rs:219-223 | a path reads only the layers below its state, so changing later layers does not change it |
| Beam.PosesStep | src/algorithms/social_distance.rs:219-223 | a state's path is its parent's path, the parent's position repeated over skipped layers, then its own position |
| Beam.TilesStep | src/algorithms/social_distance.rs:80-81 | the tiles on a state's path are its parent's tiles plus its own position |
| Beam.GetPoses | src/algorithms/social_distance.rs:215-233 | `get_poses` returns exactly the path `Poses` of the state |
| Beam.TraceBack | src/algorithms/social_distance.rs:216-223 | the back-pointer loop leaves exactly `Marks` of the state in `v` |
| Beam.CarryForward | src/algorithms/social_distance.rs:224-232 | the carry-forward loop turns the marks into `Fill` of them: each empty slot repeats the latest position before it |
| Beam.SortDesc | src/algorithms/social_distance.rs:306 | the stable sort under the reversed float order is a permutation, ordered by descending score |
| Beam.SortMembers | src/algorithms/social_distance.rs:321 | sorting keeps exactly the same members |
| Beam.SortDistinct | src/algorithms/social_distance.rs:321 | sorting keeps distinct paths distinct |
| Beam.CommonPrefix | src/algorithms/social_distance.rs:253-261 | `lcp` is the length of the longest recorded prefix of the path: all shorter prefixes are recorded, the next one is not |
| Beam.RecordedPath | src/algorithms/social_distance.rs:283-290 | the prefix test reaches the full length exactly when the path was already kept |
| Beam.PrefixesAdd | src/algorithms/social_distance.rs:286-290 | keeping a path records exactly its non-empty prefixes |
| Beam.RecordPrefixes | src/algorithms/social_distance.rs:286-290 | the prefix loop adds exactly the non-empty prefixes of the new path to the recorded set |
| Beam.RankCandidates | src/algorithms/social_distance.rs:247-305 | the scan keeps states of the layer with pairwise distinct paths, and every state's path is among the kept ones |
| Beam.RankingDone | src/algorithms/social_distance.rs:247-305 | at the end of the scan, no more states are kept than the layer holds, and each kept one is a state of the layer with its own path |
| Beam.ReduceCand | src/algorithms/social_distance.rs:234-328 | `reduce_cand` returns at most `WIDTH` states of the layer with pairwise distinct paths, sorted by descending score, and every path of the layer is kept when fewer than `WIDTH` are |
| Beam.Successor | src/algorithms/social_distance.rs:346-390 | a successor exists exactly when the board values its action; a removal stays put and lands two layers on (one on the last turn); a move lands one layer on at the neighbour; layers never pass `max_depth`; the back-pointer is `(t, idx)` |
| Beam.Children | src/algorithms/social_distance.rs:346-390 | the successors of one state land above it and at most at `max_depth`, point back at it, and stay or go to a neighbour |
| Beam.Offspring | src/algorithms/social_distance.rs:344-391 | every successor of the reduced layer is a child of one of its entries |
| Beam.Landing | src/algorithms/social_distance.rs:388 | the states pushed onto a layer are successors that land in it |
| Beam.Expand | src/algorithms/social_distance.rs:344-391 | the inner loops push each successor, in order, onto the layer it lands in |
| Beam.ExpandLinked | src/algorithms/social_distance.rs:344-391 | after pushing, every back-pointer in the arena still resolves |
| Beam.ExpandArena | src/algorithms/social_distance.rs:341-391 | once layer `t` is the reduced list, every state's path is a walk from the start whose tiles are its `used` set |
| Beam.ExpandNew | src/algorithms/social_distance.rs:346-390 | a newly pushed state points back into layer `t` and its path is a walk from the start whose tiles are its `used` set |
| Beam.ReplaceLayer | src/algorithms/social_distance.rs:342-343 | replacing a layer by a selection of its own states keeps the arena sound |
| Beam.SortLayerLinked | src/algorithms/social_distance.rs:342 | sorting a layer in place keeps every back-pointer resolvable |
| Beam.InitTable | src/algorithms/social_distance.rs:331-340 | the arena has `max_depth + 1` layers, the start state alone in layer 0 |
| Beam.InitialArena | src/algorithms/social_distance.rs:331-340 | the initial arena is sound |
| Beam.CollectPlans | src/algorithms/social_distance.rs:395-403 | each final state becomes (its score, its action, its path) |
| Beam.BeamSearch | src/algorithms/social_distance.rs:330-404 | corrected `beam_search`: at most `WIDTH` plans by descending score with distinct paths; each path has `max_depth + 1` positions, starts at the start, moves only to neighbours, and covers exactly the state's used tiles |
| Beam.BeamSearchAsWritten | src/algorithms/social_distance.rs:330-404 | `beam_search` as written: at most `WIDTH` plans by descending score with distinct paths of `max_depth + 1` positions |
| Beam.StartExpanded | src/algorithms/social_distance.rs:341-391 | on the 2×2 board with two opponent walls, turn 0 from (0,0) pushes the move east to layer 1 and both wall removals to layer 2 |
| Beam.MovedExpanded | src/algorithms/social_distance.rs:341-391 | on the same board, turn 1 from the move east pushes the way back to layer 2 and two removals to layer 3 |
| Beam.CornerTurn0 | src/algorithms/social_distance.rs:341-391 | whatever `reduce_cand` returns for turn 0 is the root alone, and the arena after turn 0 is the one `StartExpanded` describes |
| Beam.CornerTurn1 | src/algorithms/social_distance.rs:341-391 | whatever it returns for turn 1 is the move east alone, and the arena after turn 1 is the one `MovedExpanded` describes |
| Beam.CornerKept | src/algorithms/social_distance.rs:234-328 | of layer 2 (two removals with the same path, then the way back) `reduce_cand` keeps one removal and the way back, at index 1 |
| Beam.StalePushed | src/algorithms/social_distance.rs:344-391 | turn 2 pushes the way back's wall removal, recording back-pointer 1, to layer 3 and leaves the lower layers alone |
| Beam.StaleAsWritten | src/algorithms/social_distance.rs:215-233 | as written, that state's path follows index 1 of the unreduced layer, a removal, so it is (0,0) four times and misses the tile (1,0) it used |
| Beam.StaleCorrected | src/algorithms/social_distance.rs:215-233 | with the reduced layer stored back, the same state's path goes through (1,0) and its tiles are exactly the ones it used |
| Beam.StaleBackPointer | src/algorithms/social_distance.rs:341-343 | for every choice `reduce_cand` may make on turns 0, 1 and 2 of the search of depth 3 from (0,0), the arena actually built has a successor whose back-pointer, read in the unreduced layer, gives a path disagreeing with its used tiles; with the reduced layer stored back it agrees |
| Annealing.CalcScore | src/algorithms/social_distance.rs:112-119 | with no agents or an empty selection the fold gives 0.0 |
| Annealing.CalcScoreZip | src/algorithms/social_distance.rs:113-117 | `zip` stops at the shorter list: selection entries past the last agent do not change the score |
| Annealing.CalcScoreUpdate | src/algorithms/social_distance.rs:112-119 | the summed score changes by exactly the difference of one agent's old and new plan scores |
| Annealing.DistanceEval | src/algorithms/social_distance.rs:98-111 | `distance_eval` is the sum of squared distances over unordered pairs, and is non-negative |
| Annealing.Dist2Zero | src/algorithms/social_distance.rs:99-103 | a squared distance is non-negative and zero exactly for equal points |
| Annealing.PairSumZero | src/algorithms/social_distance.rs:104-110 | the pair sum is non-negative and zero exactly when all positions coincide |
| Annealing.Bump | src/algorithms/social_distance.rs:136-139 | the proposed index differs from the current one |
| Annealing.BumpBijection | src/algorithms/social_distance.rs:136-139 | the draws below `len - 1` map one-to-one onto the indices below `len` other than the current one |
| Annealing.MovedAsWritten | src/algorithms/social_distance.rs:143-159 | the proposal as written keeps the selection's length |
| Annealing.Moved | src/algorithms/social_distance.rs:134-159 | the corrected proposal keeps the selection's length |
| Annealing.PairMovesOneAgent | src/algorithms/social_distance.rs:143-159 | as written, a pair move changes only the first agent's selection |
| Annealing.PairMovesTwoAgents | src/algorithms/social_distance.rs:143-159 | corrected, a pair move sets both agents' selections and no other |
| Annealing.MovedFits | src/algorithms/social_distance.rs:134-159 | a proposal keeps every selected index within its agent's plan list |
| Annealing.Zeros | src/algorithms/social_distance.rs:121 | the initial selection is index 0 for every agent |
| Annealing.Init | src/algorithms/social_distance.rs:121-123 | the initial state keeps the invariant, with the best equal to the initial selection |
| Annealing.Step | src/algorithms/social_distance.rs:162-181 | a round keeps the invariant, never lowers the best score, and ends at the proposal or the previous selection |
| Annealing.RunAsWritten | src/algorithms/social_distance.rs:128-182 | the rounds as written keep the invariant and never lower the best score |
| Annealing.RunCorrected | src/algorithms/social_distance.rs:128-182 | the corrected rounds keep the invariant and never lower the best score |
| Annealing.Unwind | src/algorithms/social_distance.rs:176-181 | popping the undo stack keeps the selection's length |
| Annealing.ProposeAsWritten | src/algorithms/social_distance.rs:134-160 | the proposal as written, with an undo stack that restores the old selection exactly |
| Annealing.Propose | src/algorithms/social_distance.rs:134-160 | the corrected proposal, with an undo stack that restores the old selection exactly |
| Annealing.Settle | src/algorithms/social_distance.rs:162-181 | scoring, accepting or undoing, and recording the best is exactly one round |
| Annealing.SimulatedAnnealingAsWritten | src/algorithms/social_distance.rs:120-184 | as written, the result is the last accepted selection |
| Annealing.SimulatedAnnealing | src/algorithms/social_distance.rs:120-184 | corrected, the result is the best selection seen: one valid index per agent, scoring at least the initial selection |
| Annealing.WorseThanStart | src/algorithms/social_distance.rs:167-183 | one accepted worse move makes the as-written result score below the start, while the corrected result keeps the start's score |
| SocialDistance.Placed | src/algorithms/social_distance.rs:186-194 | the ids of the agents on the board, all of them, in increasing order |
| SocialDistance.PlacedPoses | src/algorithms/social_distance.rs:195-198 | the positions of the placed agents, the `k`-th being that of agent `Placed[k]` |
| SocialDistance.SearchAll | src/algorithms/social_distance.rs:200-203 | one beam search per position, each plan a walk of `DEPTH` steps from that position |
| SocialDistance.Assign | src/algorithms/social_distance.rs:205-207 | each placed agent gets its chosen action and every other agent keeps the action it had |
| SocialDistance.ConfirmedByParts | src/algorithms/social_distance.rs:185-214 | corrected: the search, annealing and assignment steps together give `Confirmed`: placed agents take their chosen plan's first action, the choice scores at least as well as all first plans, unplaced agents keep theirs |
| SocialDistance.MoveConfirm | src/algorithms/social_distance.rs:185-214 | corrected `move_confirm` (corrected search and annealing): plans are walks from each placed agent; no result exactly when some agent has no plan; otherwise `Confirmed` holds for the incoming actions |
| SocialDistance.Solve | src/algorithms/social_distance.rs:43-47 | corrected: `solve` with `move_confirm`: every placed agent gets the first action of one of its own plans, chosen by the annealing at least as well as all first plans; unplaced agents stay; no result when an agent has no plan |

## Left out

- Randomness and time.
  - `Field::new` draws a random board, and `read_field` only calls it. Neither is modelled.
  - The annealing's wall-clock deadline is replaced by the length of the `draws` list.
  - Its `thread_rng` choices (move kind, agents, target indices) are the `Draw` values.
  - The `exp` acceptance test and the temperature schedule become one `accept` flag per round. A proposal at least as good as the current one is always accepted, as `prob >= 1` guarantees in the source.
- Floating point.
  - Scores are exact `real`s. Rounding, `pow(PER, t)` (the model's `Pow`) and the `powf` weights are not modelled.
  - The adjusted score that `reduce_cand` ranks by (the LCP bonus and the same-tile penalty) is the parameter `weigh`.
  - The returned average `val` is dropped, since every caller ignores it.
- Beam.ReduceCand: when more than `WIDTH` states have distinct paths, the contract does not say which ones are kept. The source keeps the best `WIDTH` by adjusted score, and that score is abstract here.
- Beam.SortDesc: `res.sort()` on `(MinOrdFloat, DpState, usize)` tuples breaks score ties by comparing the states and LCPs. The model sorts stably by score alone. `MinOrdFloat` is taken to reverse the float order, so `sort()` is descending.
- `base::make_neighbors`, `base::point` and the opponent-wall test of `beam_search` are the fields of `Env`. src/algorithms/base.rs holds only the solver trait, and the functions it exports are not part of this model.
- Board.Score.Sum: the sum is an unbounded integer; the source adds two `i16` values, which panics on overflow in debug builds.
- Field.Field.UpdateScore: the sums are unbounded integers, while the source accumulates in `i16`, which panics on overflow in debug builds. The `abs()` of a point of -128 (an `i8` overflow) is taken as 128.
- Board.Point.Neighbor and Board.Point.Add: the `i8` overflow panics of the source are preconditions.
- Parse.ParseMatrix: requires `EntriesFit`, every integer entry inside the target type. The source panics in `try_from(..).expect("cast error")` (src/api/parse.rs:81) instead of returning an error. It also requires `Transposable`: at least one row, a non-empty first row, and no row longer than the first. The source panics otherwise, on `r[0][0]` for an empty matrix or an empty first row (src/api/parse.rs:90) and on `v[j][i]` for a row longer than row 0 (src/api/parse.rs:93).
- Parse.GetTeamData: requires at least two teams. The source indexes `teams[0]` and `teams[1]` (src/api/parse.rs:102-106) and panics on a shorter list.
- Parse.AgentTable: requires at least two teams, for the same indexing of `teams[i]` (src/api/parse.rs:155), and `PosFits` for every agent.
- Parse.AgentPos: requires `PosFits`. The `x` cast must not give -128, since `x as i8 - 1` (src/api/parse.rs:163) would overflow and panic. The same holds for `y` (src/api/parse.rs:165) only when `x` parses, because a missing `x` returns its error before `y` is read.
- Parse.TeamAgents: requires `PosFits` for every agent, for the same `i8` subtractions. Every agent's closure runs, because the results are collected before the first error is taken.
- Field.Field.UpdateTurn: requires `nowTurn < 0xFF`. The `u8` increment (src/field.rs:250) would overflow and panic once the turn reaches 255.
- Annealing.DistanceEval: requires `Spread`, every pair of positions close enough that `p1.x - p2.x` and `p1.y - p2.y` fit in `i8`. The source's `i8` subtraction (src/algorithms/social_distance.rs:100-101) panics otherwise.
- Field.Field.FromData: coordinates are `i8`, so the board must have fewer than 128 columns and rows. It also requires at least one column. With width 0, `from_data` calls `update_region` (src/field.rs:207), which calls `calc_region`. Its first line (src/field.rs:292) calls `height()`, which unwraps `tiles.get(0)` (src/field.rs:218) and panics.
- SocialDistance.Solve: some panics of the source become preconditions or a `None` result.
  - With no agent on the board, or with an agent that has only one plan, `gen_range` is called on an empty range and the source panics. The model admits only draws that name an existing agent and an existing other plan (`DrawsFit`), so those cases run no rounds.
  - An agent whose search found no plan makes `calc_score` index an empty list. The model returns `None`.
- Annealing.SimulatedAnnealing: needs two different agents for a pair draw. The corrected loop would redraw forever with a single agent.
- `parse_matches_data`, `read_config_json`, `read_params` and `Params::default` are not modelled. They are JSON plumbing over the modelled helpers, file I/O, and tuning constants.
- `parse_field_data`'s own glue (reading `width`, `height` and `turn`, then calling `from_data`) is not modelled beyond its modelled parts: the agent positions, the team data and the two matrices.
- `println!` debug output is not modelled.
- The visualizer, the HTTP client, the driver (`main.rs`, `manager.rs`), the other solvers, and the Python tuning scripts are not part of this model.

## Findings

| source | as written | input that shows it | evidently intended | confidence | as-written member | corrected member |
|---|---|---|---|---|---|---|
| src/algorithms/social_distance.rs:341-391 | Successors record `prev_idx` as an index into the reduced list `bef`, but `cand[t]` is never replaced by `bef`, so `get_poses` follows the pointer into the unreduced, sorted layer. | A search of depth 3 from (0,0) on a 2×2 board whose tiles (0,1) and (1,1) are opponent walls worth 2 and whose other tiles are worth 1. Turn 0 pushes the move east (score 1.0) to layer 1 and both wall removals (score 3.4 each, same path) to layer 2. Turn 1 pushes the way back to (0,0) (no new tile, score 1.0) to layer 2. `reduce_cand` keeps one removal and the way back, at index 1. The way back's removal of (0,1) on turn 2 records index 1, which in the unreduced layer is the second removal, so its path is (0,0) four times and misses the tile (1,0) it used. | Store the reduced layer back (`cand[t] = bef`) before pushing successors. | not executed | Beam.StaleBackPointer | Beam.BeamSearch |
| src/algorithms/social_distance.rs:143-147 | `idx2` starts equal to `idx1`, so `while idx1 != idx2` never runs and both halves of a pair move hit the same agent. The second write overwrites the first. | any pair draw, e.g. selection `[0, 0]` with agents 0 and 1 and targets 1 and 1: only agent 0 changes | `while idx1 == idx2`, so that two different agents move | not executed | Annealing.PairMovesOneAgent | Annealing.PairMovesTwoAgents |
| src/algorithms/social_distance.rs:167-183 | The best selection is kept in `answer`, but the function returns `sel`, the last accepted selection. | Plans scored 5.0 and 1.0 for one agent, and one round that proposes the second plan and accepts it. The result `[1]` scores 1.0, below the initial 5.0. | return `answer.1` | not executed | Annealing.WorseThanStart | Annealing.SimulatedAnnealing |
