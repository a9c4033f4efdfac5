/**
 * The "social distance" solver's entry point (`solve` and `move_confirm`
 * in src/algorithms/social_distance.rs): a beam search from every agent of
 * the side that is on the board, one plan per agent chosen by simulated
 * annealing, and the first action of each chosen plan.
 */
module SocialDistance {
  import opened Wrappers
  import opened Board
  import opened Field
  import opened Simulator
  import opened Beam
  import opened Annealing

  /** The ids below `n` of the agents that are on the board, in increasing order. */
  function Placed(row: seq<Option<Point>>, n: nat): (r: seq<nat>)
    requires n <= |row|
    ensures |r| <= n
    ensures forall k :: 0 <= k < |r| ==> r[k] < n && row[r[k]].Some?
    ensures forall i :: 0 <= i < n && row[i].Some? ==> i in r
    ensures forall a, b :: 0 <= a < b < |r| ==> r[a] < r[b]
  {
    if n == 0 then []
    else
      var init := Placed(row, n - 1);
      if row[n - 1].Some? then init + [n - 1] else init
  }

  /** The positions of the agents on the board, in the order of `Placed` (the `poses` of `move_confirm`). */
  function PlacedPoses(row: seq<Option<Point>>, n: nat): (r: seq<Point>)
    requires n <= |row|
    ensures |r| == |Placed(row, n)|
    ensures forall k :: 0 <= k < |r| ==> row[Placed(row, n)[k]] == Some(r[k])
  {
    var idxes := Placed(row, n);
    seq(|idxes|, k requires 0 <= k < |idxes| => row[idxes[k]].value)
  }

  /** Every plan of `plans` is a walk of `DEPTH` steps on the board from `start`. */
  ghost predicate PlansFrom(plans: seq<Plan>, start: Point, env: Env)
  {
    forall j :: 0 <= j < |plans| ==>
      |plans[j].path| == DEPTH + 1 && plans[j].path[0] == start && Walk(plans[j].path, env)
  }

  /** Whatever the plan lists, every draw names agents and plans that exist (two different agents for a pair). */
  ghost predicate DrawsFit(drawsFor: seq<seq<Plan>> -> seq<Draw>)
  {
    forall b :: forall k :: 0 <= k < |drawsFor(b)| ==> FitsCorrected(b, drawsFor(b)[k].move)
  }

  /** The beam search from each start in turn (the `bs_res` list of `move_confirm`). */
  method SearchAll(poses: seq<Point>, env: Env, weigh: (real, nat, seq<nat>) -> real)
    returns (bs: seq<seq<Plan>>)
    ensures |bs| == |poses|
    ensures forall k :: 0 <= k < |bs| ==> PlansFrom(bs[k], poses[k], env)
    ensures forall k :: 0 <= k < |bs| ==> |bs[k]| <= WIDTH
  {
    bs := [];
    for k := 0 to |poses|
      invariant |bs| == k
      invariant forall m :: 0 <= m < k ==> PlansFrom(bs[m], poses[m], env) && |bs[m]| <= WIDTH
    {
      var plans, _ := BeamSearch(poses[k], DEPTH, env, weigh);
      bs := bs + [plans];
    }
  }

  /**
   * The final loop of `move_confirm`: agent `idxes[k]` gets `choice[k]`;
   * every other agent keeps the action it had.
   */
  method Assign(acts: seq<Act>, idxes: seq<nat>, choice: seq<Act>) returns (acts': seq<Act>)
    requires |choice| == |idxes|
    requires forall k :: 0 <= k < |idxes| ==> idxes[k] < |acts|
    requires forall a, b :: 0 <= a < b < |idxes| ==> idxes[a] < idxes[b]
    ensures |acts'| == |acts|
    ensures forall i :: 0 <= i < |acts| && i !in idxes ==> acts'[i] == acts[i]
    ensures forall k :: 0 <= k < |idxes| ==> acts'[idxes[k]] == choice[k]
  {
    acts' := acts;
    for k := 0 to |idxes|
      invariant |acts'| == |acts|
      invariant forall i :: 0 <= i < |acts| && i !in idxes[..k] ==> acts'[i] == acts[i]
      invariant forall m :: 0 <= m < k ==> acts'[idxes[m]] == choice[m]
    {
      acts' := acts'[idxes[k] := choice[k]];
    }
    assert idxes[..|idxes|] == idxes;
  }

  /**
   * What `move_confirm` leaves in `acts'`, starting from `acts`: for the
   * `k`-th placed agent of `row`, the action of its plan `bs[k][sel[k]]`,
   * where `sel` picks one plan per agent and scores at least as much as the
   * first plans; every agent not on the board keeps its action.
   */
  ghost predicate Confirmed(row: seq<Option<Point>>, n: nat, acts: seq<Act>, acts': seq<Act>,
                            bs: seq<seq<Plan>>, sel: seq<nat>)
    requires n <= |row|
  {
    var idxes := Placed(row, n);
    |bs| == |idxes| && |acts'| == |acts| && |sel| == n && Fits(bs, sel) &&
    CalcScore(bs, sel) >= CalcScore(bs, Zeros(n)) &&
    (forall i :: 0 <= i < n && i < |acts| && row[i].None? ==> acts'[i] == acts[i]) &&
    (forall k :: 0 <= k < |bs| ==> idxes[k] < |acts'| && acts'[idxes[k]] == bs[k][sel[k]].act)
  }

  /** The contracts of the steps of `move_confirm` put together. */
  lemma ConfirmedByParts(row: seq<Option<Point>>, n: nat, acts: seq<Act>, acts': seq<Act>,
                         bs: seq<seq<Plan>>, sel: seq<nat>, choice: seq<Act>)
    requires n <= |row| && n <= |acts|
    requires |bs| == |Placed(row, n)| && |choice| == |bs|
    requires |sel| == n && Fits(bs, sel) && CalcScore(bs, sel) >= CalcScore(bs, Zeros(n))
    requires forall k :: 0 <= k < |bs| ==> choice[k] == bs[k][sel[k]].act
    requires |acts'| == |acts|
    requires forall i :: 0 <= i < |acts| && i !in Placed(row, n) ==> acts'[i] == acts[i]
    requires forall k :: 0 <= k < |bs| ==> acts'[Placed(row, n)[k]] == choice[k]
    ensures Confirmed(row, n, acts, acts', bs, sel)
  {
    var idxes := Placed(row, n);
    forall i | 0 <= i < n && row[i].None? ensures acts'[i] == acts[i] {
      assert i !in idxes;
    }
  }

  /**
   * `move_confirm`: a beam search from every agent of `side` that is on the
   * board (`bs[k]` for the `k`-th of them, each plan a walk from its
   * position), one plan per agent chosen by simulated annealing, and that
   * plan's first action written over the agent's entry of `acts`. `None`
   * when some agent's search found no plan at all, where the source indexes
   * an empty list and panics. `drawsFor` gives the random draws of the
   * annealing for any plan lists, `env` what the board tells the search.
   */
  method MoveConfirm(field: Field, side: bool, env: Env, weigh: (real, nat, seq<nat>) -> real,
                     drawsFor: seq<seq<Plan>> -> seq<Draw>, acts: seq<Act>)
    returns (acts': Option<seq<Act>>, ghost bs: seq<seq<Plan>>, ghost sel: seq<nat>)
    requires |field.agents| > 0 && SideIndex(side) < |field.agents|
    requires |field.agents[SideIndex(side)]| >= field.AgentCount() && |acts| >= field.AgentCount()
    requires DrawsFit(drawsFor)
    ensures var poses := PlacedPoses(field.agents[SideIndex(side)], field.AgentCount());
            |bs| == |poses| && forall k :: 0 <= k < |bs| ==> PlansFrom(bs[k], poses[k], env)
    ensures acts'.Some? <==> forall k :: 0 <= k < |bs| ==> |bs[k]| > 0
    ensures acts'.Some? ==> Confirmed(field.agents[SideIndex(side)], field.AgentCount(), acts, acts'.value, bs, sel)
  {
    var n := field.AgentCount();
    var row := field.agents[SideIndex(side)];
    var idxes := Placed(row, n);
    var poses := PlacedPoses(row, n);
    var bsRes := SearchAll(poses, env, weigh);
    bs := bsRes;
    sel := [];
    if exists k :: 0 <= k < |bsRes| && |bsRes[k]| == 0 {
      acts' := None;
      return;
    }
    var res := SimulatedAnnealing(bsRes, n, drawsFor(bsRes));
    sel := res;
    var choice := seq(|bsRes|, k requires 0 <= k < |bsRes| => bsRes[k][res[k]].act);
    var a := Assign(acts, idxes, choice);
    ConfirmedByParts(row, n, acts, a, bsRes, res, choice);
    acts' := Some(a);
  }

  /**
   * `solve`: `move_confirm` on one stay per agent, so an agent not on the
   * board stays and every other one takes the first action of its chosen
   * plan.
   */
  method Solve(field: Field, side: bool, env: Env, weigh: (real, nat, seq<nat>) -> real,
               drawsFor: seq<seq<Plan>> -> seq<Draw>)
    returns (acts: Option<seq<Act>>, ghost bs: seq<seq<Plan>>, ghost sel: seq<nat>)
    requires |field.agents| > 0 && SideIndex(side) < |field.agents|
    requires |field.agents[SideIndex(side)]| >= field.AgentCount()
    requires DrawsFit(drawsFor)
    ensures var poses := PlacedPoses(field.agents[SideIndex(side)], field.AgentCount());
            |bs| == |poses| && forall k :: 0 <= k < |bs| ==> PlansFrom(bs[k], poses[k], env)
    ensures acts.Some? <==> forall k :: 0 <= k < |bs| ==> |bs[k]| > 0
    ensures acts.Some? ==>
              var n := field.AgentCount();
              var row := field.agents[SideIndex(side)];
              |acts.value| == n && Confirmed(row, n, seq(n, _ => StayAct), acts.value, bs, sel) &&
              forall i :: 0 <= i < n && row[i].None? ==> acts.value[i] == StayAct
  {
    var stays := seq(field.AgentCount(), _ => StayAct);
    acts, bs, sel := MoveConfirm(field, side, env, weigh, drawsFor, stays);
  }
}
