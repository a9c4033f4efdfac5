/**
 * The choice among the beam-search plans of the "social distance" solver
 * (src/algorithms/social_distance.rs): the total score of a selection, the
 * spread of a set of positions, and the simulated annealing over
 * selections, with its random draws given as a parameter.
 */
module Annealing {
  import opened MachineInt
  import opened Board
  import opened Simulator
  import opened Beam

  // ---------------------------------------------------------------------------
  // calc_score

  /** Every selected index names a plan of its agent (as far as the two lists are zipped). */
  predicate Fits(bs: seq<seq<Plan>>, sel: seq<nat>)
  {
    forall i :: 0 <= i < |bs| && i < |sel| ==> sel[i] < |bs[i]|
  }

  /** The scores of the selected plans of the first `n` agents, added up. */
  function ScoreSum(bs: seq<seq<Plan>>, sel: seq<nat>, n: nat): real
    requires n <= |bs| && n <= |sel| && Fits(bs, sel)
  {
    if n == 0 then 0.0 else ScoreSum(bs, sel, n - 1) + bs[n - 1][sel[n - 1]].score
  }

  /** `calc_score`: the selection zipped with the plan lists, the selected scores added up. */
  function CalcScore(bs: seq<seq<Plan>>, sel: seq<nat>): (r: real)
    requires Fits(bs, sel)
    ensures |bs| == 0 || |sel| == 0 ==> r == 0.0
  {
    ScoreSum(bs, sel, Min(|bs|, |sel|))
  }

  /** The first `n` selected scores depend only on the first `m >= n` entries of the selection. */
  lemma {:induction false} ScoreSumPrefix(bs: seq<seq<Plan>>, sel: seq<nat>, m: nat, n: nat)
    requires n <= m <= |sel| && n <= |bs| && Fits(bs, sel)
    ensures Fits(bs, sel[..m]) && ScoreSum(bs, sel, n) == ScoreSum(bs, sel[..m], n)
  {
    if n > 0 {
      ScoreSumPrefix(bs, sel, m, n - 1);
    }
  }

  /** The zip stops at the shorter list: entries of the selection past the last agent do not count. */
  lemma CalcScoreZip(bs: seq<seq<Plan>>, sel: seq<nat>)
    requires Fits(bs, sel) && |sel| >= |bs|
    ensures Fits(bs, sel[..|bs|]) && CalcScore(bs, sel) == CalcScore(bs, sel[..|bs|])
  {
    ScoreSumPrefix(bs, sel, |bs|, |bs|);
  }

  lemma {:induction false} ScoreSumUpdate(bs: seq<seq<Plan>>, sel: seq<nat>, n: nat, i: nat, v: nat)
    requires n <= |bs| && n <= |sel| && Fits(bs, sel) && i < |bs| && i < |sel| && v < |bs[i]|
    ensures Fits(bs, sel[i := v])
    ensures ScoreSum(bs, sel[i := v], n) ==
            ScoreSum(bs, sel, n) + (if i < n then bs[i][v].score - bs[i][sel[i]].score else 0.0)
  {
    if n > 0 {
      ScoreSumUpdate(bs, sel, n - 1, i, v);
    }
  }

  /** Re-selecting the plan of one agent changes the total by the difference of the two plans' scores. */
  lemma CalcScoreUpdate(bs: seq<seq<Plan>>, sel: seq<nat>, i: nat, v: nat)
    requires Fits(bs, sel) && i < |bs| && i < |sel| && v < |bs[i]|
    ensures Fits(bs, sel[i := v])
    ensures CalcScore(bs, sel[i := v]) == CalcScore(bs, sel) + bs[i][v].score - bs[i][sel[i]].score
  {
    ScoreSumUpdate(bs, sel, Min(|bs|, |sel|), i, v);
  }

  // ---------------------------------------------------------------------------
  // distance_eval

  /** The `i8` differences of `p - q` and their absolute values stay in range. */
  predicate Close(p: Point, q: Point)
  {
    -127 <= p.x - q.x <= 127 && -127 <= p.y - q.y <= 127
  }

  /** The squared distance of two points (the closure `f` of `distance_eval`). */
  function Dist2(p: Point, q: Point): real
    requires Close(p, q)
  {
    var xd := Abs(p.x - q.x);
    var yd := Abs(p.y - q.y);
    (xd * xd + yd * yd) as real
  }

  predicate Spread(poses: seq<Point>)
  {
    forall i, j :: 0 <= i < j < |poses| ==> Close(poses[i], poses[j])
  }

  /** The squared distances from `poses[i]` to `poses[i + 1 .. k]`. */
  function RowSum(poses: seq<Point>, i: nat, k: nat): real
    requires i < k <= |poses| && Spread(poses)
    decreases k
  {
    if k == i + 1 then 0.0 else RowSum(poses, i, k - 1) + Dist2(poses[i], poses[k - 1])
  }

  /** The squared distances of all pairs whose first member is among the first `n` positions. */
  function PairSum(poses: seq<Point>, n: nat): real
    requires n <= |poses| && Spread(poses)
  {
    if n == 0 then 0.0 else PairSum(poses, n - 1) + RowSum(poses, n - 1, |poses|)
  }

  /** `distance_eval`: the sum of the squared distances over all pairs of positions. */
  method DistanceEval(poses: seq<Point>) returns (score: real)
    requires Spread(poses)
    ensures score == PairSum(poses, |poses|) && score >= 0.0
  {
    score := 0.0;
    for i := 0 to |poses|
      invariant score == PairSum(poses, i)
    {
      for j := i + 1 to |poses|
        invariant score == PairSum(poses, i) + RowSum(poses, i, j)
      {
        score := score + Dist2(poses[i], poses[j]);
      }
    }
    PairSumZero(poses, |poses|);
  }

  lemma SquareZero(a: nat)
    ensures a * a >= 0 && (a * a == 0 <==> a == 0)
  {
    if a > 0 {
      assert a * a >= 1 * a;
    }
  }

  /** A squared distance is never negative, and zero exactly for equal points. */
  lemma Dist2Zero(p: Point, q: Point)
    requires Close(p, q)
    ensures Dist2(p, q) >= 0.0 && (Dist2(p, q) == 0.0 <==> p == q)
  {
    SquareZero(Abs(p.x - q.x));
    SquareZero(Abs(p.y - q.y));
  }

  lemma {:induction false} RowSumZero(poses: seq<Point>, i: nat, k: nat)
    requires i < k <= |poses| && Spread(poses)
    ensures RowSum(poses, i, k) >= 0.0
    ensures RowSum(poses, i, k) == 0.0 <==> forall j :: i < j < k ==> poses[j] == poses[i]
    decreases k
  {
    if k > i + 1 {
      RowSumZero(poses, i, k - 1);
      Dist2Zero(poses[i], poses[k - 1]);
    }
  }

  /**
   * The spread is never negative, and it is zero exactly when all pairs
   * counted so far are at the same point.
   */
  lemma {:induction false} PairSumZero(poses: seq<Point>, n: nat)
    requires n <= |poses| && Spread(poses)
    ensures PairSum(poses, n) >= 0.0
    ensures PairSum(poses, n) == 0.0 <==> forall i, j :: 0 <= i < n && i < j < |poses| ==> poses[j] == poses[i]
  {
    if n > 0 {
      PairSumZero(poses, n - 1);
      RowSumZero(poses, n - 1, |poses|);
    }
  }

  // ---------------------------------------------------------------------------
  // simulated_annealing: the moves

  /**
   * The random draws of one round. A `Single` move re-selects the plan of
   * agent `idx` (`to` is the value drawn below the plan count minus one); a
   * `Pair` move re-selects the plans of two agents. `idx2` is the second
   * agent the drawing loop is meant to settle on (different from `idx1`);
   * the code as written never draws it. `accept` is whether the random
   * number fell at or below the acceptance probability, which only matters
   * for a worse selection.
   */
  datatype Move = Single(idx: nat, to: nat) | Pair(idx1: nat, idx2: nat, to1: nat, to2: nat)
  datatype Draw = Draw(move: Move, accept: bool)

  /** A value drawn below `len - 1`, shifted past the current index: never the current index. */
  function Bump(cur: nat, to: nat): (r: nat)
    ensures r != cur
    ensures r < cur <==> to < cur
  {
    if to >= cur then to + 1 else to
  }

  /** The inverse of `Bump` for a fixed current index. */
  function Unbump(cur: nat, r: nat): nat
    requires r != cur
  {
    if r > cur then r - 1 else r
  }

  /**
   * `Bump` is a bijection from the draws below `len - 1` onto the indices
   * below `len` other than `cur`: each such index is reached by exactly one
   * draw.
   */
  lemma BumpBijection(cur: nat, len: nat, to: nat, r: nat)
    requires cur < len
    ensures to + 1 < len ==> Bump(cur, to) < len && Unbump(cur, Bump(cur, to)) == to
    ensures r < len && r != cur ==> Unbump(cur, r) + 1 < len && Bump(cur, Unbump(cur, r)) == r
  {
  }

  /** The draws of a round are in range as written: one agent, and both values below its plan count minus one. */
  predicate FitsAsWritten(bs: seq<seq<Plan>>, m: Move)
  {
    match m
    case Single(i, to) => i < |bs| && to + 1 < |bs[i]|
    case Pair(i1, _, t1, t2) => i1 < |bs| && t1 + 1 < |bs[i1]| && t2 + 1 < |bs[i1]|
  }

  /** The draws of a round are in range with two different agents for a pair. */
  predicate FitsCorrected(bs: seq<seq<Plan>>, m: Move)
  {
    match m
    case Single(i, to) => i < |bs| && to + 1 < |bs[i]|
    case Pair(i1, i2, t1, t2) => i1 < |bs| && i2 < |bs| && i1 != i2 && t1 + 1 < |bs[i1]| && t2 + 1 < |bs[i2]|
  }

  /**
   * The selection after a move as written: the second agent of a pair is
   * the first one (`idx2` starts equal to `idx1` and the loop that should
   * draw another runs only while they differ), so its second assignment
   * overwrites the first.
   */
  function MovedAsWritten(sel: seq<nat>, m: Move): (r: seq<nat>)
    requires m.Single? ==> m.idx < |sel|
    requires m.Pair? ==> m.idx1 < |sel|
    ensures |r| == |sel|
  {
    match m
    case Single(i, to) => sel[i := Bump(sel[i], to)]
    case Pair(i1, _, t1, t2) =>
      var i2 := i1;
      sel[i1 := Bump(sel[i1], t1)][i2 := Bump(sel[i2], t2)]
  }

  /** The selection after a move, with the two agents of a pair different. */
  function Moved(sel: seq<nat>, m: Move): (r: seq<nat>)
    requires m.Single? ==> m.idx < |sel|
    requires m.Pair? ==> m.idx1 < |sel| && m.idx2 < |sel| && m.idx1 != m.idx2
    ensures |r| == |sel|
  {
    match m
    case Single(i, to) => sel[i := Bump(sel[i], to)]
    case Pair(i1, i2, t1, t2) => sel[i1 := Bump(sel[i1], t1)][i2 := Bump(sel[i2], t2)]
  }

  /** As written, a pair move re-selects the plan of one agent only: every other agent keeps its plan. */
  lemma PairMovesOneAgent(sel: seq<nat>, i1: nat, i2: nat, t1: nat, t2: nat)
    requires i1 < |sel|
    ensures var r := MovedAsWritten(sel, Pair(i1, i2, t1, t2));
            r[i1] != sel[i1] && forall j :: 0 <= j < |sel| && j != i1 ==> r[j] == sel[j]
  {
  }

  /** Corrected, a pair move re-selects the plans of both agents and of no other. */
  lemma PairMovesTwoAgents(sel: seq<nat>, i1: nat, i2: nat, t1: nat, t2: nat)
    requires i1 < |sel| && i2 < |sel| && i1 != i2
    ensures var r := Moved(sel, Pair(i1, i2, t1, t2));
            r[i1] != sel[i1] && r[i2] != sel[i2] &&
            forall j :: 0 <= j < |sel| && j != i1 && j != i2 ==> r[j] == sel[j]
  {
  }

  // ---------------------------------------------------------------------------
  // simulated_annealing: the rounds

  /** The search state: the current selection and its score, and the best accepted score with its selection (`answer`). */
  datatype SaState = SaState(sel: seq<nat>, now: real, best: real, bestSel: seq<nat>)

  /**
   * What holds between rounds: both selections have one entry per agent
   * and name existing plans, the scores are theirs, and the best score is
   * at least the current one.
   */
  ghost predicate Inv(bs: seq<seq<Plan>>, n: nat, st: SaState)
  {
    |bs| <= n && |st.sel| == n && |st.bestSel| == n && Fits(bs, st.sel) && Fits(bs, st.bestSel) &&
    st.now == CalcScore(bs, st.sel) && st.best == CalcScore(bs, st.bestSel) && st.best >= st.now
  }

  function Zeros(n: nat): (r: seq<nat>)
    ensures |r| == n && forall i :: 0 <= i < n ==> r[i] == 0
  {
    seq(n, _ => 0)
  }

  /** The start: every agent takes its first plan. */
  function Init(bs: seq<seq<Plan>>, n: nat): (st: SaState)
    requires |bs| <= n && forall i :: 0 <= i < |bs| ==> |bs[i]| > 0
    ensures Inv(bs, n, st) && st.sel == st.bestSel == Zeros(n)
  {
    var zero := Zeros(n);
    SaState(zero, CalcScore(bs, zero), CalcScore(bs, zero), zero)
  }

  /**
   * One round from `st` to the proposed selection `moved`: a selection at
   * least as good is always accepted, a worse one when the draw says so. An
   * accepted selection becomes current, and the best one when its score is
   * at least the best so far; a rejected one is undone.
   */
  function Step(bs: seq<seq<Plan>>, n: nat, st: SaState, accept: bool, moved: seq<nat>): (r: SaState)
    requires Inv(bs, n, st) && |moved| == n && Fits(bs, moved)
    ensures Inv(bs, n, r) && r.best >= st.best
    ensures r.sel == moved || r.sel == st.sel
  {
    var nex := CalcScore(bs, moved);
    if nex >= st.now || accept then
      if nex >= st.best then SaState(moved, nex, nex, moved) else SaState(moved, nex, st.best, st.bestSel)
    else st
  }

  lemma MovedFits(bs: seq<seq<Plan>>, sel: seq<nat>, m: Move, asWritten: bool)
    requires Fits(bs, sel) && |bs| <= |sel|
    requires asWritten ==> FitsAsWritten(bs, m)
    requires !asWritten ==> FitsCorrected(bs, m)
    ensures asWritten ==> Fits(bs, MovedAsWritten(sel, m))
    ensures !asWritten ==> Fits(bs, Moved(sel, m))
  {
  }

  /** The rounds as written, one per draw. */
  function RunAsWritten(bs: seq<seq<Plan>>, n: nat, st: SaState, draws: seq<Draw>): (r: SaState)
    requires Inv(bs, n, st) && forall k :: 0 <= k < |draws| ==> FitsAsWritten(bs, draws[k].move)
    ensures Inv(bs, n, r) && r.best >= st.best
  {
    if |draws| == 0 then st
    else
      var prev := RunAsWritten(bs, n, st, draws[..|draws| - 1]);
      var d := draws[|draws| - 1];
      MovedFits(bs, prev.sel, d.move, true);
      Step(bs, n, prev, d.accept, MovedAsWritten(prev.sel, d.move))
  }

  /** The rounds with two different agents for a pair move, one per draw. */
  function RunCorrected(bs: seq<seq<Plan>>, n: nat, st: SaState, draws: seq<Draw>): (r: SaState)
    requires Inv(bs, n, st) && forall k :: 0 <= k < |draws| ==> FitsCorrected(bs, draws[k].move)
    ensures Inv(bs, n, r) && r.best >= st.best
  {
    if |draws| == 0 then st
    else
      var prev := RunCorrected(bs, n, st, draws[..|draws| - 1]);
      var d := draws[|draws| - 1];
      MovedFits(bs, prev.sel, d.move, false);
      Step(bs, n, prev, d.accept, Moved(prev.sel, d.move))
  }

  /** The selection once the undo stack is popped to the bottom, restoring each saved index. */
  function Unwind(sel: seq<nat>, stack: seq<(nat, nat)>): (r: seq<nat>)
    requires forall k :: 0 <= k < |stack| ==> stack[k].0 < |sel|
    ensures |r| == |sel|
    decreases |stack|
  {
    if |stack| == 0 then sel
    else
      var top := stack[|stack| - 1];
      Unwind(sel[top.0 := top.1], stack[..|stack| - 1])
  }

  /** The proposal of one round as written, each overwritten index saved on the undo stack. */
  method ProposeAsWritten(sel: seq<nat>, m: Move) returns (sel': seq<nat>, stack: seq<(nat, nat)>)
    requires m.Single? ==> m.idx < |sel|
    requires m.Pair? ==> m.idx1 < |sel|
    ensures sel' == MovedAsWritten(sel, m)
    ensures (forall k :: 0 <= k < |stack| ==> stack[k].0 < |sel'|) && Unwind(sel', stack) == sel
  {
    sel' := sel;
    match m
    case Single(idx, to0) =>
      var to := to0;
      if to >= sel'[idx] {
        to := to + 1;
      }
      stack := [(idx, sel'[idx])];
      sel' := sel'[idx := to];
      assert Unwind(sel', stack) == Unwind(sel'[idx := sel[idx]], []);
      assert sel'[idx := sel[idx]] == sel;
    case Pair(idx1, _, t1, t2) =>
      var idx2 := idx1;
      var to1 := t1;
      var to2 := t2;
      if to1 >= sel'[idx1] {
        to1 := to1 + 1;
      }
      if to2 >= sel'[idx2] {
        to2 := to2 + 1;
      }
      stack := [(idx1, sel'[idx1]), (idx2, sel'[idx2])];
      sel' := sel'[idx1 := to1];
      sel' := sel'[idx2 := to2];
      assert stack[..1] == [(idx1, sel[idx1])];
      assert Unwind(sel', stack) == Unwind(sel'[idx2 := sel[idx2]], [(idx1, sel[idx1])]);
      assert Unwind(sel'[idx2 := sel[idx2]], [(idx1, sel[idx1])]) == sel'[idx2 := sel[idx2]][idx1 := sel[idx1]];
      assert sel'[idx2 := sel[idx2]][idx1 := sel[idx1]] == sel;
  }

  /** The proposal of one round with two different agents for a pair. */
  method Propose(sel: seq<nat>, m: Move) returns (sel': seq<nat>, stack: seq<(nat, nat)>)
    requires m.Single? ==> m.idx < |sel|
    requires m.Pair? ==> m.idx1 < |sel| && m.idx2 < |sel| && m.idx1 != m.idx2
    ensures sel' == Moved(sel, m)
    ensures (forall k :: 0 <= k < |stack| ==> stack[k].0 < |sel'|) && Unwind(sel', stack) == sel
  {
    sel' := sel;
    match m
    case Single(idx, to0) =>
      var to := to0;
      if to >= sel'[idx] {
        to := to + 1;
      }
      stack := [(idx, sel'[idx])];
      sel' := sel'[idx := to];
      assert Unwind(sel', stack) == Unwind(sel'[idx := sel[idx]], []);
      assert sel'[idx := sel[idx]] == sel;
    case Pair(idx1, idx2, t1, t2) =>
      var to1 := t1;
      var to2 := t2;
      if to1 >= sel'[idx1] {
        to1 := to1 + 1;
      }
      if to2 >= sel'[idx2] {
        to2 := to2 + 1;
      }
      stack := [(idx1, sel'[idx1]), (idx2, sel'[idx2])];
      sel' := sel'[idx1 := to1];
      sel' := sel'[idx2 := to2];
      assert stack[..1] == [(idx1, sel[idx1])];
      assert Unwind(sel', stack) == Unwind(sel'[idx2 := sel[idx2]], [(idx1, sel[idx1])]);
      assert Unwind(sel'[idx2 := sel[idx2]], [(idx1, sel[idx1])]) == sel'[idx2 := sel[idx2]][idx1 := sel[idx1]];
      assert sel'[idx2 := sel[idx2]][idx1 := sel[idx1]] == sel;
  }

  /**
   * The rest of a round: score the proposal, accept it or not, record it
   * as the best when accepted and not worse, then pop the undo stack,
   * restoring each saved index when the proposal was rejected.
   */
  method Settle(bs: seq<seq<Plan>>, n: nat, st: SaState, sel: seq<nat>, stack: seq<(nat, nat)>, accept: bool)
    returns (r: SaState)
    requires Inv(bs, n, st) && |sel| == n && Fits(bs, sel)
    requires (forall k :: 0 <= k < |stack| ==> stack[k].0 < |sel|) && Unwind(sel, stack) == st.sel
    ensures r == Step(bs, n, st, accept, sel)
  {
    var nowScore := st.now;
    var bestScore := st.best;
    var bestSel := st.bestSel;
    var nexScore := CalcScore(bs, sel);
    var updated := nexScore >= nowScore || accept;
    if updated {
      nowScore := nexScore;
      if nowScore >= bestScore {
        bestScore := nowScore;
        bestSel := sel;
      }
    }
    var cur := sel;
    var rest := stack;
    while |rest| > 0
      invariant forall k :: 0 <= k < |rest| ==> rest[k].0 < |cur|
      invariant |cur| == n
      invariant updated ==> cur == sel
      invariant !updated ==> Unwind(cur, rest) == st.sel
      decreases |rest|
    {
      var (idx, sc) := rest[|rest| - 1];
      rest := rest[..|rest| - 1];
      if !updated {
        cur := cur[idx := sc];
      }
    }
    r := SaState(cur, nowScore, bestScore, bestSel);
  }

  /**
   * `simulated_annealing` as written: one round per draw, and the current
   * selection is returned, not the best one recorded in `answer`.
   */
  method SimulatedAnnealingAsWritten(bs: seq<seq<Plan>>, agentCount: nat, draws: seq<Draw>) returns (sel: seq<nat>)
    requires |bs| <= agentCount && forall i :: 0 <= i < |bs| ==> |bs[i]| > 0
    requires forall k :: 0 <= k < |draws| ==> FitsAsWritten(bs, draws[k].move)
    ensures sel == RunAsWritten(bs, agentCount, Init(bs, agentCount), draws).sel
  {
    var st := Init(bs, agentCount);
    for k := 0 to |draws|
      invariant st == RunAsWritten(bs, agentCount, Init(bs, agentCount), draws[..k])
    {
      assert draws[..k + 1][..k] == draws[..k];
      var d := draws[k];
      var moved, stack := ProposeAsWritten(st.sel, d.move);
      MovedFits(bs, st.sel, d.move, true);
      st := Settle(bs, agentCount, st, moved, stack, d.accept);
    }
    assert draws[..|draws|] == draws;
    sel := st.sel;
  }

  /**
   * `simulated_annealing` corrected: two different agents for a pair move,
   * and the best accepted selection is returned. Its total score is at
   * least that of taking every agent's first plan.
   */
  method SimulatedAnnealing(bs: seq<seq<Plan>>, agentCount: nat, draws: seq<Draw>) returns (sel: seq<nat>)
    requires |bs| <= agentCount && forall i :: 0 <= i < |bs| ==> |bs[i]| > 0
    requires forall k :: 0 <= k < |draws| ==> FitsCorrected(bs, draws[k].move)
    ensures sel == RunCorrected(bs, agentCount, Init(bs, agentCount), draws).bestSel
    ensures |sel| == agentCount && Fits(bs, sel)
    ensures CalcScore(bs, sel) >= CalcScore(bs, Zeros(agentCount))
  {
    var st := Init(bs, agentCount);
    for k := 0 to |draws|
      invariant st == RunCorrected(bs, agentCount, Init(bs, agentCount), draws[..k])
    {
      assert draws[..k + 1][..k] == draws[..k];
      var d := draws[k];
      var moved, stack := Propose(st.sel, d.move);
      MovedFits(bs, st.sel, d.move, false);
      st := Settle(bs, agentCount, st, moved, stack, d.accept);
    }
    assert draws[..|draws|] == draws;
    sel := st.bestSel;
  }

  // ---------------------------------------------------------------------------
  // The returned selection as written can be worse than the start

  /** One agent with two plans, of scores 5 and 1. */
  function TwoPlans(): seq<seq<Plan>>
  {
    [[Plan(5.0, StayAct, []), Plan(1.0, StayAct, [])]]
  }

  /**
   * A single round that proposes the second plan and draws a random number
   * under the acceptance probability: as written the worse selection `[1]`
   * (score 1) is returned, although the start `[0]` (score 5) was seen;
   * corrected, the best selection `[0]` is returned.
   */
  lemma WorseThanStart()
    ensures var draws := [Draw(Single(0, 0), true)];
            var asWritten := RunAsWritten(TwoPlans(), 1, Init(TwoPlans(), 1), draws).sel;
            var corrected := RunCorrected(TwoPlans(), 1, Init(TwoPlans(), 1), draws).bestSel;
            asWritten == [1] && CalcScore(TwoPlans(), asWritten) == 1.0 &&
            corrected == [0] && CalcScore(TwoPlans(), corrected) == 5.0 &&
            CalcScore(TwoPlans(), Zeros(1)) == 5.0
  {
    var bs := TwoPlans();
    var draws := [Draw(Single(0, 0), true)];
    var st := Init(bs, 1);
    assert Zeros(1) == [0];
    assert CalcScore(bs, [0]) == 5.0;
    assert [0][0 := 1] == [1];
    assert CalcScore(bs, [1]) == 1.0;
    assert draws[..0] == [];
  }
}
