/**
 * The beam search of the "social distance" solver
 * (src/algorithms/social_distance.rs): a layered arena of search states,
 * each pointing back to the state it was grown from, the reconstruction of a
 * state's path of positions, and the successor rule.
 */
module Beam {
  import opened Wrappers
  import opened MachineInt
  import opened Board
  import opened Simulator

  /** Search depth `DEPTH` and beam width `WIDTH`. */
  const DEPTH: nat := 5
  const WIDTH: nat := 10
  /** The discount per turn `PER`. */
  const PER: real := 0.7

  /**
   * `DpState`: the score so far, the current position, the first action
   * taken, the tiles visited, and the back-pointer `(prev_turn, prev_idx)`
   * into the arena.
   */
  datatype DpState = DpState(score: real, pos: Point, act: Act, used: set<Point>,
                             prevTurn: Option<nat>, prevIdx: Option<nat>)

  /** The order of `DpState`: by score alone. */
  function StateScore(s: DpState): real
  {
    s.score
  }

  /** The start of a search: score 0, no action yet, only the start tile visited, no back-pointer. */
  function Root(start: Point): (r: DpState)
    ensures r.prevTurn.None? && r.prevIdx.None? && r.used == {start} && r.pos == start
  {
    DpState(0.0, start, StayAct, {start}, None, None)
  }

  /**
   * `DpState::from`: the state one step further. The first action that is
   * not a stay is kept for good; the visited tiles grow by the new position.
   */
  function From(s: DpState, nexPos: Point, nexAct: Act, addScore: real, prevTurn: nat, prevIdx: nat): (r: DpState)
    ensures r.score == s.score + addScore && r.pos == nexPos
    ensures r.used == s.used + {nexPos} && s.used <= r.used
    ensures s.act != StayAct ==> r.act == s.act
    ensures s.act == StayAct ==> r.act == nexAct
    ensures r.prevTurn == Some(prevTurn) && r.prevIdx == Some(prevIdx)
  {
    DpState(s.score + addScore, nexPos, if s.act == StayAct then nexAct else s.act,
            s.used + {nexPos}, Some(prevTurn), Some(prevIdx))
  }

  /**
   * `calc_base`: nothing when the board gives the action no value (`point`
   * is the value `base::point` gives it), 0 for a tile the state has already
   * visited, and otherwise the value.
   */
  function CalcBase(now: DpState, nexPos: Point, point: Option<int>): (r: Option<real>)
    ensures r.Some? <==> point.Some?
    ensures point.Some? && nexPos in now.used ==> r == Some(0.0)
    ensures point.Some? && nexPos !in now.used ==> r == Some(point.value as real)
  {
    match point
    case None => None
    case Some(p) => Some(if nexPos in now.used then 0.0 else p as real)
  }

  // ---------------------------------------------------------------------------
  // The arena and the paths it encodes

  /** `cand`: layer `t` holds the states reached after `t` turns. */
  type Table = seq<seq<DpState>>

  /**
   * The back-pointer of `s`, a state of layer `u`, is usable: both halves
   * are set or neither, it points to an existing state of an earlier layer,
   * and only layer 0 holds states without one.
   */
  predicate Links(table: Table, s: DpState, u: nat)
  {
    (s.prevTurn.Some? <==> s.prevIdx.Some?) &&
    (s.prevTurn.Some? ==> s.prevTurn.value < u && s.prevTurn.value < |table| &&
                          s.prevIdx.value < |table[s.prevTurn.value]|) &&
    (s.prevTurn.None? ==> u == 0)
  }

  /** Every state of the arena has a usable back-pointer. */
  ghost predicate Linked(table: Table)
  {
    forall u, i :: 0 <= u < |table| && 0 <= i < |table[u]| ==> Links(table, table[u][i], u)
  }

  function Nones(n: nat): (r: seq<Option<Point>>)
    ensures |r| == n && forall i :: 0 <= i < n ==> r[i].None?
  {
    seq(n, _ => None)
  }

  /**
   * The vector `v` that `get_poses` fills by following back-pointers from
   * `s` at layer `u`: the position of each state on the chain at its own
   * layer, and `None` at the layers a removal skipped.
   */
  function Marks(table: Table, s: DpState, u: nat): (r: seq<Option<Point>>)
    requires Linked(table) && Links(table, s, u)
    ensures |r| == u + 1 && r[u] == Some(s.pos) && r[0].Some?
    decreases u
  {
    if s.prevTurn.None? then [Some(s.pos)]
    else
      var pt := s.prevTurn.value;
      Marks(table, table[pt][s.prevIdx.value], pt) + Nones(u - pt - 1) + [Some(s.pos)]
  }

  /** The latest position marked at or before index `i`. */
  function LastMark(marks: seq<Option<Point>>, i: nat): (r: Option<Point>)
    requires i < |marks|
    ensures marks[0].Some? ==> r.Some?
    ensures marks[i].Some? ==> r == marks[i]
  {
    if marks[i].Some? || i == 0 then marks[i] else LastMark(marks, i - 1)
  }

  /** Each unmarked entry repeats the position before it. */
  function Fill(marks: seq<Option<Point>>): (r: seq<Point>)
    requires |marks| > 0 && marks[0].Some?
    ensures |r| == |marks|
  {
    seq(|marks|, i requires 0 <= i < |marks| => LastMark(marks, i).value)
  }

  /** The path of positions of `s`, a state of layer `u`: one per turn, from the start to `s.pos`. */
  function Poses(table: Table, s: DpState, u: nat): seq<Point>
    requires Linked(table) && Links(table, s, u)
  {
    Fill(Marks(table, s, u))
  }

  /**
   * The path has one position per turn `0..u` and ends at the state's own
   * position; a turn skipped by a removal repeats the position before it.
   */
  lemma PosesShape(table: Table, s: DpState, u: nat)
    requires Linked(table) && Links(table, s, u)
    ensures |Poses(table, s, u)| == u + 1 && Poses(table, s, u)[u] == s.pos
    ensures forall k :: 0 < k <= u && Marks(table, s, u)[k].None? ==>
              Poses(table, s, u)[k] == Poses(table, s, u)[k - 1]
  {
  }

  /** The set of positions on a sequence. */
  function Tiles(path: seq<Point>): set<Point>
  {
    set i | 0 <= i < |path| :: path[i]
  }

  lemma LastMarkAppend(a: seq<Option<Point>>, b: seq<Option<Point>>, i: nat)
    requires |a| > 0 && a[0].Some? && i < |a|
    ensures LastMark(a + b, i) == LastMark(a, i)
  {
    if !(a[i].Some? || i == 0) {
      LastMarkAppend(a, b, i - 1);
    }
  }

  lemma {:induction false} LastMarkNones(a: seq<Option<Point>>, n: nat, i: nat)
    requires |a| > 0 && a[0].Some? && |a| <= i < |a| + n
    ensures LastMark(a + Nones(n), i) == LastMark(a, |a| - 1)
    decreases i
  {
    if i == |a| {
      LastMarkAppend(a, Nones(n), |a| - 1);
    } else {
      LastMarkNones(a, n, i - 1);
    }
  }

  /**
   * Growing a chain: the path of a state one or two turns after `p` is the
   * path of `p`, then `p`'s position again for every skipped turn, then
   * the new position.
   */
  lemma FillExtend(a: seq<Option<Point>>, n: nat, q: Point)
    requires |a| > 0 && a[0].Some?
    ensures var last := Fill(a)[|a| - 1];
            Fill(a + Nones(n) + [Some(q)]) == Fill(a) + seq(n, _ => last) + [q]
  {
    var m := a + Nones(n) + [Some(q)];
    var last := Fill(a)[|a| - 1];
    var r := Fill(a) + seq(n, _ => last) + [q];
    assert |Fill(m)| == |r|;
    forall i | 0 <= i < |m|
      ensures Fill(m)[i] == r[i]
    {
      assert m == (a + Nones(n)) + [Some(q)];
      if i < |a| {
        LastMarkAppend(a, Nones(n) + [Some(q)], i);
        assert m == a + (Nones(n) + [Some(q)]);
      } else if i < |a| + n {
        LastMarkAppend(a + Nones(n), [Some(q)], i);
        LastMarkNones(a, n, i);
      }
    }
  }

  /** The path of a state with a back-pointer, in terms of the path of the state it points to. */
  lemma PosesStep(table: Table, s: DpState, u: nat)
    requires Linked(table) && Links(table, s, u) && s.prevTurn.Some?
    ensures var pt := s.prevTurn.value;
            var p := table[pt][s.prevIdx.value];
            Poses(table, s, u) == Poses(table, p, pt) + seq(u - pt - 1, _ => p.pos) + [s.pos]
  {
    var pt := s.prevTurn.value;
    var p := table[pt][s.prevIdx.value];
    FillExtend(Marks(table, p, pt), u - pt - 1, s.pos);
    PosesShape(table, p, pt);
  }

  /** Such a path visits the tiles of the parent's path and the new position, and nothing else. */
  lemma TilesStep(table: Table, s: DpState, u: nat)
    requires Linked(table) && Links(table, s, u) && s.prevTurn.Some?
    ensures var p := table[s.prevTurn.value][s.prevIdx.value];
            Tiles(Poses(table, s, u)) == Tiles(Poses(table, p, s.prevTurn.value)) + {s.pos}
  {
    var pt := s.prevTurn.value;
    var p := table[pt][s.prevIdx.value];
    PosesStep(table, s, u);
    PosesShape(table, p, pt);
    var a := Poses(table, p, pt);
    var mid := seq(u - pt - 1, _ => p.pos);
    var path := a + mid + [s.pos];
    forall x | x in Tiles(path)
      ensures x in Tiles(a) + {s.pos}
    {
      var i :| 0 <= i < |path| && path[i] == x;
      if i >= |a| && i < |a| + |mid| {
        assert x == a[pt];
      }
    }
    forall x | x in Tiles(a) + {s.pos}
      ensures x in Tiles(path)
    {
      if x == s.pos {
        assert path[|path| - 1] == x;
      } else {
        var i :| 0 <= i < |a| && a[i] == x;
        assert path[i] == x;
      }
    }
  }

  /**
   * Paths look only at earlier layers: two arenas that agree below layer
   * `u` give a state of layer `u` the same path.
   */
  lemma {:induction false} PosesFrame(table: Table, table': Table, s: DpState, u: nat)
    requires Linked(table) && Linked(table') && Links(table, s, u) && Links(table', s, u)
    requires u <= |table| && u <= |table'| && table[..u] == table'[..u]
    ensures Marks(table, s, u) == Marks(table', s, u) && Poses(table, s, u) == Poses(table', s, u)
    decreases u
  {
    if s.prevTurn.Some? {
      var pt := s.prevTurn.value;
      assert table[pt] == table[..u][pt] == table'[..u][pt] == table'[pt];
      assert table[..pt] == table'[..pt] by {
        assert table[..pt] == table[..u][..pt];
        assert table'[..pt] == table'[..u][..pt];
      }
      PosesFrame(table, table', table[pt][s.prevIdx.value], pt);
    }
  }

  /**
   * The state of the first loop of `get_poses` after reaching `top` at
   * layer `topTurn`: `v` marks `top` and nothing below it, and above it
   * agrees with the marks of `state`.
   */
  ghost predicate Traced(table: Table, state: DpState, turn: nat, top: DpState, topTurn: nat, v: seq<Option<Point>>)
    requires Linked(table) && Links(table, state, turn)
  {
    topTurn <= turn && Links(table, top, topTurn) && |v| == turn + 1 &&
    v[..topTurn] == Nones(topTurn) && v[topTurn] == Some(top.pos) &&
    Marks(table, state, turn) == Marks(table, top, topTurn) + v[topTurn + 1..]
  }

  /** One step back along the chain keeps `Traced`. */
  lemma TraceStep(table: Table, state: DpState, turn: nat, top: DpState, topTurn: nat, v: seq<Option<Point>>)
    requires Linked(table) && Links(table, state, turn)
    requires Traced(table, state, turn, top, topTurn, v) && top.prevIdx.Some?
    ensures var pt := top.prevTurn.value;
            var p := table[pt][top.prevIdx.value];
            Traced(table, state, turn, p, pt, v[pt := Some(p.pos)])
  {
    var pt := top.prevTurn.value;
    var p := table[pt][top.prevIdx.value];
    var v' := v[pt := Some(p.pos)];
    assert Marks(table, top, topTurn) == Marks(table, p, pt) + Nones(topTurn - pt - 1) + [Some(top.pos)];
    assert v'[pt + 1..] == Nones(topTurn - pt - 1) + [v[topTurn]] + v[topTurn + 1..];
    assert v'[..pt] == v[..topTurn][..pt];
  }

  /** At the head of the chain, `v` is exactly the marks of `state`. */
  lemma TraceDone(table: Table, state: DpState, turn: nat, top: DpState, topTurn: nat, v: seq<Option<Point>>)
    requires Linked(table) && Links(table, state, turn)
    requires Traced(table, state, turn, top, topTurn, v) && top.prevIdx.None?
    ensures v == Marks(table, state, turn)
  {
    assert v == [v[0]] + v[1..];
  }

  /**
   * The first loop of `get_poses`: follows the back-pointers from `state`,
   * a state of layer `turn`, marking each state's position at its layer.
   */
  method TraceBack(state: DpState, turn: nat, table: Table) returns (v: seq<Option<Point>>)
    requires Linked(table) && Links(table, state, turn)
    ensures v == Marks(table, state, turn)
  {
    v := Nones(turn + 1)[turn := Some(state.pos)];
    var top := state;
    ghost var topTurn := turn;
    assert v[turn + 1..] == [];
    assert v[..turn] == Nones(turn);
    while top.prevIdx.Some?
      invariant Traced(table, state, turn, top, topTurn, v)
      decreases topTurn
    {
      TraceStep(table, state, turn, top, topTurn, v);
      var prevTurn := top.prevTurn.value;
      top := table[prevTurn][top.prevIdx.value];
      v := v[prevTurn := Some(top.pos)];
      topTurn := prevTurn;
    }
    TraceDone(table, state, turn, top, topTurn, v);
  }

  /** The second loop of `get_poses`: carries each marked position forward over the unmarked layers. */
  method CarryForward(v: seq<Option<Point>>) returns (res: seq<Point>)
    requires |v| > 0 && v[0].Some?
    ensures res == Fill(v)
  {
    var now: Option<Point> := None;
    res := [];
    for i := 0 to |v|
      invariant |res| == i && forall k :: 0 <= k < i ==> res[k] == LastMark(v, k).value
      invariant i > 0 ==> now == LastMark(v, i - 1)
    {
      if v[i].Some? {
        now := v[i];
      }
      res := res + [now.value];
    }
  }

  /** `get_poses`: the path of `state`, a state of layer `turn`, read off the arena. */
  method GetPoses(state: DpState, turn: nat, table: Table) returns (res: seq<Point>)
    requires Linked(table) && Links(table, state, turn)
    ensures res == Poses(table, state, turn)
  {
    var v := TraceBack(state, turn, table);
    res := CarryForward(v);
  }

  // ---------------------------------------------------------------------------
  // Sorting (`sort()` on states and ranked candidates)

  predicate SortedDesc<X>(xs: seq<X>, key: X -> real)
  {
    forall i, j :: 0 <= i < j < |xs| ==> key(xs[i]) >= key(xs[j])
  }

  /** Put `x` in front of the first element whose key is not larger. */
  function Insert<X>(x: X, ys: seq<X>, key: X -> real): (r: seq<X>)
    ensures |r| == |ys| + 1 && multiset(r) == multiset(ys) + multiset{x}
  {
    if |ys| == 0 || key(x) >= key(ys[0]) then [x] + ys
    else
      assert ys == [ys[0]] + ys[1..];
      [ys[0]] + Insert(x, ys[1..], key)
  }

  lemma {:induction false} InsertSorted<X>(x: X, ys: seq<X>, key: X -> real)
    requires SortedDesc(ys, key)
    ensures SortedDesc(Insert(x, ys, key), key)
    decreases |ys|
  {
    if !(|ys| == 0 || key(x) >= key(ys[0])) {
      var rest := Insert(x, ys[1..], key);
      InsertSorted(x, ys[1..], key);
      forall i | 0 <= i < |rest|
        ensures key(ys[0]) >= key(rest[i])
      {
        assert rest[i] in multiset(rest);
        if rest[i] != x {
          assert rest[i] in multiset(ys[1..]);
          var j :| 0 <= j < |ys[1..]| && ys[1..][j] == rest[i];
          assert ys[j + 1] == rest[i];
        }
      }
    }
  }

  /** The list ordered by decreasing key (the order of `sort()` under the reversed float order). */
  function SortDesc<X>(xs: seq<X>, key: X -> real): (r: seq<X>)
    ensures |r| == |xs| && multiset(r) == multiset(xs)
    ensures SortedDesc(r, key)
  {
    if |xs| == 0 then []
    else
      assert xs == [xs[0]] + xs[1..];
      InsertSorted(xs[0], SortDesc(xs[1..], key), key);
      Insert(xs[0], SortDesc(xs[1..], key), key)
  }

  /** Sorting keeps exactly the elements it was given. */
  lemma SortMembers<X>(xs: seq<X>, key: X -> real)
    ensures forall z :: z in SortDesc(xs, key) <==> z in xs
  {
    forall z
      ensures z in SortDesc(xs, key) <==> z in xs
    {
      assert z in SortDesc(xs, key) <==> z in multiset(SortDesc(xs, key));
      assert z in xs <==> z in multiset(xs);
    }
  }

  /** No two elements share their image under `f`. */
  ghost predicate DistinctBy<X, Y>(xs: seq<X>, f: X -> Y)
  {
    forall i, j :: 0 <= i < j < |xs| ==> f(xs[i]) != f(xs[j])
  }

  lemma {:induction false} InsertDistinct<X, Y>(x: X, ys: seq<X>, key: X -> real, f: X -> Y)
    requires DistinctBy(ys, f)
    requires forall i :: 0 <= i < |ys| ==> f(ys[i]) != f(x)
    ensures DistinctBy(Insert(x, ys, key), f)
    decreases |ys|
  {
    if !(|ys| == 0 || key(x) >= key(ys[0])) {
      var rest := Insert(x, ys[1..], key);
      InsertDistinct(x, ys[1..], key, f);
      forall z | z in rest
        ensures f(z) != f(ys[0])
      {
        assert z in multiset(rest);
        if z != x {
          assert z in ys[1..];
        }
      }
    }
  }

  /** Sorting keeps the images under `f` pairwise different. */
  lemma {:induction false} SortDistinct<X, Y>(xs: seq<X>, key: X -> real, f: X -> Y)
    requires DistinctBy(xs, f)
    ensures DistinctBy(SortDesc(xs, key), f)
  {
    if |xs| > 0 {
      var sorted := SortDesc(xs[1..], key);
      SortDistinct(xs[1..], key, f);
      forall i | 0 <= i < |sorted|
        ensures f(sorted[i]) != f(xs[0])
      {
        assert sorted[i] in multiset(xs[1..]);
        var j :| 0 <= j < |xs[1..]| && xs[1..][j] == sorted[i];
      }
      InsertDistinct(xs[0], sorted, key, f);
    }
  }

  // ---------------------------------------------------------------------------
  // reduce_cand

  /** A candidate of `reduce_cand` with its adjusted score and its common-prefix length. */
  datatype Ranked = Ranked(key: real, state: DpState, lcp: nat)

  function RankKey(r: Ranked): real
  {
    r.key
  }

  /** The path of a state of layer `t` (empty when its back-pointer is unusable). */
  ghost function PathOf(table: Table, t: nat, s: DpState): seq<Point>
  {
    if Linked(table) && Links(table, s, t) then Poses(table, s, t) else []
  }

  /** The paths of the given states of layer `t`. */
  ghost function PathsOf(table: Table, t: nat, xs: seq<DpState>): set<seq<Point>>
  {
    set i | 0 <= i < |xs| :: PathOf(table, t, xs[i])
  }

  /** All non-empty prefixes of the given paths (`h_map`). */
  ghost function Prefixes(paths: seq<seq<Point>>): set<seq<Point>>
  {
    set p, i | p in paths && 0 < i <= |p| :: p[..i]
  }

  /**
   * The prefix test of `reduce_cand`: `lcp` is the number of leading
   * prefixes of `poses` already recorded, or the full length when all are.
   */
  method CommonPrefix(hMap: set<seq<Point>>, poses: seq<Point>) returns (lcp: nat)
    ensures lcp <= |poses|
    ensures forall i :: 0 < i <= lcp ==> poses[..i] in hMap
    ensures lcp < |poses| ==> poses[..lcp + 1] !in hMap
  {
    var posesPref: seq<Point> := [];
    lcp := |poses|;
    var i := 0;
    while i < |poses|
      invariant i <= |poses| && posesPref == poses[..i] && lcp == |poses|
      invariant forall k :: 0 < k <= i ==> poses[..k] in hMap
    {
      posesPref := posesPref + [poses[i]];
      assert posesPref == poses[..i + 1];
      if posesPref !in hMap {
        lcp := i;
        return;
      }
      i := i + 1;
    }
  }

  /** A path of full length is fully recorded exactly when it is one of the recorded paths. */
  lemma RecordedPath(paths: seq<seq<Point>>, poses: seq<Point>, lcp: nat)
    requires |poses| > 0 && forall j :: 0 <= j < |paths| ==> |paths[j]| == |poses|
    requires lcp <= |poses|
    requires forall i :: 0 < i <= lcp ==> poses[..i] in Prefixes(paths)
    requires lcp < |poses| ==> poses[..lcp + 1] !in Prefixes(paths)
    ensures lcp == |poses| <==> poses in paths
  {
    if lcp == |poses| {
      assert poses[..|poses|] == poses;
      assert poses in Prefixes(paths);
      var p, i :| p in paths && 0 < i <= |p| && p[..i] == poses;
      assert p[..i] == p;
    }
  }

  lemma PrefixesAdd(paths: seq<seq<Point>>, poses: seq<Point>)
    ensures Prefixes(paths + [poses]) == Prefixes(paths) + set i | 0 < i <= |poses| :: poses[..i]
  {
    forall q | q in Prefixes(paths + [poses])
      ensures q in Prefixes(paths) + set i | 0 < i <= |poses| :: poses[..i]
    {
      var p, i :| p in paths + [poses] && 0 < i <= |p| && p[..i] == q;
      if p != poses {
        assert p in paths;
      }
    }
  }

  /**
   * What the scan of `reduce_cand` has established after the first `k`
   * candidates of layer `t`: each kept entry is a candidate met so far (at
   * increasing indices `idx`), the kept paths are pairwise different, and the
   * path of every candidate met so far is among them.
   */
  ghost predicate Ranking(table: Table, t: nat, k: nat, res: seq<Ranked>, paths: seq<seq<Point>>, idx: seq<nat>)
    requires t < |table|
  {
    k <= |table[t]| && |paths| == |res| && |idx| == |res| &&
    (forall j :: 0 <= j < |res| ==>
       idx[j] < k && res[j].state == table[t][idx[j]] && paths[j] == PathOf(table, t, res[j].state)) &&
    (forall j1, j2 :: 0 <= j1 < j2 < |res| ==> idx[j1] < idx[j2]) &&
    (forall j1, j2 :: 0 <= j1 < j2 < |res| ==> paths[j1] != paths[j2]) &&
    (forall j :: 0 <= j < |paths| ==> |paths[j]| == t + 1) &&
    (forall k' :: 0 <= k' < k ==> PathOf(table, t, table[t][k']) in paths)
  }

  lemma RankKeep(table: Table, t: nat, k: nat, res: seq<Ranked>, paths: seq<seq<Point>>, idx: seq<nat>, r: Ranked)
    requires t < |table| && k < |table[t]| && Ranking(table, t, k, res, paths, idx)
    requires r.state == table[t][k] && |PathOf(table, t, r.state)| == t + 1
    requires PathOf(table, t, r.state) !in paths
    ensures Ranking(table, t, k + 1, res + [r], paths + [PathOf(table, t, r.state)], idx + [k])
  {
  }

  lemma RankSkip(table: Table, t: nat, k: nat, res: seq<Ranked>, paths: seq<seq<Point>>, idx: seq<nat>)
    requires t < |table| && k < |table[t]| && Ranking(table, t, k, res, paths, idx)
    requires PathOf(table, t, table[t][k]) in paths
    ensures Ranking(table, t, k + 1, res, paths, idx)
  {
    assert forall j :: 0 <= j < |res| ==> idx[j] < k + 1;
    assert forall k' :: 0 <= k' < k + 1 ==> PathOf(table, t, table[t][k']) in paths;
  }

  /** Once every candidate has been met, the scan's invariant gives the contract of `RankCandidates`. */
  lemma RankingDone(table: Table, t: nat, res: seq<Ranked>, paths: seq<seq<Point>>, idx: seq<nat>)
    requires t < |table| && Ranking(table, t, |table[t]|, res, paths, idx)
    ensures |res| <= |table[t]|
    ensures forall j :: 0 <= j < |res| ==> res[j].state in table[t] && paths[j] == PathOf(table, t, res[j].state)
  {
    if |res| > 0 {
      IncreasingBound(idx, |table[t]|);
    }
  }

  /**
   * The recording loop of `reduce_cand`: every non-empty prefix of the kept
   * path goes into `h_map`.
   */
  method RecordPrefixes(hMap: set<seq<Point>>, ghost paths: seq<seq<Point>>, poses: seq<Point>)
    returns (hMap': set<seq<Point>>)
    requires hMap == Prefixes(paths)
    ensures hMap' == Prefixes(paths + [poses])
  {
    hMap' := hMap;
    var posesPref: seq<Point> := [];
    for i := 0 to |poses|
      invariant posesPref == poses[..i]
      invariant hMap' == Prefixes(paths) + set n | 0 < n <= i :: poses[..n]
    {
      posesPref := posesPref + [poses[i]];
      hMap' := hMap' + {posesPref};
    }
    PrefixesAdd(paths, poses);
  }

  /**
   * The scan of `reduce_cand`: the candidates of layer `t` in order, each
   * kept when its path has not been seen yet, with its adjusted score
   * `adjust(score, lcp, overlaps)` (the float weighting of the source) where
   * `overlaps` counts the shared visited tiles with each kept candidate.
   */
  method RankCandidates(table: Table, t: nat, adjust: (real, nat, seq<nat>) -> real)
    returns (res: seq<Ranked>, ghost paths: seq<seq<Point>>)
    requires Linked(table) && t < |table|
    ensures |res| <= |table[t]| && |paths| == |res|
    ensures forall j :: 0 <= j < |res| ==> res[j].state in table[t] && paths[j] == PathOf(table, t, res[j].state)
    ensures forall j1, j2 :: 0 <= j1 < j2 < |res| ==> paths[j1] != paths[j2]
    ensures forall k :: 0 <= k < |table[t]| ==> PathOf(table, t, table[t][k]) in paths
  {
    var cand := table[t];
    res := [];
    var hMap: set<seq<Point>> := {};
    var posV: seq<set<Point>> := [];
    paths := [];
    ghost var idx: seq<nat> := [];
    for k := 0 to |cand|
      invariant Ranking(table, t, k, res, paths, idx)
      invariant |posV| == |res|
      invariant hMap == Prefixes(paths)
    {
      var state := cand[k];
      assert Links(table, state, t);
      var poses := GetPoses(state, t, table);
      PosesShape(table, state, t);
      assert poses == PathOf(table, t, state);
      var lcp := CommonPrefix(hMap, poses);
      RecordedPath(paths, poses, lcp);
      var btreeUsed := state.used;
      var hsVec := seq(|posV|, j requires 0 <= j < |posV| => |posV[j] * btreeUsed|);
      var score := adjust(state.score, lcp, hsVec);
      if |poses| != lcp {
        hMap := RecordPrefixes(hMap, paths, poses);
        RankKeep(table, t, k, res, paths, idx, Ranked(score, state, lcp));
        posV := posV + [btreeUsed];
        res := res + [Ranked(score, state, lcp)];
        paths := paths + [poses];
        idx := idx + [k];
      } else {
        RankSkip(table, t, k, res, paths, idx);
      }
    }
    RankingDone(table, t, res, paths, idx);
  }

  /**
   * What `reduce_cand` promises of the states `selected` it keeps of layer
   * `t`: at most `WIDTH` states of the layer, no two sharing a path, no path
   * of the layer lost unless the beam is full, ordered by score.
   */
  ghost predicate Reduces(table: Table, t: nat, selected: seq<DpState>)
    requires t < |table|
  {
    |selected| <= WIDTH && |selected| <= |table[t]| &&
    (forall i :: 0 <= i < |selected| ==> selected[i] in table[t]) &&
    (forall i, j :: 0 <= i < j < |selected| ==> PathOf(table, t, selected[i]) != PathOf(table, t, selected[j])) &&
    (|selected| < WIDTH ==> PathsOf(table, t, table[t]) <= PathsOf(table, t, selected)) &&
    SortedDesc(selected, StateScore)
  }

  /**
   * `reduce_cand` on layer `t`: keeps the first candidate of each distinct
   * path, ranks them by adjusted score, keeps the best `WIDTH` and orders
   * those by score.
   */
  method ReduceCand(table: Table, t: nat, adjust: (real, nat, seq<nat>) -> real) returns (selected: seq<DpState>)
    requires Linked(table) && t < |table|
    ensures Reduces(table, t, selected)
  {
    var res, paths := RankCandidates(table, t, adjust);
    var ranked := SortDesc(res, RankKey);
    SortDistinct(res, RankKey, (r: Ranked) => PathOf(table, t, r.state));
    SortMembers(res, RankKey);
    var siz := Min(|ranked|, WIDTH);
    var kept := seq(siz, i requires 0 <= i < siz => ranked[i].state);
    selected := SortDesc(kept, StateScore);
    SortDistinct(kept, StateScore, (s: DpState) => PathOf(table, t, s));
    SortMembers(kept, StateScore);
    KeptFromLayer(table, t, res, ranked, kept, selected);
    if |selected| < WIDTH {
      KeptCoverLayer(table, t, res, paths, ranked, kept, selected);
    }
  }

  lemma KeptFromLayer(table: Table, t: nat, res: seq<Ranked>, ranked: seq<Ranked>, kept: seq<DpState>, selected: seq<DpState>)
    requires t < |table|
    requires forall j :: 0 <= j < |res| ==> res[j].state in table[t]
    requires forall z :: z in ranked <==> z in res
    requires |kept| <= |ranked| && forall i :: 0 <= i < |kept| ==> kept[i] == ranked[i].state
    requires forall z :: z in selected <==> z in kept
    ensures forall i :: 0 <= i < |selected| ==> selected[i] in table[t]
  {
    forall i | 0 <= i < |selected|
      ensures selected[i] in table[t]
    {
      assert selected[i] in kept;
      var j :| 0 <= j < |kept| && kept[j] == selected[i];
      assert ranked[j] in res;
    }
  }

  lemma KeptCoverLayer(table: Table, t: nat, res: seq<Ranked>, paths: seq<seq<Point>>,
                       ranked: seq<Ranked>, kept: seq<DpState>, selected: seq<DpState>)
    requires t < |table| && |paths| == |res|
    requires forall j :: 0 <= j < |res| ==> paths[j] == PathOf(table, t, res[j].state)
    requires forall k :: 0 <= k < |table[t]| ==> PathOf(table, t, table[t][k]) in paths
    requires forall z :: z in ranked <==> z in res
    requires |kept| == |ranked| && forall i :: 0 <= i < |kept| ==> kept[i] == ranked[i].state
    requires forall z :: z in selected <==> z in kept
    ensures PathsOf(table, t, table[t]) <= PathsOf(table, t, selected)
  {
    forall p | p in PathsOf(table, t, table[t])
      ensures p in PathsOf(table, t, selected)
    {
      var k :| 0 <= k < |table[t]| && PathOf(table, t, table[t][k]) == p;
      var j :| 0 <= j < |paths| && paths[j] == p;
      assert res[j] in ranked;
      var r :| 0 <= r < |ranked| && ranked[r] == res[j];
      assert kept[r] in selected;
      var i :| 0 <= i < |selected| && selected[i] == kept[r];
      assert PathOf(table, t, selected[i]) == p;
    }
  }

  /** A strictly increasing sequence of indices below `n` has at most `n` entries. */
  lemma {:induction false} IncreasingBound(idx: seq<nat>, n: nat)
    requires |idx| > 0 && forall j :: 0 <= j < |idx| ==> idx[j] < n
    requires forall j1, j2 :: 0 <= j1 < j2 < |idx| ==> idx[j1] < idx[j2]
    ensures |idx| <= n
  {
    var j := 0;
    while j < |idx|
      invariant j <= |idx| && (j > 0 ==> idx[j - 1] >= j - 1)
    {
      j := j + 1;
    }
  }

  // ---------------------------------------------------------------------------
  // Growing the arena (the body of the `beam_search` loop)

  /**
   * What the board tells the search: the neighbours of a point
   * (`base::make_neighbors`), whether a point holds an opponent wall, and
   * the value of an action (`base::point`, nothing when the action is not
   * allowed).
   */
  datatype Env = Env(neighbors: Point -> seq<Point>, oppWall: Point -> bool, point: Act -> Option<int>)

  function Pow(r: real, n: nat): real
  {
    if n == 0 then 1.0 else r * Pow(r, n - 1)
  }

  /**
   * The successor of `now` (entry `idx` of the reduced layer `t`) towards
   * the neighbour `nex`, with the layer it lands in. An opponent wall is
   * removed: the agent stays, and the removal takes two turns (its value
   * weighted by `1 + PER`) unless only one turn is left. Any other neighbour
   * is moved to. Nothing when the board gives the action no value.
   */
  function Successor(now: DpState, nex: Point, t: nat, idx: nat, maxDepth: nat, env: Env): (r: Option<(DpState, nat)>)
    requires t < maxDepth
    ensures r.Some? <==> env.point(if env.oppWall(nex) then RemoveAct(nex) else MoveAct(nex)).Some?
    ensures r.Some? ==> t < r.value.1 <= maxDepth && r.value.1 <= t + 2
    ensures r.Some? ==> r.value.0.prevTurn == Some(t) && r.value.0.prevIdx == Some(idx)
    ensures r.Some? ==> r.value.0.used == now.used + {r.value.0.pos}
    ensures r.Some? && env.oppWall(nex) ==>
              r.value.0.pos == now.pos && r.value.1 == (if t + 1 == maxDepth then t + 1 else t + 2)
    ensures r.Some? && !env.oppWall(nex) ==> r.value.0.pos == nex && r.value.1 == t + 1
  {
    if env.oppWall(nex) then
      var act := RemoveAct(nex);
      match CalcBase(now, nex, env.point(act))
      case None => None
      case Some(p) =>
        if t == maxDepth - 1 then Some((From(now, now.pos, act, p * Pow(PER, t), t, idx), t + 1))
        else Some((From(now, now.pos, act, p * (1.0 + PER) * Pow(PER, t), t, idx), t + 2))
    else
      var act := MoveAct(nex);
      match CalcBase(now, nex, env.point(act))
      case None => None
      case Some(p) => Some((From(now, nex, act, p * Pow(PER, t), t, idx), t + 1))
  }

  /** The successors of `now` towards the neighbours `nbrs`, in order, with their layers. */
  function Children(now: DpState, idx: nat, nbrs: seq<Point>, t: nat, maxDepth: nat, env: Env): (r: seq<(DpState, nat)>)
    requires t < maxDepth
    ensures forall j :: 0 <= j < |r| ==>
              t < r[j].1 <= maxDepth && r[j].0.prevTurn == Some(t) && r[j].0.prevIdx == Some(idx) &&
              r[j].0.used == now.used + {r[j].0.pos} && (r[j].0.pos == now.pos || r[j].0.pos in nbrs)
  {
    if |nbrs| == 0 then []
    else
      var last := nbrs[|nbrs| - 1];
      var init := Children(now, idx, nbrs[..|nbrs| - 1], t, maxDepth, env);
      assert forall j :: 0 <= j < |init| ==> init[j].0.pos == now.pos || init[j].0.pos in nbrs;
      match Successor(now, last, t, idx, maxDepth, env)
      case None => init
      case Some(c) => init + [c]
  }

  /** A new state `c.0` in layer `c.1` is a successor of the entry of `bef` it points to. */
  predicate ChildOf(bef: seq<DpState>, t: nat, maxDepth: nat, env: Env, c: (DpState, nat))
  {
    t < c.1 <= maxDepth && c.0.prevTurn == Some(t) && c.0.prevIdx.Some? && c.0.prevIdx.value < |bef| &&
    var p := bef[c.0.prevIdx.value];
    c.0.used == p.used + {c.0.pos} && (c.0.pos == p.pos || c.0.pos in env.neighbors(p.pos))
  }

  /** The successors of the first `n` entries of the reduced layer, in the order they are pushed. */
  function Offspring(bef: seq<DpState>, n: nat, t: nat, maxDepth: nat, env: Env): (r: seq<(DpState, nat)>)
    requires n <= |bef| && t < maxDepth
    ensures forall j :: 0 <= j < |r| ==> ChildOf(bef, t, maxDepth, env, r[j])
  {
    if n == 0 then []
    else
      var now := bef[n - 1];
      Offspring(bef, n - 1, t, maxDepth, env) + Children(now, n - 1, env.neighbors(now.pos), t, maxDepth, env)
  }

  /** The states among `xs` that land in layer `u`, in order. */
  function Landing(xs: seq<(DpState, nat)>, u: nat): (r: seq<DpState>)
    ensures forall k :: 0 <= k < |r| ==> (r[k], u) in xs
    ensures (forall c :: c in xs ==> c.1 != u) ==> r == []
  {
    if |xs| == 0 then []
    else
      var init := xs[..|xs| - 1];
      var rest := Landing(init, u);
      assert forall k :: 0 <= k < |rest| ==> (rest[k], u) in xs by {
        assert forall c :: c in init ==> c in xs;
      }
      if xs[|xs| - 1].1 == u then rest + [xs[|xs| - 1].0] else rest
  }

  lemma LandingPush(xs: seq<(DpState, nat)>, c: (DpState, nat), u: nat)
    ensures Landing(xs + [c], u) == Landing(xs, u) + (if c.1 == u then [c.0] else [])
  {
    assert (xs + [c])[..|xs|] == xs;
  }

  /** The arena after the successors of the reduced layer `bef` are pushed to their layers. */
  function Expanded(cand: Table, bef: seq<DpState>, t: nat, maxDepth: nat, env: Env): Table
    requires t < maxDepth
  {
    var off := Offspring(bef, |bef|, t, maxDepth, env);
    seq(|cand|, u requires 0 <= u < |cand| => cand[u] + Landing(off, u))
  }

  /** Each layer of `next` is the layer of `cand` followed by the pushed states that land in it. */
  ghost predicate PushedOnto(cand: Table, next: Table, pushed: seq<(DpState, nat)>)
  {
    |next| == |cand| && forall u :: 0 <= u < |cand| ==> next[u] == cand[u] + Landing(pushed, u)
  }

  lemma PushOnto(cand: Table, next: Table, pushed: seq<(DpState, nat)>, c: (DpState, nat))
    requires PushedOnto(cand, next, pushed) && c.1 < |cand|
    ensures PushedOnto(cand, next[c.1 := next[c.1] + [c.0]], pushed + [c])
  {
    forall u | 0 <= u < |cand|
      ensures Landing(pushed + [c], u) == Landing(pushed, u) + (if c.1 == u then [c.0] else [])
    {
      LandingPush(pushed, c, u);
    }
  }

  /**
   * The inner loops of `beam_search`: every entry of `bef`, in order, pushes
   * its successors towards each of its neighbours, in order, to their layers.
   */
  method Expand(cand: Table, bef: seq<DpState>, t: nat, maxDepth: nat, env: Env) returns (next: Table)
    requires t < maxDepth && |cand| == maxDepth + 1
    ensures next == Expanded(cand, bef, t, maxDepth, env)
  {
    next := cand;
    ghost var pushed: seq<(DpState, nat)> := [];
    for idx := 0 to |bef|
      invariant pushed == Offspring(bef, idx, t, maxDepth, env)
      invariant PushedOnto(cand, next, pushed)
    {
      var nowState := bef[idx];
      var neighbors := env.neighbors(nowState.pos);
      ghost var before := pushed;
      for k := 0 to |neighbors|
        invariant pushed == before + Children(nowState, idx, neighbors[..k], t, maxDepth, env)
        invariant PushedOnto(cand, next, pushed)
      {
        var nex := neighbors[k];
        assert neighbors[..k + 1][..k] == neighbors[..k];
        var c := Successor(nowState, nex, t, idx, maxDepth, env);
        if c.Some? {
          PushOnto(cand, next, pushed, c.value);
          next := next[c.value.1 := next[c.value.1] + [c.value.0]];
          pushed := pushed + [c.value];
        }
      }
      assert neighbors[..|neighbors|] == neighbors;
    }
  }

  // ---------------------------------------------------------------------------
  // What the arena keeps true

  /** Every step of the path stays put or goes to a neighbour. */
  ghost predicate Walk(path: seq<Point>, env: Env)
  {
    forall k :: 0 < k < |path| ==> path[k] == path[k - 1] || path[k] in env.neighbors(path[k - 1])
  }

  /** The back-pointer of `s` goes below layer `m`. */
  predicate Below(s: DpState, m: nat)
  {
    s.prevTurn.Some? ==> s.prevTurn.value < m
  }

  /**
   * The state `s` of layer `u` is what its path says: the path starts at
   * `start`, walks along neighbours, and its tiles are exactly the tiles
   * `s` counts as visited.
   */
  ghost predicate Sound(cand: Table, u: nat, s: DpState, start: Point, env: Env)
  {
    Linked(cand) && Links(cand, s, u) &&
    var path := Poses(cand, s, u);
    path[0] == start && s.used == Tiles(path) && Walk(path, env)
  }

  /**
   * The arena before layer `t` is processed: every back-pointer is usable
   * and goes below `t`, and every state is sound.
   */
  ghost predicate Arena(cand: Table, t: nat, start: Point, env: Env)
  {
    Linked(cand) &&
    forall u, i :: 0 <= u < |cand| && 0 <= i < |cand[u]| ==>
      Below(cand[u][i], t) && Sound(cand, u, cand[u][i], start, env)
  }

  lemma LinksMember(table: Table, u: nat, s: DpState)
    requires Linked(table) && u < |table| && s in table[u]
    ensures Links(table, s, u)
  {
    var i :| 0 <= i < |table[u]| && table[u][i] == s;
  }

  /** A path looks only at the layers below its state's back-pointer. */
  lemma PosesFrameBelow(table: Table, table': Table, s: DpState, u: nat, m: nat)
    requires Linked(table) && Linked(table') && Links(table, s, u) && Links(table', s, u)
    requires Below(s, m) && m <= |table| && m <= |table'| && table[..m] == table'[..m]
    ensures Poses(table, s, u) == Poses(table', s, u)
  {
    if s.prevTurn.Some? {
      var pt := s.prevTurn.value;
      assert table[pt] == table[..m][pt] == table'[..m][pt] == table'[pt];
      assert table[..pt] == table'[..pt] by {
        assert table[..pt] == table[..m][..pt];
        assert table'[..pt] == table'[..m][..pt];
      }
      PosesFrame(table, table', table[pt][s.prevIdx.value], pt);
    }
  }

  lemma SoundFrame(cand: Table, cand': Table, u: nat, s: DpState, m: nat, start: Point, env: Env)
    requires Sound(cand, u, s, start, env) && Linked(cand') && Links(cand', s, u)
    requires Below(s, m) && m <= |cand| && m <= |cand'| && cand[..m] == cand'[..m]
    ensures Sound(cand', u, s, start, env)
  {
    PosesFrameBelow(cand, cand', s, u, m);
  }

  lemma WalkExtend(a: seq<Point>, n: nat, q: Point, env: Env)
    requires |a| > 0 && Walk(a, env)
    requires q == a[|a| - 1] || q in env.neighbors(a[|a| - 1])
    ensures Walk(a + seq(n, _ => a[|a| - 1]) + [q], env)
  {
  }

  /** A successor of a sound state is sound. */
  lemma SoundChild(next: Table, u: nat, s: DpState, t: nat, start: Point, env: Env)
    requires Linked(next) && Links(next, s, u) && s.prevTurn == Some(t)
    requires var p := next[t][s.prevIdx.value];
             Sound(next, t, p, start, env) && s.used == p.used + {s.pos} &&
             (s.pos == p.pos || s.pos in env.neighbors(p.pos))
    ensures Sound(next, u, s, start, env)
  {
    var p := next[t][s.prevIdx.value];
    PosesStep(next, s, u);
    TilesStep(next, s, u);
    PosesShape(next, p, t);
    WalkExtend(Poses(next, p, t), u - t - 1, s.pos, env);
  }

  /** Successors land strictly above the layer they grew from. */
  lemma LandingAbove(bef: seq<DpState>, t: nat, maxDepth: nat, env: Env, u: nat)
    requires t < maxDepth && u <= t
    ensures Landing(Offspring(bef, |bef|, t, maxDepth, env), u) == []
  {
    var off := Offspring(bef, |bef|, t, maxDepth, env);
    assert forall c :: c in off ==> c.1 > t;
  }

  /** Pushing successors of entries of layer `t` keeps every back-pointer usable. */
  lemma ExpandLinked(cand: Table, bef: seq<DpState>, t: nat, maxDepth: nat, env: Env)
    requires t < maxDepth && |cand| == maxDepth + 1 && Linked(cand) && |bef| <= |cand[t]|
    ensures Linked(Expanded(cand, bef, t, maxDepth, env))
  {
    var next := Expanded(cand, bef, t, maxDepth, env);
    var off := Offspring(bef, |bef|, t, maxDepth, env);
    forall u, i | 0 <= u < |next| && 0 <= i < |next[u]|
      ensures Links(next, next[u][i], u)
    {
      if i < |cand[u]| {
        assert next[u][i] == cand[u][i];
        assert Links(cand, cand[u][i], u);
      } else {
        var s := Landing(off, u)[i - |cand[u]|];
        assert next[u][i] == s;
        assert (s, u) in off;
        var j :| 0 <= j < |off| && off[j] == (s, u);
        assert ChildOf(bef, t, maxDepth, env, off[j]);
      }
    }
  }

  lemma ExpandKeepsOld(cand: Table, next: Table, u: nat, i: nat, t: nat, start: Point, env: Env)
    requires Arena(cand, t, start, env) && Linked(next) && t <= |cand| && t <= |next|
    requires cand[..t] == next[..t] && u < |cand| && u < |next| && i < |cand[u]| && i < |next[u]|
    requires next[u][i] == cand[u][i]
    ensures Sound(next, u, next[u][i], start, env)
  {
    SoundFrame(cand, next, u, cand[u][i], t, start, env);
  }

  /**
   * Pushing the successors of the reduced layer `t`, once that layer is the
   * reduced one, keeps every state of the arena sound.
   */
  lemma ExpandArena(cand: Table, bef: seq<DpState>, t: nat, maxDepth: nat, start: Point, env: Env)
    requires t < maxDepth && |cand| == maxDepth + 1 && Arena(cand, t, start, env) && cand[t] == bef
    ensures Arena(Expanded(cand, bef, t, maxDepth, env), t + 1, start, env)
  {
    var next := Expanded(cand, bef, t, maxDepth, env);
    var off := Offspring(bef, |bef|, t, maxDepth, env);
    ExpandLinked(cand, bef, t, maxDepth, env);
    forall u | 0 <= u <= t
      ensures next[u] == cand[u]
    {
      LandingAbove(bef, t, maxDepth, env, u);
    }
    assert cand[..t] == next[..t];
    forall u, i | 0 <= u < |next| && 0 <= i < |next[u]|
      ensures Below(next[u][i], t + 1) && Sound(next, u, next[u][i], start, env)
    {
      if i < |cand[u]| {
        ExpandKeepsOld(cand, next, u, i, t, start, env);
      } else {
        ExpandNew(cand, bef, t, maxDepth, start, env, u, i);
      }
    }
  }

  /** A state pushed by the expansion of layer `t` is sound and points below `t + 1`. */
  lemma ExpandNew(cand: Table, bef: seq<DpState>, t: nat, maxDepth: nat, start: Point, env: Env, u: nat, i: nat)
    requires t < maxDepth && |cand| == maxDepth + 1 && Arena(cand, t, start, env) && cand[t] == bef
    requires var next := Expanded(cand, bef, t, maxDepth, env);
             Linked(next) && cand[..t] == next[..t] && next[t] == cand[t] &&
             u < |next| && |cand[u]| <= i < |next[u]|
    ensures var next := Expanded(cand, bef, t, maxDepth, env);
            Below(next[u][i], t + 1) && Sound(next, u, next[u][i], start, env)
  {
    var next := Expanded(cand, bef, t, maxDepth, env);
    var off := Offspring(bef, |bef|, t, maxDepth, env);
    var s := Landing(off, u)[i - |cand[u]|];
    assert next[u][i] == s;
    assert (s, u) in off;
    var j :| 0 <= j < |off| && off[j] == (s, u);
    assert ChildOf(bef, t, maxDepth, env, off[j]);
    var k := s.prevIdx.value;
    ExpandKeepsOld(cand, next, t, k, t, start, env);
    SoundChild(next, u, s, t, start, env);
  }

  /**
   * Putting back into layer `t` some of its own states (sorted, or reduced)
   * keeps the arena as it was: nothing points into layer `t` yet.
   */
  lemma ReplaceLayer(cand: Table, t: nat, layer: seq<DpState>, start: Point, env: Env)
    requires t < |cand| && Arena(cand, t, start, env) && forall s :: s in layer ==> s in cand[t]
    ensures Arena(cand[t := layer], t, start, env)
  {
    var cand' := cand[t := layer];
    assert cand'[..t] == cand[..t];
    forall u, i | 0 <= u < |cand'| && 0 <= i < |cand'[u]|
      ensures Below(cand'[u][i], t) && Links(cand', cand'[u][i], u)
    {
      if u == t {
        assert cand'[u][i] in cand[t];
        var j :| 0 <= j < |cand[t]| && cand[t][j] == cand'[u][i];
      }
    }
    assert Linked(cand');
    forall u, i | 0 <= u < |cand'| && 0 <= i < |cand'[u]|
      ensures Sound(cand', u, cand'[u][i], start, env)
    {
      var s := cand'[u][i];
      if u == t {
        assert s in cand[t];
        var j :| 0 <= j < |cand[t]| && cand[t][j] == s;
        SoundFrame(cand, cand', u, s, t, start, env);
      } else {
        SoundFrame(cand, cand', u, s, t, start, env);
      }
    }
  }

  /** Sorting a layer in place keeps every back-pointer usable. */
  lemma SortLayerLinked(cand: Table, t: nat, layer: seq<DpState>)
    requires t < |cand| && Linked(cand) && |layer| == |cand[t]| && forall s :: s in layer ==> s in cand[t]
    ensures Linked(cand[t := layer])
  {
    var cand' := cand[t := layer];
    forall u, i | 0 <= u < |cand'| && 0 <= i < |cand'[u]|
      ensures Links(cand', cand'[u][i], u)
    {
      if u == t {
        assert cand'[u][i] in cand[t];
        var j :| 0 <= j < |cand[t]| && cand[t][j] == cand'[u][i];
      }
    }
  }

  // ---------------------------------------------------------------------------
  // beam_search

  /** A result of the search: the score, the first action, and the path of positions. */
  datatype Plan = Plan(score: real, act: Act, path: seq<Point>)

  /** The empty arena of `maxDepth + 1` layers with the start state in layer 0. */
  function InitTable(start: Point, maxDepth: nat): (r: Table)
    ensures |r| == maxDepth + 1 && r[0] == [Root(start)]
    ensures forall u :: 0 < u <= maxDepth ==> r[u] == []
  {
    seq(maxDepth + 1, u => if u == 0 then [Root(start)] else [])
  }

  lemma InitialArena(start: Point, maxDepth: nat, env: Env)
    ensures Arena(InitTable(start, maxDepth), 0, start, env)
  {
    var cand := InitTable(start, maxDepth);
    assert Linked(cand);
    assert Poses(cand, Root(start), 0) == [start];
    assert Tiles([start]) == {start} by {
      assert [start][0] == start;
    }
  }

  /** The closing loop of `beam_search`: each kept state gives its score, its first action and its path. */
  method CollectPlans(finalRes: seq<DpState>, maxDepth: nat, cand: Table) returns (res: seq<Plan>)
    requires Linked(cand) && maxDepth < |cand|
    requires forall i :: 0 <= i < |finalRes| ==> finalRes[i] in cand[maxDepth]
    ensures |res| == |finalRes|
    ensures forall i :: 0 <= i < |res| ==>
              res[i] == Plan(finalRes[i].score, finalRes[i].act, PathOf(cand, maxDepth, finalRes[i]))
  {
    res := [];
    for k := 0 to |finalRes|
      invariant |res| == k
      invariant forall i :: 0 <= i < k ==>
                  res[i] == Plan(finalRes[i].score, finalRes[i].act, PathOf(cand, maxDepth, finalRes[i]))
    {
      var top := finalRes[k];
      LinksMember(cand, maxDepth, top);
      var v := GetPoses(top, maxDepth, cand);
      res := res + [Plan(top.score, top.act, v)];
    }
  }

  /**
   * `beam_search` with the reduced layer stored back into the arena before
   * its successors point into it: at most `WIDTH` plans, best score first,
   * with pairwise different paths of `maxDepth + 1` positions that start at
   * `start` and walk along neighbours; the tiles each plan counted as
   * visited (`finals[i].used`) are exactly the tiles of its path.
   */
  method BeamSearch(start: Point, maxDepth: nat, env: Env, weigh: (real, nat, seq<nat>) -> real)
    returns (res: seq<Plan>, ghost finals: seq<DpState>)
    ensures |res| <= WIDTH && |finals| == |res|
    ensures forall i, j :: 0 <= i < j < |res| ==> res[i].score >= res[j].score && res[i].path != res[j].path
    ensures forall i :: 0 <= i < |res| ==>
              |res[i].path| == maxDepth + 1 && res[i].path[0] == start && Walk(res[i].path, env)
    ensures forall i :: 0 <= i < |res| ==>
              res[i].score == finals[i].score && res[i].act == finals[i].act && finals[i].used == Tiles(res[i].path)
  {
    var cand := InitTable(start, maxDepth);
    InitialArena(start, maxDepth, env);
    for t := 0 to maxDepth
      invariant |cand| == maxDepth + 1 && Arena(cand, t, start, env)
    {
      var layer := SortDesc(cand[t], StateScore);
      SortMembers(cand[t], StateScore);
      ReplaceLayer(cand, t, layer, start, env);
      cand := cand[t := layer];
      var bef := ReduceCand(cand, t, weigh);
      ReplaceLayer(cand, t, bef, start, env);
      cand := cand[t := bef];
      var next := Expand(cand, bef, t, maxDepth, env);
      ExpandArena(cand, bef, t, maxDepth, start, env);
      cand := next;
    }
    var finalRes := ReduceCand(cand, maxDepth, weigh);
    res := CollectPlans(finalRes, maxDepth, cand);
    finals := finalRes;
    forall i | 0 <= i < |res|
      ensures |res[i].path| == maxDepth + 1 && res[i].path[0] == start && Walk(res[i].path, env)
      ensures finals[i].used == Tiles(res[i].path)
    {
      var j :| 0 <= j < |cand[maxDepth]| && cand[maxDepth][j] == finalRes[i];
      PosesShape(cand, finalRes[i], maxDepth);
    }
  }

  /**
   * `beam_search` as written: the successors of the reduced layer record
   * their index in the reduced list `bef`, but the arena keeps the unreduced
   * layer, so a path is rebuilt through whatever state sits at that index.
   * The shape of the result is unaffected.
   */
  method BeamSearchAsWritten(start: Point, maxDepth: nat, env: Env, weigh: (real, nat, seq<nat>) -> real)
    returns (res: seq<Plan>)
    ensures |res| <= WIDTH
    ensures forall i, j :: 0 <= i < j < |res| ==> res[i].score >= res[j].score && res[i].path != res[j].path
    ensures forall i :: 0 <= i < |res| ==> |res[i].path| == maxDepth + 1
  {
    var cand := InitTable(start, maxDepth);
    assert Linked(cand);
    for t := 0 to maxDepth
      invariant |cand| == maxDepth + 1 && Linked(cand)
    {
      var layer := SortDesc(cand[t], StateScore);
      SortMembers(cand[t], StateScore);
      SortLayerLinked(cand, t, layer);
      cand := cand[t := layer];
      var bef := ReduceCand(cand, t, weigh);
      var next := Expand(cand, bef, t, maxDepth, env);
      ExpandLinked(cand, bef, t, maxDepth, env);
      cand := next;
    }
    var finalRes := ReduceCand(cand, maxDepth, weigh);
    res := CollectPlans(finalRes, maxDepth, cand);
    forall i | 0 <= i < |res|
      ensures |res[i].path| == maxDepth + 1
    {
      LinksMember(cand, maxDepth, finalRes[i]);
      PosesShape(cand, finalRes[i], maxDepth);
    }
  }

  // ---------------------------------------------------------------------------
  // A stale back-pointer: the search of depth 3 on a 2×2 board

  /** The 2×2 board: the agent starts at (0, 0), (1, 0) is free, the bottom row holds two opponent walls. */
  const Start := Point(0, 0)
  const East := Point(1, 0)
  const WallA := Point(0, 1)
  const WallB := Point(1, 1)

  /** `make_neighbors` on the board: the other three tiles. */
  function CornerNeighbors(p: Point): seq<Point>
  {
    if p == Start then [East, WallA, WallB]
    else if p == East then [Start, WallA, WallB]
    else if p == WallA then [Start, East, WallB]
    else if p == WallB then [Start, East, WallA]
    else []
  }

  /** The tiles holding an opponent wall. */
  predicate CornerWall(p: Point)
  {
    p == WallA || p == WallB
  }

  /** `base::point` on the board: 1 for a move onto a free tile, 2 for the removal of a wall. */
  function CornerPoint(a: Act): Option<int>
  {
    if a == MoveAct(Start) || a == MoveAct(East) then Some(1)
    else if a == RemoveAct(WallA) || a == RemoveAct(WallB) then Some(2)
    else None
  }

  function Corner(): Env
  {
    Env(CornerNeighbors, CornerWall, CornerPoint)
  }

  /** Turn 0: the move east scores 1; a removal lands on layer 2 and scores 2 × (1 + PER). */
  const Moved := From(Root(Start), East, MoveAct(East), 1.0, 0, 0)
  const RemovedA := From(Root(Start), Start, RemoveAct(WallA), 3.4, 0, 0)
  const RemovedB := From(Root(Start), Start, RemoveAct(WallB), 3.4, 0, 0)
  /** Turn 1, from the east: the way back scores 0 (the start was visited); a removal lands on layer 3 and scores 2 × (1 + PER) × PER. */
  const Back := From(Moved, Start, MoveAct(Start), 0.0, 1, 0)
  const MovedA := From(Moved, East, RemoveAct(WallA), 2.38, 1, 0)
  const MovedB := From(Moved, East, RemoveAct(WallB), 2.38, 1, 0)
  /** Turn 2, from the way back (entry 1 of the reduced layer): removing a wall on the last turn scores 2 × PER². */
  const Stale := From(Back, Start, RemoveAct(WallA), 0.98, 2, 1)

  /** Layer `t` sorted in place, as the search does before reducing it. */
  function SortLayer(cand: Table, t: nat): Table
    requires t < |cand|
  {
    cand[t := SortDesc(cand[t], StateScore)]
  }

  /** The arena when turn 0, turn 1 and turn 2 reduce their layer, given what the earlier turns kept. */
  function Turn0(): Table
  {
    SortLayer(InitTable(Start, 3), 0)
  }

  function Turn1(bef0: seq<DpState>): Table
  {
    SortLayer(Expanded(Turn0(), bef0, 0, 3, Corner()), 1)
  }

  function Turn2(bef0: seq<DpState>, bef1: seq<DpState>): Table
  {
    SortLayer(Expanded(Turn1(bef0), bef1, 1, 3, Corner()), 2)
  }

  /** The arenas those turns reach. */
  function CornerAt1(): Table
  {
    [[Root(Start)], [Moved], [RemovedA, RemovedB], []]
  }

  function CornerAt2(): Table
  {
    [[Root(Start)], [Moved], [RemovedA, RemovedB, Back], [MovedA, MovedB]]
  }

  /** A layer holding one state is reduced to exactly that state. */
  lemma ReducesSingle(table: Table, t: nat, bef: seq<DpState>)
    requires t < |table| && |table[t]| == 1 && Reduces(table, t, bef)
    ensures bef == table[t]
  {
    assert PathOf(table, t, table[t][0]) in PathsOf(table, t, table[t]);
    assert |bef| == 1 && bef[0] in table[t];
  }

  /** A state lands on its layer. */
  lemma LandingHas(xs: seq<(DpState, nat)>, k: nat)
    requires k < |xs|
    ensures xs[k].0 in Landing(xs, xs[k].1)
    decreases |xs|
  {
    if k < |xs| - 1 {
      LandingHas(xs[..|xs| - 1], k);
    }
  }

  lemma SortSingle(x: DpState)
    ensures SortDesc([x], StateScore) == [x]
  {
    assert [x][1..] == [];
  }

  /** The successors of the start: the move east, then the two removals. */
  lemma StartChildren()
    ensures Children(Root(Start), 0, CornerNeighbors(Start), 0, 3, Corner()) ==
            [(Moved, 1), (RemovedA, 2), (RemovedB, 2)]
  {
    var env := Corner();
    var n3 := [East, WallA, WallB];
    var n2 := [East, WallA];
    var n1 := [East];
    assert CornerNeighbors(Start) == n3;
    assert n3[..2] == n2 && n2[..1] == n1 && |n1[..0]| == 0;
    assert Successor(Root(Start), East, 0, 0, 3, env) == Some((Moved, 1));
    assert Successor(Root(Start), WallA, 0, 0, 3, env) == Some((RemovedA, 2));
    assert Successor(Root(Start), WallB, 0, 0, 3, env) == Some((RemovedB, 2));
    assert Children(Root(Start), 0, n1[..0], 0, 3, env) == [];
    assert Children(Root(Start), 0, n1, 0, 3, env) == [(Moved, 1)];
    assert Children(Root(Start), 0, n2, 0, 3, env) == [(Moved, 1), (RemovedA, 2)];
  }

  /** The successors of the move east: the way back, then two removals. */
  lemma MovedChildren()
    ensures Children(Moved, 0, CornerNeighbors(East), 1, 3, Corner()) ==
            [(Back, 2), (MovedA, 3), (MovedB, 3)]
  {
    var env := Corner();
    var n3 := [Start, WallA, WallB];
    var n2 := [Start, WallA];
    var n1 := [Start];
    assert CornerNeighbors(East) == n3;
    assert n3[..2] == n2 && n2[..1] == n1 && |n1[..0]| == 0;
    assert Pow(PER, 1) == 0.7;
    assert Successor(Moved, Start, 1, 0, 3, env) == Some((Back, 2));
    assert Successor(Moved, WallA, 1, 0, 3, env) == Some((MovedA, 3));
    assert Successor(Moved, WallB, 1, 0, 3, env) == Some((MovedB, 3));
    assert Children(Moved, 0, n1[..0], 1, 3, env) == [];
    assert Children(Moved, 0, n1, 1, 3, env) == [(Back, 2)];
    assert Children(Moved, 0, n2, 1, 3, env) == [(Back, 2), (MovedA, 3)];
  }

  /** The states of three pushes that land on each layer. */
  lemma LandingThree(a: (DpState, nat), b: (DpState, nat), c: (DpState, nat), u: nat)
    ensures Landing([a, b, c], u) ==
            (if a.1 == u then [a.0] else []) + (if b.1 == u then [b.0] else []) + (if c.1 == u then [c.0] else [])
  {
    var x3: seq<(DpState, nat)> := [a, b, c];
    var x2: seq<(DpState, nat)> := [a, b];
    var x1: seq<(DpState, nat)> := [a];
    assert x3[..2] == x2 && x2[..1] == x1 && |x1[..0]| == 0;
    assert Landing(x1[..0], u) == [];
    assert Landing(x1, u) == (if a.1 == u then [a.0] else []);
    assert Landing(x2, u) == (if a.1 == u then [a.0] else []) + (if b.1 == u then [b.0] else []);
  }

  /** What turn 0 pushes: the successors of the start. */
  lemma StartOffspring()
    ensures Offspring([Root(Start)], 1, 0, 3, Corner()) == [(Moved, 1), (RemovedA, 2), (RemovedB, 2)]
  {
    StartChildren();
  }

  /** The layers after turn 0 pushed the successors of the start. */
  lemma StartLayers()
    ensures var e := Expanded(InitTable(Start, 3), [Root(Start)], 0, 3, Corner());
            |e| == 4 && e[0] == [Root(Start)] && e[1] == [Moved] && e[2] == [RemovedA, RemovedB] && e[3] == []
  {
    var bef: seq<DpState> := [Root(Start)];
    var off: seq<(DpState, nat)> := [(Moved, 1), (RemovedA, 2), (RemovedB, 2)];
    StartOffspring();
    LandingThree((Moved, 1), (RemovedA, 2), (RemovedB, 2), 0);
    LandingThree((Moved, 1), (RemovedA, 2), (RemovedB, 2), 1);
    LandingThree((Moved, 1), (RemovedA, 2), (RemovedB, 2), 2);
    LandingThree((Moved, 1), (RemovedA, 2), (RemovedB, 2), 3);
    var c := InitTable(Start, 3);
    assert c[1] == [] && c[2] == [] && c[3] == [];
    var e := Expanded(c, bef, 0, 3, Corner());
    assert e[0] == c[0] + Landing(off, 0);
    assert e[1] == c[1] + Landing(off, 1);
    assert e[2] == c[2] + Landing(off, 2);
    assert e[3] == c[3] + Landing(off, 3);
  }

  /** Turn 0 pushes the move east onto layer 1 and the two removals onto layer 2. */
  lemma StartExpanded()
    ensures Expanded(InitTable(Start, 3), [Root(Start)], 0, 3, Corner()) == CornerAt1()
  {
    StartLayers();
  }

  /** What turn 1 pushes: the successors of the move east. */
  lemma MovedOffspring()
    ensures Offspring([Moved], 1, 1, 3, Corner()) == [(Back, 2), (MovedA, 3), (MovedB, 3)]
  {
    MovedChildren();
  }

  /** The layers after turn 1 pushed the successors of the move east. */
  lemma MovedLayers()
    ensures var e := Expanded(CornerAt1(), [Moved], 1, 3, Corner());
            |e| == 4 && e[0] == [Root(Start)] && e[1] == [Moved] && e[2] == [RemovedA, RemovedB, Back] &&
            e[3] == [MovedA, MovedB]
  {
    var bef: seq<DpState> := [Moved];
    var off: seq<(DpState, nat)> := [(Back, 2), (MovedA, 3), (MovedB, 3)];
    MovedOffspring();
    LandingThree((Back, 2), (MovedA, 3), (MovedB, 3), 0);
    LandingThree((Back, 2), (MovedA, 3), (MovedB, 3), 1);
    LandingThree((Back, 2), (MovedA, 3), (MovedB, 3), 2);
    LandingThree((Back, 2), (MovedA, 3), (MovedB, 3), 3);
    var c := CornerAt1();
    var e := Expanded(c, bef, 1, 3, Corner());
    assert e[0] == c[0] + Landing(off, 0);
    assert e[1] == c[1] + Landing(off, 1);
    assert e[2] == c[2] + Landing(off, 2);
    assert e[3] == c[3] + Landing(off, 3);
  }

  /** Turn 1 pushes the way back onto layer 2 and two removals onto layer 3. */
  lemma MovedExpanded()
    ensures Expanded(CornerAt1(), [Moved], 1, 3, Corner()) == CornerAt2()
  {
    MovedLayers();
  }

  /** Turn 0 keeps the start, and the arena turn 1 sees is `CornerAt1`. */
  lemma CornerTurn0(bef0: seq<DpState>)
    requires Reduces(Turn0(), 0, bef0)
    ensures bef0 == [Root(Start)] && Turn1(bef0) == CornerAt1()
  {
    SortSingle(Root(Start));
    assert Turn0() == InitTable(Start, 3);
    ReducesSingle(Turn0(), 0, bef0);
    StartExpanded();
    SortSingle(Moved);
  }

  /** Turn 1 keeps the move east, and the arena turn 2 sees is `CornerAt2`. */
  lemma CornerTurn1(bef0: seq<DpState>, bef1: seq<DpState>)
    requires Reduces(Turn0(), 0, bef0) && Reduces(Turn1(bef0), 1, bef1)
    ensures bef1 == [Moved] && Turn2(bef0, bef1) == CornerAt2()
  {
    CornerTurn0(bef0);
    ReducesSingle(Turn1(bef0), 1, bef1);
    MovedExpanded();
    CornerAt2Sorted();
  }

  /** Sorting layer 2 of `CornerAt2` in place changes nothing. */
  lemma CornerAt2Sorted()
    ensures SortLayer(CornerAt2(), 2) == CornerAt2()
  {
    CornerSorted();
  }

  /** Turn 2 finds its layer already in score order. */
  lemma CornerSorted()
    ensures SortDesc(CornerAt2()[2], StateScore) == CornerAt2()[2]
  {
    var layer := [RemovedA, RemovedB, Back];
    assert layer[1..] == [RemovedB, Back] && layer[1..][1..] == [Back] && layer[1..][1..][1..] == [];
    assert SortDesc([Back], StateScore) == [Back];
    assert SortDesc([RemovedB, Back], StateScore) == [RemovedB, Back];
  }

  /** The paths of layer 2: both removals stay home, the way back visits the east tile. */
  lemma CornerPaths(table: Table)
    requires |table| == 4 && table[..3] == CornerAt2()[..3] && Linked(table)
    ensures PathOf(table, 2, RemovedA) == [Start, Start, Start]
    ensures PathOf(table, 2, RemovedB) == [Start, Start, Start]
    ensures PathOf(table, 2, Back) == [Start, East, Start]
  {
    assert table[0] == CornerAt2()[..3][0] && table[1] == CornerAt2()[..3][1];
    PosesStep(table, RemovedA, 2);
    PosesStep(table, RemovedB, 2);
    PosesStep(table, Back, 2);
    PosesStep(table, Moved, 1);
  }

  /** Each state of layer 2 is a removal with score 3.4 staying home, or the way back with score 1 through the east tile. */
  lemma CornerState(x: DpState)
    requires x in CornerAt2()[2]
    ensures x == Back ==> PathOf(CornerAt2(), 2, x) == [Start, East, Start] && x.score == 1.0
    ensures x != Back ==> PathOf(CornerAt2(), 2, x) == [Start, Start, Start] && x.score == 3.4
  {
    assert Linked(CornerAt2());
    CornerPaths(CornerAt2());
  }

  /** Any reduction of layer 2 that meets the contract of `reduce_cand` keeps one removal, then the way back. */
  lemma CornerKept(bef: seq<DpState>)
    requires Reduces(CornerAt2(), 2, bef)
    ensures |bef| == 2 && bef[0] != Back && bef[1] == Back
  {
    var table := CornerAt2();
    var home := [Start, Start, Start];
    var round := [Start, East, Start];
    assert home[1] != round[1];
    CornerState(table[2][0]);
    CornerState(table[2][2]);
    assert PathOf(table, 2, table[2][2]) in PathsOf(table, 2, table[2]);
    assert PathOf(table, 2, table[2][0]) in PathsOf(table, 2, table[2]);
    var kb :| 0 <= kb < |bef| && PathOf(table, 2, bef[kb]) == round;
    var ka :| 0 <= ka < |bef| && PathOf(table, 2, bef[ka]) == home;
    assert ka != kb;
    if |bef| >= 3 {
      CornerState(bef[0]);
      CornerState(bef[1]);
      CornerState(bef[2]);
      assert false;
    }
    CornerState(bef[0]);
    CornerState(bef[1]);
    assert StateScore(bef[0]) >= StateScore(bef[1]);
  }

  /** Among the successors of the way back is the removal `Stale`, on layer 3. */
  lemma BackChild()
    ensures (Stale, 3) in Children(Back, 1, CornerNeighbors(Start), 2, 3, Corner())
  {
    var env := Corner();
    assert Pow(PER, 2) == 0.49;
    assert Successor(Back, WallA, 2, 1, 3, env) == Some((Stale, 3));
    var nbrs := [East, WallA, WallB];
    assert CornerNeighbors(Start) == nbrs;
    assert nbrs[..2] == [East, WallA] && nbrs[..2][..1] == [East];
    assert (Stale, 3) in Children(Back, 1, nbrs[..2], 2, 3, env);
  }

  /** The successor `Stale` of the way back is pushed onto layer 3 of any arena whose reduced layer 2 is `bef`. */
  lemma StalePushed(cand: Table, bef: seq<DpState>)
    requires |cand| == 4 && |bef| == 2 && bef[1] == Back
    ensures var next := Expanded(cand, bef, 2, 3, Corner());
            Stale in next[3] && forall u :: 0 <= u < 3 ==> next[u] == cand[u]
  {
    var off := Offspring(bef, 2, 2, 3, Corner());
    StaleOffspring(bef);
    var k :| 0 <= k < |off| && off[k] == (Stale, 3);
    LandingHas(off, k);
    assert forall c :: c in off ==> c.1 == 3;
  }

  /** Turn 2 pushes `Stale` when the way back is entry 1 of its reduced layer. */
  lemma StaleOffspring(bef: seq<DpState>)
    requires |bef| == 2 && bef[1] == Back
    ensures (Stale, 3) in Offspring(bef, 2, 2, 3, Corner())
  {
    BackChild();
  }

  /** As written: index 1 of the arena's layer 2 is the second removal, and `Stale`'s path misses the east tile. */
  lemma StaleAsWritten(bef: seq<DpState>)
    requires |bef| == 2 && bef[1] == Back && forall i :: 0 <= i < |bef| ==> bef[i] in CornerAt2()[2]
    ensures var next := Expanded(CornerAt2(), bef, 2, 3, Corner());
            Stale in next[3] && PathOf(next, 3, Stale) == [Start, Start, Start, Start] &&
            Tiles(PathOf(next, 3, Stale)) != Stale.used
  {
    var table := CornerAt2();
    var next := Expanded(table, bef, 2, 3, Corner());
    assert Linked(table);
    ExpandLinked(table, bef, 2, 3, Corner());
    StalePushed(table, bef);
    assert next[..3] == table[..3];
    CornerPaths(next);
    PosesStep(next, Stale, 3);
    assert next[2][1] == RemovedB;
    assert East in Stale.used;
  }

  /** Corrected: with the reduced layer stored back, `Stale`'s path goes through the way back and has exactly its tiles. */
  lemma StaleCorrected(bef: seq<DpState>)
    requires |bef| == 2 && bef[1] == Back && forall i :: 0 <= i < |bef| ==> bef[i] in CornerAt2()[2]
    ensures var next := Expanded(CornerAt2()[2 := bef], bef, 2, 3, Corner());
            Stale in next[3] && PathOf(next, 3, Stale) == [Start, East, Start, Start] &&
            Tiles(PathOf(next, 3, Stale)) == Stale.used
  {
    var table := CornerAt2()[2 := bef];
    var next := Expanded(table, bef, 2, 3, Corner());
    CorrectedLinked(bef);
    ExpandLinked(table, bef, 2, 3, Corner());
    StalePushed(table, bef);
    StaleThroughBack(next);
    RoundTiles();
  }

  /** In an arena whose entry 1 of layer 2 is the way back, `Stale`'s path goes through the east tile. */
  lemma StaleThroughBack(next: Table)
    requires Linked(next) && |next| == 4 && next[0] == [Root(Start)] && next[1] == [Moved]
    requires |next[2]| >= 2 && next[2][1] == Back
    ensures PathOf(next, 3, Stale) == [Start, East, Start, Start]
  {
    PosesStep(next, Stale, 3);
    PosesStep(next, Back, 2);
    PosesStep(next, Moved, 1);
  }

  /** Storing a reduction of layer 2 back keeps every back-pointer usable. */
  lemma CorrectedLinked(bef: seq<DpState>)
    requires |bef| == 2 && bef[1] == Back && forall i :: 0 <= i < |bef| ==> bef[i] in CornerAt2()[2]
    ensures Linked(CornerAt2()[2 := bef])
  {
    assert bef[0] in CornerAt2()[2];
  }

  /** The corrected path visits exactly the tiles `Stale` counted. */
  lemma RoundTiles()
    ensures Tiles([Start, East, Start, Start]) == Stale.used
  {
    var path := [Start, East, Start, Start];
    assert Stale.used == {Start, East};
    assert path[0] == Start && path[1] == East;
  }

  /**
   * The search of depth 3 from `Start` on the 2×2 board, with whatever
   * `reduce_cand` keeps on each turn (anything its contract allows). Turns
   * 0 and 1 keep their single state, so both searches agree up to turn 2,
   * whose layer is already in score order. Turn 2 keeps one removal and
   * then the way back, so the way back's successor `Stale` records index 1.
   * As written, the arena's layer 2 still holds the second removal at
   * index 1: `Stale`'s path is rebuilt as the start four times, which
   * misses the east tile it counted as visited. With the reduced layer
   * stored back, the path is start, east, start, start, whose tiles are
   * exactly the visited ones.
   */
  lemma StaleBackPointer(bef0: seq<DpState>, bef1: seq<DpState>, bef2: seq<DpState>)
    requires Reduces(Turn0(), 0, bef0)
    requires Reduces(Turn1(bef0), 1, bef1)
    requires Reduces(Turn2(bef0, bef1), 2, bef2)
    ensures bef0 == Turn0()[0] && bef1 == Turn1(bef0)[1] && Turn2(bef0, bef1) == CornerAt2()
    ensures |bef2| == 2 && bef2[1] == Back && CornerAt2()[2][1] == RemovedB
    ensures var asWritten := Expanded(CornerAt2(), bef2, 2, 3, Corner());
            Stale in asWritten[3] && Tiles(PathOf(asWritten, 3, Stale)) != Stale.used
    ensures var corrected := Expanded(CornerAt2()[2 := bef2], bef2, 2, 3, Corner());
            Stale in corrected[3] && Tiles(PathOf(corrected, 3, Stale)) == Stale.used
  {
    CornerTurn0(bef0);
    CornerTurn1(bef0, bef1);
    CornerSorted();
    assert Turn2(bef0, bef1) == CornerAt2();
    CornerKept(bef2);
    StaleAsWritten(bef2);
    StaleCorrected(bef2);
  }
}
