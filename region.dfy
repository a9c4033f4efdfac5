/**
 * Enclosed regions (`Field::calc_region`, src/field.rs). For one side, the
 * cells that are not that side's walls split into 4-connected components; a
 * component that touches the border of the board is open to the outside.
 * Every cell is labelled with the size of its component, or with
 * `width * height` when the cell is a wall of the side or its component
 * touches the border.
 */
module Region {
  import opened Board

  /** A cell the flood fill may enter: on the board and not a wall of `side`. */
  predicate Open(g: Grid, side: bool, p: PointUsize)
    requires |g| > 0
  {
    InGrid(g, p) && p.x < |g| && p.y < |g[p.x]| && g[p.x][p.y].state != Wall(side)
  }

  /** The 4-neighbourhood. */
  predicate Adjacent(p: PointUsize, q: PointUsize)
  {
    (p.x == q.x && (p.y == q.y + 1 || q.y == p.y + 1)) ||
    (p.y == q.y && (p.x == q.x + 1 || q.x == p.x + 1))
  }

  /** `b` is reached from `a` by at most `n` steps between adjacent open cells. */
  ghost predicate ReachIn(g: Grid, side: bool, a: PointUsize, b: PointUsize, n: nat)
    requires |g| > 0
    decreases n
  {
    Open(g, side, b) &&
    (a == b || (n > 0 && exists c :: Adjacent(c, b) && ReachIn(g, side, a, c, n - 1)))
  }

  ghost predicate Reach(g: Grid, side: bool, a: PointUsize, b: PointUsize)
    requires |g| > 0
  {
    exists n: nat :: ReachIn(g, side, a, b, n)
  }

  /** The 4-connected component of open cells that holds `a`. */
  ghost function Component(g: Grid, side: bool, a: PointUsize): set<PointUsize>
    requires |g| > 0
  {
    set p | p in Cells(g) && Reach(g, side, a, p)
  }

  /** A cell on the outermost ring of the board: one of its four neighbours is off the board. */
  predicate OnBorder(g: Grid, p: PointUsize)
    requires |g| > 0
  {
    p.x == 0 || p.y == 0 || p.x + 1 == |g| || p.y + 1 == |g[0]|
  }

  ghost predicate TouchesBorder(g: Grid, c: set<PointUsize>)
    requires |g| > 0
  {
    exists p :: p in c && OnBorder(g, p)
  }

  /** The marker `width * height` (`unk` in the source): unlabelled, or open to the outside. */
  function Unk(g: Grid): nat
    requires |g| > 0
  {
    |g| * |g[0]|
  }

  /** The value a component gives its cells. */
  ghost function SizeValue(g: Grid, c: set<PointUsize>): nat
    requires |g| > 0
  {
    if TouchesBorder(g, c) then Unk(g) else |c|
  }

  /** The value `calc_region(side)` gives cell `p`. */
  ghost function RegionValue(g: Grid, side: bool, p: PointUsize): nat
    requires |g| > 0
  {
    if !Open(g, side, p) then Unk(g) else SizeValue(g, Component(g, side, p))
  }

  ghost predicate Closed(g: Grid, side: bool, s: set<PointUsize>, l: set<PointUsize>)
    requires |g| > 0
  {
    forall p, q :: p in s && Adjacent(p, q) && Open(g, side, q) ==> q in l
  }

  // ---------------------------------------------------------------------------
  // Reachability

  lemma ReachRefl(g: Grid, side: bool, a: PointUsize)
    requires |g| > 0 && Open(g, side, a)
    ensures Reach(g, side, a, a)
  {
    assert ReachIn(g, side, a, a, 0);
  }

  lemma ReachExtend(g: Grid, side: bool, a: PointUsize, b: PointUsize, c: PointUsize)
    requires |g| > 0 && Reach(g, side, a, b) && Adjacent(b, c) && Open(g, side, c)
    ensures Reach(g, side, a, c)
  {
    var n: nat :| ReachIn(g, side, a, b, n);
    assert ReachIn(g, side, a, c, n + 1);
  }

  lemma {:induction false} ReachInMono(g: Grid, side: bool, a: PointUsize, b: PointUsize, n: nat, m: nat)
    requires |g| > 0 && ReachIn(g, side, a, b, n) && n <= m
    ensures ReachIn(g, side, a, b, m)
    decreases n
  {
    if a != b {
      var c :| Adjacent(c, b) && ReachIn(g, side, a, c, n - 1);
      ReachInMono(g, side, a, c, n - 1, m - 1);
    }
  }

  lemma {:induction false} ReachInTrans(g: Grid, side: bool, a: PointUsize, b: PointUsize, c: PointUsize, n: nat, m: nat)
    requires |g| > 0 && ReachIn(g, side, a, b, n) && ReachIn(g, side, b, c, m)
    ensures ReachIn(g, side, a, c, n + m)
    decreases m
  {
    if b == c {
      ReachInMono(g, side, a, b, n, n + m);
    } else {
      var d :| Adjacent(d, c) && ReachIn(g, side, b, d, m - 1);
      ReachInTrans(g, side, a, b, d, n, m - 1);
    }
  }

  lemma {:induction false} ReachInSym(g: Grid, side: bool, a: PointUsize, b: PointUsize, n: nat)
    requires |g| > 0 && ReachIn(g, side, a, b, n)
    ensures ReachIn(g, side, b, a, n)
    decreases n
  {
    if a != b {
      var c :| Adjacent(c, b) && ReachIn(g, side, a, c, n - 1);
      ReachInSym(g, side, a, c, n - 1);
      assert Open(g, side, c) && Adjacent(b, c) && ReachIn(g, side, b, b, 1 - 1);
      assert ReachIn(g, side, b, c, 1);
      ReachInTrans(g, side, b, c, a, 1, n - 1);
    }
  }

  /** Reachability is symmetric. */
  lemma ReachSym(g: Grid, side: bool, a: PointUsize, b: PointUsize)
    requires |g| > 0 && Reach(g, side, a, b)
    ensures Reach(g, side, b, a)
  {
    var n: nat :| ReachIn(g, side, a, b, n);
    ReachInSym(g, side, a, b, n);
  }

  /** Reachability is transitive. */
  lemma ReachTrans(g: Grid, side: bool, a: PointUsize, b: PointUsize, c: PointUsize)
    requires |g| > 0 && Reach(g, side, a, b) && Reach(g, side, b, c)
    ensures Reach(g, side, a, c)
  {
    var n: nat :| ReachIn(g, side, a, b, n);
    var m: nat :| ReachIn(g, side, b, c, m);
    ReachInTrans(g, side, a, b, c, n, m);
  }

  /** A set closed under stepping to adjacent open cells holds everything reachable from its members. */
  lemma {:induction false} ClosedHoldsReachIn(g: Grid, side: bool, l: set<PointUsize>, a: PointUsize, b: PointUsize, n: nat)
    requires |g| > 0 && a in l && Closed(g, side, l, l) && ReachIn(g, side, a, b, n)
    ensures b in l
    decreases n
  {
    if a != b {
      var c :| Adjacent(c, b) && ReachIn(g, side, a, c, n - 1);
      ClosedHoldsReachIn(g, side, l, a, c, n - 1);
    }
  }

  lemma ClosedHoldsComponent(g: Grid, side: bool, l: set<PointUsize>, a: PointUsize)
    requires |g| > 0 && a in l && Closed(g, side, l, l)
    ensures Component(g, side, a) <= l
  {
    forall b | b in Component(g, side, a)
      ensures b in l
    {
      var n: nat :| ReachIn(g, side, a, b, n);
      ClosedHoldsReachIn(g, side, l, a, b, n);
    }
  }

  /** Components consist of open cells and are closed. */
  lemma ComponentClosed(g: Grid, side: bool, a: PointUsize)
    requires |g| > 0
    ensures forall p :: p in Component(g, side, a) ==> Open(g, side, p)
    ensures Closed(g, side, Component(g, side, a), Component(g, side, a))
  {
    forall p | p in Component(g, side, a)
      ensures Open(g, side, p)
    {
      var n: nat :| ReachIn(g, side, a, p, n);
    }
    forall p, q | p in Component(g, side, a) && Adjacent(p, q) && Open(g, side, q)
      ensures q in Component(g, side, a)
    {
      ReachExtend(g, side, a, p, q);
      assert q in Cells(g);
    }
  }

  /** Every member of a component has that component as its own. */
  lemma ComponentOfMember(g: Grid, side: bool, a: PointUsize, p: PointUsize)
    requires |g| > 0 && p in Component(g, side, a)
    ensures Component(g, side, p) == Component(g, side, a)
  {
    ReachSym(g, side, a, p);
    forall q | q in Component(g, side, a)
      ensures q in Component(g, side, p)
    {
      ReachTrans(g, side, p, a, q);
    }
    forall q | q in Component(g, side, p)
      ensures q in Component(g, side, a)
    {
      ReachTrans(g, side, a, p, q);
    }
  }

  // ---------------------------------------------------------------------------
  // Region values depend on the walls only

  lemma OpenSameWalls(g: Grid, h: Grid, side: bool, p: PointUsize)
    requires SameWalls(g, h)
    ensures Open(g, side, p) <==> Open(h, side, p)
  {
    if InGrid(g, p) {
      assert g[p.x][p.y].state.IsWall() || h[p.x][p.y].state.IsWall() ==> g[p.x][p.y].state == h[p.x][p.y].state;
    }
  }

  lemma {:induction false} ReachInSameWalls(g: Grid, h: Grid, side: bool, a: PointUsize, b: PointUsize, n: nat)
    requires SameWalls(g, h) && ReachIn(g, side, a, b, n)
    ensures ReachIn(h, side, a, b, n)
    decreases n
  {
    OpenSameWalls(g, h, side, b);
    if a != b {
      var c :| Adjacent(c, b) && ReachIn(g, side, a, c, n - 1);
      ReachInSameWalls(g, h, side, a, c, n - 1);
    }
  }

  /** Two boards with the same walls have the same components. */
  lemma ComponentSameWalls(g: Grid, h: Grid, side: bool, a: PointUsize)
    requires SameWalls(g, h)
    ensures Component(g, side, a) == Component(h, side, a)
  {
    forall p | p in Component(g, side, a)
      ensures p in Component(h, side, a)
    {
      var n: nat :| ReachIn(g, side, a, p, n);
      ReachInSameWalls(g, h, side, a, p, n);
    }
    forall p | p in Component(h, side, a)
      ensures p in Component(g, side, a)
    {
      var n: nat :| ReachIn(h, side, a, p, n);
      ReachInSameWalls(h, g, side, a, p, n);
    }
  }

  /** The value `calc_region` gives a cell depends only on where the walls are. */
  lemma RegionValueSameWalls(g: Grid, h: Grid, side: bool, p: PointUsize)
    requires SameWalls(g, h)
    ensures RegionValue(g, side, p) == RegionValue(h, side, p)
  {
    OpenSameWalls(g, h, side, p);
    ComponentSameWalls(g, h, side, p);
  }

  /** Cells of one component get the same value. */
  lemma SameComponentSameValue(g: Grid, side: bool, p: PointUsize, q: PointUsize)
    requires |g| > 0 && Open(g, side, p) && q in Component(g, side, p)
    ensures RegionValue(g, side, q) == RegionValue(g, side, p)
  {
    ComponentClosed(g, side, p);
    ComponentOfMember(g, side, p, q);
  }

  // ---------------------------------------------------------------------------
  // The flood fill

  /** The four directions in the order the source tries them: (0,1), (0,-1), (1,0), (-1,0). */
  const DIFFS: seq<Point> := [Point(0, 1), Point(0, -1), Point(1, 0), Point(-1, 0)]

  /** The direction, as an index into DIFFS, in which `q` lies from `p`. */
  function DirOf(p: PointUsize, q: PointUsize): nat
  {
    if q.x == p.x && q.y == p.y + 1 then 0
    else if q.x == p.x && q.y + 1 == p.y then 1
    else if q.x == p.x + 1 then 2
    else 3
  }

  /** The neighbour of `p` in direction `d` is off the board. */
  predicate OutwardAt(g: Grid, p: PointUsize, d: nat)
    requires |g| > 0
  {
    (d == 0 && p.y + 1 == |g[0]|) || (d == 1 && p.y == 0) ||
    (d == 2 && p.x + 1 == |g|) || (d == 3 && p.x == 0)
  }

  /** Some direction below `d` leads off the board. */
  predicate OutwardBelow(g: Grid, p: PointUsize, d: nat)
    requires |g| > 0
  {
    (d > 0 && OutwardAt(g, p, 0)) || (d > 1 && OutwardAt(g, p, 1)) ||
    (d > 2 && OutwardAt(g, p, 2)) || (d > 3 && OutwardAt(g, p, 3))
  }

  ghost predicate IsMatrix(m: seq<seq<int>>, w: nat, h: nat)
  {
    |m| == w && forall x :: 0 <= x < w ==> |m[x]| == h
  }

  /**
   * The labels `elm` of the components found so far: `comps[k]` is the
   * component of `seeds[k]`, its cells carry label `k`, and every other cell
   * carries `Unk`.
   */
  ghost predicate Labelled(g: Grid, side: bool, elm: seq<seq<int>>, cnt: nat,
                           comps: seq<set<PointUsize>>, seeds: seq<PointUsize>)
  {
    Shaped(g) && IsMatrix(elm, |g|, |g[0]|) && |comps| == cnt && |seeds| == cnt && cnt < Unk(g) + 1 &&
    (forall x, y :: 0 <= x < |g| && 0 <= y < |g[0]| ==>
       elm[x][y] == Unk(g) || (0 <= elm[x][y] < cnt && PointUsize(x, y) in comps[elm[x][y]])) &&
    (forall k, p :: 0 <= k < cnt && p in comps[k] ==> InGrid(g, p) && elm[p.x][p.y] == k) &&
    (forall k :: 0 <= k < cnt ==> comps[k] == Component(g, side, seeds[k]))
  }

  /**
   * The state of one breadth-first search from `start` with label `cnt`:
   * `comp` holds the labelled cells, each reachable from `start` and
   * unlabelled before; it is split into the cells already taken off the queue
   * (`popped`) and the queue itself, which has no repeats.
   */
  ghost predicate Frontier(g: Grid, side: bool, elm0: seq<seq<int>>, start: PointUsize, cnt: nat,
                           elm: seq<seq<int>>, comp: set<PointUsize>, popped: set<PointUsize>, que: seq<PointUsize>)
  {
    Shaped(g) && IsMatrix(elm0, |g|, |g[0]|) && IsMatrix(elm, |g|, |g[0]|) &&
    start in comp &&
    (forall p :: p in comp ==>
       InGrid(g, p) && Open(g, side, p) && Reach(g, side, start, p) && elm0[p.x][p.y] == Unk(g)) &&
    (forall x, y :: 0 <= x < |g| && 0 <= y < |g[0]| ==>
       elm[x][y] == if PointUsize(x, y) in comp then cnt else elm0[x][y]) &&
    (forall p :: p in comp <==> p in popped || p in que) &&
    (forall i :: 0 <= i < |que| ==> que[i] !in popped) &&
    (forall i, j :: 0 <= i < j < |que| ==> que[i] != que[j])
  }

  lemma ComponentsClosed(g: Grid, side: bool, comps: seq<set<PointUsize>>, seeds: seq<PointUsize>)
    requires |g| > 0 && |comps| == |seeds|
    requires forall k :: 0 <= k < |comps| ==> comps[k] == Component(g, side, seeds[k])
    ensures forall k, p, q :: 0 <= k < |comps| && p in comps[k] && Adjacent(p, q) && Open(g, side, q) ==> q in comps[k]
  {
    forall k, p, q | 0 <= k < |comps| && p in comps[k] && Adjacent(p, q) && Open(g, side, q)
      ensures q in comps[k]
    {
      ComponentClosed(g, side, seeds[k]);
    }
  }

  /** The neighbour of `top` that the source computes for direction `d`. */
  lemma DirectionStep(g: Grid, top: PointUsize, d: nat)
    requires Shaped(g) && InGrid(g, top) && d < 4
    ensures -128 <= top.x + DIFFS[d].x < 128 && -128 <= top.y + DIFFS[d].y < 128
    ensures top.Normal() == Point(top.x, top.y)
    ensures var np := top.Normal().Add(DIFFS[d]);
      (Inside(g, np) <==> !OutwardAt(g, top, d)) &&
      (Inside(g, np) ==> Adjacent(top, np.Usize()) && DirOf(top, np.Usize()) == d && InGrid(g, np.Usize())) &&
      (forall q :: Adjacent(top, q) && DirOf(top, q) == d && InGrid(g, q) ==> Inside(g, np) && q == np.Usize())
  {
  }

  /** Queueing an unlabelled open cell reachable from the start keeps the search state. */
  lemma FrontierPush(g: Grid, side: bool, elm0: seq<seq<int>>, start: PointUsize, cnt: nat,
                     elm: seq<seq<int>>, comp: set<PointUsize>, popped: set<PointUsize>,
                     que: seq<PointUsize>, nex: PointUsize)
    requires Frontier(g, side, elm0, start, cnt, elm, comp, popped, que) && cnt < Unk(g)
    requires InGrid(g, nex) && Open(g, side, nex) && Reach(g, side, start, nex) && elm[nex.x][nex.y] == Unk(g)
    ensures Frontier(g, side, elm0, start, cnt, elm[nex.x := elm[nex.x][nex.y := cnt]],
                     comp + {nex}, popped, que + [nex])
  {
    var elm' := elm[nex.x := elm[nex.x][nex.y := cnt]];
    assert nex !in comp;
    forall x, y | 0 <= x < |g| && 0 <= y < |g[0]|
      ensures elm'[x][y] == if PointUsize(x, y) in comp + {nex} then cnt else elm0[x][y]
    {
    }
  }

  /**
   * An open cell next to the search that already carries a label carries the
   * search's own label: the earlier components are closed, so none of them
   * borders the new one.
   */
  lemma LabelledNeighbourInSearch(g: Grid, side: bool, elm0: seq<seq<int>>, start: PointUsize, cnt: nat,
                                  comps: seq<set<PointUsize>>, seeds: seq<PointUsize>,
                                  elm: seq<seq<int>>, comp: set<PointUsize>, popped: set<PointUsize>,
                                  que: seq<PointUsize>, top: PointUsize, nex: PointUsize)
    requires Labelled(g, side, elm0, cnt, comps, seeds) && cnt < Unk(g)
    requires forall k, p, q :: 0 <= k < |comps| && p in comps[k] && Adjacent(p, q) && Open(g, side, q) ==> q in comps[k]
    requires Frontier(g, side, elm0, start, cnt, elm, comp, popped, que)
    requires top in comp && Adjacent(nex, top) && InGrid(g, nex) && Open(g, side, nex)
    requires elm[nex.x][nex.y] != Unk(g)
    ensures nex in comp
  {
    assert Open(g, side, top) && elm0[top.x][top.y] == Unk(g);
  }

  /**
   * One turn of the inner `for diff in ...` loop of the search: look at the
   * neighbour of `top` in direction `d`; if it is on the board, open and
   * unlabelled, label it and queue it.
   */
  method Visit(g: Grid, side: bool, elm0: seq<seq<int>>, start: PointUsize, cnt: nat,
               ghost comps: seq<set<PointUsize>>, ghost seeds: seq<PointUsize>,
               elm: seq<seq<int>>, ghost comp: set<PointUsize>, ghost popped: set<PointUsize>,
               que: seq<PointUsize>, top: PointUsize, d: nat)
    returns (elm': seq<seq<int>>, que': seq<PointUsize>, ghost comp': set<PointUsize>, outside: bool)
    requires Labelled(g, side, elm0, cnt, comps, seeds) && cnt < Unk(g)
    requires forall k, p, q :: 0 <= k < |comps| && p in comps[k] && Adjacent(p, q) && Open(g, side, q) ==> q in comps[k]
    requires Frontier(g, side, elm0, start, cnt, elm, comp, popped, que)
    requires top in popped && d < 4
    ensures Frontier(g, side, elm0, start, cnt, elm', comp', popped, que')
    ensures comp <= comp'
    ensures outside <==> OutwardAt(g, top, d)
    ensures forall q :: Adjacent(top, q) && DirOf(top, q) == d && Open(g, side, q) ==> q in comp'
  {
    elm', que', comp', outside := elm, que, comp, false;
    DirectionStep(g, top, d);
    var np := top.Normal().Add(DIFFS[d]);
    if !Inside(g, np) {
      outside := true;
      return;
    }
    var nex := np.Usize();
    if g[nex.x][nex.y].state == Wall(side) {
      return;
    }
    if elm[nex.x][nex.y] != Unk(g) {
      LabelledNeighbourInSearch(g, side, elm0, start, cnt, comps, seeds, elm, comp, popped, que, top, nex);
      return;
    }
    ReachExtend(g, side, start, top, nex);
    FrontierPush(g, side, elm0, start, cnt, elm, comp, popped, que, nex);
    elm' := elm[nex.x := elm[nex.x][nex.y := cnt]];
    que' := que + [nex];
    comp' := comp + {nex};
  }

  /** Taking the head of the queue moves it to the popped cells and keeps the search state. */
  lemma FrontierPop(g: Grid, side: bool, elm0: seq<seq<int>>, start: PointUsize, cnt: nat,
                    elm: seq<seq<int>>, comp: set<PointUsize>, popped: set<PointUsize>, que: seq<PointUsize>)
    requires Frontier(g, side, elm0, start, cnt, elm, comp, popped, que) && |que| > 0
    ensures que[0] !in popped && que[0] in comp
    ensures Frontier(g, side, elm0, start, cnt, elm, comp, popped + {que[0]}, que[1..])
  {
    forall p
      ensures p in comp <==> p in popped + {que[0]} || p in que[1..]
    {
      if p in que {
        var i :| 0 <= i < |que| && que[i] == p;
        if i > 0 {
          assert que[1..][i - 1] == p;
        }
      }
    }
  }

  /** A cell is on the border exactly when one of its four directions leads off the board. */
  lemma BorderByDirections(g: Grid, p: PointUsize)
    requires |g| > 0
    ensures OnBorder(g, p) <==> OutwardBelow(g, p, 4)
  {
  }

  /** Adding one cell to a set touches the border when the set or the cell does. */
  lemma TouchesBorderAdd(g: Grid, c: set<PointUsize>, p: PointUsize)
    requires |g| > 0
    ensures TouchesBorder(g, c + {p}) <==> TouchesBorder(g, c) || OnBorder(g, p)
  {
    if TouchesBorder(g, c + {p}) && !OnBorder(g, p) {
      var q :| q in c + {p} && OnBorder(g, q);
      assert q in c;
    }
  }

  /** A finished search, with nothing left to queue, has found exactly the component of its start. */
  lemma SearchFinished(g: Grid, side: bool, elm0: seq<seq<int>>, start: PointUsize, cnt: nat,
                       elm: seq<seq<int>>, comp: set<PointUsize>, popped: set<PointUsize>)
    requires Frontier(g, side, elm0, start, cnt, elm, comp, popped, [])
    requires Closed(g, side, popped, comp)
    ensures comp == popped && comp == Component(g, side, start)
  {
    ClosedHoldsComponent(g, side, comp, start);
    forall p | p in comp
      ensures p in Component(g, side, start)
    {
      assert p in Cells(g);
    }
  }

  /**
   * The breadth-first search of `calc_region` from the unlabelled open cell
   * `start`: it labels the component of `start` with `cnt`, counts its cells
   * (`elm_cnt`) and notes whether it reaches the border of the board
   * (`out_flag`).
   */
  method Explore(g: Grid, side: bool, elm0: seq<seq<int>>, start: PointUsize, cnt: nat,
                 ghost comps: seq<set<PointUsize>>, ghost seeds: seq<PointUsize>)
    returns (elm: seq<seq<int>>, elmCnt: nat, outFlag: bool, ghost comp: set<PointUsize>)
    requires Labelled(g, side, elm0, cnt, comps, seeds) && cnt < Unk(g)
    requires InGrid(g, start) && Open(g, side, start) && elm0[start.x][start.y] == Unk(g)
    ensures comp == Component(g, side, start)
    ensures elmCnt == |comp| && (outFlag <==> TouchesBorder(g, comp))
    ensures IsMatrix(elm, |g|, |g[0]|)
    ensures forall x, y :: 0 <= x < |g| && 0 <= y < |g[0]| ==>
              elm[x][y] == if PointUsize(x, y) in comp then cnt else elm0[x][y]
    ensures forall p :: p in comp ==> InGrid(g, p) && elm0[p.x][p.y] == Unk(g)
  {
    ComponentsClosed(g, side, comps, seeds);
    ReachRefl(g, side, start);
    elm := elm0[start.x := elm0[start.x][start.y := cnt]];
    var que := [start];
    comp := {start};
    ghost var popped: set<PointUsize> := {};
    elmCnt, outFlag := 0, false;
    while |que| > 0
      invariant Frontier(g, side, elm0, start, cnt, elm, comp, popped, que)
      invariant elmCnt == |popped|
      invariant Closed(g, side, popped, comp)
      invariant outFlag <==> TouchesBorder(g, popped)
      decreases Cells(g) - popped
    {
      elmCnt := elmCnt + 1;
      var top := que[0];
      FrontierPop(g, side, elm0, start, cnt, elm, comp, popped, que);
      TouchesBorderAdd(g, popped, top);
      assert top in Cells(g);
      ghost var before := popped;
      que := que[1..];
      popped := popped + {top};
      for d := 0 to 4
        invariant Frontier(g, side, elm0, start, cnt, elm, comp, popped, que)
        invariant Closed(g, side, before, comp)
        invariant forall q :: Adjacent(top, q) && DirOf(top, q) < d && Open(g, side, q) ==> q in comp
        invariant outFlag <==> TouchesBorder(g, before) || OutwardBelow(g, top, d)
      {
        var outside;
        elm, que, comp, outside := Visit(g, side, elm0, start, cnt, comps, seeds, elm, comp, popped, que, top, d);
        if outside {
          outFlag := true;
        }
      }
      BorderByDirections(g, top);
    }
    SearchFinished(g, side, elm0, start, cnt, elm, comp, popped);
  }

  /** Recording the component found by a search extends the labelling by one. */
  lemma LabelledAdd(g: Grid, side: bool, elm0: seq<seq<int>>, cnt: nat,
                    comps: seq<set<PointUsize>>, seeds: seq<PointUsize>,
                    elm: seq<seq<int>>, start: PointUsize, comp: set<PointUsize>)
    requires Labelled(g, side, elm0, cnt, comps, seeds) && cnt < Unk(g)
    requires comp == Component(g, side, start) && IsMatrix(elm, |g|, |g[0]|)
    requires forall x, y :: 0 <= x < |g| && 0 <= y < |g[0]| ==>
               elm[x][y] == if PointUsize(x, y) in comp then cnt else elm0[x][y]
    requires forall p :: p in comp ==> InGrid(g, p) && elm0[p.x][p.y] == Unk(g)
    ensures Labelled(g, side, elm, cnt + 1, comps + [comp], seeds + [start])
  {
    var comps', seeds' := comps + [comp], seeds + [start];
    forall k, p | 0 <= k < cnt + 1 && p in comps'[k]
      ensures InGrid(g, p) && elm[p.x][p.y] == k
    {
      if k < cnt {
        assert p in comps[k] && InGrid(g, p) && elm0[p.x][p.y] == k;
      }
    }
  }

  /** Scanning stays below `width * height` labels: `i * h + j < w * h`. */
  lemma ScanBound(i: nat, j: nat, w: nat, h: nat)
    requires i < w && j < h
    ensures i * h + j < w * h && i * h + h <= w * h
  {
    assert i * h + h == (i + 1) * h;
    assert (i + 1) * h <= w * h;
  }

  /** Once every open cell is labelled, mapping labels to component values gives `RegionValue`. */
  lemma RegionFromLabels(g: Grid, side: bool, elm: seq<seq<int>>, cnt: nat,
                         comps: seq<set<PointUsize>>, seeds: seq<PointUsize>, siz: seq<nat>, region: seq<seq<int>>)
    requires Labelled(g, side, elm, cnt, comps, seeds)
    requires |siz| == cnt && forall k :: 0 <= k < cnt ==> siz[k] == SizeValue(g, comps[k])
    requires forall x, y :: 0 <= x < |g| && 0 <= y < |g[0]| && Open(g, side, PointUsize(x, y)) ==> elm[x][y] != Unk(g)
    requires IsMatrix(region, |g|, |g[0]|)
    requires forall x, y :: 0 <= x < |g| && 0 <= y < |g[0]| ==>
               region[x][y] == if elm[x][y] == Unk(g) then Unk(g) else siz[elm[x][y]]
    ensures forall x, y :: 0 <= x < |g| && 0 <= y < |g[0]| ==>
              region[x][y] == RegionValue(g, side, PointUsize(x, y))
  {
    forall x, y | 0 <= x < |g| && 0 <= y < |g[0]|
      ensures region[x][y] == RegionValue(g, side, PointUsize(x, y))
    {
      var p := PointUsize(x, y);
      if elm[x][y] != Unk(g) {
        var k := elm[x][y];
        ComponentClosed(g, side, seeds[k]);
        ComponentOfMember(g, side, seeds[k], p);
      }
    }
  }

  /** The labelling together with `siz`, the value of each component found so far. */
  ghost predicate Sized(g: Grid, side: bool, elm: seq<seq<int>>, cnt: nat,
                        comps: seq<set<PointUsize>>, seeds: seq<PointUsize>, siz: seq<nat>)
  {
    Labelled(g, side, elm, cnt, comps, seeds) &&
    |siz| == cnt && forall k :: 0 <= k < cnt ==> siz[k] == SizeValue(g, comps[k])
  }

  /** Every open cell before `(i, j)` in scanning order carries a label. */
  ghost predicate ScannedTo(g: Grid, side: bool, elm: seq<seq<int>>, i: nat, j: nat)
    requires Shaped(g) && IsMatrix(elm, |g|, |g[0]|)
  {
    forall x, y ::
      (((0 <= x < i && 0 <= y < |g[0]|) || (x == i && 0 <= y < j)) && Open(g, side, PointUsize(x, y))) ==>
        elm[x][y] != Unk(g)
  }

  lemma ScannedSkip(g: Grid, side: bool, elm: seq<seq<int>>, i: nat, j: nat)
    requires Shaped(g) && IsMatrix(elm, |g|, |g[0]|) && ScannedTo(g, side, elm, i, j)
    requires i < |g| && j < |g[0]|
    requires !Open(g, side, PointUsize(i, j)) || elm[i][j] != Unk(g)
    ensures ScannedTo(g, side, elm, i, j + 1)
  {
  }

  lemma ScannedSearch(g: Grid, side: bool, elm: seq<seq<int>>, elm': seq<seq<int>>, cnt: nat,
                      comp: set<PointUsize>, i: nat, j: nat)
    requires Shaped(g) && IsMatrix(elm, |g|, |g[0]|) && ScannedTo(g, side, elm, i, j)
    requires i < |g| && j < |g[0]| && PointUsize(i, j) in comp && cnt != Unk(g)
    requires IsMatrix(elm', |g|, |g[0]|)
    requires forall x, y :: 0 <= x < |g| && 0 <= y < |g[0]| ==>
               elm'[x][y] == if PointUsize(x, y) in comp then cnt else elm[x][y]
    ensures ScannedTo(g, side, elm', i, j + 1)
  {
  }

  /** One step of the scan of `calc_region`: start a search at cell `(i, j)` unless it is closed or labelled. */
  method ScanCell(g: Grid, side: bool, elm: seq<seq<int>>, cnt: nat, ghost comps: seq<set<PointUsize>>,
                  ghost seeds: seq<PointUsize>, siz: seq<nat>, i: nat, j: nat)
    returns (elm': seq<seq<int>>, cnt': nat, ghost comps': seq<set<PointUsize>>,
             ghost seeds': seq<PointUsize>, siz': seq<nat>)
    requires Sized(g, side, elm, cnt, comps, seeds, siz) && ScannedTo(g, side, elm, i, j)
    requires i < |g| && j < |g[0]| && cnt <= i * |g[0]| + j
    ensures Sized(g, side, elm', cnt', comps', seeds', siz') && ScannedTo(g, side, elm', i, j + 1)
    ensures cnt' <= cnt + 1
  {
    elm', cnt', comps', seeds', siz' := elm, cnt, comps, seeds, siz;
    ScanBound(i, j, |g|, |g[0]|);
    var unk := Unk(g);
    if g[i][j].state != Wall(side) && elm[i][j] == unk {
      var start := PointUsize(i, j);
      var elmCnt, outFlag;
      ghost var comp;
      elm', elmCnt, outFlag, comp := Explore(g, side, elm, start, cnt, comps, seeds);
      LabelledAdd(g, side, elm, cnt, comps, seeds, elm', start, comp);
      ReachRefl(g, side, start);
      ScannedSearch(g, side, elm, elm', cnt, comp, i, j);
      siz' := siz + [if outFlag then unk else elmCnt];
      comps', seeds' := comps + [comp], seeds + [start];
      cnt' := cnt + 1;
    } else {
      ScannedSkip(g, side, elm, i, j);
    }
  }

  /**
   * `calc_region(side)`: for every cell, `width * height` when a wall of
   * `side` covers it or when its region of non-`side`-wall cells reaches the
   * border of the board, and otherwise the number of cells of that region.
   */
  method CalcRegion(g: Grid, side: bool) returns (region: seq<seq<int>>)
    requires Shaped(g)
    ensures IsMatrix(region, |g|, |g[0]|)
    ensures forall x, y :: 0 <= x < |g| && 0 <= y < |g[0]| ==>
              region[x][y] == RegionValue(g, side, PointUsize(x, y))
  {
    var w, h := |g|, |g[0]|;
    var unk := Unk(g);
    var elm := seq(w, _ => seq(h, _ => unk));
    var cnt: nat := 0;
    var siz: seq<nat> := [];
    ghost var comps: seq<set<PointUsize>> := [];
    ghost var seeds: seq<PointUsize> := [];
    for i := 0 to w
      invariant Sized(g, side, elm, cnt, comps, seeds, siz)
      invariant cnt <= i * h && ScannedTo(g, side, elm, i, 0)
    {
      for j := 0 to h
        invariant Sized(g, side, elm, cnt, comps, seeds, siz)
        invariant cnt <= i * h + j && ScannedTo(g, side, elm, i, j)
      {
        elm, cnt, comps, seeds, siz := ScanCell(g, side, elm, cnt, comps, seeds, siz, i, j);
      }
      assert i * h + h == (i + 1) * h;
    }
    region := seq(w, x requires 0 <= x < w =>
                seq(h, y requires 0 <= y < h => if elm[x][y] == unk then unk else siz[elm[x][y]]));
    RegionFromLabels(g, side, elm, cnt, comps, seeds, siz, region);
  }
}
