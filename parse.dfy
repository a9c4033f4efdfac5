/**
 * Conversion of the game server's JSON into board data (src/api/parse.rs):
 * optional values turned into errors, the first error of a list, the
 * transpose of row-major matrices, the team records and the agent
 * positions.
 */
module Parse {
  import opened Wrappers
  import opened MachineInt
  import opened Board

  /** A JSON value (`serde_json::Value`); numbers are integers or floats. */
  datatype Json =
    | Null
    | Bool(b: bool)
    | Int(i: int)
    | Float(f: real)
    | Str(s: string)
    | Array(elems: seq<Json>)
    | Object(fields: map<string, Json>)

  /** `value[key]`: the member, or `Null` when the value is not an object or has no such key. */
  function Get(v: Json, key: string): Json
  {
    if v.Object? && key in v.fields then v.fields[key] else Null
  }

  function AsArray(v: Json): Option<seq<Json>>
  {
    if v.Array? then Some(v.elems) else None
  }

  /** `as_u64`: an integer that fits 64 unsigned bits. */
  function AsU64(v: Json): Option<nat>
  {
    if v.Int? && 0 <= v.i < 0x1_0000_0000_0000_0000 then Some(v.i) else None
  }

  /** `as_i64`: an integer that fits 64 signed bits. */
  function AsI64(v: Json): Option<int>
  {
    if v.Int? && -0x8000_0000_0000_0000 <= v.i < 0x8000_0000_0000_0000 then Some(v.i) else None
  }

  const PREFIX: string := "couldn't parse "

  /** `to_result`: a present value is passed on; a missing one becomes the error naming `target`. */
  function ToResult<T>(opt: Option<T>, target: string): (r: Result<T, string>)
    ensures opt.Some? ==> r == Ok(opt.value)
    ensures opt.None? ==> r == Err(PREFIX + target)
  {
    match opt
    case Some(v) => Ok(v)
    case None => Err(PREFIX + target)
  }

  /** `err_ret_vec!`: the first error of the list, or all the values in order. */
  function CollectResults<T>(rs: seq<Result<T, string>>): (r: Result<seq<T>, string>)
    ensures r.Ok? <==> forall i :: 0 <= i < |rs| ==> rs[i].Ok?
    ensures r.Ok? ==> |r.value| == |rs| && forall i :: 0 <= i < |rs| ==> rs[i] == Ok(r.value[i])
    ensures r.Err? ==> exists i :: 0 <= i < |rs| && rs[i] == Err(r.error) &&
                                  forall j :: 0 <= j < i ==> rs[j].Ok?
  {
    if |rs| == 0 then Ok([])
    else match rs[0]
      case Err(e) => Err(e)
      case Ok(v) =>
        match CollectResults(rs[1..])
        case Err(e) => Err(e)
        case Ok(vs) => Ok([v] + vs)
  }

  /** On two results, the first error wins; otherwise both values, in order. */
  lemma CollectTwo<T>(a: Result<T, string>, b: Result<T, string>)
    ensures CollectResults([a, b]) ==
              if a.Err? then Err(a.error) else if b.Err? then Err(b.error) else Ok([a.value, b.value])
  {
    var empty: seq<Result<T, string>> := [];
    assert [b][1..] == empty;
    assert CollectResults(empty) == Ok([]);
    if b.Ok? {
      assert [b.value] + [] == [b.value];
    }
    assert CollectResults([b]) == if b.Err? then Err(b.error) else Ok([b.value]);
    assert [a, b][1..] == [b];
    if a.Ok? && b.Ok? {
      assert [a.value] + [b.value] == [a.value, b.value];
    }
  }

  // ---------------------------------------------------------------------------
  // parse_2d_list

  /**
   * Every integer entry of every row fits the target type `[lo, hi)`: the
   * source converts each one with `try_from(..).expect(..)`, which panics
   * otherwise, and it converts every row before it looks for errors.
   */
  predicate EntriesFit(v: Json, lo: int, hi: int)
  {
    v.Array? ==>
      forall w :: w in v.elems && w.Array? ==>
        forall x :: x in w.elems && AsI64(x).Some? ==> lo <= AsI64(x).value < hi
  }

  /** One entry: an integer (converted to the target type), or the error naming `msg`. */
  function ParseEntry(x: Json, msg: string): Result<int, string>
  {
    ToResult(AsI64(x), msg)
  }

  /** One row: an array of integers, or the first error. */
  function ParseRow(w: Json, msg: string): (r: Result<seq<int>, string>)
    ensures r.Ok? <==> w.Array? && forall x :: x in w.elems ==> AsI64(x).Some?
    ensures r.Ok? ==> |r.value| == |w.elems| && forall j :: 0 <= j < |w.elems| ==> w.elems[j] == Int(r.value[j])
    ensures r.Err? ==> r.error == PREFIX + msg
  {
    match ToResult(AsArray(w), msg)
    case Err(e) => Err(e)
    case Ok(elems) =>
      var rs := seq(|elems|, j requires 0 <= j < |elems| => ParseEntry(elems[j], msg));
      assert forall x :: x in elems ==> exists j :: 0 <= j < |elems| && elems[j] == x && rs[j] == ParseEntry(x, msg);
      CollectResults(rs)
  }

  /** All rows of the matrix, in the server's row-major order. */
  function ParseRows(v: Json, msg: string): (r: Result<seq<seq<int>>, string>)
    ensures r.Ok? <==> v.Array? && forall i :: 0 <= i < |v.elems| ==> ParseRow(v.elems[i], msg).Ok?
    ensures r.Ok? ==> |r.value| == |v.elems| && forall i :: 0 <= i < |v.elems| ==> ParseRow(v.elems[i], msg) == Ok(r.value[i])
    ensures r.Err? ==> r.error == PREFIX + msg
  {
    match ToResult(AsArray(v), msg)
    case Err(e) => Err(e)
    case Ok(rows) =>
      var rs := seq(|rows|, i requires 0 <= i < |rows| => ParseRow(rows[i], msg));
      assert forall i :: 0 <= i < |rows| ==> rs[i] == ParseRow(rows[i], msg);
      CollectResults(rs)
  }

  /** What the transpose needs: a first row with an entry, and no row longer than the first. */
  predicate Transposable(r: seq<seq<int>>)
  {
    |r| > 0 && |r[0]| > 0 && forall i :: 0 <= i < |r| ==> |r[i]| <= |r[0]|
  }

  /** The transpose `v[j][i] = r[i][j]`; cells a short row leaves out keep the filler `r[0][0]`. */
  function Transposed(r: seq<seq<int>>): (v: seq<seq<int>>)
    requires Transposable(r)
  {
    seq(|r[0]|, j requires 0 <= j < |r[0]| =>
      seq(|r|, i requires 0 <= i < |r| => if j < |r[i]| then r[i][j] else r[0][0]))
  }

  /** For a rectangular matrix, transposing twice gives the matrix back. */
  lemma TransposeTwice(r: seq<seq<int>>)
    requires Transposable(r) && forall i :: 0 <= i < |r| ==> |r[i]| == |r[0]|
    ensures Transposable(Transposed(r)) && Transposed(Transposed(r)) == r
  {
    var t := Transposed(r);
    assert Transposable(t);
    var tt := Transposed(t);
    forall i | 0 <= i < |r|
      ensures tt[i] == r[i]
    {
    }
  }

  /**
   * The transpose after rows `0..i` and the first `j` entries of row `i`
   * have been copied; every other cell still holds the filler `r[0][0]`.
   */
  ghost predicate Filled(out: seq<seq<int>>, r: seq<seq<int>>, i: nat, j: nat)
    requires Transposable(r)
  {
    |out| == |r[0]| && (forall j' :: 0 <= j' < |r[0]| ==> |out[j']| == |r|) &&
    forall j', k {:trigger out[j'][k]} :: 0 <= j' < |r[0]| && 0 <= k < |r| ==>
      out[j'][k] == if (k < i || (k == i && j' < j)) && j' < |r[k]| then r[k][j'] else r[0][0]
  }

  /** The inner loop of the transpose: row `i` of `r` becomes column `i` of `out`. */
  method CopyRow(out: seq<seq<int>>, r: seq<seq<int>>, i: nat) returns (out': seq<seq<int>>)
    requires Transposable(r) && i < |r| && Filled(out, r, i, 0)
    ensures Filled(out', r, i + 1, 0)
  {
    out' := out;
    for j := 0 to |r[i]|
      invariant Filled(out', r, i, j)
    {
      out' := out'[j := out'[j][i := r[i][j]]];
    }
  }

  /**
   * `parse_2d_list`: reads a row-major JSON matrix and returns it indexed
   * `[x][y]`, or the error naming `msg` when the value, a row or an entry is
   * not an array or an integer.
   */
  method ParseMatrix(v: Json, msg: string, lo: int, hi: int) returns (res: Result<seq<seq<int>>, string>)
    requires EntriesFit(v, lo, hi)
    requires ParseRows(v, msg).Ok? ==> Transposable(ParseRows(v, msg).value)
    ensures ParseRows(v, msg).Err? ==> res == Err(PREFIX + msg)
    ensures ParseRows(v, msg).Ok? ==> res == Ok(Transposed(ParseRows(v, msg).value))
    ensures res.Ok? ==> forall x, y :: 0 <= x < |res.value| && 0 <= y < |res.value[x]| ==> lo <= res.value[x][y] < hi
  {
    var parsed := ParseRows(v, msg);
    if parsed.Err? {
      return Err(parsed.error);
    }
    var r := parsed.value;
    EntriesInRange(v, msg, lo, hi);
    var out := seq(|r[0]|, _ => seq(|r|, _ => r[0][0]));
    for i := 0 to |r|
      invariant Filled(out, r, i, 0)
    {
      out := CopyRow(out, r, i);
    }
    forall j | 0 <= j < |r[0]|
      ensures out[j] == Transposed(r)[j]
    {
      assert forall k :: 0 <= k < |r| ==> out[j][k] == Transposed(r)[j][k];
    }
    assert out == Transposed(r);
    res := Ok(out);
  }

  /** The parsed entries are the integers of the input, so they lie in the target range. */
  lemma EntriesInRange(v: Json, msg: string, lo: int, hi: int)
    requires EntriesFit(v, lo, hi) && ParseRows(v, msg).Ok?
    ensures forall i, j :: 0 <= i < |ParseRows(v, msg).value| && 0 <= j < |ParseRows(v, msg).value[i]| ==>
              lo <= ParseRows(v, msg).value[i][j] < hi
  {
    var r := ParseRows(v, msg).value;
    forall i, j | 0 <= i < |r| && 0 <= j < |r[i]|
      ensures lo <= r[i][j] < hi
    {
      var w := v.elems[i];
      assert ParseRow(w, msg) == Ok(r[i]);
      assert w in v.elems && w.elems[j] in w.elems;
      assert w.elems[j] == Int(r[i][j]);
    }
  }

  // ---------------------------------------------------------------------------
  // get_team_data

  /** The name of a member of team `i` (0 or 1) in error messages, as in `teams[0].teamID`. */
  function TeamTarget(i: nat, member: string): string
  {
    "teams[" + (if i == 0 then "0" else "1") + "]" + member
  }

  /** The agent ids of one team; `None` when the team has no `agents` array. */
  function AgentIds(team: Json): (r: Result<seq<U32>, string>)
    ensures AsArray(Get(team, "agents")).None? ==> r == Ok([])
    ensures r.Err? ==> r.error == PREFIX + "agentID"
    ensures r.Ok? && AsArray(Get(team, "agents")).Some? ==>
              var agents := AsArray(Get(team, "agents")).value;
              |r.value| == |agents| &&
              forall k :: 0 <= k < |agents| ==> AsU64(Get(agents[k], "agentID")).Some? &&
                                                r.value[k] == AsU32(AsU64(Get(agents[k], "agentID")).value)
  {
    match AsArray(Get(team, "agents"))
    case None => Ok([])
    case Some(agents) =>
      var rs := seq(|agents|, k requires 0 <= k < |agents| => ToResult(AsU64(Get(agents[k], "agentID")), "agentID"));
      assert forall k :: 0 <= k < |agents| ==> rs[k] == ToResult(AsU64(Get(agents[k], "agentID")), "agentID");
      match CollectResults(rs)
      case Err(e) => Err(e)
      case Ok(ids) => Ok(seq(|ids|, k requires 0 <= k < |ids| => AsU32(ids[k])))
  }

  /** The record of team `i`: its id truncated to 32 bits, and its agent ids. */
  function TeamOf(team: Json, i: nat): (r: Result<TeamData, string>)
    ensures AsU64(Get(team, "teamID")).None? ==> r == Err(PREFIX + TeamTarget(i, ".teamID"))
    ensures r.Ok? ==> AsU64(Get(team, "teamID")).Some? &&
                      r.value.teamId == AsU32(AsU64(Get(team, "teamID")).value) &&
                      AgentIds(team) == Ok(r.value.agentId)
  {
    match ToResult(AsU64(Get(team, "teamID")), TeamTarget(i, ".teamID"))
    case Err(e) => Err(e)
    case Ok(id) =>
      match AgentIds(team)
      case Err(e) => Err(e)
      case Ok(ids) => Ok(TeamData(AsU32(id), ids))
  }

  /** `get_team_data`: the records of teams 0 and 1 (the source indexes both, so there must be two). */
  function GetTeamData(teams: seq<Json>): (r: Result<seq<TeamData>, string>)
    requires |teams| >= 2
    ensures r.Ok? <==> TeamOf(teams[0], 0).Ok? && TeamOf(teams[1], 1).Ok?
    ensures r.Ok? ==> r.value == [TeamOf(teams[0], 0).value, TeamOf(teams[1], 1).value]
    ensures TeamOf(teams[0], 0).Err? ==> r == Err(TeamOf(teams[0], 0).error)
    ensures TeamOf(teams[0], 0).Ok? && TeamOf(teams[1], 1).Err? ==> r == Err(TeamOf(teams[1], 1).error)
  {
    CollectTwo(TeamOf(teams[0], 0), TeamOf(teams[1], 1));
    CollectResults([TeamOf(teams[0], 0), TeamOf(teams[1], 1)])
  }

  // ---------------------------------------------------------------------------
  // Agent positions (inside parse_field_data)

  /** `c as i8 - 1` does not overflow: the source's `i8` subtraction panics below -128. */
  predicate CoordFits(dat: Json, key: string)
  {
    AsU64(Get(dat, key)).Some? ==> AsI8(AsU64(Get(dat, key)).value) != -128
  }

  /**
   * Neither subtraction that the source reaches overflows: `y` is read only
   * once `x` has parsed, so a missing `x` places no demand on `y`.
   */
  predicate PosFits(dat: Json)
  {
    CoordFits(dat, "x") && (AsU64(Get(dat, "x")).Some? ==> CoordFits(dat, "y"))
  }

  /**
   * One agent's position: the server's 1-based `(x, y)` made 0-based; an
   * `x` of 0 (wrapping to -1 after the `i8` cast) means the agent is not on
   * the board yet. Both coordinates must be present.
   */
  function AgentPos(dat: Json): (r: Result<Option<Point>, string>)
    requires PosFits(dat)
    ensures AsU64(Get(dat, "x")).None? ==> r == Err(PREFIX + "x")
    ensures AsU64(Get(dat, "x")).Some? && AsU64(Get(dat, "y")).None? ==> r == Err(PREFIX + "y")
    ensures Get(dat, "x") == Int(0) && AsU64(Get(dat, "y")).Some? ==> r == Ok(None)
    ensures forall x, y :: 1 <= x <= 127 && 1 <= y <= 127 && Get(dat, "x") == Int(x) && Get(dat, "y") == Int(y) ==>
              r == Ok(Some(Point(x - 1, y - 1)))
  {
    match ToResult(AsU64(Get(dat, "x")), "x")
    case Err(e) => Err(e)
    case Ok(xr) =>
      var x := AsI8(xr) - 1;
      match ToResult(AsU64(Get(dat, "y")), "y")
      case Err(e) => Err(e)
      case Ok(yr) =>
        var y := AsI8(yr) - 1;
        if x == -1 then Ok(None) else Ok(Some(Point(x, y)))
  }

  /**
   * An agent without `x` is an error naming `x` whatever its `y` holds: a
   * `y` of 128, whose cast to `i8` would overflow, is never reached.
   */
  lemma MissingXIgnoresY()
    ensures var dat := Object(map["y" := Int(128)]);
            PosFits(dat) && !CoordFits(dat, "y") && AgentPos(dat) == Err(PREFIX + "x")
  {
    var dat := Object(map["y" := Int(128)]);
    assert Get(dat, "x") == Null;
    assert AsI8(128) == -128;
  }

  /** The agent table of one team, or the first error. */
  function TeamAgents(team: Json, i: nat): (r: Result<seq<Option<Point>>, string>)
    requires AsArray(Get(team, "agents")).Some? ==>
               forall dat :: dat in AsArray(Get(team, "agents")).value ==> PosFits(dat)
    ensures AsArray(Get(team, "agents")).None? ==> r == Err(PREFIX + TeamTarget(i, "[agents]"))
    ensures r.Ok? ==> AsArray(Get(team, "agents")).Some? &&
                      var agents := AsArray(Get(team, "agents")).value;
                      |r.value| == |agents| &&
                      forall k :: 0 <= k < |agents| ==> AgentPos(agents[k]) == Ok(r.value[k])
  {
    match ToResult(AsArray(Get(team, "agents")), TeamTarget(i, "[agents]"))
    case Err(e) => Err(e)
    case Ok(agents) =>
      var rs := seq(|agents|, k requires 0 <= k < |agents| => AgentPos(agents[k]));
      assert forall k :: 0 <= k < |agents| ==> rs[k] == AgentPos(agents[k]);
      CollectResults(rs)
  }

  /** Both teams' agent tables, as `from_data` takes them: row `i` for team `i`. */
  function AgentTable(teams: seq<Json>): (r: Result<seq<seq<Option<Point>>>, string>)
    requires |teams| >= 2
    requires forall i :: 0 <= i < 2 ==> AsArray(Get(teams[i], "agents")).Some? ==>
               forall dat :: dat in AsArray(Get(teams[i], "agents")).value ==> PosFits(dat)
    ensures r.Ok? <==> TeamAgents(teams[0], 0).Ok? && TeamAgents(teams[1], 1).Ok?
    ensures r.Ok? ==> r.value == [TeamAgents(teams[0], 0).value, TeamAgents(teams[1], 1).value]
  {
    CollectTwo(TeamAgents(teams[0], 0), TeamAgents(teams[1], 1));
    CollectResults([TeamAgents(teams[0], 0), TeamAgents(teams[1], 1)])
  }
}
