/**
 * The turn holder (src/simulator.rs): a board together with the action
 * chosen for each agent of both sides in the current turn.
 */
module Simulator {
  import opened Board
  import opened Region
  import opened Field

  /** An agent's action: stay, put a wall at a point, move to a point, or remove the wall at a point. */
  datatype Act = StayAct | PutAct(put: Point) | MoveAct(to: Point) | RemoveAct(remove: Point)

  /** The action table `vec![vec![StayAct; n]; 2]`: two rows of `n` stays. */
  function StayTable(n: nat): (t: seq<seq<Act>>)
    ensures |t| == 2 && |t[0]| == n && |t[1]| == n
    ensures forall s, i :: 0 <= s < 2 && 0 <= i < n ==> t[s][i] == StayAct
  {
    [seq(n, _ => StayAct), seq(n, _ => StayAct)]
  }

  class Simulator {
    var field: Field
    var acts: seq<seq<Act>>

    /**
     * `Simulator::make`: keeps its own copy of the board, equal to the
     * given one, and an all-stay action table sized by the agent count.
     */
    constructor Make(field: Field)
      requires |field.agents| > 0
      ensures fresh(this.field)
      ensures this.field.tiles == field.tiles && this.field.agents == field.agents
      ensures this.field.scores == field.scores
      ensures this.field.nowTurn == field.nowTurn && this.field.finalTurn == field.finalTurn
      ensures acts == StayTable(field.AgentCount())
    {
      var copy := field.Clone();
      this.field := copy;
      acts := StayTable(field.AgentCount());
    }

    /** `Simulator::get_field`: the board it holds. */
    function GetField(): (f: Field)
      reads this
      ensures f == field
    {
      field
    }

    /**
     * `Simulator::change_turn`: applies the region update to the board and
     * resets every action to a stay. The turn counter, the agents and the
     * scores of the board are left as they were.
     */
    method ChangeTurn()
      modifies this, field
      requires Shaped(field.tiles) && |field.agents| > 0
      ensures field == old(field)
      ensures field.tiles == RegionUpdated(old(field.tiles))
      ensures field.agents == old(field.agents) && field.scores == old(field.scores)
      ensures field.nowTurn == old(field.nowTurn) && field.finalTurn == old(field.finalTurn)
      ensures acts == StayTable(field.AgentCount())
    {
      field.UpdateRegion();
      acts := StayTable(field.AgentCount());
    }
  }
}
