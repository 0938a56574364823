/**
 * The part of a player that the game state consults: its index, the vertices
 * and edges it holds, its affordability verdicts and whether it has won.
 */
module Agents {
  import opened Boards

  datatype Agent = Agent(
    agentIndex: nat,
    settlements: seq<VertexRef>,
    roads: seq<EdgeRef>,
    cities: seq<VertexRef>,
    canBuildRoad: bool,
    canSettle: bool,
    canBuildCity: bool,
    hasWon: bool)
  {
    /** Every settlement and road of the agent is a vertex or an edge of `b`. */
    ghost predicate OnBoard(b: Board) {
      && (forall k :: 0 <= k < |settlements| ==> settlements[k] in b.edgesOfVertex)
      && (forall k :: 0 <= k < |roads| ==> roads[k] in b.vertexEnds)
    }
  }
}
