/**
 * The part of the board that the game state queries: a vertex's incident
 * edges, an edge's two end vertices, which edges carry a road, and which
 * vertices admit a settlement. Vertices and edges are named by coordinates.
 */
module Boards {
  import opened Wrappers

  datatype VertexRef = VertexRef(x: int, y: int)
  datatype EdgeRef = EdgeRef(x: int, y: int)

  /** A move: `(ACTIONS.ROAD, edge)`, `(ACTIONS.SETTLE, vertex)` or `(ACTIONS.CITY, vertex)`. */
  datatype Action = Road(edge: EdgeRef) | Settle(vertex: VertexRef) | City(vertex: VertexRef)

  datatype Board = Board(
    edgesOfVertex: map<VertexRef, seq<EdgeRef>>,
    vertexEnds: map<EdgeRef, seq<VertexRef>>,
    owner: map<EdgeRef, Option<nat>>,
    settleable: set<VertexRef>)
  {
    /**
     * The indices are closed: every edge has an owner slot and exactly two
     * ends, and every edge listed at a vertex is an edge of the board.
     */
    ghost predicate Valid() {
      && owner.Keys == vertexEnds.Keys
      && (forall e :: e in vertexEnds ==> |vertexEnds[e]| == 2)
      && (forall v, k :: v in edgesOfVertex && 0 <= k < |edgesOfVertex[v]| ==> edgesOfVertex[v][k] in vertexEnds)
    }

    /** The vertex-to-edge and edge-to-vertex indices describe the same incidence. */
    ghost predicate Symmetric() {
      && (forall v, e :: v in edgesOfVertex && e in edgesOfVertex[v] ==> e in vertexEnds && v in vertexEnds[e])
      && (forall e, v :: e in vertexEnds && v in vertexEnds[e] ==> v in edgesOfVertex && e in edgesOfVertex[v])
    }

    /**
     * `edge.isOccupied()`: a road stands on the edge. `owner` is the board's
     * view of each edge's `player` field (Edges.Edge.player).
     */
    predicate IsOccupied(e: EdgeRef)
      requires e in owner
    {
      owner[e].Some?
    }

    /** `vertex.canSettle()`, decided by the board's distance rule. */
    predicate CanSettle(v: VertexRef) {
      v in settleable
    }
  }
}
