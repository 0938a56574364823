/**
 * The SETTLE branch of getLegalActions as game.py:71-78 writes it. Line 77
 * tests `possibleSettlement.canSettle` without calling it, and a bound method
 * is always true, so every end vertex of every road passes. Line 78 appends
 * `settlement`, the variable the ROAD loop at game.py:64 left behind, not the
 * candidate `possibleSettlement`: it holds the agent's last settlement when
 * that loop ran at least once, and is unbound (a NameError) otherwise.
 * GameStates.LegalActions is the intended reading; this module shows how the
 * two differ.
 */
module SettleDefect {
  import opened Wrappers
  import opened Boards
  import opened Agents
  import opened GameStates

  /** The exception the branch as written can raise. */
  datatype PyError = NameError

  /** How many times line 78 runs: once per end vertex of every road. */
  function EndCount(b: Board, rs: seq<EdgeRef>): nat
    requires forall k :: 0 <= k < |rs| ==> rs[k] in b.vertexEnds
  {
    if rs == [] then 0 else EndCount(b, rs[..|rs| - 1]) + |b.vertexEnds[rs[|rs| - 1]]|
  }

  function Repeat(a: Action, n: nat): (r: seq<Action>)
    ensures |r| == n && forall k :: 0 <= k < n ==> r[k] == a
  {
    if n == 0 then [] else Repeat(a, n - 1) + [a]
  }

  /**
   * game.py:71-78 as written. The uncalled `canSettle` lets every end vertex
   * through, so each run of line 78 adds one entry. Every entry is the
   * leftover `settlement`, and the branch raises when that name was never bound.
   */
  function SettleActionsAsWritten(b: Board, a: Agent): (r: Result<seq<Action>, PyError>)
    requires forall k :: 0 <= k < |a.roads| ==> a.roads[k] in b.vertexEnds
    ensures r.Ok? ==> |r.value| == (if a.canSettle then EndCount(b, a.roads) else 0)
    ensures r.Ok? ==> forall x :: x in r.value ==>
      |a.settlements| > 0 && x == Settle(a.settlements[|a.settlements| - 1])
    ensures r.Err? <==> a.canSettle && EndCount(b, a.roads) > 0 && !(a.canBuildRoad && |a.settlements| > 0)
  {
    if !a.canSettle then Ok([])
    else
      var n := EndCount(b, a.roads);
      if n == 0 then Ok([])
      else if a.canBuildRoad && |a.settlements| > 0 then Ok(Repeat(Settle(a.settlements[|a.settlements| - 1]), n))
      else Err(NameError)
  }

  /**
   * game.py:54-87 as written: the ROAD and CITY parts as intended, the SETTLE
   * part as above. Outside SETTLE actions it offers what the intended reading offers.
   */
  function LegalActionsAsWritten(b: Board, agents: seq<Agent>, i: int): (r: Result<seq<Action>, PyError>)
    requires Queryable(b, agents, i)
    ensures Winner(agents) >= 0 ==> r == Ok([])
    ensures r.Ok? ==> forall x: Action :: !x.Settle? ==> (x in r.value <==> x in LegalActions(b, agents, i))
  {
    if Winner(agents) >= 0 then Ok([])
    else
      var a := agents[ListIndex(|agents|, i)];
      SettleActionsSound(b, a.roads);
      match SettleActionsAsWritten(b, a)
      case Err(e) => Err(e)
      case Ok(settles) =>
        Ok((if a.canBuildRoad then RoadActions(b, a.settlements) else [])
           + settles
           + (if a.canBuildCity then CityActions(a.settlements) else []))
  }

  /** As written, every SETTLE action offered is the agent's last settlement, whatever its roads reach. */
  lemma AsWrittenProposesLastSettlement(b: Board, agents: seq<Agent>, i: int, v: VertexRef)
    requires Queryable(b, agents, i) && Winner(agents) == -1
    requires LegalActionsAsWritten(b, agents, i).Ok?
    requires Settle(v) in LegalActionsAsWritten(b, agents, i).value
    ensures var a := agents[ListIndex(|agents|, i)];
      |a.settlements| > 0 && v == a.settlements[|a.settlements| - 1]
  {
    var a := agents[ListIndex(|agents|, i)];
    RoadActionsSound(b, a.settlements);
  }

  /** Without a settlement bound by the ROAD loop, a road with ends makes the branch raise NameError. */
  lemma AsWrittenRaisesWithoutRoadLoop(b: Board, agents: seq<Agent>, i: int)
    requires Queryable(b, agents, i) && Winner(agents) == -1
    requires var a := agents[ListIndex(|agents|, i)];
      a.canSettle && !a.canBuildRoad && |a.roads| > 0 && |b.vertexEnds[a.roads[0]]| > 0
    ensures LegalActionsAsWritten(b, agents, i) == Err(NameError)
  {
    var a := agents[ListIndex(|agents|, i)];
    EndCountPositive(b, a.roads);
  }

  lemma {:induction false} EndCountPositive(b: Board, rs: seq<EdgeRef>)
    requires forall k :: 0 <= k < |rs| ==> rs[k] in b.vertexEnds
    requires |rs| > 0 && |b.vertexEnds[rs[0]]| > 0
    ensures EndCount(b, rs) > 0
  {
    if |rs| > 1 {
      EndCountPositive(b, rs[..|rs| - 1]);
    }
  }

  /**
   * One agent with a settlement at A and a road from A to B, where B may be
   * settled and A may not: as written the state offers SETTLE(A) twice, as
   * intended it offers SETTLE(B) once.
   */
  lemma AsWrittenCounterexample()
    ensures var A, B, E := VertexRef(0, 0), VertexRef(1, 0), EdgeRef(0, 1);
      var b := Board(map[A := [E], B := [E]], map[E := [A, B]], map[E := Some(0)], {B});
      var agents := [Agent(0, [A], [E], [], true, true, false, false)];
      && Queryable(b, agents, 0)
      && LegalActionsAsWritten(b, agents, 0) == Ok([Settle(A), Settle(A)])
      && LegalActions(b, agents, 0) == [Settle(B)]
  {
    var A, B, E := VertexRef(0, 0), VertexRef(1, 0), EdgeRef(0, 1);
    var b := Board(map[A := [E], B := [E]], map[E := [A, B]], map[E := Some(0)], {B});
    var agents := [Agent(0, [A], [E], [], true, true, false, false)];
    assert Winner(agents) == -1 by {
      assert agents[1..] == [];
    }
    assert b.Valid();
    assert [A][..0] == [] && [E][..0] == [] && [A, B][..1] == [A] && [A, B][..0] == [];
    assert RoadActions(b, [A]) == [] by {
      assert FreeRoads(b, [E]) == [];
    }
    assert EndCount(b, [E]) == 2;
    assert Repeat(Settle(A), 2) == [Settle(A), Settle(A)];
    assert SettleCandidates(b, [A]) == [];
    assert SettleCandidates(b, [A, B]) == [Settle(B)];
    assert SettleActions(b, [E]) == [Settle(B)];
    assert SettleActionsAsWritten(b, agents[0]) == Ok([Settle(A), Settle(A)]);
    assert agents[0].OnBoard(b);
    assert Queryable(b, agents, 0);
    assert ListIndex(1, 0) == 0;
    assert [] + [Settle(A), Settle(A)] + [] == [Settle(A), Settle(A)];
    assert LegalActionsAsWritten(b, agents, 0) == Ok([Settle(A), Settle(A)]);
    assert LegalActions(b, agents, 0) == [Settle(B)];
  }
}
