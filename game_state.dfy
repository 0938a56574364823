/**
 * GameState (game.py): a board and the ordered list of agents, with the
 * legal-action enumeration, the winner test and successor generation.
 */
module GameStates {
  import opened Wrappers
  import opened Boards
  import opened Agents

  /**
   * Why `generateSuccessor` raises: the state is terminal, `playerIndex`
   * selects no agent (IndexError), or the agent's or the board's
   * `applyAction` raised on the action.
   */
  datatype GameError = TerminalState | IndexOutOfRange | ActionRaised

  // ---------------------------------------------------------------------------
  // Specification functions
  // ---------------------------------------------------------------------------

  /** The element `xs[i]` denotes in Python, where -|xs| <= i < 0 counts from the end. */
  function ListIndex(n: nat, i: int): (k: nat)
    requires -(n as int) <= i < n
    ensures k < n && (k - i) % n == 0
  {
    if i < 0 then n + i else i
  }

  /** `gameOver()`: the agentIndex of the first agent, in list order, that has won; -1 if none has. */
  function Winner(agents: seq<Agent>): (w: int)
    ensures w == -1 || exists k :: 0 <= k < |agents| && agents[k].hasWon && agents[k].agentIndex == w
  {
    if agents == [] then -1
    else if agents[0].hasWon then agents[0].agentIndex
    else
      var w := Winner(agents[1..]);
      assert w != -1 ==> exists k :: 1 <= k < |agents| && agents[k].hasWon && agents[k].agentIndex == w by {
        if w != -1 {
          var k :| 0 <= k < |agents[1..]| && agents[1..][k].hasWon && agents[1..][k].agentIndex == w;
          assert agents[k + 1] == agents[1..][k];
        }
      }
      w
  }

  /** What `getLegalActions` needs to run: either the game is over, or the index selects an agent whose pieces lie on a consistent board. */
  ghost predicate Queryable(b: Board, agents: seq<Agent>, i: int) {
    Winner(agents) >= 0 || (-|agents| <= i < |agents| && b.Valid() && agents[ListIndex(|agents|, i)].OnBoard(b))
  }

  /** The road actions offered on the edges `es` around one settlement: the unoccupied ones, in order. */
  function FreeRoads(b: Board, es: seq<EdgeRef>): (r: seq<Action>)
    requires forall k :: 0 <= k < |es| ==> es[k] in b.owner
  {
    if es == [] then []
    else
      var e := es[|es| - 1];
      FreeRoads(b, es[..|es| - 1]) + (if b.IsOccupied(e) then [] else [Road(e)])
  }

  /** The road actions for the settlements `ss`, settlement by settlement. */
  function RoadActions(b: Board, ss: seq<VertexRef>): (r: seq<Action>)
    requires b.Valid() && forall k :: 0 <= k < |ss| ==> ss[k] in b.edgesOfVertex
  {
    if ss == [] then []
    else RoadActions(b, ss[..|ss| - 1]) + FreeRoads(b, b.edgesOfVertex[ss[|ss| - 1]])
  }

  /** The settle actions offered at the ends `vs` of one road: those where a settlement may stand. */
  function SettleCandidates(b: Board, vs: seq<VertexRef>): (r: seq<Action>)
  {
    if vs == [] then []
    else
      var v := vs[|vs| - 1];
      SettleCandidates(b, vs[..|vs| - 1]) + (if b.CanSettle(v) then [Settle(v)] else [])
  }

  /** The settle actions for the roads `rs`, road by road. */
  function SettleActions(b: Board, rs: seq<EdgeRef>): (r: seq<Action>)
    requires forall k :: 0 <= k < |rs| ==> rs[k] in b.vertexEnds
  {
    if rs == [] then []
    else SettleActions(b, rs[..|rs| - 1]) + SettleCandidates(b, b.vertexEnds[rs[|rs| - 1]])
  }

  /** One city action per settlement, in the settlements' order. */
  function CityActions(ss: seq<VertexRef>): (r: seq<Action>)
    ensures |r| == |ss| && forall k :: 0 <= k < |r| ==> r[k] == City(ss[k])
  {
    if ss == [] then [] else CityActions(ss[..|ss| - 1]) + [City(ss[|ss| - 1])]
  }

  /**
   * `getLegalActions(i)`, with the settle branch read as intended (the
   * candidate vertex is proposed when it can be settled; see SettleDefect).
   */
  function LegalActions(b: Board, agents: seq<Agent>, i: int): (r: seq<Action>)
    requires Queryable(b, agents, i)
    ensures Winner(agents) >= 0 ==> r == []
    ensures r != [] ==>
      && Winner(agents) == -1
      && forall x :: x in r ==> Permitted(b, agents[ListIndex(|agents|, i)], x)
  {
    if Winner(agents) >= 0 then [] else AgentActions(b, agents[ListIndex(|agents|, i)])
  }

  /** What a non-terminal state offers agent `a`: its road, settle and city parts, each when the agent can afford it. */
  function AgentActions(b: Board, a: Agent): (r: seq<Action>)
    requires b.Valid() && a.OnBoard(b)
    ensures forall x :: x in r ==> Permitted(b, a, x)
  {
    RoadActionsSound(b, a.settlements);
    SettleActionsSound(b, a.roads);
    (if a.canBuildRoad then RoadActions(b, a.settlements) else [])
    + (if a.canSettle then SettleActions(b, a.roads) else [])
    + (if a.canBuildCity then CityActions(a.settlements) else [])
  }

  /**
   * What any offered action must satisfy: a road only on a free edge, a
   * settlement only on a settleable vertex, a city only on one of the agent's
   * settlements, each only when the agent can afford it.
   */
  ghost predicate Permitted(b: Board, a: Agent, x: Action) {
    match x
    case Road(e) => a.canBuildRoad && e in b.owner && !b.IsOccupied(e)
    case Settle(v) => a.canSettle && b.CanSettle(v)
    case City(v) => a.canBuildCity && v in a.settlements
  }

  /** 0 for roads, 1 for settlements, 2 for cities: the order getLegalActions lists them in. */
  function Rank(a: Action): nat {
    match a
    case Road(_) => 0
    case Settle(_) => 1
    case City(_) => 2
  }

  /** The city targets in a list of actions, in order: a reference reading of the CITY part. */
  function CityTargets(acts: seq<Action>): seq<VertexRef> {
    if acts == [] then []
    else (if acts[0].City? then [acts[0].vertex] else []) + CityTargets(acts[1..])
  }

  // ---------------------------------------------------------------------------
  // Lemmas
  // ---------------------------------------------------------------------------

  /** First-match semantics: the first agent that has won decides, whatever comes after it. */
  lemma {:induction false} WinnerIsFirstMatch(agents: seq<Agent>, k: nat)
    requires k < |agents| && agents[k].hasWon
    requires forall j :: 0 <= j < k ==> !agents[j].hasWon
    ensures Winner(agents) == agents[k].agentIndex
  {
    if k > 0 {
      assert !agents[0].hasWon;
      assert agents[1..][k - 1] == agents[k];
      WinnerIsFirstMatch(agents[1..], k - 1);
    }
  }

  /** -1 exactly when no agent has won. */
  lemma {:induction false} NoWinnerIffNobodyWon(agents: seq<Agent>)
    ensures Winner(agents) == -1 <==> forall k :: 0 <= k < |agents| ==> !agents[k].hasWon
  {
    if agents != [] && !agents[0].hasWon {
      NoWinnerIffNobodyWon(agents[1..]);
      assert forall k :: 1 <= k < |agents| ==> agents[k] == agents[1..][k - 1];
    }
  }

  lemma {:induction false} FreeRoadsSound(b: Board, es: seq<EdgeRef>)
    requires forall k :: 0 <= k < |es| ==> es[k] in b.owner
    ensures forall a :: a in FreeRoads(b, es) ==> a.Road? && a.edge in b.owner && !b.IsOccupied(a.edge)
  {
    if es != [] {
      FreeRoadsSound(b, es[..|es| - 1]);
    }
  }

  /** Every ROAD action names an edge of the board that carries no road. */
  lemma {:induction false} RoadActionsSound(b: Board, ss: seq<VertexRef>)
    requires b.Valid() && forall k :: 0 <= k < |ss| ==> ss[k] in b.edgesOfVertex
    ensures forall a :: a in RoadActions(b, ss) ==> a.Road? && a.edge in b.owner && !b.IsOccupied(a.edge)
  {
    if ss != [] {
      RoadActionsSound(b, ss[..|ss| - 1]);
      FreeRoadsSound(b, b.edgesOfVertex[ss[|ss| - 1]]);
    }
  }

  lemma {:induction false} SettleCandidatesSound(b: Board, vs: seq<VertexRef>)
    ensures forall a :: a in SettleCandidates(b, vs) ==> a.Settle? && b.CanSettle(a.vertex)
  {
    if vs != [] {
      SettleCandidatesSound(b, vs[..|vs| - 1]);
    }
  }

  /** Every SETTLE action names a vertex where a settlement may stand. */
  lemma {:induction false} SettleActionsSound(b: Board, rs: seq<EdgeRef>)
    requires forall k :: 0 <= k < |rs| ==> rs[k] in b.vertexEnds
    ensures forall a :: a in SettleActions(b, rs) ==> a.Settle? && b.CanSettle(a.vertex)
  {
    if rs != [] {
      SettleActionsSound(b, rs[..|rs| - 1]);
      SettleCandidatesSound(b, b.vertexEnds[rs[|rs| - 1]]);
    }
  }

  lemma {:induction false} FreeRoadsIff(b: Board, es: seq<EdgeRef>, e: EdgeRef)
    requires forall k :: 0 <= k < |es| ==> es[k] in b.owner
    ensures Road(e) in FreeRoads(b, es) <==> e in es && !b.IsOccupied(e)
  {
    if es != [] {
      var init := es[..|es| - 1];
      assert es == init + [es[|es| - 1]];
      FreeRoadsIff(b, init, e);
    }
  }

  /** A road is offered exactly on a free edge incident to one of the settlements. */
  lemma {:induction false} RoadActionsIff(b: Board, ss: seq<VertexRef>, e: EdgeRef)
    requires b.Valid() && forall k :: 0 <= k < |ss| ==> ss[k] in b.edgesOfVertex
    ensures Road(e) in RoadActions(b, ss)
      <==> e in b.owner && !b.IsOccupied(e) && exists s :: s in ss && e in b.edgesOfVertex[s]
  {
    if ss != [] {
      var init, last := ss[..|ss| - 1], ss[|ss| - 1];
      assert ss == init + [last];
      RoadActionsIff(b, init, e);
      FreeRoadsIff(b, b.edgesOfVertex[last], e);
      if e in b.edgesOfVertex[last] {
        assert last in ss;
      }
      if exists s :: s in ss && e in b.edgesOfVertex[s] {
        var s :| s in ss && e in b.edgesOfVertex[s];
        assert s == last || s in init;
      }
    }
  }

  lemma {:induction false} SettleCandidatesIff(b: Board, vs: seq<VertexRef>, v: VertexRef)
    ensures Settle(v) in SettleCandidates(b, vs) <==> v in vs && b.CanSettle(v)
  {
    if vs != [] {
      var init := vs[..|vs| - 1];
      assert vs == init + [vs[|vs| - 1]];
      SettleCandidatesIff(b, init, v);
    }
  }

  /** A settlement is offered exactly at a settleable end of one of the roads. */
  lemma {:induction false} SettleActionsIff(b: Board, rs: seq<EdgeRef>, v: VertexRef)
    requires forall k :: 0 <= k < |rs| ==> rs[k] in b.vertexEnds
    ensures Settle(v) in SettleActions(b, rs)
      <==> b.CanSettle(v) && exists r :: r in rs && v in b.vertexEnds[r]
  {
    if rs != [] {
      var init, last := rs[..|rs| - 1], rs[|rs| - 1];
      assert rs == init + [last];
      SettleActionsIff(b, init, v);
      SettleCandidatesIff(b, b.vertexEnds[last], v);
      if v in b.vertexEnds[last] {
        assert last in rs;
      }
      if exists r :: r in rs && v in b.vertexEnds[r] {
        var r :| r in rs && v in b.vertexEnds[r];
        assert r == last || r in init;
      }
    }
  }

  lemma {:induction false} CityTargetsAppend(xs: seq<Action>, ys: seq<Action>)
    ensures CityTargets(xs + ys) == CityTargets(xs) + CityTargets(ys)
  {
    if xs != [] {
      assert (xs + ys)[1..] == xs[1..] + ys;
      CityTargetsAppend(xs[1..], ys);
    } else {
      assert xs + ys == ys;
    }
  }

  lemma {:induction false} CityTargetsNone(xs: seq<Action>)
    requires forall a :: a in xs ==> !a.City?
    ensures CityTargets(xs) == []
  {
    if xs != [] {
      CityTargetsNone(xs[1..]);
    }
  }

  lemma {:induction false} CityTargetsOfCities(ss: seq<VertexRef>)
    ensures CityTargets(CityActions(ss)) == ss
  {
    if ss != [] {
      var init := ss[..|ss| - 1];
      CityTargetsOfCities(init);
      CityTargetsAppend(CityActions(init), [City(ss[|ss| - 1])]);
      assert ss == init + [ss[|ss| - 1]];
    }
  }

  // What one agent is offered, stated on AgentActions so that the winner test
  // and the list index stay out of the proofs.

  lemma AgentRoadIff(b: Board, a: Agent, e: EdgeRef)
    requires b.Valid() && a.OnBoard(b)
    ensures Road(e) in AgentActions(b, a)
      <==> a.canBuildRoad && e in b.owner && !b.IsOccupied(e)
           && exists s :: s in a.settlements && e in b.edgesOfVertex[s]
  {
    RoadActionsIff(b, a.settlements, e);
    SettleActionsSound(b, a.roads);
  }

  lemma AgentSettleIff(b: Board, a: Agent, v: VertexRef)
    requires b.Valid() && a.OnBoard(b)
    ensures Settle(v) in AgentActions(b, a)
      <==> a.canSettle && b.CanSettle(v) && exists r :: r in a.roads && v in b.vertexEnds[r]
  {
    SettleActionsIff(b, a.roads, v);
    RoadActionsSound(b, a.settlements);
  }

  lemma AgentCities(b: Board, a: Agent)
    requires b.Valid() && a.OnBoard(b)
    ensures CityTargets(AgentActions(b, a)) == if a.canBuildCity then a.settlements else []
  {
    var roads := if a.canBuildRoad then RoadActions(b, a.settlements) else [];
    var settles := if a.canSettle then SettleActions(b, a.roads) else [];
    var cities := if a.canBuildCity then CityActions(a.settlements) else [];
    RoadActionsSound(b, a.settlements);
    SettleActionsSound(b, a.roads);
    CityTargetsNone(roads + settles);
    CityTargetsAppend(roads + settles, cities);
    if a.canBuildCity {
      CityTargetsOfCities(a.settlements);
    }
  }

  /** Roads, then settlements, then cities: the ranks along the concatenation never decrease. */
  lemma RanksAscend(roads: seq<Action>, settles: seq<Action>, cities: seq<Action>)
    requires forall x :: x in roads ==> x.Road?
    requires forall x :: x in settles ==> x.Settle?
    requires forall x :: x in cities ==> x.City?
    ensures var r := roads + settles + cities;
      forall j, k :: 0 <= j <= k < |r| ==> Rank(r[j]) <= Rank(r[k])
  {
    var r := roads + settles + cities;
    forall j | 0 <= j < |r|
      ensures Rank(r[j]) == if j < |roads| then 0 else if j < |roads| + |settles| then 1 else 2
    {
      if j < |roads| {
        assert r[j] == roads[j] && roads[j] in roads;
      } else if j < |roads| + |settles| {
        assert r[j] == settles[j - |roads|] && settles[j - |roads|] in settles;
      } else {
        assert r[j] == cities[j - |roads| - |settles|] && cities[j - |roads| - |settles|] in cities;
      }
    }
  }

  lemma AgentOrdered(b: Board, a: Agent)
    requires b.Valid() && a.OnBoard(b)
    ensures var r := AgentActions(b, a);
      forall j, k :: 0 <= j <= k < |r| ==> Rank(r[j]) <= Rank(r[k])
  {
    RoadActionsSound(b, a.settlements);
    SettleActionsSound(b, a.roads);
    RanksAscend(if a.canBuildRoad then RoadActions(b, a.settlements) else [],
                if a.canSettle then SettleActions(b, a.roads) else [],
                if a.canBuildCity then CityActions(a.settlements) else []);
  }

  /** A non-terminal state offers ROAD(e) exactly when the agent may build a road and e is a free edge at one of its settlements. */
  lemma LegalRoadIff(b: Board, agents: seq<Agent>, i: int, e: EdgeRef)
    requires Queryable(b, agents, i) && Winner(agents) == -1
    ensures var a := agents[ListIndex(|agents|, i)];
      Road(e) in LegalActions(b, agents, i)
      <==> a.canBuildRoad && e in b.owner && !b.IsOccupied(e)
           && exists s :: s in a.settlements && e in b.edgesOfVertex[s]
  {
    AgentRoadIff(b, agents[ListIndex(|agents|, i)], e);
  }

  /** On a board whose indices agree, every offered road has one of the agent's settlements at an end. */
  lemma LegalRoadTouchesSettlement(b: Board, agents: seq<Agent>, i: int, e: EdgeRef)
    requires Queryable(b, agents, i) && Winner(agents) == -1 && b.Symmetric()
    requires Road(e) in LegalActions(b, agents, i)
    ensures var a := agents[ListIndex(|agents|, i)];
      e in b.vertexEnds && exists s :: s in a.settlements && s in b.vertexEnds[e]
  {
    var a := agents[ListIndex(|agents|, i)];
    AgentRoadIff(b, a, e);
    var s :| s in a.settlements && e in b.edgesOfVertex[s];
    assert s in b.vertexEnds[e];
  }

  /** A non-terminal state offers SETTLE(v) exactly when the agent may settle and v is a settleable end of one of its roads. */
  lemma LegalSettleIff(b: Board, agents: seq<Agent>, i: int, v: VertexRef)
    requires Queryable(b, agents, i) && Winner(agents) == -1
    ensures var a := agents[ListIndex(|agents|, i)];
      Settle(v) in LegalActions(b, agents, i)
      <==> a.canSettle && b.CanSettle(v) && exists r :: r in a.roads && v in b.vertexEnds[r]
  {
    AgentSettleIff(b, agents[ListIndex(|agents|, i)], v);
  }

  /** The CITY actions are the agent's settlements, one each and in list order, when it may build a city; none otherwise. */
  lemma LegalCities(b: Board, agents: seq<Agent>, i: int)
    requires Queryable(b, agents, i) && Winner(agents) == -1
    ensures var a := agents[ListIndex(|agents|, i)];
      CityTargets(LegalActions(b, agents, i)) == if a.canBuildCity then a.settlements else []
  {
    AgentCities(b, agents[ListIndex(|agents|, i)]);
  }

  /** Every ROAD action precedes every SETTLE action, which precedes every CITY action. */
  lemma LegalActionsOrdered(b: Board, agents: seq<Agent>, i: int)
    requires Queryable(b, agents, i)
    ensures var r := LegalActions(b, agents, i);
      forall j, k :: 0 <= j <= k < |r| ==> Rank(r[j]) <= Rank(r[k])
  {
    if Winner(agents) == -1 {
      AgentOrdered(b, agents[ListIndex(|agents|, i)]);
    }
  }

  // One more element at the end of the input adds its actions at the end of the
  // output: the steps of the loops in GetLegalActions.

  lemma FreeRoadsSnoc(b: Board, es: seq<EdgeRef>, j: nat)
    requires j < |es| && forall k :: 0 <= k < |es| ==> es[k] in b.owner
    ensures FreeRoads(b, es[..j + 1]) == FreeRoads(b, es[..j]) + (if b.IsOccupied(es[j]) then [] else [Road(es[j])])
  {
    assert es[..j + 1][..j] == es[..j];
  }

  lemma RoadActionsSnoc(b: Board, ss: seq<VertexRef>, i: nat)
    requires i < |ss| && b.Valid() && forall k :: 0 <= k < |ss| ==> ss[k] in b.edgesOfVertex
    ensures RoadActions(b, ss[..i + 1]) == RoadActions(b, ss[..i]) + FreeRoads(b, b.edgesOfVertex[ss[i]])
  {
    assert ss[..i + 1][..i] == ss[..i];
  }

  lemma SettleCandidatesSnoc(b: Board, vs: seq<VertexRef>, j: nat)
    requires j < |vs|
    ensures SettleCandidates(b, vs[..j + 1]) == SettleCandidates(b, vs[..j]) + (if b.CanSettle(vs[j]) then [Settle(vs[j])] else [])
  {
    assert vs[..j + 1][..j] == vs[..j];
  }

  lemma SettleActionsSnoc(b: Board, rs: seq<EdgeRef>, i: nat)
    requires i < |rs| && forall k :: 0 <= k < |rs| ==> rs[k] in b.vertexEnds
    ensures SettleActions(b, rs[..i + 1]) == SettleActions(b, rs[..i]) + SettleCandidates(b, b.vertexEnds[rs[i]])
  {
    assert rs[..i + 1][..i] == rs[..i];
  }

  lemma CityActionsSnoc(ss: seq<VertexRef>, i: nat)
    requires i < |ss|
    ensures CityActions(ss[..i + 1]) == CityActions(ss[..i]) + [City(ss[i])]
  {
    assert ss[..i + 1][..i] == ss[..i];
  }

  // ---------------------------------------------------------------------------
  // The three loops of getLegalActions, each appending to the list built so far
  // ---------------------------------------------------------------------------

  /** The ROAD loop: for each settlement, for each incident edge, append it when unoccupied. */
  method AppendRoadActions(legalActions: seq<Action>, b: Board, settlements: seq<VertexRef>)
    returns (acts: seq<Action>)
    requires b.Valid() && forall k :: 0 <= k < |settlements| ==> settlements[k] in b.edgesOfVertex
    ensures acts == legalActions + RoadActions(b, settlements)
  {
    acts := legalActions;
    for i := 0 to |settlements|
      invariant acts == legalActions + RoadActions(b, settlements[..i])
    {
      var settlement := settlements[i];
      var currEdges := b.edgesOfVertex[settlement];
      ghost var before := acts;
      for j := 0 to |currEdges|
        invariant acts == before + FreeRoads(b, currEdges[..j])
      {
        var currEdge := currEdges[j];
        FreeRoadsSnoc(b, currEdges, j);
        if !b.IsOccupied(currEdge) {
          acts := acts + [Road(currEdge)];
        }
      }
      assert currEdges[..|currEdges|] == currEdges;
      RoadActionsSnoc(b, settlements, i);
    }
    assert settlements[..|settlements|] == settlements;
  }

  /** The SETTLE loop: for each road, for each end vertex, append it when it can be settled. */
  method AppendSettleActions(legalActions: seq<Action>, b: Board, roads: seq<EdgeRef>)
    returns (acts: seq<Action>)
    requires forall k :: 0 <= k < |roads| ==> roads[k] in b.vertexEnds
    ensures acts == legalActions + SettleActions(b, roads)
  {
    acts := legalActions;
    for i := 0 to |roads|
      invariant acts == legalActions + SettleActions(b, roads[..i])
    {
      var road := roads[i];
      var possibleSettlements := b.vertexEnds[road];
      ghost var before := acts;
      for j := 0 to |possibleSettlements|
        invariant acts == before + SettleCandidates(b, possibleSettlements[..j])
      {
        var possibleSettlement := possibleSettlements[j];
        SettleCandidatesSnoc(b, possibleSettlements, j);
        if b.CanSettle(possibleSettlement) {
          acts := acts + [Settle(possibleSettlement)];
        }
      }
      assert possibleSettlements[..|possibleSettlements|] == possibleSettlements;
      SettleActionsSnoc(b, roads, i);
    }
    assert roads[..|roads|] == roads;
  }

  /** The CITY loop: append every settlement as a city target. */
  method AppendCityActions(legalActions: seq<Action>, settlements: seq<VertexRef>)
    returns (acts: seq<Action>)
    ensures acts == legalActions + CityActions(settlements)
  {
    acts := legalActions;
    for i := 0 to |settlements|
      invariant acts == legalActions + CityActions(settlements[..i])
    {
      CityActionsSnoc(settlements, i);
      acts := acts + [City(settlements[i])];
    }
    assert settlements[..|settlements|] == settlements;
  }

  /** The body of getLegalActions past the winner test: the three loops, each when the agent can afford it. */
  method CollectActions(b: Board, agent: Agent) returns (legalActions: seq<Action>)
    requires b.Valid() && agent.OnBoard(b)
    ensures legalActions == AgentActions(b, agent)
  {
    ghost var roads := if agent.canBuildRoad then RoadActions(b, agent.settlements) else [];
    ghost var settles := if agent.canSettle then SettleActions(b, agent.roads) else [];
    ghost var cities := if agent.canBuildCity then CityActions(agent.settlements) else [];
    legalActions := [];
    if agent.canBuildRoad {
      legalActions := AppendRoadActions(legalActions, b, agent.settlements);
    }
    assert legalActions == [] + roads;
    if agent.canSettle {
      legalActions := AppendSettleActions(legalActions, b, agent.roads);
    }
    assert legalActions == roads + settles;
    if agent.canBuildCity {
      legalActions := AppendCityActions(legalActions, agent.settlements);
    }
    assert legalActions == roads + settles + cities;
  }

  // ---------------------------------------------------------------------------
  // The game state object
  // ---------------------------------------------------------------------------

  class GameState {
    var board: Board
    var agents: seq<Agent>

    /** A fresh state over a board built from a layout and the players created for it. */
    constructor (board: Board, agents: seq<Agent>)
      ensures this.board == board && this.agents == agents
    {
      this.board, this.agents := board, agents;
    }

    /**
     * `GameState(prevState)`: a copy of the board and of every agent. Boards
     * and agents are values here, so the copy shares nothing that can change.
     */
    constructor Clone(prev: GameState)
      ensures board == prev.board && agents == prev.agents
      ensures GetNumAgents() == prev.GetNumAgents()
    {
      board, agents := prev.board, prev.agents;
    }

    /** `getNumAgents()`: how many agents play; a winner implies at least one. */
    function GetNumAgents(): (n: nat)
      reads this
      ensures n == |agents|
      ensures Winner(agents) >= 0 ==> n > 0
    {
      |agents|
    }

    /** `gameOver()`: the first winner's agentIndex in agent order, or -1. */
    method GameOver() returns (w: int)
      ensures w == Winner(agents)
      ensures w >= 0 <==> exists k :: 0 <= k < |agents| && agents[k].hasWon
    {
      NoWinnerIffNobodyWon(agents);
      for k := 0 to |agents|
        invariant Winner(agents[k..]) == Winner(agents)
      {
        if agents[k].hasWon {
          return agents[k].agentIndex;
        }
        assert agents[k..][1..] == agents[k + 1..];
      }
      assert agents[|agents|..] == [];
      return -1;
    }

    /** `getLegalActions(agentIndex)`: roads, then settlements, then cities; nothing once the game is won. */
    method GetLegalActions(agentIndex: int) returns (legalActions: seq<Action>)
      requires Queryable(board, agents, agentIndex)
      ensures legalActions == LegalActions(board, agents, agentIndex)
      ensures Winner(agents) >= 0 ==> legalActions == []
    {
      legalActions := [];
      var over := GameOver();
      if over >= 0 {
        return;
      }
      var agent := agents[ListIndex(|agents|, agentIndex)];
      legalActions := CollectActions(board, agent);
    }

    /**
     * `generateSuccessor(playerIndex, action)`: refuses a terminal state;
     * otherwise clones this state, raises IndexError when playerIndex selects
     * no agent, and applies the action to the clone's agent
     * at playerIndex (`applyAgent`) and then to the clone's board
     * (`applyBoard`). Either may raise, which None stands for here; the
     * exception then leaves generateSuccessor. This state is not changed.
     */
    method GenerateSuccessor(playerIndex: int, action: Action,
                             applyAgent: (Agent, Action) -> Option<Agent>,
                             applyBoard: (Board, int, Action) -> Option<Board>)
      returns (r: Result<GameState, GameError>)
      ensures unchanged(this)
      ensures Winner(agents) >= 0 ==> r == Err(TerminalState)
      ensures Winner(agents) == -1 && !(-|agents| <= playerIndex < |agents|) ==> r == Err(IndexOutOfRange)
      ensures Winner(agents) == -1 && -|agents| <= playerIndex < |agents| ==>
        var k := ListIndex(|agents|, playerIndex);
        var agent', board' := applyAgent(agents[k], action), applyBoard(board, playerIndex, action);
        && (r.Err? <==> agent'.None? || board'.None?)
        && (r.Err? ==> r.error == ActionRaised)
        && (r.Ok? ==>
              && fresh(r.value)
              && r.value.GetNumAgents() == GetNumAgents()
              && r.value.agents[k] == agent'.value
              && (forall j :: 0 <= j < |agents| && j != k ==> r.value.agents[j] == agents[j])
              && r.value.board == board'.value)
    {
      var over := GameOver();
      if over >= 0 {
        return Err(TerminalState);
      }
      var state := new GameState.Clone(this);
      if !(-|state.agents| <= playerIndex < |state.agents|) {
        return Err(IndexOutOfRange);
      }
      var k := ListIndex(|state.agents|, playerIndex);
      var agent' := applyAgent(state.agents[k], action);
      if agent'.None? {
        return Err(ActionRaised);
      }
      state.agents := state.agents[k := agent'.value];
      var board' := applyBoard(state.board, playerIndex, action);
      if board'.None? {
        return Err(ActionRaised);
      }
      state.board := board'.value;
      return Ok(state);
    }
  }
}
