# Catan game state and road slots, in Dafny

This project models two parts of a turn-based Settlers-of-Catan simulator and
proves properties of them.

- **GameState** (`game.py`): a board plus the ordered list of agents (players).
  - `getLegalActions` lists the moves one agent may make.
  - `gameOver` names the first agent that has won.
  - `generateSuccessor` clones the state and applies one move to the clone.
  - `getNumAgents` counts the agents.
  - The cloning branch of the constructor copies the board and every agent.
- **Edge** (the road slot, as `Tests/edgeTests.py` pins it down): coordinates
  `X` and `Y` and an optional owning `player`. `build` claims the slot once.
  `isOccupied` reports ownership. The string form is `Unoccupied (x, y)` or
  `R<p> (x, y)`. `deepCopy` gives an independent object.

Files:

- `wrappers.dfy`: `Option` and `Result`.
- `decimal.dfy`: Python's `str(int)` and its parser.
- `edge.dfy`: the `Edge` class, its string form and a parser for that form. It also has client methods that replay each test of `Tests/edgeTests.py`.
- `board.dfy`: the board as the game state sees it. It holds vertex→edges and edge→ends adjacency, an edge-owner map and the set of settleable vertices. `Action` is `Road(edge) | Settle(vertex) | City(vertex)`.
- `agent.dfy`: an agent's index, settlements, roads, cities, its three affordability verdicts and `hasWon`.
- `game_state.dfy`: specification functions for the legal actions and the winner, the lemmas about them, and the `GameState` class.
- `settle_defect.dfy`: the SETTLE branch of `getLegalActions` exactly as written. It comes with lemmas that show how it differs from the intended branch.

Boards and agents are values. A cloned state therefore shares nothing mutable
with its original. `GenerateSuccessor` allocates the clone and reassigns its
fields, and its receiver is framed as unchanged. `board.py` and `agent.py` are
not part of this model. Their `applyAction` operations are opaque: they are
passed to `GenerateSuccessor` as function parameters. The agent predicates
`canBuildRoad`, `canSettle`, `canBuildCity` and `hasWon` are fields of the
agent.

Python's list indexing is modelled with its negative indices (`ListIndex`).
The precondition of `getLegalActions` applies only when the game is not over,
because the method returns before indexing once someone has won. It then asks
for three things:
- the agent index is in range;
- the board invariant holds (an owner slot and two ends per edge, and every edge listed at a vertex is an edge of the board);
- the agent's settlements and roads are on the board.

This is the state every board and agent of a game is in. It is more than a
single call needs: a city-only agent, for one, never has its settlements
looked up.

The model follows the code where it is narrower than the usual rules:
- ROAD actions are offered only on edges at the agent's settlements, not at its cities.
- The winner test is the agent's `hasWon()`, not a victory-point threshold.

## Model

| member | source | states |
|---|---|---|
| `Edges.Edge.constructor` | Tests/edgeTests.py:25-38 | `Edge(x, y)` and `Edge(x, y, p)` start with `X = x`, `Y = y` and the given player. The player argument defaults to none |
| `Edges.Edge.IsOccupied` | Tests/edgeTests.py:77-90 | An edge is occupied exactly when its string form carries a player tag instead of `Unoccupied` |
| `Edges.Edge.Build` | Tests/edgeTests.py:132-158 | On an unowned edge the build succeeds and sets `player = p`. On an owned edge it fails (by the same player or another) and the player stays as it was. `X` and `Y` never change. Afterwards the edge is occupied |
| `Edges.Edge.ToString` | Tests/edgeTests.py:52-64 | The string form reads back to exactly `(X, Y, player)`. It starts with `R` when occupied and with `U` otherwise |
| `Edges.EdgeStringRoundTrip` | Tests/edgeTests.py:52-64 | Parsing `Unoccupied (x, y)` / `R<p> (x, y)` gives back x, y and the player, for all integers, negative ones included |
| `Edges.EdgeStringInjective` | Tests/edgeTests.py:52-64 | Two edges have the same string form if and only if their coordinates and owner are equal |
| `Edges.PrintedForms` | Tests/edgeTests.py:52-64 | The four strings the print test expects: `Unoccupied (1, 2)`, `R5 (1, 2)`, `Unoccupied (5, 6)`, `R2 (5, 6)` |
| `Edges.Edge.DeepCopy` | Tests/edgeTests.py:102-118 | The copy is a fresh object, so it is distinct from the original and later writes to the original cannot reach it. Its fields are equal to the original's |
| `Decimal.ParseIntToString` | Tests/edgeTests.py:52-64 | The decimal text Python's `str` gives an int reads back to that int |
| `GameStates.Winner` | game.py:133-137 | The winner test gives -1, or the `agentIndex` of some agent that has won |
| `GameStates.WinnerIsFirstMatch` | game.py:134-136 | Take the first agent in list order that has won. The winner test gives its `agentIndex`, whatever follows it |
| `GameStates.NoWinnerIffNobodyWon` | game.py:134-137 | The winner test gives -1 exactly when no agent has won |
| `GameStates.GameState.GameOver` | game.py:125-137 | The early-return loop gives the first match (`Winner`). The result is >= 0 exactly when some agent has won |
| `GameStates.LegalActions` | game.py:43-87 | The reference reading (SETTLE branch as intended). It is empty once someone has won. Every action it offers is permitted: a road on a free edge when the agent may build roads, a settlement on a settleable vertex when it may settle, a city on one of its settlements when it may build cities |
| `GameStates.AgentActions` | game.py:58-87 | What the selected agent is offered once the game is not over: its road, settle and city parts, each only when it can afford them. Every action is permitted by its flag and its location |
| `GameStates.ListIndex` | game.py:58 | Python's `xs[i]` for `-len(xs) <= i < len(xs)`: a position inside the list that agrees with `i` modulo the length, so negative indices count from the end |
| `GameStates.GameState.GetLegalActions` | game.py:43-87 | The result is the roads, then the settlements, then the cities of `LegalActions`. It is empty once the game is won, for every agent index |
| `GameStates.CollectActions` | game.py:60-85 | Past the winner test, the three guarded loops build exactly the agent's road, settle and city parts, in this order |
| `GameStates.AppendRoadActions` | game.py:61-68 | The nested road loop appends exactly the road actions for the settlements, in iteration order |
| `GameStates.AppendSettleActions` | game.py:71-78 | The nested settle loop (intended reading) appends exactly the settle actions for the roads, in iteration order |
| `GameStates.AppendCityActions` | game.py:81-85 | The city loop appends one city action per settlement, in order |
| `GameStates.CityActions` | game.py:84-85 | There is one `City(s)` per settlement, position by position |
| `GameStates.FreeRoadsSound` | game.py:66-68 | Each action from one settlement's edges is a road on an unoccupied edge |
| `GameStates.FreeRoadsIff` | game.py:66-68 | `Road(e)` is offered there exactly when `e` is among the edges and unoccupied |
| `GameStates.RoadActionsSound` | game.py:64-68 | Every action of the road loop is a road on an unoccupied edge of the board |
| `GameStates.RoadActionsIff` | game.py:64-68 | Suppose `e` is an unoccupied edge. `Road(e)` is offered exactly when `e` is incident to one of the settlements |
| `GameStates.SettleCandidatesSound` | game.py:76-78 | Each action from one road's ends is a settle action at a settleable vertex |
| `GameStates.SettleCandidatesIff` | game.py:76-78 | `Settle(v)` is offered there exactly when `v` is an end of that road and `canSettle` holds |
| `GameStates.SettleActionsSound` | game.py:74-78 | Every action of the settle loop is a settle action at a settleable vertex |
| `GameStates.SettleActionsIff` | game.py:74-78 | `Settle(v)` is offered exactly when `v` is settleable and is an end of one of the roads |
| `GameStates.LegalRoadIff` | game.py:54-68 | In a non-terminal state, `Road(e)` is offered exactly when all of these hold: `canBuildRoad()`, `e` is unoccupied, and `e` is at one of the agent's settlements. So no ROAD action appears when `canBuildRoad()` is false |
| `GameStates.LegalRoadTouchesSettlement` | game.py:64-68 | On a board whose two adjacency indices agree, every offered road has one of the agent's settlements at one of its ends |
| `GameStates.LegalSettleIff` | game.py:71-78 | In a non-terminal state, `Settle(v)` is offered exactly when all of these hold: `canSettle()`, `v` is settleable, and `v` is an end of one of the agent's roads. So none appear when `canSettle()` is false |
| `GameStates.CityTargetsOfCities` | game.py:84-85 | Reading the city targets back from the city actions gives the settlements, in order |
| `GameStates.LegalCities` | game.py:81-85 | The city targets of the legal actions are exactly the agent's settlements, in list order, when `canBuildCity()` holds. Otherwise there are none |
| `GameStates.LegalActionsOrdered` | game.py:60-87 | Every ROAD action precedes every SETTLE action, which precedes every CITY action |
| `GameStates.GameState.GetNumAgents` | game.py:114-123 | The number of agents. It is positive whenever someone has won |
| `GameStates.GameState.constructor` | game.py:39-41 | A fresh state holds the given board and agents |
| `GameStates.GameState.Clone` | game.py:36-38 | The clone holds equal copies of the board and of every agent, and the same number of agents |
| `GameStates.GameState.GenerateSuccessor` | game.py:104-112 | On a terminal state it fails with `TerminalState`. Otherwise, when `playerIndex` selects no agent (Python's IndexError), it fails with `IndexOutOfRange`. With a valid index it fails with `ActionRaised` exactly when the agent's or the board's `applyAction` raises. If neither raises, it returns a fresh state with the same number of agents. In it, `agents[playerIndex]` and the board have had `applyAction` applied, and every other agent is unchanged. The receiver is unchanged in every case |
| `SettleDefect.SettleActionsAsWritten` | game.py:71-78 | As written, the branch yields one entry per end vertex of every road (when the agent may settle), each entry the agent's last settlement. It raises NameError exactly when that loop body runs and the ROAD loop bound no settlement |
| `SettleDefect.LegalActionsAsWritten` | game.py:54-87 | As written, a won game offers nothing. When no exception is raised, every action other than SETTLE is offered exactly when the intended reading offers it |
| `SettleDefect.AsWrittenProposesLastSettlement` | game.py:74-78 | As written, every SETTLE action offered is the agent's last settlement |
| `SettleDefect.AsWrittenRaisesWithoutRoadLoop` | game.py:61-78 | As written, the branch raises NameError in one case. The conditions are: `canSettle()` holds, `canBuildRoad()` does not, and a road has ends |
| `SettleDefect.AsWrittenCounterexample` | game.py:71-78 | A concrete state where the code as written offers `SETTLE(A)` twice, and the intended code offers `SETTLE(B)` once |

## Left out

- `Game` (game.py:140-290) is left out as turn-loop glue: the console I/O, drawing, dice rolls and move history. So are the module-level `game.run()` and the shared default `GameState()` argument.
- `GameStates.GameState.constructor`: the fresh branch of `GameState.__init__` (game.py:39-41) is not modelled in full. It builds a `Board` from a layout and `NUM_PLAYERS` agents. Board construction and the layout tables are not part of this model, so the constructor receives the board and agents ready-made.
- `Board`, `Vertex` and `Hexagon` internals (`board.py`) are not part of this model. Adjacency is given as maps. `canSettle` and the distance rule it encodes are reduced to a set of settleable vertices.
- Agent internals (`agent.py`) are not part of this model. This covers resources, costs, victory points, `updateResources`, `collectInitialResources` and `getAction`. The agent's affordability predicates and `hasWon()` are plain flags.
- `GameStates.GameState.GenerateSuccessor`: `Agent.applyAction` and `Board.applyAction` are opaque function parameters. The contract says nothing about what they do to the agent or the board. It also says nothing about when they raise: a raise is their result `None`, passed on as `ActionRaised`, and which exception was raised is not kept.
- Identity of board objects: vertices and edges are named by coordinates. The model does not capture that an action's location object belongs to the receiver's board while it is applied to the clone.
- `Edge` in `board.py` is not part of this model. The class is modelled from what `Tests/edgeTests.py` asserts. Its `raise` on a second build becomes the `AlreadyBuilt` result. Python's `is` comparisons of small integers become equality.
- The test harness `runAllTests` and its printing are left out. The client methods in `edge.dfy` replay each test's assertions instead.

## Findings

| source | as written | input that shows it | evidently intended | confidence | as-written member | corrected member |
|---|---|---|---|---|---|---|
| game.py:77-78 | Appends `(SETTLE, settlement)`, where `settlement` is left over from the ROAD loop at game.py:64, not the candidate `possibleSettlement`. It also tests `possibleSettlement.canSettle` without calling it, so the test is always true. If the ROAD loop never ran, this raises NameError | An agent that may build roads and settle, with a settlement at A and a road from A to B, where B may be settled and A may not | Append `(SETTLE, possibleSettlement)` when `possibleSettlement.canSettle()` holds | not executed; high | `SettleDefect.AsWrittenCounterexample` | `GameStates.LegalSettleIff` |
