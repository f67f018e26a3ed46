# Warehouse robots on a toroidal grid

A Dafny model of the warehouse simulation in `2.py`. In that simulation,
robots wander a toroidal Mesa `MultiGrid` that they share with boxes and
pallets. An idle robot that finds a box in its cell picks the box up. A laden
robot that finds a pallet in its cell drops the box onto it, which raises the
pallet's stack count. Any other idle robot steps to a random orthogonal
neighbour. The model is complete when the pallets' stack counts add up to the
number of boxes.

The project has two layers.

* `warehouse_rules.dfy` (module `WarehouseRules`) describes the engine on plain
  values.
  * Agents are numbered as `WarehouseModel.__init__` numbers them: boxes
    `[0, nb)`, then pallets `[nb, nb+np)`, then robots `[nb+np, nb+np+nr)`.
    An agent's kind therefore follows from its id.
  * The grid is a map from the id of every agent still placed on it to its
    cell.
  * Each robot action, a single activation and a whole tick is a function
    from a state to a state. Construction is a function from the initial
    coordinates to a state.
* `warehouse_properties.dfy` (module `WarehouseProperties`) proves the
  following about those functions:
  * which branch an activation takes, and everything it changes and leaves
    alone;
  * box conservation: each box is on the grid, carried, or stacked, across
    every action, activation and tick;
  * every pallet's stack count, the stacked total and every robot's move
    counter never decrease;
  * what holds right after construction.
* `warehouse.dfy` (module `Warehouse`) has the classes as in the source.
  * The classes are `MultiGrid`, `Pallet`, `Robot` and `WarehouseModel`. Their
    fields are updated in place by methods with `modifies` frames.
  * The robot's actions (`Move`, `PickBox`, `DropBox`, `Step`) and the
    model's `Activate` and `Step` are proved to leave `Abs()`, the model's
    state read as a value, equal to the rules function of the old state.
  * The constructor is proved to build the state `WarehouseRules.Init` gives
    for the coordinates.
  * The grid's place, move and remove operations state their new position
    map. `StackOnto` states the updated stack count and robot state. The
    construction helpers state which agents are placed, and where.
  * `WarehouseModel`'s constructor, activation and tick keep the object
    invariant `Valid()`: consistent ids, a well-formed state, and box
    conservation.

Randomness is passed in by the caller:
* the neighbour index used by `move` (`choice < 4`), reduced modulo the
  number of neighbours;
* the activation order of a tick. It must list every agent id below
  nb+np+nr exactly once and nothing else, stated as a multiset over the
  natural numbers. Listing the ids in increasing order is one such order;
* the initial coordinates of every agent.

The tie-break that `boxes[0]` and `pallets[0]` make among several boxes or
pallets in one cell is fixed as the lowest id (`FirstAt`). This matches a
cell list kept in insertion order, because boxes and pallets never move and
are placed in id order.

## Model

| member | source | states |
|---|---|---|
| WarehouseRules.CellsPartitionAgents | 2.py:22 | the cells' occupant sets partition the placed agents: an agent is among the occupants of its own cell, occupants of any cell are placed agents, and distinct cells share no occupant |
| WarehouseRules.FirstAt | 2.py:35-39 | the chosen occupant is in the id range, on the cell, and lower than every other one there; there is none exactly when no agent of the range is on the cell |
| WarehouseRules.SenseEnvironment | 2.py:21-25 | `is_box` holds iff some box stands on the cell; `is_pallet` holds iff some pallet stands on it; each flag agrees with the lookup the pick and drop actions use |
| WarehouseRules.Neighbourhood | 2.py:28 | the von Neumann neighbourhood without centre has at most four cells, all inside the grid and pairwise distinct; it never holds the robot's own cell, and it is empty exactly on a one-cell grid |
| WarehouseRules.NeighbourhoodIsAdjacency | 2.py:61 | on the torus, a cell is in the neighbourhood iff it is inside the grid, differs from the robot's cell, and is orthogonally adjacent with wrap-around (both directions) |
| WarehouseRules.Move | 2.py:27-31 | moving keeps the state well formed: the robot stays on the grid inside its bounds (on a one-cell grid the state is left as it is, see Left out) |
| WarehouseRules.PickBox | 2.py:33-39 | picking keeps the state well formed (only a box leaves the grid) |
| WarehouseRules.DropBox | 2.py:41-47 | dropping keeps the state well formed |
| WarehouseRules.RobotStep | 2.py:49-56 | a robot activation keeps the state well formed |
| WarehouseRules.AgentStep | 2.py:87 | any agent's activation (boxes and pallets do nothing) keeps the state well formed |
| WarehouseRules.Tick | 2.py:86-87 | a tick of activations keeps the state well formed |
| WarehouseRules.Init | 2.py:60-84 | the constructed state is well formed: every agent is placed inside the grid, with one stack count per pallet and one state per robot |
| WarehouseProperties.LadenOffPalletStaysPut | 2.py:41-52 | a laden robot on a cell with no pallet changes nothing at all: it neither drops nor moves |
| WarehouseProperties.LadenOnPalletDrops | 2.py:41-52 | a laden robot on a pallet's cell adds one to one pallet of that cell and becomes idle, and nothing else changes (position, moves, grid, other agents) |
| WarehouseProperties.IdleOnBoxPicks | 2.py:33-39 | an idle robot on a box's cell removes exactly one box of that cell from the grid and becomes laden, and nothing else changes |
| WarehouseProperties.IdleOffBoxMoves | 2.py:27-31 | an idle robot on a cell without a box moves to an in-bounds cell adjacent on the torus, never its own cell, counts exactly one more move, stays idle, and nothing else changes; on a one-cell grid nothing changes |
| WarehouseProperties.MoveConserves | 2.py:27-31 | a move keeps boxes on grid + laden robots + stacked boxes equal to the number of boxes |
| WarehouseProperties.PickBoxConserves | 2.py:33-39 | a pick keeps that sum equal to the number of boxes |
| WarehouseProperties.DropBoxConserves | 2.py:41-47 | a drop keeps that sum equal to the number of boxes |
| WarehouseProperties.RobotStepConserves | 2.py:49-56 | every robot activation conserves boxes |
| WarehouseProperties.AgentStepConserves | 2.py:87 | every agent activation conserves boxes |
| WarehouseProperties.TickConserves | 2.py:86-87 | a whole tick conserves boxes, for every activation order and every move choice |
| WarehouseProperties.NoneCarryingIff | 2.py:18 | the laden count is zero iff no robot carries a box |
| WarehouseProperties.StackedMeansDelivered | 2.py:89-91 | under conservation the stacked total never exceeds the number of boxes, and completion holds iff no box is left on the grid and no robot is laden |
| WarehouseProperties.RobotStepProgresses | 2.py:31 | a robot activation never lowers any pallet's stack count, the stacked total or any robot's move count |
| WarehouseProperties.AgentStepProgresses | 2.py:46 | an agent activation never lowers any pallet's stack count, the stacked total or any robot's move count |
| WarehouseProperties.TickProgresses | 2.py:86-87 | across a tick each pallet's stack count, the stacked total and each robot's move count are non-decreasing |
| WarehouseProperties.IdOrderIsActivationOrder | 2.py:62 | activating every agent once in increasing id order is an activation order, so a tick can always be taken |
| WarehouseProperties.InitialState | 2.py:65-84 | after construction: exactly the ids below nb+np+nr are placed, every robot is idle with 0 moves, every pallet is at 0, boxes are conserved, and the model is complete iff there are no boxes |
| Warehouse.MultiGrid.constructor | 2.py:61 | a new grid has the given size and no agents |
| Warehouse.MultiGrid.PlaceAgent | 2.py:70 | placing adds the agent on the given cell and changes nothing else |
| Warehouse.MultiGrid.MoveAgent | 2.py:30 | moving puts the agent on the given cell and changes nothing else |
| Warehouse.MultiGrid.RemoveAgent | 2.py:39 | removing takes the agent off the grid and changes nothing else |
| Warehouse.Pallet.constructor | 2.py:10-13 | a new pallet has its id and a stack count of 0 |
| Warehouse.Robot.constructor | 2.py:15-19 | a new robot has its id, is not carrying and has 0 moves |
| Warehouse.Robot.SenseEnvironment | 2.py:21-25 | `is_box` holds iff a box shares the robot's cell; `is_pallet` holds iff a pallet does |
| Warehouse.Robot.Move | 2.py:27-31 | the robot moves to the chosen neighbour and counts the move, exactly as `WarehouseRules.Move` says |
| Warehouse.Robot.PickBox | 2.py:33-39 | the grid and the robot change exactly as `WarehouseRules.PickBox` says |
| Warehouse.Robot.DropBox | 2.py:41-47 | the pallets and the robot change exactly as `WarehouseRules.DropBox` says |
| Warehouse.Robot.StackOnto | 2.py:46-47 | pallet k's stack count rises by one, the robot becomes idle, and nothing else changes |
| Warehouse.Robot.Step | 2.py:49-56 | the model changes exactly as `WarehouseRules.RobotStep` says |
| Warehouse.PlaceBoxes | 2.py:65-70 | the boxes, and only they, are placed, each on its coordinates |
| Warehouse.NewPallets | 2.py:72-77 | fresh pallets with consecutive ids and empty stacks are created, and each is placed on its coordinates |
| Warehouse.NewRobots | 2.py:79-84 | fresh idle robots with consecutive ids and 0 moves are created, and each is placed on its coordinates |
| Warehouse.WarehouseModel.constructor | 2.py:60-84 | the built model is valid, has the given configuration, and its state is `WarehouseRules.Init` of the coordinates |
| Warehouse.WarehouseModel.AllBoxesStacked | 2.py:89-91 | the model is complete iff the stack counts sum to the number of boxes; when the model is valid, iff no box is left on the grid and no robot is laden |
| Warehouse.WarehouseModel.Activate | 2.py:87 | one agent's activation keeps the model valid and changes it as `WarehouseRules.AgentStep` says |
| Warehouse.WarehouseModel.ActivateRobot | 2.py:87 | activating robot r changes the model as `WarehouseRules.RobotStep` says |
| Warehouse.WarehouseModel.ValidAfterStep | 2.py:87 | a model whose state is one activation of a well-formed, box-conserving state is valid again |
| Warehouse.WarehouseModel.Step | 2.py:86-87 | a tick over a permutation of all agents keeps the model valid and changes it as `WarehouseRules.Tick` says |

## Left out

- The visualisation and the server (`agent_portrayal`, `CanvasGrid`, `ModularServer`, the port and `launch`, 2.py:93-114) are not modelled. They are presentation and I/O only.
- The module-level parameter values (2.py:103-106) are not modelled. They are configuration; the model takes any sizes and counts.
- Random number generation (`random.choice`, `randrange`, and the shuffle of `RandomActivation`) is not modelled. Its outcomes are parameters: the neighbour index, the initial coordinates, and the activation order. Distributions and seeding are not modelled.
- Mesa's library code is not part of this model. `MultiGrid` is reduced to a map from agent id to cell, with place, move and remove. The scheduler is reduced to "activate each agent once in the given order". Its step and time counters are not modelled.
- `RandomActivation` holds every added agent, so removed boxes are still activated. Their step, like a pallet's, does nothing, and the model does the same.
- The order of Mesa's neighbour list is not part of this model. The model fixes one order (left, down, up, right). Like Mesa, it drops the robot's own cell and cells listed twice, which happens when the width or the height is below 3. The random index is a parameter, so on a given grid only the set of cells matters.
- WarehouseRules.Move: on a 1×1 grid the neighbourhood is empty, and `random.choice` in 2.py:29 raises `IndexError`. The model does not raise. It leaves the state unchanged, and `IdleOffBoxMoves` states that case.
- The order of a cell's occupant list is Mesa's. The model fixes the tie-break as the lowest id, which is the insertion order for boxes and pallets (they never move, and they are placed in id order).
- `randrange` fails on a zero-sized grid. The model requires every coordinate to lie inside the grid, so a grid with no cells admits no coordinates for a nonempty warehouse.
- Negative agent counts, for which Python's `range` is empty, are not modelled. Counts, stack counts and move counters are `nat`.
- Warehouse.Robot.Step: this method, and `Move`, `PickBox` and `DropBox`, are not stated to keep the invariant themselves. They state the new state exactly; `WarehouseModel.Activate` re-establishes `Valid()` from that state with the conservation lemmas.
- No driver loop, step budget or movement history is modelled. `2.py` does not contain any of these.
