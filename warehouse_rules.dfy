/**
 * The warehouse engine's rules on plain values.
 *
 * A warehouse is a toroidal grid shared by three kinds of agent: boxes,
 * pallets (each with a stack count) and robots (each carrying a box or not,
 * and counting its moves). Agents are numbered as the model's constructor
 * numbers them: boxes first, then pallets, then robots, so the kind of an
 * agent is a function of its id. The grid is a map from the id of every agent
 * still placed on it to its cell; several agents may share a cell.
 *
 * Every action, activation and tick of the engine is a function from a
 * State to a State here, and construction is a function from the initial
 * coordinates to a State; the robot and model methods in module Warehouse
 * are proved to change their fields exactly as these functions say.
 */
module WarehouseRules {

  datatype Option<T> = None | Some(value: T)

  /** A cell of the grid, as Mesa's (x, y) coordinate pair. */
  datatype Pos = Pos(x: nat, y: nat)

  /** The construction parameters of a warehouse. */
  datatype Config = Config(width: nat, height: nat, numBoxes: nat, numPallets: nat, numRobots: nat)
  {
    function NumAgents(): nat { numBoxes + numPallets + numRobots }

    /** The id given to the k-th pallet and to the k-th robot. */
    function PalletId(k: nat): nat { numBoxes + k }
    function RobotId(k: nat): nat { numBoxes + numPallets + k }

    /** The kind of agent id, as the constructor's numbering fixes it. */
    predicate IsBox(id: nat) { id < numBoxes }
    predicate IsPallet(id: nat) { numBoxes <= id < numBoxes + numPallets }
    predicate IsRobot(id: nat) { numBoxes + numPallets <= id < NumAgents() }

    predicate InBounds(p: Pos) { p.x < width && p.y < height }
  }

  /** What a robot remembers: whether it is laden, and how often it has moved. */
  datatype RobotState = RobotState(carrying: bool, movements: nat)

  /**
   * The whole simulation state: the grid (agent id to cell, for the agents
   * still on it), the k-th pallet's stack count and the k-th robot's state.
   */
  datatype State = State(pos: map<nat, Pos>, stacks: seq<nat>, robots: seq<RobotState>)

  /**
   * Well-formedness: one entry per pallet and per robot, every placed agent is
   * a known agent standing inside the grid, and pallets and robots never leave
   * the grid (only boxes are removed from it).
   */
  ghost predicate Wf(c: Config, s: State)
  {
    && |s.stacks| == c.numPallets
    && |s.robots| == c.numRobots
    && (forall id :: id in s.pos ==> id < c.NumAgents() && c.InBounds(s.pos[id]))
    && (forall k :: 0 <= k < c.numPallets ==> c.PalletId(k) in s.pos)
    && (forall k :: 0 <= k < c.numRobots ==> c.RobotId(k) in s.pos)
  }

  // ---------------------------------------------------------------------------
  // Grid queries
  // ---------------------------------------------------------------------------

  /** The ids of the agents standing on cell p. */
  function CellContents(pos: map<nat, Pos>, p: Pos): set<nat>
  {
    set id | id in pos && pos[id] == p
  }

  /**
   * The cells partition the placed agents: every placed agent is among the
   * occupants of exactly one cell, its own, and no unplaced id is in any.
   */
  lemma CellsPartitionAgents(pos: map<nat, Pos>, id: nat, p: Pos, q: Pos)
    ensures id in CellContents(pos, p) ==> id in pos
    ensures id in pos ==> id in CellContents(pos, pos[id])
    ensures p != q ==> CellContents(pos, p) !! CellContents(pos, q)
  {
  }

  /**
   * The lowest id in [lo, hi) standing on cell p, if any. Boxes and pallets
   * never move and are placed in id order, so this is the first box (or
   * pallet) in the cell's insertion-ordered list of occupants.
   */
  function FirstAt(pos: map<nat, Pos>, p: Pos, lo: nat, hi: nat): (r: Option<nat>)
    decreases hi - lo
    ensures r.Some? ==> lo <= r.value < hi && r.value in pos && pos[r.value] == p
    ensures r.Some? ==> forall id :: lo <= id < r.value ==> !(id in pos && pos[id] == p)
    ensures r.None? <==> forall id :: lo <= id < hi ==> !(id in pos && pos[id] == p)
  {
    if lo >= hi then None
    else if lo in pos && pos[lo] == p then Some(lo)
    else FirstAt(pos, p, lo + 1, hi)
  }

  /** The two facts a robot senses about its own cell. */
  datatype Senses = Senses(isBox: bool, isPallet: bool)

  /** Whether a box, and whether a pallet, is among the occupants of cell here. */
  function SenseEnvironment(c: Config, pos: map<nat, Pos>, here: Pos): (r: Senses)
    ensures r.isBox <==> exists id :: id in pos && pos[id] == here && c.IsBox(id)
    ensures r.isBox <==> FirstAt(pos, here, 0, c.numBoxes).Some?
    ensures r.isPallet <==> exists k: nat :: k < c.numPallets && c.PalletId(k) in pos && pos[c.PalletId(k)] == here
    ensures r.isPallet <==> FirstAt(pos, here, c.numBoxes, c.numBoxes + c.numPallets).Some?
  {
    var cell := CellContents(pos, here);
    assert forall id :: id in cell <==> id in pos && pos[id] == here;
    var isBox := exists id | id in cell :: c.IsBox(id);
    var isPallet := exists id | id in cell :: c.IsPallet(id);
    assert isPallet ==> exists k: nat :: k < c.numPallets && c.PalletId(k) in pos && pos[c.PalletId(k)] == here by {
      if isPallet {
        var id :| id in cell && c.IsPallet(id);
        assert c.PalletId(id - c.numBoxes) == id;
      }
    }
    Senses(isBox, isPallet)
  }

  /**
   * Orthogonal adjacency on the torus: q is a cell other than p one step
   * left, right, up or down from p, wrapping at the edges.
   */
  predicate Adjacent(width: nat, height: nat, p: Pos, q: Pos)
  {
    && width > 0 && height > 0
    && p != q
    && (|| (p.y == q.y && (q.x == (p.x + 1) % width || p.x == (q.x + 1) % width))
        || (p.x == q.x && (q.y == (p.y + 1) % height || p.y == (q.y + 1) % height)))
  }

  /**
   * The four cells one step from p on the torus, in the order the
   * von Neumann scan meets them: x - 1 and x + 1 taken modulo the width,
   * y - 1 and y + 1 modulo the height. Both moduli are positive, so Dafny's %
   * agrees with Python's here.
   */
  function WrappedSteps(width: nat, height: nat, p: Pos): (r: seq<Pos>)
    requires p.x < width && p.y < height
    ensures |r| == 4
    ensures forall i :: 0 <= i < |r| ==> r[i].x < width && r[i].y < height
  {
    [Pos(((p.x as int) - 1) % width, p.y),
     Pos(p.x, ((p.y as int) - 1) % height),
     Pos(p.x, (p.y + 1) % height),
     Pos((p.x + 1) % width, p.y)]
  }

  /**
   * The cells of xs other than p, each once, in the order of their first
   * occurrence: what collecting the wrapped cells as keys of an
   * insertion-ordered dictionary and then removing the centre leaves.
   */
  function DistinctOthers(xs: seq<Pos>, p: Pos): (r: seq<Pos>)
    ensures forall q :: q in r <==> q in xs && q != p
    ensures forall i, j :: 0 <= i < j < |r| ==> r[i] != r[j]
    ensures |r| <= |xs|
  {
    if xs == [] then []
    else
      var rest := DistinctOthers(xs[..|xs| - 1], p);
      var last := xs[|xs| - 1];
      assert forall q :: q in xs <==> q in xs[..|xs| - 1] || q == last by {
        assert xs == xs[..|xs| - 1] + [last];
      }
      if last == p || last in rest then rest else rest + [last]
  }

  /**
   * The von Neumann neighbourhood of p (radius 1, centre excluded) on a
   * toroidal grid. On a grid one cell wide or high a step can wrap back to
   * p or reach the same cell both ways; such cells are dropped or kept once.
   */
  function Neighbourhood(width: nat, height: nat, p: Pos): (r: seq<Pos>)
    requires p.x < width && p.y < height
    ensures |r| <= 4
    ensures forall i :: 0 <= i < |r| ==> r[i].x < width && r[i].y < height
    ensures p !in r
    ensures forall i, j :: 0 <= i < j < |r| ==> r[i] != r[j]
    ensures |r| == 0 <==> width == 1 && height == 1
  {
    var steps := WrappedSteps(width, height, p);
    WrapStep(p.x, width);
    WrapStep(p.y, height);
    assert width > 1 ==> steps[3] != p;
    assert height > 1 ==> steps[2] != p;
    assert width == 1 && height == 1 ==> forall q :: q in steps ==> q == p;
    var r := DistinctOthers(steps, p);
    assert forall i :: 0 <= i < |r| ==> r[i] in r;
    assert width > 1 ==> steps[3] in r;
    assert height > 1 ==> steps[2] in r;
    assert |r| > 0 ==> r[0] in r;
    r
  }

  /**
   * The neighbourhood holds exactly the cells adjacent to p on the torus
   * (never p itself).
   */
  lemma NeighbourhoodIsAdjacency(width: nat, height: nat, p: Pos)
    requires p.x < width && p.y < height
    ensures forall q: Pos :: q in Neighbourhood(width, height, p) <==>
              q.x < width && q.y < height && Adjacent(width, height, p, q)
  {
    WrapStep(p.x, width);
    WrapStep(p.y, height);
    forall q: Pos | q.x < width && q.y < height
      ensures q != p ==> (q in WrappedSteps(width, height, p) <==> Adjacent(width, height, p, q))
    {
      WrapStep(q.x, width);
      WrapStep(q.y, height);
    }
  }

  /** Stepping back and forth by one on a ring of n cells. */
  lemma WrapStep(a: nat, n: nat)
    requires a < n
    ensures ((a as int) - 1) % n == if a == 0 then n - 1 else a - 1
    ensures (a + 1) % n == if a + 1 == n then 0 else a + 1
  {
  }

  // ---------------------------------------------------------------------------
  // Counting
  // ---------------------------------------------------------------------------

  function Sum(xs: seq<nat>): nat
  {
    if xs == [] then 0 else xs[0] + Sum(xs[1..])
  }

  /** The number of laden robots. */
  function CarryingCount(rs: seq<RobotState>): nat
  {
    if rs == [] then 0 else (if rs[0].carrying then 1 else 0) + CarryingCount(rs[1..])
  }

  /** The boxes still standing on the grid. */
  function BoxesOnGrid(c: Config, pos: map<nat, Pos>): set<nat>
  {
    set id | id in pos && id < c.numBoxes
  }

  /** Box conservation: every box is on the grid, carried, or counted on a pallet. */
  ghost predicate Conserved(c: Config, s: State)
  {
    |BoxesOnGrid(c, s.pos)| + CarryingCount(s.robots) + Sum(s.stacks) == c.numBoxes
  }

  /** The completion predicate: the pallets' stack counts add up to the number of boxes. */
  function AllBoxesStacked(c: Config, s: State): bool
  {
    Sum(s.stacks) == c.numBoxes
  }

  // ---------------------------------------------------------------------------
  // The robot's actions
  // ---------------------------------------------------------------------------

  /** The cell robot r stands on. */
  function RobotCell(c: Config, s: State, r: nat): Pos
    requires Wf(c, s) && r < c.numRobots
  {
    s.pos[c.RobotId(r)]
  }

  /**
   * Robot r moves to a cell of its neighbourhood, the one the random index
   * choice picks (reduced modulo the number of neighbours), and counts the
   * move. A robot on a one-cell grid has no neighbour; the state then stays
   * as it is.
   */
  function Move(c: Config, s: State, r: nat, choice: nat): (t: State)
    requires Wf(c, s) && r < c.numRobots && choice < 4
    ensures Wf(c, t)
  {
    var id := c.RobotId(r);
    var steps := Neighbourhood(c.width, c.height, s.pos[id]);
    if |steps| == 0 then s
    else
      var target := steps[choice % |steps|];
      s.(pos := s.pos[id := target],
         robots := s.robots[r := s.robots[r].(movements := s.robots[r].movements + 1)])
  }

  /**
   * An idle robot r on a cell holding a box takes the lowest-numbered box
   * there off the grid and becomes laden; otherwise nothing happens.
   */
  function PickBox(c: Config, s: State, r: nat): (t: State)
    requires Wf(c, s) && r < c.numRobots
    ensures Wf(c, t)
  {
    if s.robots[r].carrying then s
    else match FirstAt(s.pos, RobotCell(c, s, r), 0, c.numBoxes)
      case None => s
      case Some(b) =>
        s.(pos := s.pos - {b},
           robots := s.robots[r := s.robots[r].(carrying := true)])
  }

  /**
   * A laden robot r on a cell holding a pallet adds one to the stack count of
   * the lowest-numbered pallet there and becomes idle; otherwise nothing
   * happens.
   */
  function DropBox(c: Config, s: State, r: nat): (t: State)
    requires Wf(c, s) && r < c.numRobots
    ensures Wf(c, t)
  {
    if !s.robots[r].carrying then s
    else match FirstAt(s.pos, RobotCell(c, s, r), c.numBoxes, c.numBoxes + c.numPallets)
      case None => s
      case Some(id) =>
        var k := id - c.numBoxes;
        s.(stacks := s.stacks[k := s.stacks[k] + 1],
           robots := s.robots[r := s.robots[r].(carrying := false)])
  }

  /**
   * One activation of robot r: a laden robot tries to drop (and does nothing
   * else, even off a pallet), an idle robot on a box picks it, and any other
   * robot moves. The sensed pallet flag is computed and not used.
   */
  function RobotStep(c: Config, s: State, r: nat, choice: nat): (t: State)
    requires Wf(c, s) && r < c.numRobots && choice < 4
    ensures Wf(c, t)
  {
    var sensed := SenseEnvironment(c, s.pos, RobotCell(c, s, r));
    if s.robots[r].carrying then DropBox(c, s, r)
    else if sensed.isBox then PickBox(c, s, r)
    else Move(c, s, r, choice)
  }

  /** One activation of agent id: robots act, boxes and pallets do nothing. */
  function AgentStep(c: Config, s: State, id: nat, choice: nat): (t: State)
    requires Wf(c, s) && choice < 4
    ensures Wf(c, t)
  {
    if c.RobotId(0) <= id < c.NumAgents() then RobotStep(c, s, id - c.RobotId(0), choice)
    else s
  }

  /**
   * The random activation order of a tick: every one of the agents (removed
   * boxes included, since they stay in the schedule) exactly once.
   */
  ghost predicate IsActivationOrder(c: Config, order: seq<nat>)
  {
    forall id: nat :: multiset(order)[id] == if id < c.NumAgents() then 1 else 0
  }

  /**
   * A tick: the agents in order activate one after another, the k-th
   * activation using choices[k] if it is a robot that moves.
   */
  function Tick(c: Config, s: State, order: seq<nat>, choices: seq<nat>): (t: State)
    requires Wf(c, s)
    requires |choices| == |order| && forall k :: 0 <= k < |choices| ==> choices[k] < 4
    ensures Wf(c, t)
    decreases |order|
  {
    if |order| == 0 then s
    else
      var n := |order| - 1;
      AgentStep(c, Tick(c, s, order[..n], choices[..n]), order[n], choices[n])
  }

  // ---------------------------------------------------------------------------
  // Construction
  // ---------------------------------------------------------------------------

  /**
   * The state right after construction: agent id stands on coords[id] (the
   * random coordinates are a parameter), every pallet is empty and every
   * robot is idle with no moves.
   */
  function Init(c: Config, coords: seq<Pos>): (t: State)
    requires |coords| == c.NumAgents()
    requires forall i :: 0 <= i < |coords| ==> c.InBounds(coords[i])
    ensures Wf(c, t)
  {
    State(map id: nat | id < c.NumAgents() :: coords[id],
          seq(c.numPallets, _ => 0),
          seq(c.numRobots, _ => RobotState(false, 0)))
  }
}
