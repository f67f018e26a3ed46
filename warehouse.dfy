/**
 * The warehouse engine as objects: the grid, the pallets and the robots are
 * updated in place, as the Mesa model updates them. The robot's actions and
 * the model's activation and tick are proved to leave the model in the state
 * the matching function of WarehouseRules computes from the old one; the
 * constructor builds the state WarehouseRules.Init gives for the
 * coordinates. The constructor, activation and tick also keep the model's
 * invariant, box conservation included.
 */
module Warehouse {
  import opened WarehouseRules
  import WarehouseProperties

  /**
   * Mesa's toroidal multi-occupant grid, reduced to what the engine uses:
   * where each placed agent stands, by agent id, and the place, move and
   * remove operations.
   */
  class MultiGrid {
    const width: nat
    const height: nat
    var pos: map<nat, Pos>

    constructor (width: nat, height: nat)
      ensures this.width == width && this.height == height
      ensures pos == map[]
    {
      this.width := width;
      this.height := height;
      pos := map[];
    }

    method PlaceAgent(id: nat, p: Pos)
      requires id !in pos
      modifies this
      ensures pos == old(pos)[id := p]
    {
      pos := pos[id := p];
    }

    method MoveAgent(id: nat, p: Pos)
      requires id in pos
      modifies this
      ensures pos == old(pos)[id := p]
    {
      pos := pos[id := p];
    }

    method RemoveAgent(id: nat)
      requires id in pos
      modifies this
      ensures pos == old(pos) - {id}
    {
      pos := pos - {id};
    }
  }

  class Pallet {
    const id: nat
    var stackCount: nat

    constructor (id: nat)
      ensures this.id == id && stackCount == 0
    {
      this.id := id;
      stackCount := 0;
    }
  }

  class Robot {
    const id: nat
    var carryingBox: bool
    var movements: nat

    constructor (id: nat)
      ensures this.id == id && !carryingBox && movements == 0
    {
      this.id := id;
      carryingBox := false;
      movements := 0;
    }

    /** Whether this robot's cell holds a box, and whether it holds a pallet. */
    function SenseEnvironment(m: WarehouseModel): (r: Senses)
      requires id in m.grid.pos
      reads m.grid
      ensures r.isBox <==> exists b :: b in m.grid.pos && m.grid.pos[b] == m.grid.pos[id] && b < m.numBoxes
      ensures r.isPallet <==>
                exists k: nat :: k < |m.pallets| && m.Cfg().PalletId(k) in m.grid.pos && m.grid.pos[m.Cfg().PalletId(k)] == m.grid.pos[id]
    {
      WarehouseRules.SenseEnvironment(m.Cfg(), m.grid.pos, m.grid.pos[id])
    }

    /**
     * Step to one of the neighbouring cells, the one the random index picks,
     * and count the move. On a one-cell grid there is no neighbour to go to.
     */
    method Move(m: WarehouseModel, choice: nat)
      requires m.Consistent() && this in m.robots && choice < 4
      modifies this, m.grid
      ensures m.Abs() == WarehouseRules.Move(m.Cfg(), old(m.Abs()), id - m.Cfg().RobotId(0), choice)
    {
      ghost var r := m.RobotIndex(this);
      ghost var s := m.Abs();
      var possibleSteps := Neighbourhood(m.grid.width, m.grid.height, m.grid.pos[id]);
      if |possibleSteps| > 0 {
        var newPosition := possibleSteps[choice % |possibleSteps|];
        m.grid.MoveAgent(id, newPosition);
        movements := movements + 1;
        m.OnlyRobotChanged(r, s.robots);
      }
    }

    /** If idle, take the lowest-numbered box of this cell off the grid and become laden. */
    method PickBox(m: WarehouseModel)
      requires m.Consistent() && this in m.robots
      modifies this, m.grid
      ensures m.Abs() == WarehouseRules.PickBox(m.Cfg(), old(m.Abs()), id - m.Cfg().RobotId(0))
    {
      ghost var r := m.RobotIndex(this);
      ghost var s := m.Abs();
      ghost var c := m.Cfg();
      if !carryingBox {
        var boxes := FirstAt(m.grid.pos, m.grid.pos[id], 0, m.numBoxes);
        assert boxes == FirstAt(s.pos, RobotCell(c, s, r), 0, c.numBoxes);
        if boxes.Some? {
          WarehouseProperties.PickBoxOf(c, s, r, boxes.value);
          carryingBox := true;
          m.grid.RemoveAgent(boxes.value);
          m.OnlyRobotChanged(r, s.robots);
        }
      }
    }

    /** If laden, add one to the lowest-numbered pallet of this cell and become idle. */
    method DropBox(m: WarehouseModel)
      requires m.Consistent() && this in m.robots
      modifies this, m.pallets
      ensures m.Abs() == WarehouseRules.DropBox(m.Cfg(), old(m.Abs()), id - m.Cfg().RobotId(0))
    {
      ghost var r := m.RobotIndex(this);
      ghost var s := m.Abs();
      ghost var c := m.Cfg();
      if carryingBox {
        var pallets := FirstAt(m.grid.pos, m.grid.pos[id], m.numBoxes, m.numBoxes + |m.pallets|);
        assert pallets == FirstAt(s.pos, RobotCell(c, s, r), c.numBoxes, c.numBoxes + c.numPallets);
        if pallets.Some? {
          WarehouseProperties.DropBoxOnto(c, s, r, pallets.value);
          StackOnto(m, pallets.value - m.numBoxes);
        }
      }
    }

    /** Add one to pallet k's stack and become idle. */
    method StackOnto(m: WarehouseModel, k: nat)
      requires m.Consistent() && this in m.robots && k < |m.pallets|
      modifies this, m.pallets[k]
      ensures var s, r := old(m.Abs()), id - m.Cfg().RobotId(0);
        m.Abs() == s.(stacks := s.stacks[k := s.stacks[k] + 1],
                      robots := s.robots[r := s.robots[r].(carrying := false)])
    {
      ghost var r := m.RobotIndex(this);
      ghost var s := m.Abs();
      var pallet := m.pallets[k];
      pallet.stackCount := pallet.stackCount + 1;
      carryingBox := false;
      m.OnlyPalletChanged(k, s.stacks);
      m.OnlyRobotChanged(r, s.robots);
    }

    /**
     * One activation: a laden robot tries to drop, an idle robot on a box
     * picks it, any other robot moves.
     */
    method Step(m: WarehouseModel, choice: nat)
      requires m.Consistent() && this in m.robots && choice < 4
      modifies this, m.grid, m.pallets
      ensures m.Abs() == RobotStep(m.Cfg(), old(m.Abs()), id - m.Cfg().RobotId(0), choice)
    {
      var sensed := SenseEnvironment(m);
      var isBox, isPallet := sensed.isBox, sensed.isPallet;
      if carryingBox {
        DropBox(m);
      } else if isBox {
        PickBox(m);
      } else {
        Move(m, choice);
      }
    }
  }

  /** The agents numbered below n, and only those, are placed, each on its coordinates. */
  ghost predicate PlacedBelow(pos: map<nat, Pos>, coords: seq<Pos>, n: nat)
  {
    && n <= |coords|
    && (forall id: nat :: id in pos <==> id < n)
    && (forall id :: id in pos ==> pos[id] == coords[id])
  }

  /** Place boxes 0 .. numBoxes-1 on their coordinates (boxes have no fields). */
  method PlaceBoxes(g: MultiGrid, coords: seq<Pos>, numBoxes: nat)
    requires numBoxes <= |coords| && g.pos == map[]
    modifies g
    ensures PlacedBelow(g.pos, coords, numBoxes)
  {
    for i := 0 to numBoxes
      invariant PlacedBelow(g.pos, coords, i)
    {
      g.PlaceAgent(i, coords[i]);
    }
  }

  /** Create numPallets empty pallets numbered from first, placing each on its coordinates. */
  method NewPallets(g: MultiGrid, coords: seq<Pos>, first: nat, numPallets: nat) returns (ps: seq<Pallet>)
    requires first + numPallets <= |coords| && PlacedBelow(g.pos, coords, first)
    modifies g
    ensures PlacedBelow(g.pos, coords, first + numPallets)
    ensures |ps| == numPallets
    ensures forall k :: 0 <= k < numPallets ==> fresh(ps[k]) && ps[k].id == first + k && ps[k].stackCount == 0
  {
    ps := [];
    for i := 0 to numPallets
      invariant PlacedBelow(g.pos, coords, first + i)
      invariant |ps| == i
      invariant forall k :: 0 <= k < i ==> fresh(ps[k]) && ps[k].id == first + k && ps[k].stackCount == 0
    {
      var pallet := new Pallet(first + i);
      ps := ps + [pallet];
      g.PlaceAgent(first + i, coords[first + i]);
    }
  }

  /** Create numRobots idle robots numbered from first, placing each on its coordinates. */
  method NewRobots(g: MultiGrid, coords: seq<Pos>, first: nat, numRobots: nat) returns (rs: seq<Robot>)
    requires first + numRobots <= |coords| && PlacedBelow(g.pos, coords, first)
    modifies g
    ensures PlacedBelow(g.pos, coords, first + numRobots)
    ensures |rs| == numRobots
    ensures forall k :: 0 <= k < numRobots ==>
              fresh(rs[k]) && rs[k].id == first + k && !rs[k].carryingBox && rs[k].movements == 0
  {
    rs := [];
    for i := 0 to numRobots
      invariant PlacedBelow(g.pos, coords, first + i)
      invariant |rs| == i
      invariant forall k :: 0 <= k < i ==>
                  fresh(rs[k]) && rs[k].id == first + k && !rs[k].carryingBox && rs[k].movements == 0
    {
      var robot := new Robot(first + i);
      rs := rs + [robot];
      g.PlaceAgent(first + i, coords[first + i]);
    }
  }

  class WarehouseModel {
    const grid: MultiGrid
    const numBoxes: nat
    /** The pallets and the robots in the order they were created. */
    const pallets: seq<Pallet>
    const robots: seq<Robot>

    /** The construction parameters, recovered from the model. */
    function Cfg(): Config
    {
      Config(grid.width, grid.height, numBoxes, |pallets|, |robots|)
    }

    function StackCounts(): (counts: seq<nat>)
      reads pallets
      ensures |counts| == |pallets|
      ensures forall k :: 0 <= k < |pallets| ==> counts[k] == pallets[k].stackCount
    {
      seq(|pallets|, k reads pallets requires 0 <= k < |pallets| => pallets[k].stackCount)
    }

    function RobotStates(): (states: seq<RobotState>)
      reads robots
      ensures |states| == |robots|
      ensures forall k :: 0 <= k < |robots| ==>
                states[k] == RobotState(robots[k].carryingBox, robots[k].movements)
    {
      seq(|robots|, k reads robots requires 0 <= k < |robots| =>
        RobotState(robots[k].carryingBox, robots[k].movements))
    }

    /** The model's state as a value of WarehouseRules. */
    function Abs(): State
      reads grid, pallets, robots
    {
      State(grid.pos, StackCounts(), RobotStates())
    }

    /** Agents carry the ids the constructor gave them and the state is well formed. */
    ghost predicate Consistent()
      reads grid, pallets, robots
    {
      && (forall k :: 0 <= k < |pallets| ==> pallets[k].id == Cfg().PalletId(k))
      && (forall k :: 0 <= k < |robots| ==> robots[k].id == Cfg().RobotId(k))
      && Wf(Cfg(), Abs())
    }

    /**
     * The object invariant: the model is consistent and every box is on the
     * grid, carried or stacked.
     */
    ghost predicate Valid()
      reads grid, pallets, robots
    {
      Consistent() && Conserved(Cfg(), Abs())
    }

    /** The position of robot rb among the robots. */
    ghost function RobotIndex(rb: Robot): (r: nat)
      requires Consistent() && rb in robots
      reads grid, pallets, robots
      ensures r < |robots| && robots[r] == rb && rb.id == Cfg().RobotId(r)
    {
      var r :| 0 <= r < |robots| && robots[r] == rb;
      r
    }

    /**
     * When robot r is the only robot whose fields may differ from the states
     * in before, the robot states are before with entry r replaced.
     */
    lemma OnlyRobotChanged(r: nat, before: seq<RobotState>)
      requires r < |robots| && |before| == |robots|
      requires forall k :: 0 <= k < |robots| ==> robots[k].id == Cfg().RobotId(k)
      requires forall k :: 0 <= k < |robots| && robots[k] != robots[r] ==>
                 before[k] == RobotState(robots[k].carryingBox, robots[k].movements)
      ensures RobotStates() == before[r := RobotState(robots[r].carryingBox, robots[r].movements)]
    {
      forall k | 0 <= k < |robots| && k != r
        ensures robots[k] != robots[r]
      {
        assert robots[k].id != robots[r].id;
      }
    }

    /**
     * When pallet k is the only pallet whose count may differ from before, the
     * stack counts are before with entry k replaced.
     */
    lemma OnlyPalletChanged(k: nat, before: seq<nat>)
      requires k < |pallets| && |before| == |pallets|
      requires forall j :: 0 <= j < |pallets| ==> pallets[j].id == Cfg().PalletId(j)
      requires forall j :: 0 <= j < |pallets| && pallets[j] != pallets[k] ==> before[j] == pallets[j].stackCount
      ensures StackCounts() == before[k := pallets[k].stackCount]
    {
      forall j | 0 <= j < |pallets| && j != k
        ensures pallets[j] != pallets[k]
      {
        assert pallets[j].id != pallets[k].id;
      }
    }

    /**
     * Mesa's all_boxes_stacked: whether the pallets' stack counts add up to
     * the number of boxes.
     */
    function AllBoxesStacked(): (done: bool)
      reads grid, pallets, robots
      ensures done <==> Sum(StackCounts()) == numBoxes
      ensures Valid() ==>
                (done <==> BoxesOnGrid(Cfg(), grid.pos) == {} && forall k :: 0 <= k < |robots| ==> !robots[k].carryingBox)
    {
      var done := WarehouseRules.AllBoxesStacked(Cfg(), Abs());
      assert Valid() ==> (done <==> BoxesOnGrid(Cfg(), grid.pos) == {} && forall k :: 0 <= k < |robots| ==> !robots[k].carryingBox) by {
        if Valid() {
          WarehouseProperties.StackedMeansDelivered(Cfg(), Abs());
        }
      }
      done
    }

    /**
     * Build the warehouse: numBoxes boxes, numPallets pallets and numRobots
     * robots, numbered in that order from 0, agent i placed on coords[i].
     */
    constructor (width: nat, height: nat, numBoxes: nat, numRobots: nat, numPallets: nat, coords: seq<Pos>)
      requires |coords| == numBoxes + numPallets + numRobots
      requires forall i :: 0 <= i < |coords| ==> coords[i].x < width && coords[i].y < height
      ensures Valid()
      ensures Cfg() == Config(width, height, numBoxes, numPallets, numRobots)
      ensures Abs() == Init(Cfg(), coords)
      ensures fresh(grid)
      ensures forall k :: 0 <= k < |pallets| ==> fresh(pallets[k])
      ensures forall k :: 0 <= k < |robots| ==> fresh(robots[k])
    {
      var g := new MultiGrid(width, height);
      PlaceBoxes(g, coords, numBoxes);
      var ps := NewPallets(g, coords, numBoxes, numPallets);
      var rs := NewRobots(g, coords, numBoxes + numPallets, numRobots);
      grid := g;
      this.numBoxes := numBoxes;
      pallets := ps;
      robots := rs;
      new;
      ghost var init := Init(Cfg(), coords);
      assert grid.pos == init.pos;
      assert StackCounts() == init.stacks;
      assert RobotStates() == init.robots;
      assert Abs() == init;
      WarehouseProperties.InitialState(Cfg(), coords);
      assert Wf(Cfg(), Abs()) && Conserved(Cfg(), Abs());
    }

    /**
     * Activate agent id: a robot takes its step with the given neighbour
     * index; a box or a pallet does nothing.
     */
    method Activate(id: nat, choice: nat)
      requires Valid() && choice < 4
      modifies grid, pallets, robots
      ensures Valid()
      ensures Abs() == AgentStep(Cfg(), old(Abs()), id, choice)
    {
      ghost var before := Abs();
      if Cfg().RobotId(0) <= id < Cfg().NumAgents() {
        ActivateRobot(id - Cfg().RobotId(0), choice);
      }
      ValidAfterStep(before, id, choice);
    }

    /** Robot r takes its step with the given neighbour index. */
    method ActivateRobot(r: nat, choice: nat)
      requires Consistent() && r < |robots| && choice < 4
      modifies grid, pallets, robots
      ensures Abs() == RobotStep(Cfg(), old(Abs()), r, choice)
    {
      robots[r].Step(this, choice);
    }

    /** A model whose state is one activation of a valid state is valid. */
    lemma ValidAfterStep(before: State, id: nat, choice: nat)
      requires Wf(Cfg(), before) && Conserved(Cfg(), before) && choice < 4
      requires forall k :: 0 <= k < |pallets| ==> pallets[k].id == Cfg().PalletId(k)
      requires forall k :: 0 <= k < |robots| ==> robots[k].id == Cfg().RobotId(k)
      requires Abs() == AgentStep(Cfg(), before, id, choice)
      ensures Valid()
    {
      WarehouseProperties.AgentStepConserves(Cfg(), before, id, choice);
    }

    /**
     * One tick: every agent is activated once, in the given (random) order;
     * the k-th activation uses choices[k] as its random neighbour index.
     * Boxes and pallets do nothing when activated; removed boxes stay in the
     * schedule.
     */
    method Step(order: seq<nat>, choices: seq<nat>)
      requires Valid()
      requires IsActivationOrder(Cfg(), order)
      requires |choices| == |order| && forall k :: 0 <= k < |choices| ==> choices[k] < 4
      modifies grid, pallets, robots
      ensures Valid()
      ensures Abs() == Tick(Cfg(), old(Abs()), order, choices)
    {
      for k := 0 to |order|
        invariant Valid()
        invariant Abs() == Tick(Cfg(), old(Abs()), order[..k], choices[..k])
      {
        Activate(order[k], choices[k]);
        WarehouseProperties.TickExtend(Cfg(), old(Abs()), order, choices, k);
      }
      assert order[..|order|] == order && choices[..|choices|] == choices;
    }
  }
}
