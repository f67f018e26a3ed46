/**
 * What the warehouse rules guarantee: which action a robot takes and what it
 * changes, box conservation across activations and ticks, monotone progress
 * counters, and the state right after construction.
 */
module WarehouseProperties {
  import opened WarehouseRules

  function Bit(b: bool): nat { if b then 1 else 0 }

  // ---------------------------------------------------------------------------
  // Counting facts
  // ---------------------------------------------------------------------------

  /** Replacing one entry changes the sum by the difference. */
  lemma {:induction false} SumUpdate(xs: seq<nat>, k: nat, v: nat)
    requires k < |xs|
    ensures Sum(xs[k := v]) + xs[k] == Sum(xs) + v
  {
    if k == 0 {
      assert xs[k := v][1..] == xs[1..];
    } else {
      SumUpdate(xs[1..], k - 1, v);
      assert xs[k := v][1..] == xs[1..][k - 1 := v];
    }
  }

  /** Replacing one robot changes the laden count by the change in its flag. */
  lemma {:induction false} CarryingUpdate(rs: seq<RobotState>, k: nat, v: RobotState)
    requires k < |rs|
    ensures CarryingCount(rs[k := v]) + Bit(rs[k].carrying) == CarryingCount(rs) + Bit(v.carrying)
  {
    if k == 0 {
      assert rs[k := v][1..] == rs[1..];
    } else {
      CarryingUpdate(rs[1..], k - 1, v);
      assert rs[k := v][1..] == rs[1..][k - 1 := v];
    }
  }

  lemma {:induction false} SumOfZeros(xs: seq<nat>)
    requires forall i :: 0 <= i < |xs| ==> xs[i] == 0
    ensures Sum(xs) == 0
  {
    if xs != [] {
      SumOfZeros(xs[1..]);
    }
  }

  /** A map holding every id below n has n keys below n. */
  lemma {:induction false} KeysBelow(pos: map<nat, Pos>, n: nat)
    requires forall id: nat :: id < n ==> id in pos
    ensures |set id | id in pos && id < n| == n
  {
    if n > 0 {
      KeysBelow(pos, n - 1);
      assert (set id | id in pos && id < n) == (set id | id in pos && id < n - 1) + {n - 1};
    }
  }

  /** Taking box b off the grid leaves one box fewer on it. */
  lemma BoxesAfterRemove(c: Config, pos: map<nat, Pos>, b: nat)
    requires b in pos && c.IsBox(b)
    ensures |BoxesOnGrid(c, pos - {b})| + 1 == |BoxesOnGrid(c, pos)|
  {
    assert BoxesOnGrid(c, pos - {b}) == BoxesOnGrid(c, pos) - {b};
  }

  /** Moving an agent that is not a box leaves the boxes on the grid as they are. */
  lemma BoxesAfterOtherMove(c: Config, pos: map<nat, Pos>, id: nat, p: Pos)
    requires !c.IsBox(id)
    ensures BoxesOnGrid(c, pos[id := p]) == BoxesOnGrid(c, pos)
  {
  }

  // ---------------------------------------------------------------------------
  // Which action an activation takes, and what it changes
  // ---------------------------------------------------------------------------

  /**
   * A laden robot off every pallet changes nothing: it tries to drop, fails,
   * and does not move either.
   */
  lemma LadenOffPalletStaysPut(c: Config, s: State, r: nat, choice: nat)
    requires Wf(c, s) && r < c.numRobots && choice < 4
    requires s.robots[r].carrying
    requires forall k :: 0 <= k < c.numPallets ==> s.pos[c.PalletId(k)] != RobotCell(c, s, r)
    ensures RobotStep(c, s, r, choice) == s
  {
    var here := RobotCell(c, s, r);
    forall id | c.numBoxes <= id < c.numBoxes + c.numPallets
      ensures !(id in s.pos && s.pos[id] == here)
    {
      assert c.PalletId(id - c.numBoxes) == id;
    }
  }

  /**
   * A laden robot on a pallet's cell adds one to one pallet of that cell and
   * becomes idle; its position, its move count, the grid and every other
   * robot and pallet stay as they were.
   */
  lemma LadenOnPalletDrops(c: Config, s: State, r: nat, choice: nat)
    requires Wf(c, s) && r < c.numRobots && choice < 4
    requires s.robots[r].carrying
    requires exists k :: 0 <= k < c.numPallets && s.pos[c.PalletId(k)] == RobotCell(c, s, r)
    ensures exists k :: 0 <= k < c.numPallets && s.pos[c.PalletId(k)] == RobotCell(c, s, r) &&
              RobotStep(c, s, r, choice) ==
                s.(stacks := s.stacks[k := s.stacks[k] + 1],
                   robots := s.robots[r := RobotState(false, s.robots[r].movements)])
  {
    var here := RobotCell(c, s, r);
    var k0 :| 0 <= k0 < c.numPallets && s.pos[c.PalletId(k0)] == here;
    var found := FirstAt(s.pos, here, c.numBoxes, c.numBoxes + c.numPallets);
    assert found.Some? by {
      assert c.numBoxes <= c.PalletId(k0) < c.numBoxes + c.numPallets;
    }
    var k := found.value - c.numBoxes;
    assert c.PalletId(k) == found.value;
    DropBoxOnto(c, s, r, found.value);
    assert RobotStep(c, s, r, choice) == DropBox(c, s, r);
  }

  /**
   * An idle robot on a box's cell takes exactly one box of that cell off the
   * grid and becomes laden; its position, its move count, the pallets and
   * every other agent stay as they were.
   */
  lemma IdleOnBoxPicks(c: Config, s: State, r: nat, choice: nat)
    requires Wf(c, s) && r < c.numRobots && choice < 4
    requires !s.robots[r].carrying
    requires exists b :: b in s.pos && c.IsBox(b) && s.pos[b] == RobotCell(c, s, r)
    ensures exists b :: b in s.pos && c.IsBox(b) && s.pos[b] == RobotCell(c, s, r) &&
              RobotStep(c, s, r, choice) ==
                s.(pos := s.pos - {b},
                   robots := s.robots[r := RobotState(true, s.robots[r].movements)])
  {
    var found := FirstAt(s.pos, RobotCell(c, s, r), 0, c.numBoxes);
    assert found.Some?;
  }

  /**
   * An idle robot on a box-free cell steps to one of the four cells adjacent
   * to it on the torus and counts one more move; it stays idle, and nothing
   * else changes.
   */
  lemma IdleOffBoxMoves(c: Config, s: State, r: nat, choice: nat)
    requires Wf(c, s) && r < c.numRobots && choice < 4
    requires !s.robots[r].carrying
    requires forall b :: b in s.pos && c.IsBox(b) ==> s.pos[b] != RobotCell(c, s, r)
    ensures c.width == 1 && c.height == 1 ==> RobotStep(c, s, r, choice) == s
    ensures !(c.width == 1 && c.height == 1) ==>
              exists q: Pos :: c.InBounds(q) && Adjacent(c.width, c.height, RobotCell(c, s, r), q) &&
                RobotStep(c, s, r, choice) ==
                  s.(pos := s.pos[c.RobotId(r) := q],
                     robots := s.robots[r := RobotState(false, s.robots[r].movements + 1)])
  {
    var here := RobotCell(c, s, r);
    assert !SenseEnvironment(c, s.pos, here).isBox;
    assert RobotStep(c, s, r, choice) == Move(c, s, r, choice);
    var steps := Neighbourhood(c.width, c.height, here);
    if |steps| > 0 {
      var q := steps[choice % |steps|];
      NeighbourhoodIsAdjacency(c.width, c.height, here);
      assert c.InBounds(q) && Adjacent(c.width, c.height, here, q);
      assert Move(c, s, r, choice) ==
        s.(pos := s.pos[c.RobotId(r) := q],
           robots := s.robots[r := RobotState(false, s.robots[r].movements + 1)]);
    }
  }

  /** The state after a successful pick of the box found in the robot's cell. */
  lemma PickBoxOf(c: Config, s: State, r: nat, found: nat)
    requires Wf(c, s) && r < c.numRobots && !s.robots[r].carrying
    requires FirstAt(s.pos, RobotCell(c, s, r), 0, c.numBoxes) == Some(found)
    ensures PickBox(c, s, r) ==
              s.(pos := s.pos - {found}, robots := s.robots[r := s.robots[r].(carrying := true)])
  {
  }

  /** The state after a successful drop onto the pallet found in the robot's cell. */
  lemma DropBoxOnto(c: Config, s: State, r: nat, found: nat)
    requires Wf(c, s) && r < c.numRobots && s.robots[r].carrying
    requires FirstAt(s.pos, RobotCell(c, s, r), c.numBoxes, c.numBoxes + c.numPallets) == Some(found)
    ensures DropBox(c, s, r) ==
              s.(stacks := s.stacks[found - c.numBoxes := s.stacks[found - c.numBoxes] + 1],
                 robots := s.robots[r := s.robots[r].(carrying := false)])
  {
  }

  // ---------------------------------------------------------------------------
  // Box conservation
  // ---------------------------------------------------------------------------

  lemma MoveConserves(c: Config, s: State, r: nat, choice: nat)
    requires Wf(c, s) && r < c.numRobots && choice < 4 && Conserved(c, s)
    ensures Conserved(c, Move(c, s, r, choice))
  {
    var t := Move(c, s, r, choice);
    BoxesAfterOtherMove(c, s.pos, c.RobotId(r), t.pos[c.RobotId(r)]);
    CarryingUpdate(s.robots, r, t.robots[r]);
  }

  lemma PickBoxConserves(c: Config, s: State, r: nat)
    requires Wf(c, s) && r < c.numRobots && Conserved(c, s)
    ensures Conserved(c, PickBox(c, s, r))
  {
    var found := FirstAt(s.pos, RobotCell(c, s, r), 0, c.numBoxes);
    if !s.robots[r].carrying && found.Some? {
      var t := PickBox(c, s, r);
      BoxesAfterRemove(c, s.pos, found.value);
      CarryingUpdate(s.robots, r, t.robots[r]);
    }
  }

  lemma DropBoxConserves(c: Config, s: State, r: nat)
    requires Wf(c, s) && r < c.numRobots && Conserved(c, s)
    ensures Conserved(c, DropBox(c, s, r))
  {
    var found := FirstAt(s.pos, RobotCell(c, s, r), c.numBoxes, c.numBoxes + c.numPallets);
    if s.robots[r].carrying && found.Some? {
      var t := DropBox(c, s, r);
      var k := found.value - c.numBoxes;
      SumUpdate(s.stacks, k, s.stacks[k] + 1);
      CarryingUpdate(s.robots, r, t.robots[r]);
    }
  }

  /** Every robot activation keeps every box on the grid, carried, or stacked. */
  lemma RobotStepConserves(c: Config, s: State, r: nat, choice: nat)
    requires Wf(c, s) && r < c.numRobots && choice < 4 && Conserved(c, s)
    ensures Conserved(c, RobotStep(c, s, r, choice))
  {
    if s.robots[r].carrying {
      DropBoxConserves(c, s, r);
    } else if SenseEnvironment(c, s.pos, RobotCell(c, s, r)).isBox {
      PickBoxConserves(c, s, r);
    } else {
      MoveConserves(c, s, r, choice);
    }
  }

  lemma AgentStepConserves(c: Config, s: State, id: nat, choice: nat)
    requires Wf(c, s) && choice < 4 && Conserved(c, s)
    ensures Conserved(c, AgentStep(c, s, id, choice))
  {
    if c.RobotId(0) <= id < c.NumAgents() {
      RobotStepConserves(c, s, id - c.RobotId(0), choice);
    }
  }

  /** A whole tick conserves boxes, whatever the activation order and moves. */
  lemma {:induction false} TickConserves(c: Config, s: State, order: seq<nat>, choices: seq<nat>)
    requires Wf(c, s) && Conserved(c, s)
    requires |choices| == |order| && forall k :: 0 <= k < |choices| ==> choices[k] < 4
    ensures Conserved(c, Tick(c, s, order, choices))
    decreases |order|
  {
    if |order| > 0 {
      var n := |order| - 1;
      TickConserves(c, s, order[..n], choices[..n]);
      AgentStepConserves(c, Tick(c, s, order[..n], choices[..n]), order[n], choices[n]);
    }
  }

  /** No robot is laden exactly when the laden count is zero. */
  lemma {:induction false} NoneCarryingIff(rs: seq<RobotState>)
    ensures CarryingCount(rs) == 0 <==> forall i :: 0 <= i < |rs| ==> !rs[i].carrying
  {
    if rs != [] {
      NoneCarryingIff(rs[1..]);
      assert forall i :: 1 <= i < |rs| ==> rs[i] == rs[1..][i - 1];
    }
  }

  /**
   * Under conservation the stacked total never exceeds the number of boxes,
   * and the completion predicate holds exactly when no box is left on the
   * grid and no robot is laden.
   */
  lemma StackedMeansDelivered(c: Config, s: State)
    requires Conserved(c, s)
    ensures Sum(s.stacks) <= c.numBoxes
    ensures AllBoxesStacked(c, s) <==>
              BoxesOnGrid(c, s.pos) == {} && forall k :: 0 <= k < |s.robots| ==> !s.robots[k].carrying
  {
    NoneCarryingIff(s.robots);
  }

  // ---------------------------------------------------------------------------
  // Monotone counters
  // ---------------------------------------------------------------------------

  /**
   * From s to t every pallet's stack count, the stacked total and every
   * robot's move count only grow.
   */
  ghost predicate Progressed(s: State, t: State)
  {
    && |s.stacks| == |t.stacks|
    && (forall k :: 0 <= k < |s.stacks| ==> s.stacks[k] <= t.stacks[k])
    && Sum(s.stacks) <= Sum(t.stacks)
    && |s.robots| == |t.robots|
    && forall k :: 0 <= k < |s.robots| ==> s.robots[k].movements <= t.robots[k].movements
  }

  lemma RobotStepProgresses(c: Config, s: State, r: nat, choice: nat)
    requires Wf(c, s) && r < c.numRobots && choice < 4
    ensures Progressed(s, RobotStep(c, s, r, choice))
  {
    var found := FirstAt(s.pos, RobotCell(c, s, r), c.numBoxes, c.numBoxes + c.numPallets);
    if s.robots[r].carrying && found.Some? {
      var k := found.value - c.numBoxes;
      SumUpdate(s.stacks, k, s.stacks[k] + 1);
    }
  }

  lemma ProgressedTransitive(s: State, m: State, t: State)
    requires Progressed(s, m) && Progressed(m, t)
    ensures Progressed(s, t)
  {
  }

  /** A tick over a longer prefix of the order is one more activation. */
  lemma TickExtend(c: Config, s: State, order: seq<nat>, choices: seq<nat>, k: nat)
    requires Wf(c, s)
    requires |choices| == |order| && forall i :: 0 <= i < |choices| ==> choices[i] < 4
    requires k < |order|
    ensures Tick(c, s, order[..k + 1], choices[..k + 1]) ==
              AgentStep(c, Tick(c, s, order[..k], choices[..k]), order[k], choices[k])
  {
    assert order[..k + 1][..k] == order[..k] && choices[..k + 1][..k] == choices[..k];
  }

  lemma AgentStepProgresses(c: Config, s: State, id: nat, choice: nat)
    requires Wf(c, s) && choice < 4
    ensures Progressed(s, AgentStep(c, s, id, choice))
  {
    if c.RobotId(0) <= id < c.NumAgents() {
      RobotStepProgresses(c, s, id - c.RobotId(0), choice);
    }
  }

  /** Across a tick every pallet's stack count, the stacked total and every robot's move count only grow. */
  lemma {:induction false} TickProgresses(c: Config, s: State, order: seq<nat>, choices: seq<nat>)
    requires Wf(c, s)
    requires |choices| == |order| && forall k :: 0 <= k < |choices| ==> choices[k] < 4
    ensures Progressed(s, Tick(c, s, order, choices))
    decreases |order|
  {
    if |order| == 0 {
      assert Tick(c, s, order, choices) == s;
    } else {
      var n := |order| - 1;
      TickProgresses(c, s, order[..n], choices[..n]);
      var m := Tick(c, s, order[..n], choices[..n]);
      var t := AgentStep(c, m, order[n], choices[n]);
      assert Tick(c, s, order, choices) == t;
      AgentStepProgresses(c, m, order[n], choices[n]);
      ProgressedTransitive(s, m, t);
    }
  }

  // ---------------------------------------------------------------------------
  // Activation orders
  // ---------------------------------------------------------------------------

  /** The ids 0, 1, ..., n - 1 in increasing order. */
  function IdsBelow(n: nat): (ids: seq<nat>)
    ensures |ids| == n
  {
    if n == 0 then [] else IdsBelow(n - 1) + [n - 1]
  }

  /** Each id below n occurs in IdsBelow(n) once, and no other id occurs. */
  lemma {:induction false} IdsBelowOnce(n: nat)
    ensures forall id: nat :: multiset(IdsBelow(n))[id] == if id < n then 1 else 0
  {
    if n > 0 {
      IdsBelowOnce(n - 1);
      var last: nat := n - 1;
      assert multiset(IdsBelow(n)) == multiset(IdsBelow(n - 1)) + multiset{last};
    }
  }

  /**
   * Activation orders exist: activating every agent in id order is one, so
   * a tick's precondition can be met for every configuration.
   */
  lemma IdOrderIsActivationOrder(c: Config)
    ensures IsActivationOrder(c, IdsBelow(c.NumAgents()))
  {
    IdsBelowOnce(c.NumAgents());
  }

  // ---------------------------------------------------------------------------
  // Construction
  // ---------------------------------------------------------------------------

  /**
   * Right after construction every agent stands on the grid, every robot is
   * idle with no moves, every pallet is empty, boxes are conserved, and the
   * warehouse counts as complete exactly when there are no boxes.
   */
  lemma InitialState(c: Config, coords: seq<Pos>)
    requires |coords| == c.NumAgents()
    requires forall i :: 0 <= i < |coords| ==> c.InBounds(coords[i])
    ensures var s := Init(c, coords);
      && (forall id: nat :: id in s.pos <==> id < c.NumAgents())
      && (forall k :: 0 <= k < c.numRobots ==> s.robots[k] == RobotState(false, 0))
      && (forall k :: 0 <= k < c.numPallets ==> s.stacks[k] == 0)
      && Conserved(c, s)
      && (AllBoxesStacked(c, s) <==> c.numBoxes == 0)
  {
    var s := Init(c, coords);
    SumOfZeros(s.stacks);
    NoneCarryingIff(s.robots);
    KeysBelow(s.pos, c.numBoxes);
  }
}
