/**
 * Pacman's navigator (PacmanController.cs). Pacman is always either standing
 * on a node (`currentNode`) or travelling from `previousNode` toward
 * `targetNode`; a direction typed while travelling is buffered in
 * `nextDirection` and tried first on arrival.
 */
module Player {
  import opened Optional
  import opened Geometry
  import opened Nodes
  import opened Levels
  import opened BoardRules
  import opened Navigation
  import opened Board

  class PacmanController {
    const board: GameBoard
    /** The scene's starting node, which may be unset. */
    const startingNode: Option<nat>

    var isDead: bool
    var canMove: bool
    var moveSpeed: real
    var killStreak: int
    var direction: Vec
    var nextDirection: Vec
    var currentNode: Option<nat>
    var targetNode: Option<nat>
    var previousNode: Option<nat>
    var position: Vec

    /** A node reference that is unset or names a node of the board's graph. */
    predicate Ref(r: Option<nat>)
    {
      r.Some? ==> r.value < |board.graph|
    }

    predicate Valid()
      reads this, board.grid
    {
      && board.Wiring() && board.GridOk()
      && Ref(startingNode) && Ref(currentNode) && Ref(targetNode) && Ref(previousNode)
      && (targetNode.Some? ==> previousNode.Some?)
      && killStreak >= 1
    }

    /** Where node `n` stands. */
    function PosOf(n: nat): Vec
      requires n < |board.graph|
    {
      board.graph[n].pos
    }

    /** Init: facing left with a kill streak of 1, on the starting node if there is one. */
    constructor (board: GameBoard, startingNode: Option<nat>, position: Vec)
      requires board.Wiring() && board.GridOk()
      requires startingNode.Some? ==> startingNode.value < |board.graph|
      ensures Valid()
      ensures this.board == board && this.startingNode == startingNode
      ensures killStreak == 1 && !isDead && !canMove
      ensures nextDirection == Zero
      ensures board.currentLevelDifficulty.Some? ==>
        moveSpeed == board.currentLevelDifficulty.value.pacmanSpeed
      ensures board.currentLevelDifficulty.None? ==> moveSpeed == 6.0
      ensures startingNode.None? ==>
        currentNode == None && targetNode == None && this.position == position && direction == Left
      ensures startingNode.Some? ==> this.position == board.graph[startingNode.value].pos
      ensures startingNode.Some? ==>
        var step := OpenStep(board.graph, startingNode.value, Left);
        direction == Left &&
        if step.Some? then currentNode == None && targetNode == step && previousNode == startingNode
        else currentNode == startingNode && targetNode == None
    {
      this.board := board;
      this.startingNode := startingNode;
      isDead := false;
      canMove := false;
      moveSpeed := 6.0;
      killStreak := 1;
      direction := Left;
      nextDirection := Zero;
      currentNode := None;
      targetNode := None;
      previousNode := None;
      this.position := position;
      new;
      if startingNode.Some? {
        currentNode := startingNode;
        this.position := board.graph[startingNode.value].pos;
      }
      ChangeDirection(direction);
      UpdatePacmanSpeed();
    }

    /**
     * CanMove: the first neighbour of the current node, in neighbour order,
     * that lies in direction `d` and that Pacman may enter.
     */
    method CanMove(d: Vec) returns (moveTo: Option<nat>)
      requires board.Wiring() && currentNode.Some? && currentNode.value < |board.graph|
      ensures moveTo == OpenStep(board.graph, currentNode.value, d)
    {
      var g := board.graph;
      var n := currentNode.value;
      assert LinksOk(g, n) && DirectionsOk(g, n);
      moveTo := None;
      var i := 0;
      while i < |g[n].neighbours|
        invariant 0 <= i <= |g[n].neighbours|
        invariant FirstOpen(g, n, d, i) == FirstOpen(g, n, d, 0)
      {
        if g[n].validDirections[i] == d && g[g[n].neighbours[i]].canPacmanMoveHere {
          moveTo := Some(g[n].neighbours[i]);
          break;
        }
        i := i + 1;
      }
    }

    /**
     * ChangeDirection: a direction other than the current one is buffered;
     * standing on a node from which `d` is open, Pacman leaves at once.
     */
    method ChangeDirection(d: Vec)
      requires Valid()
      modifies this`nextDirection, this`direction, this`currentNode, this`targetNode, this`previousNode
      ensures Valid()
      ensures nextDirection == if d != old(direction) then d else old(nextDirection)
      ensures
        var step := if old(currentNode).Some? then OpenStep(board.graph, old(currentNode).value, d) else None;
        if step.Some? then
          direction == d && targetNode == step && previousNode == old(currentNode) && currentNode == None
        else
          direction == old(direction) && currentNode == old(currentNode)
          && targetNode == old(targetNode) && previousNode == old(previousNode)
    {
      if d != direction {
        nextDirection := d;
      }
      if currentNode.Some? {
        var moveToNode := CanMove(d);
        if moveToNode.Some? {
          direction := d;
          targetNode := moveToNode;
          previousNode := currentNode;
          currentNode := None;
        }
      }
    }

    /** Movement's guard: dead, disabled, without a target or standing on it. */
    predicate Halted()
      reads this
    {
      isDead || !canMove || targetNode.None? || targetNode == currentNode
    }

    /** PassedNode: farther from the previous node than the target is. */
    predicate PassedNode(): (b: bool)
      reads this
      requires Ref(targetNode) && Ref(previousNode) && targetNode.Some? && previousNode.Some?
      ensures position == PosOf(targetNode.value) ==> !b
      ensures b ==> position != PosOf(previousNode.value)
    {
      Passed(position, PosOf(previousNode.value), PosOf(targetNode.value))
    }

    /**
     * Movement for a frame of `dt` seconds. A buffered reversal turns Pacman
     * around at once; passing the target snaps onto it, applies any portal
     * and departs by the buffered direction, else by the current one, else
     * stops; otherwise Pacman advances by direction * speed * dt.
     */
    method Movement(dt: real)
      requires Valid()
      modifies this`direction, this`currentNode, this`targetNode, this`previousNode, this`position
      ensures Valid()
      ensures old(Halted()) ==>
        direction == old(direction) && position == old(position) && currentNode == old(currentNode)
        && targetNode == old(targetNode) && previousNode == old(previousNode)
      ensures !old(Halted()) && old(nextDirection) == Neg(old(direction)) ==>
        direction == nextDirection
      ensures !old(Halted()) ==>
        var reversed := old(nextDirection) == Neg(old(direction));
        var dir := if reversed then Neg(old(direction)) else old(direction);
        var target := if reversed then old(previousNode) else old(targetNode);
        var prev := if reversed then old(targetNode) else old(previousNode);
        target.Some? && prev.Some? &&
        if !Passed(old(position), PosOf(prev.value), PosOf(target.value)) then
          direction == dir && targetNode == target && previousNode == prev
          && currentNode == old(currentNode)
          && position == Add(old(position), Scale(dir, moveSpeed * dt))
        else
          var here := board.Arrival(target.value);
          var byNext := OpenStep(board.graph, here, nextDirection);
          var step := if byNext.Some? then byNext else OpenStep(board.graph, here, dir);
          position == PosOf(here)
          && direction == (if byNext.Some? then nextDirection else dir)
          && if step.Some? then
               targetNode == step && previousNode == Some(here) && currentNode == None
             else
               targetNode == target && previousNode == prev && currentNode == Some(here)
    {
      if isDead || !canMove {
        return;
      }
      if targetNode != currentNode && targetNode.Some? {
        if nextDirection == Neg(direction) {
          Reverse();
        }
        if PassedNode() {
          Arrive();
        } else {
          position := Add(position, Scale(direction, moveSpeed * dt));
          assert position == Add(old(position), Scale(direction, moveSpeed * dt));
        }
      }
    }

    /** The mid-corridor turn-around: negate the direction, swap target and previous. */
    method Reverse()
      requires Valid() && targetNode.Some? && targetNode != currentNode
      modifies this`direction, this`targetNode, this`previousNode
      ensures Valid() && targetNode.Some?
      ensures direction == Neg(old(direction))
      ensures targetNode == old(previousNode) && previousNode == old(targetNode)
    {
      direction := Neg(direction);
      var tempNode := targetNode;
      targetNode := previousNode;
      previousNode := tempNode;
    }

    /**
     * Arrival at the target: snap onto it, apply any portal, then depart by
     * the buffered direction, else by the current one, else stay.
     */
    method Arrive()
      requires Valid() && targetNode.Some?
      modifies this`direction, this`currentNode, this`targetNode, this`previousNode, this`position
      ensures Valid()
      ensures
        var here := board.Arrival(old(targetNode).value);
        var byNext := OpenStep(board.graph, here, nextDirection);
        var step := if byNext.Some? then byNext else OpenStep(board.graph, here, old(direction));
        position == PosOf(here)
        && direction == (if byNext.Some? then nextDirection else old(direction))
        && if step.Some? then
             targetNode == step && previousNode == Some(here) && currentNode == None
           else
             targetNode == old(targetNode) && previousNode == old(previousNode)
             && currentNode == Some(here)
    {
      currentNode := targetNode;
      position := PosOf(currentNode.value);
      CheckForPortals();
      var moveToNode := CanMove(nextDirection);
      if moveToNode.Some? {
        direction := nextDirection;
      }
      if moveToNode.None? {
        moveToNode := CanMove(direction);
      }
      if moveToNode.Some? {
        targetNode := moveToNode;
        previousNode := currentNode;
        currentNode := None;
      }
    }

    /** CheckForPortals: standing on a portal's cell moves Pacman to its receiver. */
    method CheckForPortals()
      requires Valid() && currentNode.Some?
      modifies this`position, this`currentNode
      ensures Valid() && currentNode == Some(board.Arrival(old(currentNode).value))
      ensures board.PortalOf(old(currentNode).value).Some? ==> position == PosOf(currentNode.value)
      ensures board.PortalOf(old(currentNode).value).None? ==> position == old(position)
    {
      var otherPortal := board.PortalOf(currentNode.value);
      if otherPortal.Some? {
        position := PosOf(otherPortal.value);
        currentNode := otherPortal;
      }
    }

    /** UpdatePacmanSpeed: the current difficulty's speed, when there is one. */
    method UpdatePacmanSpeed()
      modifies this`moveSpeed
      ensures board.currentLevelDifficulty.Some? ==>
        moveSpeed == board.currentLevelDifficulty.value.pacmanSpeed
      ensures board.currentLevelDifficulty.None? ==> moveSpeed == old(moveSpeed)
    {
      if board.currentLevelDifficulty.Some? {
        moveSpeed := board.currentLevelDifficulty.value.pacmanSpeed;
      }
    }

    function GetDirection(): (d: Vec)
      reads this
      ensures d == direction
    {
      direction
    }

    /** StartDeath: Pacman stops at once; the rest of the death is a timed sequence. */
    method StartDeath()
      modifies this`isDead
      ensures isDead
    {
      isDead := true;
    }

    /** ResetKillStreak, raised when a super pacpoint is eaten. */
    method ResetKillStreak()
      modifies this`killStreak
      ensures killStreak == 1
    {
      killStreak := 1;
    }

    method OnAfterGameStart()
      modifies this`canMove
      ensures canMove
    {
      canMove := true;
    }

    /**
     * OnGameBoardRestart: alive, frozen, streak 1, facing left with left
     * buffered, back on the starting node and leaving it to the left when
     * that is open. The source reads the starting node's position, so it must
     * be set.
     */
    method OnGameBoardRestart()
      requires Valid() && startingNode.Some?
      modifies this`isDead, this`canMove, this`killStreak, this`direction, this`nextDirection
      modifies this`currentNode, this`targetNode, this`previousNode, this`position
      ensures Valid()
      ensures !isDead && !canMove && killStreak == 1
      ensures direction == Left && nextDirection == Left
      ensures position == PosOf(startingNode.value)
      ensures
        var step := OpenStep(board.graph, startingNode.value, Left);
        if step.Some? then
          targetNode == step && previousNode == startingNode && currentNode == None
        else
          currentNode == startingNode && targetNode == old(targetNode) && previousNode == old(previousNode)
    {
      isDead := false;
      canMove := false;
      killStreak := 1;
      direction := Left;
      nextDirection := Left;
      currentNode := startingNode;
      position := PosOf(startingNode.value);
      ChangeDirection(direction);
    }

    /** OnAfterGameBoardRestart (the speed refresh subscribed beside it is UpdatePacmanSpeed). */
    method OnAfterGameBoardRestart()
      modifies this`canMove
      ensures canMove
    {
      canMove := true;
    }

    method OnGhostEaten()
      modifies this`canMove
      ensures !canMove
    {
      canMove := false;
    }

    method OnAfterGhostEaten()
      modifies this`canMove
      ensures canMove
    {
      canMove := true;
    }

    method OnLevelWin()
      modifies this`canMove
      ensures !canMove
    {
      canMove := false;
    }
  }
}
