/**
 * The ghosts (GhostAI.cs and its four subclasses). A ghost is one class
 * whose `kind` selects the subclass behaviour: the chase tile of
 * FindTargetPosition, the start-up and restart directions, and, for Pinky,
 * Inky and Clyde, the ghost-house release timer. The state and timer rules
 * are the value-level functions of GhostRules; the target tiles and the
 * neighbour choice are those of Pursuit.
 */
module Ghosts {
  import opened Optional
  import opened Geometry
  import opened Nodes
  import opened Levels
  import opened BoardRules
  import opened Board
  import opened Navigation
  import opened Player
  import opened GhostRules
  import opened Pursuit

  datatype GhostKind = Blinky | Pinky | Inky | Clyde

  /** What a ghost looks at when it picks a chase tile. */
  datatype Sight = Sight(pacman: Vec, pacmanDirection: Vec, blinky: Vec)

  /** `root` is the distance from Blinky's tile to the tile two ahead of Pacman: Inky's square root. */
  predicate RootOk(s: Sight, root: real)
  {
    root >= 0.0 && root * root == SqDist(RoundVec(s.blinky), TwoAhead(s.pacman, s.pacmanDirection))
  }

  /** The static `caughtPacman` flag that every ghost reads and writes. */
  class GhostShared {
    var caughtPacman: bool

    constructor ()
      ensures !caughtPacman
    {
      caughtPacman := false;
    }
  }

  class GhostAI {
    const kind: GhostKind
    const board: GameBoard
    const pacman: PacmanController
    const shared: GhostShared
    /** Inky's reference to Blinky; the other ghosts have none. */
    const blinky: GhostAI?
    const startingNode: nat
    const homeNode: nat
    const ghostHouseNode: nat

    var canMove: bool
    var isInGhostHouse: bool
    var previousScore: int
    var currentMoveSpeed: real
    var normalMoveSpeed: real
    var scaredMoveSpeed: real
    var eatenMoveSpeed: real
    var scaredDuration: real
    var startBlinkingAt: real
    var scaredTimer: real
    var currentNode: Option<nat>
    var targetNode: Option<nat>
    var previousNode: Option<nat>
    var direction: Vec
    var requestStateChange: bool
    var currentGhostState: GhostState
    var previousGhostState: GhostState
    var ghostModes: seq<GhostMode>
    var modeIndex: int
    var timer: real
    var position: Vec
    /** Pinky, Inky and Clyde: how long they wait in the ghost house. */
    var releaseTime: real
    var releaseTimer: real

    /** A node reference that is unset or names a node of the board's graph. */
    predicate Ref(r: Option<nat>)
    {
      r.Some? ==> r.value < |board.graph|
    }

    /** The ghost's three nodes are nodes of the board, and Inky alone holds a reference to Blinky. */
    predicate Placed()
    {
      && startingNode < |board.graph| && homeNode < |board.graph| && ghostHouseNode < |board.graph|
      && (kind == Inky <==> blinky != null) && blinky != this
    }

    /**
     * The maze the ghost walks: a well-formed four-way graph in which the
     * starting node and the ghost house have a first neighbour.
     */
    predicate Maze()
      requires Placed()
    {
      && WellFormed(board.graph) && FourWay(board.graph)
      && |board.graph[startingNode].neighbours| > 0
      && |board.graph[ghostHouseNode].neighbours| > 0
    }

    /** Node references point into the graph, a target was reached from somewhere, the mode index fits the table. */
    predicate Valid()
      reads this
    {
      && Placed()
      && Ref(currentNode) && Ref(targetNode) && Ref(previousNode)
      && (targetNode.Some? ==> previousNode.Some?)
      && 0 <= modeIndex < |ghostModes|
    }

    function PosOf(n: nat): Vec
      requires n < |board.graph|
    {
      board.graph[n].pos
    }

    /** The state-change fields as one value. */
    function Machine(): Fsm
      reads this
    {
      Fsm(currentGhostState, previousGhostState, requestStateChange)
    }

    /** The Scatter/Chase schedule fields as one value. */
    function Clock(): ModeClock
      reads this
    {
      ModeClock(Machine(), modeIndex, timer)
    }

    /** The frightened timer with the kill streak it resets. */
    function Fright(): Scare
      reads this, pacman
    {
      Scare(Machine(), scaredTimer, pacman.killStreak)
    }

    /** What the ghost sees now: Pacman's position and direction, and Blinky's position for Inky. */
    function Seen(): Sight
      reads pacman, blinky
    {
      Sight(pacman.position, pacman.direction, if blinky != null then blinky.position else Zero)
    }

    /** FindTargetPosition of each ghost, for a ghost standing at `self`. */
    function ChaseTile(self: Vec, s: Sight, root: real): (t: Vec)
      requires Placed() && (kind == Inky ==> RootOk(s, root))
      ensures kind == Blinky ==> IsTile(t) && SqDist(t, s.pacman) <= 0.5
      ensures kind == Pinky ==> Sub(t, BlinkyTarget(s.pacman)) == Scale(s.pacmanDirection, 4.0)
      ensures kind == Inky ==> t.x - RoundVec(s.blinky).x == t.y - RoundVec(s.blinky).y == 2.0 * root
      ensures kind == Clyde && SqDist(self, s.pacman) > ClydeRadiusSquared ==> t == BlinkyTarget(s.pacman)
      ensures kind == Clyde && SqDist(self, s.pacman) <= ClydeRadiusSquared ==> t == PosOf(homeNode)
    {
      match kind
      case Blinky => BlinkyTarget(s.pacman)
      case Pinky => PinkyTarget(s.pacman, s.pacmanDirection)
      case Inky => InkyTarget(s.pacman, s.pacmanDirection, s.blinky, root)
      case Clyde => ClydeTarget(self, s.pacman, PosOf(homeNode))
    }

    /**
     * The tile ChooseNextNode heads for in `state`: the chase tile, the home
     * node while scattering, the random tile while frightened, the ghost
     * house once eaten.
     */
    function TargetTile(state: GhostState, self: Vec, s: Sight, randomTile: Vec, root: real): (t: Vec)
      requires Placed() && (state == Chase && kind == Inky ==> RootOk(s, root))
      ensures state == Chase ==> t == ChaseTile(self, s, root)
      ensures state == Scatter ==> t == PosOf(homeNode)
      ensures state == Flee || state == Blinking ==> t == randomTile
      ensures state == Eaten ==> t == PosOf(ghostHouseNode)
    {
      match state
      case Chase => ChaseTile(self, s, root)
      case Scatter => PosOf(homeNode)
      case Flee => randomTile
      case Blinking => randomTile
      case Eaten => PosOf(ghostHouseNode)
    }

    /** ChooseNextNode's choice from node `n` facing `d`, toward `tile`. */
    function NextFrom(n: nat, d: Vec, tile: Vec): (r: Option<(nat, Vec)>)
      requires Placed() && Maze() && n < |board.graph|
      ensures r.Some? ==> r.value.0 < |board.graph| && r.value.1 != Zero && r.value.1 != Neg(d)
    {
      assert Degree(board.graph, n) <= 4;
      FourNeighboursFit(board.graph, n, d);
      Choice(board.graph, n, d, tile)
    }

    /** What ChooseNextNode needs of its stand-ins for the random draw and the square root. */
    predicate DrawOk(randomTile: Vec, root: real)
      reads this, pacman, blinky
      requires Placed()
    {
      RandomTile(randomTile) && (currentGhostState == Chase && kind == Inky ==> RootOk(Seen(), root))
    }

    /**
     * The field initialisers and Init: Scatter requested, the default mode
     * table, standing on the starting node with no target yet.
     */
    constructor (kind: GhostKind, board: GameBoard, pacman: PacmanController, shared: GhostShared,
                 blinky: GhostAI?, startingNode: nat, homeNode: nat, ghostHouseNode: nat)
      requires startingNode < |board.graph| && homeNode < |board.graph| && ghostHouseNode < |board.graph|
      requires kind == Inky <==> blinky != null
      ensures Valid()
      ensures this.kind == kind && this.board == board && this.pacman == pacman && this.shared == shared
      ensures this.blinky == blinky && this.startingNode == startingNode
      ensures this.homeNode == homeNode && this.ghostHouseNode == ghostHouseNode
      ensures Machine() == Fsm(Scatter, Chase, true)
      ensures ghostModes == DefaultGhostModes && modeIndex == 0 && timer == 0.0 && scaredTimer == 0.0
      ensures !canMove && !isInGhostHouse && currentMoveSpeed == 6.0 && releaseTimer == 0.0
      ensures normalMoveSpeed == 6.0 && scaredMoveSpeed == 4.0 && eatenMoveSpeed == 10.0
      ensures scaredDuration == 10.0 && startBlinkingAt == 7.0
      ensures currentNode == Some(startingNode) && targetNode == None && previousNode == None
      ensures position == PosOf(startingNode) && direction == Zero
    {
      this.kind := kind;
      this.board := board;
      this.pacman := pacman;
      this.shared := shared;
      this.blinky := blinky;
      this.startingNode := startingNode;
      this.homeNode := homeNode;
      this.ghostHouseNode := ghostHouseNode;
      canMove := false;
      isInGhostHouse := false;
      previousScore := 0;
      normalMoveSpeed := 6.0;
      scaredMoveSpeed := 4.0;
      eatenMoveSpeed := 10.0;
      scaredDuration := 10.0;
      startBlinkingAt := 7.0;
      scaredTimer := 0.0;
      targetNode := None;
      previousNode := None;
      direction := Zero;
      previousGhostState := Chase;
      modeIndex := 0;
      timer := 0.0;
      releaseTime := 0.0;
      releaseTimer := 0.0;
      requestStateChange := true;
      currentMoveSpeed := 6.0;
      currentGhostState := Scatter;
      ghostModes := DefaultGhostModes;
      currentNode := Some(startingNode);
      position := board.graph[startingNode].pos;
    }

    /**
     * Each kind's Start after Init: Blinky faces left toward the first
     * neighbour; Pinky waits in the ghost house facing up and chooses its
     * target; Inky and Clyde wait in the house facing up toward the first
     * neighbour. All leave the starting node.
     */
    method Start(randomTile: Vec, root: real)
      requires Valid() && Maze() && currentNode == Some(startingNode) && DrawOk(randomTile, root)
      modifies this`isInGhostHouse, this`direction, this`targetNode, this`previousNode
      ensures Valid() && previousNode == Some(startingNode)
      ensures kind == Blinky ==>
        isInGhostHouse == old(isInGhostHouse) && direction == Left
        && targetNode == Some(Nbr(board.graph, startingNode, 0))
      ensures kind == Pinky ==>
        var c := NextFrom(startingNode, Up, TargetTile(currentGhostState, position, Seen(), randomTile, root));
        isInGhostHouse
        && (c.Some? ==> targetNode == Some(c.value.0) && direction == c.value.1)
        && (c.None? ==> targetNode == None && direction == Up)
      ensures kind == Inky || kind == Clyde ==>
        isInGhostHouse && direction == Up && targetNode == Some(Nbr(board.graph, startingNode, 0))
    {
      if kind == Blinky {
        direction, targetNode := Left, Some(Nbr(board.graph, startingNode, 0));
      } else if kind == Pinky {
        isInGhostHouse, direction := true, Up;
        targetNode := ChooseNextNode(randomTile, root);
      } else {
        isInGhostHouse, direction, targetNode := true, Up, Some(Nbr(board.graph, startingNode, 0));
      }
      previousNode := currentNode;
    }

    /**
     * ChooseNextNode: the target tile for the current state, then the
     * nearest allowed neighbour of the current node toward it; the ghost
     * turns to face it. With no allowed neighbour nearer than 100000 the
     * ghost gets no target and keeps its direction.
     */
    method ChooseNextNode(randomTile: Vec, root: real) returns (moveToNode: Option<nat>)
      requires Valid() && Maze() && currentNode.Some? && DrawOk(randomTile, root)
      modifies this`direction
      ensures Ref(moveToNode)
      ensures
        var c := NextFrom(currentNode.value, old(direction),
                          TargetTile(currentGhostState, position, Seen(), randomTile, root));
        (c.Some? ==> moveToNode == Some(c.value.0) && direction == c.value.1)
        && (c.None? ==> moveToNode == None && direction == old(direction))
    {
      var targetTile := TargetTile(currentGhostState, position, Seen(), randomTile, root);
      assert Degree(board.graph, currentNode.value) <= 4;
      FourNeighboursFit(board.graph, currentNode.value, direction);
      var newDirection;
      moveToNode, newDirection := SelectNeighbour(board.graph, currentNode.value, direction, targetTile);
      direction := newDirection;
    }

    /** Movement's guard: disabled, waiting in the ghost house, without a target or standing on it. */
    predicate Halted()
      reads this
    {
      !canMove || isInGhostHouse || targetNode.None? || targetNode == currentNode
    }

    predicate PassedNode(): (b: bool)
      reads this
      requires Ref(targetNode) && Ref(previousNode) && targetNode.Some? && previousNode.Some?
      ensures position == PosOf(targetNode.value) ==> !b
      ensures b ==> position != PosOf(previousNode.value)
    {
      Passed(position, PosOf(previousNode.value), PosOf(targetNode.value))
    }

    /**
     * Movement for a frame of `dt` seconds: passing the target snaps the
     * ghost onto it, applies any portal and chooses the next target from
     * there; otherwise the ghost advances by direction * speed * dt. A
     * ghost never turns back.
     */
    method Movement(dt: real, randomTile: Vec, root: real)
      requires Valid() && Maze() && board.Wiring() && board.GridOk() && DrawOk(randomTile, root)
      modifies this`direction, this`currentNode, this`targetNode, this`previousNode, this`position
      ensures Valid()
      ensures direction == old(direction) || direction != Neg(old(direction))
      ensures old(Halted()) ==>
        direction == old(direction) && position == old(position) && currentNode == old(currentNode)
        && targetNode == old(targetNode) && previousNode == old(previousNode)
      ensures !old(Halted()) ==>
        var target := old(targetNode).value;
        if !Passed(old(position), PosOf(old(previousNode).value), PosOf(target)) then
          position == Add(old(position), Scale(old(direction), currentMoveSpeed * dt))
          && direction == old(direction) && currentNode == old(currentNode)
          && targetNode == old(targetNode) && previousNode == old(previousNode)
        else
          var here := board.Arrival(target);
          var c := NextFrom(here, old(direction), TargetTile(currentGhostState, PosOf(here), Seen(), randomTile, root));
          position == PosOf(here) && previousNode == Some(here) && currentNode == None
          && (c.Some? ==> targetNode == Some(c.value.0) && direction == c.value.1)
          && (c.None? ==> targetNode == None && direction == old(direction))
    {
      if !canMove {
        return;
      }
      if targetNode != currentNode && targetNode.Some? && !isInGhostHouse {
        if PassedNode() {
          Arrive(randomTile, root);
        } else {
          position := Add(position, Scale(direction, currentMoveSpeed * dt));
        }
      }
    }

    /** Arrival at the target: snap onto it, apply any portal, choose the next target from there. */
    method Arrive(randomTile: Vec, root: real)
      requires Valid() && Maze() && board.Wiring() && board.GridOk() && DrawOk(randomTile, root)
      requires targetNode.Some?
      modifies this`direction, this`currentNode, this`targetNode, this`previousNode, this`position
      ensures Valid()
      ensures
        var here := board.Arrival(old(targetNode).value);
        var c := NextFrom(here, old(direction), TargetTile(currentGhostState, PosOf(here), Seen(), randomTile, root));
        position == PosOf(here) && previousNode == Some(here) && currentNode == None
        && (c.Some? ==> targetNode == Some(c.value.0) && direction == c.value.1)
        && (c.None? ==> targetNode == None && direction == old(direction))
    {
      ghost var here := board.Arrival(targetNode.value);
      ghost var heading := direction;
      currentNode := targetNode;
      position := PosOf(currentNode.value);
      CheckForPortals();
      assert currentNode == Some(here) && position == PosOf(here);
      ghost var c := NextFrom(here, heading, TargetTile(currentGhostState, position, Seen(), randomTile, root));
      targetNode := ChooseNextNode(randomTile, root);
      assert (c.Some? ==> targetNode == Some(c.value.0) && direction == c.value.1)
        && (c.None? ==> targetNode == None && direction == heading);
      previousNode := currentNode;
      currentNode := None;
    }

    /** CheckForPortals: standing on a portal's cell moves the ghost to its receiver. */
    method CheckForPortals()
      requires Valid() && board.Wiring() && board.GridOk() && currentNode.Some?
      modifies this`position, this`currentNode
      ensures Valid() && currentNode == Some(board.Arrival(old(currentNode).value))
      ensures board.PortalOf(old(currentNode).value).Some? ==> position == PosOf(currentNode.value)
      ensures board.PortalOf(old(currentNode).value).None? ==> position == old(position)
    {
      var otherPortal := board.PortalOf(currentNode.value);
      if otherPortal.Some? {
        position := PosOf(otherPortal.value);
        currentNode := otherPortal;
      }
    }

    /** ChangeState: the transition rule of GhostRules.Changed. */
    method ChangeState(toState: GhostState)
      modifies this`requestStateChange, this`currentGhostState, this`previousGhostState
      ensures Machine() == Changed(old(Machine()), toState)
    {
      if currentGhostState == toState {
        requestStateChange := false;
        return;
      }
      if requestStateChange {
        previousGhostState := currentGhostState;
        currentGhostState := toState;
      }
      requestStateChange := false;
    }

    /** UpdateGhostsTimers: the schedule while chasing or scattering, the fright timer while frightened, the eaten speed once eaten. */
    method UpdateGhostsTimers(dt: real)
      requires Valid()
      modifies this`currentMoveSpeed, this`timer, this`modeIndex, this`scaredTimer
      modifies this`requestStateChange, this`currentGhostState, this`previousGhostState, pacman`killStreak
      ensures Valid()
      ensures old(currentGhostState) == Chase || old(currentGhostState) == Scatter ==>
        Clock() == ModeStep(old(Clock()), ghostModes, dt) && currentMoveSpeed == normalMoveSpeed
        && scaredTimer == old(scaredTimer) && pacman.killStreak == old(pacman.killStreak)
      ensures old(currentGhostState) == Flee || old(currentGhostState) == Blinking ==>
        Fright() == ScaredStep(old(Fright()), startBlinkingAt, scaredDuration, dt)
        && currentMoveSpeed == scaredMoveSpeed && timer == old(timer) && modeIndex == old(modeIndex)
      ensures old(currentGhostState) == Eaten ==>
        currentMoveSpeed == eatenMoveSpeed && Clock() == old(Clock())
        && scaredTimer == old(scaredTimer) && pacman.killStreak == old(pacman.killStreak)
    {
      if currentGhostState == Chase || currentGhostState == Scatter {
        UpdateChaseScatterTimers(dt);
      } else if currentGhostState == Flee || currentGhostState == Blinking {
        UpdateScaredTimers(dt);
      } else if currentGhostState == Eaten {
        if currentMoveSpeed != eatenMoveSpeed {
          currentMoveSpeed := eatenMoveSpeed;
        }
      }
    }

    /** UpdateChaseScatterTimers: one frame of the Scatter/Chase schedule, GhostRules.ModeStep. */
    method UpdateChaseScatterTimers(dt: real)
      requires Valid() && (currentGhostState == Chase || currentGhostState == Scatter)
      modifies this`currentMoveSpeed, this`timer, this`modeIndex
      modifies this`requestStateChange, this`currentGhostState, this`previousGhostState
      ensures Valid()
      ensures Clock() == ModeStep(old(Clock()), ghostModes, dt) && currentMoveSpeed == normalMoveSpeed
    {
      if currentMoveSpeed != normalMoveSpeed {
        currentMoveSpeed := normalMoveSpeed;
      }
      timer := timer + dt;
      if currentGhostState == Scatter && timer > ghostModes[modeIndex].scatterModeTime {
        requestStateChange := true;
        ChangeState(Chase);
        timer := 0.0;
      }
      if currentGhostState == Chase && timer > ghostModes[modeIndex].chaseModeTime {
        if modeIndex != |ghostModes| - 1 {
          modeIndex := modeIndex + 1;
          requestStateChange := true;
          ChangeState(Scatter);
          timer := 0.0;
        } else {
          timer := 0.0;
        }
      }
    }

    /** UpdateScaredTimers: one frame of the fright timer, GhostRules.ScaredStep. */
    method UpdateScaredTimers(dt: real)
      requires currentGhostState == Flee || currentGhostState == Blinking
      modifies this`currentMoveSpeed, this`scaredTimer, pacman`killStreak
      modifies this`requestStateChange, this`currentGhostState, this`previousGhostState
      ensures Fright() == ScaredStep(old(Fright()), startBlinkingAt, scaredDuration, dt)
      ensures currentMoveSpeed == scaredMoveSpeed
    {
      if currentMoveSpeed != scaredMoveSpeed {
        currentMoveSpeed := scaredMoveSpeed;
      }
      scaredTimer := scaredTimer + dt;
      if scaredTimer >= startBlinkingAt && currentGhostState != Blinking {
        requestStateChange := true;
        ChangeState(Blinking);
      } else if scaredTimer > scaredDuration {
        pacman.killStreak := 1;
        requestStateChange := true;
        ChangeState(Chase);
        scaredTimer := 0.0;
      }
    }

    /** StartFleeState, raised by a super pacpoint: GhostRules.FleeStarted. */
    method StartFleeState()
      modifies this`scaredTimer, this`requestStateChange, this`currentGhostState, this`previousGhostState
      ensures (Machine(), scaredTimer) == FleeStarted(old(Machine()), old(scaredTimer))
    {
      if currentGhostState == Eaten {
        return;
      }
      scaredTimer := 0.0;
      requestStateChange := true;
      ChangeState(Flee);
    }

    /** CalculateScore: 200 doubled for each ghost already in the streak; kept for the interface. */
    method CalculateScore() returns (x: int)
      requires pacman.killStreak >= 1
      modifies this`previousScore
      ensures x == GhostScore(pacman.killStreak) && previousScore == x
    {
      x := GhostScore(pacman.killStreak);
      previousScore := x;
    }

    /**
     * OnEaten, on touching Pacman: a chasing or scattering ghost kills him; a
     * frightened one is eaten, scoring by the kill streak (wrapped after the
     * fourth ghost), which then grows; an eaten one does nothing.
     */
    method OnEaten()
      requires Valid() && board.Valid() && pacman.killStreak >= 1
      modifies this`requestStateChange, this`currentGhostState, this`previousGhostState, this`previousScore
      modifies shared`caughtPacman, pacman`isDead, pacman`killStreak
      modifies board.Current()`pacpointsConsumed, board.Current()`score
      ensures board.Valid()
      ensures old(currentGhostState) == Chase || old(currentGhostState) == Scatter ==>
        shared.caughtPacman && pacman.isDead && Machine() == old(Machine())
        && pacman.killStreak == old(pacman.killStreak) && board.Current().score == old(board.Current().score)
        && board.Current().pacpointsConsumed == old(board.Current().pacpointsConsumed)
        && previousScore == old(previousScore)
      ensures old(currentGhostState) == Flee || old(currentGhostState) == Blinking ==>
        var eaten := EatGhost(old(pacman.killStreak));
        Machine() == Requested(old(Machine()), Eaten)
        && previousScore == eaten.0 && pacman.killStreak == eaten.1
        && board.Current().score == old(board.Current().score) + eaten.0
        && board.Current().pacpointsConsumed == old(board.Current().pacpointsConsumed)
        && shared.caughtPacman == old(shared.caughtPacman) && pacman.isDead == old(pacman.isDead)
      ensures old(currentGhostState) == Eaten ==>
        Machine() == old(Machine()) && pacman.killStreak == old(pacman.killStreak)
        && board.Current().score == old(board.Current().score)
        && board.Current().pacpointsConsumed == old(board.Current().pacpointsConsumed)
        && previousScore == old(previousScore)
        && shared.caughtPacman == old(shared.caughtPacman) && pacman.isDead == old(pacman.isDead)
    {
      if currentGhostState == Chase || currentGhostState == Scatter {
        shared.caughtPacman := true;
        pacman.StartDeath();
      } else if currentGhostState != Eaten {
        requestStateChange := true;
        ChangeState(Eaten);
        if pacman.killStreak > 4 {
          pacman.killStreak := 1;
        }
        var score := CalculateScore();
        board.UpdateScore(score, true, false);
        pacman.killStreak := pacman.killStreak + 1;
      }
    }

    /** The eaten ghost is back: it last left the ghost-house node. */
    predicate AtGhostHouse()
      reads this
    {
      currentGhostState == Eaten && previousNode == Some(ghostHouseNode)
    }

    /** CheckIfItIsAtGhostHouse: an eaten ghost that reached the house heads out upward and chases again. */
    method CheckIfItIsAtGhostHouse()
      requires Valid() && Maze()
      modifies this`targetNode, this`direction
      modifies this`requestStateChange, this`currentGhostState, this`previousGhostState
      ensures Valid()
      ensures old(AtGhostHouse()) ==>
        targetNode == Some(Nbr(board.graph, ghostHouseNode, 0)) && direction == Up
        && Machine() == Requested(old(Machine()), Chase)
      ensures !old(AtGhostHouse()) ==>
        targetNode == old(targetNode) && direction == old(direction) && Machine() == old(Machine())
    {
      if currentGhostState == Eaten {
        if previousNode == Some(ghostHouseNode) {
          targetNode := Some(Nbr(board.graph, ghostHouseNode, 0));
          direction := Up;
          requestStateChange := true;
          ChangeState(Chase);
        }
      }
    }

    /** The release time each ghost reads from a difficulty; Blinky has none. */
    function ReleaseTimeOf(d: LevelDifficulty, current: real): (r: real)
      ensures kind == Blinky ==> r == current
      ensures kind == Pinky ==> r == d.pinkyReleaseTime
      ensures kind == Inky ==> r == d.inkyReleaseTime
      ensures kind == Clyde ==> r == d.clydeReleaseTime
    {
      match kind
      case Blinky => current
      case Pinky => d.pinkyReleaseTime
      case Inky => d.inkyReleaseTime
      case Clyde => d.clydeReleaseTime
    }

    /**
     * SetGhostsSettings: the current difficulty's speeds, fright times, mode
     * table and release time. The mode index must fit the new table.
     */
    method SetGhostsSettings()
      requires Valid()
      requires board.currentLevelDifficulty.Some? ==>
        modeIndex < |board.currentLevelDifficulty.value.ghostModes|
      modifies this`normalMoveSpeed, this`scaredMoveSpeed, this`eatenMoveSpeed
      modifies this`scaredDuration, this`startBlinkingAt, this`ghostModes, this`releaseTime
      ensures Valid()
      ensures board.currentLevelDifficulty.Some? ==>
        var d := board.currentLevelDifficulty.value;
        normalMoveSpeed == d.ghostsSpeed && scaredMoveSpeed == d.ghostScaredSpeed
        && eatenMoveSpeed == d.ghostsEatenSpeed && scaredDuration == d.ghostsScareDuration
        && startBlinkingAt == d.ghostsStartBlinkingAt && ghostModes == d.ghostModes
        && releaseTime == ReleaseTimeOf(d, old(releaseTime))
      ensures board.currentLevelDifficulty.None? ==>
        normalMoveSpeed == old(normalMoveSpeed) && scaredMoveSpeed == old(scaredMoveSpeed)
        && eatenMoveSpeed == old(eatenMoveSpeed) && scaredDuration == old(scaredDuration)
        && startBlinkingAt == old(startBlinkingAt) && ghostModes == old(ghostModes)
        && releaseTime == old(releaseTime)
    {
      if board.currentLevelDifficulty.Some? {
        var difficulty := board.currentLevelDifficulty.value;
        normalMoveSpeed := difficulty.ghostsSpeed;
        scaredMoveSpeed := difficulty.ghostScaredSpeed;
        eatenMoveSpeed := difficulty.ghostsEatenSpeed;
        scaredDuration := difficulty.ghostsScareDuration;
        startBlinkingAt := difficulty.ghostsStartBlinkingAt;
        ghostModes := difficulty.ghostModes;
        releaseTime := ReleaseTimeOf(difficulty, releaseTime);
      }
    }

    /** CheckTimeToRelease (Pinky, Inky, Clyde): the house timer runs while the ghost may move. */
    method CheckTimeToRelease(dt: real)
      modifies this`releaseTimer, this`isInGhostHouse
      ensures releaseTimer == if canMove then old(releaseTimer) + dt else old(releaseTimer)
      ensures isInGhostHouse == (old(isInGhostHouse) && releaseTimer <= releaseTime)
    {
      if canMove {
        releaseTimer := releaseTimer + dt;
      }
      if releaseTimer > releaseTime {
        Release();
      }
    }

    method Release()
      modifies this`isInGhostHouse
      ensures !isInGhostHouse
    {
      if isInGhostHouse {
        isInGhostHouse := false;
      }
    }

    /**
     * The base Update for a frame: move, run the timers, check the ghost
     * house, and drop the target once Pacman is caught.
     */
    method BaseUpdate(dt: real, randomTile: Vec, root: real)
      requires Valid() && Maze() && board.Wiring() && board.GridOk() && DrawOk(randomTile, root)
      modifies this`direction, this`currentNode, this`targetNode, this`previousNode, this`position
      modifies this`currentMoveSpeed, this`timer, this`modeIndex, this`scaredTimer
      modifies this`requestStateChange, this`currentGhostState, this`previousGhostState, pacman`killStreak
      ensures Valid()
      ensures shared.caughtPacman ==> targetNode == None
    {
      Movement(dt, randomTile, root);
      UpdateGhostsTimers(dt);
      CheckIfItIsAtGhostHouse();
      if shared.caughtPacman && targetNode.Some? {
        targetNode := None;
      }
    }

    /** Update: the base frame, then for Pinky, Inky and Clyde the release timer. */
    method Update(dt: real, randomTile: Vec, root: real)
      requires Valid() && Maze() && board.Wiring() && board.GridOk() && DrawOk(randomTile, root)
      modifies this`direction, this`currentNode, this`targetNode, this`previousNode, this`position
      modifies this`currentMoveSpeed, this`timer, this`modeIndex, this`scaredTimer
      modifies this`requestStateChange, this`currentGhostState, this`previousGhostState, pacman`killStreak
      modifies this`releaseTimer, this`isInGhostHouse
      ensures Valid()
      ensures shared.caughtPacman ==> targetNode == None
      ensures kind != Blinky ==> releaseTimer == if canMove then old(releaseTimer) + dt else old(releaseTimer)
      ensures kind != Blinky ==> isInGhostHouse == (old(isInGhostHouse) && releaseTimer <= releaseTime)
      ensures kind == Blinky ==> isInGhostHouse == old(isInGhostHouse) && releaseTimer == old(releaseTimer)
    {
      BaseUpdate(dt, randomTile, root);
      if kind != Blinky {
        CheckTimeToRelease(dt);
      }
    }

    /** OnGameStart: clear the shared caught flag and load the difficulty. */
    method OnGameStart()
      requires Valid()
      requires board.currentLevelDifficulty.Some? ==>
        modeIndex < |board.currentLevelDifficulty.value.ghostModes|
      modifies shared`caughtPacman, this`normalMoveSpeed, this`scaredMoveSpeed, this`eatenMoveSpeed
      modifies this`scaredDuration, this`startBlinkingAt, this`ghostModes, this`releaseTime
      ensures Valid() && !shared.caughtPacman
      ensures board.currentLevelDifficulty.Some? ==>
        var d := board.currentLevelDifficulty.value;
        normalMoveSpeed == d.ghostsSpeed && scaredMoveSpeed == d.ghostScaredSpeed
        && eatenMoveSpeed == d.ghostsEatenSpeed && scaredDuration == d.ghostsScareDuration
        && startBlinkingAt == d.ghostsStartBlinkingAt && ghostModes == d.ghostModes
        && releaseTime == ReleaseTimeOf(d, old(releaseTime))
      ensures board.currentLevelDifficulty.None? ==>
        normalMoveSpeed == old(normalMoveSpeed) && scaredMoveSpeed == old(scaredMoveSpeed)
        && eatenMoveSpeed == old(eatenMoveSpeed) && scaredDuration == old(scaredDuration)
        && startBlinkingAt == old(startBlinkingAt) && ghostModes == old(ghostModes)
        && releaseTime == old(releaseTime)
    {
      shared.caughtPacman := false;
      SetGhostsSettings();
    }

    /** OnAfterGameStart: the ghost may move and picks its first target. */
    method OnAfterGameStart(randomTile: Vec, root: real)
      requires Valid() && Maze() && currentNode.Some? && previousNode.Some? && DrawOk(randomTile, root)
      modifies this`canMove, this`targetNode, this`direction
      ensures Valid() && canMove
      ensures
        var c := NextFrom(currentNode.value, old(direction),
                          TargetTile(currentGhostState, position, Seen(), randomTile, root));
        (c.Some? ==> targetNode == Some(c.value.0) && direction == c.value.1)
        && (c.None? ==> targetNode == None && direction == old(direction))
    {
      canMove := true;
      targetNode := ChooseNextNode(randomTile, root);
    }

    /**
     * The base OnGameBoardRestart: frozen, back on the starting node with no
     * target, the shared caught flag cleared, the schedule and timers
     * restarted, Scatter requested.
     */
    method ResetToStart()
      requires Valid()
      modifies this`canMove, this`requestStateChange, this`targetNode, this`currentNode, this`previousNode
      modifies this`modeIndex, this`timer, this`scaredTimer, this`position
      modifies this`currentGhostState, this`previousGhostState, shared`caughtPacman
      ensures Valid() && !canMove && !shared.caughtPacman && targetNode == None
      ensures currentNode == Some(startingNode) && previousNode == Some(startingNode)
      ensures modeIndex == 0 && timer == 0.0 && scaredTimer == 0.0 && position == PosOf(startingNode)
      ensures Machine() == Requested(old(Machine()), Scatter)
    {
      canMove, requestStateChange, shared.caughtPacman := false, true, false;
      targetNode, currentNode, previousNode := None, Some(startingNode), Some(startingNode);
      modeIndex, timer, scaredTimer, position := 0, 0.0, 0.0, PosOf(startingNode);
      ChangeState(Scatter);
    }

    /** OnGameBoardRestart with the override of Pinky, Inky and Clyde: back into the ghost house, release timer restarted. */
    method OnGameBoardRestart()
      requires Valid()
      modifies this`canMove, this`requestStateChange, this`targetNode, this`currentNode, this`previousNode
      modifies this`modeIndex, this`timer, this`scaredTimer, this`position
      modifies this`currentGhostState, this`previousGhostState, this`isInGhostHouse, this`releaseTimer
      modifies shared`caughtPacman
      ensures Valid() && !canMove && !shared.caughtPacman && targetNode == None
      ensures currentNode == Some(startingNode) && previousNode == Some(startingNode)
      ensures modeIndex == 0 && timer == 0.0 && scaredTimer == 0.0 && position == PosOf(startingNode)
      ensures Machine() == Requested(old(Machine()), Scatter)
      ensures kind != Blinky ==> isInGhostHouse && releaseTimer == 0.0
      ensures kind == Blinky ==> isInGhostHouse == old(isInGhostHouse) && releaseTimer == old(releaseTimer)
    {
      ResetToStart();
      if kind != Blinky {
        isInGhostHouse, releaseTimer := true, 0.0;
      }
    }

    /**
     * OnAfterGameBoardRestart: Blinky faces left and Pinky up, each choosing
     * a target; Inky and Clyde face up toward their first neighbour. All
     * may move again.
     */
    method OnAfterGameBoardRestart(randomTile: Vec, root: real)
      requires Valid() && Maze() && currentNode.Some? && DrawOk(randomTile, root)
      requires kind == Inky || kind == Clyde ==> |board.graph[currentNode.value].neighbours| > 0
      modifies this`direction, this`targetNode, this`previousNode, this`canMove
      ensures Valid() && canMove && previousNode == currentNode
      ensures kind == Blinky || kind == Pinky ==>
        var start := if kind == Blinky then Left else Up;
        var c := NextFrom(currentNode.value, start, TargetTile(currentGhostState, position, Seen(), randomTile, root));
        (c.Some? ==> targetNode == Some(c.value.0) && direction == c.value.1)
        && (c.None? ==> targetNode == None && direction == start)
      ensures kind == Inky || kind == Clyde ==>
        direction == Up && targetNode == Some(Nbr(board.graph, currentNode.value, 0))
    {
      if kind == Blinky || kind == Pinky {
        direction := if kind == Blinky then Left else Up;
        targetNode := ChooseNextNode(randomTile, root);
      } else {
        direction := Up;
        targetNode := Some(Nbr(board.graph, currentNode.value, 0));
      }
      previousNode := currentNode;
      canMove := true;
    }

    method OnGhostEaten()
      modifies this`canMove
      ensures !canMove
    {
      canMove := false;
    }

    method OnAfterGhostEaten()
      modifies this`canMove
      ensures canMove
    {
      canMove := true;
    }

    method OnLevelWin()
      modifies this`canMove
      ensures !canMove
    {
      canMove := false;
    }
  }
}
