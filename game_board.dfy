/**
 * GameBoard.cs: the board singleton. It owns the 28 x 36 node grid, the
 * difficulty table, the two players' stats and saved pellet states, and the
 * pellets and bonus items of the scene. The coroutines NewGame, Restart,
 * GameOver and Win are modelled as the bookkeeping they do, in one step
 * each; the events they raise are handled by the agents' own methods.
 */
module Board {
  import opened Optional
  import opened Geometry
  import opened Nodes
  import opened Levels
  import opened Stats
  import opened BoardRules

  class GameBoard {
    /** The scene's nodes after their Start (see Nodes.StartAll). */
    const graph: Graph
    /** `_board`: the node stored in each truncated cell, if any. */
    const grid: array2<Option<nat>>
    var totalPacpoints: int
    var currentGameState: GameState
    var processWinLevel: bool
    const multiplayer: bool
    var showBonusItem1: bool
    var showBonusItem2: bool
    var currentPlayer: Players
    const playerOne: PlayerStats
    /** Null in a one-player game. */
    const playerTwo: PlayerStats?
    var playerOneBoardState: array?<bool>
    var playerTwoBoardState: array?<bool>
    var currentLevelDifficulty: Option<LevelDifficulty>
    /** Profile `i` here is the dictionary entry under key `i + 1`. */
    var levelDifficulties: seq<LevelDifficulty>
    /** Whether each plain pellet (child of the board's second child) is active. */
    const pacpoints: array<bool>
    /** Whether each super pellet (child of the board's third child) is active. */
    const superPacpoints: array<bool>
    const bonusItemNames: seq<string>
    const bonusItemsActive: array<bool>

    /** Every grid entry is a node of the graph. */
    predicate GridOk()
      reads grid
    {
      && grid.Length0 == BoardWidth && grid.Length1 == BoardHeight
      && forall x, y :: 0 <= x < BoardWidth && 0 <= y < BoardHeight && grid[x, y].Some? ==>
           grid[x, y].value < |graph|
    }

    /** A saved pellet state has one slot per pellet and is not a pellet array. */
    predicate SavedOk(saved: array?<bool>)
    {
      saved != null ==>
        saved.Length == pacpoints.Length + superPacpoints.Length &&
        saved != pacpoints && saved != superPacpoints
    }

    /** The parts of the board fixed at start-up: the scene and the players. */
    predicate Wiring()
    {
      && GraphOk(graph)
      && grid.Length0 == BoardWidth && grid.Length1 == BoardHeight
      && (multiplayer <==> playerTwo != null)
      && playerTwo != playerOne
      && pacpoints != superPacpoints
      && |bonusItemNames| == bonusItemsActive.Length
    }

    predicate Valid()
      reads this, playerOne, playerTwo, grid
    {
      && Wiring() && GridOk()
      && (currentPlayer == PlayerTwo ==> playerTwo != null)
      && playerOne.currentLevel >= 1
      && (playerTwo != null ==> playerTwo.currentLevel >= 1)
      && |levelDifficulties| > 0
      && totalPacpoints == pacpoints.Length + SuperPacpointAllowance
      && SavedOk(playerOneBoardState) && SavedOk(playerTwoBoardState)
      && (multiplayer && currentGameState != NewGame ==>
            playerOneBoardState != null && playerTwoBoardState != null)
    }

    /** GetPlayerStats. */
    function StatsOf(p: Players): PlayerStats
      reads this
      requires p == PlayerTwo ==> playerTwo != null
    {
      if p == PlayerOne then playerOne else playerTwo
    }

    function Current(): PlayerStats
      reads this
      requires currentPlayer == PlayerTwo ==> playerTwo != null
    {
      StatsOf(currentPlayer)
    }

    function SavedFor(p: Players): array?<bool>
      reads this
    {
      if p == PlayerOne then playerOneBoardState else playerTwoBoardState
    }

    /** Awake and Init: every pellet active, one or two players at level 1 with 3 lives. */
    constructor (graph: Graph, pellets: nat, supers: nat, multiplayer: bool,
                 assets: seq<LevelDifficulty>, bonusItemNames: seq<string>)
      requires GraphOk(graph) && |assets| > 0
      ensures Valid()
      ensures this.graph == graph && this.multiplayer == multiplayer && this.bonusItemNames == bonusItemNames
      ensures forall x, y :: 0 <= x < BoardWidth && 0 <= y < BoardHeight ==>
        grid[x, y] == LastInCell(graph, x, y, |graph|)
      ensures totalPacpoints == pellets + SuperPacpointAllowance
      ensures levelDifficulties == assets && currentLevelDifficulty == None
      ensures currentGameState == NewGame && currentPlayer == PlayerOne && !processWinLevel
      ensures !showBonusItem1 && !showBonusItem2
      ensures playerOne.currentLevel == 1 && playerOne.lives == 3 && playerOne.score == 0
      ensures playerOne.pacpointsConsumed == 0 && !playerOne.bonusItemShown
      ensures playerTwo != null ==>
        playerTwo.currentLevel == 1 && playerTwo.lives == 3 && playerTwo.score == 0 &&
        playerTwo.pacpointsConsumed == 0 && !playerTwo.bonusItemShown
      ensures playerOneBoardState == null && playerTwoBoardState == null
      ensures pacpoints[..] == seq(pellets, _ => true) && superPacpoints[..] == seq(supers, _ => true)
      ensures bonusItemsActive[..] == seq(|bonusItemNames|, _ => false)
      ensures fresh(grid) && fresh(pacpoints) && fresh(superPacpoints) && fresh(bonusItemsActive)
      ensures fresh(playerOne) && (playerTwo != null ==> fresh(playerTwo))
    {
      this.graph := graph;
      this.multiplayer := multiplayer;
      this.bonusItemNames := bonusItemNames;
      grid := new Option<nat>[BoardWidth, BoardHeight]((_, _) => None);
      pacpoints := new bool[pellets](_ => true);
      superPacpoints := new bool[supers](_ => true);
      bonusItemsActive := new bool[|bonusItemNames|](_ => false);
      var one, two := NewPlayers(multiplayer);
      playerOne := one;
      playerTwo := two;
      currentGameState := NewGame;
      currentPlayer := PlayerOne;
      showBonusItem1 := false;
      showBonusItem2 := false;
      processWinLevel := false;
      playerOneBoardState := null;
      playerTwoBoardState := null;
      currentLevelDifficulty := None;
      levelDifficulties := [];
      totalPacpoints := 0;
      new;
      FindAllPacpoints();
      FindAllNodes();
      LoadLevelsData(assets);
    }

    /** The players Init creates: level 1, 3 lives, no score; a second one only for two players. */
    static method NewPlayers(multiplayer: bool) returns (one: PlayerStats, two: PlayerStats?)
      ensures fresh(one) && (two != null ==> fresh(two)) && (two != null <==> multiplayer) && two != one
      ensures one.currentLevel == 1 && one.lives == 3 && one.score == 0
      ensures one.pacpointsConsumed == 0 && !one.bonusItemShown
      ensures two != null ==>
        two.currentLevel == 1 && two.lives == 3 && two.score == 0 &&
        two.pacpointsConsumed == 0 && !two.bonusItemShown
    {
      one := new PlayerStats(1, 3, 0);
      if multiplayer {
        two := new PlayerStats(1, 3, 0);
      } else {
        two := null;
      }
    }

    /** FindAllPacpoints: the level total is the plain pellets plus four. */
    method FindAllPacpoints()
      modifies this`totalPacpoints
      ensures totalPacpoints == pacpoints.Length + SuperPacpointAllowance
    {
      totalPacpoints := pacpoints.Length + SuperPacpointAllowance;
    }

    /**
     * FindAllNodes: each node is stored, in order, at the truncated cell of
     * its position; a cell keeps the last node stored there.
     */
    method FindAllNodes()
      requires GridOk()
      requires forall n :: 0 <= n < |graph| ==> NodeInBoard(graph, n)
      modifies grid
      ensures GridOk()
      ensures forall x, y :: 0 <= x < BoardWidth && 0 <= y < BoardHeight ==>
        grid[x, y] == if LastInCell(graph, x, y, |graph|).Some? then LastInCell(graph, x, y, |graph|)
                      else old(grid[x, y])
    {
      for i := 0 to |graph|
        invariant GridOk()
        invariant forall x, y :: 0 <= x < BoardWidth && 0 <= y < BoardHeight ==>
          grid[x, y] == if LastInCell(graph, x, y, i).Some? then LastInCell(graph, x, y, i)
                        else old(grid[x, y])
      {
        assert NodeInBoard(graph, i);
        var cell := Cell(graph[i].pos);
        grid[cell.0, cell.1] := Some(i);
      }
    }

    /**
     * GetPortalNodeAtPosition: the receiver of the portal stored in the
     * position's cell, if that node is a portal and has one.
     */
    function PortalAt(pos: Vec): (r: Option<nat>)
      reads grid
      requires Wiring() && GridOk() && InBoard(pos)
      ensures r.Some? ==> r.value < |graph|
      ensures r.Some? ==> grid[Cell(pos).0, Cell(pos).1].Some?
    {
      var cell := Cell(pos);
      var found := PortalLookup(graph, grid[cell.0, cell.1]);
      assert found.Some? ==> LinksOk(graph, grid[cell.0, cell.1].value);
      found
    }

    /**
     * The node an agent stands on after snapping onto node `n`: the agents'
     * CheckForPortals moves it to the receiver of the portal in that cell,
     * if there is one.
     */
    function Arrival(n: nat): (m: nat)
      reads grid
      requires Wiring() && GridOk() && n < |graph|
      ensures m < |graph|
      ensures m != n ==> PortalOf(n) == Some(m)
    {
      match PortalOf(n)
      case Some(r) => r
      case None => n
    }

    /** GetPortalNodeAtPosition at node `n`'s own position. */
    function PortalOf(n: nat): (r: Option<nat>)
      reads grid
      requires Wiring() && GridOk() && n < |graph|
      ensures r.Some? ==> r.value < |graph|
    {
      assert NodeInBoard(graph, n);
      PortalAt(graph[n].pos)
    }

    /** LoadLevelsData: profile i of the load order goes under key i + 1. */
    method LoadLevelsData(assets: seq<LevelDifficulty>)
      requires levelDifficulties == []
      modifies this`levelDifficulties
      ensures levelDifficulties == assets
    {
      for i := 0 to |assets|
        invariant levelDifficulties == assets[..i]
      {
        levelDifficulties := levelDifficulties + [assets[i]];
      }
    }

    /** ChangeLevelDifficulty: the profile for the player's level, clamped to the last. */
    method ChangeLevelDifficulty(p: Players)
      requires Valid() && (p == PlayerTwo ==> playerTwo != null)
      modifies this`currentLevelDifficulty
      ensures Valid()
      ensures currentLevelDifficulty.Some?
      ensures currentLevelDifficulty == DifficultyFor(levelDifficulties, StatsOf(p).currentLevel)
    {
      var level := StatsOf(p).currentLevel;
      if level > |levelDifficulties| {
        currentLevelDifficulty := Some(levelDifficulties[|levelDifficulties| - 1]);
      } else {
        currentLevelDifficulty := Some(levelDifficulties[level - 1]);
      }
    }

    /**
     * UpdateScore: the value always goes to the current player's score; the
     * pellet counter grows only for a pickup that is neither a ghost nor a
     * bonus item.
     */
    method UpdateScore(value: int, isGhost: bool, isBonusItem: bool)
      requires Valid()
      modifies Current()`pacpointsConsumed, Current()`score
      ensures Valid()
      ensures (Current().pacpointsConsumed, Current().score) ==
        ScoreStep(old(Current().pacpointsConsumed), old(Current().score), ScoreEvent(value, isGhost, isBonusItem))
    {
      var stats := Current();
      if !isGhost && !isBonusItem {
        stats.pacpointsConsumed := stats.pacpointsConsumed + 1;
      }
      stats.score := stats.score + value;
    }

    /** WinLevel. */
    function WinLevel(p: Players): (won: bool)
      reads this, playerOne, playerTwo
      requires p == PlayerTwo ==> playerTwo != null
      ensures won <==> LevelWon(StatsOf(p).pacpointsConsumed, totalPacpoints)
    {
      StatsOf(p).pacpointsConsumed >= totalPacpoints
    }

    /**
     * SaveBoardState: a fresh array holding the plain pellets' flags at
     * 0..p-1 and the super pellets' flags at p..p+s-1. (The source places
     * super pellet i at lastIndex + i + 1; see SuperSlotAsWritten.)
     */
    method SaveBoardState(player: Players)
      modifies this`playerOneBoardState, this`playerTwoBoardState
      ensures SavedFor(player) != null && fresh(SavedFor(player))
      ensures SavedFor(player)[..] == pacpoints[..] + superPacpoints[..]
      ensures SavedFor(Other(player)) == old(SavedFor(Other(player)))
    {
      var state := PackPellets();
      if player == PlayerOne {
        playerOneBoardState := state;
      } else {
        playerTwoBoardState := state;
      }
    }

    /** The packing loops of SaveBoardState. */
    method PackPellets() returns (state: array<bool>)
      ensures fresh(state)
      ensures state[..] == pacpoints[..] + superPacpoints[..]
    {
      var p := pacpoints.Length;
      var s := superPacpoints.Length;
      state := new bool[p + s];
      for i := 0 to p
        invariant forall k :: 0 <= k < i ==> state[k] == pacpoints[k]
      {
        state[i] := pacpoints[i];
      }
      for i := 0 to s
        invariant forall k :: 0 <= k < p ==> state[k] == pacpoints[k]
        invariant forall k :: 0 <= k < i ==> state[p + k] == superPacpoints[k]
      {
        state[SuperSlot(p, s, i)] := superPacpoints[i];
      }
      assert state[..] == pacpoints[..] + superPacpoints[..];
    }

    /** The early returns of LoadBoardState. */
    predicate NothingToLoad(): (r: bool)
      reads this
      ensures !r && playerOneBoardState != null ==>
        playerOneBoardState.Length > 0 && (playerTwoBoardState != null ==> playerTwoBoardState.Length > 0)
      ensures !r && playerOneBoardState == null ==> playerTwoBoardState != null
    {
      || (playerOneBoardState == null && playerTwoBoardState == null)
      || (playerOneBoardState != null &&
          (playerOneBoardState.Length == 0 ||
           (playerTwoBoardState != null && playerTwoBoardState.Length == 0)))
    }

    /**
     * LoadBoardState: the pellets take the player's saved flags; when player
     * one has no saved state every pellet is switched off. The source
     * dereferences player two's state whenever player one's is non-empty.
     */
    method LoadBoardState(player: Players)
      requires SavedOk(playerOneBoardState) && SavedOk(playerTwoBoardState)
      requires pacpoints != superPacpoints
      requires playerOneBoardState != null && playerOneBoardState.Length != 0 ==>
        playerTwoBoardState != null
      modifies pacpoints, superPacpoints
      ensures NothingToLoad() ==>
        pacpoints[..] == old(pacpoints[..]) && superPacpoints[..] == old(superPacpoints[..])
      ensures !NothingToLoad() && SavedFor(player) != null ==>
        pacpoints[..] + superPacpoints[..] == SavedFor(player)[..]
      ensures !NothingToLoad() && SavedFor(player) == null ==>
        player == PlayerOne &&
        pacpoints[..] == seq(pacpoints.Length, _ => false) &&
        superPacpoints[..] == seq(superPacpoints.Length, _ => false)
    {
      if playerOneBoardState == null && playerTwoBoardState == null {
        return;
      }
      if playerOneBoardState != null &&
         (playerOneBoardState.Length == 0 || playerTwoBoardState.Length == 0) {
        return;
      }
      var p := pacpoints.Length;
      var s := superPacpoints.Length;
      var one := playerOneBoardState;
      if player == PlayerOne {
        for i := 0 to p
          invariant forall k :: 0 <= k < i ==> pacpoints[k] == (one != null && one[k])
          invariant superPacpoints[..] == old(superPacpoints[..])
        {
          pacpoints[i] := one != null && one[i];
        }
        for i := 0 to s
          invariant forall k :: 0 <= k < p ==> pacpoints[k] == (one != null && one[k])
          invariant forall k :: 0 <= k < i ==> superPacpoints[k] == (one != null && one[p + k])
        {
          superPacpoints[i] := one != null && one[SuperSlot(p, s, i)];
        }
        if one != null {
          assert pacpoints[..] + superPacpoints[..] == one[..];
        }
      } else {
        var two := playerTwoBoardState;
        for i := 0 to p
          invariant forall k :: 0 <= k < i ==> pacpoints[k] == two[k]
          invariant superPacpoints[..] == old(superPacpoints[..])
        {
          pacpoints[i] := two[i];
        }
        for i := 0 to s
          invariant forall k :: 0 <= k < p ==> pacpoints[k] == two[k]
          invariant forall k :: 0 <= k < i ==> superPacpoints[k] == two[p + k]
        {
          superPacpoints[i] := two[SuperSlot(p, s, i)];
        }
        assert pacpoints[..] + superPacpoints[..] == two[..];
      }
    }

    /** SwapCurrentPlayer: only a two-player game has a second player to swap to. */
    method SwapCurrentPlayer()
      requires Valid() && multiplayer
      modifies this`currentPlayer
      ensures Valid()
      ensures currentPlayer == Other(old(currentPlayer))
    {
      currentPlayer := if currentPlayer == PlayerOne then PlayerTwo else PlayerOne;
    }

    /**
     * The bookkeeping of the NewGame coroutine: the difficulty for the
     * current player's level; in a two-player game both players' pellet
     * states are saved; then the game is running.
     */
    method StartNewGame()
      requires Valid() && currentGameState == NewGame
      modifies this`currentLevelDifficulty, this`playerOneBoardState, this`playerTwoBoardState,
        this`currentGameState
      ensures Valid() && currentGameState == InGame
      ensures currentLevelDifficulty == DifficultyFor(levelDifficulties, Current().currentLevel)
      ensures multiplayer ==>
        playerOneBoardState[..] == pacpoints[..] + superPacpoints[..] &&
        playerTwoBoardState[..] == pacpoints[..] + superPacpoints[..]
      ensures !multiplayer ==> unchanged(this`playerOneBoardState, this`playerTwoBoardState)
    {
      ChangeLevelDifficulty(currentPlayer);
      if multiplayer {
        SaveBoardState(PlayerOne);
        SaveBoardState(PlayerTwo);
      }
      currentGameState := InGame;
    }

    /**
     * StartRestart, after Pacman's death: the current player loses a life
     * and their pellets are saved. With no life left the game is over for
     * them; otherwise a two-player game passes the turn and restores the
     * other player's pellets, and the difficulty follows the player now on.
     */
    method StartRestart()
      requires Valid() && currentGameState != NewGame
      modifies this`currentGameState, this`currentPlayer, this`currentLevelDifficulty,
        this`playerOneBoardState, this`playerTwoBoardState, this`showBonusItem1, this`showBonusItem2
      modifies Current()`lives, pacpoints, superPacpoints
      ensures Valid()
      ensures old(Current()).lives == AfterLoss(old(Current().lives))
      ensures SavedFor(old(currentPlayer)) != null && fresh(SavedFor(old(currentPlayer)))
      ensures SavedFor(old(currentPlayer))[..] == old(pacpoints[..]) + old(superPacpoints[..])
      ensures !showBonusItem1 && !showBonusItem2
      ensures old(Current()).lives == 0 ==>
        currentGameState == GameOver && currentPlayer == old(currentPlayer) &&
        currentLevelDifficulty == old(currentLevelDifficulty)
      ensures old(Current()).lives != 0 ==>
        && currentGameState == Restart
        && currentPlayer == (if multiplayer then Other(old(currentPlayer)) else old(currentPlayer))
        && currentLevelDifficulty == DifficultyFor(levelDifficulties, Current().currentLevel)
      ensures old(Current()).lives != 0 && multiplayer ==>
        pacpoints[..] + superPacpoints[..] == SavedFor(currentPlayer)[..]
      ensures !(old(Current()).lives != 0 && multiplayer) ==>
        pacpoints[..] == old(pacpoints[..]) && superPacpoints[..] == old(superPacpoints[..])
    {
      LoseLifeAndSave();
      if Current().GameOver() {
        currentGameState := GameOver;
      } else {
        if multiplayer {
          PassTurn();
        }
        ChangeLevelDifficulty(currentPlayer);
      }
    }

    /**
     * StartRestart as evidently intended: the turn passes only to a player
     * who still has lives, so the player on after a restart always has lives.
     */
    method StartRestartSkippingEliminated()
      requires Valid() && currentGameState != NewGame
      modifies this`currentGameState, this`currentPlayer, this`currentLevelDifficulty,
        this`playerOneBoardState, this`playerTwoBoardState, this`showBonusItem1, this`showBonusItem2
      modifies Current()`lives, pacpoints, superPacpoints
      ensures Valid()
      ensures old(Current()).lives == AfterLoss(old(Current().lives))
      ensures SavedFor(old(currentPlayer)) != null && fresh(SavedFor(old(currentPlayer)))
      ensures SavedFor(old(currentPlayer))[..] == old(pacpoints[..]) + old(superPacpoints[..])
      ensures !showBonusItem1 && !showBonusItem2
      ensures old(Current()).lives == 0 ==>
        currentGameState == GameOver && currentPlayer == old(currentPlayer) &&
        currentLevelDifficulty == old(currentLevelDifficulty)
      ensures old(Current()).lives != 0 ==>
        && currentGameState == Restart
        && currentPlayer == (if old(multiplayer && !StatsOf(Other(currentPlayer)).GameOver())
                             then Other(old(currentPlayer)) else old(currentPlayer))
        && currentLevelDifficulty == DifficultyFor(levelDifficulties, Current().currentLevel)
      ensures old(Current()).lives != 0 && old(multiplayer && !StatsOf(Other(currentPlayer)).GameOver()) ==>
        pacpoints[..] + superPacpoints[..] == SavedFor(currentPlayer)[..]
      ensures !(old(Current()).lives != 0 && old(multiplayer && !StatsOf(Other(currentPlayer)).GameOver())) ==>
        pacpoints[..] == old(pacpoints[..]) && superPacpoints[..] == old(superPacpoints[..])
      ensures currentGameState == Restart ==> !Current().GameOver()
    {
      LoseLifeAndSave();
      if Current().GameOver() {
        currentGameState := GameOver;
      } else {
        if multiplayer && !StatsOf(Other(currentPlayer)).GameOver() {
          PassTurn();
        }
        ChangeLevelDifficulty(currentPlayer);
      }
    }

    /**
     * StartRestart as written, when the other player is already out of lives:
     * the survivor's death hands the turn to the eliminated player, whose own
     * death then goes through the GameOver hand-over back to the survivor,
     * who keeps the eliminated player's difficulty. The cycle repeats.
     */
    method EliminatedPlayerKeepsPlaying() returns (handedTo: Players, handedState: GameState)
      requires Valid() && multiplayer && currentGameState != NewGame
      requires Current().lives >= 2 && StatsOf(Other(currentPlayer)).lives == 0
      modifies this`currentGameState, this`currentPlayer, this`currentLevelDifficulty,
        this`playerOneBoardState, this`playerTwoBoardState, this`showBonusItem1, this`showBonusItem2
      modifies Current()`lives, StatsOf(Other(currentPlayer))`lives, pacpoints, superPacpoints
      ensures Valid()
      ensures handedTo == Other(old(currentPlayer)) && handedState == Restart
      ensures currentPlayer == old(currentPlayer) && currentGameState == Restart
      ensures Current().lives == old(Current().lives) - 1
      ensures StatsOf(Other(currentPlayer)).GameOver()
      ensures currentLevelDifficulty == DifficultyFor(levelDifficulties, StatsOf(Other(currentPlayer)).currentLevel)
    {
      StartRestart();
      handedTo, handedState := currentPlayer, currentGameState;
      EndRestart();
      StartRestart();
      EndGameOver();
    }

    /** The first steps of StartRestart: a life lost and the pellets saved. */
    method LoseLifeAndSave()
      requires Valid() && currentGameState != NewGame
      modifies this`currentGameState, this`playerOneBoardState, this`playerTwoBoardState
      modifies this`showBonusItem1, this`showBonusItem2, Current()`lives
      ensures Valid() && currentGameState == Restart
      ensures Current().lives == AfterLoss(old(Current().lives))
      ensures SavedFor(currentPlayer) != null && fresh(SavedFor(currentPlayer))
      ensures SavedFor(currentPlayer)[..] == pacpoints[..] + superPacpoints[..]
      ensures SavedFor(Other(currentPlayer)) == old(SavedFor(Other(currentPlayer)))
      ensures !showBonusItem1 && !showBonusItem2
    {
      currentGameState := Restart;
      Current().LoseLife();
      SaveBoardState(currentPlayer);
      showBonusItem1 := false;
      showBonusItem2 := false;
    }

    /**
     * The two-player part of StartRestart: the other player takes the turn
     * with their difficulty and their saved pellets.
     */
    method PassTurn()
      requires Valid() && multiplayer && currentGameState != NewGame
      modifies this`currentPlayer, this`currentLevelDifficulty, pacpoints, superPacpoints
      ensures Valid()
      ensures currentPlayer == Other(old(currentPlayer))
      ensures currentLevelDifficulty == DifficultyFor(levelDifficulties, Current().currentLevel)
      ensures pacpoints[..] + superPacpoints[..] == SavedFor(currentPlayer)[..]
    {
      SwapCurrentPlayer();
      ChangeLevelDifficulty(currentPlayer);
      LoadBoardState(currentPlayer);
      if NothingToLoad() {
        assert pacpoints.Length + superPacpoints.Length == 0;
        assert pacpoints[..] == [] && superPacpoints[..] == [];
      }
    }

    /** The end of the Restart coroutine: play resumes. */
    method EndRestart()
      modifies this`currentGameState
      ensures currentGameState == InGame
    {
      currentGameState := InGame;
    }

    /**
     * The GameOver coroutine after its wait, as written. In a two-player game
     * whose other player still has lives, the turn passes to them and their
     * pellets are restored, but the difficulty is not reloaded: it stays the
     * eliminated player's (compare StartRestart, which reloads it). In any
     * other case the scene changes, which is outside this model.
     */
    method EndGameOver()
      requires Valid() && currentGameState == GameOver
      modifies this`currentGameState, this`currentPlayer, pacpoints, superPacpoints
      ensures Valid()
      ensures old(multiplayer && !StatsOf(Other(currentPlayer)).GameOver()) ==>
        && currentGameState == Restart
        && currentPlayer == Other(old(currentPlayer))
        && pacpoints[..] + superPacpoints[..] == SavedFor(currentPlayer)[..]
        && currentLevelDifficulty == old(currentLevelDifficulty)
      ensures !old(multiplayer && !StatsOf(Other(currentPlayer)).GameOver()) ==>
        && currentGameState == GameOver && currentPlayer == old(currentPlayer)
        && pacpoints[..] == old(pacpoints[..]) && superPacpoints[..] == old(superPacpoints[..])
    {
      if multiplayer && !StatsOf(Other(currentPlayer)).GameOver() {
        currentGameState := Restart;
        SwapCurrentPlayer();
        LoadBoardState(currentPlayer);
        if NothingToLoad() {
          assert pacpoints.Length + superPacpoints.Length == 0;
          assert pacpoints[..] == [] && superPacpoints[..] == [];
        }
      }
    }

    /**
     * The GameOver hand-over as evidently intended: as EndGameOver, then the
     * difficulty follows the player now on, as after every other turn change.
     */
    method HandOverAfterGameOver()
      requires Valid() && currentGameState == GameOver
      modifies this`currentGameState, this`currentPlayer, this`currentLevelDifficulty
      modifies pacpoints, superPacpoints
      ensures Valid()
      ensures old(multiplayer && !StatsOf(Other(currentPlayer)).GameOver()) ==>
        && currentGameState == Restart
        && currentPlayer == Other(old(currentPlayer))
        && pacpoints[..] + superPacpoints[..] == SavedFor(currentPlayer)[..]
        && currentLevelDifficulty == DifficultyFor(levelDifficulties, Current().currentLevel)
      ensures !old(multiplayer && !StatsOf(Other(currentPlayer)).GameOver()) ==>
        && currentGameState == GameOver && currentPlayer == old(currentPlayer)
        && currentLevelDifficulty == old(currentLevelDifficulty)
        && pacpoints[..] == old(pacpoints[..]) && superPacpoints[..] == old(superPacpoints[..])
    {
      EndGameOver();
      if currentGameState == Restart {
        ChangeLevelDifficulty(currentPlayer);
      }
    }

    /**
     * The bookkeeping of the Win coroutine: the current player moves to the
     * next level with the pellet counter and the bonus flag cleared, every
     * pellet is switched back on and saved for them, and the board restarts.
     */
    method Win()
      requires Valid() && currentGameState != NewGame
      modifies this`showBonusItem1, this`showBonusItem2, this`currentLevelDifficulty,
        this`playerOneBoardState, this`playerTwoBoardState, this`currentGameState, this`processWinLevel
      modifies Current()`currentLevel, Current()`bonusItemShown, Current()`pacpointsConsumed
      modifies pacpoints, superPacpoints
      ensures Valid()
      ensures Current().currentLevel == old(Current().currentLevel) + 1
      ensures !Current().bonusItemShown && Current().pacpointsConsumed == 0
      ensures currentLevelDifficulty == DifficultyFor(levelDifficulties, Current().currentLevel)
      ensures pacpoints[..] == seq(pacpoints.Length, _ => true)
      ensures superPacpoints[..] == seq(superPacpoints.Length, _ => true)
      ensures SavedFor(currentPlayer) != null && fresh(SavedFor(currentPlayer))
      ensures SavedFor(currentPlayer)[..] == pacpoints[..] + superPacpoints[..]
      ensures SavedFor(Other(currentPlayer)) == old(SavedFor(Other(currentPlayer)))
      ensures !showBonusItem1 && !showBonusItem2
      ensures currentGameState == Restart && !processWinLevel
    {
      NextLevel();
      ReactivateAllPellets();
      SaveBoardState(currentPlayer);
      currentGameState := Restart;
      processWinLevel := false;
    }

    /** The counters Win resets and advances, and the difficulty of the new level. */
    method NextLevel()
      requires Valid()
      modifies this`showBonusItem1, this`showBonusItem2, this`currentLevelDifficulty
      modifies Current()`currentLevel, Current()`bonusItemShown, Current()`pacpointsConsumed
      ensures Valid()
      ensures Current().currentLevel == old(Current().currentLevel) + 1
      ensures !Current().bonusItemShown && Current().pacpointsConsumed == 0
      ensures currentLevelDifficulty == DifficultyFor(levelDifficulties, Current().currentLevel)
      ensures !showBonusItem1 && !showBonusItem2
    {
      showBonusItem1 := false;
      showBonusItem2 := false;
      var stats := Current();
      stats.currentLevel := stats.currentLevel + 1;
      stats.bonusItemShown := false;
      stats.pacpointsConsumed := 0;
      ChangeLevelDifficulty(currentPlayer);
    }

    /** The two loops of Win that switch every pellet back on. */
    method ReactivateAllPellets()
      requires pacpoints != superPacpoints
      modifies pacpoints, superPacpoints
      ensures pacpoints[..] == seq(pacpoints.Length, _ => true)
      ensures superPacpoints[..] == seq(superPacpoints.Length, _ => true)
    {
      for i := 0 to pacpoints.Length
        invariant forall k :: 0 <= k < i ==> pacpoints[k]
      {
        pacpoints[i] := true;
      }
      for i := 0 to superPacpoints.Length
        invariant forall k :: 0 <= k < pacpoints.Length ==> pacpoints[k]
        invariant forall k :: 0 <= k < i ==> superPacpoints[k]
      {
        superPacpoints[i] := true;
      }
    }

    /**
     * The first bonus item whose name is `name`: the search loop of
     * ShowBonusItem, stopping at the first match.
     */
    method FindBonusItem(name: string) returns (slot: Option<nat>)
      ensures slot == FirstNamed(bonusItemNames, name, 0)
    {
      slot := None;
      var i := 0;
      while i < |bonusItemNames|
        invariant 0 <= i <= |bonusItemNames|
        invariant FirstNamed(bonusItemNames, name, 0) == FirstNamed(bonusItemNames, name, i)
      {
        if bonusItemNames[i] == name {
          slot := Some(i);
          break;
        }
        i := i + 1;
      }
    }

    /** The item ShowBonusItem would activate for the current difficulty. */
    function BonusSlot(): Option<nat>
      reads this
    {
      if currentLevelDifficulty.Some? then
        FirstNamed(bonusItemNames, currentLevelDifficulty.value.bonusItem, 0)
      else None
    }

    /**
     * The source reads the difficulty's bonus item whenever a threshold is
     * reached with a non-empty item list; before the first difficulty is set
     * that would be a null dereference.
     */
    predicate BonusLookupSafe()
      reads this, playerOne, playerTwo
      requires currentPlayer == PlayerTwo ==> playerTwo != null
    {
      var c := Current();
      (!c.bonusItemShown && |bonusItemNames| > 0 &&
       ((!showBonusItem1 && c.pacpointsConsumed >= FirstBonusAt) ||
        (!showBonusItem2 && c.pacpointsConsumed >= SecondBonusAt)))
      ==> currentLevelDifficulty.Some?
    }

    /**
     * ShowBonusItem: nothing once the current player's second item has been
     * shown. Otherwise the level's item appears at 70 pellets and again at
     * 170, each threshold at most once, and the second marks the player's
     * bonus as shown.
     */
    method ShowBonusItem()
      requires Valid() && BonusLookupSafe()
      modifies this`showBonusItem1, this`showBonusItem2, Current()`bonusItemShown, bonusItemsActive
      ensures Valid()
      ensures old(Current().bonusItemShown) ==>
        unchanged(this`showBonusItem1, this`showBonusItem2, Current(), bonusItemsActive)
      ensures !old(Current().bonusItemShown) ==>
        var fire1 := !old(showBonusItem1) && old(Current().pacpointsConsumed) >= FirstBonusAt && BonusSlot().Some?;
        var fire2 := !old(showBonusItem2) && old(Current().pacpointsConsumed) >= SecondBonusAt && BonusSlot().Some?;
        && showBonusItem1 == (old(showBonusItem1) || fire1)
        && showBonusItem2 == (old(showBonusItem2) || fire2)
        && Current().bonusItemShown == fire2
        && bonusItemsActive[..] == if fire1 || fire2 then old(bonusItemsActive[..])[BonusSlot().value := true]
                                   else old(bonusItemsActive[..])
    {
      var stats := Current();
      if stats.bonusItemShown {
        return;
      }
      // Both thresholds search the same list for the same name, so one
      // search serves both.
      var due1 := !showBonusItem1 && stats.pacpointsConsumed >= FirstBonusAt;
      var due2 := !showBonusItem2 && stats.pacpointsConsumed >= SecondBonusAt;
      var slot := None;
      if (due1 || due2) && |bonusItemNames| > 0 {
        slot := FindBonusItem(currentLevelDifficulty.value.bonusItem);
      }
      assert (due1 || due2) && BonusSlot().Some? <==> slot.Some?;
      assert slot.Some? ==> slot == BonusSlot();
      if slot.Some? {
        RevealBonusItem(stats, slot.value, due1, due2);
      }
    }

    /** Activating the item found, and the flags of the thresholds reached. */
    method RevealBonusItem(stats: PlayerStats, slot: nat, due1: bool, due2: bool)
      requires slot < bonusItemsActive.Length
      modifies this`showBonusItem1, this`showBonusItem2, stats`bonusItemShown, bonusItemsActive
      ensures showBonusItem1 == (old(showBonusItem1) || due1)
      ensures showBonusItem2 == (old(showBonusItem2) || due2)
      ensures stats.bonusItemShown == (old(stats.bonusItemShown) || due2)
      ensures bonusItemsActive[..] == old(bonusItemsActive[..])[slot := true]
    {
      bonusItemsActive[slot] := true;
      if due1 {
        showBonusItem1 := true;
      }
      if due2 {
        showBonusItem2 := true;
        stats.bonusItemShown := true;
      }
    }

    /**
     * GameBoard.Update: a won level starts the Win sequence once (the flag
     * stops it from starting again on the next frames); any other frame
     * checks the bonus items.
     */
    method Tick()
      requires Valid() && BonusLookupSafe()
      modifies this`processWinLevel, this`showBonusItem1, this`showBonusItem2
      modifies Current()`bonusItemShown, bonusItemsActive
      ensures Valid()
      ensures old(WinLevel(currentPlayer)) && !old(processWinLevel) ==>
        processWinLevel &&
        unchanged(this`showBonusItem1, this`showBonusItem2, Current(), bonusItemsActive)
      ensures !(old(WinLevel(currentPlayer)) && !old(processWinLevel)) ==>
        processWinLevel == old(processWinLevel) &&
        (old(Current().bonusItemShown) ==>
          unchanged(this`showBonusItem1, this`showBonusItem2, Current(), bonusItemsActive))
    {
      if WinLevel(currentPlayer) && !processWinLevel {
        processWinLevel := true;
      } else {
        ShowBonusItem();
      }
    }
  }
}
