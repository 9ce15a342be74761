# Pac-Man navigation and pursuit, modelled in Dafny

A model of the game logic of a Unity Pac-Man remake (the `Buriola` scripts):

- **The board graph.** Nodes, their neighbours and their valid directions.
- **The board singleton.** The 28 × 36 node grid and its portal lookup, the difficulty table, score and pellet accounting, the win condition, the bonus-item thresholds, saving and restoring each player's pellets, and the two-player turn.
- **Pacman's navigator.** Buffered directions, reversing mid-corridor, arrival and portals.
- **The four ghosts.**
  - The armed state machine.
  - The Scatter/Chase schedule and the frightened timers.
  - The score for eating a ghost.
  - Each ghost's chase tile.
  - The choice of the next node: never the reverse direction, nearest to the target tile, and the first candidate wins a tie.
  - Movement and the return to the ghost house.
  - The ghost-house release timer and the round restart.

Modules and files:

| module | file | models |
|---|---|---|
| `Optional`, `Geometry` | geometry.dfy | null references; vectors, rounding, truncation and squared distances |
| `Nodes` | nodes.dfy | Node.cs and PortalNode.cs: the graph as a sequence of node values, and `FindValidDirections` |
| `Stats`, `Levels` | player_stats.dfy | PlayerStats.cs; the LevelDifficulty and GhostMode records |
| `BoardRules` | board_rules.dfy | the value-level rules of GameBoard.cs |
| `Board` | game_board.dfy | the `GameBoard` class |
| `Navigation` | navigation.dfy | `CanMove` as a function, and the passed-node test |
| `Player` | player.dfy | the `PacmanController` class |
| `GhostRules` | ghost_rules.dfy | the state and timer rules of GhostAI.cs as functions over records |
| `Pursuit` | pursuit.dfy | the four `FindTargetPosition`s, and `ChooseNextNode` as functions and as loops over arrays |
| `Ghosts` | ghost_ai.dfy | the `GhostAI` class, with the four subclasses selected by `kind` |

How the model represents the game:

- **Nodes.** A node is referred to by its index in an immutable `Graph` (`seq<Node>`), and a null node reference becomes `Option<nat>`.
- **Mutable objects.** Agents, the board and the player stats are classes whose methods update their fields. The pellets and the saved pellet states are `array<bool>`.
- **Numbers.** Positions, speeds and timers are `real`. `Mathf.Sqrt` is never taken: every distance comparison is made on squared distances. `Geometry.SquaredOrderMatchesDistance` shows that this orders distances the same way.
- **Time.** The frame delta `Time.deltaTime` is a parameter `dt`.
- **Randomness and Inky's square root.** `FindRandomPosition` and Inky's `GetDistance` become parameters, `randomTile` and `root`. `Pursuit.RandomTile` and `Ghosts.RootOk` constrain them.
- **Coroutines.** A coroutine (`NewGame`, `Restart`, `GameOver`, `Win`) becomes the bookkeeping it does, in one step.
- **Ghost kinds.** The ghost subclasses are one class with a `kind` field.
  - Unity's `Start` of each kind is the method `Start`.
  - `Init` is the constructor.
  - The base `OnGameBoardRestart` is `ResetToStart`, and the override is `OnGameBoardRestart`.
  - The base `Update` is `BaseUpdate`, and the override is `Update`.

### Behaviour of the code worth noting

- **Fifth ghost in a streak.** The fifth ghost in a streak scores 200, because the streak wraps from 5 to 1 before scoring (GhostAI.cs:201-202). See `GhostRules.FifthGhostScoresTwoHundred`.
- **Clyde's threshold.** Clyde chases only at a distance strictly greater than 8 (ClydeAI.cs:71). At exactly 8 he goes home. See `Pursuit.ClydeSwitchesAtEight`.
- **Inky's target.** Inky adds twice the scalar distance between Blinky's tile and the two-ahead tile to both of Blinky's coordinates (InkyAI.cs:85-89). The target therefore always lies up and to the right of Blinky's tile, whatever Pacman's heading. See `Pursuit.InkyTarget`.
- **A lone candidate.** `ChooseNextNode` has a branch for a single remaining candidate, but that branch is dead: the candidate array always has four slots (GhostAI.cs:445). A lone candidate is chosen only if it is nearer than 100000, like any other. See `Pursuit.NoChoiceIffNoneNear`.
- **Blinky and the ghost house.** Blinky has no house-release gate. Only Pinky, Inky and Clyde run the release timer.
- **Inky and Clyde start-up.** They derive from Pinky, so their `Start` first runs Pinky's, whose `ChooseNextNode` changes only `direction`. They then overwrite `direction`, the target and the previous node. `Ghosts.GhostAI.Start` models the net effect.

## Model

| member | source | states |
|---|---|---|
| Geometry.Round | Assets/Scripts/Buriola/AI/BlinkyAI.cs:29 | the rounded integer lies within half a unit of the value |
| Geometry.RoundVec | Assets/Scripts/Buriola/AI/BlinkyAI.cs:27-29 | the rounded tile lies within squared distance 1/2 of the position |
| Geometry.Truncate | Assets/Scripts/Buriola/Board/GameBoard.cs:494-497 | the `(int)` cast of a non-negative float is its integer part |
| Geometry.SquaredOrderMatchesDistance | Assets/Scripts/Buriola/AI/GhostAI.cs:581-589 | for non-negative distances, comparing squares orders them like comparing the distances |
| Nodes.NewNode | Assets/Scripts/Buriola/Board/Node.cs:9 | a placed node lets Pacman in, is no portal and has no directions yet |
| Nodes.Normalize | Assets/Scripts/Buriola/Board/Node.cs:27-33 | an axis-aligned offset normalises to one of the four unit directions pointing the same way; zero stays zero |
| Nodes.DirectionTo | Assets/Scripts/Buriola/Board/Node.cs:30-32 | the stored direction is zero exactly when the neighbour sits on the node itself, and otherwise one of the four unit directions |
| Nodes.FindValidDirections | Assets/Scripts/Buriola/Board/Node.cs:20-34 | with no neighbours the old directions stay; otherwise exactly one direction per neighbour, index-aligned, the normalised offset to it |
| Nodes.StartAll | Assets/Scripts/Buriola/Board/Node.cs:15-18 | after every node's Start the graph is well formed, and only the directions changed |
| Stats.AfterLoss | Assets/Scripts/Buriola/Board/Data/PlayerStats.cs:23-28 | a lost life leaves one fewer, clamped at zero |
| Stats.LivesAfterIsClamped | Assets/Scripts/Buriola/Board/Data/PlayerStats.cs:23-28 | k losses from non-negative lives leave max(lives − k, 0): never negative, idempotent at zero |
| Stats.GameOverAfterExactlyLivesLosses | Assets/Scripts/Buriola/Board/Data/PlayerStats.cs:23-37 | a player with n lives reaches game over exactly after n losses |
| Stats.PlayerStats.constructor | Assets/Scripts/Buriola/Board/Data/PlayerStats.cs:10-18 | level, lives and score as given; no pellets eaten, bonus not shown |
| Stats.PlayerStats.LoseLife | Assets/Scripts/Buriola/Board/Data/PlayerStats.cs:23-28 | lives become AfterLoss of the old lives |
| Stats.PlayerStats.GameOver | Assets/Scripts/Buriola/Board/Data/PlayerStats.cs:34-37 | game over exactly when lives are zero |
| Stats.PlayerStats.GetLives | Assets/Scripts/Buriola/Board/Data/PlayerStats.cs:43-46 | returns the lives count |
| BoardRules.Other | Assets/Scripts/Buriola/Board/GameBoard.cs:356-358 | the swapped-to player is never the current one |
| BoardRules.SwapIsInvolution | Assets/Scripts/Buriola/Board/GameBoard.cs:356-358 | swapping twice gives the turn back |
| BoardRules.Cell | Assets/Scripts/Buriola/Board/GameBoard.cs:492-497 | a position's cell is the integer part of its absolute coordinates |
| BoardRules.LastInCell | Assets/Scripts/Buriola/Board/GameBoard.cs:376-389 | the occupant of a cell after the store loop is a node whose cell it is |
| BoardRules.LastInCellIsLast | Assets/Scripts/Buriola/Board/GameBoard.cs:376-389 | the occupant is the last node stored in that cell, and a cell is empty exactly when no node lies in it |
| BoardRules.PortalLookup | Assets/Scripts/Buriola/Board/GameBoard.cs:497-505 | a receiver is returned only when the cell's occupant is a portal carrying it |
| BoardRules.PortalFoundFromOwnPosition | Assets/Scripts/Buriola/Board/GameBoard.cs:492-506 | a node no later node shares a cell with is found from its own position, yielding its receiver exactly when it is a portal with one |
| BoardRules.PortalLookupIsOneWay | Assets/Scripts/Buriola/Board/GameBoard.cs:497-505 | a portal leading to a receiver-less portal: lookup A→B succeeds while B→A yields nothing |
| BoardRules.DifficultyFor | Assets/Scripts/Buriola/Board/GameBoard.cs:487-490 | a profile is found exactly for a non-empty table and a level of at least 1, and it is one of the table's profiles |
| BoardRules.DifficultyIsClamped | Assets/Scripts/Buriola/Board/GameBoard.cs:487-490 | level l uses profile min(l, n); every level from n on uses the same last profile |
| BoardRules.HandOverKeepsEliminatedProfile | Assets/Scripts/Buriola/Board/GameBoard.cs:277-289 | with two distinct profiles, the profile of an eliminated player on level 2 differs from a survivor's on level 1, so keeping it after the hand-over is observable |
| BoardRules.ScoreStep | Assets/Scripts/Buriola/Board/GameBoard.cs:363-371 | the score grows by the value; the pellet counter grows by one exactly for a pickup that is neither ghost nor bonus item |
| BoardRules.ScoreRunAccounts | Assets/Scripts/Buriola/Board/GameBoard.cs:363-371 | after any run of score updates: score + sum of values, counter + number of pellet events |
| BoardRules.LevelWonExactlyAfterAllPellets | Assets/Scripts/Buriola/Board/GameBoard.cs:305-308 | a level is won exactly when the pellet events reach the pellet count plus four, whatever ghosts or bonus items were eaten |
| BoardRules.FirstNamed | Assets/Scripts/Buriola/Board/GameBoard.cs:562-570 | a found item carries the wanted name |
| BoardRules.FirstNamedIsFirst | Assets/Scripts/Buriola/Board/GameBoard.cs:562-570 | the found item is the earliest with that name; none is found exactly when none has it |
| BoardRules.SuperSlot | Assets/Scripts/Buriola/Board/GameBoard.cs:412-415 | super pellet i's slot lies right after the plain pellets, inside the array |
| BoardRules.SuperSlotAsWritten | Assets/Scripts/Buriola/Board/GameBoard.cs:404-415 | the slot `lastIndex + i + 1` as written never lands on a plain pellet and always lies past i |
| BoardRules.SuperSlotAsWrittenAgrees | Assets/Scripts/Buriola/Board/GameBoard.cs:404-415 | with at least one plain pellet, the `lastIndex + i + 1` slot is the intended one |
| BoardRules.SuperSlotAsWrittenOverflows | Assets/Scripts/Buriola/Board/GameBoard.cs:404-415 | with no plain pellet, the last super pellet is written one past the end of the array |
| Board.GameBoard.constructor | Assets/Scripts/Buriola/Board/GameBoard.cs:131-159 | Init: every cell holds the last node stored in it, total = pellets + 4, the table holds the loaded profiles, state NewGame with player one on, one or two players at level 1 with 3 lives and no score, all pellets active, no saved states |
| Board.GameBoard.NewPlayers | Assets/Scripts/Buriola/Board/GameBoard.cs:150-156 | player two exists exactly in a two-player game; both start at level 1 with 3 lives and no score |
| Board.GameBoard.FindAllPacpoints | Assets/Scripts/Buriola/Board/GameBoard.cs:391-395 | the level total is the plain pellets plus four |
| Board.GameBoard.FindAllNodes | Assets/Scripts/Buriola/Board/GameBoard.cs:376-389 | each cell holds the last node stored there, other cells are untouched, and the grid only names graph nodes |
| Board.GameBoard.PortalAt | Assets/Scripts/Buriola/Board/GameBoard.cs:492-506 | a receiver comes only from an occupied cell and is a graph node |
| Board.GameBoard.Arrival | Assets/Scripts/Buriola/AI/GhostAI.cs:552-562 | the node after the portal check is a graph node, and differs from the arrival node only through that node's portal |
| Board.GameBoard.PortalOf | Assets/Scripts/Buriola/AI/GhostAI.cs:555 | the receiver of the portal at a node's own position is a graph node |
| Board.GameBoard.LoadLevelsData | Assets/Scripts/Buriola/Board/GameBoard.cs:475-485 | the table holds the loaded profiles in load order (profile i under key i + 1) |
| Board.GameBoard.ChangeLevelDifficulty | Assets/Scripts/Buriola/Board/GameBoard.cs:487-490 | the difficulty becomes the clamped profile for the player's level |
| Board.GameBoard.UpdateScore | Assets/Scripts/Buriola/Board/GameBoard.cs:363-371 | the current player's counter and score take one ScoreStep |
| Board.GameBoard.WinLevel | Assets/Scripts/Buriola/Board/GameBoard.cs:305-308 | won exactly when the player's pellets reach the level total |
| Board.GameBoard.SaveBoardState | Assets/Scripts/Buriola/Board/GameBoard.cs:397-432 | the player's fresh saved state is the plain flags followed by the super flags; the other player's is untouched |
| Board.GameBoard.PackPellets | Assets/Scripts/Buriola/Board/GameBoard.cs:404-415 | the packed array is the plain flags followed by the super flags (corrected slots) |
| Board.GameBoard.NothingToLoad | Assets/Scripts/Buriola/Board/GameBoard.cs:436-440 | LoadBoardState goes on only when some player has a saved state and no existing one is empty |
| Board.GameBoard.LoadBoardState | Assets/Scripts/Buriola/Board/GameBoard.cs:434-473 | after the early returns the pellets take exactly the player's saved flags, or all go off when player one has none |
| Board.GameBoard.SwapCurrentPlayer | Assets/Scripts/Buriola/Board/GameBoard.cs:356-361 | the current player becomes the other one |
| Board.GameBoard.StartNewGame | Assets/Scripts/Buriola/Board/GameBoard.cs:168-198 | difficulty for the current level; in a two-player game both saved states equal the board; InGame |
| Board.GameBoard.StartRestart | Assets/Scripts/Buriola/Board/GameBoard.cs:200-232 | a life lost and pellets saved; GameOver without lives, else the turn passes in a two-player game, whether or not the other player has lives (Findings row 3), with the new player's pellets and difficulty |
| Board.GameBoard.StartRestartSkippingEliminated | Assets/Scripts/Buriola/Board/GameBoard.cs:200-232 | corrected: as StartRestart, but the turn passes only to a player who still has lives, so after a restart the player on has lives |
| Board.GameBoard.EliminatedPlayerKeepsPlaying | Assets/Scripts/Buriola/Board/GameBoard.cs:200-289 | as written, with the other player out of lives: the survivor's death hands the turn to the eliminated player in Restart, whose death hands it back through GameOver, leaving the survivor one life down under the eliminated player's difficulty |
| Board.GameBoard.LoseLifeAndSave | Assets/Scripts/Buriola/Board/GameBoard.cs:202-210 | Restart state, one life lost, the player's pellets saved, bonus flags cleared |
| Board.GameBoard.PassTurn | Assets/Scripts/Buriola/Board/GameBoard.cs:219-224 | the other player is on, with their difficulty and exactly their saved pellets |
| Board.GameBoard.EndRestart | Assets/Scripts/Buriola/Board/GameBoard.cs:246 | play resumes |
| Board.GameBoard.EndGameOver | Assets/Scripts/Buriola/Board/GameBoard.cs:256-303 | as written: in a two-player game whose other player has lives, Restart with the turn passed and exactly their saved pellets, the difficulty left as it was; otherwise state, player and pellets unchanged |
| Board.GameBoard.HandOverAfterGameOver | Assets/Scripts/Buriola/Board/GameBoard.cs:277-289 | corrected: the same hand-over, with the difficulty for the survivor's own level; otherwise nothing changes |
| Board.GameBoard.Win | Assets/Scripts/Buriola/Board/GameBoard.cs:310-354 | next level with counters cleared, its difficulty, every pellet back on and saved for the player, Restart, win processing over |
| Board.GameBoard.NextLevel | Assets/Scripts/Buriola/Board/GameBoard.cs:322-329 | level + 1, bonus shown and pellet counter cleared, the new level's difficulty |
| Board.GameBoard.ReactivateAllPellets | Assets/Scripts/Buriola/Board/GameBoard.cs:336-346 | every plain and super pellet is active |
| Board.GameBoard.FindBonusItem | Assets/Scripts/Buriola/Board/GameBoard.cs:562-570 | the search loop finds the first item with the level's name |
| Board.GameBoard.ShowBonusItem | Assets/Scripts/Buriola/Board/GameBoard.cs:555-586 | nothing once the level's bonus was shown; otherwise the level's item (if one has its name) appears at 70 and at 170 pellets, each threshold firing at most once, the second marking the bonus shown |
| Board.GameBoard.RevealBonusItem | Assets/Scripts/Buriola/Board/GameBoard.cs:566-583 | the item is activated and the flags of the thresholds reached are set |
| Board.GameBoard.Tick | Assets/Scripts/Buriola/Board/GameBoard.cs:111-122 | a won level with no win in progress starts the win and shows no bonus item; any other frame leaves the win flag alone, and changes nothing once the bonus was shown |
| Navigation.FirstOpen | Assets/Scripts/Buriola/Player/PacmanController.cs:186-200 | a found index is a neighbour in that direction that Pacman may enter |
| Navigation.FirstOpenIsFirst | Assets/Scripts/Buriola/Player/PacmanController.cs:186-200 | the found index is the earliest such; none is found exactly when no neighbour qualifies |
| Navigation.OpenStep | Assets/Scripts/Buriola/Player/PacmanController.cs:186-200 | a returned node is a graph node Pacman may enter |
| Navigation.OpenStepIsFirstOpenNeighbour | Assets/Scripts/Buriola/Player/PacmanController.cs:186-200 | CanMove returns the earliest neighbour lying in the direction that Pacman may enter, and null exactly when there is none |
| Navigation.Passed | Assets/Scripts/Buriola/Player/PacmanController.cs:256-268 | the squared passed-node test: an agent standing on its target has not passed it, and one that has passed is off the node it left |
| Navigation.PassedIffTravelledBeyond | Assets/Scripts/Buriola/Player/PacmanController.cs:256-268 | along a corridor leaving the node in any of the four directions, the squared test holds exactly when the distance travelled exceeds the corridor's length; landing exactly on the node is not passing it |
| Player.PacmanController.constructor | Assets/Scripts/Buriola/Player/PacmanController.cs:53-73 | Init: streak 1, facing left, on the starting node and leaving it leftward when open, speed from the difficulty |
| Player.PacmanController.CanMove | Assets/Scripts/Buriola/Player/PacmanController.cs:186-200 | the search loop returns OpenStep |
| Player.PacmanController.ChangeDirection | Assets/Scripts/Buriola/Player/PacmanController.cs:168-184 | a different direction is buffered; standing on a node where it is open, Pacman departs at once toward it |
| Player.PacmanController.Movement | Assets/Scripts/Buriola/Player/PacmanController.cs:113-166 | halted: nothing changes; a buffered reversal turns round at once; passing the target snaps onto it, applies the portal and departs by the buffered, else the current direction, else stops |
| Player.PacmanController.PassedNode | Assets/Scripts/Buriola/Player/PacmanController.cs:256-268 | Pacman on his target has not passed it; having passed it he is off the node he left |
| Player.PacmanController.Reverse | Assets/Scripts/Buriola/Player/PacmanController.cs:120-127 | direction negated, target and previous swapped |
| Player.PacmanController.Arrive | Assets/Scripts/Buriola/Player/PacmanController.cs:129-157 | snap, portal, then the buffered direction tried first and the current one second |
| Player.PacmanController.CheckForPortals | Assets/Scripts/Buriola/Player/PacmanController.cs:246-254 | on a portal's cell Pacman moves onto its receiver; elsewhere nothing moves |
| Player.PacmanController.UpdatePacmanSpeed | Assets/Scripts/Buriola/Player/PacmanController.cs:202-206 | the speed comes from the difficulty when there is one |
| Player.PacmanController.GetDirection | Assets/Scripts/Buriola/Player/PacmanController.cs:208-211 | the current direction |
| Player.PacmanController.StartDeath | Assets/Scripts/Buriola/Player/PacmanController.cs:221-225 | Pacman is dead |
| Player.PacmanController.ResetKillStreak | Assets/Scripts/Buriola/Player/PacmanController.cs:241-244 | the streak is back to 1 |
| Player.PacmanController.OnAfterGameStart | Assets/Scripts/Buriola/Player/PacmanController.cs:321-324 | Pacman may move |
| Player.PacmanController.OnGameBoardRestart | Assets/Scripts/Buriola/Player/PacmanController.cs:326-341 | alive, frozen, streak 1, left buffered, on the starting node and leaving it leftward when open |
| Player.PacmanController.OnAfterGameBoardRestart | Assets/Scripts/Buriola/Player/PacmanController.cs:343-347 | Pacman may move |
| Player.PacmanController.OnGhostEaten | Assets/Scripts/Buriola/Player/PacmanController.cs:349-352 | Pacman is frozen |
| Player.PacmanController.OnAfterGhostEaten | Assets/Scripts/Buriola/Player/PacmanController.cs:354-357 | Pacman may move |
| Player.PacmanController.OnLevelWin | Assets/Scripts/Buriola/Player/PacmanController.cs:359-363 | Pacman is frozen |
| GhostRules.Changed | Assets/Scripts/Buriola/AI/GhostAI.cs:219-258 | the request is always consumed; the state moves to the new one, keeping the old as previous, exactly when armed and different |
| GhostRules.Requested | Assets/Scripts/Buriola/AI/GhostAI.cs:197-198 | arming then changing always reaches the new state |
| GhostRules.ChangeNeedsRearming | Assets/Scripts/Buriola/AI/GhostAI.cs:219-258 | a second change without re-arming does nothing |
| GhostRules.ModeStep | Assets/Scripts/Buriola/AI/GhostAI.cs:282-310 | Scatter turns to Chase exactly when the timer passes the entry's scatter time, for a non-negative chase time (timer reset, same entry); Chase ends exactly when it passes the chase time, moving to the next entry in Scatter, or at the last entry only resetting the timer; otherwise only the timer advances; the index stays inside the table |
| GhostRules.ModeRun | Assets/Scripts/Buriola/AI/GhostAI.cs:282-310 | the schedule stays inside the table over any frames |
| GhostRules.ModeIndexMonotone | Assets/Scripts/Buriola/AI/GhostAI.cs:282-310 | within a round the index never decreases, grows by at most one a frame and stays below the table length |
| GhostRules.LastEntryChasesForever | Assets/Scripts/Buriola/AI/GhostAI.cs:297-309 | Chase at the last entry stays Chase at the last entry for the rest of the round |
| GhostRules.OneTransitionPerFrame | Assets/Scripts/Buriola/AI/GhostAI.cs:290-309 | a Scatter frame that turns to Chase restarts the timer and does not also end the Chase |
| GhostRules.ScatterThresholdIsStrict | Assets/Scripts/Buriola/AI/GhostAI.cs:290 | a timer at exactly the scatter time keeps scattering; passing it turns to Chase |
| GhostRules.ScaredStep | Assets/Scripts/Buriola/AI/GhostAI.cs:316-340 | Blinking starts once the timer reaches the blinking time (timer and streak run on); otherwise the fright ends once the timer passes the duration (Chase, timer 0, streak 1); otherwise only the timer advances |
| GhostRules.ScaredTransitionsExclusive | Assets/Scripts/Buriola/AI/GhostAI.cs:324-339 | starting to blink and ending the fright never happen in one frame; ending resets the timer and the streak |
| GhostRules.FrightenedLifecycle | Assets/Scripts/Buriola/AI/GhostAI.cs:316-340 | with blinking at 7 s and a 10 s fright: Flee at 6 s, Blinking from 7 s, still Blinking at exactly 10 s, then Chase with the timer and streak reset |
| GhostRules.FleeStarted | Assets/Scripts/Buriola/AI/GhostAI.cs:346-356 | an eaten ghost ignores it; any other is Flee with the timer at zero |
| GhostRules.FleeStartIdempotent | Assets/Scripts/Buriola/AI/GhostAI.cs:346-356 | a second super pacpoint changes nothing further |
| GhostRules.GhostScore | Assets/Scripts/Buriola/AI/GhostAI.cs:174-180 | a ghost is worth at least 200 |
| GhostRules.EatGhost | Assets/Scripts/Buriola/AI/GhostAI.cs:200-206 | the streak advances, wrapping from above 4 to 2, and the ghost scores for the streak before the advance |
| GhostRules.GhostScoreBounded | Assets/Scripts/Buriola/AI/GhostAI.cs:200-206 | no ghost scores below 200 or above 1600; the streak stays in 2..5 |
| GhostRules.FifthGhostScoresTwoHundred | Assets/Scripts/Buriola/AI/GhostAI.cs:200-206 | five consecutive ghosts score 200, 400, 800, 1600, 200 |
| GhostRules.ScoresCycle | Assets/Scripts/Buriola/AI/GhostAI.cs:200-206 | n + 4 eats score as the first n, followed by the four scores from the streak reached |
| GhostRules.Cycle | Assets/Scripts/Buriola/AI/GhostAI.cs:200-206 | from a streak in 2..5, the streak after any number of eats stays in 2..5 |
| GhostRules.StreakPeriodFour | Assets/Scripts/Buriola/AI/GhostAI.cs:200-206 | four eats bring the streak back to where it was |
| Pursuit.BlinkyTarget | Assets/Scripts/Buriola/AI/BlinkyAI.cs:24-33 | a tile within half a tile of Pacman, independent of his direction and of Blinky |
| Pursuit.PinkyTarget | Assets/Scripts/Buriola/AI/PinkyAI.cs:102-117 | Pacman's rounded tile offset by four times his direction; Blinky plays no part |
| Pursuit.PinkyAimsFourTilesAhead | Assets/Scripts/Buriola/AI/PinkyAI.cs:102-117 | four tiles from Pacman's tile for a unit direction; his tile when he has none |
| Pursuit.InkyTarget | Assets/Scripts/Buriola/AI/InkyAI.cs:64-92 | the same non-negative offset, twice the distance, on both axes from Blinky's tile |
| Pursuit.InkyOnBlinkyIffTwoAhead | Assets/Scripts/Buriola/AI/InkyAI.cs:85-89 | the target is Blinky's tile exactly when Blinky stands on the two-ahead tile |
| Pursuit.ClydeTarget | Assets/Scripts/Buriola/AI/ClydeAI.cs:62-86 | Pacman's tile or the home node |
| Pursuit.ClydeSwitchesAtEight | Assets/Scripts/Buriola/AI/ClydeAI.cs:68-83 | Pacman's tile strictly beyond distance 8, the home node at 8 or nearer |
| Pursuit.Found | Assets/Scripts/Buriola/AI/GhostAI.cs:430-442 | the gathered candidates are graph nodes, none in the reverse direction, no more than the neighbours scanned |
| Pursuit.FoundIsTheNonReverseNeighbours | Assets/Scripts/Buriola/AI/GhostAI.cs:430-442 | the candidates are exactly the neighbours not in the reverse direction, with their directions |
| Pursuit.FourNeighboursFit | Assets/Scripts/Buriola/AI/GhostAI.cs:423-424 | at most four neighbours never overrun the four candidate slots |
| Pursuit.Slots | Assets/Scripts/Buriola/AI/GhostAI.cs:423-442 | always four slots, all naming graph nodes |
| Pursuit.SlotsLayout | Assets/Scripts/Buriola/AI/GhostAI.cs:423-442 | the candidates come first, empty zero-direction slots after them |
| Pursuit.Nearest | Assets/Scripts/Buriola/AI/GhostAI.cs:457-477 | a replaced choice is a later live slot strictly nearer than the best so far |
| Pursuit.NearestKeepsBest | Assets/Scripts/Buriola/AI/GhostAI.cs:457-477 | the choice stays as it was exactly when no later live slot is nearer |
| Pursuit.NearestIsNearest | Assets/Scripts/Buriola/AI/GhostAI.cs:457-477 | the chosen slot is no farther than any live slot scanned |
| Pursuit.NearestIsFirst | Assets/Scripts/Buriola/AI/GhostAI.cs:469 | the chosen slot is strictly nearer than every live slot before it |
| Pursuit.Choice | Assets/Scripts/Buriola/AI/GhostAI.cs:404-481 | a chosen neighbour is a graph node with a non-zero direction that is not the reverse |
| Pursuit.AllowedHasSlot | Assets/Scripts/Buriola/AI/GhostAI.cs:430-442 | every allowed neighbour sits in a live slot |
| Pursuit.ChoiceIsNearestAllowed | Assets/Scripts/Buriola/AI/GhostAI.cs:430-477 | the choice is an allowed neighbour, nearer than 100000 and as near the target as every allowed neighbour |
| Pursuit.NoChoiceIffNoneNear | Assets/Scripts/Buriola/AI/GhostAI.cs:453-480 | no choice exactly when every allowed neighbour is at least 100000 away |
| Pursuit.TieGoesToFirstSlot | Assets/Scripts/Buriola/AI/GhostAI.cs:469 | of equally near candidates the earliest wins |
| Pursuit.GatherCandidates | Assets/Scripts/Buriola/AI/GhostAI.cs:423-442 | the first loop fills the two fresh four-slot arrays with exactly Slots |
| Pursuit.SelectNeighbour | Assets/Scripts/Buriola/AI/GhostAI.cs:420-480 | the two loops return Choice's node and direction, or no node and the old direction |
| Ghosts.GhostShared.constructor | Assets/Scripts/Buriola/AI/GhostAI.cs:16 | the shared caught flag starts clear |
| Ghosts.GhostAI.NextFrom | Assets/Scripts/Buriola/AI/GhostAI.cs:430-480 | a ghost's next node is a graph node with a non-zero direction that never reverses its heading |
| Ghosts.GhostAI.constructor | Assets/Scripts/Buriola/AI/GhostAI.cs:109-135 | Init with the field defaults: Scatter requested, default mode table, speeds 6/4/10, fright 10 s blinking at 7 s, on the starting node with no target |
| Ghosts.GhostAI.Start | Assets/Scripts/Buriola/AI/PinkyAI.cs:18-29 | Pinky waits in the house facing up and chooses its target; Blinky (BlinkyAI.cs:10-18) faces left toward neighbour 0; Inky and Clyde wait facing up toward neighbour 0; all leave the starting node |
| Ghosts.GhostAI.ChaseTile | Assets/Scripts/Buriola/AI/GhostAI.cs:411 | each kind's FindTargetPosition: Blinky a tile within half a tile of Pacman, Pinky four directions ahead of that tile, Inky the same offset of twice the distance on both axes from Blinky's tile, Clyde Pacman's tile beyond distance 8 from Clyde and his home node otherwise |
| Ghosts.GhostAI.TargetTile | Assets/Scripts/Buriola/AI/GhostAI.cs:407-417 | the tile for each state: the kind's chase tile in Chase, the home node in Scatter, the random tile while frightened, the ghost house once eaten |
| Ghosts.GhostAI.ChooseNextNode | Assets/Scripts/Buriola/AI/GhostAI.cs:404-481 | the target tile for the state, then the node and direction of NextFrom, or no node and the old direction |
| Ghosts.GhostAI.Movement | Assets/Scripts/Buriola/AI/GhostAI.cs:365-397 | halted: nothing changes; not yet passed: advances by direction·speed·dt; passed: snaps, applies the portal and chooses the next node from there; never reverses |
| Ghosts.GhostAI.PassedNode | Assets/Scripts/Buriola/AI/GhostAI.cs:539-546 | a ghost on its target has not passed it; having passed it, it is off the node it left |
| Ghosts.GhostAI.Arrive | Assets/Scripts/Buriola/AI/GhostAI.cs:377-389 | standing on the arrival node after the portal, it left from there toward NextFrom's choice, and is on no node |
| Ghosts.GhostAI.CheckForPortals | Assets/Scripts/Buriola/AI/GhostAI.cs:552-562 | on a portal's cell the ghost moves onto its receiver; elsewhere nothing moves |
| Ghosts.GhostAI.ChangeState | Assets/Scripts/Buriola/AI/GhostAI.cs:219-258 | the state fields take GhostRules.Changed |
| Ghosts.GhostAI.UpdateGhostsTimers | Assets/Scripts/Buriola/AI/GhostAI.cs:265-276 | Chase/Scatter run ModeStep at normal speed; Flee/Blinking run ScaredStep at scared speed; Eaten only takes the eaten speed |
| Ghosts.GhostAI.UpdateChaseScatterTimers | Assets/Scripts/Buriola/AI/GhostAI.cs:282-310 | the schedule fields take ModeStep, at normal speed |
| Ghosts.GhostAI.UpdateScaredTimers | Assets/Scripts/Buriola/AI/GhostAI.cs:316-340 | the state, fright timer and Pacman's streak take ScaredStep, at scared speed |
| Ghosts.GhostAI.StartFleeState | Assets/Scripts/Buriola/AI/GhostAI.cs:346-356 | the state and fright timer take FleeStarted |
| Ghosts.GhostAI.CalculateScore | Assets/Scripts/Buriola/AI/GhostAI.cs:174-180 | 200 · 2^(streak − 1), remembered as the previous score |
| Ghosts.GhostAI.OnEaten | Assets/Scripts/Buriola/AI/GhostAI.cs:185-211 | chasing or scattering: Pacman is caught and dies, with state, streak, score, pellet counter and last score kept; frightened: Eaten, scored by EatGhost and the streak advanced, pellet counter kept; eaten: nothing changes |
| Ghosts.GhostAI.CheckIfItIsAtGhostHouse | Assets/Scripts/Buriola/AI/GhostAI.cs:507-529 | an eaten ghost whose previous node is the ghost house heads up toward the house's first neighbour and is set to Chase; otherwise target, direction and state stay |
| Ghosts.GhostAI.SetGhostsSettings | Assets/Scripts/Buriola/AI/GhostAI.cs:152-167 | with a difficulty every setting and the kind's release time come from it; without one nothing changes |
| Ghosts.GhostAI.ReleaseTimeOf | Assets/Scripts/Buriola/AI/PinkyAI.cs:40-47 | Pinky, Inky (InkyAI.cs:34) and Clyde (ClydeAI.cs:30) take their own release time from the difficulty; Blinky keeps his |
| Ghosts.GhostAI.CheckTimeToRelease | Assets/Scripts/Buriola/AI/PinkyAI.cs:88-95 | the release timer runs only while the ghost may move; the ghost leaves the house once it strictly exceeds the release time, and never re-enters |
| Ghosts.GhostAI.Release | Assets/Scripts/Buriola/AI/PinkyAI.cs:77-83 | the ghost is out of the house |
| Ghosts.GhostAI.BaseUpdate | Assets/Scripts/Buriola/AI/GhostAI.cs:86-97 | after a frame the ghost has no target while Pacman is caught |
| Ghosts.GhostAI.Update | Assets/Scripts/Buriola/AI/PinkyAI.cs:31-35 | the base frame, then for all but Blinky the release timer grows by dt exactly while the ghost may move and the ghost leaves the house once it passes the release time; Blinky's house flag and timer never change |
| Ghosts.GhostAI.OnGameStart | Assets/Scripts/Buriola/AI/GhostAI.cs:648-656 | the caught flag cleared; with a difficulty, every speed, fright time, the mode table and the kind's release time come from it; without one they stay |
| Ghosts.GhostAI.OnAfterGameStart | Assets/Scripts/Buriola/AI/GhostAI.cs:662-668 | the ghost may move and heads for NextFrom's choice |
| Ghosts.GhostAI.ResetToStart | Assets/Scripts/Buriola/AI/GhostAI.cs:675-699 | frozen, caught flag cleared, no target, on the starting node, schedule and timers at zero, Scatter reached |
| Ghosts.GhostAI.OnGameBoardRestart | Assets/Scripts/Buriola/AI/PinkyAI.cs:52-59 | the base reset, then Pinky, Inky and Clyde back in the house with the release timer at zero; Blinky's flags untouched |
| Ghosts.GhostAI.OnAfterGameBoardRestart | Assets/Scripts/Buriola/AI/PinkyAI.cs:64-72 | Blinky (left) and Pinky (up) head for NextFrom's choice; Inky and Clyde face up toward neighbour 0; all may move |
| Ghosts.GhostAI.OnGhostEaten | Assets/Scripts/Buriola/AI/GhostAI.cs:610 | the ghost is frozen |
| Ghosts.GhostAI.OnAfterGhostEaten | Assets/Scripts/Buriola/AI/GhostAI.cs:611 | the ghost may move |
| Ghosts.GhostAI.OnLevelWin | Assets/Scripts/Buriola/AI/GhostAI.cs:613-617 | the ghost is frozen |

## Left out

- Rendering, animation, audio, UI text, sprites, editor brushes, the game controller and scene loading: presentation and persistence only.
- Event subscription and unsubscription: the delegates are not modelled. The handlers are methods that the caller invokes in the order the board raises them.
- The timed waits of the coroutines `NewGame`, `Restart`, `GameOver`, `Win`, `GhostEaten`, `BonusItemEaten` and `Death`. Only their bookkeeping is modelled, as atomic steps. The `GameOver` coroutine's scene change and high-score saving are not modelled.
- Floating point: positions and timers are exact reals. `Mathf.RoundToInt` is rounded half up, where Unity rounds half to even. Float rounding in the squared-distance comparisons is not captured.
- `FindRandomPosition` is a parameter constrained to an integer tile in [0, 28) × [0, 32), because it is random.
- Inky's `GetDistance` is a parameter `root` with `root ≥ 0` and `root² ` equal to the squared distance, because it is a square root.
- `Nodes.Normalize`: it covers only axis-aligned offsets, because a diagonal one needs a square root. `Nodes.FindValidDirections` and `Nodes.StartAll` require every neighbour to lie on its node's row or column.
- Other crashes of the source are also ruled out by preconditions:
  - an empty difficulty table, where `ChangeLevelDifficulty` would call `Values.Last()` or index a missing key (the `|assets| > 0` requirement of the `GameBoard` constructor and `Valid`);
  - a node off the 28 × 36 grid, where `FindAllNodes` would store out of range (`GraphOk`, `NodeInBoard`);
  - a difficulty whose ghost-mode table is too short for the current mode index, where `UpdateChaseScatterTimers` would index past it (the requirements of `SetGhostsSettings` and `OnGameStart`).
- `FindAllNodes` stores the nodes in graph order. Unity does not specify the order of `FindObjectsOfType`, and when two nodes share a cell the one stored last wins, so the model fixes one of the orders the source allows.
- Null references the source would dereference are ruled out by preconditions instead of being modelled as crashes:
  - a ghost's current node in `ChooseNextNode`;
  - Pacman's starting node on restart;
  - Blinky for Inky;
  - player two's saved state in `LoadBoardState`;
  - the difficulty in `ShowBonusItem` (`BonusLookupSafe`).
- Nodes with more than four neighbours are excluded by the `Maze` precondition (`FourWay`). The source would index past its four candidate slots for such a node.
- `Ghosts.GhostAI.Movement`, `Arrive` and `Update` require the maze to be well formed and the ghost's references to point into it (`Valid`, `Maze`). These fields are `const` or are re-established by each method, so the model does not track them across an arbitrary call sequence.
- `Ghosts.GhostAI.BaseUpdate` and `Ghosts.GhostAI.Update`: state only what the frame guarantees as a whole: the invariant and the caught-Pacman freeze. The individual effects of each step are stated by `Movement`, `UpdateGhostsTimers` and `CheckIfItIsAtGhostHouse`.
- `Board.GameBoard.Tick`: for an ordinary frame before the bonus was shown, it states only that the win flag stays. The bonus-item effects of that frame are the ones `ShowBonusItem` states.
- Portal lookup by position at an arbitrary point is modelled at node positions only (`PortalOf`). The agents look portals up only at the node they stand on.
- `HandleAnimations`, `PlayChompSound`, `OnTriggerEnter2D`, `GetInput` and the pickups: input and presentation. The pickups reach the model through `UpdateScore`.

## Findings

| source | as written | input that shows it | evidently intended | confidence | as-written member | corrected member |
|---|---|---|---|---|---|---|
| Assets/Scripts/Buriola/Board/GameBoard.cs:404-415 | super pellet i is stored at `lastIndex + i + 1`, with `lastIndex` starting at 0, in an array of length plain + super pellets (the same indexing is used by `LoadBoardState` at lines 447-471) | a board with no plain pellets and one super pellet: the flag is written at index 1 of an array of length 1 | super pellet i is stored at index plain + i, right after the plain pellets | not executed | BoardRules.SuperSlotAsWrittenOverflows | Board.GameBoard.PackPellets |
| Assets/Scripts/Buriola/Board/GameBoard.cs:277-289 | when one player of a two-player game is out of lives, the GameOver coroutine swaps to the other player and restores their pellets without calling `ChangeLevelDifficulty`, unlike the turn change of `StartRestart` (lines 221-229) | player one on level 2 loses the last life while player two, on level 1, has lives, with a table of two distinct profiles: player two plays under profile 2 (`BoardRules.HandOverKeepsEliminatedProfile`). At player two's next death `StartRestart` hands the turn back to player one, and player one's next death goes through this hand-over again, so player two keeps profile 2 on every later turn until a level win reloads it (line 329); see `Board.GameBoard.EliminatedPlayerKeepsPlaying` | the survivor plays at their own level's difficulty | not executed | Board.GameBoard.EndGameOver | Board.GameBoard.HandOverAfterGameOver |
| Assets/Scripts/Buriola/Board/GameBoard.cs:212-230 | in a two-player game, a death that leaves the current player with lives always passes the turn to the other player, without checking whether that player is already out of lives | player one has 0 lives and player two has 2: player two dies and the turn passes to player one, who plays with 0 lives; player one's death then leads to GameOver, which hands the turn back, and the two alternate for as long as player two has lives | the turn passes only to a player who still has lives | not executed | Board.GameBoard.EliminatedPlayerKeepsPlaying | Board.GameBoard.StartRestartSkippingEliminated |
