/**
 * Per-player bookkeeping (PlayerStats.cs): level, lives, score, pellets
 * eaten this level and whether this level's second bonus item was shown.
 */
module Stats {

  /** Lives after one LoseLife: one fewer, never below zero. */
  function AfterLoss(lives: int): (r: int)
    ensures r >= 0
    ensures lives >= 1 ==> r == lives - 1
    ensures lives <= 1 ==> r == 0
  {
    if lives - 1 <= 0 then 0 else lives - 1
  }

  /** Lives after `k` consecutive LoseLife calls. */
  function LivesAfter(lives: int, k: nat): int
    decreases k
  {
    if k == 0 then lives else LivesAfter(AfterLoss(lives), k - 1)
  }

  /**
   * From non-negative lives, `k` losses leave `lives - k` clamped at zero:
   * no sequence of LoseLife makes lives negative, and at zero it is idempotent.
   */
  lemma {:induction false} LivesAfterIsClamped(lives: int, k: nat)
    requires lives >= 0
    ensures LivesAfter(lives, k) == if lives - k > 0 then lives - k else 0
    decreases k
  {
    if k > 0 {
      LivesAfterIsClamped(AfterLoss(lives), k - 1);
    }
  }

  /** A player with `lives` lives reaches GameOver exactly after `lives` losses. */
  lemma GameOverAfterExactlyLivesLosses(lives: nat, k: nat)
    ensures LivesAfter(lives, k) == 0 <==> k >= lives
  {
    LivesAfterIsClamped(lives, k);
  }

  class PlayerStats {
    var lives: int
    var currentLevel: int
    var bonusItemShown: bool
    var score: int
    var pacpointsConsumed: int

    constructor (currentLevel: int, pacmanLives: int, score: int)
      ensures this.currentLevel == currentLevel && lives == pacmanLives && this.score == score
      ensures pacpointsConsumed == 0 && !bonusItemShown
    {
      this.currentLevel := currentLevel;
      lives := pacmanLives;
      this.score := score;
      pacpointsConsumed := 0;
      bonusItemShown := false;
    }

    method LoseLife()
      modifies this`lives
      ensures lives == AfterLoss(old(lives))
    {
      lives := lives - 1;
      if lives <= 0 {
        lives := 0;
      }
    }

    function GameOver(): (over: bool)
      reads this
      ensures over <==> lives == 0
    {
      lives == 0
    }

    function GetLives(): (n: int)
      reads this
      ensures n == lives
    {
      lives
    }
  }
}

/** Level data (LevelDifficulty.cs and GhostMode.cs): plain records. */
module Levels {
  /** One Scatter/Chase phase: seconds to scatter, then seconds to chase. */
  datatype GhostMode = GhostMode(scatterModeTime: real, chaseModeTime: real)

  datatype LevelDifficulty = LevelDifficulty(
    ghostsSpeed: real,
    ghostScaredSpeed: real,
    ghostsEatenSpeed: real,
    pinkyReleaseTime: real,
    inkyReleaseTime: real,
    clydeReleaseTime: real,
    ghostModes: seq<GhostMode>,
    ghostsScareDuration: real,
    ghostsStartBlinkingAt: real,
    pacmanSpeed: real,
    bonusItem: string)

  /** The table a ghost uses until a difficulty profile is applied. */
  const DefaultGhostModes: seq<GhostMode> :=
    [GhostMode(7.0, 20.0), GhostMode(7.0, 20.0), GhostMode(7.0, 20.0), GhostMode(7.0, 20.0)]
}
