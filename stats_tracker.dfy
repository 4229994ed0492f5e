/**
 * The statistics tracker: owns the per-game statistics record, listens to the
 * score system's combo changes, and keeps the best final score in the
 * player preferences under the "HighScore" key.
 */
module Tracking {
  import opened Wrappers
  import opened Stats
  import opened Scoring

  /** The high score a save leaves behind: the larger of the stored value and the final score. */
  function HighScoreAfter(stored: int, final: int): (h: int)
    ensures h >= stored && h >= final
    ensures h == stored || h == final
    ensures h == final <==> final >= stored
  {
    if final > stored then final else stored
  }

  /** Saving twice the same final score is the same as saving it once. */
  lemma HighScoreAfterIdempotent(stored: int, final: int)
    ensures HighScoreAfter(HighScoreAfter(stored, final), final) == HighScoreAfter(stored, final)
  {
  }

  /** Saving several final scores in turn keeps the best of them and of what was stored. */
  function HighScoreAfterAll(stored: int, finals: seq<int>): int
    decreases |finals|
  {
    if finals == [] then stored else HighScoreAfterAll(HighScoreAfter(stored, finals[0]), finals[1..])
  }

  /** The stored high score never goes down, and it is at least every saved final score. */
  lemma {:induction false} HighScoreAfterAllBounds(stored: int, finals: seq<int>)
    ensures HighScoreAfterAll(stored, finals) >= stored
    ensures forall i :: 0 <= i < |finals| ==> HighScoreAfterAll(stored, finals) >= finals[i]
    decreases |finals|
  {
    if finals != [] {
      var next := HighScoreAfter(stored, finals[0]);
      HighScoreAfterAllBounds(next, finals[1..]);
      forall i | 1 <= i < |finals|
        ensures HighScoreAfterAll(stored, finals) >= finals[i]
      {
        assert finals[i] == finals[1..][i - 1];
      }
    }
  }

  /** The one persisted key this core uses; None until it is first written. */
  class PlayerPrefs {
    var highScore: Option<int>

    constructor (stored: Option<int>)
      ensures highScore == stored
    {
      highScore := stored;
    }

    /** `GetInt("HighScore", default)`: the stored value, or the default when the key is absent. */
    function GetInt(default: int): (v: int)
      reads this
      ensures highScore.Some? ==> v == highScore.value
      ensures highScore.None? ==> v == default
    {
      highScore.GetOr(default)
    }

    method SetInt(value: int)
      modifies this
      ensures highScore == Some(value)
    {
      highScore := Some(value);
    }
  }

  class GameStatsTracker {
    const currentStats: GameStats
    /** The injected score system, or null when there is none. */
    const scoreSystem: ScoreManager?
    const prefs: PlayerPrefs

    /** The record is consistent, and a present score system delivers its combo changes to it. */
    ghost predicate Valid()
      reads this, currentStats, scoreSystem
    {
      currentStats.Valid()
      && (scoreSystem != null ==> scoreSystem.comboSink == currentStats && scoreSystem.Valid())
    }

    /** Start: a fresh record, subscribed to the score system's combo changes when there is one. */
    constructor (system: ScoreManager?, store: PlayerPrefs)
      requires system != null ==> system.Valid()
      modifies system
      ensures Valid()
      ensures scoreSystem == system && prefs == store
      ensures fresh(currentStats) && currentStats.combosSeen == []
      ensures currentStats.totalMoves == 0 && currentStats.finalScore == 0 && currentStats.maxCombo == 0
      ensures system != null ==> system.State() == old(system.State())
    {
      currentStats := new GameStats();
      scoreSystem := system;
      prefs := store;
      new;
      if system != null {
        system.Subscribe(currentStats);
      }
    }

    method StartNewGame()
      requires Valid()
      modifies currentStats
      ensures Valid()
      ensures currentStats.totalMoves == 0 && currentStats.successfulMatches == 0
      ensures currentStats.failedMatches == 0 && currentStats.gameTime == 0
      ensures currentStats.finalScore == 0 && currentStats.maxCombo == 0
      ensures currentStats.accuracy == 0.0 && currentStats.combosSeen == []
    {
      currentStats.Reset();
    }

    method RecordMove(wasSuccessful: bool)
      requires Valid()
      modifies currentStats
      ensures Valid()
      ensures currentStats.totalMoves == old(currentStats.totalMoves) + 1
      ensures currentStats.successfulMatches == old(currentStats.successfulMatches) + (if wasSuccessful then 1 else 0)
      ensures currentStats.failedMatches == old(currentStats.failedMatches) + (if wasSuccessful then 0 else 1)
      ensures 0.0 <= currentStats.accuracy <= 100.0
      ensures currentStats.gameTime == old(currentStats.gameTime)
      ensures currentStats.finalScore == old(currentStats.finalScore)
      ensures currentStats.maxCombo == old(currentStats.maxCombo)
      ensures currentStats.combosSeen == old(currentStats.combosSeen)
    {
      currentStats.AddMove(wasSuccessful);
    }

    /** Copies the score system's game time and total score into the record; without one, nothing changes. */
    method CompleteGame(now: int)
      requires Valid()
      modifies currentStats
      ensures Valid()
      ensures scoreSystem != null ==> currentStats.gameTime == scoreSystem.GameTime(now)
      ensures scoreSystem != null ==> currentStats.finalScore == scoreSystem.TotalScore()
      ensures scoreSystem == null ==> currentStats.gameTime == old(currentStats.gameTime)
      ensures scoreSystem == null ==> currentStats.finalScore == old(currentStats.finalScore)
      ensures currentStats.totalMoves == old(currentStats.totalMoves)
      ensures currentStats.successfulMatches == old(currentStats.successfulMatches)
      ensures currentStats.maxCombo == old(currentStats.maxCombo)
      ensures currentStats.combosSeen == old(currentStats.combosSeen)
    {
      if scoreSystem != null {
        currentStats.SetGameTime(scoreSystem.GameTime(now));
        currentStats.SetFinalScore(scoreSystem.TotalScore());
      }
    }

    /** The combo-change handler: the record keeps the highest combo. */
    method OnComboChanged(combo: int)
      requires Valid()
      modifies currentStats
      ensures Valid()
      ensures currentStats.combosSeen == old(currentStats.combosSeen) + [combo]
      ensures currentStats.maxCombo >= combo && currentStats.maxCombo >= old(currentStats.maxCombo)
      ensures currentStats.Counters() == old(currentStats.Counters())
    {
      currentStats.UpdateMaxCombo(combo);
    }

    /** Writes the final score only when it beats the stored high score (absent counts as 0). */
    method SaveHighScore()
      requires Valid()
      modifies prefs
      ensures prefs.GetInt(0) == HighScoreAfter(old(prefs.GetInt(0)), currentStats.finalScore)
      ensures currentStats.finalScore > old(prefs.GetInt(0)) ==> prefs.highScore == Some(currentStats.finalScore)
      ensures currentStats.finalScore <= old(prefs.GetInt(0)) ==> prefs.highScore == old(prefs.highScore)
    {
      var currentHighScore := prefs.GetInt(0);
      if currentStats.finalScore > currentHighScore {
        prefs.SetInt(currentStats.finalScore);
      }
    }

    method GetHighScore() returns (h: int)
      ensures prefs.highScore.Some? ==> h == prefs.highScore.value
      ensures prefs.highScore.None? ==> h == 0
    {
      h := prefs.GetInt(0);
    }
  }
}
