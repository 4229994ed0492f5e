/** The per-game statistics record with its counters, accuracy and highest combo. */
module Stats {

  /** Accuracy as a percentage: successes over moves times 100, and 0 before the first move. */
  function AccuracyOf(successes: int, moves: int): real
  {
    if moves > 0 then successes as real / moves as real * 100.0 else 0.0
  }

  /** A percentage of successes lies in [0, 100]. */
  lemma AccuracyInRange(successes: int, moves: int)
    requires 0 <= successes <= moves
    ensures 0.0 <= AccuracyOf(successes, moves) <= 100.0
    ensures moves > 0 && successes == moves ==> AccuracyOf(successes, moves) == 100.0
  {
    if moves > 0 {
      var q := successes as real / moves as real;
      assert q * moves as real == successes as real;
      assert 0.0 <= q <= 1.0;
    }
  }

  /** The running maximum of `start` and all of `combos`, as UpdateMaxCombo computes it call by call. */
  function RunningMax(start: int, combos: seq<int>): int
    decreases |combos|
  {
    if combos == [] then start
    else RunningMax(if combos[0] > start then combos[0] else start, combos[1..])
  }

  /** The running maximum bounds the start value and every combo. */
  lemma {:induction false} RunningMaxIsUpperBound(start: int, combos: seq<int>)
    ensures RunningMax(start, combos) >= start
    ensures forall i :: 0 <= i < |combos| ==> RunningMax(start, combos) >= combos[i]
    decreases |combos|
  {
    if combos != [] {
      var next := if combos[0] > start then combos[0] else start;
      RunningMaxIsUpperBound(next, combos[1..]);
      forall i | 1 <= i < |combos|
        ensures RunningMax(start, combos) >= combos[i]
      {
        assert combos[i] == combos[1..][i - 1];
      }
    }
  }

  /** The running maximum is the start value or one of the combos: it is the least upper bound. */
  lemma {:induction false} RunningMaxIsAttained(start: int, combos: seq<int>)
    ensures RunningMax(start, combos) == start
         || exists i :: 0 <= i < |combos| && RunningMax(start, combos) == combos[i]
    decreases |combos|
  {
    if combos != [] {
      var next := if combos[0] > start then combos[0] else start;
      RunningMaxIsAttained(next, combos[1..]);
      if RunningMax(start, combos) != next {
        var i :| 0 <= i < |combos[1..]| && RunningMax(next, combos[1..]) == combos[1..][i];
        assert RunningMax(start, combos) == combos[i + 1];
      } else if next != start {
        assert RunningMax(start, combos) == combos[0];
      }
    }
  }

  /** Feeding one more combo extends the running maximum. */
  lemma {:induction false} RunningMaxSnoc(start: int, combos: seq<int>, c: int)
    ensures RunningMax(start, combos + [c])
         == if c > RunningMax(start, combos) then c else RunningMax(start, combos)
    decreases |combos|
  {
    if combos == [] {
      assert combos + [c] == [c];
      assert [c][1..] == [];
    } else {
      var next := if combos[0] > start then combos[0] else start;
      assert (combos + [c])[0] == combos[0];
      assert (combos + [c])[1..] == combos[1..] + [c];
      RunningMaxSnoc(next, combos[1..], c);
    }
  }

  /** Feeding two runs of combos one after the other is feeding the first, then the second from its maximum. */
  lemma {:induction false} RunningMaxAppend(start: int, xs: seq<int>, ys: seq<int>)
    ensures RunningMax(start, xs + ys) == RunningMax(RunningMax(start, xs), ys)
    decreases |xs|
  {
    if xs == [] {
      assert xs + ys == ys;
    } else {
      var next := if xs[0] > start then xs[0] else start;
      assert (xs + ys)[0] == xs[0];
      assert (xs + ys)[1..] == xs[1..] + ys;
      RunningMaxAppend(next, xs[1..], ys);
    }
  }

  class GameStats {
    var totalMoves: int
    var successfulMatches: int
    var failedMatches: int
    /** Game time in clock ticks. */
    var gameTime: int
    var finalScore: int
    var maxCombo: int
    var accuracy: real
    /** Every combo passed to UpdateMaxCombo since the last Reset, in order. */
    ghost var combosSeen: seq<int>

    ghost predicate Valid()
      reads this
    {
      0 <= successfulMatches && 0 <= failedMatches
      && totalMoves == successfulMatches + failedMatches
      && accuracy == AccuracyOf(successfulMatches, totalMoves)
      && maxCombo == RunningMax(0, combosSeen)
    }

    /** The fields other than the combo maximum, for stating what UpdateMaxCombo leaves alone. */
    function Counters(): (int, int, int, int, int, real)
      reads this
    {
      (totalMoves, successfulMatches, failedMatches, gameTime, finalScore, accuracy)
    }

    constructor ()
      ensures Valid()
      ensures totalMoves == 0 && successfulMatches == 0 && failedMatches == 0
      ensures gameTime == 0 && finalScore == 0 && maxCombo == 0 && accuracy == 0.0
      ensures combosSeen == []
    {
      totalMoves := 0;
      successfulMatches := 0;
      failedMatches := 0;
      gameTime := 0;
      finalScore := 0;
      maxCombo := 0;
      accuracy := 0.0;
      combosSeen := [];
    }

    method Reset()
      modifies this
      ensures Valid()
      ensures totalMoves == 0 && successfulMatches == 0 && failedMatches == 0
      ensures gameTime == 0 && finalScore == 0 && maxCombo == 0 && accuracy == 0.0
      ensures combosSeen == []
    {
      totalMoves := 0;
      successfulMatches := 0;
      failedMatches := 0;
      gameTime := 0;
      finalScore := 0;
      maxCombo := 0;
      accuracy := 0.0;
      combosSeen := [];
    }

    /** One more move, counted as exactly one success or one failure; accuracy follows. */
    method AddMove(wasSuccessful: bool)
      requires Valid()
      modifies this
      ensures Valid()
      ensures totalMoves == old(totalMoves) + 1
      ensures successfulMatches == old(successfulMatches) + (if wasSuccessful then 1 else 0)
      ensures failedMatches == old(failedMatches) + (if wasSuccessful then 0 else 1)
      ensures accuracy == successfulMatches as real / totalMoves as real * 100.0
      ensures 0.0 <= accuracy <= 100.0
      ensures gameTime == old(gameTime) && finalScore == old(finalScore)
      ensures maxCombo == old(maxCombo) && combosSeen == old(combosSeen)
    {
      totalMoves := totalMoves + 1;
      if wasSuccessful {
        successfulMatches := successfulMatches + 1;
      } else {
        failedMatches := failedMatches + 1;
      }
      CalculateAccuracy();
      AccuracyInRange(successfulMatches, totalMoves);
    }

    method SetGameTime(time: int)
      modifies this`gameTime
      ensures gameTime == time
    {
      gameTime := time;
    }

    method SetFinalScore(score: int)
      modifies this`finalScore
      ensures finalScore == score
    {
      finalScore := score;
    }

    /** Keeps the highest combo seen since the last Reset. */
    method UpdateMaxCombo(combo: int)
      requires Valid()
      modifies this`maxCombo, this`combosSeen
      ensures Valid()
      ensures combosSeen == old(combosSeen) + [combo]
      ensures maxCombo >= old(maxCombo) && maxCombo >= combo
      ensures maxCombo == old(maxCombo) || maxCombo == combo
    {
      RunningMaxSnoc(0, combosSeen, combo);
      if combo > maxCombo {
        maxCombo := combo;
      }
      combosSeen := combosSeen + [combo];
    }

    /** Recomputes the accuracy percentage; before the first move it is left as it is. */
    method CalculateAccuracy()
      modifies this`accuracy
      ensures totalMoves > 0 ==> accuracy == successfulMatches as real / totalMoves as real * 100.0
      ensures totalMoves <= 0 ==> accuracy == old(accuracy)
    {
      if totalMoves > 0 {
        accuracy := successfulMatches as real / totalMoves as real * 100.0;
      }
    }
  }

  /** The highest combo is at least every combo passed in since the last Reset, and never below 0. */
  lemma MaxComboBoundsSeen(stats: GameStats)
    requires stats.Valid()
    ensures stats.maxCombo >= 0
    ensures forall i :: 0 <= i < |stats.combosSeen| ==> stats.maxCombo >= stats.combosSeen[i]
  {
    RunningMaxIsUpperBound(0, stats.combosSeen);
  }
}
