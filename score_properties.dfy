/**
 * Properties of the scoring rules: the combo rule, what a failed match and
 * the end of the game do, the invariant every sequence of operations keeps,
 * and worked examples.
 */
module ScoringProperties {
  import opened Wrappers
  import opened Scoring

  /** An inactive session ignores match outcomes entirely. */
  lemma InactiveSessionIgnoresOutcomes(cfg: ScoringConfig, s: ScoreState, now: int)
    requires !s.active
    ensures SuccessOf(cfg, s, now) == s && SuccessEvents(cfg, s, now) == []
    ensures FailedOf(cfg, s) == s && FailedEvents(cfg, s) == []
  {
  }

  /**
   * A successful match: the combo continues exactly when the gap since the
   * last match lies in [minTimeBetweenMatches, comboTimeWindow]; the match
   * time is recorded either way; the match score is added to both scores; the
   * decay timer is replaced by one due a window from now.
   */
  lemma SuccessfulMatchRule(cfg: ScoringConfig, s: ScoreState, now: int)
    requires s.active
    ensures var t := SuccessOf(cfg, s, now);
      var gap := now - s.lastMatchTime;
      t.lastMatchTime == now
      && (cfg.minTimeBetweenMatches <= gap <= cfg.comboTimeWindow ==>
            t.combo == s.combo + 1
            && t.multiplier == (if s.multiplier + cfg.comboMultiplierIncrement < cfg.maxComboMultiplier
                                then s.multiplier + cfg.comboMultiplierIncrement
                                else cfg.maxComboMultiplier))
      && (!(cfg.minTimeBetweenMatches <= gap <= cfg.comboTimeWindow) ==> t.combo == 1 && t.multiplier == 1)
      && t.currentScore == s.currentScore + MatchScore(cfg.baseMatchScore, t.multiplier)
      && t.totalScore == s.totalScore + MatchScore(cfg.baseMatchScore, t.multiplier)
      && t.decayDue == Some(now + cfg.comboTimeWindow)
      && t.active && t.gameStartTime == s.gameStartTime
  {
  }

  /**
   * ShouldContinueCombo decides which combo events a successful match
   * raises: a new combo is announced exactly when the gap since the last
   * match lies outside [minTimeBetweenMatches, comboTimeWindow], and the
   * combo grows by one exactly when it lies inside.
   */
  lemma NewComboIffOutsideWindow(cfg: ScoringConfig, s: ScoreState, now: int)
    requires s.active
    ensures var gap := now - s.lastMatchTime;
      (ComboStart in SuccessEvents(cfg, s, now) <==> !(cfg.minTimeBetweenMatches <= gap <= cfg.comboTimeWindow))
      && (ComboChanged(s.combo + 1) in SuccessEvents(cfg, s, now) <==>
            cfg.minTimeBetweenMatches <= gap <= cfg.comboTimeWindow || s.combo == 0)
  {
    var continues := ShouldContinueCombo(cfg, now - s.lastMatchTime);
    var points := MatchScore(cfg.baseMatchScore, MultiplierAfterMatch(cfg, s, continues));
    assert SuccessEvents(cfg, s, now) == ComboStepEvents(cfg, s, continues) + AddScoreEvents(s, points);
  }

  /**
   * A failed match in an active session: the penalty only when it is enabled,
   * then combo 0, multiplier 1 and no pending decay timer; the break event is
   * raised exactly when the combo was above one.
   */
  lemma FailedMatchRule(cfg: ScoringConfig, s: ScoreState)
    requires s.active
    ensures var t := FailedOf(cfg, s);
      var penalty := if cfg.applyFailedMatchPenalty then cfg.failedMatchPenalty else 0;
      t.currentScore == s.currentScore + penalty && t.totalScore == s.totalScore + penalty
      && t.combo == 0 && t.multiplier == 1 && t.decayDue == None
      && t.lastMatchTime == s.lastMatchTime && t.active
    ensures ComboBreak in FailedEvents(cfg, s) <==> s.combo > 1
  {
    var e := FailedEvents(cfg, s);
    var pre := if cfg.applyFailedMatchPenalty then AddScoreEvents(s, cfg.failedMatchPenalty) else [];
    assert e == pre + BreakEvents(PenaltyOf(cfg, s));
    assert ComboBreak !in pre;
    assert PenaltyOf(cfg, s).combo == s.combo;
  }

  /**
   * Ending the session: it becomes inactive and gains the capped, rounded
   * time bonus when that is positive, and always the completion bonus.
   */
  lemma EndGameRule(cfg: ScoringConfig, s: ScoreState, now: int)
    ensures var t := EndGameOf(cfg, s, now);
      var b := TimeBonus(cfg, now - s.gameStartTime);
      var added := (if b > 0 then b else 0) + cfg.gameCompletionBonus;
      !t.active && t.currentScore == s.currentScore + added && t.totalScore == s.totalScore + added
      && t.combo == s.combo && t.multiplier == s.multiplier && t.decayDue == s.decayDue
    ensures TimeBonus(cfg, now - s.gameStartTime)
         == (var r := RoundHalfEven((now - s.gameStartTime) * cfg.timeBonusPerSecond, TicksPerSecond);
             if r < cfg.maxTimeBonus then r else cfg.maxTimeBonus)
  {
  }

  /**
   * Starting or restarting: zero scores and combo, multiplier 1, no timer,
   * active, and the last match set to -comboTimeWindow on the absolute clock,
   * a window before time 0 (FirstMatchStartsNewCombo draws the consequence).
   */
  lemma StartGameRule(cfg: ScoringConfig, s: ScoreState, now: int)
    ensures var t := StartGameOf(cfg, s, now);
      t.currentScore == 0 && t.totalScore == 0 && t.combo == 0 && t.multiplier == 1
      && t.decayDue == None && t.active && t.gameStartTime == now
      && t.lastMatchTime == -cfg.comboTimeWindow
    ensures StartGameOf(cfg, ResetScoreOf(s), now) == StartGameOf(cfg, s, now)
  {
  }

  /**
   * The consequence of that reset value: in a game started after time 0,
   * the first match falls outside the combo window and starts combo 1.
   */
  lemma FirstMatchStartsNewCombo(cfg: ScoringConfig, s: ScoreState, start: int, now: int)
    requires 0 < start <= now
    ensures var u := StartGameOf(cfg, s, start);
      !ShouldContinueCombo(cfg, now - u.lastMatchTime) && SuccessOf(cfg, u, now).combo == 1
  {
  }

  /** The operations a session goes through, driven by the board and the clock. */
  datatype ScoreOp =
    | StartOp(now: int)
    | MatchOp(now: int)
    | FailOp
    | DecayOp(now: int)
    | EndOp(now: int)
    | RestartOp(now: int)

  /** One operation; the decay timer only fires when it is pending and due. */
  function Step(cfg: ScoringConfig, s: ScoreState, op: ScoreOp): ScoreState
  {
    match op
    case StartOp(t) => StartGameOf(cfg, s, t)
    case MatchOp(t) => SuccessOf(cfg, s, t)
    case FailOp => FailedOf(cfg, s)
    case DecayOp(t) => if s.decayDue.Some? && s.decayDue.value <= t then BreakComboOf(s) else s
    case EndOp(t) => EndGameOf(cfg, s, t)
    case RestartOp(t) => StartGameOf(cfg, ResetScoreOf(s), t)
  }

  function Run(cfg: ScoringConfig, s: ScoreState, ops: seq<ScoreOp>): ScoreState
    decreases |ops|
  {
    if ops == [] then s else Run(cfg, Step(cfg, s, ops[0]), ops[1..])
  }

  lemma StepPreservesInv(cfg: ScoringConfig, s: ScoreState, op: ScoreOp)
    requires Inv(cfg, s)
    ensures Inv(cfg, Step(cfg, s, op))
  {
  }

  /**
   * Along any run: the current and total score stay equal, the combo stays
   * non-negative, and with a non-negative increment and a cap of at least 1
   * the multiplier stays in [1, cap].
   */
  lemma {:induction false} RunPreservesInv(cfg: ScoringConfig, s: ScoreState, ops: seq<ScoreOp>)
    requires Inv(cfg, s)
    ensures Inv(cfg, Run(cfg, s, ops))
    ensures Run(cfg, s, ops).currentScore == Run(cfg, s, ops).totalScore
    decreases |ops|
  {
    if ops != [] {
      StepPreservesInv(cfg, s, ops[0]);
      RunPreservesInv(cfg, Step(cfg, s, ops[0]), ops[1..]);
    }
  }

  /** The state a fresh manager starts from. */
  const Fresh: ScoreState := ScoreState(0, 0, 0, 1, 0, 0, false, None)

  /** One decay step: the timer fires only if it is pending and due. */
  function Decay(s: ScoreState, now: int): ScoreState
  {
    Step(DefaultScoring, s, DecayOp(now))
  }

  /** A session started at 0 s with the default tunables. */
  const Started: ScoreState := ScoreState(0, 0, 0, 1, 0, -3000, true, None)

  lemma StartedAtZero()
    ensures StartGameOf(DefaultScoring, Fresh, 0) == Started
  {
  }

  /**
   * Matches at 1 s, 2 s and 6 s with a 3 s window and a 0.5 s minimum gap:
   * the second continues the combo and the third starts a new combo of 1.
   */
  lemma WindowExceededRestartsCombo()
    ensures var s1 := SuccessOf(DefaultScoring, Started, 1000);
      var s2 := SuccessOf(DefaultScoring, s1, 2000);
      var s3 := SuccessOf(DefaultScoring, s2, 6000);
      s1.combo == 1 && s1.multiplier == 1 && s1.totalScore == 100
      && s2 == ScoreState(300, 300, 2, 2, 0, 2000, true, Some(5000))
      && s3.combo == 1 && s3.multiplier == 1
  {
    var s1 := SuccessOf(DefaultScoring, Started, 1000);
    assert s1 == ScoreState(100, 100, 1, 1, 0, 1000, true, Some(4000));
    var s2 := SuccessOf(DefaultScoring, s1, 2000);
    assert s2 == ScoreState(300, 300, 2, 2, 0, 2000, true, Some(5000));
  }

  /** The same third match comes after the decay timer of the second (due at 5 s) has fired: still a combo of 1. */
  lemma DecayThenLateMatch(s2: ScoreState, d: ScoreState, s3: ScoreState)
    requires s2 == ScoreState(300, 300, 2, 2, 0, 2000, true, Some(5000))
    requires d == Decay(s2, 5000)
    requires s3 == SuccessOf(DefaultScoring, d, 6000)
    ensures d.combo == 0 && d.multiplier == 1 && d.decayDue == None
    ensures s3.combo == 1 && s3.multiplier == 1 && s3.totalScore == 400
  {
  }

  /**
   * A combo of 1 with a multiplier above 1: a failed match breaks the combo
   * to 0 but leaves the last match time, so a success within the window
   * continues from 0.
   */
  lemma ComboOfOneCanCarryBonus()
    ensures var s1 := SuccessOf(DefaultScoring, Started, 5000);
      var s2 := FailedOf(DefaultScoring, s1);
      var s3 := SuccessOf(DefaultScoring, s2, 6000);
      s1.combo == 1 && s1.multiplier == 1
      && s2.combo == 0 && s2.lastMatchTime == 5000 && s2.totalScore == 90
      && s3.combo == 1 && s3.multiplier == 2 && s3.totalScore == 290
  {
  }

  /** A single match whose decay timer fires drops the combo back to 0 and the multiplier to 1. */
  lemma DecayEndsCombo(now: int)
    ensures var s := Decay(SuccessOf(DefaultScoring, Started, now), now + 3000);
      s.combo == 0 && s.multiplier == 1 && s.decayDue == None
  {
    var s2 := SuccessOf(DefaultScoring, Started, now);
    assert s2.decayDue == Some(now + 3000);
  }

  /** Base score 100 at multiplier 3 scores 300; a -10 penalty costs 10 points and resets the combo. */
  lemma ScoringExamples(s: ScoreState)
    requires s.active
    ensures MatchScore(100, 3) == 300
    ensures FailedOf(DefaultScoring, s).currentScore == s.currentScore - 10
    ensures FailedOf(DefaultScoring, s).combo == 0
  {
  }
}
