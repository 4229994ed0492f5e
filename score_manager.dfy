/**
 * The scoring and combo engine. Clock values are integer ticks supplied by
 * the caller (`now`); the decay coroutine is the optional due time `decayDue`,
 * so at most one decay timer can ever be pending. Every event the manager
 * raises is returned, in order, as a ScoreEvent; combo-changed events are
 * also delivered to the subscribed statistics record (`comboSink`).
 */
module Scoring {
  import opened Wrappers
  import opened Stats

  /** Ticks per second of the clock; time-bonus rates are per second. */
  const TicksPerSecond: int := 1000

  /**
   * The scoring tunables. Durations are in ticks; multiplier and increment
   * are integers.
   */
  datatype ScoringConfig = ScoringConfig(
    baseMatchScore: int,
    gameCompletionBonus: int,
    comboTimeWindow: int,
    maxComboMultiplier: int,
    comboMultiplierIncrement: int,
    minTimeBetweenMatches: int,
    timeBonusPerSecond: int,
    maxTimeBonus: int,
    failedMatchPenalty: int,
    applyFailedMatchPenalty: bool)

  /** The asset defaults, with 3 s and 0.5 s written as ticks. */
  const DefaultScoring: ScoringConfig :=
    ScoringConfig(100, 1000, 3000, 5, 1, 500, 10, 5000, -10, true)

  datatype ScoreEvent =
    | ScoreChanged(score: int)
    | TotalScoreChanged(total: int)
    | ComboChanged(combo: int)
    | MultiplierChanged(multiplier: int)
    | ComboStart
    | ComboBreak

  /** The values carried by the combo-changed events, in order. */
  function ComboValues(events: seq<ScoreEvent>): seq<int>
    decreases |events|
  {
    if events == [] then []
    else (if events[0].ComboChanged? then [events[0].combo] else []) + ComboValues(events[1..])
  }

  lemma {:induction false} ComboValuesAppend(a: seq<ScoreEvent>, b: seq<ScoreEvent>)
    ensures ComboValues(a + b) == ComboValues(a) + ComboValues(b)
    decreases |a|
  {
    if a == [] {
      assert a + b == b;
    } else {
      assert (a + b)[0] == a[0];
      assert (a + b)[1..] == a[1..] + b;
      ComboValuesAppend(a[1..], b);
    }
  }

  /** The manager's fields as one value. */
  datatype ScoreState = ScoreState(
    currentScore: int,
    totalScore: int,
    combo: int,
    multiplier: int,
    gameStartTime: int,
    lastMatchTime: int,
    active: bool,
    decayDue: Option<int>)

  /** What every operation preserves. */
  ghost predicate Inv(cfg: ScoringConfig, s: ScoreState)
  {
    s.currentScore == s.totalScore
    && s.combo >= 0
    && (cfg.comboMultiplierIncrement >= 0 && cfg.maxComboMultiplier >= 1
        ==> 1 <= s.multiplier <= cfg.maxComboMultiplier)
  }

  // ---------------------------------------------------------------------
  // Pure rules

  /** A match continues the combo when it comes no sooner than the minimum gap and within the window. */
  predicate ShouldContinueCombo(cfg: ScoringConfig, timeSinceLastMatch: int)
  {
    timeSinceLastMatch <= cfg.comboTimeWindow && timeSinceLastMatch >= cfg.minTimeBetweenMatches
  }

  /** The multiplier after a continued combo: one increment more, capped at the maximum. */
  function NextMultiplier(cfg: ScoringConfig, multiplier: int): (m: int)
    ensures m <= cfg.maxComboMultiplier && m <= multiplier + cfg.comboMultiplierIncrement
    ensures m == cfg.maxComboMultiplier || m == multiplier + cfg.comboMultiplierIncrement
  {
    if multiplier + cfg.comboMultiplierIncrement < cfg.maxComboMultiplier
    then multiplier + cfg.comboMultiplierIncrement
    else cfg.maxComboMultiplier
  }

  /** Base points plus the combo bonus base * (multiplier - 1), which is integral here. */
  function MatchScore(baseScore: int, multiplier: int): (r: int)
  {
    baseScore + baseScore * (multiplier - 1)
  }

  /** The match score is the base score scaled by the multiplier, so it grows with the multiplier. */
  lemma MatchScoreScales(baseScore: int, m1: int, m2: int)
    requires baseScore >= 0 && m1 <= m2
    ensures MatchScore(baseScore, m1) == baseScore * m1
    ensures MatchScore(baseScore, m1) <= MatchScore(baseScore, m2)
  {
    assert baseScore * (m1 - 1) == baseScore * m1 - baseScore;
    assert baseScore * (m2 - 1) == baseScore * m2 - baseScore;
    assert baseScore * m1 <= baseScore * m2 by {
      assert baseScore * m2 - baseScore * m1 == baseScore * (m2 - m1);
    }
  }

  /** Mathf.RoundToInt of n / d: the nearest integer, ties to the even one. */
  function RoundHalfEven(n: int, d: int): (r: int)
    requires d > 0
    ensures 2 * (r * d - n) <= d && 2 * (n - r * d) <= d
    ensures 2 * (r * d - n) == d || 2 * (n - r * d) == d ==> r % 2 == 0
  {
    var q := n / d;
    var rem := n % d;
    assert n == q * d + rem;
    assert (q + 1) * d == q * d + d;
    if 2 * rem < d then q
    else if 2 * rem > d then q + 1
    else if q % 2 == 0 then q
    else q + 1
  }

  /** The end-of-game time bonus: elapsed ticks, as seconds, times the rate, rounded, capped. */
  function TimeBonus(cfg: ScoringConfig, elapsed: int): (b: int)
    ensures b <= cfg.maxTimeBonus
  {
    var rounded := RoundHalfEven(elapsed * cfg.timeBonusPerSecond, TicksPerSecond);
    if rounded < cfg.maxTimeBonus then rounded else cfg.maxTimeBonus
  }

  function DigitChar(d: int): char
    requires 0 <= d < 10
  {
    "0123456789"[d]
  }

  /** The decimal digits of a natural number. */
  function NatToString(n: nat): (s: string)
    ensures |s| >= 1
    decreases n
  {
    if n < 10 then [DigitChar(n)] else NatToString(n / 10) + [DigitChar(n % 10)]
  }

  function IntToString(n: int): string
  {
    if n < 0 then "-" + NatToString(-n) else NatToString(n)
  }

  /** The combo caption: empty for a combo of at most one, otherwise "Combo: <n>x". */
  function ComboText(combo: int): (t: string)
  {
    if combo <= 1 then "" else "Combo: " + IntToString(combo) + "x"
  }

  lemma ComboTextEmptyIff(combo: int)
    ensures ComboText(combo) == "" <==> combo <= 1
  {
    if combo > 1 {
      assert |ComboText(combo)| > 0;
    }
  }

  // ---------------------------------------------------------------------
  // State transitions, one per operation

  function ResetScoreOf(s: ScoreState): ScoreState
  {
    s.(currentScore := 0, totalScore := 0, combo := 0, multiplier := 1, decayDue := None)
  }

  function ResetEvents(): seq<ScoreEvent>
  {
    [ScoreChanged(0), TotalScoreChanged(0), ComboChanged(0), MultiplierChanged(1)]
  }

  function StartGameOf(cfg: ScoringConfig, s: ScoreState, now: int): ScoreState
  {
    ResetScoreOf(s).(gameStartTime := now, active := true, lastMatchTime := -cfg.comboTimeWindow)
  }

  function AddScoreOf(s: ScoreState, amount: int): ScoreState
  {
    s.(currentScore := s.currentScore + amount, totalScore := s.totalScore + amount)
  }

  function AddScoreEvents(s: ScoreState, amount: int): seq<ScoreEvent>
  {
    [ScoreChanged(s.currentScore + amount), TotalScoreChanged(s.totalScore + amount)]
  }

  /** Breaking the combo cancels the decay timer. */
  function BreakComboOf(s: ScoreState): ScoreState
  {
    s.(combo := 0, multiplier := 1, decayDue := None)
  }

  /** The combo-break event is raised only for a combo above one. */
  function BreakEvents(s: ScoreState): seq<ScoreEvent>
  {
    (if s.combo > 1 then [ComboBreak] else []) + [ComboChanged(0), MultiplierChanged(1)]
  }

  /** The multiplier a successful match leaves: grown when the combo continues, else 1. */
  function MultiplierAfterMatch(cfg: ScoringConfig, s: ScoreState, continues: bool): int
  {
    if continues then NextMultiplier(cfg, s.multiplier) else 1
  }

  /** A successful match in an active session, once it is known whether the combo continues. */
  function MatchedOf(cfg: ScoringConfig, s: ScoreState, now: int, continues: bool): ScoreState
  {
    var m := MultiplierAfterMatch(cfg, s, continues);
    var points := MatchScore(cfg.baseMatchScore, m);
    ScoreState(s.currentScore + points, s.totalScore + points,
               if continues then s.combo + 1 else 1, m,
               s.gameStartTime, now, s.active, Some(now + cfg.comboTimeWindow))
  }

  function SuccessOf(cfg: ScoringConfig, s: ScoreState, now: int): ScoreState
  {
    if !s.active then s
    else MatchedOf(cfg, s, now, ShouldContinueCombo(cfg, now - s.lastMatchTime))
  }

  /** The events of the combo step: a continued combo, or a new combo of one. */
  function ComboStepEvents(cfg: ScoringConfig, s: ScoreState, continues: bool): seq<ScoreEvent>
  {
    if continues
    then [ComboChanged(s.combo + 1), MultiplierChanged(NextMultiplier(cfg, s.multiplier))]
    else [ComboStart, ComboChanged(1), MultiplierChanged(1)]
  }

  function MatchedEvents(cfg: ScoringConfig, s: ScoreState, continues: bool): seq<ScoreEvent>
  {
    ComboStepEvents(cfg, s, continues)
    + AddScoreEvents(s, MatchScore(cfg.baseMatchScore, MultiplierAfterMatch(cfg, s, continues)))
  }

  function SuccessEvents(cfg: ScoringConfig, s: ScoreState, now: int): seq<ScoreEvent>
  {
    if !s.active then []
    else MatchedEvents(cfg, s, ShouldContinueCombo(cfg, now - s.lastMatchTime))
  }

  function PenaltyOf(cfg: ScoringConfig, s: ScoreState): ScoreState
  {
    if cfg.applyFailedMatchPenalty then AddScoreOf(s, cfg.failedMatchPenalty) else s
  }

  function FailedOf(cfg: ScoringConfig, s: ScoreState): ScoreState
  {
    if !s.active then s else BreakComboOf(PenaltyOf(cfg, s))
  }

  function FailedEvents(cfg: ScoringConfig, s: ScoreState): seq<ScoreEvent>
  {
    if !s.active then []
    else
      (if cfg.applyFailedMatchPenalty then AddScoreEvents(s, cfg.failedMatchPenalty) else [])
      + BreakEvents(PenaltyOf(cfg, s))
  }

  /** Score events carry no combo value. */
  lemma AddScoreFeedsNoCombo(s: ScoreState, amount: int)
    ensures ComboValues(AddScoreEvents(s, amount)) == []
  {
    var e := AddScoreEvents(s, amount);
    assert e[1..][1..] == [];
    assert ComboValues(e[1..]) == [];
  }

  /** The final bonuses: the time bonus when it is positive, then the completion bonus. */
  function FinalBonusOf(cfg: ScoringConfig, s: ScoreState, now: int): ScoreState
  {
    var bonus := TimeBonus(cfg, now - s.gameStartTime);
    var withBonus := if bonus > 0 then AddScoreOf(s, bonus) else s;
    AddScoreOf(withBonus, cfg.gameCompletionBonus)
  }

  /** The session ends, then the final bonuses are added. */
  function EndGameOf(cfg: ScoringConfig, s: ScoreState, now: int): ScoreState
  {
    FinalBonusOf(cfg, s.(active := false), now)
  }

  function EndGameEvents(cfg: ScoringConfig, s: ScoreState, now: int): seq<ScoreEvent>
  {
    var bonus := TimeBonus(cfg, now - s.gameStartTime);
    var withBonus := if bonus > 0 then AddScoreOf(s, bonus) else s;
    (if bonus > 0 then AddScoreEvents(s, bonus) else [])
    + AddScoreEvents(withBonus, cfg.gameCompletionBonus)
  }

  /** The end of a session raises no combo change, so the subscribed record sees no new combo. */
  lemma EndGameFeedsNoCombo(cfg: ScoringConfig, s: ScoreState, now: int)
    ensures ComboValues(EndGameEvents(cfg, s, now)) == []
  {
    var bonus := TimeBonus(cfg, now - s.gameStartTime);
    var withBonus := if bonus > 0 then AddScoreOf(s, bonus) else s;
    var first := if bonus > 0 then AddScoreEvents(s, bonus) else [];
    AddScoreFeedsNoCombo(s, bonus);
    AddScoreFeedsNoCombo(withBonus, cfg.gameCompletionBonus);
    ComboValuesAppend(first, AddScoreEvents(withBonus, cfg.gameCompletionBonus));
  }

  // ---------------------------------------------------------------------
  // The component

  class ScoreManager {
    const config: ScoringConfig
    var currentScore: int
    var totalScore: int
    var currentCombo: int
    var currentComboMultiplier: int
    var gameStartTime: int
    var lastMatchTime: int
    var isGameActive: bool
    /** The due time of the combo decay coroutine, if one is running. */
    var decayDue: Option<int>
    /** The statistics record of the subscribed tracker, or null. */
    var comboSink: GameStats?

    function State(): ScoreState
      reads this
    {
      ScoreState(currentScore, totalScore, currentCombo, currentComboMultiplier,
                 gameStartTime, lastMatchTime, isGameActive, decayDue)
    }

    ghost predicate Valid()
      reads this, comboSink
    {
      Inv(config, State()) && (comboSink != null ==> comboSink.Valid())
    }

    /** What delivering `events` does to the subscribed statistics record. */
    twostate predicate Delivered(events: seq<ScoreEvent>)
      reads this, comboSink
    {
      comboSink == old(comboSink)
      && (comboSink != null ==>
            comboSink.combosSeen == old(comboSink.combosSeen) + ComboValues(events)
            && comboSink.Counters() == old(comboSink.Counters()))
    }

    constructor (cfg: ScoringConfig)
      ensures config == cfg && comboSink == null && Valid()
      ensures State() == ScoreState(0, 0, 0, 1, 0, 0, false, None)
    {
      config := cfg;
      currentScore, totalScore, currentCombo, currentComboMultiplier := 0, 0, 0, 1;
      gameStartTime, lastMatchTime := 0, 0;
      isGameActive := false;
      decayDue := None;
      comboSink := null;
    }

    /** `OnComboChanged += handler`: combo values now reach `sink`. */
    method Subscribe(sink: GameStats)
      requires Valid() && sink.Valid()
      modifies this`comboSink
      ensures Valid() && comboSink == sink
    {
      comboSink := sink;
    }

    /** GameTime: ticks (milliseconds) since the start while the session is active, 0 once it is not. */
    function GameTime(now: int): (t: int)
      reads this
      ensures !isGameActive ==> t == 0
      ensures isGameActive ==> t == now - gameStartTime
    {
      if isGameActive then now - gameStartTime else 0
    }

    function CurrentScore(): int reads this { currentScore }
    function TotalScore(): int reads this { totalScore }

    function GetComboText(): (t: string)
      reads this
      ensures t == "" <==> currentCombo <= 1
    {
      ComboTextEmptyIff(currentCombo);
      ComboText(currentCombo)
    }

    /** The subscriber has received the combo values of `emitted` on top of `seen0`. */
    ghost predicate SinkAt(seen0: seq<int>, emitted: seq<ScoreEvent>)
      reads this, comboSink
    {
      comboSink != null ==> comboSink.combosSeen == seen0 + ComboValues(emitted)
    }

    ghost function SinkSeen(): seq<int>
      reads this, comboSink
    {
      if comboSink != null then comboSink.combosSeen else []
    }

    /** Raises one event: appends it to `emitted` and hands a combo change to the subscriber. */
    method Notify(e: ScoreEvent, emitted: seq<ScoreEvent>, ghost seen0: seq<int>) returns (all: seq<ScoreEvent>)
      requires comboSink != null ==> comboSink.Valid()
      requires SinkAt(seen0, emitted)
      modifies comboSink
      ensures all == emitted + [e]
      ensures comboSink != null ==> comboSink.Valid()
      ensures SinkAt(seen0, all)
      ensures comboSink != null ==> comboSink.Counters() == old(comboSink.Counters())
    {
      all := emitted + [e];
      ComboValuesAppend(emitted, [e]);
      assert ComboValues([e]) == (if e.ComboChanged? then [e.combo] else []) by {
        assert [e][1..] == [];
      }
      if e.ComboChanged? && comboSink != null {
        comboSink.UpdateMaxCombo(e.combo);
      }
    }

    method StartGame(now: int) returns (events: seq<ScoreEvent>)
      requires Valid()
      modifies this, comboSink
      ensures Valid()
      ensures State() == StartGameOf(config, old(State()), now)
      ensures events == ResetEvents()
      ensures Delivered(events)
    {
      events := ResetScore();
      gameStartTime := now;
      isGameActive := true;
      lastMatchTime := -config.comboTimeWindow;
    }

    /** Ends the session and adds the final bonuses; it runs even when the session is already over. */
    method EndGame(now: int) returns (events: seq<ScoreEvent>)
      requires Valid()
      modifies this, comboSink
      ensures Valid()
      ensures State() == EndGameOf(config, old(State()), now)
      ensures events == EndGameEvents(config, old(State()), now)
      ensures Delivered(events)
    {
      isGameActive := false;
      events := CalculateFinalScore(now);
    }

    method OnSuccessfulMatch(now: int) returns (events: seq<ScoreEvent>)
      requires Valid()
      modifies this, comboSink
      ensures Valid()
      ensures State() == SuccessOf(config, old(State()), now)
      ensures events == SuccessEvents(config, old(State()), now)
      ensures Delivered(events)
    {
      events := [];
      if !isGameActive {
        return;
      }
      var timeSinceLastMatch := now - lastMatchTime;
      events := ScoreMatch(now, ShouldContinueCombo(config, timeSinceLastMatch));
    }

    /**
     * The rest of a successful match in an active session, once the gap
     * since the last match has decided whether the combo continues.
     */
    method ScoreMatch(now: int, continues: bool) returns (events: seq<ScoreEvent>)
      requires Valid() && isGameActive
      modifies this`lastMatchTime, this`currentCombo, this`currentComboMultiplier
      modifies this`currentScore, this`totalScore, this`decayDue, comboSink
      ensures Valid()
      ensures State() == MatchedOf(config, old(State()), now, continues)
      ensures events == MatchedEvents(config, old(State()), continues)
      ensures Delivered(events)
    {
      lastMatchTime := now;
      var e1 := ComboStep(continues);
      var matchScore := CalculateMatchScore();
      var e2 := AddScore(matchScore);
      StartComboDecayTimer(now);
      events := e1 + e2;
      ComboValuesAppend(e1, e2);
    }

    method OnFailedMatch() returns (events: seq<ScoreEvent>)
      requires Valid()
      modifies this, comboSink
      ensures Valid()
      ensures State() == FailedOf(config, old(State()))
      ensures events == FailedEvents(config, old(State()))
      ensures Delivered(events)
    {
      events := [];
      if !isGameActive {
        return;
      }
      if config.applyFailedMatchPenalty {
        events := AddScore(config.failedMatchPenalty);
      }
      var e2 := BreakCombo();
      ComboValuesAppend(events, e2);
      events := events + e2;
    }

    /** The combo step of a successful match: continue the combo, or start a new one. */
    method ComboStep(continues: bool) returns (events: seq<ScoreEvent>)
      requires Valid()
      modifies this`currentCombo, this`currentComboMultiplier, comboSink
      ensures Valid()
      ensures currentCombo == (if continues then old(currentCombo) + 1 else 1)
      ensures currentComboMultiplier == MultiplierAfterMatch(config, old(State()), continues)
      ensures events == ComboStepEvents(config, old(State()), continues)
      ensures Delivered(events)
    {
      if continues {
        events := ContinueCombo();
      } else {
        events := StartNewCombo();
      }
    }

    method StartNewCombo() returns (events: seq<ScoreEvent>)
      requires Valid()
      modifies this`currentCombo, this`currentComboMultiplier, comboSink
      ensures Valid()
      ensures currentCombo == 1 && currentComboMultiplier == 1
      ensures events == [ComboStart, ComboChanged(1), MultiplierChanged(1)]
      ensures Delivered(events)
    {
      currentCombo := 1;
      currentComboMultiplier := 1;
      ghost var seen0 := SinkSeen();
      events := Notify(ComboStart, [], seen0);
      events := Notify(ComboChanged(currentCombo), events, seen0);
      events := Notify(MultiplierChanged(currentComboMultiplier), events, seen0);
    }

    /** One more match in the combo; the multiplier grows by the increment up to the cap. */
    method ContinueCombo() returns (events: seq<ScoreEvent>)
      requires Valid()
      modifies this`currentCombo, this`currentComboMultiplier, comboSink
      ensures Valid()
      ensures currentCombo == old(currentCombo) + 1
      ensures currentComboMultiplier == NextMultiplier(config, old(currentComboMultiplier))
      ensures events == [ComboChanged(currentCombo), MultiplierChanged(currentComboMultiplier)]
      ensures Delivered(events)
    {
      currentCombo := currentCombo + 1;
      currentComboMultiplier := NextMultiplier(config, currentComboMultiplier);
      ghost var seen0 := SinkSeen();
      events := Notify(ComboChanged(currentCombo), [], seen0);
      events := Notify(MultiplierChanged(currentComboMultiplier), events, seen0);
    }

    /** Ends the combo and cancels the decay timer; the break event only for a combo above one. */
    method BreakCombo() returns (events: seq<ScoreEvent>)
      requires Valid()
      modifies this`currentCombo, this`currentComboMultiplier, this`decayDue, comboSink
      ensures Valid()
      ensures State() == BreakComboOf(old(State()))
      ensures events == BreakEvents(old(State()))
      ensures Delivered(events)
    {
      events := [];
      ghost var seen0 := SinkSeen();
      if currentCombo > 1 {
        events := Notify(ComboBreak, events, seen0);
      }
      currentCombo := 0;
      currentComboMultiplier := 1;
      decayDue := None;
      events := Notify(ComboChanged(currentCombo), events, seen0);
      events := Notify(MultiplierChanged(currentComboMultiplier), events, seen0);
    }

    /** Replaces any running decay timer by one due a combo window from now. */
    method StartComboDecayTimer(now: int)
      modifies this`decayDue
      ensures decayDue == Some(now + config.comboTimeWindow)
    {
      decayDue := Some(now + config.comboTimeWindow);
    }

    /** The decay coroutine resumes: the combo is broken. */
    method FireComboDecay(now: int) returns (events: seq<ScoreEvent>)
      requires Valid()
      requires decayDue.Some? && decayDue.value <= now
      modifies this, comboSink
      ensures Valid()
      ensures State() == BreakComboOf(old(State()))
      ensures events == BreakEvents(old(State()))
      ensures Delivered(events)
    {
      events := BreakCombo();
    }

    /** The score of one match: the base score scaled by the current multiplier. */
    function CalculateMatchScore(): (r: int)
      reads this
      ensures r == config.baseMatchScore * currentComboMultiplier
    {
      assert config.baseMatchScore * (currentComboMultiplier - 1)
          == config.baseMatchScore * currentComboMultiplier - config.baseMatchScore;
      MatchScore(config.baseMatchScore, currentComboMultiplier)
    }

    /** Adds the same amount to the current and the total score. */
    method AddScore(amount: int) returns (events: seq<ScoreEvent>)
      requires Valid()
      modifies this`currentScore, this`totalScore, comboSink
      ensures Valid()
      ensures State() == AddScoreOf(old(State()), amount)
      ensures events == AddScoreEvents(old(State()), amount)
      ensures Delivered(events)
    {
      currentScore := currentScore + amount;
      totalScore := totalScore + amount;
      ghost var seen0 := SinkSeen();
      events := Notify(ScoreChanged(currentScore), [], seen0);
      events := Notify(TotalScoreChanged(totalScore), events, seen0);
    }

    method CalculateFinalScore(now: int) returns (events: seq<ScoreEvent>)
      requires Valid()
      modifies this`currentScore, this`totalScore, comboSink
      ensures Valid()
      ensures State() == FinalBonusOf(config, old(State()), now)
      ensures events == EndGameEvents(config, old(State()), now)
      ensures Delivered(events)
    {
      var gameTime := now - gameStartTime;
      var timeBonus := TimeBonus(config, gameTime);
      events := [];
      if timeBonus > 0 {
        events := AddScore(timeBonus);
      }
      var e2 := AddScore(config.gameCompletionBonus);
      ComboValuesAppend(events, e2);
      events := events + e2;
    }

    method ResetScore() returns (events: seq<ScoreEvent>)
      requires Valid()
      modifies this`currentScore, this`totalScore, this`currentCombo,
               this`currentComboMultiplier, this`decayDue, comboSink
      ensures Valid()
      ensures State() == ResetScoreOf(old(State()))
      ensures events == ResetEvents()
      ensures Delivered(events)
    {
      currentScore := 0;
      totalScore := 0;
      currentCombo := 0;
      currentComboMultiplier := 1;
      decayDue := None;
      ghost var seen0 := SinkSeen();
      events := Notify(ScoreChanged(currentScore), [], seen0);
      events := Notify(TotalScoreChanged(totalScore), events, seen0);
      events := Notify(ComboChanged(currentCombo), events, seen0);
      events := Notify(MultiplierChanged(currentComboMultiplier), events, seen0);
    }

    method RestartGame(now: int) returns (events: seq<ScoreEvent>)
      requires Valid()
      modifies this, comboSink
      ensures Valid()
      ensures State() == StartGameOf(config, old(State()), now)
      ensures events == ResetEvents() + ResetEvents()
      ensures Delivered(events)
    {
      var e1 := ResetScore();
      var e2 := StartGame(now);
      ComboValuesAppend(e1, e2);
      events := e1 + e2;
    }
  }
}
