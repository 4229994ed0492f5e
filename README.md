# Memory card game core, modelled in Dafny

This project models the game engine of a Unity memory (pairs-matching) card
game and proves properties of that model:

- **Cards** (`card.dfy`, module `Cards`): each card has a front sprite, a
  position and the flags revealed, matched and interactable. Guarded
  transitions change them: click, reveal, hide, mark as matched, restore from
  a save, and reset. A `destroyed` flag models Unity's `Destroy`: afterwards
  the object compares equal to `null`, which `Present(c)` captures.
- **The board** (`board.dfy`, module `Board`; value-level rules in
  `board_rules.dfy`, module `BoardRules`; the shuffle in `shuffle.dfy`,
  module `Shuffling`). `GameBoardManager` is a class whose fields the
  methods update. It provides:
  - the deal: the pair list, a Fisher–Yates shuffle of the sprites, one card
    per entry, and a second Fisher–Yates shuffle of the grid positions;
  - the initial reveal;
  - the two-slot selection and the delayed match check;
  - reporting each move to the score system and the statistics tracker;
  - completion, end of game and restart;
  - saving the cards to `CardData` records and restoring them.
- **Scoring** (`score_manager.dfy`, module `Scoring`; properties in
  `score_properties.dfy`, module `ScoringProperties`). `ScoreManager` is a
  class. It implements:
  - the time-window combo rule with a capped multiplier;
  - the per-match score and the optional failed-match penalty;
  - a single, cancellable combo decay timer;
  - the end-of-game time bonus and the completion bonus.

  Each method's new state is the image of its old state under a pure function
  (`SuccessOf`, `FailedOf`, `EndGameOf`, …). The lemmas in `ScoringProperties`
  are stated over those functions.
- **Statistics** (`game_stats.dfy`, module `Stats`, and `stats_tracker.dfy`,
  module `Tracking`): the moves counters, the accuracy percentage, the running
  maximum combo, and the high score kept in the player preferences.
- **Save records** (`game_data.dfy`, module `GameDataModel`): `CardData` and
  the default `GameData`.

`engine.dfy` (module `Engine`) holds the engine values: sprites are compared
by identity and named by their asset name, and positions are `Vector3`.
`wrappers.dfy` holds `Option`.

How the engine's facilities are represented:

- **Time.** The clock is integer ticks passed in as `now`, with 1000 ticks per
  second for the time bonus.
- **Coroutines.** Each `WaitForSeconds` becomes a pending due time:
  - `pendingChecks` for `CheckForMatch`;
  - `pendingRevealEnds` for `ShowAllCardsBriefly`;
  - `decayDue` for the combo decay.

  Their continuations are the methods `ResolveMatchCheck`, `EndInitialReveal`
  and `FireComboDecay`. Each may run once its due time has come.
- **Randomness.** `Random.Range(0, i + 1)` is an oracle sequence of draws, each
  in `[0, i]`.
- **Events.** `ScoreManager` returns the events it raises, in order. Its
  combo-changed events also reach the subscribed statistics record, as
  `GameStatsTracker.Start` subscribes it.

Behaviour of the source that the model keeps as written:

- A third card clicked during the match delay turns face up but takes no slot
  (`SlotTaken`).
- A success after a failed match can continue from combo 0. The result is
  combo 1 with a multiplier above 1 (`ComboOfOneCanCarryBonus`).
- `StartGame` sets the last match time to `-comboTimeWindow` on the absolute
  clock, not relative to the start. A game started after time 0 therefore
  never continues a combo on its first match (`FirstMatchStartsNewCombo`).
- `RestoreBoardState` places every restored card at the prefab position. It
  ignores the saved one (`RestoreOfSave`).
- `RestoreBoardState` sets the first slot only when exactly one card is face up
  and unmatched.
- `HandleGameCompletion` ends the score system's session before the tracker
  reads its `GameTime`, which is 0 once the session is inactive. With a score
  system present, a completed game is recorded with a game time of 0
  (`HandleGameCompletion`).
- The failed-match penalty is negative by default, so the total score is not
  monotonic.
- A pending match check fires even after the game has ended.
- `ClearGameBoard` leaves the pair count untouched.

## Model

| member | source | states |
|---|---|---|
| Cards.Card.constructor | Assets/Scripts/Core/Gameplay/Card.cs:23-25 | a new card shows the given sprite and is face down, unmatched and interactable |
| Cards.Card.SetCardFrontSprite | Assets/Scripts/Core/Gameplay/Card.cs:54-57 | only the front sprite changes |
| Cards.Card.HandleCardClick | Assets/Scripts/Core/Gameplay/Card.cs:59-65 | the click is forwarded exactly when the card is interactable, unmatched and face down; the card never changes |
| Cards.Card.RevealCard | Assets/Scripts/Core/Gameplay/Card.cs:67-77 | a no-op on a revealed or matched card; otherwise the card is face up before the notification goes out (notified iff it was face down and unmatched) |
| Cards.Card.HideCard | Assets/Scripts/Core/Gameplay/Card.cs:79-85 | a no-op on a matched card; otherwise the card ends face down and interactable (the effect of AnimateCardHide, lines 117-129) |
| Cards.Card.MarkAsMatched | Assets/Scripts/Core/Gameplay/Card.cs:87-92 | matched and not interactable; the revealed flag, sprite and position are unchanged |
| Cards.Card.SetInteractable | Assets/Scripts/Core/Gameplay/Card.cs:101-104 | only the interactable flag changes, to the given value |
| Cards.Card.ResetCard | Assets/Scripts/Core/Gameplay/Card.cs:147-154 | back to face down, unmatched and interactable |
| Cards.Card.RestoreCardState | Assets/Scripts/Core/Gameplay/Card.cs:156-176 | revealed and matched exactly as given; interactable exactly when not matched |
| Cards.Card.Destroy | Assets/Scripts/Core/Gameplay/GameBoardManager.cs:378-381 | the card is destroyed and no longer counts as present |
| GameDataModel.CardData.GetPosition | Assets/Scripts/Core/Data/GameData.cs:26-29 | the vector of the three stored coordinates |
| GameDataModel.NewCardData | Assets/Scripts/Core/Data/GameData.cs:16-24 | stores name, flipped and matched exactly, and GetPosition gives back the position passed in |
| GameDataModel.CardDataFromOwnFields | Assets/Scripts/Core/Data/GameData.cs:16-29 | rebuilding a record from its own fields and position gives the same record |
| GameDataModel.NewGameData | Assets/Scripts/Core/Data/GameData.cs:43-52 | an empty, non-null card list and zero score, combo, time, moves and high score |
| Stats.AccuracyInRange | Assets/Scripts/Core/Gameplay/GameStats.cs:76-82 | with 0 <= successes <= moves the accuracy lies in [0, 100], and is 100 when every move succeeded |
| Stats.RunningMaxIsUpperBound | Assets/Scripts/Core/Gameplay/GameStats.cs:68-74 | the running maximum bounds its start and every combo fed to it |
| Stats.RunningMaxIsAttained | Assets/Scripts/Core/Gameplay/GameStats.cs:68-74 | the running maximum is its start or one of the combos, so it is the least upper bound |
| Stats.RunningMaxAppend | Assets/Scripts/Core/Gameplay/GameStats.cs:68-74 | feeding two runs of combos in turn is feeding the second from the maximum the first left |
| Stats.GameStats.constructor | Assets/Scripts/Core/Gameplay/GameStats.cs:27-30 | a new record has every counter zero and no combo seen |
| Stats.GameStats.Reset | Assets/Scripts/Core/Gameplay/GameStats.cs:32-41 | moves, successes, failures, time, final score, max combo and accuracy are all zero |
| Stats.GameStats.AddMove | Assets/Scripts/Core/Gameplay/GameStats.cs:43-56 | one more move and exactly one more success or failure; moves == successes + failures is kept; accuracy is successes/moves*100 and in [0, 100] |
| Stats.GameStats.SetGameTime | Assets/Scripts/Core/Gameplay/GameStats.cs:58-61 | only the game time is overwritten |
| Stats.GameStats.SetFinalScore | Assets/Scripts/Core/Gameplay/GameStats.cs:63-66 | only the final score is overwritten |
| Stats.GameStats.UpdateMaxCombo | Assets/Scripts/Core/Gameplay/GameStats.cs:68-74 | the combo joins the history; the maximum never decreases, is at least the combo, and is the old maximum or the combo |
| Stats.GameStats.CalculateAccuracy | Assets/Scripts/Core/Gameplay/GameStats.cs:76-82 | with moves, accuracy becomes successes/moves*100; without, it is left alone |
| Stats.MaxComboBoundsSeen | Assets/Scripts/Core/Gameplay/GameStats.cs:68-74 | the max combo is non-negative and at least every combo passed in since the last Reset |
| Tracking.HighScoreAfter | Assets/Scripts/Core/Gameplay/GameStatsTracker.cs:68-76 | the stored value after a save is the maximum of the stored value and the final score |
| Tracking.HighScoreAfterIdempotent | Assets/Scripts/Core/Gameplay/GameStatsTracker.cs:68-76 | saving the same final score twice is the same as saving it once |
| Tracking.HighScoreAfterAllBounds | Assets/Scripts/Core/Gameplay/GameStatsTracker.cs:68-76 | over any series of saves the stored value never goes down and is at least every saved score |
| Tracking.PlayerPrefs.GetInt | Assets/Scripts/Core/Gameplay/GameStatsTracker.cs:70 | the stored value, or the default when the key is absent |
| Tracking.PlayerPrefs.SetInt | Assets/Scripts/Core/Gameplay/GameStatsTracker.cs:73 | the key now holds the value |
| Tracking.GameStatsTracker.constructor | Assets/Scripts/Core/Gameplay/GameStatsTracker.cs:17-30 | a fresh record, subscribed to the score system's combo changes when there is one, with the score state untouched |
| Tracking.GameStatsTracker.StartNewGame | Assets/Scripts/Core/Gameplay/GameStatsTracker.cs:40-44 | the record is reset: every counter zero, no combo seen |
| Tracking.GameStatsTracker.RecordMove | Assets/Scripts/Core/Gameplay/GameStatsTracker.cs:46-50 | exactly the effect of AddMove on the record |
| Tracking.GameStatsTracker.CompleteGame | Assets/Scripts/Core/Gameplay/GameStatsTracker.cs:52-61 | with a score system, its GameTime and TotalScore are copied into the record; without one, they are unchanged; the counters are unchanged either way |
| Tracking.GameStatsTracker.OnComboChanged | Assets/Scripts/Core/Gameplay/GameStatsTracker.cs:63-66 | the combo feeds the running maximum; the other fields are unchanged |
| Tracking.GameStatsTracker.SaveHighScore | Assets/Scripts/Core/Gameplay/GameStatsTracker.cs:68-76 | the stored value becomes max(stored, final score), with absent read as 0; it is written only when the final score beats it |
| Tracking.GameStatsTracker.GetHighScore | Assets/Scripts/Core/Gameplay/GameStatsTracker.cs:78-81 | the stored value, 0 when absent |
| Shuffling.Swap | Assets/Scripts/Core/Gameplay/GameBoardManager.cs:127-129 | entries i and j exchanged, the multiset kept |
| Shuffling.SwapKeepsOthers | Assets/Scripts/Core/Gameplay/GameBoardManager.cs:127-129 | every entry other than i and j is left where it was |
| Shuffling.ShuffledPermutes | Assets/Scripts/Core/Gameplay/GameBoardManager.cs:183-192 | the Fisher–Yates result with draws in [0, i] keeps the length and the multiset of the list |
| Shuffling.Shuffle | Assets/Scripts/Core/Gameplay/GameBoardManager.cs:122-131 | the loop computes the Fisher–Yates function of the list and the draws, a permutation of the list |
| Scoring.NextMultiplier | Assets/Scripts/Core/Gameplay/ScoreManager.cs:122-125 | the multiplier becomes min(multiplier + increment, maximum): at most both, and equal to one of them |
| Scoring.MatchScoreScales | Assets/Scripts/Core/Gameplay/ScoreManager.cs:167-173 | base + base*(multiplier − 1) is base*multiplier, monotone in the multiplier |
| Scoring.RoundHalfEven | Assets/Scripts/Core/Gameplay/ScoreManager.cs:193 | rounding of n/d to the nearest integer, ties to the even one, as Mathf.RoundToInt does |
| Scoring.TimeBonus | Assets/Scripts/Core/Gameplay/ScoreManager.cs:191-195 | the rounded bonus for the elapsed time, never above the cap |
| Scoring.ComboTextEmptyIff | Assets/Scripts/Core/Gameplay/ScoreManager.cs:237-241 | the combo caption is empty exactly when the combo is at most 1 |
| Scoring.ScoreManager.constructor | Assets/Scripts/Core/Gameplay/ScoreManager.cs:24-31 | the field initialisers: zero scores and combo, multiplier 1, inactive, no timer, no subscriber |
| Scoring.ScoreManager.Subscribe | Assets/Scripts/Core/Gameplay/GameStatsTracker.cs:26-29 | combo changes now reach the given record |
| Scoring.ScoreManager.GameTime | Assets/Scripts/Core/Gameplay/ScoreManager.cs:39 | 0 while the session is inactive, otherwise the time since the start |
| Scoring.ScoreManager.GetComboText | Assets/Scripts/Core/Gameplay/ScoreManager.cs:237-241 | empty exactly when the combo is at most 1 |
| Scoring.ScoreManager.StartGame | Assets/Scripts/Core/Gameplay/ScoreManager.cs:54-60 | the new state is StartGameOf of the old one (see StartGameRule); the reset events are raised |
| Scoring.ScoreManager.EndGame | Assets/Scripts/Core/Gameplay/ScoreManager.cs:62-66 | the new state is EndGameOf of the old one (see EndGameRule), also when the session is already over |
| Scoring.ScoreManager.OnSuccessfulMatch | Assets/Scripts/Core/Gameplay/ScoreManager.cs:68-90 | the new state is SuccessOf of the old one (see SuccessfulMatchRule and InactiveSessionIgnoresOutcomes); the events are SuccessEvents and their combo values reach the subscriber |
| Scoring.ScoreManager.ScoreMatch | Assets/Scripts/Core/Gameplay/ScoreManager.cs:75-89 | in an active session: the match time is recorded, the combo step runs, the match score is added and the decay timer restarted |
| Scoring.ScoreManager.ComboStep | Assets/Scripts/Core/Gameplay/ScoreManager.cs:77-84 | a continued combo grows by one with the next multiplier; a new one is combo 1 at multiplier 1 |
| Scoring.ScoreManager.OnFailedMatch | Assets/Scripts/Core/Gameplay/ScoreManager.cs:92-102 | the new state is FailedOf of the old one (see FailedMatchRule) |
| Scoring.ScoreManager.StartNewCombo | Assets/Scripts/Core/Gameplay/ScoreManager.cs:110-117 | combo 1, multiplier 1; start, combo and multiplier events in that order |
| Scoring.ScoreManager.ContinueCombo | Assets/Scripts/Core/Gameplay/ScoreManager.cs:119-129 | one more in the combo, multiplier min(multiplier + increment, max); combo and multiplier events |
| Scoring.ScoreManager.BreakCombo | Assets/Scripts/Core/Gameplay/ScoreManager.cs:131-149 | combo 0, multiplier 1, no decay timer; the break event only for a combo above 1 |
| Scoring.ScoreManager.StartComboDecayTimer | Assets/Scripts/Core/Gameplay/ScoreManager.cs:151-159 | any pending timer is replaced by one due a window from now |
| Scoring.ScoreManager.FireComboDecay | Assets/Scripts/Core/Gameplay/ScoreManager.cs:161-165 | a due timer breaks the combo |
| Scoring.ScoreManager.CalculateMatchScore | Assets/Scripts/Core/Gameplay/ScoreManager.cs:167-173 | base * multiplier, which is base + base*(multiplier − 1); the rounding is exact for an integer multiplier |
| Scoring.ScoreManager.Notify | Assets/Scripts/Core/Gameplay/GameStatsTracker.cs:63-66 | one `?.Invoke` of the score system (ScoreManager.cs lines 114-148, 185-186, 219-222): the event is appended to those raised; a ComboChanged value reaches the subscribed record (subscribed at GameStatsTracker.cs:26-29), whose combo history grows by it and whose counters are unchanged; without a subscriber nothing else happens |
| Scoring.ScoreManager.AddScore | Assets/Scripts/Core/Gameplay/ScoreManager.cs:175-187 | the same amount is added to the current and the total score; nothing else changes |
| Scoring.ScoreManager.CalculateFinalScore | Assets/Scripts/Core/Gameplay/ScoreManager.cs:189-204 | the time bonus is added when positive, then always the completion bonus |
| Scoring.ScoreManager.ResetScore | Assets/Scripts/Core/Gameplay/ScoreManager.cs:206-223 | zero scores and combo, multiplier 1, timer cancelled; the four reset events |
| Scoring.ScoreManager.RestartGame | Assets/Scripts/Core/Gameplay/ScoreManager.cs:225-229 | the same state as StartGame, with the reset events raised twice |
| ScoringProperties.InactiveSessionIgnoresOutcomes | Assets/Scripts/Core/Gameplay/ScoreManager.cs:68-102 | with the session inactive, a successful or failed match changes nothing and raises nothing |
| ScoringProperties.SuccessfulMatchRule | Assets/Scripts/Core/Gameplay/ScoreManager.cs:74-129 | the combo continues iff minTimeBetweenMatches <= gap <= comboTimeWindow (combo + 1, capped multiplier), otherwise combo 1 and multiplier 1; lastMatchTime becomes now; both scores gain the match score; the decay timer is due a window from now |
| ScoringProperties.FailedMatchRule | Assets/Scripts/Core/Gameplay/ScoreManager.cs:92-149 | the penalty only when enabled, then combo 0, multiplier 1, no timer; the break event iff the combo was above 1 |
| ScoringProperties.EndGameRule | Assets/Scripts/Core/Gameplay/ScoreManager.cs:189-204 | inactive; both scores gain min(round(elapsed*rate), max) when positive, plus the completion bonus |
| Scoring.EndGameFeedsNoCombo | Assets/Scripts/Core/Gameplay/ScoreManager.cs:189-204 | the end of a session raises no combo-changed event, so the subscribed record gets no combo |
| ScoringProperties.StartGameRule | Assets/Scripts/Core/Gameplay/ScoreManager.cs:54-60 | zero scores and combo, multiplier 1, no timer, active, start now; the last match is set to -comboTimeWindow on the absolute clock (a window before time 0, not before the start), a preceding reset changes nothing |
| ScoringProperties.FirstMatchStartsNewCombo | Assets/Scripts/Core/Gameplay/ScoreManager.cs:54-60 | because the last match is reset to a window before time 0, a game started after time 0 never continues a combo on its first match: the gap lies outside the window and the combo becomes 1 |
| ScoringProperties.NewComboIffOutsideWindow | Assets/Scripts/Core/Gameplay/ScoreManager.cs:104-108 | ShouldContinueCombo in use: a successful match announces a new combo exactly when the gap lies outside [minTimeBetweenMatches, comboTimeWindow], and raises the combo by one exactly when the gap lies inside (or the combo was 0) |
| ScoringProperties.StepPreservesInv | Assets/Scripts/Core/Gameplay/ScoreManager.cs:110-149 | every operation keeps current == total, combo >= 0, and 1 <= multiplier <= max when inc >= 0 and max >= 1 |
| ScoringProperties.RunPreservesInv | Assets/Scripts/Core/Gameplay/ScoreManager.cs:175-187 | along any sequence of operations the invariant holds, so current and total score stay equal |
| ScoringProperties.StartedAtZero | Assets/Scripts/Core/Gameplay/ScoreManager.cs:54-60 | the concrete state of a session started at 0 s with the default tunables |
| ScoringProperties.WindowExceededRestartsCombo | Assets/Scripts/Core/Gameplay/ScoreManager.cs:104-108 | matches at 1 s, 2 s and 6 s: the second continues the combo, the third starts a new combo of 1 |
| ScoringProperties.DecayThenLateMatch | Assets/Scripts/Core/Gameplay/ScoreManager.cs:161-165 | the decay fires at 5 s and breaks the combo; a match at 6 s starts a combo of 1 |
| ScoringProperties.ComboOfOneCanCarryBonus | Assets/Scripts/Core/Gameplay/ScoreManager.cs:119-129 | after a failed match, a success within the window gives combo 1 with multiplier 2 |
| ScoringProperties.DecayEndsCombo | Assets/Scripts/Core/Gameplay/ScoreManager.cs:161-165 | a single match whose decay fires ends with combo 0, multiplier 1 and no timer |
| ScoringProperties.ScoringExamples | Assets/Scripts/Core/Gameplay/ScoreManager.cs:167-173 | base 100 at multiplier 3 scores 300; the default penalty costs 10 and resets the combo |
| BoardRules.TruncHalf | Assets/Scripts/Core/Gameplay/GameBoardManager.cs:110 | C# integer halving, which truncates toward zero |
| BoardRules.PairList | Assets/Scripts/Core/Gameplay/GameBoardManager.cs:109-117 | the unshuffled list has length 2*((rows*cols)/2), and 0 when that is not positive |
| BoardRules.PairListGrows | Assets/Scripts/Core/Gameplay/GameBoardManager.cs:112-117 | one more loop iteration appends pool[i % len] twice |
| BoardRules.PairListEntries | Assets/Scripts/Core/Gameplay/GameBoardManager.cs:112-117 | entries 2i and 2i+1 are both pool[i % len] |
| BoardRules.PairListCountsEven | Assets/Scripts/Core/Gameplay/GameBoardManager.cs:112-117 | every sprite occurs an even number of times, so every card has a partner |
| BoardRules.PairListCountsDistinct | Assets/Scripts/Core/Gameplay/GameBoardManager.cs:112-117 | with distinct sprites and no more pairs than sprites, each of the first `pairs` sprites occurs exactly twice and no other sprite occurs |
| BoardRules.GridSpec | Assets/Scripts/Core/Gameplay/GameBoardManager.cs:162-181 | rows*cols positions, none when either is not positive |
| BoardRules.GridSpecCell | Assets/Scripts/Core/Gameplay/GameBoardManager.cs:167-177 | entry row*cols+col is cell (row, col), spaced 120 apart and centred on the origin |
| BoardRules.GridPositionsDistinct | Assets/Scripts/Core/Gameplay/GameBoardManager.cs:162-181 | no two grid entries share a position |
| BoardRules.CountMatched | Assets/Scripts/Core/Gameplay/GameBoardManager.cs:458-461 | the number of matched cards, at most the number of cards |
| BoardRules.CountPending | Assets/Scripts/Core/Gameplay/GameBoardManager.cs:466-473 | the number of face-up unmatched cards, at most the number of cards |
| BoardRules.DealtViews | Assets/Scripts/Core/Gameplay/GameBoardManager.cs:133-145 | one face-down unmatched card per sprite, in order |
| BoardRules.Placed | Assets/Scripts/Core/Gameplay/GameBoardManager.cs:153-159 | card i takes position i when there is one; the others stay put |
| BoardRules.CountMatchedMarkOne | Assets/Scripts/Core/Gameplay/GameBoardManager.cs:265-266 | marking one unmatched card matched adds one to the matched count |
| BoardRules.CompletionIffAllMatched | Assets/Scripts/Core/Gameplay/GameBoardManager.cs:286 | with an even number of cards, (matched/2 >= cards/2) iff every card is matched |
| BoardRules.FirstNamedIsFirst | Assets/Scripts/Core/Gameplay/GameBoardManager.cs:488-496 | the search returns the first sprite with the name, or nothing when no sprite has it |
| BoardRules.LookupSound | Assets/Scripts/Core/Gameplay/GameBoardManager.cs:483-497 | a found sprite is in the pool and has the name; nothing is found only for an empty name or one no sprite has |
| BoardRules.LookupFindsOwnName | Assets/Scripts/Core/Gameplay/GameBoardManager.cs:483-497 | in a pool with unique names, a sprite with a non-empty name is found by its own name |
| BoardRules.SaveAll | Assets/Scripts/Core/Gameplay/GameBoardManager.cs:401-409 | one record per card, in order |
| BoardRules.RestoreAll | Assets/Scripts/Core/Gameplay/GameBoardManager.cs:441-455 | no more cards than records |
| BoardRules.RestoreAllShape | Assets/Scripts/Core/Gameplay/GameBoardManager.cs:441-455 | every restored card shows a sprite of the pool and stands at the prefab position |
| BoardRules.RestoreOfSave | Assets/Scripts/Core/Gameplay/GameBoardManager.cs:441-455 | when the pool's sprite names are unique and every saved sprite is in the pool with a non-empty name, restoring what GetCardsData saved gives back the very same sprites and flags in order; only the positions change |
| BoardRules.RestoreOfSaveKeepsNamesAndFlags | Assets/Scripts/Core/Gameplay/GameBoardManager.cs:441-455 | with any pool, when every saved sprite is in the pool with a non-empty name, restoring what was saved gives back as many cards, each with the saved sprite name and the saved face-up and matched flags |
| BoardRules.RestoreSkipsUnresolved | Assets/Scripts/Core/Gameplay/GameBoardManager.cs:443-444 | a record whose name is empty or unknown leaves no card |
| Board.GenerateGridPositions | Assets/Scripts/Core/Gameplay/GameBoardManager.cs:162-181 | the nested loop lists exactly the grid in row-major order |
| Board.GameBoardManager.constructor | Assets/Scripts/Core/Gameplay/GameBoardManager.cs:41-46 | the field initialisers: no cards, no selection, no pairs, active |
| Board.GameBoardManager.FindSpriteByName | Assets/Scripts/Core/Gameplay/GameBoardManager.cs:483-497 | the search loop returns the first configured sprite with the name, nothing for an empty name |
| Board.GameBoardManager.GetCardsData | Assets/Scripts/Core/Gameplay/GameBoardManager.cs:401-409 | one record per card, in order, with its sprite name, flags and position |
| Board.GameBoardManager.ShuffleCardSprites | Assets/Scripts/Core/Gameplay/GameBoardManager.cs:122-131 | the pair list becomes its Fisher–Yates shuffle, a permutation |
| Board.GameBoardManager.PrepareCardSprites | Assets/Scripts/Core/Gameplay/GameBoardManager.cs:104-120 | the column constraint (GetConstraintCount) becomes the grid column count; the list is the shuffled pair list; with pairs to deal and no sprite, the modulo by zero aborts with an empty list |
| Board.GameBoardManager.CreateGameBoard | Assets/Scripts/Core/Gameplay/GameBoardManager.cs:133-145 | exactly one new, face-down, unmatched, interactable card per list entry, in order |
| Board.GameBoardManager.RandomizeCardPositions | Assets/Scripts/Core/Gameplay/GameBoardManager.cs:147-160 | card i moves to entry i of the shuffled grid; nothing else changes |
| Board.GameBoardManager.PlaceCards | Assets/Scripts/Core/Gameplay/GameBoardManager.cs:153-159 | card i takes position i while there are positions; the other fields are unchanged |
| Board.GameBoardManager.SetAllCardsInteractable | Assets/Scripts/Core/Gameplay/GameBoardManager.cs:339-345 | every card's interactable flag is the value; nothing else changes |
| Board.GameBoardManager.BeginInitialReveal | Assets/Scripts/Core/Gameplay/GameBoardManager.cs:194-203 | every card is locked and the end of the reveal is due after the reveal duration |
| Board.GameBoardManager.EndInitialReveal | Assets/Scripts/Core/Gameplay/GameBoardManager.cs:203-205 | at its due time every card of the board is unlocked |
| Board.GameBoardManager.SetUpBoard | Assets/Scripts/Core/Gameplay/GameBoardManager.cs:76-80 | the deal: shuffled pair list, one card per entry on the shuffled grid, all locked; or the abort of an empty sprite pool |
| Board.GameBoardManager.InitializeGame | Assets/Scripts/Core/Gameplay/GameBoardManager.cs:74-93 | the deal, then a started score session and a cleared statistics record; after the abort nothing else changes |
| Board.GameBoardManager.StartSession | Assets/Scripts/Core/Gameplay/GameBoardManager.cs:82-90 | the score system starts its session and the record is cleared; the cards are unchanged |
| Board.GameBoardManager.HandleCardSelection | Assets/Scripts/Core/Gameplay/GameBoardManager.cs:208-224 | nothing changes when the game is inactive or the card matched or face up; otherwise the card turns face up and takes the first free slot (none when both are taken); when it fills the second slot, the first slot card keeps its sprite and position and both are locked |
| Board.GameBoardManager.TakeSlot | Assets/Scripts/Core/Gameplay/GameBoardManager.cs:215-223 | the first free slot takes the card; filling the second locks both, keeps the first card's sprite and position, and schedules a check |
| Board.GameBoardManager.StartMatchCheck | Assets/Scripts/Core/Gameplay/GameBoardManager.cs:236-243 | the present slot cards are locked and a check is due after the match delay |
| Board.GameBoardManager.ClickCard | Assets/Scripts/Core/Gameplay/Card.cs:178-181 | a click on the card reaches the board only for an interactable, unmatched, face-down card, then selects it as HandleCardSelection states, the first slot card keeping its sprite and position |
| Board.GameBoardManager.MatchPair | Assets/Scripts/Core/Gameplay/GameBoardManager.cs:265-270 | both slot cards matched and locked, one more pair counted, the pair count still matched cards / 2 |
| Board.GameBoardManager.MarkOne | Assets/Scripts/Core/Gameplay/GameBoardManager.cs:265-266 | one unmatched card of the board becomes matched: one more matched card |
| Board.GameBoardManager.ReportMove | Assets/Scripts/Core/Gameplay/GameBoardManager.cs:273-282 | the score system scores the move as a success or a failure; the tracker counts it, keeps the time and final score, and is fed the move's combo values: the history grows by them and the highest combo is the running maximum over them (RecordFed) |
| Board.GameBoardManager.HandleGameCompletion | Assets/Scripts/Core/Gameplay/GameBoardManager.cs:313-337 | inactive; the score session ends; the tracker records and saves the high score; with a score system the recorded time is 0 and the final score its total; the combo history and highest combo are unchanged |
| Board.GameBoardManager.CompletionIffAllMatchedOnBoard | Assets/Scripts/Core/Gameplay/GameBoardManager.cs:286 | with an even number of cards, the completion test holds iff every card is matched |
| Board.GameBoardManager.HandleSuccessfulMatch | Assets/Scripts/Core/Gameplay/GameBoardManager.cs:263-290 | both matched and locked, keeping sprite, position and face-up flag; one more pair; the game ends iff the pair count reaches half the cards; the score state is SuccessOf, then EndGameOf on completion; the record counts a success and is fed its combo values; on completion with a score system it holds time 0 and the total score, otherwise its time and final score are kept; the high score is saved on completion only |
| Board.GameBoardManager.ReportSuccess | Assets/Scripts/Core/Gameplay/GameBoardManager.cs:273-289 | a successful move, then the completion when it is due: the score state, the counters, the combo feed, time 0 and the total score recorded on completion with a score system (kept otherwise), the high score saved on completion only |
| Board.GameBoardManager.HandleFailedMatch | Assets/Scripts/Core/Gameplay/GameBoardManager.cs:292-311 | both cards face down, unmatched and clickable again, keeping sprite and position; the score system applies FailedOf; the tracker counts one more move and one more failure, keeps the time and final score, and is fed the failure's combo values |
| Board.GameBoardManager.HidePair | Assets/Scripts/Core/Gameplay/GameBoardManager.cs:294-295 | both slot cards face down and interactable, still unmatched |
| Board.GameBoardManager.ResolveMatchCheck | Assets/Scripts/Core/Gameplay/GameBoardManager.cs:243-261 | the due check is popped; both slots end empty; with both slot cards present the pair is resolved as PairResolved and PairScored state (kept sprites and positions, matched and locked or face down and clickable, pair count, game over, score state, move counters, combo feed, recorded time and final score, high score); with a slot card missing the pair count, the game flag, the score system, the record, the store and the slot cards are unchanged |
| Board.GameBoardManager.SettleSelection | Assets/Scripts/Core/Gameplay/GameBoardManager.cs:245-260 | both slots end empty; with both slot cards present the pair is resolved as PairResolved and PairScored state; otherwise the pair count, the game flag, the score system, the record, the store and the slot cards are unchanged |
| Board.GameBoardManager.ResolvePair | Assets/Scripts/Core/Gameplay/GameBoardManager.cs:245-257 | PairResolved: both cards keep sprite and position; equal sprites give both matched, locked and still face up, one more pair, the game over once half the cards are paired; different sprites give both face down, unmatched and clickable, the counts unchanged. PairScored: the score state is ResolvedOf, the record counts the move, is fed its combo values, holds time 0 and the total score on completion with a score system (kept otherwise), and the high score is saved on completion only |
| Board.GameBoardManager.ClearSelection | Assets/Scripts/Core/Gameplay/GameBoardManager.cs:259-260 | both slots empty |
| Board.GameBoardManager.EndGame | Assets/Scripts/Core/Gameplay/GameBoardManager.cs:368-374 | a no-op when the game is already over; otherwise the completion: EndGameOf, time 0 and the total score recorded with a score system (kept without one), the high score saved, the combo history and highest combo unchanged |
| Board.GameBoardManager.ClearGameBoard | Assets/Scripts/Core/Gameplay/GameBoardManager.cs:376-384 | every card destroyed, both lists empty, neither slot present |
| Board.GameBoardManager.RestartGame | Assets/Scripts/Core/Gameplay/GameBoardManager.cs:347-366 | old cards destroyed, no pairs, active, the column constraint the grid column count, the score session and the record restarted, then a new deal; an aborted deal leaves no cards and schedules no reveal end |
| Board.GameBoardManager.ClearForRestart | Assets/Scripts/Core/Gameplay/GameBoardManager.cs:349-363 | an empty, active board with no pairs and restarted collaborators |
| Board.GameBoardManager.ResetBoard | Assets/Scripts/Core/Gameplay/GameBoardManager.cs:349-351 | the board cleared, the pair count 0, active |
| Board.GameBoardManager.RestartSession | Assets/Scripts/Core/Gameplay/GameBoardManager.cs:355-363 | the score system restarts and the record is cleared |
| Board.GameBoardManager.RestoreBoardState | Assets/Scripts/Core/Gameplay/GameBoardManager.cs:425-481 | no records (null or empty): nothing changes; otherwise the old cards are destroyed, the cards are those restored from the records, the pair list is empty, GetConstraintCount returns the given constraint, the first slot holds the single face-up unmatched card when there is exactly one and is otherwise kept (and empty), and the second slot is empty |
| Board.GameBoardManager.GetConstraintCount | Assets/Scripts/Core/Gameplay/GameBoardManager.cs:411-416 | the container's column constraint: the grid column count once PrepareCardSprites has run, the saved constraint once RestoreBoardState has restored records |
| Board.GameBoardManager.RebuildFromSave | Assets/Scripts/Core/Gameplay/GameBoardManager.cs:433-478 | old cards destroyed, cards restored, pairs recounted, the first slot taken iff exactly one card is face up and unmatched |
| Board.GameBoardManager.ClearAndRestore | Assets/Scripts/Core/Gameplay/GameBoardManager.cs:433-455 | old cards destroyed, the constraint set, the restored cards distinct and alive |
| Board.GameBoardManager.RecountPairs | Assets/Scripts/Core/Gameplay/GameBoardManager.cs:457-462 | the pair count becomes the matched cards / 2 |
| Board.GameBoardManager.RestoreSelection | Assets/Scripts/Core/Gameplay/GameBoardManager.cs:464-478 | exactly one face-up unmatched card becomes the first selection; otherwise the slot is kept |
| Board.GameBoardManager.RestoreCards | Assets/Scripts/Core/Gameplay/GameBoardManager.cs:441-455 | one new card per record whose name resolves, in order, equal to RestoreAll of the records |
| Board.GameBoardManager.RestoredCard | Assets/Scripts/Core/Gameplay/GameBoardManager.cs:443-452 | no card iff the name does not resolve; otherwise a new card with the record's flags, interactable iff unmatched |
| Board.GameBoardManager.CountMatchedCards | Assets/Scripts/Core/Gameplay/GameBoardManager.cs:457-461 | the counting loop returns the matched count |
| Board.GameBoardManager.FindSingleFlipped | Assets/Scripts/Core/Gameplay/GameBoardManager.cs:464-473 | the number of face-up unmatched cards, and one of them when there is any |

## Left out

- Rendering, tweens and text: the UI scripts, sprite swapping on the card image, the completion tween, `Debug.Log`, `GetStatsSummary`, `GetScoreText` and `GetTotalScoreText`. These are presentation or culture-dependent formatting.
- Audio: every `soundManager?.Play…` call is a no-op here.
- Save files and `PersistenceManager`: they are file I/O and calls to members that do not exist in the source. `RestoreBoardState` takes its records as a parameter.
- Dependency wiring: `FindObjectOfType`, `InitializeDependencies`, `SetScoreSystem`, `SetStatsTracker`, `SetSoundManager` and `GameStatsTracker.OnDestroy`. The collaborators are fixed at construction, and the tracker observes the board's own score system.
- The C# events `OnGameStarted`, `OnGameCompleted`, `OnMatchAttempted`, `OnMatchFound` and the `OnGameStatsUpdated`/`OnGameCompleted` events of the tracker have no listener in the core. They are not modelled. Only `OnComboChanged`, which feeds the statistics record, is modelled.
- Floating point. Times are integer ticks. The combo multiplier and its increment are integers, as the asset defaults are. Positions are integral vectors: the grid produces multiples of 60, which floats hold exactly. Accuracy is a real number.
- The midpoint position argument of `OnSuccessfulMatch`/`OnFailedMatch`. It only places the score popup.
- `Card.ShowCardBriefly`, the per-card part of the initial reveal, is not modelled; only the board-level lock and unlock of `ShowAllCardsBriefly` is. What is lost: in the source every card flips face up and back down during the reveal. With the default durations (1 s reveal, 0.1 s flip delay, 1.5 s hold) the cards are face up from 0.1 s to about 1.7 s, so clicks on them are refused until then, although the board unlocks them at 1 s. In the model the cards stay face down and can be clicked from 1 s.
- Cards.Card.HideCard: the flip delay of `AnimateCardHide` is collapsed. The card turns face down at once instead of one flip delay later.
- `GetConstraintCount`: it is a read of the container's column constraint. The fallbacks for a missing container (`boardConfig.gridColumn`, then 2) are not modelled, because the container always exists here.
- Null entries in the sprite pool, which `FindSpriteByName` skips: sprites here are values and are never null.
- C# `int` is 32 bits and wraps around; Dafny's `int` is unbounded. The wrap-around is not modelled in `rows * columns`, in the score sums or in `matchedPairsCount`. On boards and scores of realistic size none of them comes near 2^31, so the game's behaviour does not depend on it.
- Unity's deferred `Destroy`: a destroyed card counts as null at once, not at the end of the frame.
- Board.GameBoardManager.InitializeGame: requires an empty board. Both callers guarantee one: `Start` runs on a fresh component, and `RestartGame` clears the board first.
- Board.GameBoardManager.RestoreCards: states at board level that the restored cards are alive and distinct and equal RestoreAll of the records. That the cards are new and interactable iff unmatched is stated per card by RestoredCard, not at board level.
- Board.GameBoardManager.ClearAndRestore: the same as RestoreCards. Freshness and interactability of the restored cards are stated per card in RestoredCard.
- Board.GameBoardManager.RestartGame and RestoreBoardState do not stop pending coroutines, and nor does the source. A match check or reveal end scheduled before a restart can still fire afterwards.
- Board.GameBoardManager.MatchPair and HandleSuccessfulMatch state what happens to the two slot cards. That the other cards are untouched follows from their `modifies` frames, not from an `ensures`.
